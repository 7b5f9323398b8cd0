/** Authorities and contexts together: in every reachable store they are linked
    one to one with one common deadline, so an identity, once rotated away, is
    stale for good, a lost rotation reply can be repaired only to its exact
    successor, and nothing ever lives longer than its first deadline. */
module AuthLinks {
  import opened Options
  import opened AuthScripts
  import opened AuthContexts

  /** The authority's current context exists, carries its identity and shares
      its deadline. */
  ghost predicate AuthorityLinked(s: Store, digest: Digest)
    requires digest in s.authorities
  {
    var a := s.authorities[digest].value;
    && ValidAuthority(a) && a.digest == digest != "" && a.handle in s.contexts
    && var c := s.contexts[a.handle];
       c.value.V2? && c.value.digest == digest && c.value.generation == a.generation && c.deadline == s.authorities[digest].deadline
  }

  /** A version 2 context belongs to a live authority, at or behind its
      generation; only the current one is at it. */
  ghost predicate ContextLinked(s: Store, handle: Handle)
    requires handle in s.contexts
  {
    var c := s.contexts[handle].value;
    && (c.V1? ==> ValidV1(c))
    && (c.V2? ==>
          && ValidV2(c) && handle != "" && c.digest in s.authorities
          && var a := s.authorities[c.digest];
             a.deadline == s.contexts[handle].deadline && c.generation <= a.value.generation
             && (c.generation == a.value.generation ==> a.value.handle == handle))
  }

  ghost predicate CredentialLinked(s: Store, key: string)
    requires key in s.credentials
  {
    var k := s.credentials[key];
    k.value.context in s.contexts && k.deadline <= s.contexts[k.value.context].deadline
  }

  ghost predicate Linked(s: Store) {
    && (forall d :: d in s.authorities ==> AuthorityLinked(s, d))
    && (forall h :: h in s.contexts ==> ContextLinked(s, h))
    && (forall k :: k in s.credentials ==> CredentialLinked(s, k))
  }

  // ---- Every script keeps the links -------------------------------------------------------------

  lemma LiveLinked(s: Store, now: int)
    requires Linked(s)
    ensures Linked(Live(s, now))
  {
    var t := Live(s, now);
    forall d | d in t.authorities ensures AuthorityLinked(t, d) { assert AuthorityLinked(s, d); }
    forall h | h in t.contexts ensures ContextLinked(t, h) { assert ContextLinked(s, h); }
    forall k | k in t.credentials ensures CredentialLinked(t, k) { assert CredentialLinked(s, k); }
  }

  /** A context rewritten in place, its identity untouched. */
  lemma RewriteLinked(s: Store, handle: Handle, c: Context)
    requires Linked(s) && handle in s.contexts
    requires if c.V1? then s.contexts[handle].value.V1? && ValidV1(c)
             else ValidV2(c) && s.contexts[handle].value.V2?
                  && c.digest == s.contexts[handle].value.digest && c.generation == s.contexts[handle].value.generation
    ensures Linked(Rewrite(s, handle, c))
  {
    var t := Rewrite(s, handle, c);
    assert ContextLinked(s, handle);
    forall d | d in t.authorities ensures AuthorityLinked(t, d) { assert AuthorityLinked(s, d); }
    forall h | h in t.contexts ensures ContextLinked(t, h) { assert ContextLinked(s, h); }
    forall k | k in t.credentials ensures CredentialLinked(t, k) { assert CredentialLinked(s, k); }
  }

  lemma CredentialKeeps(s: Store, handle: Handle, n: NewCredential, deadline: int)
    requires Linked(s) && handle in s.contexts && deadline <= s.contexts[handle].deadline
    ensures Linked(PutCredential(s, handle, n, deadline))
  {
    var t := PutCredential(s, handle, n, deadline);
    forall d | d in t.authorities ensures AuthorityLinked(t, d) { assert AuthorityLinked(s, d); }
    forall h | h in t.contexts ensures ContextLinked(t, h) { assert ContextLinked(s, h); }
    forall k | k in t.credentials ensures CredentialLinked(t, k) { if k != n.key { assert CredentialLinked(s, k); } }
  }

  lemma TicketKeeps(s: Store, digest: Digest, a: Authority)
    requires Linked(s) && digest in s.authorities && ValidAuthority(a)
    requires a == s.authorities[digest].value.(ticket := a.ticket)
    ensures Linked(PutAuthority(s, digest, a, s.authorities[digest].deadline))
  {
    var t := PutAuthority(s, digest, a, s.authorities[digest].deadline);
    assert AuthorityLinked(s, digest);
    forall d | d in t.authorities ensures AuthorityLinked(t, d) { assert AuthorityLinked(s, d); }
    forall h | h in t.contexts ensures ContextLinked(t, h) { assert ContextLinked(s, h); }
    forall k | k in t.credentials ensures CredentialLinked(t, k) { assert CredentialLinked(s, k); }
  }

  /** A new context becomes the current one of a new or advanced authority. */
  lemma AdvanceKeeps(s: Store, digest: Digest, generation: int, handle: Handle, core: Core, deadline: int)
    requires Linked(s) && IdentityArgs(digest, generation, handle) && ValidCore(core)
    requires if digest in s.authorities
             then s.authorities[digest].value.generation < generation && s.authorities[digest].deadline == deadline && handle !in s.contexts
             else handle in s.contexts ==> s.contexts[handle].value.V1? && s.contexts[handle].deadline == deadline
    ensures Linked(PutAuthority(
                     PutContext(s, handle, V2(core, digest, generation, None), deadline),
                     digest, Authority(digest, generation, handle, None), deadline))
  {
    var t := PutAuthority(
      PutContext(s, handle, V2(core, digest, generation, None), deadline),
      digest, Authority(digest, generation, handle, None), deadline);
    forall d | d in t.authorities ensures AuthorityLinked(t, d) {
      if d != digest { assert AuthorityLinked(s, d); }
    }
    forall h | h in t.contexts ensures ContextLinked(t, h) {
      if h != handle { assert ContextLinked(s, h); }
    }
    forall k | k in t.credentials ensures CredentialLinked(t, k) { assert CredentialLinked(s, k); }
  }

  lemma NewV1Keeps(s: Store, handle: Handle, nonce: string, deadline: int)
    requires Linked(s) && handle !in s.contexts
    ensures Linked(PutContext(s, handle, V1(Blank(nonce)), deadline))
  {
    var t := PutContext(s, handle, V1(Blank(nonce)), deadline);
    forall d | d in t.authorities ensures AuthorityLinked(t, d) { assert AuthorityLinked(s, d); }
    forall h | h in t.contexts ensures ContextLinked(t, h) { if h != handle { assert ContextLinked(s, h); } }
    forall k | k in t.credentials ensures CredentialLinked(t, k) { assert CredentialLinked(s, k); }
  }

  /** What owning a context means once the links hold. */
  lemma OwnedLinks(s: Store, digest: Digest, generation: int, handle: Handle)
    requires Linked(s)
    ensures Owns(s, digest, generation, handle) <==>
              digest in s.authorities && s.authorities[digest].value.generation == generation && s.authorities[digest].value.handle == handle
    ensures Owns(s, digest, generation, handle) ==>
              && handle in s.contexts && ValidV2(s.contexts[handle].value)
              && Shared(s, digest, handle) == s.authorities[digest].deadline == s.contexts[handle].deadline
  {
    if digest in s.authorities {
      assert AuthorityLinked(s, digest);
      var h := s.authorities[digest].value.handle;
      assert ContextLinked(s, h);
    }
  }

  lemma ContextValid(s: Store, handle: Handle)
    requires Linked(s) && handle in s.contexts
    ensures ValidV1(s.contexts[handle].value) || ValidV2(s.contexts[handle].value)
  {
    assert ContextLinked(s, handle);
  }

  lemma V1Keeps(s: Store, script: Script, now: int)
    requires Linked(s) && now >= 0 && (script.BootstrapV1? || script.BeginV1? || script.CommitV1?)
    requires s == Live(s, now)
    ensures Linked(Step(s, script, now).0)
  {
    hide Live, Linked;
    match script {
      case BootstrapV1(handle, nonce, ttl, _) =>
        if handle !in s.contexts { NewV1Keeps(s, handle, nonce, now + ttl * SECOND); }
      case BeginV1(handle, lease, token, kind) =>
        if handle in s.contexts && ValidV1(s.contexts[handle].value) && s.contexts[handle].value.core.operationEpoch < MAX_EPOCH && lease >= 1 {
          RewriteLinked(s, handle, V1(Opened(s.contexts[handle].value.core, token, kind, now + lease * SECOND)));
        }
      case CommitV1(handle, _, _, principal) =>
        if handle in s.contexts && ValidV1(s.contexts[handle].value) && s.contexts[handle].value.core.subjectEpoch < MAX_EPOCH {
          var core := s.contexts[handle].value.core;
          RewriteLinked(s, handle, V1(Closed(core, principal, core.subjectEpoch + 1)));
        }
      case _ =>
    }
  }

  lemma EstablishKeeps(s: Store, script: Script, now: int)
    requires Linked(s) && now >= 0 && script.Bootstrap? && s == Live(s, now)
    ensures Linked(Step(s, script, now).0)
  {
    hide Live, Linked, SameAuthority, Consistent;
    var handle := script.handle;
    if Step(s, script, now).1.Created? || Step(s, script, now).1.Migrated? {
      var core := if handle in s.contexts then s.contexts[handle].value.core else Blank(script.nonce);
      var deadline := if handle in s.contexts then s.contexts[handle].deadline else now + script.ttl * SECOND;
      AdvanceKeeps(s, script.digest, script.generation, handle, core, deadline);
    }
  }

  lemma RotateKeeps(s: Store, script: Script, now: int)
    requires Linked(s) && (script.Rotate? || script.IssueTicket?) && s == Live(s, now) && now >= 0
    ensures Linked(Step(s, script, now).0)
  {
    hide Live, Linked, Owns;
    OwnedLinks(s, script.digest, script.generation, script.handle);
    if Step(s, script, now).1.Rotated? {
      AdvanceKeeps(s, script.digest, script.generation + 1, script.newHandle, Blank(script.nonce), s.authorities[script.digest].deadline);
    }
    if Step(s, script, now).1.Issued? {
      var ticket := Ticket(script.ticket, script.generation, now / SECOND * SECOND + script.seconds * SECOND);
      var a := s.authorities[script.digest].value;
      AuthorityValid(s, script.digest);
      TicketKeeps(s, script.digest, a.(ticket := Some(ticket)));
    }
  }

  lemma AuthorityValid(s: Store, digest: Digest)
    requires Linked(s) && digest in s.authorities
    ensures ValidAuthority(s.authorities[digest].value)
  {
    assert AuthorityLinked(s, digest);
  }

  lemma BeginKeeps(s: Store, script: Script, now: int)
    requires Linked(s) && now >= 0 && script.Begin? && s == Live(s, now)
    ensures Linked(Step(s, script, now).0)
  {
    hide Live, Linked, Owns;
    OwnedLinks(s, script.digest, script.generation, script.handle);
    if Step(s, script, now).1.Begun? {
      var c := s.contexts[script.handle].value;
      RewriteLinked(s, script.handle,
        c.(core := Opened(c.core, script.token, script.kind, now + script.lease * SECOND),
           refresh := if script.kind == "refresh" then c.refresh else Some(0)));
    }
  }

  lemma CommitKeeps(s: Store, script: Script, now: int)
    requires Linked(s) && script.Commit? && s == Live(s, now)
    ensures Linked(Step(s, script, now).0)
  {
    hide Live, Linked, Owns, Announces, SameSubject, CredentialLive;
    OwnedLinks(s, script.digest, script.generation, script.handle);
    if Step(s, script, now).1.Committed? {
      var c := s.contexts[script.handle].value;
      var c' := Recorded(c, script.principal, script.epoch, script.credential.Some?);
      RewriteLinked(s, script.handle, c');
      var t := Rewrite(s, script.handle, c');
      var deadline := s.contexts[script.handle].deadline;
      if script.credential.Some? {
        var n := script.credential.value;
        CredentialKeeps(t, script.handle, n, if n.expiresAt * SECOND < deadline then n.expiresAt * SECOND else deadline);
      }
    }
  }

  lemma StoreKeeps(s: Store, script: Script, now: int)
    requires Linked(s) && script.StoreCredential? && s == Live(s, now)
    ensures Linked(Step(s, script, now).0)
  {
    hide Live, Linked, Owns;
    OwnedLinks(s, script.digest, script.generation, script.handle);
    if Step(s, script, now).1.Stored? {
      CredentialKeeps(s, script.handle, script.stored, Shared(s, script.digest, script.handle));
    }
  }

  lemma LiveTwice(s: Store, now: int)
    ensures Live(Live(s, now), now) == Live(s, now)
  {
  }

  lemma StepOfLive(s: Store, script: Script, now: int)
    ensures Step(Live(s, now), script, now) == Step(s, script, now)
  {
    LiveTwice(s, now);
  }

  /** Every script keeps the links. */
  lemma NextLinked(s: Store, call: Call)
    requires Linked(s) && call.now >= 0
    ensures Linked(Next(s, call))
  {
    LiveLinked(s, call.now);
    LiveTwice(s, call.now);
    StepOfLive(s, call.script, call.now);
    var t := Live(s, call.now);
    hide Linked, Live;
    match call.script {
      case Bootstrap(_, _, _, _, _, _, _) => hide Step; EstablishKeeps(t, call.script, call.now);
      case Rotate(_, _, _, _, _, _, _) => hide Step; RotateKeeps(t, call.script, call.now);
      case IssueTicket(_, _, _, _, _) => hide Step; RotateKeeps(t, call.script, call.now);
      case Begin(_, _, _, _, _, _) => hide Step; BeginKeeps(t, call.script, call.now);
      case Commit(_, _, _, _, _, _, _) => hide Step; CommitKeeps(t, call.script, call.now);
      case StoreCredential(_, _, _, _, _, _, _, _) => hide Step; StoreKeeps(t, call.script, call.now);
      case Reconcile(_, _, _) =>
      case RepairTarget(_, _, _, _, _) =>
      case ReadGrant(_, _, _) =>
      case _ => hide Step; V1Keeps(t, call.script, call.now);
    }
  }

  ghost predicate Clocked(run: seq<Call>) {
    forall i :: 0 <= i < |run| ==> run[i].now >= 0
  }

  lemma {:induction false} LinkedFrom(s: Store, run: seq<Call>)
    requires Linked(s) && Clocked(run)
    ensures Linked(After(s, run))
    decreases |run|
  {
    hide Linked, Next;
    if run != [] {
      NextLinked(s, run[0]);
      LinkedFrom(Next(s, run[0]), run[1..]);
    }
  }

  /** Every store a run of scripts reaches is linked. */
  lemma LinkedAlways(run: seq<Call>)
    requires Clocked(run)
    ensures Linked(After(NOTHING, run))
  {
    LinkedFrom(NOTHING, run);
  }

  // ---- One authority over its lifetime ------------------------------------------------------------

  predicate Rotates(s: Store, call: Call, digest: Digest) {
    call.script.Rotate? && call.script.digest == digest && Step(s, call.script, call.now).1.Rotated?
  }

  /** How one script may move a live authority. */
  predicate Advances(a: Key<Authority>, a': Key<Authority>, call: Call, rotates: bool) {
    && a'.deadline == a.deadline
    && if rotates
       then && call.script.Rotate? && call.script.generation == a.value.generation && call.script.handle == a.value.handle
            && TicketAdmits(a.value, call.script.ticket, a.value.generation, call.now)
            && a'.value.generation == a.value.generation + 1 && a'.value.handle == call.script.newHandle && a'.value.ticket.None?
       else && a'.value.generation == a.value.generation && a'.value.handle == a.value.handle
            && (a'.value.ticket == a.value.ticket
                || (call.script.IssueTicket? && a'.value.ticket.Some? && a'.value.ticket.value.digest == call.script.ticket))
  }

  lemma OthersKeepAuthorities(s: Store, call: Call)
    requires !call.script.Rotate? && !call.script.IssueTicket? && !call.script.Bootstrap?
    ensures Next(s, call).authorities == Live(s, call.now).authorities
  {
    hide Live, Owns, Announces, SameSubject, CredentialLive, ValidAuthority, ValidV2;
  }

  lemma BootstrapKeepsAuthority(s: Store, call: Call, digest: Digest)
    requires call.script.Bootstrap? && digest in s.authorities && call.now < s.authorities[digest].deadline
    ensures digest in Next(s, call).authorities && Next(s, call).authorities[digest] == s.authorities[digest]
  {
    hide SameAuthority, Consistent, ValidAuthority, ValidV2;
  }

  lemma TicketStep(s: Store, call: Call, digest: Digest)
    requires Linked(s) && digest in s.authorities && call.now < s.authorities[digest].deadline && call.script.IssueTicket?
    ensures digest in Next(s, call).authorities
    ensures Advances(s.authorities[digest], Next(s, call).authorities[digest], call, false)
  {
    LiveLinked(s, call.now);
    OwnedLinks(Live(s, call.now), call.script.digest, call.script.generation, call.script.handle);
    hide Linked, Owns;
  }

  lemma RotateStep(s: Store, call: Call, digest: Digest)
    requires Linked(s) && digest in s.authorities && call.now < s.authorities[digest].deadline && call.script.Rotate?
    ensures digest in Next(s, call).authorities
    ensures Advances(s.authorities[digest], Next(s, call).authorities[digest], call, Rotates(s, call, digest))
  {
    LiveLinked(s, call.now);
    OwnedLinks(Live(s, call.now), call.script.digest, call.script.generation, call.script.handle);
    hide Linked, Owns, ValidV2;
  }

  /** A live authority keeps its deadline; its generation and handle move only by
      a rotation from exactly that identity, one generation on. */
  lemma AuthorityStep(s: Store, call: Call, digest: Digest)
    requires Linked(s) && digest in s.authorities && call.now < s.authorities[digest].deadline
    ensures digest in Next(s, call).authorities
    ensures Advances(s.authorities[digest], Next(s, call).authorities[digest], call, Rotates(s, call, digest))
  {
    hide Linked, Step;
    if call.script.Rotate? {
      RotateStep(s, call, digest);
    } else if call.script.IssueTicket? {
      TicketStep(s, call, digest);
    } else if call.script.Bootstrap? {
      BootstrapKeepsAuthority(s, call, digest);
    } else {
      OthersKeepAuthorities(s, call);
    }
  }

  /** A rotation leads to the next generation of a live authority. */
  lemma {:induction false} AuthorityOverTime(s: Store, run: seq<Call>, digest: Digest)
    requires Linked(s) && Clocked(run) && AuthorityLives(s, run, digest)
    ensures Linked(After(s, run)) && digest in After(s, run).authorities
    ensures After(s, run).authorities[digest].deadline == s.authorities[digest].deadline
    ensures s.authorities[digest].value.generation <= After(s, run).authorities[digest].value.generation
    decreases |run|
  {
    hide Linked, Next;
    if run != [] {
      AuthorityStep(s, run[0], digest);
      NextLinked(s, run[0]);
      AuthorityOverTime(Next(s, run[0]), run[1..], digest);
    }
  }

  // ---- Stale identities ------------------------------------------------------------------------------

  /** Version 2 scripts a browser can only use with its identity. */
  predicate Presents(script: Script, digest: Digest, generation: int) {
    && (script.Bootstrap? || script.Rotate? || script.Reconcile? || script.IssueTicket? || script.ReadGrant?
        || script.Begin? || script.Commit? || script.StoreCredential?)
    && script.digest == digest && script.generation == generation
  }

  predicate Refused(reply: Reply) {
    reply.Stale? || reply.Corrupt? || reply.Superseded? || reply.GenerationConflict?
  }

  lemma BehindRefused(s: Store, call: Call, digest: Digest, generation: int)
    requires Linked(s) && digest in s.authorities && call.now < s.authorities[digest].deadline
    requires generation < s.authorities[digest].value.generation && Presents(call.script, digest, generation)
    ensures Refused(Step(s, call.script, call.now).1) && Next(s, call) == Live(s, call.now)
  {
    LiveLinked(s, call.now);
    OwnedLinks(Live(s, call.now), digest, generation, call.script.handle);
    hide Linked, Owns, SameAuthority;
  }

  /** Once an authority has moved past a generation, every script that presents
      that generation is refused and changes nothing, for the authority's whole
      lifetime. */
  lemma StaleForever(s: Store, run: seq<Call>, digest: Digest, generation: int, call: Call)
    requires Linked(s) && Clocked(run) && AuthorityLives(s, run, digest)
    requires generation < s.authorities[digest].value.generation && Presents(call.script, digest, generation)
    requires call.now < s.authorities[digest].deadline
    ensures Refused(Step(After(s, run), call.script, call.now).1)
    ensures Next(After(s, run), call) == Live(After(s, run), call.now)
  {
    AuthorityOverTime(s, run, digest);
    BehindRefused(After(s, run), call, digest, generation);
  }

  // ---- Tickets -----------------------------------------------------------------------------------------

  predicate Reissues(call: Call, ticket: string) {
    call.script.IssueTicket? && call.script.ticket == ticket
  }

  predicate TicketGone(a: Authority, ticket: string) {
    a.ticket.Some? ==> a.ticket.value.digest != ticket
  }

  /** A ticket authorises one rotation: once used, or replaced, it opens nothing
      again unless the same ticket is issued anew. */
  lemma {:induction false} TicketUsedOnce(s: Store, run: seq<Call>, digest: Digest, ticket: string, call: Call)
    requires Linked(s) && Clocked(run) && AuthorityLives(s, run, digest)
    requires TicketGone(s.authorities[digest].value, ticket)
    requires forall i :: 0 <= i < |run| ==> !Reissues(run[i], ticket)
    requires call.script.Rotate? && call.script.digest == digest && call.script.ticket == ticket
    requires call.now < s.authorities[digest].deadline
    ensures !Step(After(s, run), call.script, call.now).1.Rotated?
    decreases |run|
  {
    hide Linked, Next, Step;
    if run == [] {
      if Step(s, call.script, call.now).1.Rotated? { AuthorityStep(s, call, digest); }
    } else {
      AuthorityStep(s, run[0], digest);
      NextLinked(s, run[0]);
      TicketUsedOnce(Next(s, run[0]), run[1..], digest, ticket, call);
    }
  }

  /** Using a ticket leaves the authority without one. */
  lemma RotationSpendsTicket(s: Store, call: Call)
    requires Linked(s) && call.script.Rotate? && Step(s, call.script, call.now).1.Rotated?
    ensures var digest := call.script.digest;
            && digest in s.authorities && digest in Next(s, call).authorities
            && TicketGone(Next(s, call).authorities[digest].value, call.script.ticket)
  {
    hide Linked, Owns, ValidAuthority;
    RotatesLive(s, call);
  }

  lemma RotatesLive(s: Store, call: Call)
    requires call.script.Rotate? && Step(s, call.script, call.now).1.Rotated?
    ensures call.script.digest in s.authorities && call.now < s.authorities[call.script.digest].deadline
  {
    hide ValidAuthority, ValidV2;
  }

  // ---- Lost replies ---------------------------------------------------------------------------------------

  /** What a repair request from a base cookie is told, exactly. */
  lemma RepairExact(s: Store, call: Call)
    requires Linked(s) && call.script.RepairTarget? && call.script.target == call.script.generation + 1 <= MAX_EPOCH
    requires var h := call.script.handle;
             h in s.contexts && s.contexts[h].value.V2? && s.contexts[h].value.digest == call.script.digest
             && s.contexts[h].value.generation == call.script.generation && call.now < s.contexts[h].deadline
    requires call.script.newHandle != call.script.handle && call.script.newHandle != ""
    ensures call.script.digest in s.authorities
    ensures var a := s.authorities[call.script.digest];
            Step(s, call.script, call.now) ==
              (Live(s, call.now),
               if call.script.newHandle in Live(s, call.now).contexts then
                 if a.value.generation == call.script.target && a.value.handle == call.script.newHandle
                 then TargetRepaired(a.deadline - call.now) else Stale
               else if a.value.generation == call.script.generation then AuthorityBase
               else Stale)
  {
    var t := Live(s, call.now);
    BaseLive(s, call.script.handle, call.now);
    LiveLinked(s, call.now);
    OwnedLinks(t, call.script.digest, call.script.generation, call.script.handle);
    OwnedLinks(t, call.script.digest, call.script.target, call.script.newHandle);
    AuthorityValid(t, call.script.digest);
    hide Linked, Owns, Shared, Live, ValidAuthority;
  }

  /** A live context of an authority is found live and valid together with it. */
  lemma BaseLive(s: Store, handle: Handle, now: int)
    requires Linked(s) && handle in s.contexts && s.contexts[handle].value.V2? && now < s.contexts[handle].deadline
    ensures var digest := s.contexts[handle].value.digest;
            && digest in s.authorities && digest in Live(s, now).authorities
            && Live(s, now).authorities[digest] == s.authorities[digest]
            && handle in Live(s, now).contexts && Live(s, now).contexts[handle] == s.contexts[handle]
            && ValidV2(s.contexts[handle].value)
            && digest != "" && handle != "" && IsEpoch(s.contexts[handle].value.generation)
  {
    assert ContextLinked(s, handle);
  }

  /** No rotation of this authority happens during the run. */
  ghost predicate Settled(s: Store, run: seq<Call>, digest: Digest)
    decreases |run|
  {
    run == [] || (!Rotates(s, run[0], digest) && Settled(Next(s, run[0]), run[1..], digest))
  }

  lemma {:induction false} SettledKeeps(s: Store, run: seq<Call>, digest: Digest)
    requires Linked(s) && Clocked(run) && AuthorityLives(s, run, digest) && Settled(s, run, digest)
    ensures Linked(After(s, run)) && digest in After(s, run).authorities
    ensures var a, a' := s.authorities[digest], After(s, run).authorities[digest];
            a'.value.generation == a.value.generation && a'.value.handle == a.value.handle && a'.deadline == a.deadline
    decreases |run|
  {
    hide Linked, Next, Rotates;
    if run != [] {
      AuthorityStep(s, run[0], digest);
      NextLinked(s, run[0]);
      SettledKeeps(Next(s, run[0]), run[1..], digest);
    }
  }

  /** After a rotation, until the next one or expiry: reconciliation accepts the
      new identity and no other, a repair from the base identity leads to the
      exact successor and to nothing else, and no one is told that the authority
      is still at the base. */
  lemma LostReplyRepaired(s: Store, rotate: Call, run: seq<Call>, handle: Handle, generation: int, now: int)
    requires Linked(s) && rotate.now >= 0 && Clocked(run)
    requires rotate.script.Rotate? && Step(s, rotate.script, rotate.now).1.Rotated?
    requires AuthorityLives(Next(s, rotate), run, rotate.script.digest) && Settled(Next(s, rotate), run, rotate.script.digest)
    requires rotate.script.digest in Next(s, rotate).authorities && now < Next(s, rotate).authorities[rotate.script.digest].deadline
    requires IdentityArgs(rotate.script.digest, generation, handle)
    ensures var base := rotate.script;
            var t := After(Next(s, rotate), run);
            && (Step(t, Reconcile(base.digest, generation, handle), now).1.Reconciled? <==>
                  generation == base.generation + 1 && handle == base.newHandle)
            && (Step(t, RepairTarget(base.digest, base.generation, base.generation + 1, base.handle, handle), now).1.TargetRepaired? <==>
                  handle == base.newHandle)
            && !Step(t, RepairTarget(base.digest, base.generation, base.generation + 1, base.handle, handle), now).1.AuthorityBase?
  {
    hide Linked, Next, Step;
    var base := rotate.script;
    var s1 := Next(s, rotate);
    RotatesLive(s, rotate);
    AuthorityStep(s, rotate, base.digest);
    NextLinked(s, rotate);
    SettledKeeps(s1, run, base.digest);
    BaseSurvives(s, rotate, run);
    ReplyAfterRotation(After(s1, run), base.digest, base.generation, base.handle, base.newHandle, generation, handle, now);
  }

  lemma ReplyAfterRotation(
    t: Store, digest: Digest, generation: int, handle: Handle, newHandle: Handle, generation': int, handle': Handle, now: int)
    requires Linked(t) && digest in t.authorities && now < t.authorities[digest].deadline && generation + 1 <= MAX_EPOCH
    requires t.authorities[digest].value.generation == generation + 1 && t.authorities[digest].value.handle == newHandle
    requires handle in t.contexts && t.contexts[handle].value.V2? && t.contexts[handle].value.digest == digest
    requires t.contexts[handle].value.generation == generation && t.contexts[handle].deadline == t.authorities[digest].deadline
    requires IdentityArgs(digest, generation', handle')
    ensures Step(t, Reconcile(digest, generation', handle'), now).1.Reconciled? <==> generation' == generation + 1 && handle' == newHandle
    ensures var reply := Step(t, RepairTarget(digest, generation, generation + 1, handle, handle'), now).1;
            (reply.TargetRepaired? <==> handle' == newHandle) && !reply.AuthorityBase?
  {
    hide Linked, Step;
    MovedOn(t, digest, handle);
    if handle' == handle {
      RepairToSelf(t, digest, generation, handle, now);
    } else {
      RepairExact(t, Call(RepairTarget(digest, generation, generation + 1, handle, handle'), now));
    }
    ReconcileExact(t, Call(Reconcile(digest, generation', handle'), now));
    CurrentLive(t, digest, now);
  }

  /** A context behind its authority's generation is not the current one. */
  lemma MovedOn(t: Store, digest: Digest, handle: Handle)
    requires Linked(t) && digest in t.authorities && handle in t.contexts && t.contexts[handle].value.V2?
    requires t.contexts[handle].value.generation != t.authorities[digest].value.generation
    ensures handle != t.authorities[digest].value.handle
  {
    assert AuthorityLinked(t, digest);
  }

  lemma RepairToSelf(t: Store, digest: Digest, generation: int, handle: Handle, now: int)
    ensures Step(t, RepairTarget(digest, generation, generation + 1, handle, handle), now).1 == Corrupt
  {
  }

  lemma CurrentLive(t: Store, digest: Digest, now: int)
    requires Linked(t) && digest in t.authorities && now < t.authorities[digest].deadline
    ensures t.authorities[digest].value.handle in Live(t, now).contexts
  {
    assert AuthorityLinked(t, digest);
  }

  /** Reconciliation accepts exactly the authority's current identity. */
  lemma ReconcileExact(s: Store, call: Call)
    requires Linked(s) && call.script.Reconcile? && IdentityArgs(call.script.digest, call.script.generation, call.script.handle)
    requires call.script.digest in s.authorities && call.now < s.authorities[call.script.digest].deadline
    ensures var a := s.authorities[call.script.digest].value;
            Step(s, call.script, call.now) ==
              (Live(s, call.now), if a.generation == call.script.generation && a.handle == call.script.handle then Reconciled else Stale)
  {
    LiveLinked(s, call.now);
    OwnedLinks(Live(s, call.now), call.script.digest, call.script.generation, call.script.handle);
    hide Linked, Owns;
  }

  /** The base context outlives the rotation with the authority's deadline. */
  lemma BaseSurvives(s: Store, rotate: Call, run: seq<Call>)
    requires Linked(s) && rotate.now >= 0 && Clocked(run)
    requires rotate.script.Rotate? && Step(s, rotate.script, rotate.now).1.Rotated?
    requires AuthorityLives(Next(s, rotate), run, rotate.script.digest)
    ensures var base := rotate.script;
            var t := After(Next(s, rotate), run);
            && base.generation + 1 <= MAX_EPOCH
            && base.handle in t.contexts && t.contexts[base.handle].value.V2?
            && t.contexts[base.handle].value.digest == base.digest && t.contexts[base.handle].value.generation == base.generation
            && base.digest in Next(s, rotate).authorities
            && t.contexts[base.handle].deadline == Next(s, rotate).authorities[base.digest].deadline
  {
    var base := rotate.script;
    RotatesLive(s, rotate);
    RotationShape(s, rotate);
    NextLinked(s, rotate);
    hide Step, Linked, Next;
    ContextWithAuthority(Next(s, rotate), run, base.digest, base.handle);
  }

  lemma RotationShape(s: Store, rotate: Call)
    requires Linked(s) && rotate.script.Rotate? && Step(s, rotate.script, rotate.now).1.Rotated?
    ensures var base := rotate.script;
            var t := Next(s, rotate);
            && base.generation + 1 <= MAX_EPOCH
            && base.digest in t.authorities && base.handle in t.contexts && t.contexts[base.handle].value.V2?
            && t.contexts[base.handle].value.digest == base.digest && t.contexts[base.handle].value.generation == base.generation
            && t.contexts[base.handle].deadline == t.authorities[base.digest].deadline
  {
    LiveLinked(s, rotate.now);
    OwnedLinks(Live(s, rotate.now), rotate.script.digest, rotate.script.generation, rotate.script.handle);
    assert Owns(Live(s, rotate.now), rotate.script.digest, rotate.script.generation, rotate.script.handle);
    hide Linked;
  }

  /** A version 2 context lives as long as its authority. */
  lemma {:induction false} ContextWithAuthority(s: Store, run: seq<Call>, digest: Digest, handle: Handle)
    requires Linked(s) && Clocked(run) && AuthorityLives(s, run, digest)
    requires handle in s.contexts && s.contexts[handle].value.V2? && s.contexts[handle].value.digest == digest
    requires s.contexts[handle].deadline == s.authorities[digest].deadline
    ensures handle in After(s, run).contexts
    ensures var c, c' := s.contexts[handle], After(s, run).contexts[handle];
            c'.value.V2? && c'.value.digest == digest && c'.value.generation == c.value.generation && c'.deadline == c.deadline
    decreases |run|
  {
    hide Linked, Next;
    if run != [] {
      AuthorityStep(s, run[0], digest);
      NextLinked(s, run[0]);
      StepKeepsContext(s, run[0], handle);
      hide SamePrincipal;
      ContextWithAuthority(Next(s, run[0]), run[1..], digest, handle);
    }
  }

  // ---- No renewal --------------------------------------------------------------------------------------------

  /** Over an authority's lifetime its deadline stands still, every context of
      it, of any generation, has that very deadline, and no stored credential
      outlives the context that wrote it. */
  lemma NeverRenewed(s: Store, run: seq<Call>, digest: Digest, handle: Handle, key: string)
    requires Linked(s) && Clocked(run) && AuthorityLives(s, run, digest)
    ensures var t := After(s, run);
            && digest in t.authorities && t.authorities[digest].deadline == s.authorities[digest].deadline
            && (handle in t.contexts && t.contexts[handle].value.V2? && t.contexts[handle].value.digest == digest ==>
                  t.contexts[handle].deadline == s.authorities[digest].deadline)
            && (key in t.credentials ==>
                  t.credentials[key].value.context in t.contexts
                  && t.credentials[key].deadline <= t.contexts[t.credentials[key].value.context].deadline)
  {
    AuthorityOverTime(s, run, digest);
    var t := After(s, run);
    if handle in t.contexts { assert ContextLinked(t, handle); }
    if key in t.credentials { assert CredentialLinked(t, key); }
  }

  /** Migrating a version 1 context inherits its deadline; only a context made
      from nothing gets the configured age. */
  lemma MigrationInherits(s: Store, call: Call)
    requires call.script.Bootstrap? && (Step(s, call.script, call.now).1.Created? || Step(s, call.script, call.now).1.Migrated?)
    ensures var s0, t := Live(s, call.now), Next(s, call);
            var d, h := call.script.digest, call.script.handle;
            && d in t.authorities && h in t.contexts && t.authorities[d].deadline == t.contexts[h].deadline
            && t.contexts[h].deadline == (if h in s0.contexts then s0.contexts[h].deadline else call.now + call.script.ttl * SECOND)
            && (h in s0.contexts ==> t.contexts[h].value.core == s0.contexts[h].value.core)
  {
    hide SameAuthority, Consistent;
  }

  /** The marker of a refresh never exceeds the operation epoch, in any store a
      run reaches. */
  lemma MarkerBounded(run: seq<Call>, handle: Handle)
    requires Clocked(run)
    ensures var t := After(NOTHING, run);
            handle in t.contexts ==> 0 <= t.contexts[handle].value.Marker() <= t.contexts[handle].value.core.operationEpoch
  {
    LinkedAlways(run);
    var t := After(NOTHING, run);
    if handle in t.contexts { ContextValid(t, handle); }
  }
}

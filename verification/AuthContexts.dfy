/** One context over its lifetime: what the epochs mean, which commits succeed,
    and when a waiter may adopt the refresh of a peer. */
module AuthContexts {
  import opened Options
  import opened AuthScripts

  predicate SamePrincipal(a: Option<Principal>, b: Option<Principal>) {
    || (a.None? && b.None?)
    || (a.Some? && b.Some? && SameSubject(a.value, b.value) && SameAuthorization(a.value, b.value))
  }

  /** How a context may change while its key lives: epochs never go back, and an
      equal subject epoch means an unchanged identity and authorization. */
  predicate Evolves(c: Context, c': Context) {
    && c.core.operationEpoch <= c'.core.operationEpoch
    && c.core.subjectEpoch <= c'.core.subjectEpoch
    && (c.core.subjectEpoch == c'.core.subjectEpoch ==> SamePrincipal(c.core.principal, c'.core.principal))
    && (c.V2? ==> c'.V2? && c'.digest == c.digest && c'.generation == c.generation)
  }

  lemma EvolvesChain(a: Context, b: Context, c: Context)
    requires Evolves(a, b) && Evolves(b, c)
    ensures Evolves(a, c)
  {
    hide SameAuthorization;
    if a.core.subjectEpoch == c.core.subjectEpoch && a.core.principal.Some? {
      AuthorizationChain(a.core.principal.value, b.core.principal.value, c.core.principal.value);
    }
  }

  lemma AuthorizationChain(a: Principal, b: Principal, c: Principal)
    requires SameAuthorization(a, b) && SameAuthorization(b, c)
    ensures SameAuthorization(a, c)
  {
    hide FieldText;
  }

  lemma SamePrincipalRefl(p: Option<Principal>)
    ensures SamePrincipal(p, p)
  {
  }

  // ---- What one script does to one context -----------------------------------------------------

  /** The script operated on this context: it began, committed or migrated it. */
  predicate Acts(script: Script, handle: Handle, reply: Reply) {
    || ((script.Begin? || script.BeginV1?) && script.handle == handle && reply.Begun?)
    || ((script.Commit? || script.CommitV1?) && script.handle == handle && reply.Committed?)
    || (script.Bootstrap? && script.handle == handle && (reply.Created? || reply.Migrated?))
  }

  /** What it must have found. */
  predicate Admits(c: Context, script: Script, now: int) {
    match script
    case BeginV1(_, lease, token, kind) => ValidV1(c) && c.core.operationEpoch < MAX_EPOCH && lease >= 1 && token != ""
    case Begin(_, _, _, lease, token, kind) => ValidV2(c) && c.core.operationEpoch < MAX_EPOCH && lease >= 1 && token != ""
    case CommitV1(_, epoch, token, _) =>
      && ValidV1(c) && c.core.operationEpoch == epoch >= 1 && c.core.token == token != ""
      && c.core.leaseUntil > now && c.core.subjectEpoch < MAX_EPOCH
    case Commit(_, _, _, epoch, token, principal, _) =>
      && ValidV2(c) && c.core.operationEpoch == epoch >= 1 && c.core.token == token != ""
      && c.core.leaseUntil > now && c.core.subjectEpoch < MAX_EPOCH
      && (IsRefresh(c, principal) ==> c.core.principal.Some? && SameSubject(c.core.principal.value, principal.value))
    case Bootstrap(_, _, _, _, _, _, _) => ValidV1(c)
    case _ => true
  }

  /** And what it made of it. */
  function Effect(c: Context, script: Script, now: int): Context
    requires Admits(c, script, now)
  {
    match script
    case BeginV1(_, lease, token, kind) => V1(Opened(c.core, token, kind, now + lease * SECOND))
    case Begin(_, _, _, lease, token, kind) =>
      c.(core := Opened(c.core, token, kind, now + lease * SECOND), refresh := if kind == "refresh" then c.refresh else Some(0))
    case CommitV1(_, _, _, principal) => V1(Closed(c.core, principal, c.core.subjectEpoch + 1))
    case Commit(_, _, _, epoch, _, principal, credential) => Recorded(c, principal, epoch, credential.Some?)
    case Bootstrap(digest, generation, _, _, _, _, _) => V2(c.core, digest, generation, None)
    case _ => c
  }

  lemma OldScriptActs(s: Store, call: Call, handle: Handle)
    requires handle in s.contexts && call.now < s.contexts[handle].deadline
    requires call.script.BootstrapV1? || call.script.BeginV1? || call.script.CommitV1?
    ensures ActsAsShown(s, call, handle)
  {
  }

  lemma AuthorityScriptActs(s: Store, call: Call, handle: Handle)
    requires handle in s.contexts && call.now < s.contexts[handle].deadline
    requires call.script.Bootstrap? || call.script.Rotate? || call.script.Reconcile? || call.script.RepairTarget? || call.script.IssueTicket?
    ensures ActsAsShown(s, call, handle)
  {
    hide Owns, SameAuthority, TicketAdmits, ValidAuthority, Consistent;
  }

  lemma OperationActs(s: Store, call: Call, handle: Handle)
    requires handle in s.contexts && call.now < s.contexts[handle].deadline
    requires call.script.ReadGrant? || call.script.Begin? || call.script.StoreCredential?
    ensures ActsAsShown(s, call, handle)
  {
    hide ValidAuthority;
  }

  lemma CommitActs(s: Store, call: Call, handle: Handle)
    requires handle in s.contexts && call.now < s.contexts[handle].deadline && call.script.Commit?
    ensures ActsAsShown(s, call, handle)
  {
    hide ValidAuthority, Announces, SameSubject, CredentialLive;
  }

  ghost predicate ActsAsShown(s: Store, call: Call, handle: Handle)
    requires handle in s.contexts
  {
    var (s', reply) := Step(s, call.script, call.now);
    var c := s.contexts[handle];
    && handle in s'.contexts
    && (if Acts(call.script, handle, reply)
        then Admits(c.value, call.script, call.now) && s'.contexts[handle] == c.(value := Effect(c.value, call.script, call.now))
        else s'.contexts[handle] == c)
  }

  /** A script leaves a live context alone or has exactly its effect on it, and
      never moves its deadline. */
  lemma ContextStep(s: Store, call: Call, handle: Handle)
    requires handle in s.contexts && call.now < s.contexts[handle].deadline
    ensures ActsAsShown(s, call, handle)
  {
    hide ActsAsShown;
    if call.script.BootstrapV1? || call.script.BeginV1? || call.script.CommitV1? {
      OldScriptActs(s, call, handle);
    } else if call.script.Commit? {
      CommitActs(s, call, handle);
    } else if call.script.ReadGrant? || call.script.Begin? || call.script.StoreCredential? {
      OperationActs(s, call, handle);
    } else {
      AuthorityScriptActs(s, call, handle);
    }
  }

  lemma EffectEvolves(c: Context, script: Script, now: int)
    requires Admits(c, script, now)
    requires script.Begin? || script.BeginV1? || script.Commit? || script.CommitV1? || script.Bootstrap?
    ensures Evolves(c, Effect(c, script, now))
  {
    hide SameAuthorization;
    if !script.Commit? { SamePrincipalRefl(c.core.principal); }
  }

  lemma StepKeepsContext(s: Store, call: Call, handle: Handle)
    requires handle in s.contexts && call.now < s.contexts[handle].deadline
    ensures handle in Next(s, call).contexts
    ensures Next(s, call).contexts[handle].deadline == s.contexts[handle].deadline
    ensures Evolves(s.contexts[handle].value, Next(s, call).contexts[handle].value)
  {
    ContextStep(s, call, handle);
    hide Step, Effect, Admits, Evolves;
    var c := s.contexts[handle].value;
    EvolvesRefl(c);
    if Acts(call.script, handle, Step(s, call.script, call.now).1) { EffectEvolves(c, call.script, call.now); }
  }

  /** Over a lifetime the subject epoch determines tenant, user and the ten
      authorization fields, no epoch goes back, and the deadline stands. */
  lemma {:induction false} SubjectEpochDeterminesPrincipal(s: Store, run: seq<Call>, handle: Handle)
    requires ContextLives(s, run, handle)
    ensures handle in After(s, run).contexts
    ensures Evolves(s.contexts[handle].value, After(s, run).contexts[handle].value)
    ensures After(s, run).contexts[handle].deadline == s.contexts[handle].deadline
    decreases |run|
  {
    hide Next, Evolves;
    if run == [] {
      EvolvesRefl(s.contexts[handle].value);
    } else {
      StepKeepsContext(s, run[0], handle);
      SubjectEpochDeterminesPrincipal(Next(s, run[0]), run[1..], handle);
      EvolvesChain(
        s.contexts[handle].value, Next(s, run[0]).contexts[handle].value, After(s, run).contexts[handle].value);
    }
  }

  lemma EvolvesRefl(c: Context)
    ensures Evolves(c, c)
  {
    SamePrincipalRefl(c.core.principal);
  }

  // ---- Which commits succeed ------------------------------------------------------------------

  predicate CommitsTo(script: Script, handle: Handle, epoch: int) {
    (script.Commit? || script.CommitV1?) && script.handle == handle && script.epoch == epoch
  }

  /** Operation `epoch` can no longer be committed. */
  predicate Spent(c: Context, epoch: int) {
    c.core.operationEpoch > epoch || (c.core.operationEpoch == epoch && c.core.token == "")
  }

  /** Only a live context is operated on. */
  lemma ActsOnLive(s: Store, call: Call, handle: Handle)
    requires Acts(call.script, handle, Step(s, call.script, call.now).1) && !call.script.Bootstrap?
    ensures handle in s.contexts && call.now < s.contexts[handle].deadline
  {
    hide SameAuthority, ValidAuthority, Announces, SameSubject, CredentialLive;
  }

  /** A commit needs the latest epoch and its token, and uses them up; a begin
      gets a fresh epoch and uses up every earlier one. */
  lemma CommitNeedsLatest(s: Store, call: Call, handle: Handle, epoch: int)
    requires CommitsTo(call.script, handle, epoch) && Step(s, call.script, call.now).1.Committed?
    ensures handle in s.contexts && call.now < s.contexts[handle].deadline
    ensures var core := s.contexts[handle].value.core;
            core.operationEpoch == epoch && core.token == call.script.token != "" && core.leaseUntil > call.now
    ensures handle in Next(s, call).contexts && Spent(Next(s, call).contexts[handle].value, epoch)
  {
    hide Step;
    ActsOnLive(s, call, handle);
    ContextStep(s, call, handle);
    hide Announces, SameSubject;
  }

  lemma BeginSpendsEarlier(s: Store, call: Call, handle: Handle, epoch: int)
    requires (call.script.Begin? || call.script.BeginV1?) && call.script.handle == handle
    requires Step(s, call.script, call.now).1.Begun?
    ensures handle in s.contexts && handle in Next(s, call).contexts
    ensures Next(s, call).contexts[handle].value.core.operationEpoch == s.contexts[handle].value.core.operationEpoch + 1
    ensures epoch <= s.contexts[handle].value.core.operationEpoch ==> Spent(Next(s, call).contexts[handle].value, epoch)
  {
    hide Step;
    ActsOnLive(s, call, handle);
    ContextStep(s, call, handle);
  }

  lemma SpentNext(s: Store, call: Call, handle: Handle, epoch: int)
    requires handle in s.contexts && call.now < s.contexts[handle].deadline && Spent(s.contexts[handle].value, epoch)
    ensures handle in Next(s, call).contexts && Spent(Next(s, call).contexts[handle].value, epoch)
  {
    hide Step;
    ContextStep(s, call, handle);
    hide Announces, SameSubject;
  }

  /** Within a lifetime a spent operation is never committed again: each begun
      operation commits at most once, and only while it is the latest. */
  lemma {:induction false} SpentForever(s: Store, run: seq<Call>, handle: Handle, epoch: int, call: Call)
    requires ContextLives(s, run, handle) && Spent(s.contexts[handle].value, epoch)
    requires CommitsTo(call.script, handle, epoch)
    requires call.now < s.contexts[handle].deadline
    ensures !Step(After(s, run), call.script, call.now).1.Committed?
    decreases |run|
  {
    hide Next, Step;
    if run == [] {
      if Step(s, call.script, call.now).1.Committed? { CommitNeedsLatest(s, call, handle, epoch); }
    } else {
      SpentNext(s, run[0], handle, epoch);
      StepKeepsContext(s, run[0], handle);
      SpentForever(Next(s, run[0]), run[1..], handle, epoch, call);
    }
  }

  // ---- Peer refresh -------------------------------------------------------------------------------

  /** A refresh of this context that committed together with its credential. */
  predicate Renews(s: Store, call: Call, handle: Handle, epoch: int) {
    && call.script.Commit? && call.script.handle == handle && call.script.epoch == epoch
    && call.script.credential.Some? && call.script.principal.Some?
    && handle in s.contexts && s.contexts[handle].value.core.kind == "refresh"
    && Step(s, call.script, call.now).1.Committed?
  }

  /** A login or logout that began on this context. */
  predicate TakesOver(s: Store, call: Call, handle: Handle) {
    && call.script.Begin? && call.script.handle == handle && call.script.kind != "refresh"
    && Step(s, call.script, call.now).1.Begun?
  }

  /** The marker moves in exactly two ways. */
  lemma MarkerStep(s: Store, call: Call, handle: Handle)
    requires handle in s.contexts && call.now < s.contexts[handle].deadline && s.contexts[handle].value.V2?
    ensures handle in Next(s, call).contexts && Next(s, call).contexts[handle].value.V2?
    ensures var marker, marker' := s.contexts[handle].value.Marker(), Next(s, call).contexts[handle].value.Marker();
            if TakesOver(s, call, handle) then marker' == 0
            else marker' == marker || Renews(s, call, handle, marker')
  {
    hide Step;
    ContextStep(s, call, handle);
    hide Announces, SameSubject;
  }

  /** The last thing that moved the marker of a run is the refresh it names. */
  ghost predicate LastRenewal(s: Store, run: seq<Call>, handle: Handle, epoch: int, i: nat) {
    && i < |run| && Renews(Before(s, run, i), run[i], handle, epoch)
    && (forall j :: i < j < |run| ==> !TakesOver(Before(s, run, j), run[j], handle))
  }

  lemma LastRenewalShift(s: Store, run: seq<Call>, handle: Handle, epoch: int, i: nat)
    requires run != [] && LastRenewal(Next(s, run[0]), run[1..], handle, epoch, i)
    ensures LastRenewal(s, run, handle, epoch, i + 1)
  {
    hide Next, Renews, TakesOver;
    forall j | i + 1 < j < |run| ensures !TakesOver(Before(s, run, j), run[j], handle) {
      assert !TakesOver(Before(Next(s, run[0]), run[1..], j - 1), run[1..][j - 1], handle);
    }
  }

  ghost predicate NoTakeover(s: Store, run: seq<Call>, handle: Handle) {
    forall j :: 0 <= j < |run| ==> !TakesOver(Before(s, run, j), run[j], handle)
  }

  lemma NoTakeoverCons(s: Store, run: seq<Call>, handle: Handle)
    requires run != [] && NoTakeover(Next(s, run[0]), run[1..], handle)
    ensures forall j :: 0 < j < |run| ==> !TakesOver(Before(s, run, j), run[j], handle)
  {
    hide Next, TakesOver;
    forall j | 0 < j < |run| ensures !TakesOver(Before(s, run, j), run[j], handle) {
      assert !TakesOver(Before(Next(s, run[0]), run[1..], j - 1), run[1..][j - 1], handle);
    }
  }

  ghost predicate Story(s: Store, run: seq<Call>, handle: Handle, marker: int, marker': int) {
    || marker' == 0
    || (marker' == marker && NoTakeover(s, run, handle))
    || exists i: nat :: LastRenewal(s, run, handle, marker', i)
  }

  /** Every marker a run ends with is zero, untouched, or explained by the last
      refresh that committed, with no login or logout begun since. */
  lemma {:induction false} MarkerStory(s: Store, run: seq<Call>, handle: Handle)
    requires ContextLives(s, run, handle) && s.contexts[handle].value.V2?
    ensures handle in After(s, run).contexts
    ensures Story(s, run, handle, s.contexts[handle].value.Marker(), After(s, run).contexts[handle].value.Marker())
    decreases |run|
  {
    hide Next, Renews, TakesOver;
    if run != [] {
      var t, rest := Next(s, run[0]), run[1..];
      MarkerStep(s, run[0], handle);
      MarkerStory(t, rest, handle);
      var last := After(s, run).contexts[handle].value.Marker();
      StoryCons(s, run, handle, s.contexts[handle].value.Marker(), t.contexts[handle].value.Marker(), last);
    }
  }

  lemma StoryCons(s: Store, run: seq<Call>, handle: Handle, marker: int, marker': int, last: int)
    requires run != [] && Story(Next(s, run[0]), run[1..], handle, marker', last)
    requires if TakesOver(s, run[0], handle) then marker' == 0 else marker' == marker || Renews(s, run[0], handle, marker')
    ensures Story(s, run, handle, marker, last)
  {
    hide Next, Renews, TakesOver;
    var t, rest := Next(s, run[0]), run[1..];
    if i: nat :| LastRenewal(t, rest, handle, last, i) {
      LastRenewalShift(s, run, handle, last, i);
    } else if last != 0 {
      NoTakeoverCons(s, run, handle);
      if Renews(s, run[0], handle, last) {
        assert LastRenewal(s, run, handle, last, 0);
      } else {
        assert Before(s, run, 0) == s;
      }
    }
  }

  /** Along a lifetime that ends with the subject epoch it started with, every
      state in between has the same identity and authorization. */
  lemma {:induction false} UnchangedBetween(s: Store, run: seq<Call>, handle: Handle, i: nat)
    requires ContextLives(s, run, handle) && i <= |run|
    ensures handle in Before(s, run, i).contexts && handle in After(s, run).contexts
    ensures Evolves(s.contexts[handle].value, Before(s, run, i).contexts[handle].value)
    ensures Evolves(Before(s, run, i).contexts[handle].value, After(s, run).contexts[handle].value)
    decreases |run|
  {
    hide Next, Evolves;
    SubjectEpochDeterminesPrincipal(s, run, handle);
    EvolvesRefl(s.contexts[handle].value);
    if i > 0 {
      StepKeepsContext(s, run[0], handle);
      UnchangedBetween(Next(s, run[0]), run[1..], handle, i - 1);
      EvolvesChain(
        s.contexts[handle].value, Next(s, run[0]).contexts[handle].value, Before(s, run, i).contexts[handle].value);
    }
  }

  /** What a waiter saw of a context. */
  datatype Grant = Grant(principal: Option<Principal>, subjectEpoch: int, marker: int)

  function Seen(s: Store, handle: Handle): Grant
    requires handle in s.contexts
  {
    var c := s.contexts[handle].value;
    Grant(c.core.principal, c.core.subjectEpoch, c.Marker())
  }

  /** A waiter's two sources report exactly this: the grant it reads, and the
      reply to its own begin. */
  lemma GrantReported(s: Store, call: Call)
    ensures var (s', reply) := Step(s, call.script, call.now);
            && (call.script.ReadGrant? && reply.Granted? ==>
                  call.script.handle in s.contexts && s'.contexts == Live(s, call.now).contexts
                  && Grant(reply.principal, reply.subjectEpoch, reply.marker) == Seen(s, call.script.handle))
            && (call.script.Begin? && call.script.kind == "refresh" && reply.Begun? ==>
                  call.script.handle in s.contexts && call.script.handle in s'.contexts
                  && Grant(reply.principal, reply.subjectEpoch, reply.marker) == Seen(s, call.script.handle) == Seen(s', call.script.handle)
                  && reply.epoch == s'.contexts[call.script.handle].value.core.operationEpoch)
  {
    hide ValidAuthority;
  }

  /** The completion evidence refresh_company_session asks for, both while it
      waits and once it holds the lease itself. */
  predicate Evidence(initial: Grant, current: Grant) {
    current.subjectEpoch == initial.subjectEpoch && current.marker > initial.marker
  }

  /** Adopting a peer's refresh is sound: some refresh committed with its
      credential after the first read, no login or logout has begun since, and
      identity and authorization were the same at every moment in between. */
  lemma PeerRefreshSound(s: Store, run: seq<Call>, handle: Handle) returns (i: nat)
    requires ContextLives(s, run, handle) && ValidV2(s.contexts[handle].value)
    requires handle in After(s, run).contexts && Evidence(Seen(s, handle), Seen(After(s, run), handle))
    ensures LastRenewal(s, run, handle, Seen(After(s, run), handle).marker, i)
    ensures forall j :: 0 <= j <= |run| ==>
              handle in Before(s, run, j).contexts
              && SamePrincipal(s.contexts[handle].value.core.principal, Before(s, run, j).contexts[handle].value.core.principal)
  {
    MarkerStory(s, run, handle);
    var marker := Seen(After(s, run), handle).marker;
    hide LastRenewal, SamePrincipal, Next;
    i :| LastRenewal(s, run, handle, marker, i);
    forall j | 0 <= j <= |run|
      ensures handle in Before(s, run, j).contexts
           && SamePrincipal(s.contexts[handle].value.core.principal, Before(s, run, j).contexts[handle].value.core.principal)
    {
      UnchangedBetween(s, run, handle, j);
    }
  }

  /** The cleanup of a refresh that adopted a peer's result, or failed: writing
      back the principal it was given only gives up the lease. */
  lemma CleanupNeutral(s: Store, call: Call)
    requires call.script.Commit? && call.script.credential.None? && call.script.handle in s.contexts
    requires Step(s, call.script, call.now).1.Committed?
    requires var c := s.contexts[call.script.handle].value;
             c.core.kind == "refresh" && call.script.principal == c.core.principal && c.core.principal.Some?
    ensures var handle := call.script.handle;
            && handle in Next(s, call).contexts
            && Next(s, call).contexts[handle].value ==
               s.contexts[handle].value.(core := s.contexts[handle].value.core.(token := "", kind := "", leaseUntil := 0))
  {
    hide Step;
    ActsOnLive(s, call, call.script.handle);
    ContextStep(s, call, call.script.handle);
  }

  // ---- A held operation and what may come after it ------------------------------------------------

  /** The refresh begun as operation `epoch` is still the one the context is in. */
  predicate Holding(c: Context, epoch: int, token: string, principal: Option<Principal>) {
    c.V2? && c.core.operationEpoch == epoch && c.core.token == token && c.core.kind == "refresh" && c.core.principal == principal
  }

  predicate HeldOrSpent(c: Context, epoch: int, token: string, principal: Option<Principal>) {
    Holding(c, epoch, token, principal) || Spent(c, epoch)
  }

  lemma HeldOrSpentNext(s: Store, call: Call, handle: Handle, epoch: int, token: string, principal: Option<Principal>)
    requires handle in s.contexts && call.now < s.contexts[handle].deadline
    requires HeldOrSpent(s.contexts[handle].value, epoch, token, principal)
    ensures handle in Next(s, call).contexts && HeldOrSpent(Next(s, call).contexts[handle].value, epoch, token, principal)
  {
    hide Step;
    if Spent(s.contexts[handle].value, epoch) {
      SpentNext(s, call, handle, epoch);
    } else {
      ContextStep(s, call, handle);
      hide Announces, SameSubject;
    }
  }

  /** Whatever other clients do in the context's lifetime, a begun refresh is still held,
      with the principal it was given, or it is spent. */
  lemma {:induction false} HeldOrSpentAlways(s: Store, run: seq<Call>, handle: Handle, epoch: int, token: string, principal: Option<Principal>)
    requires ContextLives(s, run, handle) && HeldOrSpent(s.contexts[handle].value, epoch, token, principal)
    ensures handle in After(s, run).contexts && HeldOrSpent(After(s, run).contexts[handle].value, epoch, token, principal)
    decreases |run|
  {
    hide Next, HeldOrSpent;
    if run != [] {
      HeldOrSpentNext(s, run[0], handle, epoch, token, principal);
      HeldOrSpentAlways(Next(s, run[0]), run[1..], handle, epoch, token, principal);
    }
  }

  lemma ExpiredStays(s: Store, call: Call, handle: Handle)
    requires call.script.Commit? && handle in s.contexts && s.contexts[handle].deadline <= call.now
    ensures handle !in Next(s, call).contexts
  {
    hide SameAuthority, ValidAuthority, Announces, SameSubject, CredentialLive;
  }

  /** A commit that is refused leaves the context as it was, or finds it expired. */
  lemma RefusedLeaves(s: Store, call: Call, handle: Handle)
    requires call.script.Commit? && handle in s.contexts && !Step(s, call.script, call.now).1.Committed?
    ensures handle in Next(s, call).contexts ==> Next(s, call).contexts[handle] == s.contexts[handle]
  {
    hide Step;
    if call.now < s.contexts[handle].deadline { ContextStep(s, call, handle); } else { ExpiredStays(s, call, handle); }
  }

  /** Everything a reader sees stays; only the lease is given up. */
  function Released(c: Context): Context {
    c.(core := c.core.(token := "", kind := "", leaseUntil := 0))
  }

  /** A late commit of operation `epoch` never touches what came after it: on a spent
      operation it changes nothing at all, and giving the lease back without a
      credential only gives up that lease. */
  predicate Careful(c: Context, c': Context, script: Script, principal: Option<Principal>)
    requires script.Commit?
  {
    && (Spent(c, script.epoch) ==> c' == c)
    && (script.principal == principal && script.credential.None? ==> c' == c || c' == Released(c))
  }

  lemma LateCommitCareful(s: Store, call: Call, handle: Handle, token: string, principal: Option<Principal>)
    requires call.script.Commit? && call.script.handle == handle && handle in s.contexts && principal.Some?
    requires HeldOrSpent(s.contexts[handle].value, call.script.epoch, token, principal)
    ensures handle in Next(s, call).contexts ==>
              Careful(s.contexts[handle].value, Next(s, call).contexts[handle].value, call.script, principal)
  {
    hide Step;
    if Step(s, call.script, call.now).1.Committed? {
      CommitNeedsLatest(s, call, handle, call.script.epoch);
      if call.script.principal == principal && call.script.credential.None? { CleanupNeutral(s, call); }
    } else {
      RefusedLeaves(s, call, handle);
    }
  }
}

/** refresh_company_session: a refresh that waits for a busy lease and may adopt
    what a peer achieved meanwhile. Before every one of its own calls other clients
    run whatever scripts they like. */
module AuthRefresh {
  import opened Options
  import opened AuthScripts
  import opened AuthContexts
  import opened AuthStore

  /** The cookie's identity and the configured lease. */
  datatype Session = Session(digest: Digest, generation: int, handle: Handle, lease: int)

  /** What the company authority answers, once it is asked. */
  datatype Verdict = Renewed(principal: Principal, credential: NewCredential) | Unavailable | Denied

  datatype Outcome = Adopted(principal: Principal) | Refreshed(principal: Principal) | Failed

  datatype Expected = Expected(subject: Option<(string, string)>, epoch: Option<int>)

  /** The surroundings of one refresh: the time of its n-th call and what other clients
      do right before it, the secret of its n-th begin, how often it may look before
      its waiting time is over, and, at the moment of its n-th call, whether a
      credential noted in a principal is still good and whether a principal is a
      company login of the current policy under a live grant. */
  datatype World = World(
    clock: nat -> int,
    peers: nat -> seq<Call>,
    mint: nat -> string,
    looks: nat,
    unexpired: (Principal, nat) -> bool,
    entitled: (Principal, nat) -> bool)

  lemma {:induction false} AfterMore(s: Store, run: seq<Call>, more: seq<Call>)
    ensures After(s, run + more) == After(After(s, run), more)
    decreases |run|
  {
    hide Next;
    if run == [] {
      assert [] + more == more;
    } else {
      AfterMore(Next(s, run[0]), run[1..], more);
      assert (run + more)[1..] == run[1..] + more;
    }
  }

  lemma AfterOne(s: Store, call: Call)
    ensures After(s, [call]) == Next(s, call)
  {
    hide Next;
    assert [call][1..] == [];
  }

  /** Other clients' calls, one after the other. */
  method Interleave(store: Sessions, calls: seq<Call>)
    modifies store
    ensures store.Snapshot() == After(old(store.Snapshot()), calls)
  {
    hide Step;
    ghost var s := store.Snapshot();
    for i := 0 to |calls|
      invariant store.Snapshot() == After(s, calls[..i])
    {
      var reply := store.Perform(calls[i]);
      assert calls[..i + 1] == calls[..i] + [calls[i]];
      AfterMore(s, calls[..i], [calls[i]]);
      AfterOne(After(s, calls[..i]), calls[i]);
    }
    assert calls[..|calls|] == calls;
  }

  /** The n-th call of the refresh, with the others' calls before it. */
  function Turn(world: World, n: nat, script: Script): seq<Call> {
    world.peers(n) + [Call(script, world.clock(n))]
  }

  /** The others have their turn, then the refresh makes its n-th call. */
  method Take(store: Sessions, world: World, n: nat, script: Script) returns (reply: Reply)
    modifies store
    ensures var s := After(old(store.Snapshot()), world.peers(n));
            && (store.Snapshot(), reply) == Step(s, script, world.clock(n))
            && store.Snapshot() == After(old(store.Snapshot()), Turn(world, n, script))
  {
    hide Step;
    ghost var s := store.Snapshot();
    Interleave(store, world.peers(n));
    reply := store.Perform(Call(script, world.clock(n)));
    AfterMore(s, world.peers(n), [Call(script, world.clock(n))]);
    AfterOne(After(s, world.peers(n)), Call(script, world.clock(n)));
  }

  predicate Expects(e: Expected, g: Grant) {
    && g.principal.Some?
    && (e.subject.Some? ==> (g.principal.value.tenant, g.principal.value.user) == e.subject.value)
    && (e.epoch.Some? ==> g.subjectEpoch == e.epoch.value)
  }

  predicate SameGrantSubject(a: Grant, b: Grant) {
    a.principal.Some? && b.principal.Some? && SameSubject(a.principal.value, b.principal.value)
  }

  function Look(me: Session): Script {
    ReadGrant(me.digest, me.generation, me.handle)
  }

  /** browser_auth_grant: the grant, if the identity is current. */
  method ReadSession(store: Sessions, me: Session, world: World, n: nat) returns (ok: bool, grant: Grant)
    modifies store
    ensures store.Snapshot() == After(old(store.Snapshot()), Turn(world, n, Look(me)))
    ensures ok ==> me.handle in store.Snapshot().contexts && grant == Seen(store.Snapshot(), me.handle)
                   && ValidV2(store.Snapshot().contexts[me.handle].value)
  {
    hide Step, Turn;
    ghost var s := After(store.Snapshot(), world.peers(n));
    ReadIsLive(s, Call(Look(me), world.clock(n)));
    var reply := Take(store, world, n, Look(me));
    ok := reply.Granted?;
    grant := if ok then Grant(reply.principal, reply.subjectEpoch, reply.marker) else Grant(None, 0, 0);
  }

  lemma ReadIsLive(s: Store, call: Call)
    requires call.script.ReadGrant?
    ensures var (s', reply) := Step(s, call.script, call.now);
            reply.Granted? ==>
              && call.script.handle in s'.contexts && ValidV2(s'.contexts[call.script.handle].value)
              && Grant(reply.principal, reply.subjectEpoch, reply.marker) == Seen(s', call.script.handle)
  {
    hide ValidAuthority, ValidCore;
  }

  // ---- Waiting for the lease ----------------------------------------------------------------------

  datatype Waited = Holds(operation: Reply, token: string) | Saw(principal: Principal) | GaveUp

  function Knock(me: Session, world: World, n: nat): Script {
    Begin(me.digest, me.generation, me.handle, me.lease, world.mint(n), "refresh")
  }

  /** After the first read the calls alternate: a begin, and a look while it is busy. */
  function Trace(me: Session, world: World, used: nat): seq<Call> {
    if used <= 1 then []
    else Trace(me, world, used - 1) + Turn(world, used - 1, if used % 2 == 0 then Knock(me, world, used - 1) else Look(me))
  }

  /** A lease obtained: the context is in this very refresh, and the reply told what
      is stored. */
  ghost predicate Obtained(s: Store, handle: Handle, operation: Reply, token: string) {
    && operation.Begun? && operation.principal.Some? && handle in s.contexts
    && Holding(s.contexts[handle].value, operation.epoch, token, operation.principal)
    && Grant(operation.principal, operation.subjectEpoch, operation.marker) == Seen(s, handle)
  }

  /** The waiting loop: begin, and while the lease is busy look whether a peer has
      refreshed. */
  method AwaitLease(store: Sessions, me: Session, expected: Expected, initial: Grant, world: World)
      returns (waited: Waited, used: nat)
    requires initial.principal.Some?
    modifies store
    ensures used >= 1 && store.Snapshot() == After(old(store.Snapshot()), Trace(me, world, used))
    ensures waited.Saw? ==>
              && me.handle in store.Snapshot().contexts && Evidence(initial, Seen(store.Snapshot(), me.handle))
              && Some(waited.principal) == Seen(store.Snapshot(), me.handle).principal
              && SameSubject(initial.principal.value, waited.principal) && world.unexpired(waited.principal, used - 1)
    ensures waited.Holds? ==> Obtained(store.Snapshot(), me.handle, waited.operation, waited.token)
  {
    hide Step, Evidence, Turn, Obtained;
    ghost var s := store.Snapshot();
    used := 1;
    var looked := 0;
    while true
      invariant store.Snapshot() == After(s, Trace(me, world, used)) && used % 2 == 1 && looked <= world.looks
      decreases world.looks - looked
    {
      var token := world.mint(used);
      BegunObtained(After(store.Snapshot(), world.peers(used)), Call(Knock(me, world, used), world.clock(used)));
      var reply := Take(store, world, used, Knock(me, world, used));
      AfterMore(s, Trace(me, world, used), Turn(world, used, Knock(me, world, used)));
      used := used + 1;
      if reply.Begun? { return Holds(reply, token), used; }
      if !reply.RefreshBusy? || looked == world.looks { return GaveUp, used; }
      var ok, current := ReadSession(store, me, world, used);
      AfterMore(s, Trace(me, world, used), Turn(world, used, Look(me)));
      used := used + 1;
      if !ok || !SameGrantSubject(initial, current) || !Expects(Expected(None, expected.epoch), current) { return GaveUp, used; }
      if Evidence(initial, current) && world.unexpired(current.principal.value, used - 1) {
        return Saw(current.principal.value), used;
      }
      looked := looked + 1;
    }
  }

  lemma BegunObtained(s: Store, call: Call)
    requires call.script.Begin? && call.script.kind == "refresh"
    ensures var (s', reply) := Step(s, call.script, call.now);
            reply.Begun? ==> Obtained(s', call.script.handle, reply, call.script.token)
  {
    hide ValidAuthority;
  }

  // ---- What stands behind an adopted result ---------------------------------------------------------

  /** The refresh that stands behind an adopted result: it committed with its
      credential after the first read, no login or logout began since, and who
      the caller is and what they may do was the same throughout. */
  ghost predicate Backed(first: Store, waited: seq<Call>, handle: Handle) {
    && handle in first.contexts && handle in After(first, waited).contexts
    && exists i: nat ::
         && LastRenewal(first, waited, handle, Seen(After(first, waited), handle).marker, i)
         && forall j :: 0 <= j <= |waited| ==>
              handle in Before(first, waited, j).contexts
              && SamePrincipal(first.contexts[handle].value.core.principal, Before(first, waited, j).contexts[handle].value.core.principal)
  }

  lemma EvidenceBacks(first: Store, waited: seq<Call>, handle: Handle)
    requires handle in first.contexts && ValidV2(first.contexts[handle].value) && handle in After(first, waited).contexts
    requires ContextLives(first, waited, handle) && Evidence(Seen(first, handle), Seen(After(first, waited), handle))
    ensures Backed(first, waited, handle)
  {
    hide LastRenewal, SamePrincipal, Next, Evidence;
    var i := PeerRefreshSound(first, waited, handle);
  }

  /** The clock does not go back, and the last call comes before the deadline the
      context had at the start. */
  predicate InTime(first: Store, run: seq<Call>, handle: Handle) {
    && handle in first.contexts
    && (forall i, j :: 0 <= i < j < |run| ==> run[i].now <= run[j].now)
    && (run != [] ==> run[|run| - 1].now < first.contexts[handle].deadline)
  }

  /** Then the context lives all the while: no script moves its deadline. */
  lemma {:induction false} LivesInTime(first: Store, run: seq<Call>, handle: Handle)
    requires InTime(first, run, handle)
    ensures ContextLives(first, run, handle)
    decreases |run|
  {
    hide Next;
    if run != [] {
      StepKeepsContext(first, run[0], handle);
      LivesInTime(Next(first, run[0]), run[1..], handle);
    }
  }

  // ---- What a late commit may not do -------------------------------------------------------------------

  ghost predicate CareAt(s: Store, call: Call, handle: Handle, operation: Reply)
    requires operation.Begun?
  {
    call.script.Commit? && call.script.handle == handle && call.script.epoch == operation.epoch ==>
      && handle in s.contexts
      && (handle in Next(s, call).contexts ==>
            Careful(s.contexts[handle].value, Next(s, call).contexts[handle].value, call.script, operation.principal))
  }

  /** Along the calls after a begin, as long as the context lives: every commit of that
      operation leaves newer logins, logouts and refreshes alone, and giving the lease
      back changes nothing but the lease. */
  ghost predicate KeepsNewer(begun: Store, run: seq<Call>, handle: Handle, operation: Reply)
    requires operation.Begun?
  {
    forall i :: 0 <= i < |run| && InTime(begun, run[..i], handle) ==> CareAt(After(begun, run[..i]), run[i], handle, operation)
  }

  /** It holds of every run, whatever the others do in between. */
  lemma GiveBackAlwaysNeutral(begun: Store, run: seq<Call>, handle: Handle, operation: Reply, token: string)
    requires Obtained(begun, handle, operation, token)
    ensures KeepsNewer(begun, run, handle, operation)
  {
    forall i | 0 <= i < |run| && InTime(begun, run[..i], handle) ensures CareAt(After(begun, run[..i]), run[i], handle, operation) {
      LivesInTime(begun, run[..i], handle);
      hide Holding, Spent, Next, Careful, InTime, ContextLives;
      HeldOrSpentAlways(begun, run[..i], handle, operation.epoch, token, operation.principal);
      var s, call := After(begun, run[..i]), run[i];
      if call.script.Commit? && call.script.handle == handle && call.script.epoch == operation.epoch {
        LateCommitCareful(s, call, handle, token, operation.principal);
      }
    }
  }

  /** The last call gave the lease back and a reader saw no difference. */
  ghost predicate QuietEnd(begun: Store, run: seq<Call>, handle: Handle) {
    && run != []
    && (InTime(begun, run[..|run| - 1], handle) && handle in After(begun, run).contexts ==>
          && handle in After(begun, run[..|run| - 1]).contexts
          && Seen(After(begun, run), handle) == Seen(After(begun, run[..|run| - 1]), handle))
  }

  lemma EndsQuietly(begun: Store, run: seq<Call>, me: Session, operation: Reply, token: string)
    requires operation.Begun? && KeepsNewer(begun, run, me.handle, operation)
    requires run != [] && run[|run| - 1].script == Finish(me, operation, token, operation.principal, None)
    ensures QuietEnd(begun, run, me.handle)
  {
    var n := |run| - 1;
    assert run == run[..n] + [run[n]];
    AfterMore(begun, run[..n], [run[n]]);
    AfterOne(After(begun, run[..n]), run[n]);
    hide Next, InTime, Spent;
  }

  // ---- Using the lease -------------------------------------------------------------------------------------

  /** The commit of a held operation. */
  function Finish(me: Session, operation: Reply, token: string, principal: Option<Principal>, credential: Option<NewCredential>): Script
    requires operation.Begun?
  {
    Commit(me.digest, me.generation, me.handle, operation.epoch, token, principal, credential)
  }

  datatype Plan = Abandon | SignOut | Adopt | Put(principal: Principal, credential: NewCredential)

  /** What is to be done with a lease: the tests on the reply to the begin, in order,
      and then the authority's answer. */
  function Decide(initial: Grant, held: Grant, expected: Expected, world: World, n: nat, verdict: Verdict): Plan {
    if !SameGrantSubject(initial, held) || !Expects(Expected(None, expected.epoch), held) then Abandon
    else if !world.entitled(held.principal.value, n) then SignOut
    else if Evidence(initial, held) && world.unexpired(held.principal.value, n) then Adopt
    else match verdict
      case Unavailable => Abandon
      case Denied => SignOut
      case Renewed(principal, credential) => Put(principal, credential)
  }

  /** The script a plan calls for first. */
  function Opening(plan: Plan, me: Session, operation: Reply, token: string): Script
    requires operation.Begun?
  {
    match plan
    case Abandon => Finish(me, operation, token, operation.principal, None)
    case Adopt => Finish(me, operation, token, operation.principal, None)
    case SignOut => Finish(me, operation, token, None, None)
    case Put(principal, credential) => Finish(me, operation, token, Some(principal), Some(credential))
  }

  /** The calls from the begin on: the script of the plan, and if a sign-out or a commit
      is refused, the lease given back after it. */
  ghost function OwnCalls(begun: Store, plan: Plan, me: Session, operation: Reply, token: string, world: World, n: nat): seq<Call>
    requires operation.Begun?
  {
    var opening := Opening(plan, me, operation, token);
    var accepted := Step(After(begun, world.peers(n)), opening, world.clock(n)).1.Committed?;
    if plan.Abandon? || plan.Adopt? || accepted then Turn(world, n, opening)
    else Turn(world, n, opening) + Turn(world, n + 1, Finish(me, operation, token, operation.principal, None))
  }

  ghost function Result(begun: Store, plan: Plan, me: Session, operation: Reply, token: string, world: World, n: nat): Outcome
    requires operation.Begun? && operation.principal.Some?
  {
    match plan
    case Adopt => Adopted(operation.principal.value)
    case Put(principal, _) =>
      if Step(After(begun, world.peers(n)), Opening(plan, me, operation, token), world.clock(n)).1.Committed?
      then Refreshed(principal) else Failed
    case _ => Failed
  }

  /** With the lease in hand: adopt a peer's finished refresh, or do it. Whatever the
      others do meanwhile, newer operations are left alone, and a lease that is given
      back is given back unnoticed. */
  method UseLease(
    store: Sessions, me: Session, expected: Expected, initial: Grant, operation: Reply, token: string, verdict: Verdict, world: World, used: nat)
    returns (outcome: Outcome, ghost own: seq<Call>)
    requires Obtained(store.Snapshot(), me.handle, operation, token)
    modifies store
    ensures var plan := Decide(initial, Grant(operation.principal, operation.subjectEpoch, operation.marker), expected, world, used, verdict);
            && own == OwnCalls(old(store.Snapshot()), plan, me, operation, token, world, used)
            && outcome == Result(old(store.Snapshot()), plan, me, operation, token, world, used)
    ensures store.Snapshot() == After(old(store.Snapshot()), own)
    ensures KeepsNewer(old(store.Snapshot()), own, me.handle, operation)
    ensures own != [] && (own[|own| - 1].script == Finish(me, operation, token, operation.principal, None) ==>
                            QuietEnd(old(store.Snapshot()), own, me.handle))
    ensures outcome.Refreshed? ==> Renewal(store.Snapshot(), own[|own| - 1], me.handle, verdict)
  {
    hide Step, Renewal, Evidence, KeepsNewer, QuietEnd;
    ghost var s := store.Snapshot();
    var held := Grant(operation.principal, operation.subjectEpoch, operation.marker);
    var plan := Decide(initial, held, expected, world, used, verdict);
    var opening := Opening(plan, me, operation, token);
    var back := Finish(me, operation, token, operation.principal, None);
    var reply := Take(store, world, used, opening);
    own := Turn(world, used, opening);
    outcome := if plan.Adopt? then Adopted(operation.principal.value) else Failed;
    if plan.SignOut? || plan.Put? {
      if reply.Committed? {
        if plan.Put? {
          CommitRenews(After(s, world.peers(used)), Call(opening, world.clock(used)), me.handle, verdict);
          outcome := Refreshed(plan.principal);
        }
      } else {
        var released := Take(store, world, used + 1, back);
        AfterMore(s, own, Turn(world, used + 1, back));
        own := own + Turn(world, used + 1, back);
      }
    }
    GiveBackAlwaysNeutral(s, own, me.handle, operation, token);
    if own[|own| - 1].script == back { EndsQuietly(s, own, me, operation, token); }
  }

  /** What a refresh of its own leaves: the renewed principal in the context, and
      no lease. */
  ghost predicate Renewal(after: Store, commit: Call, handle: Handle, verdict: Verdict) {
    && verdict.Renewed? && commit.script.Commit? && commit.script.handle == handle
    && commit.script.principal == Some(verdict.principal) && commit.script.credential == Some(verdict.credential)
    && handle in after.contexts
    && var core := after.contexts[handle].value.core;
       core.principal == Some(verdict.principal) && core.token == ""
  }

  /** If the context is still in its refresh, the marker names this operation. */
  lemma CommitRenews(s: Store, commit: Call, handle: Handle, verdict: Verdict)
    requires verdict.Renewed? && commit.script.Commit? && commit.script.handle == handle
    requires commit.script.principal == Some(verdict.principal) && commit.script.credential == Some(verdict.credential)
    requires Step(s, commit.script, commit.now).1.Committed?
    ensures Renewal(Next(s, commit), commit, handle, verdict)
    ensures handle in s.contexts
    ensures s.contexts[handle].value.core.kind == "refresh" ==> Seen(Next(s, commit), handle).marker == commit.script.epoch
  {
    hide ValidAuthority, SameAuthority, CredentialLive;
  }

  // ---- The whole refresh -----------------------------------------------------------------------------------

  /** The whole refresh, from the first read on: `waited` are the calls up to the lease,
      to an adopted look or to giving up, and `own` those with the lease in hand. An
      adopted result is backed by the peer's refresh, whether it was seen in a look or
      in the reply to the own begin; and with a lease everything `UseLease` promises
      holds of the store just before each commit. */
  method RefreshSession(store: Sessions, me: Session, expected: Expected, verdict: Verdict, world: World)
      returns (outcome: Outcome, ghost lease: Waited, ghost used: nat, ghost own: seq<Call>)
    modifies store
    ensures var first := After(old(store.Snapshot()), Turn(world, 0, Look(me)));
            store.Snapshot() == After(After(first, Trace(me, world, used)), own)
    ensures var first := After(old(store.Snapshot()), Turn(world, 0, Look(me)));
            var waited := Trace(me, world, used);
            outcome.Adopted? ==>
              && me.handle in first.contexts && me.handle in After(first, waited).contexts
              && Evidence(Seen(first, me.handle), Seen(After(first, waited), me.handle))
              && Some(outcome.principal) == Seen(After(first, waited), me.handle).principal
              && (InTime(first, waited, me.handle) ==> Backed(first, waited, me.handle))
    ensures !lease.Holds? ==> own == [] && outcome == if lease.Saw? then Adopted(lease.principal) else Failed
    ensures var first := After(old(store.Snapshot()), Turn(world, 0, Look(me)));
            var begun := After(first, Trace(me, world, used));
            lease.Holds? ==>
              && me.handle in first.contexts && Obtained(begun, me.handle, lease.operation, lease.token)
              && KeepsNewer(begun, own, me.handle, lease.operation)
              && own != []
              && (own[|own| - 1].script == Finish(me, lease.operation, lease.token, lease.operation.principal, None) ==>
                    QuietEnd(begun, own, me.handle))
    ensures var first := After(old(store.Snapshot()), Turn(world, 0, Look(me)));
            var begun := After(first, Trace(me, world, used));
            lease.Holds? ==>
              var plan := Decide(Seen(first, me.handle), Seen(begun, me.handle), expected, world, used, verdict);
              && own == OwnCalls(begun, plan, me, lease.operation, lease.token, world, used)
              && outcome == Result(begun, plan, me, lease.operation, lease.token, world, used)
    ensures outcome.Refreshed? ==> own != [] && Renewal(store.Snapshot(), own[|own| - 1], me.handle, verdict)
  {
    hide Step, Evidence, Backed, InTime, Renewal, Obtained, KeepsNewer, QuietEnd, Turn, Trace, Finish, OwnCalls;
    lease, used, own := GaveUp, 1, [];
    TraceStart(me, world);
    var ok, initial := ReadSession(store, me, world, 0);
    ghost var first := store.Snapshot();
    if !ok || !Expects(expected, initial) { return Failed, lease, used, own; }
    var waited, n := AwaitLease(store, me, expected, initial, world);
    lease, used := waited, n;
    if InTime(first, Trace(me, world, n), me.handle) && me.handle in store.Snapshot().contexts
       && Evidence(initial, Seen(store.Snapshot(), me.handle)) {
      LivesInTime(first, Trace(me, world, n), me.handle);
      hide ContextLives;
      EvidenceBacks(first, Trace(me, world, n), me.handle);
    }
    match waited {
      case GaveUp => outcome := Failed;
      case Saw(principal) => outcome := Adopted(principal);
      case Holds(operation, token) =>
        ObtainedTells(store.Snapshot(), me.handle, operation, token);
        outcome, own := UseLease(store, me, expected, initial, operation, token, verdict, world, n);
    }
  }

  lemma TraceStart(me: Session, world: World)
    ensures Trace(me, world, 1) == []
  {
  }

  lemma ObtainedTells(s: Store, handle: Handle, operation: Reply, token: string)
    requires Obtained(s, handle, operation, token)
    ensures operation.Begun? && operation.principal.Some? && handle in s.contexts
    ensures Grant(operation.principal, operation.subjectEpoch, operation.marker) == Seen(s, handle)
  {
  }

  // ---- The second test is needed ---------------------------------------------------------------------------

  /** The identity is current and its context live. */
  ghost predicate Rightful(s: Store, me: Session, now: int) {
    && IdentityArgs(me.digest, me.generation, me.handle) && now >= 0 && me.handle in s.contexts
    && Owns(Live(s, now), me.digest, me.generation, me.handle)
  }

  /** Someone is signed in and nobody holds a lease. */
  predicate Free(c: Context, now: int) {
    c.V2? && c.core.principal.Some? && c.core.leaseUntil <= now && c.core.operationEpoch < MAX_EPOCH
  }

  lemma FreeBegins(s: Store, me: Session, token: string, now: int)
    requires Rightful(s, me, now) && Free(s.contexts[me.handle].value, now) && IsSpan(me.lease) && token != ""
    ensures var (s', reply) := Step(s, Begin(me.digest, me.generation, me.handle, me.lease, token, "refresh"), now);
            var c := s.contexts[me.handle].value;
            && reply.Begun? && Rightful(s', me, now)
            && s'.contexts[me.handle].value == c.(core := Opened(c.core, token, "refresh", now + me.lease * SECOND))
  {
    hide ValidAuthority;
  }

  lemma HeldCommits(s: Store, me: Session, token: string, credential: NewCredential, now: int)
    requires Rightful(s, me, now) && token != "" && CredentialLive(credential, now)
    requires var c := s.contexts[me.handle].value;
             && Holding(c, c.core.operationEpoch, token, c.core.principal) && IsSpan(c.core.operationEpoch)
             && c.core.leaseUntil > now && c.core.principal.Some? && c.core.subjectEpoch < MAX_EPOCH
    ensures var c := s.contexts[me.handle].value;
            var (s', reply) := Step(s, Commit(me.digest, me.generation, me.handle, c.core.operationEpoch, token, c.core.principal, Some(credential)), now);
            && reply.Committed? && Rightful(s', me, now)
            && s'.contexts[me.handle].value == Released(c).(refresh := Some(c.core.operationEpoch))
  {
    hide ValidAuthority;
  }

  /** A peer's whole refresh under its own token. */
  function PeerRefresh(me: Session, c: Context, token: string, credential: NewCredential, now: int): seq<Call> {
    [Call(Begin(me.digest, me.generation, me.handle, me.lease, token, "refresh"), now),
     Call(Commit(me.digest, me.generation, me.handle, c.core.operationEpoch + 1, token, c.core.principal, Some(credential)), now)]
  }

  lemma PeerRefreshes(s: Store, me: Session, token: string, credential: NewCredential, now: int)
    requires Rightful(s, me, now) && Free(s.contexts[me.handle].value, now) && IsSpan(me.lease) && token != "" && CredentialLive(credential, now)
    requires s.contexts[me.handle].value.core.operationEpoch >= 0 && s.contexts[me.handle].value.core.subjectEpoch < MAX_EPOCH
    ensures var c := s.contexts[me.handle].value;
            var t := After(s, PeerRefresh(me, c, token, credential, now));
            && Rightful(t, me, now)
            && t.contexts[me.handle].value ==
                 Released(c).(core := Released(c).core.(operationEpoch := c.core.operationEpoch + 1), refresh := Some(c.core.operationEpoch + 1))
  {
    hide Step, Owns, Live, IdentityArgs, CredentialLive;
    var run := PeerRefresh(me, s.contexts[me.handle].value, token, credential, now);
    assert run == [run[0]] + [run[1]];
    AfterMore(s, [run[0]], [run[1]]);
    AfterOne(s, run[0]);
    AfterOne(Next(s, run[0]), run[1]);
    FreeBegins(s, me, token, now);
    HeldCommits(Next(s, run[0]), me, token, credential, now);
  }

  lemma MarkerBelow(s: Store, me: Session, now: int)
    requires Rightful(s, me, now)
    ensures var c := s.contexts[me.handle].value;
            0 <= c.Marker() <= c.core.operationEpoch
  {
    hide ValidAuthority;
  }

  /** A peer refreshes between the first read and the own begin: the begin succeeds at
      once, and its reply is the evidence. Without the second test the credential would
      be renewed twice. */
  lemma LeaseAfterPeer(s: Store, me: Session, theirs: string, mine: string, credential: NewCredential, now: int)
    requires Rightful(s, me, now) && Free(s.contexts[me.handle].value, now) && IsSpan(me.lease)
    requires theirs != "" && mine != "" && CredentialLive(credential, now)
    requires var core := s.contexts[me.handle].value.core;
             core.operationEpoch + 1 < MAX_EPOCH && core.subjectEpoch < MAX_EPOCH
    ensures var t := After(s, PeerRefresh(me, s.contexts[me.handle].value, theirs, credential, now));
            var (t', reply) := Step(t, Begin(me.digest, me.generation, me.handle, me.lease, mine, "refresh"), now);
            && Obtained(t', me.handle, reply, mine)
            && Evidence(Seen(s, me.handle), Grant(reply.principal, reply.subjectEpoch, reply.marker))
  {
    hide Step, Owns, Live, IdentityArgs, Obtained, CredentialLive, PeerRefresh, After;
    MarkerBelow(s, me, now);
    PeerRefreshes(s, me, theirs, credential, now);
    var t := After(s, PeerRefresh(me, s.contexts[me.handle].value, theirs, credential, now));
    var begin := Call(Begin(me.digest, me.generation, me.handle, me.lease, mine, "refresh"), now);
    FreeBegins(t, me, mine, now);
    BegunObtained(t, begin);
    ObtainedTells(Next(t, begin), me.handle, Step(t, begin.script, now).1, mine);
  }
}

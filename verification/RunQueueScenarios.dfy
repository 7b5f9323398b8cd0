/** Concrete runs that leave the promised behaviour, and the exact conditions
    under which that cannot happen. */
module RunQueueScenarios {
  import opened Sequences
  import opened RunQueueScripts
  import opened RunQueueCoherence
  import opened RunQueueWorld

  // ---- Ambiguous run names ---------------------------------------------------------------------

  lemma LongerTenantHasColon(a: RunName, b: RunName)
    requires Field(a) == Field(b) && |a.tenant| < |b.tenant|
    ensures ':' in b.tenant
  {
    assert Field(a)[|a.tenant|] == ':';
    assert Field(b)[|a.tenant|] == b.tenant[|a.tenant|];
  }

  /** Tenants without a colon cannot collide, whatever their run ids. */
  lemma ColonFreeTenants(names: set<RunName>)
    requires forall n :: n in names ==> ':' !in n.tenant
    ensures Unambiguous(names)
  {
    forall a, b | a in names && b in names && Field(a) == Field(b) ensures a == b {
      var f := Field(a);
      assert |a.tenant| == |b.tenant| by {
        if |a.tenant| < |b.tenant| { LongerTenantHasColon(a, b); }
        if |b.tenant| < |a.tenant| { LongerTenantHasColon(b, a); }
      }
      assert a.tenant == f[..|a.tenant|] && b.tenant == f[..|b.tenant|];
      assert a.run == f[|a.tenant| + 1..] && b.run == f[|b.tenant| + 1..];
    }
  }

  /** Nothing is leased, fenced or waiting for a retry. */
  predicate Idle(s: State) {
    s.fences == map[] && s.processing == [] && s.processingMeta == map[] && s.retryMeta == map[]
  }

  lemma AdmitIdle(w: World, raw: Raw, now: int, cfg: Config)
    requires Idle(w.db) && Admissible(raw) && !KnownWaiting(w.db.waiting, raw) && raw.name in cfg.names
    ensures var t := At(Call(Enqueue(raw)), now);
            && Permitted(w, t.event, cfg) && !Hazard(w, t, cfg)
            && Next(w, t, cfg).db == w.db.(waiting := Push(w.db.waiting, raw))
  {
    assert Live(w.db, now) == w.db;
    hide Push, KnownWaiting;
  }

  /** A removal under a colliding name: the message stays, its index entry goes. */
  lemma RemoveForeign(w: World, raw: Raw, name: RunName, now: int, cfg: Config)
    requires Idle(w.db) && w.db.waiting == Push(EMPTY.waiting, raw)
    requires Field(name) == Field(raw.name) && name != raw.name && name in cfg.names
    ensures var t := At(Call(RemoveQueued(name)), now);
            && Permitted(w, t.event, cfg) && !Hazard(w, t, cfg)
            && Idle(Next(w, t, cfg).db)
            && Next(w, t, cfg).db.waiting.list == [raw]
            && Field(name) !in Next(w, t, cfg).db.waiting.index
  {
    var q := w.db.waiting;
    assert q.list == [raw] && q.index[Field(name)] == [raw] && q.meta[raw].raw == raw;
    assert Matched(q, name) == {};
    assert RowsOf(q, {}) == {};
    hide Matched, RowsOf, Push;
    assert Live(w.db, now) == w.db;
    assert Drain([raw], {}) == [raw];
  }

  const SHARED := Raw("{}", RunName("a", "b:c"), "u", true)
  const OTHER := RunName("a:b", "c")
  const OPEN := Limits(0, 0, 0)

  /** Cancelling run `c` of tenant `a:b` unindexes the waiting message of run
      `b:c` of tenant `a`; enqueueing that same payload again queues it twice. */
  lemma CollidingNamesDuplicate() returns (run: seq<Timed>, cfg: Config)
    ensures cfg.maxAttempts >= 1 && Legal(START, run, cfg) && Calm(START, run, cfg)
    ensures After(START, run, cfg).db.waiting.list == [SHARED, SHARED]
  {
    cfg := Config(OPEN, 3, 900, {SHARED.name, OTHER});
    var e0 := At(Call(Enqueue(SHARED)), 0);
    var e1 := At(Call(RemoveQueued(OTHER)), 0);
    assert Field(OTHER) == "a:b:c" == Field(SHARED.name);
    hide Field, RemoveScript, Step, Hazard;
    hide Next, Permitted, Legal, Calm, After;
    run := [];
    Stop(START, cfg);
    AdmitIdle(START, SHARED, 0, cfg);
    Extend(START, run, e0, cfg);
    run := run + [e0];
    RemoveForeign(After(START, run, cfg), SHARED, OTHER, 0, cfg);
    Extend(START, run, e1, cfg);
    run := run + [e1];
    AdmitIdle(After(START, run, cfg), SHARED, 0, cfg);
    Extend(START, run, e0, cfg);
    run := run + [e0];
  }

  // ---- A fence under a colliding name ------------------------------------------------------------

  /** The message is being processed under `row`, and a fence stands on its field. */
  predicate Blocks(s: State, m: Raw, row: Lease, token: string, deadline: int) {
    && s.processing == [m] && s.processingMeta == map[m := row] && s.retryMeta == map[m := row]
    && s.fences == map[Field(m.name) := Fence(token, deadline)]
  }

  const RECONCILER_TTL := 60 * SECOND

  lemma HopAcquire(w: World, m: Raw, row: Lease, name: RunName, token: string, now: int, cfg: Config)
    requires Works(w.db, m, row) && row.raw == m && Field(name) == Field(m.name) && name != m.name && name in cfg.names
    ensures var t := At(Call(AcquireFence(name, token, RECONCILER_TTL, 100, 30_000)), now);
            && Permitted(w, t.event, cfg) && !Hazard(w, t, cfg)
            && Blocks(Next(w, t, cfg).db, m, row, token, now + 30 * SECOND)
  {
    assert Live(w.db, now) == w.db;
    assert |map[m := row]| == 1;
    hide Field;
  }

  /** The replies the worker of `m` gets to ack, fail and heartbeat. */
  ghost predicate ShutOut(s: State, m: Raw, h: Handle, worker: string, now: int) {
    && m in s.processing && IsFenced(s, m.name)
    && Step(s, Ack(m, h), now).1 == Fenced && Step(s, Fail(m, h, "", worker), now).1 == Fenced
    && Step(s, Heartbeat(h, worker), now).1 == Fenced
  }

  lemma BlockedIsShutOut(s: State, m: Raw, row: Lease, token: string, deadline: int, now: int)
    requires Blocks(s, m, row, token, deadline) && row.raw == m && m.valid && now < deadline
    ensures ShutOut(s, m, Handle(m, row.attempt, row.owner), row.worker, now)
  {
    hide Field;
    assert Live(s, now) == s;
  }

  lemma EnqueuedRun(m: Raw, cfg: Config) returns (run: seq<Timed>)
    requires Admissible(m) && m.name in cfg.names
    ensures Legal(START, run, cfg) && Calm(START, run, cfg)
    ensures Waits(After(START, run, cfg).db, m) && After(START, run, cfg).issued == map[]
  {
    assert Idle(START.db) && NoneWaiting(START.db.waiting);
    hide Next, Permitted, Hazard, Waits, Idle, NoneWaiting, Legal, Calm, After, Admissible;
    Stop(START, cfg);
    HopEnqueue(START, m, 0, cfg);
    run := Grow([], At(Call(Enqueue(m)), 0), cfg);
  }

  lemma LeasedRun(m: Raw, cfg: Config) returns (run: seq<Timed>)
    requires m.valid && Admissible(m) && m.name in cfg.names && cfg.limits == OPEN
    ensures Legal(START, run, cfg) && Calm(START, run, cfg)
    ensures Works(After(START, run, cfg).db, m, Lease(m, 1, 0, 0, "w1", "a1", "o1"))
    ensures After(START, run, cfg).issued.Keys == {"a1"}
  {
    hide Next, Permitted, Hazard, Waits, Works, Legal, Calm, After, Admissible;
    run := EnqueuedRun(m, cfg);
    HopLease(After(START, run, cfg), m, "w1", "a1", "o1", 0, cfg);
    run := Grow(run, At(Call(LeaseAt(m, 0, "w1", "a1", "o1", OPEN)), 0), cfg);
  }

  /** Any two colliding names lead there: enqueue, lease, and a claim under the other name. */
  lemma FenceAfterLease(m: Raw, name: RunName, cfg: Config) returns (run: seq<Timed>)
    requires m.valid && Admissible(m) && m.name in cfg.names && name in cfg.names && cfg.limits == OPEN
    requires Field(name) == Field(m.name) && name != m.name
    ensures Legal(START, run, cfg) && Calm(START, run, cfg)
    ensures ShutOut(After(START, run, cfg).db, m, Handle(m, "a1", "o1"), "w1", 0)
  {
    hide Next, Permitted, Hazard, Works, Legal, Calm, After, Field, Admissible, ShutOut, Blocks;
    var row := Lease(m, 1, 0, 0, "w1", "a1", "o1");
    run := LeasedRun(m, cfg);
    HopAcquire(After(START, run, cfg), m, row, name, "k", 0, cfg);
    run := Grow(run, At(Call(AcquireFence(name, "k", RECONCILER_TTL, 100, 30_000)), 0), cfg);
    BlockedIsShutOut(After(START, run, cfg).db, m, row, "k", 30 * SECOND, 0);
  }

  /** A reconciler claims run `c` of tenant `a:b` while run `b:c` of tenant `a` is
      being processed: the fence stands under the field both share, and the worker
      of the other run is refused ack, fail and heartbeat. */
  lemma CollidingFenceBlocks() returns (run: seq<Timed>, cfg: Config)
    ensures cfg.maxAttempts >= 1 && Legal(START, run, cfg) && Calm(START, run, cfg)
    ensures ShutOut(After(START, run, cfg).db, SHARED, Handle(SHARED, "a1", "o1"), "w1", 0)
  {
    cfg := Config(OPEN, 3, 900, {SHARED.name, OTHER});
    assert Field(OTHER) == "a:b:c" == Field(SHARED.name);
    hide ShutOut, Legal, Calm, After, Field;
    run := FenceAfterLease(SHARED, OTHER, cfg);
  }

  lemma Stop(w: World, cfg: Config)
    ensures Legal(w, [], cfg) && Calm(w, [], cfg) && After(w, [], cfg) == w
  {
  }

  /** One more event at the end of a run. */
  lemma {:induction false} Extend(w: World, run: seq<Timed>, t: Timed, cfg: Config)
    requires Legal(w, run, cfg) && Calm(w, run, cfg)
    requires Permitted(After(w, run, cfg), t.event, cfg) && !Hazard(After(w, run, cfg), t, cfg)
    ensures Legal(w, run + [t], cfg) && Calm(w, run + [t], cfg)
    ensures After(w, run + [t], cfg) == Next(After(w, run, cfg), t, cfg)
    decreases |run|
  {
    hide Permitted, Hazard, Next;
    if run == [] {
      assert [t][1..] == [];
    } else {
      Extend(Next(w, run[0], cfg), run[1..], t, cfg);
      assert (run + [t])[1..] == run[1..] + [t];
    }
  }

  // ---- The hazard can be reached ---------------------------------------------------------------

  predicate NoneWaiting(q: Waiting) {
    q.list == [] && q.meta == map[] && q.index == map[] && q.order == map[]
  }

  ghost predicate Waits(s: State, m: Raw) {
    Idle(s) && exists q :: NoneWaiting(q) && s.waiting == Push(q, m)
  }

  predicate Works(s: State, m: Raw, row: Lease) {
    && s.fences == map[] && NoneWaiting(s.waiting) && s.processing == [m]
    && s.processingMeta == map[m := row] && s.retryMeta == map[m := row]
  }

  lemma HopEnqueue(w: World, m: Raw, now: int, cfg: Config)
    requires Idle(w.db) && NoneWaiting(w.db.waiting) && Admissible(m) && m.name in cfg.names
    ensures var t := At(Call(Enqueue(m)), now);
            && Permitted(w, t.event, cfg) && !Hazard(w, t, cfg)
            && Waits(Next(w, t, cfg).db, m)
            && Next(w, t, cfg).issued == w.issued && Next(w, t, cfg).reclaimers == w.reclaimers
  {
    AdmitIdle(w, m, now, cfg);
    hide Push;
    assert NoneWaiting(w.db.waiting);
  }

  lemma DropOnly(q: Waiting, m: Raw)
    requires NoneWaiting(q)
    ensures var p := Push(q, m);
            && p.list == [m]
            && NoneWaiting(DropAt(p, 0, m, Unindex(p.index, Field(m.name), m)))
  {
    var p := Push(q, m);
    assert p.index[Field(m.name)] == [m];
    assert Without([m], m) == [];
    assert RemoveAt(p.list, 0) == [];
  }

  lemma HopLease(w: World, m: Raw, worker: string, attempt: string, owner: string, now: int, cfg: Config)
    requires Waits(w.db, m) && m.valid && cfg.limits == OPEN && attempt !in w.issued
    ensures var t := At(Call(LeaseAt(m, 0, worker, attempt, owner, OPEN)), now);
            var row := Lease(m, 1, now, now, worker, attempt, owner);
            && Permitted(w, t.event, cfg) && !Hazard(w, t, cfg)
            && Works(Next(w, t, cfg).db, m, row)
            && Next(w, t, cfg).issued == w.issued[attempt := row] && Next(w, t, cfg).reclaimers == w.reclaimers
  {
    var q :| NoneWaiting(q) && w.db.waiting == Push(q, m);
    DropOnly(q, m);
    hide Push, Unindex, DropAt, NoneWaiting, Field;
    assert Live(w.db, now) == w.db;
  }

  lemma HopAck(w: World, m: Raw, row: Lease, now: int, cfg: Config)
    requires Works(w.db, m, row) && m.valid && row.raw == m
    ensures var t := At(Call(Ack(m, Handle(m, row.attempt, row.owner))), now);
            && Permitted(w, t.event, cfg) && !Hazard(w, t, cfg)
            && Idle(Next(w, t, cfg).db) && NoneWaiting(Next(w, t, cfg).db.waiting)
            && Next(w, t, cfg).issued == w.issued && Next(w, t, cfg).reclaimers == w.reclaimers
  {
    assert Live(w.db, now) == w.db;
    assert RemoveFirst([m], m) == [];
    hide NoneWaiting;
  }

  lemma HopList(w: World, m: Raw, row: Lease, cfg: Config)
    requires Works(w.db, m, row)
    ensures var t := At(ListProcessing(0), 0);
            && Permitted(w, t.event, cfg) && !Hazard(w, t, cfg)
            && Next(w, t, cfg).db == w.db && Next(w, t, cfg).issued == w.issued
            && 0 in Next(w, t, cfg).reclaimers && Next(w, t, cfg).reclaimers[0] == Scanning([m])
  {
  }

  lemma HopReadNothing(w: World, m: Raw, cfg: Config)
    requires Idle(w.db) && 0 in w.reclaimers && w.reclaimers[0] == Scanning([m])
    ensures var t := At(ReadLease(0, 0), 0);
            && Permitted(w, t.event, cfg) && !Hazard(w, t, cfg)
            && Next(w, t, cfg).db == w.db && Next(w, t, cfg).issued == w.issued
            && 0 in Next(w, t, cfg).reclaimers && Next(w, t, cfg).reclaimers[0] == NoLease(m, [])
  {
  }

  lemma HopReadRetry(w: World, m: Raw, row: Lease, cfg: Config)
    requires Works(w.db, m, row) && 0 in w.reclaimers && w.reclaimers[0] == NoLease(m, [])
    requires row.attempts >= 1 && row.attempt != "" && row.owner != ""
    ensures var t := At(ReadRetry(0), 0);
            && Permitted(w, t.event, cfg) && !Hazard(w, t, cfg)
            && Next(w, t, cfg).db == w.db
            && 0 in Next(w, t, cfg).reclaimers && Next(w, t, cfg).reclaimers[0] == Decided(m, row, true, [])
  {
  }

  lemma LateReclaim(w: World, m: Raw, row: Lease, now: int, cfg: Config)
    requires Works(w.db, m, row) && row.raw == m && 0 in w.reclaimers && w.reclaimers[0] == Decided(m, row, true, [])
    requires row.attempts >= cfg.maxAttempts && cfg.visibility >= 1 && now - row.heartbeatAt > cfg.visibility * SECOND
    ensures Permitted(w, Reclaim(0), cfg) && Hazard(w, At(Reclaim(0), now), cfg)
  {
    hide NoneWaiting;
  }

  const JOB := Raw("{}", RunName("t", "r"), "u", true)

  /** The first half: the reclaimer lists the entry, its worker acks it, and the
      reclaimer then finds no processing row. */
  lemma ReclaimerLate(cfg: Config) returns (run: seq<Timed>)
    requires cfg.limits == OPEN && JOB.name in cfg.names
    ensures Legal(START, run, cfg) && Calm(START, run, cfg)
    ensures var w := After(START, run, cfg);
            && Idle(w.db) && NoneWaiting(w.db.waiting) && w.issued.Keys == {"a1"}
            && 0 in w.reclaimers && w.reclaimers[0] == NoLease(JOB, [])
  {
    var m := JOB;
    assert Admissible(m);
    hide Next, Permitted, Hazard, Works, Idle, NoneWaiting, Legal, Calm, After, Field, Admissible;
    var row := Lease(m, 1, 0, 0, "w1", "a1", "o1");
    run := LeasedRun(m, cfg);
    HopList(After(START, run, cfg), m, row, cfg);
    run := Grow(run, At(ListProcessing(0), 0), cfg);
    HopAck(After(START, run, cfg), m, row, 0, cfg);
    run := Grow(run, At(Call(Ack(m, Handle(m, "a1", "o1"))), 0), cfg);
    HopReadNothing(After(START, run, cfg), m, cfg);
    run := Grow(run, At(ReadLease(0, 0), 0), cfg);
  }

  // Any limit: a second reclaimer's requeues make the earlier attempts.

  /** The message waits for a retry under `row`. */
  ghost predicate Retries(s: State, m: Raw, row: Lease) {
    && s.fences == map[] && s.processing == [] && s.processingMeta == map[] && s.retryMeta == map[m := row]
    && exists q :: NoneWaiting(q) && s.waiting == Push(q, m)
  }

  /** The slow reclaimer still knows of no row, and issued attempts are at most this long. */
  predicate Pending(w: World, m: Raw, longest: nat) {
    0 in w.reclaimers && w.reclaimers[0] == NoLease(m, []) && forall a :: a in w.issued ==> |a| <= longest
  }

  function Attempt(n: nat): (a: string)
    ensures |a| == n
  {
    seq(n, _ => 'a')
  }

  lemma HopList1(w: World, m: Raw, row: Lease, longest: nat, cfg: Config)
    requires Works(w.db, m, row) && Pending(w, m, longest)
    ensures var t := At(ListProcessing(1), 0);
            && Permitted(w, t.event, cfg) && !Hazard(w, t, cfg)
            && Next(w, t, cfg).db == w.db && Pending(Next(w, t, cfg), m, longest)
            && 1 in Next(w, t, cfg).reclaimers && Next(w, t, cfg).reclaimers[1] == Scanning([m])
  {
  }

  lemma HopReadRow(w: World, m: Raw, row: Lease, longest: nat, checkedAt: int, cfg: Config)
    requires Works(w.db, m, row) && Pending(w, m, longest) && 1 in w.reclaimers && w.reclaimers[1] == Scanning([m])
    requires row.attempts >= 1 && row.attempt != "" && row.owner != "" && checkedAt - row.heartbeatAt > cfg.visibility * SECOND
    ensures var t := At(ReadLease(1, checkedAt), 0);
            && Permitted(w, t.event, cfg) && !Hazard(w, t, cfg)
            && Next(w, t, cfg).db == w.db && Pending(Next(w, t, cfg), m, longest)
            && 1 in Next(w, t, cfg).reclaimers && Next(w, t, cfg).reclaimers[1] == Decided(m, row, false, [])
  {
  }

  lemma HopRequeue(w: World, m: Raw, row: Lease, longest: nat, now: int, cfg: Config)
    requires Works(w.db, m, row) && Pending(w, m, longest) && row.raw == m
    requires 1 in w.reclaimers && w.reclaimers[1] == Decided(m, row, false, [])
    requires row.attempts < cfg.maxAttempts && cfg.visibility >= 1 && now - row.heartbeatAt > cfg.visibility * SECOND && row.leasedAt <= now
    ensures var t := At(Reclaim(1), now);
            && Permitted(w, t.event, cfg) && !Hazard(w, t, cfg)
            && Retries(Next(w, t, cfg).db, m, row) && Pending(Next(w, t, cfg), m, longest)
  {
    var t := At(Reclaim(1), now);
    RequeueAlone(w.db, m, row, cfg.visibility, now);
    assert Next(w, t, cfg).db == Step(w.db, Requeue(m, row, row.attempt, row.owner, cfg.visibility), now).0;
    hide Step, Works, Retries;
  }

  lemma RequeueAlone(s: State, m: Raw, row: Lease, visibility: int, now: int)
    requires Works(s, m, row) && row.raw == m && visibility >= 1 && now - row.heartbeatAt > visibility * SECOND && row.leasedAt <= now
    ensures Retries(Step(s, Requeue(m, row, row.attempt, row.owner, visibility), now).0, m, row)
  {
    assert Live(s, now) == s;
    var rows := map[m := row];
    assert rows[m := row] == rows && rows - {m} == map[];
    assert Normalize(rows, m, row.attempt, row.owner, now) == rows;
    assert RemoveFirst([m], m) == [];
    hide Push, Normalize, NoneWaiting;
  }

  lemma HopLeaseAgain(w: World, m: Raw, row: Lease, longest: nat, now: int, cfg: Config)
    requires Retries(w.db, m, row) && m.valid && cfg.limits == OPEN && Pending(w, m, longest)
    ensures var t := At(Call(LeaseAt(m, 0, "w", Attempt(longest + 1), "o", OPEN)), now);
            var row' := Lease(m, row.attempts + 1, now, now, "w", Attempt(longest + 1), "o");
            && Permitted(w, t.event, cfg) && !Hazard(w, t, cfg)
            && Works(Next(w, t, cfg).db, m, row') && Pending(Next(w, t, cfg), m, longest + 1)
  {
    var t := At(Call(LeaseAt(m, 0, "w", Attempt(longest + 1), "o", OPEN)), now);
    LeaseAlone(w.db, m, row, Attempt(longest + 1), now);
    assert Permitted(w, t.event, cfg);
    hide Step, Works, Retries;
    assert Next(w, t, cfg).reclaimers == w.reclaimers;
  }

  lemma LeaseAlone(s: State, m: Raw, row: Lease, attempt: string, now: int)
    requires Retries(s, m, row)
    ensures Works(Step(s, LeaseAt(m, 0, "w", attempt, "o", OPEN), now).0, m, Lease(m, row.attempts + 1, now, now, "w", attempt, "o"))
  {
    var q :| NoneWaiting(q) && s.waiting == Push(q, m);
    DropOnly(q, m);
    assert Live(s, now) == s;
    hide Push, Unindex, DropAt, NoneWaiting, Field;
  }

  /** The lease under way: its row, and that it can be told and expires. */
  predicate UnderWay(w: World, m: Raw, row: Lease, longest: nat) {
    && Works(w.db, m, row) && Pending(w, m, longest)
    && row.raw == m && row.attempts >= 1 && row.attempt != "" && row.owner != "" && row.leasedAt == row.heartbeatAt
  }

  /** One more attempt: the lease expires, the second reclaimer requeues the message, and
      it is leased again. */
  lemma OneMoreAttempt(run: seq<Timed>, m: Raw, row: Lease, longest: nat, cfg: Config) returns (run': seq<Timed>, row': Lease)
    requires Legal(START, run, cfg) && Calm(START, run, cfg) && UnderWay(After(START, run, cfg), m, row, longest)
    requires m.valid && cfg.limits == OPEN && cfg.visibility >= 1 && row.attempts < cfg.maxAttempts
    ensures Legal(START, run', cfg) && Calm(START, run', cfg) && UnderWay(After(START, run', cfg), m, row', longest + 1)
    ensures row'.attempts == row.attempts + 1
  {
    hide Next, Permitted, Hazard, Works, Retries, Legal, Calm, After, Field, Pending, Attempt;
    var late := row.heartbeatAt + cfg.visibility * SECOND + 1;
    row' := Lease(m, row.attempts + 1, late, late, "w", Attempt(longest + 1), "o");
    HopList1(After(START, run, cfg), m, row, longest, cfg);
    run' := Grow(run, At(ListProcessing(1), 0), cfg);
    HopReadRow(After(START, run', cfg), m, row, longest, late, cfg);
    run' := Grow(run', At(ReadLease(1, late), 0), cfg);
    HopRequeue(After(START, run', cfg), m, row, longest, late, cfg);
    run' := Grow(run', At(Reclaim(1), late), cfg);
    HopLeaseAgain(After(START, run', cfg), m, row, longest, late, cfg);
    run' := Grow(run', At(Call(LeaseAt(m, 0, "w", Attempt(longest + 1), "o", OPEN)), late), cfg);
  }

  lemma {:induction false} ManyAttempts(run: seq<Timed>, m: Raw, row: Lease, longest: nat, cfg: Config)
      returns (run': seq<Timed>, row': Lease, longest': nat)
    requires Legal(START, run, cfg) && Calm(START, run, cfg) && UnderWay(After(START, run, cfg), m, row, longest)
    requires m.valid && cfg.limits == OPEN && cfg.visibility >= 1 && row.attempts <= cfg.maxAttempts
    ensures Legal(START, run', cfg) && Calm(START, run', cfg) && UnderWay(After(START, run', cfg), m, row', longest')
    ensures row'.attempts == cfg.maxAttempts
    decreases cfg.maxAttempts - row.attempts
  {
    hide UnderWay, Legal, Calm, After;
    if row.attempts == cfg.maxAttempts {
      run', row', longest' := run, row, longest;
    } else {
      run', row' := OneMoreAttempt(run, m, row, longest, cfg);
      run', row', longest' := ManyAttempts(run', m, row', longest + 1, cfg);
    }
  }

  /** A slow reclaimer, whatever the limit: it lists the entry, the first worker acks it,
      it reads no processing row; the same payload is admitted and leased again, as
      often as the limit allows; it then reads the retry row, and that lease expires. */
  lemma HazardReachable(maxAttempts: nat, visibility: int) returns (run: seq<Timed>, t: Timed, cfg: Config)
    requires maxAttempts >= 1 && visibility >= 1
    ensures cfg.maxAttempts == maxAttempts && cfg.visibility == visibility && Sound(cfg)
    ensures Legal(START, run, cfg) && Calm(START, run, cfg)
    ensures Permitted(After(START, run, cfg), t.event, cfg) && Hazard(After(START, run, cfg), t, cfg)
  {
    cfg := Config(OPEN, maxAttempts, visibility, {JOB.name});
    assert Sound(cfg) && JOB.valid;
    hide UnderWay, Legal, Calm, After, Sound, Permitted, Hazard;
    var row, longest;
    run, row := LeasedAgain(cfg);
    run, row, longest := ManyAttempts(run, JOB, row, 2, cfg);
    run, t := LateAtLimit(run, JOB, row, longest, cfg);
  }

  /** The second half begins: the same payload is admitted and leased again. */
  lemma LeasedAgain(cfg: Config) returns (run: seq<Timed>, row: Lease)
    requires cfg.limits == OPEN && JOB.name in cfg.names
    ensures Legal(START, run, cfg) && Calm(START, run, cfg)
    ensures UnderWay(After(START, run, cfg), JOB, row, 2) && row.attempts == 1
  {
    hide Next, Permitted, Hazard, Works, Waits, Idle, NoneWaiting, Legal, Calm, After, Field, Admissible;
    run := AdmittedAgain(cfg);
    row := Lease(JOB, 1, 0, 0, "w2", "a2", "o2");
    assert "a2" != "a1";
    HopLease(After(START, run, cfg), JOB, "w2", "a2", "o2", 0, cfg);
    run := Grow(run, At(Call(LeaseAt(JOB, 0, "w2", "a2", "o2", OPEN)), 0), cfg);
  }

  lemma AdmittedAgain(cfg: Config) returns (run: seq<Timed>)
    requires cfg.limits == OPEN && JOB.name in cfg.names
    ensures Legal(START, run, cfg) && Calm(START, run, cfg)
    ensures var w := After(START, run, cfg);
            && Waits(w.db, JOB) && w.issued.Keys == {"a1"}
            && 0 in w.reclaimers && w.reclaimers[0] == NoLease(JOB, [])
  {
    assert Admissible(JOB);
    hide Next, Permitted, Hazard, Waits, Idle, NoneWaiting, Legal, Calm, After, Field, Admissible;
    run := ReclaimerLate(cfg);
    HopEnqueue(After(START, run, cfg), JOB, 0, cfg);
    run := Grow(run, At(Call(Enqueue(JOB)), 0), cfg);
  }

  lemma LateAtLimit(run: seq<Timed>, m: Raw, row: Lease, longest: nat, cfg: Config) returns (run': seq<Timed>, t: Timed)
    requires Legal(START, run, cfg) && Calm(START, run, cfg) && UnderWay(After(START, run, cfg), m, row, longest)
    requires row.attempts >= cfg.maxAttempts && cfg.visibility >= 1
    ensures Legal(START, run', cfg) && Calm(START, run', cfg)
    ensures Permitted(After(START, run', cfg), t.event, cfg) && Hazard(After(START, run', cfg), t, cfg)
  {
    hide Next, Permitted, Hazard, Works, Legal, Calm, After, Field;
    t := At(Reclaim(0), row.heartbeatAt + cfg.visibility * SECOND + 1);
    HopReadRetry(After(START, run, cfg), m, row, cfg);
    run' := Grow(run, At(ReadRetry(0), 0), cfg);
    LateReclaim(After(START, run', cfg), m, row, t.now, cfg);
  }

  lemma Grow(run: seq<Timed>, t: Timed, cfg: Config) returns (run': seq<Timed>)
    requires Legal(START, run, cfg) && Calm(START, run, cfg)
    requires Permitted(After(START, run, cfg), t.event, cfg) && !Hazard(After(START, run, cfg), t, cfg)
    ensures Legal(START, run', cfg) && Calm(START, run', cfg)
    ensures After(START, run', cfg) == Next(After(START, run, cfg), t, cfg)
  {
    Extend(START, run, t, cfg);
    run' := run + [t];
  }
}

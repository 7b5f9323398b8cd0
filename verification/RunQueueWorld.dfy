/** Whole runs of the queue: scripts of any number of clients interleaved with
    the separate reads and the later script call of every reclaimer. Beside the
    Redis state a world keeps what happened: admissions, settlements, issued
    leases and deliveries. */
module RunQueueWorld {
  import opened RunQueueScripts
  import opened RunQueueCoherence

  /** Settings all callers share, and the run names that occur. */
  datatype Config = Config(limits: Limits, maxAttempts: nat, visibility: int, names: set<RunName>)

  ghost predicate Sound(cfg: Config) {
    cfg.maxAttempts >= 1 && Unambiguous(cfg.names)
  }

  /** Where one pass of reclaim_expired_leases stands: the rest of its LRANGE
      snapshot, the entry whose processing row it found missing, or the row it
      is about to act on and whether that row came from retry_meta. */
  datatype Reclaimer =
    | Scanning(todo: seq<Raw>)
    | NoLease(raw: Raw, todo: seq<Raw>)
    | Decided(raw: Raw, row: Lease, fromRetry: bool, todo: seq<Raw>)

  datatype World = World(
    db: State,
    admitted: multiset<Raw>,
    settled: multiset<Raw>,
    issued: map<string, Lease>,
    deliveries: map<Raw, nat>,
    stranded: set<Raw>,
    reclaimers: map<nat, Reclaimer>)

  const START := World(EMPTY, multiset{}, multiset{}, map[], map[], {}, map[])

  datatype Event =
    | Call(script: Script)
    | ListProcessing(who: nat)
    | ReadLease(who: nat, checkedAt: int)
    | ReadRetry(who: nat)
    | Reclaim(who: nat)

  datatype Timed = At(event: Event, now: int)

  // ---- What a script call adds to the history ------------------------------------

  function Admitted(sum: multiset<Raw>, script: Script, reply: Reply): multiset<Raw> {
    if script.Enqueue? && reply.Enqueued? then sum + multiset{script.raw} else sum
  }

  predicate Settles(script: Script, reply: Reply) {
    || (script.Ack? && reply.Acked?)
    || (script.Fail? && reply.Failed?)
    || (script.DeadLetterInvalid? && reply.DeadLettered?)
    || (script.DeadLetterExpired? && reply.DeadLettered?)
  }

  function Settled(sum: multiset<Raw>, script: Script, reply: Reply, before: State, after: State): multiset<Raw> {
    if script.RemoveQueued? then sum + (multiset(before.waiting.list) - multiset(after.waiting.list))
    else if Settles(script, reply) then sum + multiset{script.raw}
    else sum
  }

  function Issuance(issued: map<string, Lease>, script: Script, reply: Reply, after: State): map<string, Lease> {
    if script.LeaseAt? && reply.Leased? && script.raw in after.processingMeta
    then issued[script.attempt := after.processingMeta[script.raw]] else issued
  }

  function Deliveries(count: map<Raw, nat>, script: Script, reply: Reply): map<Raw, nat> {
    if script.Enqueue? && reply.Enqueued? then count[script.raw := 0]
    else if script.LeaseAt? && reply.Leased? then
      count[script.raw := (if script.raw in count then count[script.raw] else 0) + 1]
    else count
  }

  /** Messages a removal takes out of the queue while their retry row stays. */
  function Stranded(sum: set<Raw>, script: Script, before: State, after: State): set<Raw> {
    if script.RemoveQueued?
    then sum + (set r | r in before.waiting.list && r !in after.waiting.list && r in after.retryMeta)
    else sum
  }

  function Perform(w: World, script: Script, now: int): World {
    var (db, reply) := Step(w.db, script, now);
    w.(db := db,
       admitted := Admitted(w.admitted, script, reply),
       settled := Settled(w.settled, script, reply, w.db, db),
       issued := Issuance(w.issued, script, reply, db),
       deliveries := Deliveries(w.deliveries, script, reply),
       stranded := Stranded(w.stranded, script, w.db, db))
  }

  // ---- Events -----------------------------------------------------------------------

  /** Rows without an identity are skipped, and so are leases that look alive to the
      reclaimer's own clock (app/queue.py:2529-2530 and 2568-2574). */
  predicate Skips(row: Lease, fromRetry: bool, checkedAt: int, cfg: Config) {
    || row.attempt == "" || row.owner == "" || row.attempts < 1
    || (!fromRetry && 0 <= checkedAt - row.heartbeatAt <= cfg.visibility * SECOND)
  }

  /** The script a reclaimer sends for the row it decided on. */
  function Verdict(r: Reclaimer, cfg: Config): Script
    requires r.Decided?
  {
    if r.row.attempts >= cfg.maxAttempts
    then DeadLetterExpired(r.raw, r.row, !r.fromRetry, r.row.attempt, r.row.owner, cfg.visibility)
    else Requeue(r.raw, r.row, r.row.attempt, r.row.owner, cfg.visibility)
  }

  predicate IsReclaim(script: Script) {
    script.Requeue? || script.DeadLetterExpired?
  }

  /** Reclaim scripts are only sent by reclaimers, every lease try draws a fresh
      attempt id, leases go to payloads the worker accepts, and names occur in
      the configuration. */
  predicate Permitted(w: World, event: Event, cfg: Config) {
    match event
    case Call(script) =>
      && !IsReclaim(script)
      && (script.LeaseAt? ==> script.raw.valid && script.limits == cfg.limits && script.attempt !in w.issued)
      && (script.Enqueue? ==> script.raw.name in cfg.names)
      && (script.RemoveQueued? ==> script.name in cfg.names)
      && (script.AcquireFence? ==> script.name in cfg.names)
    case ListProcessing(who) => true
    case ReadLease(who, checkedAt) => who in w.reclaimers && w.reclaimers[who].Scanning? && w.reclaimers[who].todo != []
    case ReadRetry(who) => who in w.reclaimers && w.reclaimers[who].NoLease?
    case Reclaim(who) => who in w.reclaimers && w.reclaimers[who].Decided?
  }

  function AfterReadLease(db: State, raw: Raw, todo: seq<Raw>, checkedAt: int, cfg: Config): Reclaimer {
    if raw !in db.processingMeta then NoLease(raw, todo)
    else if Skips(db.processingMeta[raw], false, checkedAt, cfg) then Scanning(todo)
    else Decided(raw, db.processingMeta[raw], false, todo)
  }

  function AfterReadRetry(db: State, raw: Raw, todo: seq<Raw>, cfg: Config): Reclaimer {
    if raw !in db.retryMeta || Skips(db.retryMeta[raw], true, 0, cfg) then Scanning(todo)
    else Decided(raw, db.retryMeta[raw], true, todo)
  }

  function Next(w: World, t: Timed, cfg: Config): World
    requires Permitted(w, t.event, cfg)
  {
    match t.event
    case Call(script) => Perform(w, script, t.now)
    case ListProcessing(who) => w.(reclaimers := w.reclaimers[who := Scanning(w.db.processing)])
    case ReadLease(who, checkedAt) =>
      var todo := w.reclaimers[who].todo;
      w.(reclaimers := w.reclaimers[who := AfterReadLease(w.db, todo[0], todo[1..], checkedAt, cfg)])
    case ReadRetry(who) =>
      var r := w.reclaimers[who];
      w.(reclaimers := w.reclaimers[who := AfterReadRetry(w.db, r.raw, r.todo, cfg)])
    case Reclaim(who) =>
      var r := w.reclaimers[who];
      Perform(w, Verdict(r, cfg), t.now).(reclaimers := w.reclaimers[who := Scanning(r.todo)])
  }

  // ---- Runs ----------------------------------------------------------------------------

  ghost predicate Legal(w: World, run: seq<Timed>, cfg: Config)
    decreases |run|
  {
    run == [] || (Permitted(w, run[0].event, cfg) && Legal(Next(w, run[0], cfg), run[1..], cfg))
  }

  ghost function After(w: World, run: seq<Timed>, cfg: Config): World
    requires Legal(w, run, cfg)
    decreases |run|
  {
    if run == [] then w else After(Next(w, run[0], cfg), run[1..], cfg)
  }

  /** The reclaimer found no processing row, then a retry row at the limit, and
      by the time its dead-letter script runs the message is leased under that
      very row and the lease has expired. */
  predicate Hazard(w: World, t: Timed, cfg: Config) {
    && t.event.Reclaim? && t.event.who in w.reclaimers && w.reclaimers[t.event.who].Decided?
    && var r := w.reclaimers[t.event.who];
       && r.fromRetry && r.row.attempts >= cfg.maxAttempts
       && r.raw in w.db.processingMeta
       && Owns(w.db.processingMeta[r.raw], r.raw, r.row.attempt, r.row.owner)
       && !(r.raw.valid && IsFenced(Live(w.db, t.now), r.raw.name))
       && cfg.visibility >= 1
       && t.now - w.db.processingMeta[r.raw].heartbeatAt > cfg.visibility * SECOND
  }

  /** The event acts on a run under a field another run uses: it removes a run while
      a message of the other waits, or claims it while one is being processed. */
  ghost predicate Collides(w: World, t: Timed) {
    && t.event.Call?
    && var script := t.event.script;
       || (script.RemoveQueued? && !Alone(w.db.waiting, script.name))
       || (script.AcquireFence? && Step(w.db, script, t.now).1.Claimed? && !Unshared(w.db, script.name))
  }

  ghost predicate Calm(w: World, run: seq<Timed>, cfg: Config)
    requires Legal(w, run, cfg)
    decreases |run|
  {
    run == [] || (!Hazard(w, run[0], cfg) && Calm(Next(w, run[0], cfg), run[1..], cfg))
  }

  // ---- What every world satisfies -----------------------------------------------------

  /** Every admission is waiting, being processed or settled, exactly once. */
  ghost predicate Conserved(w: World) {
    w.admitted == multiset(w.db.waiting.list) + multiset(w.db.processing) + w.settled
  }

  ghost predicate Genuine(row: Lease, issued: map<string, Lease>) {
    row.attempt in issued && SameLease(row, issued[row.attempt]) && row.attempts >= 1
  }

  /** Every lease row, stored or held by a reclaimer, is one that was issued. */
  ghost predicate AllGenuine(w: World) {
    && (forall id :: id in w.db.processingMeta ==> Genuine(w.db.processingMeta[id], w.issued))
    && (forall id :: id in w.db.retryMeta ==> Genuine(w.db.retryMeta[id], w.issued))
    && (forall who :: who in w.reclaimers && w.reclaimers[who].Decided? ==>
          Genuine(w.reclaimers[who].row, w.issued) && w.reclaimers[who].row.raw == w.reclaimers[who].raw)
  }

  /** A recorded attempt count never passes the limit, and one at the limit
      belongs to a message still being processed. */
  ghost predicate Bounded(db: State, cfg: Config) {
    forall id :: id in db.retryMeta ==>
      db.retryMeta[id].attempts <= cfg.maxAttempts && (id !in db.processingMeta ==> db.retryMeta[id].attempts < cfg.maxAttempts)
  }

  /** The recorded attempt count is the number of deliveries since admission. */
  ghost predicate Counted(db: State, deliveries: map<Raw, nat>) {
    && (forall r :: r in db.processing ==> r in db.processingMeta && r in deliveries && db.processingMeta[r].attempts == deliveries[r])
    && (forall r :: r in db.waiting.list ==> r in deliveries && NextAttempt(db, r) == deliveries[r] + 1)
  }

  /** A retry row belongs to a live message, or to one a removal stranded. */
  ghost predicate Accounted(db: State, stranded: set<Raw>) {
    && (forall id :: id in db.retryMeta ==> id in db.processing || id in db.waiting.list || id in stranded)
    && (forall id :: id in stranded ==> id in db.retryMeta && id !in db.processing && id !in db.waiting.list)
  }

  ghost predicate WithinCaps(processing: seq<Raw>, limits: Limits) {
    && (limits.processing > 0 ==> |processing| <= limits.processing)
    && (limits.tenant > 0 ==> forall t :: TenantCount(processing, t) <= limits.tenant)
    && (limits.user > 0 ==> forall t, u :: UserCount(processing, t, u) <= limits.user)
  }

  /** Everything a world satisfies beside the agreement of the structures. */
  ghost predicate Books(w: World, cfg: Config) {
    && Named(w.db, cfg.names)
    && Conserved(w)
    && AllGenuine(w)
    && Bounded(w.db, cfg)
    && Counted(w.db, w.deliveries)
    && Accounted(w.db, w.stranded)
    && WithinCaps(w.db.processing, cfg.limits)
  }

  ghost predicate Invariant(w: World, cfg: Config) {
    Coherent(w.db) && Books(w, cfg)
  }
}

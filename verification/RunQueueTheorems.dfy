/** What the invariant means for clients of the queue, over whole runs. */
module RunQueueTheorems {
  import opened Sequences
  import opened RunQueueScripts
  import opened RunQueueCoherence
  import opened RunQueueWorld
  import opened RunQueueInvariant
  import opened RunQueueSteady

  // ---- Admission, re-enqueue and read-back ------------------------------------------------

  datatype Readback = Queued(position: nat, sequence: nat) | Processing | Retrying | Absent

  /** read_queue_admission, with its three reads taken at one instant. */
  function ReadAdmission(s: State, raw: Raw): Readback {
    if raw in s.waiting.meta && s.waiting.meta[raw].raw.name == raw.name && raw in s.waiting.order
    then Queued(ZRank(s.waiting.order, raw) + 1, s.waiting.meta[raw].sequence)
    else if raw in s.processingMeta && s.processingMeta[raw].raw.name == raw.name then Processing
    else if raw in s.retryMeta && s.retryMeta[raw].raw.name == raw.name then Retrying
    else Absent
  }

  /** The k-th waiting message: re-enqueueing it changes nothing and reports, as
      the read-back does, its list position and the sequence it was given. */
  lemma WaitingReported(s: State, k: nat)
    requires WaitingOk(s.waiting) && k < |s.waiting.list| && !IsFenced(s, s.waiting.list[k].name)
    ensures var raw := s.waiting.list[k];
            && raw in s.waiting.order
            && EnqueueScript(s, raw) == (s, AlreadyEnqueued(k + 1, s.waiting.order[raw]))
            && ReadAdmission(s, raw) == Queued(k + 1, s.waiting.order[raw])
  {
    RankIsPosition(s.waiting, k);
    assert s.waiting.list[k] in s.waiting.list;
  }

  /** A message that does not wait: what enqueueing and reading back say of it. */
  lemma NotWaitingReported(s: State, raw: Raw)
    requires Guarded(s) && RowsNamed(s) && raw !in s.waiting.list && Admissible(raw) && !IsFenced(s, raw.name)
    ensures EnqueueScript(s, raw).1 ==
            if raw in s.processingMeta || raw in s.retryMeta then AlreadyLeased
            else Enqueued(|s.waiting.list| + 1, s.waiting.sequence + 1)
    ensures ReadAdmission(s, raw) ==
            if raw in s.processingMeta then Processing else if raw in s.retryMeta then Retrying else Absent
    ensures EnqueueScript(s, raw).1.AlreadyLeased? ==> EnqueueScript(s, raw).0 == s
  {
    NotIndexed(s.waiting, raw);
    hide WaitingOk, FencesOk, NoDup, Push, Held, Apart, KnownWaiting;
  }

  lemma NotIndexed(w: Waiting, raw: Raw)
    requires WaitingOk(w) && raw !in w.list
    ensures !KnownWaiting(w, raw) && raw !in w.meta
  {
    hide NoDup, Ascending;
  }

  /** In a calm world the rows tell exactly where a message is. */
  lemma CalmRows(w: World, raw: Raw, cfg: Config)
    requires Invariant(w, cfg) && raw !in w.db.waiting.list
    ensures raw in w.db.processingMeta <==> raw in w.db.processing
    ensures raw in w.db.retryMeta <==> raw in w.db.processing || raw in w.stranded
  {
    hide WaitingOk, FencesOk, Named, Conserved, AllGenuine, Bounded, Counted, WithinCaps, NoDup;
  }

  /** The answer to an enqueue, and what the read-back says of the same message: its
      queue position if it waits, a refusal if it is being processed or stranded,
      and, if the run was calm, otherwise a place at the end. */
  ghost predicate Classified(w: World, raw: Raw, now: int, calm: bool) {
    var s := Live(w.db, now);
    var (s', reply) := Step(w.db, Enqueue(raw), now);
    && (forall k :: 0 <= k < |s.waiting.list| && s.waiting.list[k] == raw ==>
          raw in s.waiting.order
          && s' == s && reply == AlreadyEnqueued(k + 1, s.waiting.order[raw])
          && ReadAdmission(s, raw) == Queued(k + 1, s.waiting.order[raw]))
    && (raw !in s.waiting.list && (raw in s.processing || raw in w.stranded) ==>
          s' == s && reply == AlreadyLeased
          && ReadAdmission(s, raw) == if raw in s.processing then Processing else Retrying)
    && (calm && raw !in s.waiting.list && raw !in s.processing && raw !in w.stranded ==>
          reply == Enqueued(|s.waiting.list| + 1, s.waiting.sequence + 1) && ReadAdmission(s, raw) == Absent)
  }

  /** After any legal run, enqueueing an unfenced admissible payload at any time
      answers by where the message is, and the read-back tells the same story. */
  lemma EnqueueClassified(run: seq<Timed>, cfg: Config, raw: Raw, now: int)
    requires Sound(cfg) && Legal(START, run, cfg)
    requires Admissible(raw)
    requires !IsFenced(Live(After(START, run, cfg).db, now), raw.name)
    ensures Classified(After(START, run, cfg), raw, now, Calm(START, run, cfg))
  {
    hide Invariant, Steady, Sound, Legal, Calm, Admissible, IsFenced, Live, After, Classified;
    SteadyAlways(run, cfg);
    if Calm(START, run, cfg) { InvariantAlways(run, cfg); }
    EnqueueAnswers(After(START, run, cfg), raw, now, cfg, Calm(START, run, cfg));
  }

  /** The answer in any steady world. */
  lemma EnqueueAnswers(w: World, raw: Raw, now: int, cfg: Config, calm: bool)
    requires Steady(w, cfg) && Admissible(raw) && !IsFenced(Live(w.db, now), raw.name)
    requires calm ==> Invariant(w, cfg)
    ensures Classified(w, raw, now, calm)
  {
    var s := Live(w.db, now);
    hide Invariant, Steady, EnqueueScript, ReadAdmission, Admissible, IsFenced;
    LiveSteady(w, now, cfg);
    assert Step(w.db, Enqueue(raw), now) == EnqueueScript(s, raw);
    assert s.waiting == w.db.waiting && s.processing == w.db.processing && s.processingMeta == w.db.processingMeta && s.retryMeta == w.db.retryMeta;
    hide Step, Live;
    if raw in s.waiting.list {
      SteadyParts(w.(db := s), cfg);
      hide WaitingOk, Named, AllGenuine, RowsBounded, FencesOk;
      forall k | 0 <= k < |s.waiting.list| && s.waiting.list[k] == raw
        ensures raw in s.waiting.order
             && EnqueueScript(s, raw) == (s, AlreadyEnqueued(k + 1, s.waiting.order[raw]))
             && ReadAdmission(s, raw) == Queued(k + 1, s.waiting.order[raw])
      {
        WaitingReported(s, k);
      }
    } else {
      SteadyRows(w.(db := s), raw, cfg);
      hide Guarded, RowsNamed;
      NotWaitingReported(s, raw);
      if calm { CalmRows(w, raw, cfg); }
    }
  }

  lemma SteadyRows(w: World, raw: Raw, cfg: Config)
    requires Steady(w, cfg)
    ensures Guarded(w.db) && RowsNamed(w.db)
    ensures raw in w.db.processing ==> raw in w.db.processingMeta
    ensures raw in w.stranded ==> raw in w.db.retryMeta && raw !in w.db.processingMeta && raw !in w.db.waiting.list && raw !in w.db.processing
  {
    ProcessingFacts(w.db, raw);
    hide Guarded, RowsNamed, AllGenuine, RowsBounded, Counted;
  }

  // ---- Conservation -----------------------------------------------------------------------

  lemma LiveOnce(w: World, raw: Raw, cfg: Config)
    requires Invariant(w, cfg)
    ensures !(raw in w.db.waiting.list && raw in w.db.processing)
    ensures w.admitted[raw] ==
            w.settled[raw] + (if raw in w.db.waiting.list || raw in w.db.processing then 1 else 0)
  {
    NoDupCount(w.db.waiting.list, raw);
    NoDupCount(w.db.processing, raw);
    hide IndexOk, FencesOk, Named, AllGenuine, Bounded, Counted, Accounted, WithinCaps, NoDup;
  }

  /** After any calm run each admission of a message is settled exactly once or
      is the one live copy, although no settling script checks its LREM. */
  lemma AdmissionsConserved(run: seq<Timed>, cfg: Config, raw: Raw)
    requires Sound(cfg) && Legal(START, run, cfg) && Calm(START, run, cfg)
    ensures var w := After(START, run, cfg);
            && !(raw in w.db.waiting.list && raw in w.db.processing)
            && multiset(w.db.waiting.list)[raw] <= 1 && multiset(w.db.processing)[raw] <= 1
            && w.admitted[raw] ==
               w.settled[raw] + (if raw in w.db.waiting.list || raw in w.db.processing then 1 else 0)
  {
    InvariantAlways(run, cfg);
    var w := After(START, run, cfg);
    LiveOnce(w, raw, cfg);
    NoDupCount(w.db.waiting.list, raw);
    NoDupCount(w.db.processing, raw);
  }

  // ---- Bounded delivery ---------------------------------------------------------------------

  lemma LeaseCountsUp(w: World, script: Script, now: int, cfg: Config)
    requires Steady(w, cfg) && cfg.maxAttempts >= 1 && script.LeaseAt?
    requires Step(w.db, script, now).1.Leased?
    ensures script.raw in w.deliveries
    ensures Step(w.db, script, now).1.attempts == w.deliveries[script.raw] + 1 <= cfg.maxAttempts
  {
    LeaseReports(w.db, script, now);
    WaitingFacts(w.db, script.raw);
    hide Guarded, Named, AllGenuine, RowsNamed, StrandedKept, Step;
  }

  lemma LeaseReports(s: State, script: Script, now: int)
    requires script.LeaseAt? && Step(s, script, now).1.Leased?
    ensures script.raw in s.waiting.list && Step(s, script, now).1.attempts == NextAttempt(s, script.raw)
  {
    hide Unindex, DropAt, QuotaOpen, CapacityOpen;
  }

  /** The attempt number handed out is one more than the deliveries since
      admission and never passes the limit, however reclaimers interleave; every
      live message has been delivered at most that often. After a calm run a retry
      row at the limit belongs to a message still being processed. */
  lemma DeliveriesBounded(run: seq<Timed>, cfg: Config, script: Script, now: int, raw: Raw)
    requires Sound(cfg) && Legal(START, run, cfg)
    requires script.LeaseAt?
    ensures var w := After(START, run, cfg);
            var reply := Step(w.db, script, now).1;
            && (reply.Leased? ==> script.raw in w.deliveries && reply.attempts == w.deliveries[script.raw] + 1 <= cfg.maxAttempts)
            && (raw in w.db.waiting.list || raw in w.db.processing ==> raw in w.deliveries && w.deliveries[raw] <= cfg.maxAttempts)
            && (raw in w.db.retryMeta ==> w.db.retryMeta[raw].attempts <= cfg.maxAttempts)
            && (raw in w.db.retryMeta && w.db.retryMeta[raw].attempts == cfg.maxAttempts ==> raw in w.db.processingMeta)
            && (Calm(START, run, cfg) && raw in w.db.retryMeta && w.db.retryMeta[raw].attempts == cfg.maxAttempts ==>
                  raw in w.db.processing && raw in w.db.processingMeta && w.db.processingMeta[raw] == w.db.retryMeta[raw])
  {
    hide Legal, Calm, Step, Steady, Invariant, After;
    SteadyAlways(run, cfg);
    if Calm(START, run, cfg) { InvariantAlways(run, cfg); }
    var w := After(START, run, cfg);
    if Step(w.db, script, now).1.Leased? { LeaseCountsUp(w, script, now, cfg); }
    DeliveredWithin(w, raw, cfg);
    if Calm(START, run, cfg) && raw in w.db.processingMeta { RetryAtLimit(w, raw, cfg); }
  }

  lemma DeliveredWithin(w: World, raw: Raw, cfg: Config)
    requires Steady(w, cfg) && cfg.maxAttempts >= 1
    ensures raw in w.db.waiting.list || raw in w.db.processing ==> raw in w.deliveries && w.deliveries[raw] <= cfg.maxAttempts
    ensures raw in w.db.retryMeta ==> w.db.retryMeta[raw].attempts <= cfg.maxAttempts
    ensures raw in w.db.retryMeta && w.db.retryMeta[raw].attempts == cfg.maxAttempts ==> raw in w.db.processingMeta
  {
    ProcessingFacts(w.db, raw);
    hide Guarded, Named, AllGenuine, RowsNamed, StrandedKept;
  }

  lemma RetryAtLimit(w: World, raw: Raw, cfg: Config)
    requires Invariant(w, cfg) && raw in w.db.processingMeta
    ensures raw in w.db.processing && raw in w.db.retryMeta && w.db.processingMeta[raw] == w.db.retryMeta[raw]
  {
    hide WaitingOk, FencesOk, Named, Conserved, AllGenuine, Accounted, WithinCaps, NoDup;
  }

  /** The processing list respects the global, tenant and user caps after any
      legal run, whatever the run names. */
  lemma CapsRespected(run: seq<Timed>, cfg: Config)
    requires Legal(START, run, cfg)
    ensures WithinCaps(After(START, run, cfg).db.processing, cfg.limits)
  {
    CapsFrom(START, run, cfg);
  }

  // ---- Fences ----------------------------------------------------------------------------------

  /** While a fence stands nothing of its run waits or is processed, and the next
      event, whatever it is, brings nothing back. */
  lemma FenceExcludes(run: seq<Timed>, cfg: Config, t: Timed, name: RunName, raw: Raw)
    requires Sound(cfg) && Legal(START, run, cfg)
    requires var w := After(START, run, cfg);
             Permitted(w, t.event, cfg) && IsFenced(Live(w.db, t.now), name)
    requires Field(raw.name) == Field(name)
    ensures var w := After(START, run, cfg);
            && raw !in w.db.waiting.list && raw !in w.db.processing
            && raw !in Next(w, t, cfg).db.waiting.list && raw !in Next(w, t, cfg).db.processing
  {
    SteadyAlways(run, cfg);
    var w := After(START, run, cfg);
    hide Legal, Steady, After;
    NextSteady(w, t, cfg);
    FenceSurvives(w, t, cfg, name);
    SteadyParts(w, cfg);
    SteadyParts(Next(w, t, cfg), cfg);
    hide WaitingOk, Named, AllGenuine, RowsBounded, Next, Permitted;
  }

  predicate WritesFence(script: Script) {
    script.AcquireFence? || script.RenewFence? || script.ReleaseFence?
  }

  lemma OthersKeepFences(s: State, script: Script, now: int)
    requires !WritesFence(script)
    ensures Step(s, script, now).0.fences == Live(s, now).fences
  {
    hide Live, Push, Matched, Rowless, RowsOf, Drain, UnindexByRow, NextAttempt, ReclaimGuard, Unindex, DropAt;
    if IsReclaim(script) {
      GuardKeepsFences(Live(s, now), script.raw, script.attempt, script.owner, script.visibility, now);
    }
  }

  lemma GuardKeepsFences(s: State, raw: Raw, attempt: string, owner: string, visibility: int, now: int)
    ensures ReclaimGuard(s, raw, attempt, owner, visibility, now).state.fences == s.fences
  {
  }

  lemma FenceSurvives(w: World, t: Timed, cfg: Config, name: RunName)
    requires Permitted(w, t.event, cfg) && IsFenced(Live(w.db, t.now), name)
    ensures var db := Next(w, t, cfg).db;
            || IsFenced(db, name)
            || (db.waiting == w.db.waiting && db.processing == w.db.processing)
  {
    hide Step, IsFenced, Live;
    if t.event.Call? {
      FenceOrLists(w.db, t.event.script, t.now, name);
    } else if t.event.Reclaim? {
      FenceOrLists(w.db, Verdict(w.reclaimers[t.event.who], cfg), t.now, name);
    }
  }

  lemma FenceOrLists(s: State, script: Script, now: int, name: RunName)
    requires IsFenced(Live(s, now), name)
    ensures var s' := Step(s, script, now).0;
            IsFenced(s', name) || (s'.waiting == s.waiting && s'.processing == s.processing)
  {
    if WritesFence(script) {
      QuietShape(s, script, now);
    } else {
      OthersKeepFences(s, script, now);
    }
    hide Step;
  }

  predicate Retakes(t: Timed, name: RunName, token: string) {
    t.event.Call? && t.event.script.AcquireFence? && Field(t.event.script.name) == Field(name) && t.event.script.token == token
  }

  /** The clock of a run does not go back. */
  predicate Clocked(run: seq<Timed>, clock: int) {
    && (forall i :: 0 <= i < |run| ==> clock <= run[i].now)
    && (forall i, j :: 0 <= i < j < |run| ==> run[i].now <= run[j].now)
  }

  lemma FenceLostNext(w: World, t: Timed, cfg: Config, name: RunName, token: string, clock: int)
    requires Permitted(w, t.event, cfg) && clock <= t.now
    requires !HoldsFence(Live(w.db, clock), name, token) && !Retakes(t, name, token)
    ensures !HoldsFence(Live(Next(w, t, cfg).db, t.now), name, token)
  {
    ExpiredLater(w.db, name, token, clock, t.now);
    hide Step, HoldsFence, Live;
    if t.event.Call? {
      FenceLostStep(w.db, t.event.script, t.now, name, token);
    } else if t.event.Reclaim? {
      FenceLostStep(w.db, Verdict(w.reclaimers[t.event.who], cfg), t.now, name, token);
    }
  }

  lemma ExpiredLater(s: State, name: RunName, token: string, clock: int, now: int)
    requires !HoldsFence(Live(s, clock), name, token) && clock <= now
    ensures !HoldsFence(Live(s, now), name, token)
  {
  }

  lemma FenceLostStep(s: State, script: Script, now: int, name: RunName, token: string)
    requires !HoldsFence(Live(s, now), name, token) && !Retakes(At(Call(script), now), name, token)
    ensures !HoldsFence(Live(Step(s, script, now).0, now), name, token)
  {
    var u := Live(s, now);
    if WritesFence(script) {
      FenceWritten(u, script, now, name, token);
      hide AcquireScript, RenewScript, ReleaseScript;
      NotHeldLive(Step(s, script, now).0, name, token, now);
    } else {
      OthersKeepFences(s, script, now);
      hide Step;
      NotHeldLive(Step(s, script, now).0, name, token, now);
    }
  }

  lemma NotHeldLive(s: State, name: RunName, token: string, now: int)
    requires !HoldsFence(s, name, token)
    ensures !HoldsFence(Live(s, now), name, token)
  {
  }

  lemma FenceWritten(s: State, script: Script, now: int, name: RunName, token: string)
    requires WritesFence(script) && !HoldsFence(s, name, token) && !Retakes(At(Call(script), now), name, token)
    ensures script.AcquireFence? ==>
              !HoldsFence(AcquireScript(s, script.name, script.token, script.workerTtl, script.scanLimit, script.ttlMs, now).0, name, token)
    ensures script.RenewFence? ==> !HoldsFence(RenewScript(s, script.name, script.token, script.ttlMs, now).0, name, token)
    ensures script.ReleaseFence? ==> !HoldsFence(ReleaseScript(s, script.name, script.token).0, name, token)
  {
    hide Unowned, Field;
  }

  /** A holder whose fence was released, taken over or has expired can neither renew
      nor release whatever fence stands later, as long as its token is not drawn
      again. */
  lemma {:induction false} LostFenceStaysLost(w: World, run: seq<Timed>, cfg: Config, name: RunName, token: string, ttlMs: int, clock: int, now: int)
    requires Legal(w, run, cfg) && !HoldsFence(Live(w.db, clock), name, token)
    requires Clocked(run, clock) && clock <= now && forall i :: 0 <= i < |run| ==> run[i].now <= now
    requires forall i :: 0 <= i < |run| ==> !Retakes(run[i], name, token)
    ensures var db := After(w, run, cfg).db;
            && Step(db, RenewFence(name, token, ttlMs), now).1 in {OwnerLost, InvalidTtl}
            && Step(db, RenewFence(name, token, ttlMs), now).0 == Live(db, now)
            && Step(db, ReleaseFence(name, token), now) == (Live(db, now), NotReleased)
    decreases |run|
  {
    if run == [] {
      assert !HoldsFence(Live(w.db, now), name, token);
    } else {
      FenceLostNext(w, run[0], cfg, name, token, clock);
      LostFenceStaysLost(Next(w, run[0], cfg), run[1..], cfg, name, token, ttlMs, run[0].now, now);
    }
  }

  // ---- Messages stranded by a removal ------------------------------------------------------------

  /** A removal settles every waiting message of the run and leaves stranded
      exactly those that had been delivered before and wait for a retry. */
  lemma RemovalStrandsExactly(w: World, name: RunName, now: int, cfg: Config, raw: Raw)
    requires Steady(w, cfg) && Sound(cfg) && name in cfg.names
    ensures var w' := Perform(w, RemoveQueued(name), now);
            && (raw in w'.db.waiting.list <==> raw in w.db.waiting.list && raw.name != name)
            && (raw in w'.stranded <==> raw in w.stranded || (raw in w.db.waiting.list && raw.name == name && raw in w.db.retryMeta))
            && (raw in w.db.waiting.list && raw.name == name ==> w'.settled[raw] == w.settled[raw] + 1)
  {
    SteadyParts(w, cfg);
    var u := Live(w.db, now);
    AloneByName(u, name, cfg.names);
    RemoveTakes(u, name);
    WaitingOnce(u.waiting, raw);
    hide Steady, WaitingOk, RemoveScript, Alone, Sound, Named, AllGenuine, RowsBounded, FencesOk;
    assert Perform(w, RemoveQueued(name), now).db == RemoveScript(u, name).0;
  }

  lemma WaitingOnce(w: Waiting, raw: Raw)
    requires WaitingOk(w)
    ensures multiset(w.list)[raw] == if raw in w.list then 1 else 0
  {
    NoDupCount(w.list, raw);
  }

  lemma RemoveTakes(s: State, name: RunName)
    requires WaitingOk(s.waiting) && Alone(s.waiting, name)
    ensures var s' := RemoveScript(s, name).0;
            && s' == s.(waiting := s'.waiting)
            && (forall r :: r in s'.waiting.list <==> r in s.waiting.list && r.name != name)
  {
    if Field(name) in s.waiting.index {
      RemoveShape(s, name);
      RemoveIndex(s.waiting, name, RemoveScript(s, name).0.waiting);
      hide RemoveScript, OrderOk, IndexOk;
    }
  }

  lemma {:induction false} StrandedGrows(w: World, run: seq<Timed>, cfg: Config, raw: Raw)
    requires Legal(w, run, cfg) && raw in w.stranded
    ensures raw in After(w, run, cfg).stranded
    decreases |run|
  {
    if run != [] {
      StrandedGrows(Next(w, run[0], cfg), run[1..], cfg, raw);
    }
  }

  /** A message that was removed after a delivery is never admitted again: every
      later enqueue of it is refused as leased or fenced, though it is neither
      waiting nor being processed. */
  lemma StrandedForever(w: World, run: seq<Timed>, cfg: Config, raw: Raw, now: int)
    requires Steady(w, cfg) && Sound(cfg) && Legal(w, run, cfg)
    requires raw in w.stranded && Admissible(raw)
    ensures var w' := After(w, run, cfg);
            && raw !in w'.db.waiting.list && raw !in w'.db.processing
            && Step(w'.db, Enqueue(raw), now).1 in {AlreadyLeased, Fenced}
  {
    SteadyFrom(w, run, cfg);
    StrandedGrows(w, run, cfg, raw);
    var w' := After(w, run, cfg);
    LiveSteady(w', now, cfg);
    var u := w'.(db := Live(w'.db, now));
    hide Legal, Steady;
    SteadyRows(w', raw, cfg);
    SteadyRows(u, raw, cfg);
    hide Guarded, RowsNamed;
    if !IsFenced(u.db, raw.name) { NotWaitingReported(u.db, raw); }
  }

  // ---- The hazard settles one admission twice ------------------------------------------------------

  /** The dead-lettering that keeps the processing row: the row stays as it was,
      up to its stamps. */
  lemma BuriedRowStays(s: State, raw: Raw, row: Lease, visibility: int, now: int)
    requires Coherent(s) && raw in s.processingMeta
    requires DeadLetterExpiredScript(s, raw, row, false, row.attempt, row.owner, visibility, now).1.DeadLettered?
    ensures var db := DeadLetterExpiredScript(s, raw, row, false, row.attempt, row.owner, visibility, now).0;
            && raw in db.processingMeta && SameLease(db.processingMeta[raw], s.processingMeta[raw])
            && db.fences == s.fences && raw.valid && raw in s.processing && !IsFenced(s, raw.name)
  {
    ReclaimGuardKeeps(s, raw, row.attempt, row.owner, visibility, now);
    assert raw in s.processing;
    hide WaitingOk, NoDup, ReclaimGuard;
  }

  lemma HazardLeaves(w: World, t: Timed, cfg: Config)
    requires Invariant(w, cfg) && Permitted(w, t.event, cfg) && Hazard(w, t, cfg)
    ensures var r := w.reclaimers[t.event.who];
            var w' := Next(w, t, cfg);
            && r.raw in w.db.processing && r.raw.valid
            && r.raw in w'.db.processingMeta && SameLease(w'.db.processingMeta[r.raw], w.db.processingMeta[r.raw])
            && w'.db.fences == Live(w.db, t.now).fences && !IsFenced(w'.db, r.raw.name)
            && w'.settled == w.settled + multiset{r.raw} && w'.admitted == w.admitted
  {
    hide Coherent, Books, Hazard, Verdict, IsFenced, SameLease, Next, Perform, Step, Live, DeadLetterExpiredScript;
    HazardShape(w, t, cfg);
    var r := w.reclaimers[t.event.who];
    var script := DeadLetterExpired(r.raw, r.row, false, r.row.attempt, r.row.owner, cfg.visibility);
    var live := Live(w.db, t.now);
    ReclaimNext(w, t, cfg);
    HazardBuries(w, t, cfg);
    BurialSettles(w, script, t.now);
    BurialStep(w.db, script, t.now);
    LiveInvariant(w, t.now, cfg);
    hide Permitted;
    BuriedRowStays(live, r.raw, r.row, cfg.visibility, t.now);
    FenceSame(live, Step(w.db, script, t.now).0, r.raw.name);
  }

  lemma HazardShape(w: World, t: Timed, cfg: Config)
    requires Permitted(w, t.event, cfg) && Hazard(w, t, cfg)
    ensures t.event.Reclaim?
    ensures var r := w.reclaimers[t.event.who];
            && r.fromRetry && r.row.attempts >= cfg.maxAttempts && r.raw in w.db.processingMeta
            && Verdict(r, cfg) == DeadLetterExpired(r.raw, r.row, false, r.row.attempt, r.row.owner, cfg.visibility)
  {
    hide Live, IsFenced, Owns;
  }

  lemma ReclaimNext(w: World, t: Timed, cfg: Config)
    requires Permitted(w, t.event, cfg) && t.event.Reclaim?
    ensures var w' := Perform(w, Verdict(w.reclaimers[t.event.who], cfg), t.now);
            Next(w, t, cfg).db == w'.db && Next(w, t, cfg).settled == w'.settled && Next(w, t, cfg).admitted == w'.admitted
  {
    hide Perform, Verdict;
  }

  lemma BurialStep(db: State, script: Script, now: int)
    requires script.DeadLetterExpired?
    ensures Step(db, script, now) ==
              DeadLetterExpiredScript(Live(db, now), script.raw, script.row, script.dropMeta, script.attempt, script.owner, script.visibility, now)
    ensures Live(db, now).processingMeta == db.processingMeta && Live(db, now).processing == db.processing
  {
    hide DeadLetterExpiredScript;
  }

  lemma BurialSettles(w: World, script: Script, now: int)
    requires script.DeadLetterExpired? && Step(w.db, script, now).1.DeadLettered?
    ensures var w' := Perform(w, script, now);
            && w'.db == Step(w.db, script, now).0
            && w'.admitted == w.admitted && w'.settled == w.settled + multiset{script.raw}
  {
    hide Step;
  }

  lemma FenceSame(s: State, s': State, name: RunName)
    requires s'.fences == s.fences
    ensures IsFenced(s', name) <==> IsFenced(s, name)
  {
  }

  lemma OwnerAcks(db: State, raw: Raw, row: Lease, now: int)
    requires raw.valid && raw in db.processingMeta && SameLease(db.processingMeta[raw], row) && row.raw == raw
    requires !IsFenced(Live(db, now), raw.name)
    ensures Step(db, Ack(raw, Handle(raw, row.attempt, row.owner)), now).1 == Acked
  {
  }

  lemma RowNamesMessage(w: World, raw: Raw, cfg: Config)
    requires Invariant(w, cfg) && raw in w.db.processingMeta
    ensures w.db.processingMeta[raw].raw == raw
  {
  }

  /** After a hazard the worker's own handle still passes the ownership check:
      its ack succeeds, and the message has been settled more often than it was
      admitted. */
  lemma HazardSettlesTwice(w: World, t: Timed, cfg: Config)
    requires Invariant(w, cfg) && Permitted(w, t.event, cfg) && Hazard(w, t, cfg)
    ensures var raw := w.reclaimers[t.event.who].raw;
            var row := w.db.processingMeta[raw];
            var ack := Ack(raw, Handle(raw, row.attempt, row.owner));
            var w1 := Next(w, t, cfg);
            var w2 := Perform(w1, ack, t.now);
            && Step(w1.db, ack, t.now).1 == Acked
            && w2.admitted == w.admitted
            && w2.settled[raw] == w.settled[raw] + 2 > w2.admitted[raw]
  {
    var raw := w.reclaimers[t.event.who].raw;
    assert raw in w.db.processingMeta;
    var row := w.db.processingMeta[raw];
    var w1 := Next(w, t, cfg);
    hide Invariant, Next, Hazard, Step, SameLease, Permitted;
    HazardLeaves(w, t, cfg);
    LiveOnce(w, raw, cfg);
    RowNamesMessage(w, raw, cfg);
    StillOpen(w.db, w1.db, raw.name, t.now);
    OwnerAcks(w1.db, raw, row, t.now);
    AckSettles(w1, raw, Handle(raw, row.attempt, row.owner), t.now);
    hide Perform, Live, IsFenced;
  }

  /** A run open under the live fences is open when they are looked at again. */
  lemma StillOpen(db: State, db': State, name: RunName, now: int)
    requires db'.fences == Live(db, now).fences && !IsFenced(db', name)
    ensures !IsFenced(Live(db', now), name)
  {
  }

  lemma AckSettles(w: World, raw: Raw, handle: Handle, now: int)
    requires Step(w.db, Ack(raw, handle), now).1 == Acked
    ensures var w' := Perform(w, Ack(raw, handle), now);
            w'.admitted == w.admitted && w'.settled == w.settled + multiset{raw}
  {
    hide Step;
  }
}

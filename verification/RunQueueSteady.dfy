/** What holds in every world of every legal run, the hazard included: the waiting
    structures agree, a fenced run owns nothing, the caps are respected and the
    attempt counts are right. Only the exactness of the processing rows, and with it
    conservation, depends on the run being calm. */
module RunQueueSteady {
  import opened Sequences
  import opened RunQueueScripts
  import opened RunQueueCoherence
  import opened RunQueueWorld
  import opened RunQueueInvariant

  /** The waiting structures agree, entries in processing are distinct, sound and
      have rows, no message with a processing row waits, and fences exclude. */
  ghost predicate Guarded(s: State) {
    WaitingOk(s.waiting) && NoDup(s.processing) && Held(s) && Apart(s) && FencesOk(s)
  }

  ghost predicate Held(s: State) {
    forall r :: r in s.processing ==> r.valid && Admissible(r) && r in s.processingMeta
  }

  ghost predicate Apart(s: State) {
    forall id :: id in s.processingMeta ==> id !in s.waiting.list
  }

  ghost predicate RowsNamed(s: State) {
    && (forall id :: id in s.processingMeta ==> s.processingMeta[id].raw == id)
    && (forall id :: id in s.retryMeta ==> s.retryMeta[id].raw == id)
  }

  /** No row passes the limit, and a row at the limit has a processing row beside it. */
  ghost predicate RowsBounded(s: State, cfg: Config) {
    && (forall id :: id in s.processingMeta ==> s.processingMeta[id].attempts <= cfg.maxAttempts)
    && (forall id :: id in s.retryMeta ==>
          s.retryMeta[id].attempts <= cfg.maxAttempts && (id !in s.processingMeta ==> s.retryMeta[id].attempts < cfg.maxAttempts))
  }

  /** A stranded message has nothing but its retry row. */
  ghost predicate StrandedKept(s: State, stranded: set<Raw>) {
    forall id :: id in stranded ==> id in s.retryMeta && id !in s.processingMeta && id !in s.waiting.list
  }

  ghost predicate Ledger(w: World, cfg: Config) {
    RowsNamed(w.db) && AllGenuine(w) && RowsBounded(w.db, cfg) && Counted(w.db, w.deliveries) && StrandedKept(w.db, w.stranded)
  }

  ghost predicate Steady(w: World, cfg: Config) {
    Guarded(w.db) && Named(w.db, cfg.names) && Ledger(w, cfg)
  }

  lemma InvariantSteady(w: World, cfg: Config)
    requires Invariant(w, cfg)
    ensures Steady(w, cfg)
  {
    hide WaitingOk, NoDup, FencesOk, Genuine, Named, Conserved, WithinCaps, NextAttempt;
  }

  // ---- Both lists stay, rows at most restamped or copied -------------------------------------------

  ghost predicate RowsFrom(s: State, s': State) {
    && SameLeases(s.processingMeta, s'.processingMeta)
    && (forall id :: id in s.retryMeta ==> id in s'.retryMeta)
    && (forall id :: id in s'.retryMeta ==>
          || (id in s.retryMeta && SameLease(s'.retryMeta[id], s.retryMeta[id]))
          || (id in s.processingMeta && SameLease(s'.retryMeta[id], s.processingMeta[id])))
  }

  ghost predicate SameLists(s: State, s': State) {
    s'.waiting == s.waiting && s'.processing == s.processing
  }

  /** The parts of the history the ledger reads are unchanged. */
  ghost predicate SameRecords(w: World, w': World) {
    w'.issued == w.issued && w'.deliveries == w.deliveries && w'.stranded == w.stranded && w'.reclaimers == w.reclaimers
  }

  lemma KeysSame(s: State, s': State)
    requires RowsFrom(s, s')
    ensures forall id :: id in s'.processingMeta <==> id in s.processingMeta
  {
    assert forall id :: id in s'.processingMeta.Keys <==> id in s.processingMeta.Keys;
  }

  lemma TouchGuarded(s: State, s': State)
    requires Guarded(s) && SameLists(s, s') && RowsFrom(s, s') && FencesOk(s')
    ensures Guarded(s')
  {
    KeysSame(s, s');
    hide WaitingOk, NoDup, RowsFrom;
  }

  lemma TouchRows(s: State, s': State, cfg: Config)
    requires RowsNamed(s) && RowsBounded(s, cfg) && RowsFrom(s, s')
    ensures RowsNamed(s') && RowsBounded(s', cfg)
  {
    KeysSame(s, s');
  }

  lemma TouchGenuine(w: World, w': World)
    requires AllGenuine(w) && RowsFrom(w.db, w'.db) && w'.issued == w.issued && w'.reclaimers == w.reclaimers
    ensures AllGenuine(w')
  {
    KeysSame(w.db, w'.db);
  }

  lemma TouchCounted(s: State, s': State, count: map<Raw, nat>)
    requires Counted(s, count) && Guarded(s) && SameLists(s, s') && RowsFrom(s, s')
    ensures Counted(s', count)
  {
    KeysSame(s, s');
    hide WaitingOk, NoDup, FencesOk;
  }

  lemma TouchSteady(w: World, w': World, cfg: Config)
    requires Steady(w, cfg) && SameLists(w.db, w'.db) && RowsFrom(w.db, w'.db) && FencesOk(w'.db) && SameRecords(w, w')
    ensures Steady(w', cfg)
  {
    TouchGuarded(w.db, w'.db);
    TouchRows(w.db, w'.db, cfg);
    TouchGenuine(w, w');
    TouchCounted(w.db, w'.db, w.deliveries);
    KeysSame(w.db, w'.db);
    assert StrandedKept(w'.db, w'.stranded) by { hide Guarded, Counted, AllGenuine, RowsBounded, SameLeases, SameLease; }
    assert Named(w'.db, cfg.names);
    hide Guarded, RowsNamed, AllGenuine, RowsBounded, Counted, StrandedKept, Named, RowsFrom;
  }

  lemma RowsStay(s: State, s': State)
    requires s'.processingMeta == s.processingMeta && s'.retryMeta == s.retryMeta
    ensures RowsFrom(s, s')
  {
  }

  lemma RestampedRows(s: State, s': State)
    requires Restamped(s, s')
    ensures RowsFrom(s, s') && SameLists(s, s')
  {
    assert forall id :: id in s'.retryMeta.Keys <==> id in s.retryMeta.Keys;
  }

  lemma LiveSteady(w: World, now: int, cfg: Config)
    requires Steady(w, cfg)
    ensures Steady(w.(db := Live(w.db, now)), cfg)
  {
    var u := w.(db := Live(w.db, now));
    RowsStay(w.db, u.db);
    assert FencesOk(u.db);
    hide Steady, RowsFrom;
    TouchSteady(w, u, cfg);
  }

  // ---- A message moves -------------------------------------------------------------------------------

  lemma WaitingFacts(s: State, raw: Raw)
    requires Guarded(s) && raw in s.waiting.list
    ensures raw !in s.processingMeta && raw !in s.processing && Admissible(raw)
  {
    hide OrderOk, IndexOk, FencesOk, NoDup;
  }

  lemma ProcessingFacts(s: State, raw: Raw)
    requires Guarded(s)
    ensures raw in s.processing ==> raw.valid && Admissible(raw) && raw in s.processingMeta
    ensures raw in s.processingMeta ==> raw !in s.waiting.list
  {
    hide WaitingOk, FencesOk, NoDup;
  }

  lemma NotStranded(s: State, stranded: set<Raw>, raw: Raw)
    requires StrandedKept(s, stranded) && (raw in s.waiting.list || raw in s.processingMeta || raw !in s.retryMeta)
    ensures raw !in stranded
  {
  }

  lemma GenuineRows(w: World, w': World)
    requires AllGenuine(w) && w'.reclaimers == w.reclaimers
    requires forall a :: a in w.issued ==> a in w'.issued && w'.issued[a] == w.issued[a]
    requires forall id :: id in w'.db.processingMeta ==>
               (id in w.db.processingMeta && w'.db.processingMeta[id] == w.db.processingMeta[id]) || Genuine(w'.db.processingMeta[id], w'.issued)
    requires forall id :: id in w'.db.retryMeta ==>
               (id in w.db.retryMeta && w'.db.retryMeta[id] == w.db.retryMeta[id]) || Genuine(w'.db.retryMeta[id], w'.issued)
    ensures AllGenuine(w')
  {
    hide SameLease;
  }

  // Admission.

  lemma AdmitGuarded(s: State, raw: Raw, s': State)
    requires Guarded(s) && Admissible(raw) && !IsFenced(s, raw.name) && raw !in s.waiting.list && raw !in s.processingMeta
    requires s' == s.(waiting := Push(s.waiting, raw))
    ensures Guarded(s') && s'.waiting.list == s.waiting.list + [raw]
  {
    hide WaitingOk, NoDup, Push, Held;
    PushKeeps(s.waiting, raw);
    PushShape(s.waiting, raw);
    assert forall r :: r in s'.waiting.list <==> r in s.waiting.list || r == raw;
    HeldSame(s, s');
  }

  lemma HeldSame(s: State, s': State)
    requires Held(s) && s'.processing == s.processing && s'.processingMeta == s.processingMeta
    ensures Held(s')
  {
  }

  lemma AdmitSteady(w: World, raw: Raw, w': World, cfg: Config)
    requires Steady(w, cfg) && raw.name in cfg.names && Admissible(raw) && !IsFenced(w.db, raw.name)
    requires raw !in w.db.waiting.list && raw !in w.db.processingMeta && raw !in w.db.retryMeta
    requires w'.db == w.db.(waiting := Push(w.db.waiting, raw))
    requires w'.issued == w.issued && w'.reclaimers == w.reclaimers && w'.stranded == w.stranded
    requires w'.deliveries == w.deliveries[raw := 0]
    ensures Steady(w', cfg)
  {
    hide Guarded, Counted, AllGenuine, RowsNamed, RowsBounded, Push, StrandedKept;
    AdmitGuarded(w.db, raw, w'.db);
    ProcessingFacts(w.db, raw);
    AdmitCounted(w.db, w.deliveries, raw, w'.db);
    GenuineRows(w, w');
    NotStranded(w.db, w.stranded, raw);
    RowsSame(w.db, w'.db, cfg);
    AdmitStranded(w.db, raw, w'.db, w.stranded);
    assert Named(w'.db, cfg.names);
  }

  lemma RowsSame(s: State, s': State, cfg: Config)
    requires RowsNamed(s) && RowsBounded(s, cfg) && s'.processingMeta == s.processingMeta && s'.retryMeta == s.retryMeta
    ensures RowsNamed(s') && RowsBounded(s', cfg)
  {
  }

  lemma AdmitStranded(s: State, raw: Raw, s': State, stranded: set<Raw>)
    requires StrandedKept(s, stranded) && raw !in stranded && s'.waiting.list == s.waiting.list + [raw]
    requires s'.processingMeta == s.processingMeta && s'.retryMeta == s.retryMeta
    ensures StrandedKept(s', stranded)
  {
  }

  // Removal and dead-lettering out of the queue.

  lemma FewerGuarded(s: State, s': State)
    requires Guarded(s) && WaitingOk(s'.waiting) && s'.processing == s.processing && s'.processingMeta == s.processingMeta && s'.fences == s.fences
    requires forall r :: r in s'.waiting.list ==> r in s.waiting.list
    ensures Guarded(s')
  {
    hide WaitingOk, NoDup, Held;
    HeldSame(s, s');
  }

  /** Messages leave the queue; their retry rows may stay. */
  lemma RemoveSteady(w: World, w': World, cfg: Config)
    requires Steady(w, cfg) && WaitingOk(w'.db.waiting) && w'.db == w.db.(waiting := w'.db.waiting)
    requires forall r :: r in w'.db.waiting.list ==> r in w.db.waiting.list
    requires w'.issued == w.issued && w'.reclaimers == w.reclaimers && w'.deliveries == w.deliveries
    requires w'.stranded == w.stranded + (set r | r in w.db.waiting.list && r !in w'.db.waiting.list && r in w'.db.retryMeta)
    ensures Steady(w', cfg)
  {
    hide WaitingOk, Guarded, Counted, AllGenuine, RowsNamed, RowsBounded, StrandedKept;
    FewerGuarded(w.db, w'.db);
    RemoveCounted(w.db, w'.db, w.deliveries);
    GenuineRows(w, w');
    RowsSame(w.db, w'.db, cfg);
    RemoveStranded(w, w');
    assert Named(w'.db, cfg.names);
  }

  lemma RemoveStranded(w: World, w': World)
    requires StrandedKept(w.db, w.stranded) && Guarded(w.db) && w'.db == w.db.(waiting := w'.db.waiting)
    requires forall r :: r in w'.db.waiting.list ==> r in w.db.waiting.list
    requires w'.stranded == w.stranded + (set r | r in w.db.waiting.list && r !in w'.db.waiting.list && r in w'.db.retryMeta)
    ensures StrandedKept(w'.db, w'.stranded)
  {
    hide WaitingOk, NoDup, FencesOk, Held;
  }

  lemma DiscardSteady(w: World, raw: Raw, w': World, cfg: Config)
    requires Steady(w, cfg) && WaitingOk(w'.db.waiting) && raw in w.db.waiting.list
    requires forall r :: r in w'.db.waiting.list <==> r in w.db.waiting.list && r != raw
    requires w'.db == w.db.(waiting := w'.db.waiting, retryMeta := w.db.retryMeta - {raw}, deadLetter := w'.db.deadLetter)
    requires SameRecords(w, w')
    ensures Steady(w', cfg)
  {
    hide WaitingOk, Guarded, Counted, AllGenuine;
    WaitingFacts(w.db, raw);
    FewerGuarded(w.db, w'.db);
    DiscardCounted(w.db, w.deliveries, raw, w'.db);
    GenuineRows(w, w');
    NotStranded(w.db, w.stranded, raw);
  }

  // A lease.

  lemma LeaseGuarded(s: State, raw: Raw, row: Lease, s': State)
    requires Guarded(s) && raw in s.waiting.list && raw.valid && !IsFenced(s, raw.name)
    requires WaitingOk(s'.waiting) && (forall r :: r in s'.waiting.list <==> r in s.waiting.list && r != raw)
    requires s'.processing == [raw] + s.processing && s'.processingMeta == s.processingMeta[raw := row] && s'.fences == s.fences
    ensures Guarded(s')
  {
    hide WaitingOk, FencesOk, Held, Apart, NoDup;
    WaitingFacts(s, raw);
    LeaseFences(s, raw, s');
    LeaseHeld(s, raw, row, s');
    ConsNoDup(s.processing, raw);
  }

  lemma ConsNoDup<T>(s: seq<T>, x: T)
    requires NoDup(s) && x !in s
    ensures NoDup([x] + s)
  {
  }

  lemma LeaseHeld(s: State, raw: Raw, row: Lease, s': State)
    requires Held(s) && Apart(s) && raw.valid && Admissible(raw)
    requires forall r :: r in s'.waiting.list <==> r in s.waiting.list && r != raw
    requires s'.processing == [raw] + s.processing && s'.processingMeta == s.processingMeta[raw := row]
    ensures Held(s') && Apart(s')
  {
    assert forall r :: r in s'.processing <==> r in s.processing || r == raw;
  }

  lemma LeaseRows(s: State, raw: Raw, row: Lease, s': State, cfg: Config)
    requires RowsNamed(s) && RowsBounded(s, cfg) && raw !in s.processingMeta && cfg.maxAttempts >= 1
    requires row.raw == raw && row.attempts == NextAttempt(s, raw)
    requires s'.processingMeta == s.processingMeta[raw := row] && s'.retryMeta == s.retryMeta[raw := row]
    ensures RowsNamed(s') && RowsBounded(s', cfg) && 1 <= row.attempts <= cfg.maxAttempts
  {
    assert 1 <= row.attempts <= cfg.maxAttempts;
    hide NextAttempt;
  }

  lemma LeaseStranded(s: State, raw: Raw, row: Lease, s': State, stranded: set<Raw>)
    requires StrandedKept(s, stranded) && raw !in stranded
    requires forall r :: r in s'.waiting.list ==> r in s.waiting.list
    requires s'.processingMeta == s.processingMeta[raw := row] && s'.retryMeta == s.retryMeta[raw := row]
    ensures StrandedKept(s', stranded)
  {
  }

  lemma LeaseSteadyCounted(s: State, count: map<Raw, nat>, raw: Raw, row: Lease, s': State)
    requires Counted(s, count) && raw in s.waiting.list && raw !in s.processing && row.attempts == NextAttempt(s, raw)
    requires forall r :: r in s'.waiting.list <==> r in s.waiting.list && r != raw
    requires s'.processing == [raw] + s.processing
    requires s'.processingMeta == s.processingMeta[raw := row] && s'.retryMeta == s.retryMeta[raw := row]
    ensures Counted(s', count[raw := count[raw] + 1])
  {
    var count' := count[raw := count[raw] + 1];
    forall r | r in s'.processing ensures r in s'.processingMeta && r in count' && s'.processingMeta[r].attempts == count'[r] {
      if r != raw {
        assert r in s.processing;
        CountedAt(s, count, s', count', r);
      }
    }
    forall r | r in s'.waiting.list ensures r in count' && NextAttempt(s', r) == count'[r] + 1 {
      CountedAt(s, count, s', count', r);
    }
  }

  lemma LeaseSteady(w: World, raw: Raw, row: Lease, w': World, cfg: Config)
    requires Steady(w, cfg) && raw in w.db.waiting.list && raw.valid && !IsFenced(w.db, raw.name) && cfg.maxAttempts >= 1
    requires row.raw == raw && row.attempts == NextAttempt(w.db, raw) && row.attempt !in w.issued
    requires WaitingOk(w'.db.waiting) && (forall r :: r in w'.db.waiting.list <==> r in w.db.waiting.list && r != raw)
    requires w'.db.processing == [raw] + w.db.processing && w'.db.fences == w.db.fences
    requires w'.db.processingMeta == w.db.processingMeta[raw := row] && w'.db.retryMeta == w.db.retryMeta[raw := row]
    requires w'.issued == w.issued[row.attempt := row] && w'.reclaimers == w.reclaimers && w'.stranded == w.stranded
    requires w'.deliveries == w.deliveries[raw := (if raw in w.deliveries then w.deliveries[raw] else 0) + 1]
    ensures Steady(w', cfg)
  {
    hide Guarded, RowsNamed, AllGenuine, RowsBounded, StrandedKept, WaitingOk, NextAttempt, Named;
    WaitingFacts(w.db, raw);
    assert raw in w.deliveries;
    hide Counted;
    LeaseGuarded(w.db, raw, row, w'.db);
    LeaseRows(w.db, raw, row, w'.db, cfg);
    GenuineRows(w, w');
    NotStranded(w.db, w.stranded, raw);
    LeaseStranded(w.db, raw, row, w'.db, w.stranded);
    LeaseSteadyCounted(w.db, w.deliveries, raw, row, w'.db);
    FewerNamed(w.db, w'.db, cfg.names);
  }

  // A message leaves processing.

  lemma LeaveGuarded(s: State, raw: Raw, s': State)
    requires Guarded(s) && s'.waiting == s.waiting && s'.fences == s.fences
    requires s'.processing == RemoveFirst(s.processing, raw)
    requires s'.processingMeta == s.processingMeta || s'.processingMeta == s.processingMeta - {raw}
    ensures Guarded(s')
    ensures forall r :: r in s'.processing <==> r in s.processing && r != raw
  {
    hide WaitingOk, NoDup, RemoveFirst;
    RemoveFirstNoDup(s.processing, raw);
  }

  lemma LeaveCounted(s: State, raw: Raw, s': State, count: map<Raw, nat>)
    requires Counted(s, count) && raw !in s.waiting.list && s'.waiting == s.waiting
    requires forall r :: r in s'.processing <==> r in s.processing && r != raw
    requires s'.processingMeta == s.processingMeta || s'.processingMeta == s.processingMeta - {raw}
    requires s'.retryMeta == s.retryMeta - {raw}
    ensures Counted(s', count)
  {
  }

  lemma LeaveRows(s: State, raw: Raw, s': State, stranded: set<Raw>, cfg: Config)
    requires RowsNamed(s) && RowsBounded(s, cfg) && StrandedKept(s, stranded) && raw !in stranded && s'.waiting == s.waiting
    requires s'.processingMeta == s.processingMeta || s'.processingMeta == s.processingMeta - {raw}
    requires s'.retryMeta == s.retryMeta - {raw}
    ensures RowsNamed(s') && RowsBounded(s', cfg) && StrandedKept(s', stranded)
  {
  }

  /** A message with a processing row leaves processing; that row may stay. */
  lemma LeaveSteady(w: World, raw: Raw, w': World, cfg: Config)
    requires Steady(w, cfg) && raw in w.db.processingMeta
    requires w'.db.waiting == w.db.waiting && w'.db.fences == w.db.fences && w'.db.processing == RemoveFirst(w.db.processing, raw)
    requires w'.db.processingMeta == w.db.processingMeta || w'.db.processingMeta == w.db.processingMeta - {raw}
    requires w'.db.retryMeta == w.db.retryMeta - {raw}
    requires SameRecords(w, w')
    ensures Steady(w', cfg)
  {
    hide Guarded, AllGenuine, Counted, RemoveFirst, Named, RowsNamed, RowsBounded, StrandedKept;
    ProcessingFacts(w.db, raw);
    NotStranded(w.db, w.stranded, raw);
    LeaveRows(w.db, raw, w'.db, w.stranded, cfg);
    LeaveGuarded(w.db, raw, w'.db);
    LeaveCounted(w.db, raw, w'.db, w.deliveries);
    GenuineRows(w, w');
    FewerNamed(w.db, w'.db, cfg.names);
  }

  lemma RequeueGuarded(s: State, raw: Raw, s': State)
    requires Guarded(s) && raw in s.processing
    requires s'.waiting == Push(s.waiting, raw) && s'.fences == s.fences
    requires s'.processing == RemoveFirst(s.processing, raw) && s'.processingMeta == s.processingMeta - {raw}
    ensures Guarded(s') && s'.waiting.list == s.waiting.list + [raw]
    ensures forall r :: r in s'.processing <==> r in s.processing && r != raw
  {
    hide WaitingOk, NoDup, Push, RemoveFirst;
    RemoveFirstNoDup(s.processing, raw);
    ProcessingFacts(s, raw);
    PushKeeps(s.waiting, raw);
    PushShape(s.waiting, raw);
    assert forall r :: r in s'.waiting.list <==> r in s.waiting.list || r == raw;
  }

  lemma RequeueSteadyCounted(s: State, count: map<Raw, nat>, raw: Raw, row: Lease, s': State)
    requires Counted(s, count) && raw in s.processing && row.attempts == s.processingMeta[raw].attempts
    requires s'.waiting.list == s.waiting.list + [raw]
    requires forall r :: r in s'.processing <==> r in s.processing && r != raw
    requires s'.processingMeta == s.processingMeta - {raw} && s'.retryMeta == s.retryMeta[raw := row]
    ensures Counted(s', count)
  {
    forall r | r in s'.waiting.list ensures r in count && NextAttempt(s', r) == count[r] + 1 {
      if r != raw {
        assert r in s.waiting.list;
        CountedAt(s, count, s', count, r);
      }
    }
  }

  lemma RequeueSteady(w: World, raw: Raw, row: Lease, w': World, cfg: Config)
    requires Steady(w, cfg) && raw in w.db.processing && raw in w.db.processingMeta
    requires row.raw == raw && Genuine(row, w.issued) && row.attempts < cfg.maxAttempts && row.attempts == w.db.processingMeta[raw].attempts
    requires w'.db.waiting == Push(w.db.waiting, raw) && w'.db.fences == w.db.fences
    requires w'.db.processing == RemoveFirst(w.db.processing, raw)
    requires w'.db.processingMeta == w.db.processingMeta - {raw} && w'.db.retryMeta == w.db.retryMeta[raw := row]
    requires SameRecords(w, w')
    ensures Steady(w', cfg)
  {
    hide Guarded, AllGenuine, Counted, RemoveFirst, Push, Named, Genuine, StrandedKept;
    NotStranded(w.db, w.stranded, raw);
    RequeueGuarded(w.db, raw, w'.db);
    RequeueSteadyCounted(w.db, w.deliveries, raw, row, w'.db);
    GenuineRows(w, w');
    RequeueStranded(w.db, raw, row, w'.db, w.stranded);
    assert forall r :: r in w'.db.waiting.list <==> r in w.db.waiting.list || r == raw;
    FewerNamed(w.db, w'.db, cfg.names);
  }

  lemma RequeueStranded(s: State, raw: Raw, row: Lease, s': State, stranded: set<Raw>)
    requires StrandedKept(s, stranded) && raw !in stranded && s'.waiting.list == s.waiting.list + [raw]
    requires s'.processingMeta == s.processingMeta - {raw} && s'.retryMeta == s.retryMeta[raw := row]
    ensures StrandedKept(s', stranded)
  {
  }

  // ---- One lemma per script ----------------------------------------------------------------------------

  lemma NotKnown(w: Waiting, raw: Raw)
    requires WaitingOk(w) && !KnownWaiting(w, raw)
    ensures raw !in w.list
  {
    hide NoDup, Ascending;
  }

  lemma EnqueueSteady(w: World, raw: Raw, now: int, cfg: Config)
    requires Steady(w, cfg) && raw.name in cfg.names
    ensures Steady(Perform(w, Enqueue(raw), now), cfg)
  {
    var u := w.(db := Live(w.db, now));
    LiveSteady(w, now, cfg);
    hide WaitingOk, Ledger, KnownWaiting, Push, Live;
    if EnqueueScript(u.db, raw).1.Enqueued? {
      NotKnown(u.db.waiting, raw);
      hide Steady, Admissible, IsFenced;
      AdmitSteady(u, raw, Perform(w, Enqueue(raw), now), cfg);
    } else {
      hide Steady;
      assert Perform(w, Enqueue(raw), now) == u;
    }
  }

  lemma RemoveWaiting(s: State, name: RunName)
    requires WaitingOk(s.waiting) && Alone(s.waiting, name)
    ensures var s' := RemoveScript(s, name).0;
            && WaitingOk(s'.waiting) && s' == s.(waiting := s'.waiting)
            && (forall r :: r in s'.waiting.list ==> r in s.waiting.list)
  {
    var s' := RemoveScript(s, name).0;
    if Field(name) in s.waiting.index {
      RemoveShape(s, name);
      RemoveOrder(s.waiting, name, s'.waiting);
      RemoveIndex(s.waiting, name, s'.waiting);
      hide RemoveScript, OrderOk, IndexOk;
    }
  }

  lemma AloneByName(s: State, name: RunName, names: set<RunName>)
    requires Named(s, names) && name in names && Unambiguous(names)
    ensures Alone(s.waiting, name)
  {
  }

  lemma RemoveCallSteady(w: World, name: RunName, now: int, cfg: Config)
    requires Steady(w, cfg) && name in cfg.names && Unambiguous(cfg.names)
    ensures Steady(Perform(w, RemoveQueued(name), now), cfg)
  {
    var u := w.(db := Live(w.db, now));
    LiveSteady(w, now, cfg);
    AloneByName(u.db, name, cfg.names);
    hide WaitingOk, Ledger, Alone;
    RemoveWaiting(u.db, name);
    hide Steady, RemoveScript;
    RemoveSteady(u, Perform(w, RemoveQueued(name), now), cfg);
  }

  lemma LeaseEffect(s: State, raw: Raw, position: int, worker: string, attempt: string, owner: string, limits: Limits, now: int)
    requires WaitingOk(s.waiting)
    ensures var (s', reply) := LeaseScript(s, raw, position, worker, attempt, owner, limits, now);
            if reply.Leased? then
              var row := Lease(raw, NextAttempt(s, raw), now, now, worker, attempt, owner);
              && raw in s.waiting.list && !IsFenced(s, raw.name)
              && WaitingOk(s'.waiting) && (forall r :: r in s'.waiting.list <==> r in s.waiting.list && r != raw)
              && s'.processing == [raw] + s.processing && s'.fences == s.fences
              && s'.processingMeta == s.processingMeta[raw := row] && s'.retryMeta == s.retryMeta[raw := row]
              && CapacityOpen(s.processing, limits) && QuotaOpen(s.processing, raw, limits)
            else s' == s
  {
    hide WaitingOk, QuotaOpen, CapacityOpen, IsFenced, Unindex, NextAttempt;
    if LeaseScript(s, raw, position, worker, attempt, owner, limits, now).1.Leased? {
      DropKeeps(s.waiting, raw, position, Unindex(s.waiting.index, Field(raw.name), raw));
      hide DropAt;
    }
  }

  /** What a lease adds to the history. */
  lemma LeaseHistory(w: World, script: Script, now: int)
    requires script.LeaseAt?
    ensures var live := Live(w.db, now);
            var (db, reply) := LeaseScript(live, script.raw, script.position, script.worker, script.attempt, script.owner, script.limits, now);
            var w' := Perform(w, script, now);
            && w'.db == db && w'.reclaimers == w.reclaimers && w'.stranded == w.stranded
            && (if reply.Leased? && script.raw in db.processingMeta then
                  && w'.issued == w.issued[script.attempt := db.processingMeta[script.raw]]
                  && w'.deliveries == w.deliveries[script.raw := (if script.raw in w.deliveries then w.deliveries[script.raw] else 0) + 1]
                else !reply.Leased? ==> w'.issued == w.issued && w'.deliveries == w.deliveries)
  {
    hide LeaseScript, Live;
  }

  lemma LeaseCallSteady(w: World, script: Script, now: int, cfg: Config)
    requires Steady(w, cfg) && script.LeaseAt? && cfg.maxAttempts >= 1 && script.raw.valid && script.attempt !in w.issued
    ensures Steady(Perform(w, script, now), cfg)
  {
    hide Steady, WaitingOk, LeaseScript, NextAttempt, CapacityOpen, QuotaOpen, IsFenced, Perform, Live;
    var u := w.(db := Live(w.db, now));
    LiveSteady(w, now, cfg);
    LeaseHistory(w, script, now);
    SteadyParts(u, cfg);
    LeaseEffect(u.db, script.raw, script.position, script.worker, script.attempt, script.owner, script.limits, now);
    var (db, reply) := LeaseScript(u.db, script.raw, script.position, script.worker, script.attempt, script.owner, script.limits, now);
    var w' := Perform(w, script, now);
    if reply.Leased? {
      LeaseSteady(u, script.raw, db.processingMeta[script.raw], w', cfg);
    } else {
      StayedSteady(u, w', cfg);
    }
  }

  lemma SteadyParts(w: World, cfg: Config)
    requires Steady(w, cfg)
    ensures WaitingOk(w.db.waiting) && Named(w.db, cfg.names) && AllGenuine(w) && RowsBounded(w.db, cfg) && FencesOk(w.db)
  {
    hide WaitingOk, Named, AllGenuine, RowsBounded, FencesOk;
  }

  lemma StayedSteady(w: World, w': World, cfg: Config)
    requires Steady(w, cfg) && w'.db == w.db && SameRecords(w, w')
    ensures Steady(w', cfg)
  {
    hide Guarded, Named, RowsNamed, RowsBounded, Counted, StrandedKept, Genuine;
  }

  lemma DiscardEffect(s: State, raw: Raw, position: int, worker: string)
    requires WaitingOk(s.waiting)
    ensures var (s', reply) := DeadLetterInvalidScript(s, raw, position, worker);
            if reply.DeadLettered? then
              && raw in s.waiting.list && WaitingOk(s'.waiting)
              && (forall r :: r in s'.waiting.list <==> r in s.waiting.list && r != raw)
              && s' == s.(waiting := s'.waiting, retryMeta := s.retryMeta - {raw}, deadLetter := s'.deadLetter)
            else s' == s
  {
    if DeadLetterInvalidScript(s, raw, position, worker).1.DeadLettered? {
      var w := s.waiting;
      assert raw in w.list && raw in w.meta && w.meta[raw].raw == raw;
      hide WaitingOk, NextAttempt;
      assert UnindexByRow(w, raw) == Unindex(w.index, Field(raw.name), raw) by { HeadWaits(w, raw, position); }
      DropKeeps(w, raw, position, UnindexByRow(w, raw));
      hide DropAt, UnindexByRow, Unindex;
    }
  }

  lemma DiscardCallSteady(w: World, script: Script, now: int, cfg: Config)
    requires Steady(w, cfg) && script.DeadLetterInvalid?
    ensures Steady(Perform(w, script, now), cfg)
  {
    hide Steady, WaitingOk, DeadLetterInvalidScript, Live;
    var u := w.(db := Live(w.db, now));
    LiveSteady(w, now, cfg);
    SteadyParts(u, cfg);
    DiscardEffect(u.db, script.raw, script.position, script.worker);
    var w' := Perform(w, script, now);
    assert w'.db == DeadLetterInvalidScript(u.db, script.raw, script.position, script.worker).0 && SameRecords(u, w');
    hide Perform;
    if DeadLetterInvalidScript(u.db, script.raw, script.position, script.worker).1.DeadLettered? {
      DiscardSteady(u, script.raw, w', cfg);
    } else {
      StayedSteady(u, w', cfg);
    }
  }

  lemma QuietShape(s: State, script: Script, now: int)
    requires TouchesNoRow(script)
    ensures var db := Step(s, script, now).0;
            && SameLists(s, db) && db.processingMeta == s.processingMeta && db.retryMeta == s.retryMeta
  {
    hide Unowned, IsCurrent;
  }

  /** Fences come and go without touching the runs that own something. */
  lemma QuietFences(s: State, script: Script, now: int, names: set<RunName>)
    requires FencesOk(s) && TouchesNoRow(script) && Named(s, names)
    requires script.AcquireFence? ==> script.name in names && Unambiguous(names)
    ensures FencesOk(Step(s, script, now).0)
  {
    hide IsCurrent;
    if script.AcquireFence? {
      AcquireFences(Live(s, now), script.name, script.token, script.workerTtl, script.scanLimit, script.ttlMs, now, names);
      hide Unowned;
    }
  }

  lemma AcquireFences(s: State, name: RunName, token: string, workerTtl: int, scanLimit: int, ttlMs: int, now: int, names: set<RunName>)
    requires FencesOk(s) && Named(s, names) && name in names && Unambiguous(names)
    ensures FencesOk(AcquireScript(s, name, token, workerTtl, scanLimit, ttlMs, now).0)
  {
  }

  lemma QuietSteady(w: World, script: Script, now: int, cfg: Config)
    requires Steady(w, cfg) && TouchesNoRow(script)
    requires script.AcquireFence? ==> script.name in cfg.names && Unambiguous(cfg.names)
    ensures Steady(Perform(w, script, now), cfg)
  {
    hide Step, Ledger, OrderOk, NoDup, Held, Apart, RowsFrom;
    QuietShape(w.db, script, now);
    QuietFences(w.db, script, now, cfg.names);
    RowsStay(w.db, Step(w.db, script, now).0);
    hide Steady, FencesOk;
    TouchSteady(w, Perform(w, script, now), cfg);
  }

  lemma HeartbeatEffect(s: State, handle: Handle, worker: string, now: int)
    ensures var db := HeartbeatScript(s, handle, worker, now).0;
            SameLists(s, db) && RowsFrom(s, db) && db.fences == s.fences
  {
    hide Holds, IsFenced;
    var id, db := handle.id, HeartbeatScript(s, handle, worker, now).0;
    RowsStay(s, s);
    if db != s {
      var row := db.processingMeta[id];
      SameLeasesUpdate(s.processingMeta, id, row);
      assert db.retryMeta == s.retryMeta[id := row] && SameLease(row, s.processingMeta[id]);
      hide SameLeases;
      assert forall m :: m in s.retryMeta ==> SameLease(s.retryMeta[m], s.retryMeta[m]);
    }
  }

  lemma HeartbeatSteady(w: World, script: Script, now: int, cfg: Config)
    requires Steady(w, cfg) && script.Heartbeat?
    ensures Steady(Perform(w, script, now), cfg)
  {
    var u := w.(db := Live(w.db, now));
    LiveSteady(w, now, cfg);
    hide HeartbeatScript, Ledger, WaitingOk, RowsFrom;
    HeartbeatEffect(u.db, script.handle, script.worker, now);
    var db := HeartbeatScript(u.db, script.handle, script.worker, now).0;
    assert FencesOk(db);
    hide Steady, FencesOk;
    TouchSteady(u, Perform(w, script, now), cfg);
  }

  lemma SettleEffect(w: World, script: Script, now: int)
    requires script.Ack? || script.Fail?
    ensures var u := Live(w.db, now);
            var w' := Perform(w, script, now);
            && SameRecords(w, w')
            && (|| w'.db == u
                || (&& script.raw in u.processingMeta
                    && w'.db.waiting == u.waiting && w'.db.fences == u.fences && w'.db.processing == RemoveFirst(u.processing, script.raw)
                    && w'.db.processingMeta == u.processingMeta - {script.raw} && w'.db.retryMeta == u.retryMeta - {script.raw}))
  {
    hide RemoveFirst, IsFenced, Live;
  }

  lemma SettleSteady(w: World, script: Script, now: int, cfg: Config)
    requires Steady(w, cfg) && (script.Ack? || script.Fail?)
    ensures Steady(Perform(w, script, now), cfg)
  {
    var u := w.(db := Live(w.db, now));
    LiveSteady(w, now, cfg);
    SettleEffect(w, script, now);
    hide Steady, RemoveFirst, Live, Perform;
    if Perform(w, script, now).db == u.db {
      StayedSteady(u, Perform(w, script, now), cfg);
    } else {
      LeaveSteady(u, script.raw, Perform(w, script, now), cfg);
    }
  }

  // ---- Reclaim scripts ------------------------------------------------------------------------------------

  /** Stopping or not, the guard of the reclaim scripts only restamps rows. */
  lemma GuardRestamps(s: State, raw: Raw, attempt: string, owner: string, visibility: int, now: int)
    ensures Restamped(s, ReclaimGuard(s, raw, attempt, owner, visibility, now).state)
  {
  }

  lemma GuardSteady(w: World, raw: Raw, attempt: string, owner: string, visibility: int, now: int, cfg: Config)
    requires Steady(w, cfg)
    ensures Steady(w.(db := ReclaimGuard(w.db, raw, attempt, owner, visibility, now).state), cfg)
  {
    hide ReclaimGuard, Ledger, WaitingOk;
    GuardRestamps(w.db, raw, attempt, owner, visibility, now);
    var v := w.(db := ReclaimGuard(w.db, raw, attempt, owner, visibility, now).state);
    RestampedRows(w.db, v.db);
    assert FencesOk(v.db);
    hide Steady, FencesOk, RowsFrom;
    TouchSteady(w, v, cfg);
  }

  /** The row under which a reclaim proceeds has the attempts of the reclaimer's copy. */
  lemma ProceedsUnder(w: World, raw: Raw, row: Lease, visibility: int, now: int)
    requires AllGenuine(w) && Genuine(row, w.issued)
    requires ReclaimGuard(w.db, raw, row.attempt, row.owner, visibility, now).Proceed?
    ensures HasLeaseRow(w.db, raw) && LeaseRow(w.db, raw).attempts == row.attempts
    ensures var t := ReclaimGuard(w.db, raw, row.attempt, row.owner, visibility, now).state;
            && (raw in t.processingMeta <==> raw in w.db.processingMeta)
            && (raw in t.processingMeta ==> t.processingMeta[raw].attempts == row.attempts)
            && (raw.valid ==> !IsFenced(w.db, raw.name))
  {
    assert HasLeaseRow(w.db, raw) && LeaseRow(w.db, raw).attempt == row.attempt;
    SameAttempts(w, raw, row);
    hide AllGenuine, Genuine;
  }

  lemma RequeueCallSteady(w: World, raw: Raw, row: Lease, now: int, cfg: Config)
    requires Steady(w, cfg) && Genuine(row, w.issued) && row.raw == raw && row.attempts < cfg.maxAttempts
    ensures Steady(Perform(w, Requeue(raw, row, row.attempt, row.owner, cfg.visibility), now), cfg)
  {
    var script := Requeue(raw, row, row.attempt, row.owner, cfg.visibility);
    hide ReclaimGuard, Genuine, Push, RemoveFirst, Steady, Live, RequeueScript;
    LiveSteady(w, now, cfg);
    var u := w.(db := Live(w.db, now));
    var guard := ReclaimGuard(u.db, raw, row.attempt, row.owner, cfg.visibility, now);
    GuardSteady(u, raw, row.attempt, row.owner, cfg.visibility, now, cfg);
    var v := u.(db := guard.state);
    SteadyParts(u, cfg);
    var w' := Perform(w, script, now);
    assert w'.db == RequeueScript(u.db, raw, row, row.attempt, row.owner, cfg.visibility, now).0 && SameRecords(w, w');
    hide Perform, AllGenuine;
    RequeueEffect(u.db, raw, row, cfg.visibility, now);
    if guard.Proceed? && raw in guard.state.processing {
      ProceedsUnder(u, raw, row, cfg.visibility, now);
      HeldRow(v, raw, cfg);
      RequeueSteady(v, raw, row, w', cfg);
    } else {
      StayedSteady(v, w', cfg);
    }
  }

  lemma HeldRow(w: World, raw: Raw, cfg: Config)
    requires Steady(w, cfg) && raw in w.db.processing
    ensures raw in w.db.processingMeta
  {
    hide Ledger;
    ProcessingFacts(w.db, raw);
  }

  lemma RequeueEffect(s: State, raw: Raw, row: Lease, visibility: int, now: int)
    ensures var guard := ReclaimGuard(s, raw, row.attempt, row.owner, visibility, now);
            var t := guard.state;
            var s' := RequeueScript(s, raw, row, row.attempt, row.owner, visibility, now).0;
            if guard.Proceed? && raw in t.processing then
              && s'.waiting == Push(t.waiting, raw) && s'.fences == t.fences && s'.processing == RemoveFirst(t.processing, raw)
              && s'.processingMeta == t.processingMeta - {raw} && s'.retryMeta == t.retryMeta[raw := row]
            else s' == t
  {
    hide ReclaimGuard, Push, RemoveFirst;
  }

  lemma BuryEffect(s: State, raw: Raw, row: Lease, dropMeta: bool, visibility: int, now: int)
    ensures var guard := ReclaimGuard(s, raw, row.attempt, row.owner, visibility, now);
            var t := guard.state;
            var s' := DeadLetterExpiredScript(s, raw, row, dropMeta, row.attempt, row.owner, visibility, now).0;
            if guard.Proceed? then
              && s'.waiting == t.waiting && s'.fences == t.fences && s'.processing == RemoveFirst(t.processing, raw)
              && (s'.processingMeta == t.processingMeta || s'.processingMeta == t.processingMeta - {raw})
              && s'.retryMeta == t.retryMeta - {raw}
            else s' == t
  {
    hide ReclaimGuard, RemoveFirst;
  }

  lemma AtLimitHeld(s: State, raw: Raw, cfg: Config)
    requires RowsBounded(s, cfg) && HasLeaseRow(s, raw) && LeaseRow(s, raw).attempts >= cfg.maxAttempts
    ensures raw in s.processingMeta
  {
  }

  lemma BuryCallSteady(w: World, raw: Raw, row: Lease, dropMeta: bool, now: int, cfg: Config)
    requires Steady(w, cfg) && Genuine(row, w.issued) && row.raw == raw && row.attempts >= cfg.maxAttempts
    ensures Steady(Perform(w, DeadLetterExpired(raw, row, dropMeta, row.attempt, row.owner, cfg.visibility), now), cfg)
  {
    var script := DeadLetterExpired(raw, row, dropMeta, row.attempt, row.owner, cfg.visibility);
    hide ReclaimGuard, Genuine, RemoveFirst, Steady, Live, DeadLetterExpiredScript;
    LiveSteady(w, now, cfg);
    var u := w.(db := Live(w.db, now));
    var guard := ReclaimGuard(u.db, raw, row.attempt, row.owner, cfg.visibility, now);
    GuardSteady(u, raw, row.attempt, row.owner, cfg.visibility, now, cfg);
    var v := u.(db := guard.state);
    SteadyParts(u, cfg);
    var w' := Perform(w, script, now);
    assert w'.db == DeadLetterExpiredScript(u.db, raw, row, dropMeta, row.attempt, row.owner, cfg.visibility, now).0 && SameRecords(w, w');
    hide Perform, AllGenuine, RowsBounded;
    BuryEffect(u.db, raw, row, dropMeta, cfg.visibility, now);
    if guard.Proceed? {
      ProceedsUnder(u, raw, row, cfg.visibility, now);
      AtLimitHeld(u.db, raw, cfg);
      LeaveSteady(v, raw, w', cfg);
    } else {
      StayedSteady(v, w', cfg);
    }
  }

  // ---- Runs --------------------------------------------------------------------------------------------------

  lemma CallSteady(w: World, script: Script, now: int, cfg: Config)
    requires Steady(w, cfg) && Sound(cfg) && Permitted(w, Call(script), cfg)
    ensures Steady(Perform(w, script, now), cfg)
  {
    hide Steady, Perform;
    match script {
      case Enqueue(raw) => EnqueueSteady(w, raw, now, cfg);
      case RemoveQueued(name) => RemoveCallSteady(w, name, now, cfg);
      case LeaseAt(_, _, _, _, _, _) => LeaseCallSteady(w, script, now, cfg);
      case DeadLetterInvalid(_, _, _) => DiscardCallSteady(w, script, now, cfg);
      case Heartbeat(_, _) => HeartbeatSteady(w, script, now, cfg);
      case Ack(_, _) => SettleSteady(w, script, now, cfg);
      case Fail(_, _, _, _) => SettleSteady(w, script, now, cfg);
      case _ => QuietSteady(w, script, now, cfg);
    }
  }

  lemma MoveSteady(w: World, who: nat, r: Reclaimer, cfg: Config)
    requires Steady(w, cfg)
    requires r.Decided? ==> Genuine(r.row, w.issued) && r.row.raw == r.raw
    ensures Steady(w.(reclaimers := w.reclaimers[who := r]), cfg)
  {
    hide Guarded, Named, RowsNamed, RowsBounded, Counted, StrandedKept, Genuine;
  }

  lemma ReclaimSteady(w: World, t: Timed, cfg: Config)
    requires Steady(w, cfg) && Permitted(w, t.event, cfg) && t.event.Reclaim?
    ensures Steady(Next(w, t, cfg), cfg)
  {
    var r := w.reclaimers[t.event.who];
    assert Genuine(r.row, w.issued) && r.row.raw == r.raw by { hide Guarded, Named, Counted, RowsBounded; }
    hide Steady, Genuine, Perform;
    if r.row.attempts < cfg.maxAttempts {
      RequeueCallSteady(w, r.raw, r.row, t.now, cfg);
    } else {
      BuryCallSteady(w, r.raw, r.row, !r.fromRetry, t.now, cfg);
    }
    PerformKeepsReclaimers(w, Verdict(r, cfg), t.now);
    MoveSteady(Perform(w, Verdict(r, cfg), t.now), t.event.who, Scanning(r.todo), cfg);
  }

  lemma ReadSteady(w: World, t: Timed, cfg: Config)
    requires Steady(w, cfg) && Permitted(w, t.event, cfg) && (t.event.ReadLease? || t.event.ReadRetry? || t.event.ListProcessing?)
    ensures Steady(Next(w, t, cfg), cfg)
  {
    var who := t.event.who;
    var r := Next(w, t, cfg).reclaimers[who];
    assert r.Decided? ==> Genuine(r.row, w.issued) && r.row.raw == r.raw by { hide Guarded, Named, Counted, RowsBounded, Genuine; }
    hide Steady, Genuine;
    MoveSteady(w, who, r, cfg);
  }

  /** Every permitted event keeps it, the hazard too. */
  lemma NextSteady(w: World, t: Timed, cfg: Config)
    requires Steady(w, cfg) && Sound(cfg) && Permitted(w, t.event, cfg)
    ensures Steady(Next(w, t, cfg), cfg)
  {
    hide Steady;
    if t.event.Reclaim? {
      ReclaimSteady(w, t, cfg);
    } else if t.event.Call? {
      CallSteady(w, t.event.script, t.now, cfg);
    } else {
      ReadSteady(w, t, cfg);
    }
  }

  lemma {:induction false} SteadyFrom(w: World, run: seq<Timed>, cfg: Config)
    requires Steady(w, cfg) && Sound(cfg) && Legal(w, run, cfg)
    ensures Steady(After(w, run, cfg), cfg)
    decreases |run|
  {
    hide Steady;
    if run != [] {
      NextSteady(w, run[0], cfg);
      SteadyFrom(Next(w, run[0], cfg), run[1..], cfg);
    }
  }

  /** Every world of every legal run is steady. */
  lemma SteadyAlways(run: seq<Timed>, cfg: Config)
    requires Sound(cfg) && Legal(START, run, cfg)
    ensures Steady(After(START, run, cfg), cfg)
  {
    StartHolds(cfg);
    InvariantSteady(START, cfg);
    SteadyFrom(START, run, cfg);
  }

  // ---- The caps need nothing else ----------------------------------------------------------------------------

  /** What a script may do to the processing list. */
  ghost predicate ProcessingMoves(s: State, script: Script, s': State) {
    || s'.processing == s.processing
    || ((script.Ack? || script.Fail? || IsReclaim(script)) && s'.processing == RemoveFirst(s.processing, script.raw))
    || (&& script.LeaseAt? && s'.processing == [script.raw] + s.processing
        && CapacityOpen(s.processing, script.limits) && QuotaOpen(s.processing, script.raw, script.limits))
  }

  lemma StepMoves(s: State, script: Script, now: int)
    ensures ProcessingMoves(s, script, Step(s, script, now).0)
  {
    hide RemoveFirst, QuotaOpen, CapacityOpen, RequeueScript, DeadLetterExpiredScript, EnqueueScript, RemoveScript, LeaseScript,
         DeadLetterInvalidScript, AcquireScript, HeartbeatScript, AckScript, FailScript, VerifyScript;
    var u := Live(s, now);
    match script {
      case Requeue(raw, row, attempt, owner, visibility) => ReclaimMoves(u, raw, row, true, attempt, owner, visibility, now);
      case DeadLetterExpired(raw, row, dropMeta, attempt, owner, visibility) => ReclaimMoves(u, raw, row, dropMeta, attempt, owner, visibility, now);
      case LeaseAt(raw, position, worker, attempt, owner, limits) => LeaseMoves(u, raw, position, worker, attempt, owner, limits, now);
      case Ack(raw, handle) => SettleMoves(u, raw, handle, "", "");
      case Fail(raw, handle, code, worker) => SettleMoves(u, raw, handle, code, worker);
      case _ => OthersStay(s, script, now);
    }
  }

  lemma ReclaimMoves(s: State, raw: Raw, row: Lease, dropMeta: bool, attempt: string, owner: string, visibility: int, now: int)
    ensures var a := RequeueScript(s, raw, row, attempt, owner, visibility, now).0.processing;
            a == s.processing || a == RemoveFirst(s.processing, raw)
    ensures var b := DeadLetterExpiredScript(s, raw, row, dropMeta, attempt, owner, visibility, now).0.processing;
            b == s.processing || b == RemoveFirst(s.processing, raw)
  {
    hide ReclaimGuard, Push, RemoveFirst, SameLeases;
    GuardRestamps(s, raw, attempt, owner, visibility, now);
  }

  lemma LeaseMoves(s: State, raw: Raw, position: int, worker: string, attempt: string, owner: string, limits: Limits, now: int)
    ensures var a := LeaseScript(s, raw, position, worker, attempt, owner, limits, now).0.processing;
            a == s.processing || (a == [raw] + s.processing && CapacityOpen(s.processing, limits) && QuotaOpen(s.processing, raw, limits))
  {
    hide QuotaOpen, CapacityOpen, IsFenced, Unindex, NextAttempt, DropAt;
  }

  lemma SettleMoves(s: State, raw: Raw, handle: Handle, code: string, worker: string)
    ensures var a := AckScript(s, raw, handle).0.processing;
            a == s.processing || a == RemoveFirst(s.processing, raw)
    ensures var b := FailScript(s, raw, handle, code, worker).0.processing;
            b == s.processing || b == RemoveFirst(s.processing, raw)
  {
    hide RemoveFirst, IsCurrent, IsFenced;
  }

  lemma OthersStay(s: State, script: Script, now: int)
    requires !IsReclaim(script) && !script.LeaseAt? && !script.Ack? && !script.Fail?
    ensures Step(s, script, now).0.processing == s.processing
  {
    hide Push, Matched, Rowless, RowsOf, Drain, UnindexByRow, Unowned, NextAttempt, Unindex, DropAt, IsFenced, KnownWaiting,
         Holds, IsCurrent;
  }

  lemma NextCaps(w: World, t: Timed, cfg: Config)
    requires Permitted(w, t.event, cfg) && WithinCaps(w.db.processing, cfg.limits)
    ensures WithinCaps(Next(w, t, cfg).db.processing, cfg.limits)
  {
    hide Step, WithinCaps;
    if t.event.Call? || t.event.Reclaim? {
      var script := if t.event.Call? then t.event.script else Verdict(w.reclaimers[t.event.who], cfg);
      var processing := Step(w.db, script, t.now).0.processing;
      assert Next(w, t, cfg).db.processing == processing;
      StepMoves(w.db, script, t.now);
      hide RemoveFirst;
      if script.LeaseAt? {
        if processing != w.db.processing { LeaseCaps(w.db.processing, script.raw, cfg.limits); }
      } else if processing != w.db.processing {
        RemoveCaps(w.db.processing, script.raw, cfg.limits);
      }
    }
  }

  lemma {:induction false} CapsFrom(w: World, run: seq<Timed>, cfg: Config)
    requires Legal(w, run, cfg) && WithinCaps(w.db.processing, cfg.limits)
    ensures WithinCaps(After(w, run, cfg).db.processing, cfg.limits)
    decreases |run|
  {
    hide WithinCaps;
    if run != [] {
      NextCaps(w, run[0], cfg);
      CapsFrom(Next(w, run[0], cfg), run[1..], cfg);
    }
  }
}

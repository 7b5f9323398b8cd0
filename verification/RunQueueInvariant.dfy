/** The invariant of every world, and exactly which permitted events keep it: all but
    the late dead-lettering named `Hazard` and the events that collide with another
    run's field. */
module RunQueueInvariant {
  import opened Sequences
  import opened RunQueueScripts
  import opened RunQueueCoherence
  import opened RunQueueWorld

  ghost predicate SameHistory(w: World, w': World) {
    w' == w.(db := w'.db)
  }

  /** Lists untouched, rows at most restamped. */
  lemma RestampBooks(w: World, w': World, cfg: Config)
    requires Books(w, cfg) && SameHistory(w, w')
    requires w'.db.waiting.list == w.db.waiting.list && w'.db.processing == w.db.processing
    requires SameLeases(w.db.processingMeta, w'.db.processingMeta)
    requires SameLeases(w.db.retryMeta, w'.db.retryMeta)
    ensures Books(w', cfg)
  {
    RestampCounted(w.db, w'.db, w.deliveries);
    RestampGenuine(w, w');
    hide Counted, AllGenuine, WithinCaps, SameLease;
    assert Bounded(w'.db, cfg) by { RestampBounded(w.db, w'.db, cfg); }
    hide Bounded;
  }

  lemma RestampCounted(db: State, db': State, count: map<Raw, nat>)
    requires Counted(db, count) && db'.waiting.list == db.waiting.list && db'.processing == db.processing
    requires SameLeases(db.processingMeta, db'.processingMeta) && SameLeases(db.retryMeta, db'.retryMeta)
    ensures Counted(db', count)
  {
    assert forall r :: r in db'.processingMeta.Keys <==> r in db.processingMeta.Keys;
    assert forall r :: r in db'.retryMeta.Keys <==> r in db.retryMeta.Keys;
  }

  lemma RestampGenuine(w: World, w': World)
    requires AllGenuine(w) && SameHistory(w, w')
    requires SameLeases(w.db.processingMeta, w'.db.processingMeta) && SameLeases(w.db.retryMeta, w'.db.retryMeta)
    ensures AllGenuine(w')
  {
    assert forall r :: r in w'.db.processingMeta.Keys <==> r in w.db.processingMeta.Keys;
    assert forall r :: r in w'.db.retryMeta.Keys <==> r in w.db.retryMeta.Keys;
  }

  lemma RestampBounded(db: State, db': State, cfg: Config)
    requires Bounded(db, cfg)
    requires SameLeases(db.processingMeta, db'.processingMeta) && SameLeases(db.retryMeta, db'.retryMeta)
    ensures Bounded(db', cfg)
  {
    assert forall r :: r in db'.processingMeta.Keys <==> r in db.processingMeta.Keys;
    assert forall r :: r in db'.retryMeta.Keys <==> r in db.retryMeta.Keys;
  }

  /** Counts carry over where the message keeps its place, its rows and its
      delivery count. */
  lemma CountedAt(db: State, count: map<Raw, nat>, db': State, count': map<Raw, nat>, r: Raw)
    requires Counted(db, count) && r in count && r in count' && count'[r] == count[r]
    requires r in db'.retryMeta <==> r in db.retryMeta
    requires r in db.retryMeta ==> SameLease(db'.retryMeta[r], db.retryMeta[r])
    requires r in db'.processingMeta <==> r in db.processingMeta
    requires r in db.processingMeta ==> SameLease(db'.processingMeta[r], db.processingMeta[r])
    ensures r in db.processing ==> r in db'.processingMeta && db'.processingMeta[r].attempts == count'[r]
    ensures r in db.waiting.list ==> NextAttempt(db', r) == count'[r] + 1
  {
  }

  lemma AdmitCounted(db: State, count: map<Raw, nat>, raw: Raw, db': State)
    requires Counted(db, count) && raw !in db.retryMeta && raw !in db.processingMeta && raw !in db.processing
    requires db'.waiting.list == db.waiting.list + [raw] && db' == db.(waiting := db'.waiting)
    ensures Counted(db', count[raw := 0])
  {
    forall r | r in db'.processing ensures r in count && db'.processingMeta[r].attempts == count[raw := 0][r] {
      CountedAt(db, count, db', count[raw := 0], r);
    }
    forall r | r in db'.waiting.list ensures NextAttempt(db', r) == count[raw := 0][r] + 1 {
      if r != raw {
        assert r in db.waiting.list;
        CountedAt(db, count, db', count[raw := 0], r);
      }
    }
  }

  lemma AdmitBooks(w: World, raw: Raw, w': World, cfg: Config)
    requires Books(w, cfg) && raw.name in cfg.names
    requires raw !in w.db.retryMeta && raw !in w.db.processingMeta && raw !in w.db.processing
    requires w.db.waiting.list + [raw] == w'.db.waiting.list && w'.db == w.db.(waiting := w'.db.waiting)
    requires raw !in w.stranded
    requires w' == w.(db := w'.db, admitted := w.admitted + multiset{raw}, deliveries := w.deliveries[raw := 0])
    ensures Books(w', cfg)
  {
    hide Counted, WithinCaps, Genuine;
    AdmitCounted(w.db, w.deliveries, raw, w'.db);
    assert forall r :: r in w'.db.waiting.list <==> r in w.db.waiting.list || r == raw;
  }

  lemma CountCons(items: seq<Raw>, raw: Raw, t: string, u: string)
    ensures TenantCount([raw] + items, t) == TenantCount(items, t) + (if raw.name.tenant == t then 1 else 0)
    ensures UserCount([raw] + items, t, u) == UserCount(items, t, u) + (if raw.name.tenant == t && raw.user == u then 1 else 0)
  {
    assert ([raw] + items)[1..] == items;
  }

  lemma LeaseCaps(processing: seq<Raw>, raw: Raw, limits: Limits)
    requires WithinCaps(processing, limits) && CapacityOpen(processing, limits) && QuotaOpen(processing, raw, limits)
    ensures WithinCaps([raw] + processing, limits)
  {
    forall t ensures limits.tenant > 0 ==> TenantCount([raw] + processing, t) <= limits.tenant {
      CountCons(processing, raw, t, raw.user);
    }
    forall t, u ensures limits.user > 0 ==> UserCount([raw] + processing, t, u) <= limits.user {
      CountCons(processing, raw, t, u);
    }
  }

  lemma {:induction false} CountRemove(items: seq<Raw>, raw: Raw, t: string, u: string)
    ensures TenantCount(RemoveFirst(items, raw), t) <= TenantCount(items, t)
    ensures UserCount(RemoveFirst(items, raw), t, u) <= UserCount(items, t, u)
  {
    if items != [] && items[0] != raw {
      CountRemove(items[1..], raw, t, u);
      CountCons(RemoveFirst(items[1..], raw), items[0], t, u);
    }
  }

  lemma RemoveCaps(processing: seq<Raw>, raw: Raw, limits: Limits)
    requires WithinCaps(processing, limits)
    ensures WithinCaps(RemoveFirst(processing, raw), limits)
  {
    forall t ensures limits.tenant > 0 ==> TenantCount(RemoveFirst(processing, raw), t) <= limits.tenant {
      CountRemove(processing, raw, t, raw.user);
    }
    forall t, u ensures limits.user > 0 ==> UserCount(RemoveFirst(processing, raw), t, u) <= limits.user {
      CountRemove(processing, raw, t, u);
    }
  }

  lemma LeaseCounted(db: State, count: map<Raw, nat>, raw: Raw, row: Lease, db': State)
    requires Counted(db, count) && LeasesOk(db) && raw in db.waiting.list && row.attempts == NextAttempt(db, raw)
    requires forall r :: r in db'.waiting.list <==> r in db.waiting.list && r != raw
    requires db'.processing == [raw] + db.processing
    requires db'.processingMeta == db.processingMeta[raw := row] && db'.retryMeta == db.retryMeta[raw := row]
    ensures Counted(db', count[raw := count[raw] + 1])
  {
    var count' := count[raw := count[raw] + 1];
    forall r | r in db'.processing
      ensures r in db'.processingMeta && r in count' && db'.processingMeta[r].attempts == count'[r]
    {
      if r != raw {
        assert r in db.processing;
        CountedAt(db, count, db', count', r);
      }
    }
    forall r | r in db'.waiting.list ensures r in count' && NextAttempt(db', r) == count'[r] + 1 {
      CountedAt(db, count, db', count', r);
    }
  }

  lemma LeaseLedger(w: World, raw: Raw, row: Lease, w': World, cfg: Config)
    requires AllGenuine(w) && Bounded(w.db, cfg) && Accounted(w.db, w.stranded)
    requires raw in w.db.waiting.list && raw !in w.db.processingMeta
    requires row.raw == raw && row.attempts == NextAttempt(w.db, raw) && row.attempt !in w.issued
    requires forall r :: r in w'.db.waiting.list <==> r in w.db.waiting.list && r != raw
    requires w'.db.processing == [raw] + w.db.processing
    requires w'.db.processingMeta == w.db.processingMeta[raw := row]
    requires w'.db.retryMeta == w.db.retryMeta[raw := row]
    requires w'.issued == w.issued[row.attempt := row] && w'.reclaimers == w.reclaimers && w'.stranded == w.stranded
    requires cfg.maxAttempts >= 1
    ensures AllGenuine(w') && Bounded(w'.db, cfg) && Accounted(w'.db, w'.stranded)
  {
    assert forall r :: r in w'.db.processing <==> r == raw || r in w.db.processing;
  }

  lemma SettleFacts(db: State, raw: Raw)
    requires LeasesOk(db)
    ensures forall r :: r in RemoveFirst(db.processing, raw) <==> r in db.processing && r != raw
  {
    RemoveFirstNoDup(db.processing, raw);
  }

  lemma LeaseConserved(w: World, raw: Raw, w': World)
    requires Conserved(w) && raw in w.db.waiting.list
    requires multiset(w'.db.waiting.list) == multiset(w.db.waiting.list) - multiset{raw}
    requires w'.db.processing == [raw] + w.db.processing
    requires w'.admitted == w.admitted && w'.settled == w.settled
    ensures Conserved(w')
  {
  }

  lemma SettleConserved(w: World, raw: Raw, w': World)
    requires Conserved(w) && raw in w.db.processing
    requires w'.db.waiting == w.db.waiting && w'.db.processing == RemoveFirst(w.db.processing, raw)
    requires w'.admitted == w.admitted && w'.settled == w.settled + multiset{raw}
    ensures Conserved(w')
  {
  }

  lemma RequeueConserved(w: World, raw: Raw, w': World)
    requires Conserved(w) && raw in w.db.processing
    requires w'.db.waiting.list == w.db.waiting.list + [raw] && w'.db.processing == RemoveFirst(w.db.processing, raw)
    requires w'.admitted == w.admitted && w'.settled == w.settled
    ensures Conserved(w')
  {
  }

  lemma DiscardConserved(w: World, raw: Raw, w': World)
    requires Conserved(w) && raw in w.db.waiting.list && w'.db.processing == w.db.processing
    requires multiset(w'.db.waiting.list) == multiset(w.db.waiting.list) - multiset{raw}
    requires w'.admitted == w.admitted && w'.settled == w.settled + multiset{raw}
    ensures Conserved(w')
  {
  }

  lemma HeadFacts(db: State, raw: Raw, position: int)
    requires Coherent(db) && AtHead(db.waiting, raw, position)
    ensures LeasesOk(db) && NoDup(db.waiting.list)
    ensures raw in db.waiting.list && raw !in db.processing && raw !in db.processingMeta
    ensures var list := RemoveAt(db.waiting.list, position);
            && (forall r :: r in list <==> r in db.waiting.list && r != raw)
            && multiset(list) == multiset(db.waiting.list) - multiset{raw}
  {
    RemoveAtNoDup(db.waiting.list, position);
    assert raw in db.waiting.list;
  }

  /** Dropping one message from the processing structures. */
  lemma SettleLedger(w: World, raw: Raw, w': World, cfg: Config)
    requires AllGenuine(w) && Bounded(w.db, cfg) && Accounted(w.db, w.stranded)
    requires w'.db.waiting.list == w.db.waiting.list
    requires forall r :: r in w'.db.processing <==> r in w.db.processing && r != raw
    requires w'.db.processingMeta == w.db.processingMeta - {raw} && w'.db.retryMeta == w.db.retryMeta - {raw}
    requires w'.issued == w.issued && w'.reclaimers == w.reclaimers && w'.stranded == w.stranded
    requires raw in w.db.processing
    ensures AllGenuine(w') && Bounded(w'.db, cfg) && Accounted(w'.db, w'.stranded)
  {
    hide Genuine;
  }

  lemma RequeueLedger(w: World, raw: Raw, row: Lease, w': World, cfg: Config)
    requires AllGenuine(w) && Bounded(w.db, cfg) && Accounted(w.db, w.stranded)
    requires row.raw == raw && Genuine(row, w.issued) && row.attempts < cfg.maxAttempts
    requires w'.db.waiting.list == w.db.waiting.list + [raw]
    requires forall r :: r in w'.db.processing <==> r in w.db.processing && r != raw
    requires w'.db.processingMeta == w.db.processingMeta - {raw} && w'.db.retryMeta == w.db.retryMeta[raw := row]
    requires w'.issued == w.issued && w'.reclaimers == w.reclaimers && w'.stranded == w.stranded
    requires raw in w.db.processing
    ensures AllGenuine(w') && Bounded(w'.db, cfg) && Accounted(w'.db, w'.stranded)
  {
    hide Genuine;
    assert forall r :: r in w'.db.waiting.list <==> r in w.db.waiting.list || r == raw;
  }

  lemma DiscardLedger(w: World, raw: Raw, w': World, cfg: Config)
    requires AllGenuine(w) && Bounded(w.db, cfg) && Accounted(w.db, w.stranded)
    requires forall r :: r in w'.db.waiting.list <==> r in w.db.waiting.list && r != raw
    requires w'.db.processing == w.db.processing && w'.db.processingMeta == w.db.processingMeta
    requires w'.db.retryMeta == w.db.retryMeta - {raw}
    requires w'.issued == w.issued && w'.reclaimers == w.reclaimers && w'.stranded == w.stranded
    requires raw in w.db.waiting.list
    ensures AllGenuine(w') && Bounded(w'.db, cfg) && Accounted(w'.db, w'.stranded)
  {
    hide Genuine;
  }

  lemma FewerNamed(db: State, db': State, names: set<RunName>)
    requires Named(db, names)
    requires forall r :: r in db'.waiting.list || r in db'.processing ==> r in db.waiting.list || r in db.processing
    ensures Named(db', names)
  {
  }

  lemma LeaseTally(w: World, raw: Raw, w': World, cfg: Config)
    requires Named(w.db, cfg.names) && Conserved(w) && WithinCaps(w.db.processing, cfg.limits)
    requires CapacityOpen(w.db.processing, cfg.limits) && QuotaOpen(w.db.processing, raw, cfg.limits)
    requires raw in w.db.waiting.list
    requires forall r :: r in w'.db.waiting.list <==> r in w.db.waiting.list && r != raw
    requires multiset(w'.db.waiting.list) == multiset(w.db.waiting.list) - multiset{raw}
    requires w'.db.processing == [raw] + w.db.processing
    requires w'.admitted == w.admitted && w'.settled == w.settled
    ensures Named(w'.db, cfg.names) && Conserved(w') && WithinCaps(w'.db.processing, cfg.limits)
  {
    hide WithinCaps, CapacityOpen, QuotaOpen, Named, Conserved;
    LeaseCaps(w.db.processing, raw, cfg.limits);
    FewerNamed(w.db, w'.db, cfg.names);
    LeaseConserved(w, raw, w');
  }

  /** A waiting message moves into processing under a fresh lease. */
  lemma LeaseBooks(w: World, raw: Raw, row: Lease, w': World, cfg: Config)
    requires Books(w, cfg) && LeasesOk(w.db)
    requires raw in w.db.waiting.list && raw !in w.db.processing && raw !in w.db.processingMeta
    requires CapacityOpen(w.db.processing, cfg.limits) && QuotaOpen(w.db.processing, raw, cfg.limits)
    requires row.raw == raw && row.attempts == NextAttempt(w.db, raw) && row.attempt !in w.issued
    requires forall r :: r in w'.db.waiting.list <==> r in w.db.waiting.list && r != raw
    requires multiset(w'.db.waiting.list) == multiset(w.db.waiting.list) - multiset{raw}
    requires w'.db.processing == [raw] + w.db.processing
    requires w'.db.processingMeta == w.db.processingMeta[raw := row]
    requires w'.db.retryMeta == w.db.retryMeta[raw := row]
    requires w' == w.(db := w'.db, issued := w.issued[row.attempt := row],
                      deliveries := w.deliveries[raw := w.deliveries[raw] + 1])
    requires cfg.maxAttempts >= 1
    ensures Books(w', cfg)
  {
    hide Named, Conserved, AllGenuine, Bounded, Counted, Accounted, WithinCaps, LeasesOk,
         NextAttempt, QuotaOpen, CapacityOpen;
    LeaseTally(w, raw, w', cfg);
    LeaseCounted(w.db, w.deliveries, raw, row, w'.db);
    LeaseLedger(w, raw, row, w', cfg);
  }

  lemma SettleCounted(db: State, count: map<Raw, nat>, raw: Raw, db': State)
    requires Counted(db, count) && LeasesOk(db) && raw in db.processing
    requires db'.waiting == db.waiting
    requires forall r :: r in db'.processing <==> r in db.processing && r != raw
    requires db'.processingMeta == db.processingMeta - {raw} && db'.retryMeta == db.retryMeta - {raw}
    ensures Counted(db', count)
  {
    hide NoDup;
    forall r | r in db'.processing
      ensures r in db'.processingMeta && r in count && db'.processingMeta[r].attempts == count[r]
    {
      CountedAt(db, count, db', count, r);
    }
    forall r | r in db'.waiting.list ensures r in count && NextAttempt(db', r) == count[r] + 1 {
      assert r != raw;
      CountedAt(db, count, db', count, r);
    }
  }

  /** A message leaves processing and takes its rows with it. */
  lemma SettleBooks(w: World, raw: Raw, w': World, cfg: Config)
    requires Books(w, cfg) && LeasesOk(w.db) && raw in w.db.processing
    requires w'.db.waiting == w.db.waiting
    requires w'.db.processing == RemoveFirst(w.db.processing, raw)
    requires w'.db.processingMeta == w.db.processingMeta - {raw}
    requires w'.db.retryMeta == w.db.retryMeta - {raw}
    requires w' == w.(db := w'.db, settled := w.settled + multiset{raw})
    ensures Books(w', cfg)
  {
    hide Named, Conserved, AllGenuine, Bounded, Counted, Accounted, WithinCaps, Coherent, LeasesOk;
    SettleFacts(w.db, raw);
    RemoveCaps(w.db.processing, raw, cfg.limits);
    SettleCounted(w.db, w.deliveries, raw, w'.db);
    SettleLedger(w, raw, w', cfg);
    FewerNamed(w.db, w'.db, cfg.names);
    SettleConserved(w, raw, w');
  }

  lemma RequeueCounted(db: State, count: map<Raw, nat>, raw: Raw, row: Lease, db': State)
    requires Counted(db, count) && LeasesOk(db) && raw in db.processing
    requires row.attempts == db.processingMeta[raw].attempts
    requires db'.waiting.list == db.waiting.list + [raw]
    requires forall r :: r in db'.processing <==> r in db.processing && r != raw
    requires db'.processingMeta == db.processingMeta - {raw} && db'.retryMeta == db.retryMeta[raw := row]
    ensures Counted(db', count)
  {
    hide NoDup;
    forall r | r in db'.processing
      ensures r in db'.processingMeta && r in count && db'.processingMeta[r].attempts == count[r]
    {
      CountedAt(db, count, db', count, r);
    }
    forall r | r in db'.waiting.list ensures r in count && NextAttempt(db', r) == count[r] + 1 {
      if r != raw {
        assert r in db.waiting.list;
        CountedAt(db, count, db', count, r);
      }
    }
  }

  /** An expired message moves back to the queue under the reclaimer's copy of
      its row. */
  lemma RequeueBooks(w: World, raw: Raw, row: Lease, w': World, cfg: Config)
    requires Books(w, cfg) && LeasesOk(w.db) && raw in w.db.processing
    requires row.raw == raw && Genuine(row, w.issued) && row.attempts < cfg.maxAttempts
    requires w.db.processingMeta[raw].attempt == row.attempt
    requires w'.db.waiting.list == w.db.waiting.list + [raw]
    requires w'.db.processing == RemoveFirst(w.db.processing, raw)
    requires w'.db.processingMeta == w.db.processingMeta - {raw}
    requires w'.db.retryMeta == w.db.retryMeta[raw := row]
    requires SameHistory(w, w')
    ensures Books(w', cfg)
  {
    assert row.attempts == w.db.processingMeta[raw].attempts by {
      assert Genuine(w.db.processingMeta[raw], w.issued);
    }
    hide Named, Conserved, AllGenuine, Bounded, Counted, Accounted, WithinCaps, Coherent, LeasesOk;
    SettleFacts(w.db, raw);
    RemoveCaps(w.db.processing, raw, cfg.limits);
    RequeueCounted(w.db, w.deliveries, raw, row, w'.db);
    RequeueLedger(w, raw, row, w', cfg);
    FewerNamed(w.db, w'.db, cfg.names);
    RequeueConserved(w, raw, w');
  }

  lemma DiscardCounted(db: State, count: map<Raw, nat>, raw: Raw, db': State)
    requires Counted(db, count) && raw !in db.processing
    requires forall r :: r in db'.waiting.list <==> r in db.waiting.list && r != raw
    requires db' == db.(waiting := db'.waiting, retryMeta := db.retryMeta - {raw}, deadLetter := db'.deadLetter)
    ensures Counted(db', count)
  {
    forall r | r in db'.processing || r in db'.waiting.list ensures r != raw {}
  }

  /** A waiting message is dead-lettered. */
  lemma DiscardBooks(w: World, raw: Raw, position: int, w': World, cfg: Config)
    requires Books(w, cfg) && Coherent(w.db) && AtHead(w.db.waiting, raw, position)
    requires w'.db.waiting.list == RemoveAt(w.db.waiting.list, position)
    requires w'.db == w.db.(waiting := w'.db.waiting, retryMeta := w.db.retryMeta - {raw}, deadLetter := w'.db.deadLetter)
    requires w' == w.(db := w'.db, settled := w.settled + multiset{raw})
    ensures Books(w', cfg)
  {
    hide Named, Conserved, AllGenuine, Bounded, Counted, Accounted, WithinCaps, Coherent, LeasesOk;
    HeadFacts(w.db, raw, position);
    DiscardCounted(w.db, w.deliveries, raw, w'.db);
    DiscardLedger(w, raw, w', cfg);
    FewerNamed(w.db, w'.db, cfg.names);
    DiscardConserved(w, raw, w');
  }

  lemma {:induction false} DrainSplits(list: seq<Raw>, gone: set<Raw>)
    ensures multiset(Drain(list, gone)) <= multiset(list)
  {
    if list != [] {
      DrainSplits(list[1..], gone);
      assert list == [list[0]] + list[1..];
    }
  }

  /** A removal settles the run's waiting messages and strands those that had
      been delivered before. */
  lemma RemoveBooks(w: World, name: RunName, w': World, cfg: Config)
    requires Books(w, cfg) && Coherent(w.db)
    requires forall r :: r in w'.db.waiting.list <==> r in w.db.waiting.list && r.name != name
    requires multiset(w'.db.waiting.list) <= multiset(w.db.waiting.list)
    requires w'.db == w.db.(waiting := w'.db.waiting)
    requires w' == w.(db := w'.db,
                      settled := w.settled + (multiset(w.db.waiting.list) - multiset(w'.db.waiting.list)),
                      stranded := w.stranded + (set r | r in w.db.waiting.list && r !in w'.db.waiting.list && r in w'.db.retryMeta))
    ensures Books(w', cfg)
  {
    hide WaitingOk, NoDup, FencesOk, WithinCaps, Genuine, NextAttempt;
    assert Conserved(w') by { hide Counted, AllGenuine, Bounded, Accounted, LeasesOk, Named; }
    hide Conserved;
    RemoveCounted(w.db, w'.db, w.deliveries);
    hide Counted;
  }

  lemma RemoveCounted(db: State, db': State, count: map<Raw, nat>)
    requires Counted(db, count) && db' == db.(waiting := db'.waiting)
    requires forall r :: r in db'.waiting.list ==> r in db.waiting.list
    ensures Counted(db', count)
  {
  }

  // ---- One lemma per script ---------------------------------------------------------

  lemma LiveInvariant(w: World, now: int, cfg: Config)
    requires Invariant(w, cfg)
    ensures Invariant(w.(db := Live(w.db, now)), cfg)
  {
    LiveKeeps(w.db, now);
    hide Coherent;
    assert SameLeases(w.db.processingMeta, w.db.processingMeta) && SameLeases(w.db.retryMeta, w.db.retryMeta);
    hide Books, SameLeases;
    RestampBooks(w, w.(db := Live(w.db, now)), cfg);
  }

  /** Scripts that leave both lists alone and at most restamp rows. */
  lemma RestampStep(w: World, db: State, cfg: Config)
    requires Books(w, cfg) && Coherent(db)
    requires db.waiting == w.db.waiting && db.processing == w.db.processing
    requires SameLeases(w.db.processingMeta, db.processingMeta) && SameLeases(w.db.retryMeta, db.retryMeta)
    ensures Invariant(w.(db := db), cfg)
  {
    hide Books, Coherent, SameLeases;
    RestampBooks(w, w.(db := db), cfg);
  }

  lemma StrandedKeepsRow(w: World, raw: Raw, cfg: Config)
    requires Books(w, cfg) && raw !in w.db.retryMeta
    ensures raw !in w.stranded
  {
  }

  lemma EnqueueStep(w: World, raw: Raw, now: int, cfg: Config)
    requires Invariant(w, cfg) && raw.name in cfg.names
    ensures Invariant(Perform(w, Enqueue(raw), now), cfg)
  {
    hide Coherent, Books;
    LiveInvariant(w, now, cfg);
    var u := w.(db := Live(w.db, now));
    EnqueueKeeps(u.db, raw);
    if EnqueueScript(u.db, raw).1.Enqueued? {
      StrandedKeepsRow(u, raw, cfg);
      AdmitBooks(u, raw, Perform(w, Enqueue(raw), now), cfg);
    } else {
      assert Perform(w, Enqueue(raw), now) == u;
    }
  }

  lemma RemoveStep(w: World, name: RunName, now: int, cfg: Config)
    requires Invariant(w, cfg) && Alone(w.db.waiting, name)
    ensures Invariant(Perform(w, RemoveQueued(name), now), cfg)
  {
    LiveInvariant(w, now, cfg);
    var u := w.(db := Live(w.db, now));
    hide Coherent, Books, Alone;
    RemoveKeeps(u.db, name);
    var db := RemoveScript(u.db, name).0;
    if Field(name) in u.db.waiting.index {
      DrainSplits(u.db.waiting.list, RowsOf(u.db.waiting, Matched(u.db.waiting, name)));
    }
    RemoveBooks(u, name, Perform(w, RemoveQueued(name), now), cfg);
  }

  lemma DeliveredBefore(w: World, raw: Raw, cfg: Config)
    requires Books(w, cfg) && raw in w.db.waiting.list
    ensures raw in w.deliveries
  {
  }

  lemma LeaseStep(w: World, script: Script, now: int, cfg: Config)
    requires Invariant(w, cfg) && script.LeaseAt? && cfg.maxAttempts >= 1
    requires script.raw.valid && script.limits == cfg.limits && script.attempt !in w.issued
    ensures Invariant(Perform(w, script, now), cfg)
  {
    hide Coherent, Books, NextAttempt, QuotaOpen, CapacityOpen, Unindex, LeasesOk;
    LiveInvariant(w, now, cfg);
    var u := w.(db := Live(w.db, now));
    var raw := script.raw;
    LeaseKeeps(u.db, raw, script.position, script.worker, script.attempt, script.owner, script.limits, now);
    var (db, reply) := LeaseScript(u.db, raw, script.position, script.worker, script.attempt, script.owner, script.limits, now);
    if reply.Leased? {
      HeadFacts(u.db, raw, script.position);
      DeliveredBefore(u, raw, cfg);
      LeaseBooks(u, raw, db.processingMeta[raw], Perform(w, script, now), cfg);
    } else {
      assert Perform(w, script, now) == u;
    }
  }

  lemma DiscardStep(w: World, script: Script, now: int, cfg: Config)
    requires Invariant(w, cfg) && script.DeadLetterInvalid?
    ensures Invariant(Perform(w, script, now), cfg)
  {
    hide Coherent, Books, NextAttempt, UnindexByRow;
    LiveInvariant(w, now, cfg);
    var u := w.(db := Live(w.db, now));
    DeadLetterInvalidKeeps(u.db, script.raw, script.position, script.worker);
    if DeadLetterInvalidScript(u.db, script.raw, script.position, script.worker).1.DeadLettered? {
      DiscardBooks(u, script.raw, script.position, Perform(w, script, now), cfg);
    } else {
      assert Perform(w, script, now) == u;
    }
  }

  lemma SameLeasesRefl(rows: map<MessageId, Lease>)
    ensures SameLeases(rows, rows)
  {
  }

  /** Scripts that touch neither list nor any lease row. */
  lemma QuietStep(w: World, db: State, cfg: Config)
    requires Books(w, cfg) && Coherent(db)
    requires db.waiting == w.db.waiting && db.processing == w.db.processing
    requires db.processingMeta == w.db.processingMeta && db.retryMeta == w.db.retryMeta
    ensures Invariant(w.(db := db), cfg)
  {
    hide Books, Coherent, SameLeases;
    SameLeasesRefl(db.processingMeta);
    SameLeasesRefl(db.retryMeta);
    RestampStep(w, db, cfg);
  }

  lemma LeasesFrame(s: State, s': State)
    requires LeasesOk(s)
    requires s'.waiting == s.waiting && s'.processing == s.processing
    requires s'.processingMeta == s.processingMeta && s'.retryMeta == s.retryMeta
    ensures LeasesOk(s')
  {
  }

  predicate TouchesNoRow(script: Script) {
    script.AcquireFence? || script.RenewFence? || script.ReleaseFence? || script.Verify? || script.PruneWorker? || script.TrimDeadLetters?
  }

  /** A held fence may be renewed or dropped, and a fence may be taken on a run
      that owns nothing; the other structures stay. */
  lemma QuietKeeps(s: State, script: Script, now: int)
    requires Coherent(Live(s, now)) && TouchesNoRow(script)
    requires script.AcquireFence? && Step(s, script, now).1.Claimed? ==> Unshared(s, script.name)
    ensures var db := Step(s, script, now).0;
            && Coherent(db)
            && db.waiting == s.waiting && db.processing == s.processing
            && db.processingMeta == s.processingMeta && db.retryMeta == s.retryMeta
  {
    hide WaitingOk, LeasesOk, Unowned;
    LeasesFrame(Live(s, now), Step(s, script, now).0);
    if script.AcquireFence? {
      AcquireKeepsIff(Live(s, now), script.name, script.token, script.workerTtl, script.scanLimit, script.ttlMs, now);
    }
  }

  lemma TouchNothing(w: World, script: Script, now: int, cfg: Config)
    requires Invariant(w, cfg) && TouchesNoRow(script)
    requires script.AcquireFence? && Step(w.db, script, now).1.Claimed? ==> Unshared(w.db, script.name)
    ensures Invariant(Perform(w, script, now), cfg)
  {
    hide Coherent, Books, Unshared;
    LiveInvariant(w, now, cfg);
    QuietKeeps(w.db, script, now);
    var db := Step(w.db, script, now).0;
    QuietStep(w, db, cfg);
    assert Perform(w, script, now) == w.(db := db);
  }

  lemma HeartbeatRows(s: State, handle: Handle, worker: string, now: int)
    requires Coherent(s)
    ensures var db := HeartbeatScript(s, handle, worker, now).0;
            && SameLeases(s.processingMeta, db.processingMeta) && SameLeases(s.retryMeta, db.retryMeta)
            && db.waiting == s.waiting && db.processing == s.processing
  {
    hide WaitingOk, FencesOk, NoDup, Holds, IsFenced;
    var id, db := handle.id, HeartbeatScript(s, handle, worker, now).0;
    SameLeasesRefl(s.processingMeta);
    SameLeasesRefl(s.retryMeta);
    if db.workerBeat != s.workerBeat || db != s {
      var row := db.processingMeta[id];
      SameLeasesUpdate(s.processingMeta, id, row);
      SameLeasesUpdate(s.retryMeta, id, row);
      hide SameLeases, SameLease;
    }
  }

  lemma SameLeasesUpdate(rows: map<MessageId, Lease>, id: MessageId, row: Lease)
    requires id in rows && SameLease(row, rows[id])
    ensures SameLeases(rows, rows[id := row])
  {
  }

  lemma HeartbeatStep(w: World, script: Script, now: int, cfg: Config)
    requires Invariant(w, cfg) && script.Heartbeat?
    ensures Invariant(Perform(w, script, now), cfg)
  {
    hide Coherent, Books, SameLeases;
    LiveInvariant(w, now, cfg);
    var u := w.(db := Live(w.db, now));
    HeartbeatKeeps(u.db, script.handle, script.worker, now);
    HeartbeatRows(u.db, script.handle, script.worker, now);
    RestampStep(u, HeartbeatScript(u.db, script.handle, script.worker, now).0, cfg);
  }

  lemma SettledDeadLetter(s: State, raw: Raw, handle: Handle, letters: seq<DeadLetter>)
    requires Coherent(Settle(s, raw, handle.id))
    ensures Coherent(Settle(s, raw, handle.id).(deadLetter := letters))
  {
    hide WaitingOk, LeasesOk;
    LeasesFrame(Settle(s, raw, handle.id), Settle(s, raw, handle.id).(deadLetter := letters));
  }

  lemma SettleStep(w: World, script: Script, now: int, cfg: Config)
    requires Invariant(w, cfg) && (script.Ack? || script.Fail?)
    ensures Invariant(Perform(w, script, now), cfg)
  {
    hide Coherent, Books, IsCurrent;
    LiveInvariant(w, now, cfg);
    var u := w.(db := Live(w.db, now));
    var (db, reply) := Step(w.db, script, now);
    if reply.Acked? || reply.Failed? {
      SettleKeeps(u.db, script.raw, script.handle);
      SettledDeadLetter(u.db, script.raw, script.handle, db.deadLetter);
      CoherentLeases(u.db);
      SettleBooks(u, script.raw, Perform(w, script, now), cfg);
    } else {
      assert Perform(w, script, now) == u;
    }
  }

  lemma CoherentLeases(s: State)
    requires Coherent(s)
    ensures LeasesOk(s)
  {
  }

  lemma CallStep(w: World, script: Script, now: int, cfg: Config)
    requires Invariant(w, cfg) && cfg.maxAttempts >= 1 && Permitted(w, Call(script), cfg) && !Collides(w, At(Call(script), now))
    ensures Invariant(Perform(w, script, now), cfg)
  {
    hide Invariant, Perform, Alone, Unshared, Step;
    match script {
      case Enqueue(raw) => EnqueueStep(w, raw, now, cfg);
      case RemoveQueued(name) => RemoveStep(w, name, now, cfg);
      case LeaseAt(_, _, _, _, _, _) => LeaseStep(w, script, now, cfg);
      case DeadLetterInvalid(_, _, _) => DiscardStep(w, script, now, cfg);
      case Heartbeat(_, _) => HeartbeatStep(w, script, now, cfg);
      case Ack(_, _) => SettleStep(w, script, now, cfg);
      case Fail(_, _, _, _) => SettleStep(w, script, now, cfg);
      case _ => TouchNothing(w, script, now, cfg);
    }
  }

  // ---- Reclaimers -----------------------------------------------------------------------

  lemma ReclaimerMoves(w: World, who: nat, r: Reclaimer, cfg: Config)
    requires Invariant(w, cfg)
    requires r.Decided? ==> Genuine(r.row, w.issued) && r.row.raw == r.raw
    ensures Invariant(w.(reclaimers := w.reclaimers[who := r]), cfg)
  {
    hide Coherent, Named, Bounded, Counted, Accounted, WithinCaps;
  }

  /** The row a reclaimer acts on is the stored one whenever the script's
      ownership check passes. */
  lemma SameAttempts(w: World, raw: Raw, row: Lease)
    requires AllGenuine(w) && Genuine(row, w.issued) && HasLeaseRow(w.db, raw)
    requires LeaseRow(w.db, raw).attempt == row.attempt
    ensures SameLease(LeaseRow(w.db, raw), row)
  {
  }

  /** At the limit only a message still being processed has a row. */
  lemma AtLimitProcessing(w: World, raw: Raw, row: Lease, cfg: Config)
    requires AllGenuine(w) && Bounded(w.db, cfg) && Genuine(row, w.issued)
    requires HasLeaseRow(w.db, raw) && LeaseRow(w.db, raw).attempt == row.attempt
    requires row.attempts >= cfg.maxAttempts
    ensures raw in w.db.processingMeta
  {
    SameAttempts(w, raw, row);
  }

  lemma RequeueStep(w: World, raw: Raw, row: Lease, now: int, cfg: Config)
    requires Invariant(w, cfg) && Genuine(row, w.issued) && row.raw == raw
    requires 1 <= row.attempts < cfg.maxAttempts
    ensures Invariant(Perform(w, Requeue(raw, row, row.attempt, row.owner, cfg.visibility), now), cfg)
  {
    var script := Requeue(raw, row, row.attempt, row.owner, cfg.visibility);
    hide Coherent, Books, SameLeases, Genuine, ReclaimGuard;
    LiveInvariant(w, now, cfg);
    var u := w.(db := Live(w.db, now));
    var guard := ReclaimGuard(u.db, raw, row.attempt, row.owner, cfg.visibility, now);
    ReclaimGuardKeeps(u.db, raw, row.attempt, row.owner, cfg.visibility, now);
    var v := u.(db := guard.state);
    RestampStep(u, guard.state, cfg);
    RequeueKeeps(u.db, raw, row, row.attempt, row.owner, cfg.visibility, now);
    if guard.Proceed? && raw in guard.state.processing {
      CoherentLeases(v.db);
      ProceedOwns(u.db, raw, row.attempt, row.owner, cfg.visibility, now);
      RequeueBooks(v, raw, row, Perform(w, script, now), cfg);
    } else {
      assert Perform(w, script, now) == v;
    }
  }

  lemma ProceedOwns(s: State, raw: Raw, attempt: string, owner: string, visibility: int, now: int)
    requires Coherent(s) && ReclaimGuard(s, raw, attempt, owner, visibility, now).Proceed?
    ensures HasLeaseRow(s, raw) && LeaseRow(s, raw).attempt == attempt
    ensures var t := ReclaimGuard(s, raw, attempt, owner, visibility, now).state;
            raw in t.processing ==> raw in t.processingMeta && t.processingMeta[raw].attempt == attempt
  {
    ReclaimGuardKeeps(s, raw, attempt, owner, visibility, now);
  }

  lemma BuryStep(w: World, raw: Raw, row: Lease, now: int, cfg: Config)
    requires Invariant(w, cfg) && Genuine(row, w.issued) && row.raw == raw
    requires row.attempts >= cfg.maxAttempts
    ensures Invariant(Perform(w, DeadLetterExpired(raw, row, true, row.attempt, row.owner, cfg.visibility), now), cfg)
  {
    var script := DeadLetterExpired(raw, row, true, row.attempt, row.owner, cfg.visibility);
    hide Coherent, SameLeases, Genuine, ReclaimGuard;
    LiveInvariant(w, now, cfg);
    var u := w.(db := Live(w.db, now));
    var guard := ReclaimGuard(u.db, raw, row.attempt, row.owner, cfg.visibility, now);
    ReclaimGuardKeeps(u.db, raw, row.attempt, row.owner, cfg.visibility, now);
    var v := u.(db := guard.state);
    RestampStep(u, guard.state, cfg);
    DeadLetterExpiredKeepsIff(u.db, raw, row, true, row.attempt, row.owner, cfg.visibility, now);
    if guard.Proceed? {
      ProceedOwns(u.db, raw, row.attempt, row.owner, cfg.visibility, now);
      hide AllGenuine, Bounded;
      AtLimitProcessing(u, raw, row, cfg);
      hide Books;
      StillProcessing(u.db, guard.state, raw);
      SettleBooks(v, raw, Perform(w, script, now), cfg);
    } else {
      hide Books;
      assert Perform(w, script, now) == v;
    }
  }

  lemma StillProcessing(s: State, t: State, raw: Raw)
    requires Coherent(t) && Restamped(s, t) && raw in s.processingMeta
    ensures LeasesOk(t) && raw in t.processing
  {
  }

  lemma HazardBuries(w: World, t: Timed, cfg: Config)
    requires Invariant(w, cfg) && Permitted(w, t.event, cfg) && t.event.Reclaim?
    requires var r := w.reclaimers[t.event.who];
             r.fromRetry && r.row.attempts >= cfg.maxAttempts
    ensures var r := w.reclaimers[t.event.who];
            Step(w.db, Verdict(r, cfg), t.now).1.DeadLettered? <==> Hazard(w, t, cfg)
  {
    var r := w.reclaimers[t.event.who];
    assert AllGenuine(w) && Bounded(w.db, cfg) && Genuine(r.row, w.issued);
    hide Invariant, AllGenuine, Bounded, Genuine;
    if HasLeaseRow(w.db, r.raw) && LeaseRow(w.db, r.raw).attempt == r.row.attempt {
      AtLimitProcessing(w, r.raw, r.row, cfg);
    }
    BuriesWhen(Live(w.db, t.now), r.raw, r.row, false, cfg.visibility, t.now);
    hide DeadLetterExpiredScript;
  }

  lemma BuriesWhen(s: State, raw: Raw, row: Lease, dropMeta: bool, visibility: int, now: int)
    ensures DeadLetterExpiredScript(s, raw, row, dropMeta, row.attempt, row.owner, visibility, now).1.DeadLettered? <==>
              && !(raw.valid && IsFenced(s, raw.name))
              && HasLeaseRow(s, raw) && Owns(LeaseRow(s, raw), raw, row.attempt, row.owner) && visibility >= 1
              && now - LeaseRow(s, raw).heartbeatAt > visibility * SECOND
  {
    hide Normalize, RemoveFirst;
  }

  /** When the retry branch does not dead-letter, it only restamps. */
  lemma UnburiedStep(w: World, raw: Raw, row: Lease, now: int, cfg: Config)
    requires Invariant(w, cfg)
    requires !Step(w.db, DeadLetterExpired(raw, row, false, row.attempt, row.owner, cfg.visibility), now).1.DeadLettered?
    ensures Invariant(Perform(w, DeadLetterExpired(raw, row, false, row.attempt, row.owner, cfg.visibility), now), cfg)
  {
    hide Coherent, Books, SameLeases, ReclaimGuard;
    LiveInvariant(w, now, cfg);
    var u := w.(db := Live(w.db, now));
    var guard := ReclaimGuard(u.db, raw, row.attempt, row.owner, cfg.visibility, now);
    ReclaimGuardKeeps(u.db, raw, row.attempt, row.owner, cfg.visibility, now);
    RestampStep(u, guard.state, cfg);
    assert Perform(w, DeadLetterExpired(raw, row, false, row.attempt, row.owner, cfg.visibility), now) == u.(db := guard.state);
  }

  lemma HazardBreaks(w: World, t: Timed, cfg: Config)
    requires Invariant(w, cfg) && Permitted(w, t.event, cfg) && Hazard(w, t, cfg)
    ensures !Invariant(Next(w, t, cfg), cfg)
  {
    hide Books, Coherent, DeadLetterExpiredScript;
    var r := w.reclaimers[t.event.who];
    HazardBuries(w, t, cfg);
    LiveInvariant(w, t.now, cfg);
    DeadLetterExpiredKeepsIff(
      Live(w.db, t.now), r.raw, r.row, false, r.row.attempt, r.row.owner, cfg.visibility, t.now);
  }

  lemma ReclaimStep(w: World, t: Timed, cfg: Config)
    requires Invariant(w, cfg) && Permitted(w, t.event, cfg) && t.event.Reclaim? && !Hazard(w, t, cfg)
    ensures Invariant(Next(w, t, cfg), cfg)
  {
    var r := w.reclaimers[t.event.who];
    GenuineDecision(w, t.event.who, cfg);
    hide Invariant, Genuine, Perform;
    if r.row.attempts < cfg.maxAttempts {
      RequeueStep(w, r.raw, r.row, t.now, cfg);
    } else if r.fromRetry {
      HazardBuries(w, t, cfg);
      UnburiedStep(w, r.raw, r.row, t.now, cfg);
    } else {
      BuryStep(w, r.raw, r.row, t.now, cfg);
    }
    var u := Perform(w, Verdict(r, cfg), t.now);
    PerformKeepsReclaimers(w, Verdict(r, cfg), t.now);
    ReclaimerMoves(u, t.event.who, Scanning(r.todo), cfg);
  }

  lemma GenuineDecision(w: World, who: nat, cfg: Config)
    requires Invariant(w, cfg) && who in w.reclaimers && w.reclaimers[who].Decided?
    ensures var r := w.reclaimers[who];
            Genuine(r.row, w.issued) && r.row.raw == r.raw && r.row.attempts >= 1
  {
  }

  lemma PerformKeepsReclaimers(w: World, script: Script, now: int)
    ensures Perform(w, script, now).reclaimers == w.reclaimers
  {
    hide Step;
  }

  lemma ReadStep(w: World, t: Timed, cfg: Config)
    requires Invariant(w, cfg) && Permitted(w, t.event, cfg) && (t.event.ReadLease? || t.event.ReadRetry? || t.event.ListProcessing?)
    ensures Invariant(Next(w, t, cfg), cfg)
  {
    var who := t.event.who;
    var r := Next(w, t, cfg).reclaimers[who];
    assert r.Decided? ==> Genuine(r.row, w.issued) && r.row.raw == r.raw;
    hide Invariant, Genuine;
    ReclaimerMoves(w, who, r, cfg);
  }

  lemma CollisionBreaks(w: World, t: Timed, cfg: Config)
    requires Invariant(w, cfg) && Permitted(w, t.event, cfg) && Collides(w, t)
    ensures !Invariant(Next(w, t, cfg), cfg)
  {
    hide Coherent, Books, Alone, Unshared, RemoveScript, AcquireScript, Live;
    var script, u := t.event.script, Live(w.db, t.now);
    LiveInvariant(w, t.now, cfg);
    NextCalls(w, t, cfg);
    ScriptOf(w.db, script, t.now);
    hide Next, Step, Permitted;
    if script.RemoveQueued? {
      RemoveKeepsIff(u, script.name);
    } else {
      AcquireKeepsIff(u, script.name, script.token, script.workerTtl, script.scanLimit, script.ttlMs, t.now);
      UnsharedLive(w.db, script.name, t.now);
    }
  }

  lemma NextCalls(w: World, t: Timed, cfg: Config)
    requires t.event.Call? && Permitted(w, t.event, cfg)
    ensures Next(w, t, cfg).db == Step(w.db, t.event.script, t.now).0
  {
    hide Step;
  }

  lemma ScriptOf(s: State, script: Script, now: int)
    ensures Live(s, now).waiting == s.waiting
    ensures script.RemoveQueued? ==> Step(s, script, now) == RemoveScript(Live(s, now), script.name)
    ensures script.AcquireFence? ==>
              Step(s, script, now) == AcquireScript(Live(s, now), script.name, script.token, script.workerTtl, script.scanLimit, script.ttlMs, now)
  {
    hide RemoveScript, AcquireScript;
  }

  lemma UnsharedLive(s: State, name: RunName, now: int)
    ensures Unshared(Live(s, now), name) <==> Unshared(s, name)
  {
  }

  /** Every permitted event keeps the invariant, except the hazard and an event under
      a colliding name, and those never do. */
  lemma NextKeepsExactly(w: World, t: Timed, cfg: Config)
    requires Invariant(w, cfg) && cfg.maxAttempts >= 1 && Permitted(w, t.event, cfg)
    ensures Invariant(Next(w, t, cfg), cfg) <==> !Hazard(w, t, cfg) && !Collides(w, t)
  {
    hide Invariant, Hazard, Collides;
    if Hazard(w, t, cfg) {
      HazardBreaks(w, t, cfg);
    } else if Collides(w, t) {
      CollisionBreaks(w, t, cfg);
    } else if t.event.Reclaim? {
      ReclaimStep(w, t, cfg);
    } else if t.event.Call? {
      CallStep(w, t.event.script, t.now, cfg);
    } else {
      ReadStep(w, t, cfg);
    }
  }

  /** Distinct fields rule out collisions. */
  lemma NeverCollides(w: World, t: Timed, cfg: Config)
    requires Named(w.db, cfg.names) && Unambiguous(cfg.names) && Permitted(w, t.event, cfg)
    ensures !Collides(w, t)
  {
    hide Step;
    if t.event.Call? && t.event.script.AcquireFence? && Step(w.db, t.event.script, t.now).1.Claimed? {
      ClaimedUnowned(w.db, t.event.script, t.now);
    }
  }

  lemma ClaimedUnowned(s: State, script: Script, now: int)
    requires script.AcquireFence? && Step(s, script, now).1.Claimed?
    ensures forall r :: r in s.processing ==> r.name != script.name
  {
    hide RowBlocks;
  }

  /** With distinct fields the hazard is the only event that breaks the invariant. */
  lemma NextKeepsIff(w: World, t: Timed, cfg: Config)
    requires Invariant(w, cfg) && Sound(cfg) && Permitted(w, t.event, cfg)
    ensures Invariant(Next(w, t, cfg), cfg) <==> !Hazard(w, t, cfg)
  {
    NeverCollides(w, t, cfg);
    hide Invariant, Hazard, Collides;
    NextKeepsExactly(w, t, cfg);
  }

  lemma StartHolds(cfg: Config)
    ensures Invariant(START, cfg)
  {
  }

  lemma {:induction false} InvariantFrom(w: World, run: seq<Timed>, cfg: Config)
    requires Invariant(w, cfg) && Sound(cfg) && Legal(w, run, cfg) && Calm(w, run, cfg)
    ensures Invariant(After(w, run, cfg), cfg)
    decreases |run|
  {
    hide Invariant, Hazard;
    if run != [] {
      NextKeepsIff(w, run[0], cfg);
      InvariantFrom(Next(w, run[0], cfg), run[1..], cfg);
    }
  }

  /** Every world a calm run reaches satisfies the invariant. */
  lemma InvariantAlways(run: seq<Timed>, cfg: Config)
    requires Sound(cfg) && Legal(START, run, cfg) && Calm(START, run, cfg)
    ensures Invariant(After(START, run, cfg), cfg)
  {
    StartHolds(cfg);
    InvariantFrom(START, run, cfg);
  }
}

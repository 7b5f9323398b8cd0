/** The books of every run, the hazard and colliding names included: what was admitted
    equals what waits, is processed or was settled, up to exactly the settlements of
    messages that were not being processed. */
module RunQueueBalance {
  import opened Sequences
  import opened RunQueueScripts
  import opened RunQueueCoherence
  import opened RunQueueWorld
  import opened RunQueueInvariant
  import opened RunQueueSteady

  // ---- What a script does to the two lists -----------------------------------------------------------

  ghost predicate ListsStay(s: State, s': State) {
    s'.waiting.list == s.waiting.list && s'.processing == s.processing
  }

  ghost predicate Leaves(s: State, raw: Raw, s': State) {
    s'.waiting.list == s.waiting.list && s'.processing == RemoveFirst(s.processing, raw)
  }

  ghost predicate LeavesQueue(s: State, raw: Raw, s': State) {
    raw in s.waiting.list && multiset(s'.waiting.list) == multiset(s.waiting.list) - multiset{raw}
  }

  ghost predicate Moves(s: State, script: Script, reply: Reply, s': State) {
    match script
    case Enqueue(raw) =>
      s'.processing == s.processing && s'.waiting.list == if reply.Enqueued? then s.waiting.list + [raw] else s.waiting.list
    case RemoveQueued(_) => s'.processing == s.processing && multiset(s'.waiting.list) <= multiset(s.waiting.list)
    case LeaseAt(raw, _, _, _, _, _) =>
      if reply.Leased? then LeavesQueue(s, raw, s') && s'.processing == [raw] + s.processing else ListsStay(s, s')
    case DeadLetterInvalid(raw, _, _) =>
      if reply.DeadLettered? then LeavesQueue(s, raw, s') && s'.processing == s.processing else ListsStay(s, s')
    case Requeue(raw, _, _, _, _) =>
      if reply.Requeued?
      then raw in s.processing && s'.waiting.list == s.waiting.list + [raw] && s'.processing == RemoveFirst(s.processing, raw)
      else ListsStay(s, s')
    case DeadLetterExpired(raw, _, _, _, _, _) => if reply.DeadLettered? then Leaves(s, raw, s') else ListsStay(s, s')
    case Ack(raw, _) => if reply.Acked? then Leaves(s, raw, s') else ListsStay(s, s')
    case Fail(raw, _, _, _) => if reply.Failed? then Leaves(s, raw, s') else ListsStay(s, s')
    case _ => ListsStay(s, s')
  }

  lemma TakenOut(list: seq<Raw>, position: nat)
    requires position < |list|
    ensures multiset(RemoveAt(list, position)) == multiset(list) - multiset{list[position]} && list[position] in list
  {
    assert list == list[..position] + [list[position]] + list[position + 1..];
  }

  lemma QueueMoves(s: State, script: Script, now: int)
    requires script.Enqueue? || script.RemoveQueued?
    ensures Moves(s, script, Step(s, script, now).1, Step(s, script, now).0)
  {
    hide KnownWaiting, IsFenced, ZRank, Rowless;
    if script.RemoveQueued? && Field(script.name) in s.waiting.index {
      DrainSplits(s.waiting.list, RowsOf(s.waiting, Matched(s.waiting, script.name)));
      hide Drain;
    }
  }

  lemma HeadMoves(s: State, script: Script, now: int)
    requires script.LeaseAt? || script.DeadLetterInvalid?
    ensures Moves(s, script, Step(s, script, now).1, Step(s, script, now).0)
  {
    hide IsFenced, QuotaOpen, CapacityOpen, Unindex, UnindexByRow, NextAttempt, LeavesQueue;
    if AtHead(s.waiting, script.raw, script.position) {
      HeadLeaves(s, script.raw, script.position, Step(s, script, now).0);
    }
  }

  lemma HeadLeaves(s: State, raw: Raw, position: nat, s': State)
    requires AtHead(s.waiting, raw, position)
    ensures s'.waiting.list == RemoveAt(s.waiting.list, position) ==> LeavesQueue(s, raw, s')
  {
    TakenOut(s.waiting.list, position);
    hide RemoveAt;
  }

  lemma ReclaimMovesLists(s: State, script: Script, now: int)
    requires IsReclaim(script)
    ensures Moves(s, script, Step(s, script, now).1, Step(s, script, now).0)
  {
    var u := Live(s, now);
    GuardRestamps(u, script.raw, script.attempt, script.owner, script.visibility, now);
    hide ReclaimGuard, SameLeases, RemoveFirst, Live;
    LiveLists(s, now);
    if script.Requeue? { PushShape(s.waiting, script.raw); }
    hide Push;
  }

  lemma LiveLists(s: State, now: int)
    ensures Live(s, now).waiting == s.waiting && Live(s, now).processing == s.processing && ListsStay(s, Live(s, now))
  {
  }

  lemma SettleMovesLists(s: State, script: Script, now: int)
    requires script.Ack? || script.Fail?
    ensures Moves(s, script, Step(s, script, now).1, Step(s, script, now).0)
  {
    hide AckScript, FailScript, Leaves, ListsStay, Live;
    var u := Live(s, now);
    LiveLists(s, now);
    if script.Ack? {
      AckMoves(s, u, script.raw, script.handle);
    } else {
      FailMoves(s, u, script.raw, script.handle, script.code, script.worker);
    }
  }

  lemma AckMoves(s: State, u: State, raw: Raw, handle: Handle)
    requires ListsStay(s, u)
    ensures var (s', reply) := AckScript(u, raw, handle);
            if reply.Acked? then Leaves(s, raw, s') else ListsStay(s, s')
  {
    hide RemoveFirst, IsCurrent, IsFenced;
  }

  lemma FailMoves(s: State, u: State, raw: Raw, handle: Handle, code: string, worker: string)
    requires ListsStay(s, u)
    ensures var (s', reply) := FailScript(u, raw, handle, code, worker);
            if reply.Failed? then Leaves(s, raw, s') else ListsStay(s, s')
  {
    hide RemoveFirst, IsCurrent, IsFenced;
  }

  lemma StepMovesLists(s: State, script: Script, now: int)
    ensures Moves(s, script, Step(s, script, now).1, Step(s, script, now).0)
  {
    hide Step, Moves;
    if script.Enqueue? || script.RemoveQueued? {
      QueueMoves(s, script, now);
    } else if script.LeaseAt? || script.DeadLetterInvalid? {
      HeadMoves(s, script, now);
    } else if IsReclaim(script) {
      ReclaimMovesLists(s, script, now);
    } else if script.Ack? || script.Fail? {
      SettleMovesLists(s, script, now);
    } else {
      OthersMoveNothing(s, script, now);
    }
  }

  lemma OthersMoveNothing(s: State, script: Script, now: int)
    requires TouchesNoRow(script) || script.Heartbeat?
    ensures Moves(s, script, Step(s, script, now).1, Step(s, script, now).0)
  {
    if script.Heartbeat? {
      HeartbeatEffect(Live(s, now), script.handle, script.worker, now);
      hide HeartbeatScript, RowsFrom;
    } else {
      QuietShape(s, script, now);
      hide Step;
    }
  }

  // ---- The books --------------------------------------------------------------------------------------

  /** Waiting, being processed and settled: the admissions, and `extra` beyond them. */
  ghost predicate Balanced(w: World, extra: multiset<Raw>) {
    w.admitted + extra == multiset(w.db.waiting.list) + multiset(w.db.processing) + w.settled
  }

  /** A settlement of a message that is not being processed: its LREM takes nothing out. */
  predicate SettlesAbsent(s: State, script: Script, now: int) {
    && Settling(script)
    && Settles(script, Step(s, script, now).1) && script.raw !in s.processing
  }

  function Surplus(s: State, script: Script, now: int): multiset<Raw> {
    if SettlesAbsent(s, script, now) then multiset{script.raw} else multiset{}
  }

  predicate Settling(script: Script) {
    script.Ack? || script.Fail? || script.DeadLetterExpired?
  }

  lemma PerformBalances(w: World, script: Script, now: int, extra: multiset<Raw>)
    requires Balanced(w, extra)
    ensures Balanced(Perform(w, script, now), extra + Surplus(w.db, script, now))
  {
    hide Perform, Balanced, Surplus;
    if Settling(script) { SettlingBalances(w, script, now, extra); } else { MovingBalances(w, script, now, extra); }
  }

  lemma SettlingBalances(w: World, script: Script, now: int, extra: multiset<Raw>)
    requires Balanced(w, extra) && Settling(script)
    ensures Balanced(Perform(w, script, now), extra + Surplus(w.db, script, now))
  {
    StepMovesLists(w.db, script, now);
    hide Step, RemoveFirst, Balanced, Leaves, ListsStay;
    var w', reply := Perform(w, script, now), Step(w.db, script, now).1;
    if Settles(script, reply) {
      SettleBalances(w, script.raw, w', extra);
    } else {
      StayBalances(w, w', extra);
      assert extra + multiset{} == extra;
    }
  }

  lemma MovingBalances(w: World, script: Script, now: int, extra: multiset<Raw>)
    requires Balanced(w, extra) && !Settling(script)
    ensures Balanced(Perform(w, script, now), extra + Surplus(w.db, script, now))
  {
    StepMovesLists(w.db, script, now);
    assert Surplus(w.db, script, now) == multiset{} && extra + multiset{} == extra;
    hide Step, RemoveFirst, Balanced, LeavesQueue, ListsStay, Surplus;
    var w', reply := Perform(w, script, now), Step(w.db, script, now).1;
    match script {
      case Enqueue(raw) => EnqueueBalances(w, raw, reply.Enqueued?, w', extra);
      case RemoveQueued(_) => RemoveBalances(w, w', extra);
      case LeaseAt(raw, _, _, _, _, _) => if reply.Leased? { LeaseBalances(w, raw, w', extra); } else { StayBalances(w, w', extra); }
      case DeadLetterInvalid(raw, _, _) => if reply.DeadLettered? { DiscardBalances(w, raw, w', extra); } else { StayBalances(w, w', extra); }
      case Requeue(raw, _, _, _, _) => if reply.Requeued? { RequeueBalances(w, raw, w', extra); } else { StayBalances(w, w', extra); }
      case _ => StayBalances(w, w', extra);
    }
  }

  lemma StayBalances(w: World, w': World, extra: multiset<Raw>)
    requires Balanced(w, extra) && ListsStay(w.db, w'.db) && w'.admitted == w.admitted && w'.settled == w.settled
    ensures Balanced(w', extra)
  {
  }

  lemma EnqueueBalances(w: World, raw: Raw, admitted: bool, w': World, extra: multiset<Raw>)
    requires Balanced(w, extra) && w'.db.processing == w.db.processing && w'.settled == w.settled
    requires w'.db.waiting.list == if admitted then w.db.waiting.list + [raw] else w.db.waiting.list
    requires w'.admitted == if admitted then w.admitted + multiset{raw} else w.admitted
    ensures Balanced(w', extra)
  {
    SumIn(w.admitted, extra, multiset(w.db.waiting.list), multiset(w.db.processing), w.settled, multiset{raw});
  }

  lemma SumIn<T>(a: multiset<T>, x: multiset<T>, w: multiset<T>, p: multiset<T>, s: multiset<T>, r: multiset<T>)
    requires a + x == w + p + s
    ensures a + r + x == w + r + p + s
  {
    assert a + r + x == a + x + r;
  }

  lemma SumOut<T>(a: multiset<T>, x: multiset<T>, w: multiset<T>, p: multiset<T>, s: multiset<T>, r: multiset<T>)
    requires a + x == w + p + s
    ensures a + (x + r) == w + p + (s + r)
    ensures r <= p ==> a + x == w + (p - r) + (s + r)
  {
    assert a + (x + r) == a + x + r;
    if r <= p { assert p == p - r + r; }
  }

  lemma RemoveBalances(w: World, w': World, extra: multiset<Raw>)
    requires Balanced(w, extra) && w'.db.processing == w.db.processing && w'.admitted == w.admitted
    requires multiset(w'.db.waiting.list) <= multiset(w.db.waiting.list)
    requires w'.settled == w.settled + (multiset(w.db.waiting.list) - multiset(w'.db.waiting.list))
    ensures Balanced(w', extra)
  {
  }

  lemma DiscardBalances(w: World, raw: Raw, w': World, extra: multiset<Raw>)
    requires Balanced(w, extra) && LeavesQueue(w.db, raw, w'.db) && w'.db.processing == w.db.processing
    requires w'.admitted == w.admitted && w'.settled == w.settled + multiset{raw}
    ensures Balanced(w', extra)
  {
  }

  lemma SettleBalances(w: World, raw: Raw, w': World, extra: multiset<Raw>)
    requires Balanced(w, extra) && Leaves(w.db, raw, w'.db)
    requires w'.admitted == w.admitted && w'.settled == w.settled + multiset{raw}
    ensures Balanced(w', extra + if raw in w.db.processing then multiset{} else multiset{raw})
  {
    SumOut(w.admitted, extra, multiset(w.db.waiting.list), multiset(w.db.processing), w.settled, multiset{raw});
    assert extra + multiset{} == extra;
    hide RemoveFirst;
  }

  lemma RequeueBalances(w: World, raw: Raw, w': World, extra: multiset<Raw>)
    requires Balanced(w, extra) && raw in w.db.processing && w'.admitted == w.admitted && w'.settled == w.settled
    requires w'.db.waiting.list == w.db.waiting.list + [raw] && w'.db.processing == RemoveFirst(w.db.processing, raw)
    ensures Balanced(w', extra)
  {
  }

  lemma LeaseBalances(w: World, raw: Raw, w': World, extra: multiset<Raw>)
    requires Balanced(w, extra) && w'.admitted == w.admitted && w'.settled == w.settled
    requires LeavesQueue(w.db, raw, w'.db) && w'.db.processing == [raw] + w.db.processing
    ensures Balanced(w', extra)
  {
  }

  /** What one event settles without taking it out. */
  function EventSurplus(w: World, t: Timed, cfg: Config): multiset<Raw>
    requires Permitted(w, t.event, cfg)
  {
    match t.event
    case Call(script) => Surplus(w.db, script, t.now)
    case Reclaim(who) => Surplus(w.db, Verdict(w.reclaimers[who], cfg), t.now)
    case _ => multiset{}
  }

  lemma NextBalances(w: World, t: Timed, cfg: Config, extra: multiset<Raw>)
    requires Permitted(w, t.event, cfg) && Balanced(w, extra)
    ensures Balanced(Next(w, t, cfg), extra + EventSurplus(w, t, cfg))
  {
    hide Perform, Surplus;
    if t.event.Call? {
      PerformBalances(w, t.event.script, t.now, extra);
    } else if t.event.Reclaim? {
      PerformBalances(w, Verdict(w.reclaimers[t.event.who], cfg), t.now, extra);
    } else {
      assert extra + multiset{} == extra;
    }
  }

  /** An event keeps conservation exactly when it settles no message that is not being
      processed. */
  lemma NextConservesIff(w: World, t: Timed, cfg: Config)
    requires Permitted(w, t.event, cfg) && Conserved(w)
    ensures Conserved(Next(w, t, cfg)) <==> EventSurplus(w, t, cfg) == multiset{}
  {
    hide Next, EventSurplus;
    assert w.admitted + multiset{} == w.admitted;
    NextBalances(w, t, cfg, multiset{});
    var w', extra := Next(w, t, cfg), EventSurplus(w, t, cfg);
    assert multiset{} + extra == extra;
    assert |w'.admitted + extra| == |w'.admitted| + |extra|;
    if extra == multiset{} { assert w'.admitted + extra == w'.admitted; }
  }

  /** The surplus of a whole run. */
  ghost function RunSurplus(w: World, run: seq<Timed>, cfg: Config): multiset<Raw>
    requires Legal(w, run, cfg)
    decreases |run|
  {
    if run == [] then multiset{} else EventSurplus(w, run[0], cfg) + RunSurplus(Next(w, run[0], cfg), run[1..], cfg)
  }

  lemma {:induction false} RunBalances(w: World, run: seq<Timed>, cfg: Config, extra: multiset<Raw>)
    requires Legal(w, run, cfg) && Balanced(w, extra)
    ensures Balanced(After(w, run, cfg), extra + RunSurplus(w, run, cfg))
    decreases |run|
  {
    hide Next, EventSurplus, Balanced;
    if run == [] {
      assert extra + multiset{} == extra;
    } else {
      var here := EventSurplus(w, run[0], cfg);
      NextBalances(w, run[0], cfg, extra);
      RunBalances(Next(w, run[0], cfg), run[1..], cfg, extra + here);
      assert extra + here + RunSurplus(Next(w, run[0], cfg), run[1..], cfg) == extra + RunSurplus(w, run, cfg);
    }
  }

  /** The books of every legal run, whatever the names and whatever reclaimers do: the
      settlements exceed what conservation allows by exactly the settlements of
      messages that were not being processed. */
  lemma BooksBalance(run: seq<Timed>, cfg: Config)
    requires Legal(START, run, cfg)
    ensures Balanced(After(START, run, cfg), RunSurplus(START, run, cfg))
    ensures Conserved(After(START, run, cfg)) <==> RunSurplus(START, run, cfg) == multiset{}
  {
    hide Legal, After, RunSurplus;
    assert Balanced(START, multiset{});
    RunBalances(START, run, cfg, multiset{});
    var w, extra := After(START, run, cfg), RunSurplus(START, run, cfg);
    assert multiset{} + extra == extra;
    assert |w.admitted + extra| == |w.admitted| + |extra|;
    if extra == multiset{} { assert w.admitted + extra == w.admitted; }
  }

  /** Message by message, with distinct fields: admissions and surplus settlements are
      settled or are the one live copy. A calm run has no surplus. */
  lemma AdmissionsAccounted(run: seq<Timed>, cfg: Config, raw: Raw)
    requires Sound(cfg) && Legal(START, run, cfg)
    ensures var w := After(START, run, cfg);
            && !(raw in w.db.waiting.list && raw in w.db.processing)
            && w.admitted[raw] + RunSurplus(START, run, cfg)[raw] ==
               w.settled[raw] + (if raw in w.db.waiting.list || raw in w.db.processing then 1 else 0)
    ensures Calm(START, run, cfg) ==> RunSurplus(START, run, cfg) == multiset{}
  {
    hide Legal, After, RunSurplus, Calm, Sound, Steady;
    BooksBalance(run, cfg);
    SteadyAlways(run, cfg);
    OneCopy(After(START, run, cfg), raw, cfg);
    if Calm(START, run, cfg) {
      InvariantAlways(run, cfg);
      InvariantConserves(After(START, run, cfg), cfg);
    }
    var w, extra := After(START, run, cfg), RunSurplus(START, run, cfg);
    assert (w.admitted + extra)[raw] == (multiset(w.db.waiting.list) + multiset(w.db.processing) + w.settled)[raw];
  }

  lemma OneCopy(w: World, raw: Raw, cfg: Config)
    requires Steady(w, cfg)
    ensures !(raw in w.db.waiting.list && raw in w.db.processing)
    ensures multiset(w.db.waiting.list)[raw] == if raw in w.db.waiting.list then 1 else 0
    ensures multiset(w.db.processing)[raw] == if raw in w.db.processing then 1 else 0
  {
    hide Ledger, Named, IndexOk, FencesOk;
    NoDupCount(w.db.waiting.list, raw);
    NoDupCount(w.db.processing, raw);
  }

  lemma InvariantConserves(w: World, cfg: Config)
    requires Invariant(w, cfg)
    ensures Conserved(w)
  {
  }
}

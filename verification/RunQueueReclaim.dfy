/** One pass of reclaim_expired_leases on the stored structures: it lists the
    processing entries, reads the rows of each at its own pace, and sends the script
    it decided on, while other clients do what they like between any two of its
    calls. */
module RunQueueReclaim {
  import opened Options
  import opened RunQueueScripts
  import opened RunQueueWorld
  import opened RunQueueSteady
  import opened RunQueueStore

  /** An event, the script it runs if any, and whether it is one of the pass. */
  datatype Move = Move(t: Timed, script: Option<Script>, mine: bool)

  /** What one move does to the structures, and what its script replies. */
  function Effect(s: State, m: Move): (State, Reply) {
    if m.script.Some? then Step(s, m.script.value, m.t.now) else (s, Done)
  }

  /** What the moves do to the structures. */
  function Replay(s: State, moves: seq<Move>): State
    decreases |moves|
  {
    if moves == [] then s
    else Replay(Effect(s, moves[0]).0, moves[1..])
  }

  function ScriptFor(w: World, event: Event, cfg: Config): Option<Script>
    requires Permitted(w, event, cfg)
  {
    match event
    case Call(script) => Some(script)
    case Reclaim(who) => Some(Verdict(w.reclaimers[who], cfg))
    case _ => None
  }

  /** The move is a permitted event and runs the script that belongs to it. */
  predicate Truthful(w: World, m: Move, cfg: Config) {
    Permitted(w, m.t.event, cfg) && m.script == ScriptFor(w, m.t.event, cfg)
  }

  ghost predicate AllTruthful(w: World, moves: seq<Move>, cfg: Config)
    decreases |moves|
  {
    moves == [] || (Truthful(w, moves[0], cfg) && AllTruthful(Next(w, moves[0].t, cfg), moves[1..], cfg))
  }

  ghost function Result(w: World, moves: seq<Move>, cfg: Config): World
    requires AllTruthful(w, moves, cfg)
    decreases |moves|
  {
    if moves == [] then w else Result(Next(w, moves[0].t, cfg), moves[1..], cfg)
  }

  predicate ActsFor(event: Event, me: nat) {
    (event.ListProcessing? || event.ReadLease? || event.ReadRetry? || event.Reclaim?) && event.who == me
  }

  /** The other clients keep the rules, as long as the pass does. */
  ghost predicate Fair(w: World, moves: seq<Move>, cfg: Config)
    decreases |moves|
  {
    moves == [] ||
    (&& (!moves[0].mine ==> Truthful(w, moves[0], cfg))
     && (Truthful(w, moves[0], cfg) ==> Fair(Next(w, moves[0].t, cfg), moves[1..], cfg)))
  }

  predicate Others(moves: seq<Move>, me: nat) {
    forall i :: 0 <= i < |moves| ==> !moves[i].mine && !ActsFor(moves[i].t.event, me)
  }

  function Events(moves: seq<Move>): (run: seq<Timed>)
    ensures |run| == |moves|
  {
    if moves == [] then [] else [moves[0].t] + Events(moves[1..])
  }

  // ---- Moves and runs --------------------------------------------------------------------------------

  lemma {:induction false} ReplayConcat(s: State, a: seq<Move>, b: seq<Move>)
    ensures Replay(s, a + b) == Replay(Replay(s, a), b)
    decreases |a|
  {
    hide Effect;
    if a == [] {
      assert a + b == b;
    } else {
      assert (a + b)[1..] == a[1..] + b;
      ReplayConcat(Effect(s, a[0]).0, a[1..], b);
    }
  }

  lemma ReplayOne(s: State, m: Move)
    ensures Replay(s, [m]) == Effect(s, m).0
  {
    hide Effect;
    assert [m][1..] == [];
  }

  lemma {:induction false} TruthfulConcat(w: World, a: seq<Move>, b: seq<Move>, cfg: Config)
    requires AllTruthful(w, a, cfg) && AllTruthful(Result(w, a, cfg), b, cfg)
    ensures AllTruthful(w, a + b, cfg) && Result(w, a + b, cfg) == Result(Result(w, a, cfg), b, cfg)
    decreases |a|
  {
    hide Permitted, Next;
    if a == [] {
      assert a + b == b;
    } else {
      assert (a + b)[1..] == a[1..] + b;
      TruthfulConcat(Next(w, a[0].t, cfg), a[1..], b, cfg);
    }
  }

  lemma {:induction false} FairConcat(w: World, a: seq<Move>, b: seq<Move>, cfg: Config)
    requires Fair(w, a + b, cfg)
    ensures Fair(w, a, cfg)
    ensures AllTruthful(w, a, cfg) ==> Fair(Result(w, a, cfg), b, cfg)
    decreases |a|
  {
    hide Permitted, Next;
    if a == [] {
      assert a + b == b;
    } else {
      assert (a + b)[0] == a[0] && (a + b)[1..] == a[1..] + b;
      if Truthful(w, a[0], cfg) { FairConcat(Next(w, a[0].t, cfg), a[1..], b, cfg); }
    }
  }

  lemma NextRuns(w: World, m: Move, cfg: Config)
    requires Truthful(w, m, cfg)
    ensures Next(w, m.t, cfg).db == Effect(w.db, m).0
  {
    hide Step;
  }

  /** Truthful moves are a legal run with the effect of their scripts. */
  lemma {:induction false} MovesAreRun(w: World, moves: seq<Move>, cfg: Config)
    requires AllTruthful(w, moves, cfg)
    ensures Legal(w, Events(moves), cfg) && After(w, Events(moves), cfg) == Result(w, moves, cfg)
    ensures Result(w, moves, cfg).db == Replay(w.db, moves)
    decreases |moves|
  {
    hide Next, Effect;
    if moves != [] {
      NextRuns(w, moves[0], cfg);
      hide Truthful;
      MovesAreRun(Next(w, moves[0].t, cfg), moves[1..], cfg);
      assert Events(moves)[1..] == Events(moves[1..]);
      assert Permitted(w, moves[0].t.event, cfg) by { TruthfulPermitted(w, moves[0], cfg); }
    }
  }

  lemma TruthfulPermitted(w: World, m: Move, cfg: Config)
    requires Truthful(w, m, cfg)
    ensures Permitted(w, m.t.event, cfg)
  {
  }

  // ---- Where the pass stands ---------------------------------------------------------------------------

  /** Among fair clients everything so far was truthful and the pass is at `r`. */
  ghost predicate Stands(w: World, moves: seq<Move>, me: nat, cfg: Config, r: Reclaimer) {
    Fair(w, moves, cfg) ==>
      && AllTruthful(w, moves, cfg)
      && me in Result(w, moves, cfg).reclaimers && Result(w, moves, cfg).reclaimers[me] == r
  }

  lemma {:induction false} OthersStay(w: World, batch: seq<Move>, me: nat, cfg: Config)
    requires Fair(w, batch, cfg) && Others(batch, me) && me in w.reclaimers
    ensures AllTruthful(w, batch, cfg)
    ensures me in Result(w, batch, cfg).reclaimers && Result(w, batch, cfg).reclaimers[me] == w.reclaimers[me]
    decreases |batch|
  {
    hide Truthful, Step;
    if batch != [] {
      TruthfulPermitted(w, batch[0], cfg);
      OtherEvent(w, batch[0].t, me, cfg);
      hide Next;
      OthersStay(Next(w, batch[0].t, cfg), batch[1..], me, cfg);
    }
  }

  lemma OtherEvent(w: World, t: Timed, me: nat, cfg: Config)
    requires Permitted(w, t.event, cfg) && !ActsFor(t.event, me) && me in w.reclaimers
    ensures me in Next(w, t, cfg).reclaimers && Next(w, t, cfg).reclaimers[me] == w.reclaimers[me]
  {
    hide Step;
  }

  lemma PeersKeep(w: World, moves: seq<Move>, batch: seq<Move>, me: nat, cfg: Config, r: Reclaimer)
    requires Stands(w, moves, me, cfg, r) && Others(batch, me)
    ensures Stands(w, moves + batch, me, cfg, r)
  {
    hide Fair, AllTruthful, Others, Result;
    if Fair(w, moves + batch, cfg) {
      FairConcat(w, moves, batch, cfg);
      OthersStay(Result(w, moves, cfg), batch, me, cfg);
      TruthfulConcat(w, moves, batch, cfg);
    }
  }

  /** What the pass does next from `r`, on structures `s`, and where that leads. */
  predicate Proceeds(s: State, r: Reclaimer, m: Move, me: nat, cfg: Config, r': Reclaimer) {
    match m.t.event
    case ReadLease(who, checkedAt) =>
      && who == me && r.Scanning? && r.todo != [] && m.script == None
      && r' == AfterReadLease(s, r.todo[0], r.todo[1..], checkedAt, cfg)
    case ReadRetry(who) => who == me && r.NoLease? && m.script == None && r' == AfterReadRetry(s, r.raw, r.todo, cfg)
    case Reclaim(who) => who == me && r.Decided? && m.script == Some(Verdict(r, cfg)) && r' == Scanning(r.todo)
    case Call(script) => script.TrimDeadLetters? && m.script == Some(script) && r' == r
    case ListProcessing(_) => false
  }

  lemma ProceedsNext(w: World, r: Reclaimer, m: Move, me: nat, cfg: Config, r': Reclaimer)
    requires me in w.reclaimers && w.reclaimers[me] == r && Proceeds(w.db, r, m, me, cfg, r')
    ensures Truthful(w, m, cfg)
    ensures me in Next(w, m.t, cfg).reclaimers && Next(w, m.t, cfg).reclaimers[me] == r'
  {
    hide Step;
  }

  lemma ResultOne(w: World, m: Move, cfg: Config)
    requires Truthful(w, m, cfg)
    ensures AllTruthful(w, [m], cfg) && Result(w, [m], cfg) == Next(w, m.t, cfg)
  {
    hide Next, Permitted;
    assert [m][1..] == [];
  }

  lemma OwnKeeps(w: World, moves: seq<Move>, m: Move, me: nat, cfg: Config, r: Reclaimer, r': Reclaimer)
    requires Stands(w, moves, me, cfg, r) && Proceeds(Replay(w.db, moves), r, m, me, cfg, r')
    ensures Stands(w, moves + [m], me, cfg, r')
  {
    if Fair(w, moves + [m], cfg) {
      FairConcat(w, moves, [m], cfg);
      MovesAreRun(w, moves, cfg);
      var u := Result(w, moves, cfg);
      ProceedsNext(u, r, m, me, cfg, r');
      ResultOne(u, m, cfg);
      hide Truthful, Proceeds, Next, Fair, Replay, AllTruthful, Result;
      TruthfulConcat(w, moves, [m], cfg);
    }
  }

  lemma Lists(w: World, me: nat, cfg: Config, now: int)
    ensures Stands(w, [Move(At(ListProcessing(me), now), None, true)], me, cfg, Scanning(w.db.processing))
  {
    var m := Move(At(ListProcessing(me), now), None, true);
    assert [m][1..] == [];
  }

  // ---- The pass ------------------------------------------------------------------------------------------

  /** Other clients' moves, one after the other. */
  method Interleave(store: Store, batch: seq<Move>)
    modifies store
    ensures store.Snapshot() == Replay(old(store.Snapshot()), batch)
  {
    hide Step;
    ghost var s := store.Snapshot();
    for i := 0 to |batch|
      invariant store.Snapshot() == Replay(s, batch[..i])
    {
      if batch[i].script.Some? {
        var reply := store.Perform(batch[i].script.value, batch[i].t.now);
      }
      assert batch[..i + 1] == batch[..i] + [batch[i]];
      ReplayConcat(s, batch[..i], [batch[i]]);
      ReplayOne(Replay(s, batch[..i]), batch[i]);
    }
    assert batch[..|batch|] == batch;
  }

  /** Times of the pass's calls, what the others do before each of them, and the
      retention of dead letters. */
  datatype Surroundings = Surroundings(clock: nat -> int, peers: nat -> seq<Move>, keep: nat)

  /** The replies the pass counts. */
  function Tally(s: State, moves: seq<Move>): (nat, nat)
    decreases |moves|
  {
    if moves == [] then (0, 0)
    else
      var (db, reply) := Effect(s, moves[0]);
      var rest := Tally(db, moves[1..]);
      (rest.0 + (if moves[0].mine && reply.Requeued? then 1 else 0), rest.1 + (if moves[0].mine && reply.DeadLettered? then 1 else 0))
  }

  lemma {:induction false} TallyConcat(s: State, a: seq<Move>, b: seq<Move>)
    ensures Tally(s, a + b) == (Tally(s, a).0 + Tally(Replay(s, a), b).0, Tally(s, a).1 + Tally(Replay(s, a), b).1)
    decreases |a|
  {
    hide Effect;
    if a == [] {
      assert a + b == b;
    } else {
      assert (a + b)[0] == a[0] && (a + b)[1..] == a[1..] + b;
      TallyConcat(Effect(s, a[0]).0, a[1..], b);
    }
  }

  lemma {:induction false} PeersUntallied(s: State, batch: seq<Move>, me: nat)
    requires Others(batch, me)
    ensures Tally(s, batch) == (0, 0)
    decreases |batch|
  {
    hide Effect;
    if batch != [] {
      PeersUntallied(Effect(s, batch[0]).0, batch[1..], me);
    }
  }

  /** Everything known of the pass after its moves so far. */
  ghost predicate Sofar(store: Store, s: State, w: World, moves: seq<Move>, me: nat, cfg: Config, r: Reclaimer, counts: (nat, nat))
    reads store
  {
    store.Snapshot() == Replay(s, moves) && w.db == s && Stands(w, moves, me, cfg, r) && counts == Tally(s, moves)
  }

  /** The others have their turn. */
  method Yield(store: Store, ghost s: State, ghost w: World, ghost moves: seq<Move>, batch: seq<Move>, ghost me: nat, ghost cfg: Config,
               ghost r: Reclaimer, ghost counts: (nat, nat)) returns (ghost moves': seq<Move>)
    requires Sofar(store, s, w, moves, me, cfg, r, counts) && Others(batch, me)
    modifies store
    ensures moves' == moves + batch && Sofar(store, s, w, moves', me, cfg, r, counts)
  {
    hide Stands, Others, Replay, Tally;
    Interleave(store, batch);
    ReplayConcat(s, moves, batch);
    TallyConcat(s, moves, batch);
    PeersUntallied(Replay(s, moves), batch, me);
    PeersKeep(w, moves, batch, me, cfg, r);
    moves' := moves + batch;
  }

  /** A read of the pass: nothing changes. */
  lemma Reads(store: Store, s: State, w: World, moves: seq<Move>, m: Move, me: nat, cfg: Config, r: Reclaimer, r': Reclaimer, counts: (nat, nat))
    requires Sofar(store, s, w, moves, me, cfg, r, counts)
    requires m.script == None && Proceeds(store.Snapshot(), r, m, me, cfg, r')
    ensures Sofar(store, s, w, moves + [m], me, cfg, r', counts)
  {
    hide Stands, Replay, Tally, Proceeds;
    ReplayConcat(s, moves, [m]);
    ReplayOne(Replay(s, moves), m);
    TallyConcat(s, moves, [m]);
    TallyRead(Replay(s, moves), m);
    OwnKeeps(w, moves, m, me, cfg, r, r');
  }

  /** The script the pass decided on, and the trim after a dead letter. */
  method Send(store: Store, ghost s: State, ghost w: World, ghost moves: seq<Move>, ghost me: nat, cfg: Config, decided: Reclaimer,
              now: int, keep: nat, counts: (nat, nat)) returns (counts': (nat, nat), ghost moves': seq<Move>)
    requires decided.Decided? && Sofar(store, s, w, moves, me, cfg, decided, counts)
    modifies store
    ensures Sofar(store, s, w, moves', me, cfg, Scanning(decided.todo), counts')
  {
    hide Stands, Replay, Step, Tally;
    var script := Verdict(decided, cfg);
    ghost var m := Move(At(Reclaim(me), now), Some(script), true);
    var reply := store.Perform(script, now);
    ReplayConcat(s, moves, [m]);
    ReplayOne(Replay(s, moves), m);
    TallyConcat(s, moves, [m]);
    TallyOne(Replay(s, moves), m);
    OwnKeeps(w, moves, m, me, cfg, decided, Scanning(decided.todo));
    moves' := moves + [m];
    counts' := (counts.0 + (if reply.Requeued? then 1 else 0), counts.1 + (if reply.DeadLettered? then 1 else 0));
    if reply.DeadLettered? {
      ghost var trim := Move(At(Call(TrimDeadLetters(keep)), now), Some(TrimDeadLetters(keep)), true);
      var done := store.Perform(TrimDeadLetters(keep), now);
      ReplayConcat(s, moves', [trim]);
      ReplayOne(Replay(s, moves'), trim);
      TallyConcat(s, moves', [trim]);
      TallyOne(Replay(s, moves'), trim);
      TrimIsDone(Replay(s, moves'), keep, now);
      OwnKeeps(w, moves', trim, me, cfg, Scanning(decided.todo), Scanning(decided.todo));
      moves' := moves' + [trim];
    }
  }

  lemma TallyRead(s: State, m: Move)
    requires m.script == None
    ensures Tally(s, [m]) == (0, 0)
  {
    assert [m][1..] == [];
  }

  lemma TallyOne(s: State, m: Move)
    requires m.script.Some? && m.mine
    ensures var reply := Step(s, m.script.value, m.t.now).1;
            Tally(s, [m]) == (if reply.Requeued? then 1 else 0, if reply.DeadLettered? then 1 else 0)
  {
    hide Step;
    assert [m][1..] == [];
  }

  lemma TrimIsDone(s: State, keep: nat, now: int)
    ensures Step(s, TrimDeadLetters(keep), now).1 == Done
  {
  }

  ghost predicate Surrounded(around: Surroundings, me: nat) {
    forall k :: Others(around.peers(k), me)
  }

  /** One entry of the list: its processing row, failing that its retry row, and the
      script they call for. */
  method ReclaimEntry(store: Store, ghost s: State, ghost w: World, ghost moves: seq<Move>, me: nat, cfg: Config, todo: seq<Raw>,
                      checkedAt: int, around: Surroundings, used: nat, counts: (nat, nat))
      returns (counts': (nat, nat), used': nat, ghost moves': seq<Move>)
    requires todo != [] && Sofar(store, s, w, moves, me, cfg, Scanning(todo), counts) && Surrounded(around, me)
    modifies store
    ensures Sofar(store, s, w, moves', me, cfg, Scanning(todo[1..]), counts')
  {
    hide Sofar, Skips;
    var raw, rest := todo[0], todo[1..];
    moves' := Yield(store, s, w, moves, around.peers(used), me, cfg, Scanning(todo), counts);
    ghost var read := Move(At(ReadLease(me, checkedAt), around.clock(used)), None, true);
    used', counts' := used + 1, counts;
    var r: Reclaimer;
    if raw !in store.processingMeta {
      r := NoLease(raw, rest);
    } else {
      var row := store.processingMeta[raw];
      r := if Skips(row, false, checkedAt, cfg) then Scanning(rest) else Decided(raw, row, false, rest);
    }
    Reads(store, s, w, moves', read, me, cfg, Scanning(todo), r, counts);
    moves' := moves' + [read];
    if r.NoLease? {
      ghost var found := r;
      moves' := Yield(store, s, w, moves', around.peers(used'), me, cfg, found, counts);
      ghost var again := Move(At(ReadRetry(me), around.clock(used')), None, true);
      used' := used' + 1;
      if raw !in store.retryMeta || Skips(store.retryMeta[raw], true, 0, cfg) {
        r := Scanning(rest);
      } else {
        r := Decided(raw, store.retryMeta[raw], true, rest);
      }
      Reads(store, s, w, moves', again, me, cfg, found, r, counts);
      moves' := moves' + [again];
    }
    if r.Decided? {
      moves' := Yield(store, s, w, moves', around.peers(used'), me, cfg, r, counts);
      counts', moves' := Send(store, s, w, moves', me, cfg, r, around.clock(used'), around.keep, counts);
      used' := used' + 1;
    }
  }

  /** The whole pass. Its calls and the others' leave the structures as the scripts
      say; it counts its own requeues and dead letters; and as long as the others
      keep the rules, so does it, to the end of the list it took. */
  method ReclaimPass(store: Store, me: nat, cfg: Config, checkedAt: int, around: Surroundings, ghost w: World)
      returns (reclaimed: nat, deadLettered: nat, ghost moves: seq<Move>)
    requires store.Snapshot() == w.db && Surrounded(around, me)
    modifies store
    ensures store.Snapshot() == Replay(old(store.Snapshot()), moves)
    ensures (reclaimed, deadLettered) == Tally(old(store.Snapshot()), moves)
    ensures Stands(w, moves, me, cfg, Scanning([]))
  {
    ghost var s := store.Snapshot();
    var todo := store.processing;
    ghost var list := Move(At(ListProcessing(me), around.clock(0)), None, true);
    moves := [list];
    Lists(w, me, cfg, around.clock(0));
    ReplayOne(s, list);
    assert [list][1..] == [];
    assert Tally(s, moves) == (0, 0);
    var counts, used := (0, 0), 1;
    hide Stands, Replay, Tally;
    while todo != []
      invariant Sofar(store, s, w, moves, me, cfg, Scanning(todo), counts)
      decreases |todo|
    {
      counts, used, moves := ReclaimEntry(store, s, w, moves, me, cfg, todo, checkedAt, around, used, counts);
      todo := todo[1..];
    }
    reclaimed, deadLettered := counts.0, counts.1;
  }

  /** So what holds in every world of every legal run holds of the structures the
      pass leaves: the invariant behind the caps, fences, positions and attempts. */
  lemma PassSteady(w: World, moves: seq<Move>, me: nat, cfg: Config, r: Reclaimer)
    requires Steady(w, cfg) && Sound(cfg) && Fair(w, moves, cfg) && Stands(w, moves, me, cfg, r)
    ensures Steady(Result(w, moves, cfg), cfg) && Result(w, moves, cfg).db == Replay(w.db, moves)
  {
    hide Steady, Fair;
    MovesAreRun(w, moves, cfg);
    SteadyFrom(w, Events(moves), cfg);
  }
}

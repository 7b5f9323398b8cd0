/** What every script keeps: the redundant structures of the run queue agree
    with each other, and a fenced run owns nothing. */
module RunQueueCoherence {
  import opened Sequences
  import opened RunQueueScripts

  /** The list, its metadata and its order describe the same messages, and the
      list is the sorted set read by ascending score. */
  ghost predicate OrderOk(w: Waiting) {
    && NoDup(w.list)
    && (forall id :: id in w.meta <==> id in w.list)
    && (forall id :: id in w.order <==> id in w.list)
    && (forall id :: id in w.meta ==> w.meta[id] == QueuedRow(id, w.order[id]))
    && (forall id :: id in w.order ==> 1 <= w.order[id] <= w.sequence)
    && Ascending(w.list, w.order)
  }

  ghost predicate Ascending(list: seq<Raw>, order: map<MessageId, nat>) {
    && (forall r :: r in list ==> r in order)
    && (forall i, j :: 0 <= i < j < |list| ==> order[list[i]] < order[list[j]])
  }

  /** A run's index entry lists exactly its waiting messages, once each, and is
      absent when there are none. */
  ghost predicate IndexOk(w: Waiting) {
    && (forall f :: f in w.index ==> w.index[f] != [] && NoDup(w.index[f]))
    && (forall f, id :: f in w.index && id in w.index[f] ==> id in w.list && Field(id.name) == f)
    && (forall r :: r in w.list ==> Field(r.name) in w.index && r in w.index[Field(r.name)])
  }

  ghost predicate WaitingOk(w: Waiting) {
    && OrderOk(w)
    && IndexOk(w)
    && (forall r :: r in w.list ==> Admissible(r))
  }

  /** Entries being processed are exactly the messages with a processing row,
      none of them also waits, and the retry row of each is a copy of it. */
  ghost predicate LeasesOk(s: State) {
    && NoDup(s.processing)
    && (forall r :: r in s.processing ==> r !in s.waiting.list && r.valid && Admissible(r))
    && (forall id :: id in s.processingMeta <==> id in s.processing)
    && (forall id :: id in s.processingMeta ==> id in s.retryMeta && s.retryMeta[id] == s.processingMeta[id])
    && (forall id :: id in s.retryMeta ==> s.retryMeta[id].raw == id && s.retryMeta[id].attempts >= 1)
  }

  /** No message of a fenced run waits or is being processed. */
  ghost predicate FencesOk(s: State) {
    && (forall r :: r in s.waiting.list ==> Field(r.name) !in s.fences)
    && (forall r :: r in s.processing ==> Field(r.name) !in s.fences)
  }

  ghost predicate Coherent(s: State) {
    WaitingOk(s.waiting) && LeasesOk(s) && FencesOk(s)
  }

  // ---- The waiting structures ------------------------------------------------

  lemma AscendingPush(list: seq<Raw>, order: map<MessageId, nat>, raw: Raw, sequence: nat)
    requires Ascending(list, order) && raw !in list
    requires forall id :: id in order ==> order[id] < sequence
    ensures Ascending(list + [raw], order[raw := sequence])
  {
    var list', order' := list + [raw], order[raw := sequence];
    forall i, j | 0 <= i < j < |list'| ensures order'[list'[i]] < order'[list'[j]] {
      assert list'[i] == list[i] && list[i] in list;
      if j < |list| { assert list'[j] == list[j] && list[j] in list; }
    }
  }

  lemma AscendingDrop(list: seq<Raw>, order: map<MessageId, nat>, position: nat)
    requires Ascending(list, order) && position < |list| && NoDup(list)
    ensures Ascending(RemoveAt(list, position), order - {list[position]})
  {
    var list', order' := RemoveAt(list, position), order - {list[position]};
    RemoveAtNoDup(list, position);
    forall i, j | 0 <= i < j < |list'| ensures order'[list'[i]] < order'[list'[j]] {
      var i', j' := if i < position then i else i + 1, if j < position then j else j + 1;
      assert list'[i] == list[i'] && list'[j] == list[j'];
    }
  }

  lemma AppendNoDup<T>(s: seq<T>, x: T)
    requires NoDup(s) && x !in s
    ensures NoDup(s + [x])
  {
  }

  lemma PushOrder(w: Waiting, raw: Raw, w': Waiting)
    requires OrderOk(w) && raw !in w.list && w' == Push(w, raw)
    ensures OrderOk(w')
  {
    hide Ascending, NoDup, Push;
    PushShape(w, raw);
    PushKeys(w, raw, w');
    PushRows(w, raw, w');
    AscendingPush(w.list, w.order, raw, w.sequence + 1);
    AppendNoDup(w.list, raw);
  }

  lemma PushKeys(w: Waiting, raw: Raw, w': Waiting)
    requires OrderOk(w) && w'.list == w.list + [raw]
    requires w'.order.Keys == w.order.Keys + {raw} && w'.meta.Keys == w.meta.Keys + {raw}
    ensures forall id :: id in w'.meta <==> id in w'.list
    ensures forall id :: id in w'.order <==> id in w'.list
  {
    hide Ascending, NoDup;
    assert forall id :: id in w'.list <==> id in w.list || id == raw;
  }

  lemma PushRows(w: Waiting, raw: Raw, w': Waiting)
    requires OrderOk(w) && raw !in w.list
    requires w'.order == w.order[raw := w.sequence + 1] && w'.sequence == w.sequence + 1
    requires w'.meta == w.meta[raw := QueuedRow(raw, w.sequence + 1)]
    requires forall id :: id in w'.meta <==> id in w'.order
    ensures forall id :: id in w'.meta ==> w'.meta[id] == QueuedRow(id, w'.order[id])
    ensures forall id :: id in w'.order ==> 1 <= w'.order[id] <= w'.sequence
  {
    hide Ascending, NoDup;
  }

  lemma PushShape(w: Waiting, raw: Raw)
    ensures var w' := Push(w, raw);
            && w'.list == w.list + [raw] && w'.order == w.order[raw := w.sequence + 1]
            && w'.meta == w.meta[raw := QueuedRow(raw, w.sequence + 1)] && w'.sequence == w.sequence + 1
  {
  }

  lemma PushIndex(w: Waiting, raw: Raw)
    requires IndexOk(w) && raw !in w.list
    ensures IndexOk(Push(w, raw))
  {
    var w' := Push(w, raw);
    var f := Field(raw.name);
    assert raw !in Indexed(w, f);
    WithoutNoDup(Indexed(w, f), raw);
    assert NoDup(w'.index[f]);
    assert forall r :: r in w'.list <==> r in w.list || r == raw;
    assert forall id :: id in w'.index[f] <==> id in Indexed(w, f) || id == raw;
  }

  lemma PushKeeps(w: Waiting, raw: Raw)
    requires WaitingOk(w) && raw !in w.list && Admissible(raw)
    ensures WaitingOk(Push(w, raw))
  {
    PushOrder(w, raw, Push(w, raw));
    PushIndex(w, raw);
  }

  lemma UnindexKeeps(w: Waiting, raw: Raw, w': Waiting)
    requires IndexOk(w) && raw in w.list
    requires w'.index == Unindex(w.index, Field(raw.name), raw)
    requires forall r :: r in w'.list <==> r in w.list && r != raw
    ensures IndexOk(w')
  {
    var f := Field(raw.name);
    var rest := Without(w.index[f], raw);
    WithoutNoDup(w.index[f], raw);
    forall r | r in w'.list ensures Field(r.name) in w'.index && r in w'.index[Field(r.name)] {
      if Field(r.name) == f { assert r in rest; }
    }
  }

  lemma DropOrder(w: Waiting, raw: Raw, position: int, index: map<string, seq<MessageId>>)
    requires OrderOk(w) && AtHead(w, raw, position)
    ensures var w' := DropAt(w, position, raw, index);
            OrderOk(w') && (forall r :: r in w'.list <==> r in w.list && r != raw)
  {
    RemoveAtNoDup(w.list, position);
    AscendingDrop(w.list, w.order, position);
  }

  lemma DropKeeps(w: Waiting, raw: Raw, position: int, index: map<string, seq<MessageId>>)
    requires WaitingOk(w) && AtHead(w, raw, position)
    requires index == Unindex(w.index, Field(raw.name), raw)
    ensures var w' := DropAt(w, position, raw, index);
            WaitingOk(w') && (forall r :: r in w'.list <==> r in w.list && r != raw)
  {
    DropOrder(w, raw, position, index);
    UnindexKeeps(w, raw, DropAt(w, position, raw, index));
  }

  // ---- ZRANK is the list index -------------------------------------------------

  function IdsBefore(list: seq<Raw>, k: nat): (ids: set<MessageId>)
    requires k <= |list|
  {
    set i | 0 <= i < k :: list[i]
  }

  lemma {:induction false} IdsBeforeSize(list: seq<Raw>, k: nat)
    requires NoDup(list) && k <= |list|
    ensures |IdsBefore(list, k)| == k
  {
    if k > 0 {
      IdsBeforeSize(list, k - 1);
      assert IdsBefore(list, k) == IdsBefore(list, k - 1) + {list[k - 1]};
      assert list[k - 1] !in IdsBefore(list, k - 1);
    }
  }

  /** In the sorted set a waiting message ranks at its position in the list. */
  lemma RankIsPosition(w: Waiting, k: nat)
    requires OrderOk(w) && k < |w.list|
    ensures ZRank(w.order, w.list[k]) == k
  {
    var id := w.list[k];
    var below := set m | m in w.order && w.order[m] < w.order[id];
    forall m ensures m in below <==> m in IdsBefore(w.list, k) {
      if m in below {
        var i :| 0 <= i < |w.list| && w.list[i] == m;
      }
    }
    assert below == IdsBefore(w.list, k);
    IdsBeforeSize(w.list, k);
  }

  // ---- One lemma per script ------------------------------------------------------

  lemma LiveKeeps(s: State, now: int)
    requires Coherent(s)
    ensures Coherent(Live(s, now))
  {
  }

  lemma EnqueueKeeps(s: State, raw: Raw)
    requires Coherent(s)
    ensures Coherent(EnqueueScript(s, raw).0)
    ensures EnqueueScript(s, raw).1.Enqueued? ==>
              raw !in s.waiting.list && raw !in s.processing && raw !in s.processingMeta && raw !in s.retryMeta
  {
    if EnqueueScript(s, raw).1.Enqueued? {
      assert raw !in s.waiting.list;
      assert raw !in s.processingMeta;
      PushKeeps(s.waiting, raw);
    }
  }

  lemma {:induction false} DrainAscends(list: seq<Raw>, order: map<MessageId, nat>, gone: set<Raw>)
    requires NoDup(list) && Ascending(list, order)
    ensures NoDup(Drain(list, gone)) && Ascending(Drain(list, gone), order)
  {
    if list != [] {
      var tail := list[1..];
      assert Ascending(tail, order);
      DrainAscends(tail, order, gone);
      var rest := Drain(tail, gone);
      forall r | r in rest ensures order[list[0]] < order[r] && r != list[0] {
        var k :| 0 <= k < |tail| && tail[k] == r;
        assert list[k + 1] == r;
      }
      if list[0] !in gone { AscendingCons(list[0], rest, order); }
    }
  }

  lemma AscendingCons(raw: Raw, rest: seq<Raw>, order: map<MessageId, nat>)
    requires NoDup(rest) && Ascending(rest, order) && raw in order
    requires forall r :: r in rest ==> order[raw] < order[r] && r != raw
    ensures NoDup([raw] + rest) && Ascending([raw] + rest, order)
  {
    var all := [raw] + rest;
    forall i, j | 0 <= i < j < |all| ensures order[all[i]] < order[all[j]] {
      assert all[j] == rest[j - 1] && rest[j - 1] in rest;
      if i > 0 { assert all[i] == rest[i - 1]; }
    }
  }

  /** No waiting message of another run shares the index field of `name`. */
  ghost predicate Alone(w: Waiting, name: RunName) {
    forall r :: r in w.list && Field(r.name) == Field(name) ==> r.name == name
  }

  lemma RemovedRaws(w: Waiting, name: RunName)
    requires WaitingOk(w) && Alone(w, name) && Field(name) in w.index
    ensures Rowless(w, name) == {}
    ensures RowsOf(w, Matched(w, name)) == set r | r in w.list && r.name == name
    ensures Matched(w, name) == set r | r in w.list && r.name == name
    ensures Matched(w, name) != {}
  {
    var gone := set r | r in w.list && r.name == name;
    forall r ensures r in Matched(w, name) <==> r in gone {}
    forall r | r in gone ensures r in RowsOf(w, Matched(w, name)) {
      assert r in Matched(w, name) && w.meta[r].raw == r;
    }
    var id := w.index[Field(name)][0];
    assert id in w.index[Field(name)] && id in Matched(w, name);
  }

  /** The waiting structures after every message of the run has left. */
  ghost predicate WithoutRun(w: Waiting, name: RunName, w': Waiting) {
    var gone := set r | r in w.list && r.name == name;
    w' == Waiting(Drain(w.list, gone), w.meta - gone, w.index - {Field(name)}, w.order - gone, w.sequence)
  }

  lemma RemoveShape(s: State, name: RunName)
    requires WaitingOk(s.waiting) && Alone(s.waiting, name) && Field(name) in s.waiting.index
    ensures var (s', reply) := RemoveScript(s, name);
            && WithoutRun(s.waiting, name, s'.waiting)
            && s' == s.(waiting := s'.waiting)
            && reply == Removed(|s.waiting.list| - |s'.waiting.list|)
  {
    hide WaitingOk, Alone, Matched, Rowless, RowsOf;
    RemovedRaws(s.waiting, name);
    var w := s.waiting;
    var gone := set r | r in w.list && r.name == name;
    assert w.order - gone - {} == w.order - gone;
  }

  lemma RemoveOrder(w: Waiting, name: RunName, w': Waiting)
    requires OrderOk(w) && WithoutRun(w, name, w')
    ensures OrderOk(w')
  {
    var gone := set r | r in w.list && r.name == name;
    DrainAscends(w.list, w.order, gone);
    assert Ascending(w'.list, w'.order) by {
      assert forall r :: r in w'.list ==> r in w'.order && w'.order[r] == w.order[r];
      forall i | 0 <= i < |w'.list| ensures w'.list[i] in w'.list {}
    }
  }

  lemma RemoveIndex(w: Waiting, name: RunName, w': Waiting)
    requires IndexOk(w) && Alone(w, name) && WithoutRun(w, name, w')
    ensures IndexOk(w')
    ensures forall r :: r in w'.list <==> r in w.list && r.name != name
  {
    forall r | r in w'.list ensures Field(r.name) in w'.index && r in w'.index[Field(r.name)] {
      assert r in w.list && Field(r.name) != Field(name);
    }
  }

  lemma RemoveKeeps(s: State, name: RunName)
    requires Coherent(s) && Alone(s.waiting, name)
    ensures var s' := RemoveScript(s, name).0;
            && Coherent(s')
            && (forall r :: r in s'.waiting.list <==> r in s.waiting.list && r.name != name)
  {
    var s' := RemoveScript(s, name).0;
    if Field(name) in s.waiting.index {
      RemoveShape(s, name);
      RemoveOrder(s.waiting, name, s'.waiting);
      RemoveIndex(s.waiting, name, s'.waiting);
    }
  }

  /** Removing a run keeps the structures in agreement exactly when no waiting
      message of another run shares its index field. */
  lemma RemoveKeepsIff(s: State, name: RunName)
    requires Coherent(s)
    ensures Coherent(RemoveScript(s, name).0) <==> Alone(s.waiting, name)
  {
    if Alone(s.waiting, name) {
      RemoveKeeps(s, name);
    } else {
      var w := s.waiting;
      var r :| r in w.list && Field(r.name) == Field(name) && r.name != name;
      var w' := RemoveScript(s, name).0.waiting;
      assert Field(name) in w.index && Field(name) !in w'.index;
      assert r !in RowsOf(w, Matched(w, name));
      assert r in w'.list;
      assert !IndexOk(w');
    }
  }

  lemma LeaseLeases(s: State, raw: Raw, row: Lease, s': State)
    requires LeasesOk(s) && raw in s.waiting.list && raw.valid && Admissible(raw)
    requires row.raw == raw && row.attempts >= 1
    requires s'.processing == [raw] + s.processing
    requires s'.processingMeta == s.processingMeta[raw := row] && s'.retryMeta == s.retryMeta[raw := row]
    requires forall r :: r in s'.waiting.list <==> r in s.waiting.list && r != raw
    ensures LeasesOk(s')
  {
    assert NoDup(s'.processing);
    hide NoDup;
    assert forall r :: r in s'.processing <==> r in s.processing || r == raw;
  }

  lemma LeaseKeeps(s: State, raw: Raw, position: int, worker: string, attempt: string, owner: string, limits: Limits, now: int)
    requires Coherent(s) && raw.valid
    ensures Coherent(LeaseScript(s, raw, position, worker, attempt, owner, limits, now).0)
  {
    hide LeaseScript, WaitingOk, LeasesOk, FencesOk, Unindex, DropAt, AtHead;
    LeaseShape(s, raw, position, worker, attempt, owner, limits, now);
    var (s', reply) := LeaseScript(s, raw, position, worker, attempt, owner, limits, now);
    if reply.Leased? {
      HeadWaits(s.waiting, raw, position);
      DropKeeps(s.waiting, raw, position, Unindex(s.waiting.index, Field(raw.name), raw));
      LeaseLeases(s, raw, s'.processingMeta[raw], s');
      LeaseFences(s, raw, s');
    }
  }

  lemma HeadWaits(w: Waiting, raw: Raw, position: int)
    requires WaitingOk(w) && AtHead(w, raw, position)
    ensures raw in w.list && Admissible(raw)
  {
    hide OrderOk, IndexOk, Admissible;
  }

  lemma LeaseFences(s: State, raw: Raw, s': State)
    requires FencesOk(s) && !IsFenced(s, raw.name) && s'.fences == s.fences
    requires s'.processing == [raw] + s.processing
    requires forall r :: r in s'.waiting.list <==> r in s.waiting.list && r != raw
    ensures FencesOk(s')
  {
    assert forall r :: r in s'.processing <==> r in s.processing || r == raw;
  }

  lemma LeaseShape(s: State, raw: Raw, position: int, worker: string, attempt: string, owner: string, limits: Limits, now: int)
    requires LeasesOk(s)
    ensures var (s', reply) := LeaseScript(s, raw, position, worker, attempt, owner, limits, now);
            if reply.Leased? then
              && AtHead(s.waiting, raw, position) && !IsFenced(s, raw.name)
              && s'.waiting == DropAt(s.waiting, position, raw, Unindex(s.waiting.index, Field(raw.name), raw))
              && s'.processing == [raw] + s.processing && s'.fences == s.fences
              && raw in s'.processingMeta && s'.processingMeta[raw].raw == raw && s'.processingMeta[raw].attempts >= 1
              && s'.processingMeta == s.processingMeta[raw := s'.processingMeta[raw]]
              && s'.retryMeta == s.retryMeta[raw := s'.processingMeta[raw]]
            else s' == s
  {
    hide QuotaOpen, CapacityOpen, IsFenced, Unindex, NoDup, Admissible;
    assert raw in s.retryMeta ==> s.retryMeta[raw].attempts >= 1;
  }

  lemma DeadLetterInvalidKeeps(s: State, raw: Raw, position: int, worker: string)
    requires Coherent(s)
    ensures Coherent(DeadLetterInvalidScript(s, raw, position, worker).0)
  {
    var (s', reply) := DeadLetterInvalidScript(s, raw, position, worker);
    if reply.DeadLettered? {
      var w := s.waiting;
      assert raw in w.list && raw in w.meta && w.meta[raw].raw == raw;
      DropKeeps(w, raw, position, UnindexByRow(w, raw));
      assert raw !in s.processingMeta;
    }
  }

  /** Distinct run names that occur have distinct fields. */
  ghost predicate Unambiguous(names: set<RunName>) {
    forall a, b :: a in names && b in names && Field(a) == Field(b) ==> a == b
  }

  ghost predicate Named(s: State, names: set<RunName>) {
    && (forall r :: r in s.waiting.list ==> r.name in names)
    && (forall r :: r in s.processing ==> r.name in names)
  }

  /** No entry of another run in processing shares the field of `name`. */
  ghost predicate Unshared(s: State, name: RunName) {
    forall r :: r in s.processing ==> Field(r.name) != Field(name)
  }

  /** Acquiring a fence keeps the structures in agreement exactly when it is refused,
      or no entry in processing shares the field of the claimed run. */
  lemma AcquireKeepsIff(s: State, name: RunName, token: string, workerTtl: int, scanLimit: int, ttlMs: int, now: int)
    requires Coherent(s)
    ensures var (s', reply) := AcquireScript(s, name, token, workerTtl, scanLimit, ttlMs, now);
            Coherent(s') <==> !reply.Claimed? || Unshared(s, name)
  {
    var (s', reply) := AcquireScript(s, name, token, workerTtl, scanLimit, ttlMs, now);
    if reply.Claimed? {
      NoneIndexed(s.waiting, name);
      hide WaitingOk, RowBlocks;
      assert LeasesOk(s') by { hide FencesOk; }
      hide LeasesOk;
    }
  }

  lemma NoneIndexed(w: Waiting, name: RunName)
    requires WaitingOk(w) && Field(name) !in w.index
    ensures forall r :: r in w.list ==> Field(r.name) != Field(name)
  {
    hide OrderOk;
  }

  /** Two rows of one delivery: they differ at most in their time stamps. */
  predicate SameLease(a: Lease, b: Lease) {
    a.(leasedAt := b.leasedAt, heartbeatAt := b.heartbeatAt) == b
  }

  ghost predicate SameLeases(rows: map<MessageId, Lease>, rows': map<MessageId, Lease>) {
    rows'.Keys == rows.Keys && forall m :: m in rows ==> SameLease(rows'[m], rows[m])
  }

  /** The state a reclaim script leaves when it stops: at most stamps moved. */
  ghost predicate Restamped(s: State, s': State) {
    && s' == s.(processingMeta := s'.processingMeta, retryMeta := s'.retryMeta)
    && SameLeases(s.processingMeta, s'.processingMeta)
    && SameLeases(s.retryMeta, s'.retryMeta)
  }

  lemma NormalizeKeeps(s: State, id: MessageId, attempt: string, owner: string, now: int, s': State)
    requires LeasesOk(s)
    requires s' == s.(processingMeta := Normalize(s.processingMeta, id, attempt, owner, now),
                      retryMeta := Normalize(s.retryMeta, id, attempt, owner, now))
    ensures LeasesOk(s') && Restamped(s, s')
  {
  }

  lemma ReclaimGuardKeeps(s: State, raw: Raw, attempt: string, owner: string, visibility: int, now: int)
    requires Coherent(s)
    ensures var s' := ReclaimGuard(s, raw, attempt, owner, visibility, now).state;
            Coherent(s') && Restamped(s, s')
  {
    var s' := s.(processingMeta := Normalize(s.processingMeta, raw, attempt, owner, now),
                 retryMeta := Normalize(s.retryMeta, raw, attempt, owner, now));
    NormalizeKeeps(s, raw, attempt, owner, now, s');
    hide WaitingOk, LeasesOk, Normalize;
    assert Coherent(s');
  }

  lemma RequeueLeases(s: State, raw: Raw, row: Lease, s': State)
    requires LeasesOk(s) && raw in s.processing
    requires row.raw == raw && row.attempts >= 1
    requires s'.processing == RemoveFirst(s.processing, raw)
    requires s'.processingMeta == s.processingMeta - {raw}
    requires s'.retryMeta == s.retryMeta[raw := row]
    requires forall r :: r in s'.waiting.list <==> r in s.waiting.list || r == raw
    ensures LeasesOk(s')
  {
    RemoveFirstNoDup(s.processing, raw);
  }

  lemma RequeueMoves(s: State, raw: Raw, row: Lease, s': State)
    requires Coherent(s) && raw in s.processing
    requires row.raw == raw && row.attempts >= 1
    requires s' == s.(processing := RemoveFirst(s.processing, raw),
                      processingMeta := s.processingMeta - {raw},
                      waiting := Push(s.waiting, raw),
                      retryMeta := s.retryMeta[raw := row])
    ensures Coherent(s')
  {
    RemoveFirstNoDup(s.processing, raw);
    PushKeeps(s.waiting, raw);
    assert forall r :: r in s'.waiting.list <==> r in s.waiting.list || r == raw;
    RequeueLeases(s, raw, row, s');
  }

  lemma RequeueKeeps(s: State, raw: Raw, row: Lease, attempt: string, owner: string, visibility: int, now: int)
    requires Coherent(s)
    requires row.raw == raw && row.attempts >= 1
    ensures Coherent(RequeueScript(s, raw, row, attempt, owner, visibility, now).0)
  {
    ReclaimGuardKeeps(s, raw, attempt, owner, visibility, now);
    var (s', reply) := RequeueScript(s, raw, row, attempt, owner, visibility, now);
    if reply.Requeued? {
      var t := ReclaimGuard(s, raw, attempt, owner, visibility, now).state;
      RequeueMoves(t, raw, row, s');
    }
  }

  lemma UnleaseKeeps(s: State, raw: Raw, s': State)
    requires LeasesOk(s)
    requires s'.processing == RemoveFirst(s.processing, raw)
    requires s'.processingMeta == s.processingMeta - {raw}
    requires s'.retryMeta == s.retryMeta - {raw}
    requires s'.waiting == s.waiting
    ensures LeasesOk(s')
    ensures forall r :: r in s'.processing ==> r in s.processing
  {
    RemoveFirstNoDup(s.processing, raw);
  }

  lemma AbsentKey<K, V>(m: map<K, V>, k: K)
    requires k !in m
    ensures m - {k} == m
  {
  }

  lemma BuryKeeps(s: State, raw: Raw, s': State)
    requires Coherent(s)
    requires s' == s.(processing := RemoveFirst(s.processing, raw),
                      processingMeta := s.processingMeta - {raw},
                      deadLetter := s'.deadLetter,
                      retryMeta := s.retryMeta - {raw})
    ensures Coherent(s')
  {
    hide WaitingOk, LeasesOk;
    UnleaseKeeps(s, raw, s');
  }

  lemma BuryBreaks(s: State, raw: Raw, s': State)
    requires LeasesOk(s) && raw in s.processingMeta
    requires s'.processing == RemoveFirst(s.processing, raw) && s'.processingMeta == s.processingMeta
    ensures !LeasesOk(s')
  {
    RemoveFirstNoDup(s.processing, raw);
    assert raw in s'.processingMeta && raw !in s'.processing;
  }

  /** A dead-lettering of an expired lease keeps the structures in agreement
      exactly when the processing row is dropped or was already absent. */
  lemma DeadLetterExpiredKeepsIff(
    s: State, raw: Raw, row: Lease, dropMeta: bool, attempt: string, owner: string, visibility: int, now: int)
    requires Coherent(s)
    ensures var (s', reply) := DeadLetterExpiredScript(s, raw, row, dropMeta, attempt, owner, visibility, now);
            Coherent(s') <==> !reply.DeadLettered? || dropMeta || raw !in s.processingMeta
  {
    hide WaitingOk, LeasesOk, FencesOk, ReclaimGuard;
    ReclaimGuardKeeps(s, raw, attempt, owner, visibility, now);
    var (s', reply) := DeadLetterExpiredScript(s, raw, row, dropMeta, attempt, owner, visibility, now);
    if reply.DeadLettered? {
      var t := ReclaimGuard(s, raw, attempt, owner, visibility, now).state;
      if !dropMeta && raw in s.processingMeta {
        BuryBreaks(t, raw, s');
      } else {
        if !dropMeta { AbsentKey(t.processingMeta, raw); }
        BuryKeeps(t, raw, s');
      }
    }
  }

  lemma HeartbeatKeeps(s: State, handle: Handle, worker: string, now: int)
    requires Coherent(s)
    ensures Coherent(HeartbeatScript(s, handle, worker, now).0)
  {
  }

  lemma SettleKeeps(s: State, raw: Raw, handle: Handle)
    requires Coherent(s) && IsCurrent(s, raw, handle)
    ensures Coherent(Settle(s, raw, handle.id))
    ensures raw in s.processing && handle.id == raw
  {
    UnleaseKeeps(s, raw, Settle(s, raw, handle.id));
  }
}

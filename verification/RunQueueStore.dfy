/** The Redis keys of the run queue as mutable fields, and every Lua script as a
    method that updates them in place. Each method is proved to have the effect
    and the reply of the script function the run theorems are about. */
module RunQueueStore {
  import opened Sequences
  import opened RunQueueScripts

  // ---- Prefix forms of the functions the loops compute ----------------------------------------

  lemma {:induction false} WithoutSnoc<T(!new)>(s: seq<T>, last: T, x: T)
    ensures Without(s + [last], x) == Without(s, x) + (if last == x then [] else [last])
  {
    if s == [] {
      assert [last][1..] == [];
    } else {
      WithoutSnoc(s[1..], last, x);
      assert (s + [last])[1..] == s[1..] + [last];
    }
  }

  lemma {:induction false} CountSnoc(items: seq<Raw>, last: Raw, tenant: string, user: string)
    ensures TenantCount(items + [last], tenant) ==
            TenantCount(items, tenant) + (if last.name.tenant == tenant then 1 else 0)
    ensures UserCount(items + [last], tenant, user) ==
            UserCount(items, tenant, user) + (if last.name.tenant == tenant && last.user == user then 1 else 0)
  {
    if items == [] {
      assert [last][1..] == [];
    } else {
      CountSnoc(items[1..], last, tenant, user);
      assert (items + [last])[1..] == items[1..] + [last];
    }
  }

  /** Draining one more entry is removing its occurrences from what is left. */
  lemma {:induction false} DrainOne(list: seq<Raw>, gone: set<Raw>, raw: Raw)
    ensures Drain(list, gone + {raw}) == Without(Drain(list, gone), raw)
  {
    if list != [] {
      DrainOne(list[1..], gone, raw);
      if list[0] !in gone {
        assert Drain(list, gone) == [list[0]] + Drain(list[1..], gone);
        assert Drain(list, gone)[1..] == Drain(list[1..], gone);
      }
    }
  }

  lemma {:induction false} DrainNothing(list: seq<Raw>)
    ensures Drain(list, {}) == list
  {
    if list != [] { DrainNothing(list[1..]); }
  }

  ghost function Hits(w: Waiting, ids: seq<MessageId>, name: RunName): set<MessageId> {
    set id | id in ids && id in w.meta && w.meta[id].raw.name == name
  }

  ghost function Misses(w: Waiting, ids: seq<MessageId>): set<MessageId> {
    set id | id in ids && id !in w.meta
  }

  lemma KnownIsDescribed(w: Waiting, raw: Raw)
    requires KnownWaiting(w, raw)
    ensures raw in w.meta && raw in w.order
  {
  }

  /** The waiting structures once the given indexed messages were handled. */
  ghost predicate Forgotten(
    w: Waiting, ids: seq<MessageId>, name: RunName,
    list: seq<Raw>, meta: map<MessageId, QueuedRow>, order: map<MessageId, nat>)
  {
    && list == Drain(w.list, RowsOf(w, Hits(w, ids, name)))
    && meta == w.meta - Hits(w, ids, name)
    && order == w.order - Hits(w, ids, name) - Misses(w, ids)
  }

  lemma ForgetNothing(w: Waiting, name: RunName)
    ensures Forgotten(w, [], name, w.list, w.meta, w.order) && Hits(w, [], name) == {}
  {
    assert Hits(w, [], name) == {} && Misses(w, []) == {} && RowsOf(w, {}) == {};
    DrainNothing(w.list);
  }

  lemma ForgetStep(
    w: Waiting, ids: seq<MessageId>, id: MessageId, name: RunName,
    list: seq<Raw>, meta: map<MessageId, QueuedRow>, order: map<MessageId, nat>)
    requires Forgotten(w, ids, name, list, meta, order)
    ensures var hit := id in meta && meta[id].raw.name == name;
            && Forgotten(w, ids + [id], name,
                         if hit then Without(list, meta[id].raw) else list,
                         if hit then meta - {id} else meta,
                         if hit || id !in meta then order - {id} else order)
            && (Hits(w, ids + [id], name) != {} <==> hit || Hits(w, ids, name) != {})
  {
    var hits := Hits(w, ids, name);
    if id in meta && meta[id].raw.name == name {
      assert Hits(w, ids + [id], name) == hits + {id};
      assert Misses(w, ids + [id]) == Misses(w, ids);
      assert RowsOf(w, hits + {id}) == RowsOf(w, hits) + {meta[id].raw};
      DrainOne(w.list, RowsOf(w, hits), meta[id].raw);
    } else {
      assert Hits(w, ids + [id], name) == hits;
      assert Misses(w, ids + [id]) == Misses(w, ids) + (if id in w.meta then {} else {id});
    }
  }

  class Store {
    var queued: seq<Raw>
    var queuedMeta: map<MessageId, QueuedRow>
    var runIndex: map<string, seq<MessageId>>
    var queuedOrder: map<MessageId, nat>
    var queuedSequence: nat
    var processing: seq<Raw>
    var processingMeta: map<MessageId, Lease>
    var retryMeta: map<MessageId, Lease>
    var deadLetter: seq<DeadLetter>
    var workerBeat: map<string, int>
    var fences: map<string, Fence>

    ghost function Queue(): Waiting
      reads this
    {
      Waiting(queued, queuedMeta, runIndex, queuedOrder, queuedSequence)
    }

    ghost function Snapshot(): State
      reads this
    {
      State(Queue(), processing, processingMeta, retryMeta, deadLetter, workerBeat, fences)
    }

    constructor ()
      ensures Snapshot() == EMPTY
    {
      queued, queuedMeta, runIndex, queuedOrder, queuedSequence := [], map[], map[], map[], 0;
      processing, processingMeta, retryMeta, deadLetter := [], map[], map[], [];
      workerBeat, fences := map[], map[];
    }

    /** Redis drops a fence once its deadline has passed. */
    method Expire(now: int)
      modifies this`fences
      ensures Snapshot() == Live(old(Snapshot()), now)
    {
      fences := map f | f in fences && now < fences[f].deadline :: fences[f];
    }

    /** Whether the run's index lists a message that is also described and ordered. */
    method FindIndexed(raw: Raw) returns (found: bool)
      ensures found == KnownWaiting(Queue(), raw)
    {
      var field := Field(raw.name);
      var ids := if field in runIndex then runIndex[field] else [];
      for i := 0 to |ids|
        invariant raw in ids[..i] ==> raw !in queuedMeta || raw !in queuedOrder
      {
        if ids[i] == raw && raw in queuedMeta && raw in queuedOrder { return true; }
      }
      assert ids[..|ids|] == ids;
      found := false;
    }

    /** Appends to the list and to all its indexes, as admission and requeue do. */
    method Append(raw: Raw)
      modifies this`queued, this`queuedMeta, this`runIndex, this`queuedOrder, this`queuedSequence
      ensures Queue() == Push(old(Queue()), raw)
    {
      var field := Field(raw.name);
      var retained := WithoutMessage(if field in runIndex then runIndex[field] else [], raw);
      queuedSequence := queuedSequence + 1;
      queued := queued + [raw];
      queuedMeta := queuedMeta[raw := QueuedRow(raw, queuedSequence)];
      runIndex := runIndex[field := retained + [raw]];
      queuedOrder := queuedOrder[raw := queuedSequence];
    }

    method Enqueue(raw: Raw, now: int) returns (reply: Reply)
      modifies this
      ensures (Snapshot(), reply) == EnqueueScript(Live(old(Snapshot()), now), raw)
    {
      hide Live, ZRank, KnownWaiting;
      Expire(now);
      if !Admissible(raw) { return Rejected; }
      if Field(raw.name) in fences { return Fenced; }
      var found := FindIndexed(raw);
      if found {
        assert raw in queuedMeta && raw in queuedOrder by { KnownIsDescribed(Queue(), raw); }
        return AlreadyEnqueued(ZRank(queuedOrder, raw) + 1, queuedMeta[raw].sequence);
      }
      if raw in processingMeta || raw in retryMeta { return AlreadyLeased; }
      Append(raw);
      reply := Enqueued(|queued|, queuedSequence);
    }

    /** The filtering loop every index update runs. */
    static method WithoutMessage(ids: seq<MessageId>, id: MessageId) returns (remaining: seq<MessageId>)
      ensures remaining == Without(ids, id)
    {
      remaining := [];
      for i := 0 to |ids|
        invariant remaining == Without(ids[..i], id)
      {
        WithoutSnoc(ids[..i], ids[i], id);
        assert ids[..i + 1] == ids[..i] + [ids[i]];
        if ids[i] != id { remaining := remaining + [ids[i]]; }
      }
      assert ids[..|ids|] == ids;
    }

    method UnindexMessage(field: string, id: MessageId)
      modifies this`runIndex
      ensures runIndex == Unindex(old(runIndex), field, id)
    {
      if field in runIndex {
        var remaining := WithoutMessage(runIndex[field], id);
        if remaining == [] { runIndex := runIndex - {field}; } else { runIndex := runIndex[field := remaining]; }
      }
    }

    /** One indexed message of a cancelled run. */
    method ForgetIndexed(id: MessageId, name: RunName) returns (hit: bool, count: nat)
      modifies this`queued, this`queuedMeta, this`queuedOrder
      ensures hit <==> id in old(queuedMeta) && old(queuedMeta)[id].raw.name == name
      ensures queued == if hit then Without(old(queued), old(queuedMeta)[id].raw) else old(queued)
      ensures queuedMeta == if hit then old(queuedMeta) - {id} else old(queuedMeta)
      ensures queuedOrder == if hit || id !in old(queuedMeta) then old(queuedOrder) - {id} else old(queuedOrder)
      ensures count == |old(queued)| - |queued|
    {
      hit, count := false, 0;
      if id in queuedMeta {
        var row := queuedMeta[id];
        if row.raw.name == name {
          hit := true;
          count := |queued| - |Without(queued, row.raw)|;
          queued := Without(queued, row.raw);
          queuedMeta := queuedMeta - {id};
          queuedOrder := queuedOrder - {id};
        }
      } else {
        queuedOrder := queuedOrder - {id};
      }
    }

    method ForgetAll(ids: seq<MessageId>, name: RunName) returns (matched: nat, removed: nat)
      modifies this`queued, this`queuedMeta, this`queuedOrder
      ensures Forgotten(old(Queue()), ids, name, queued, queuedMeta, queuedOrder)
      ensures matched > 0 <==> Hits(old(Queue()), ids, name) != {}
      ensures removed == |old(queued)| - |queued|
    {
      hide Forgotten, Hits;
      ghost var w := Queue();
      matched, removed := 0, 0;
      ForgetNothing(w, name);
      for i := 0 to |ids|
        invariant Forgotten(w, ids[..i], name, queued, queuedMeta, queuedOrder)
        invariant removed == |w.list| - |queued|
        invariant matched > 0 <==> Hits(w, ids[..i], name) != {}
      {
        label before:
        var hit, count := ForgetIndexed(ids[i], name);
        ForgetStep(w, ids[..i], ids[i], name, old@before(queued), old@before(queuedMeta), old@before(queuedOrder));
        assert ids[..i + 1] == ids[..i] + [ids[i]];
        matched, removed := if hit then matched + 1 else matched, removed + count;
      }
      assert ids[..|ids|] == ids;
    }

    method RemoveQueuedRun(name: RunName, now: int) returns (reply: Reply)
      modifies this
      ensures (Snapshot(), reply) == RemoveScript(Live(old(Snapshot()), now), name)
    {
      hide Live, Drain;
      Expire(now);
      var field := Field(name);
      if field !in runIndex { return MissingIndex; }
      ghost var w := Queue();
      var matched, removed := ForgetAll(runIndex[field], name);
      assert Hits(w, w.index[field], name) == Matched(w, name) && Misses(w, w.index[field]) == Rowless(w, name);
      hide Hits, Misses, Matched, Rowless, RowsOf;
      runIndex := runIndex - {field};
      reply := if matched == 0 then MissingMetadata else Removed(removed);
    }

    /** Takes the entry at `position` out through a sentinel, which no payload equals. */
    method TakeOut(position: nat, raw: Raw)
      requires position < |queued|
      modifies this`queued, this`queuedMeta, this`queuedOrder
      ensures Queue() == DropAt(old(Queue()), position, raw, runIndex)
    {
      queued := queued[..position] + queued[position + 1..];
      queuedMeta := queuedMeta - {raw};
      queuedOrder := queuedOrder - {raw};
    }

    method CountProcessing(tenant: string, user: string) returns (tenants: nat, users: nat)
      ensures tenants == TenantCount(processing, tenant) && users == UserCount(processing, tenant, user)
    {
      tenants, users := 0, 0;
      for i := 0 to |processing|
        invariant tenants == TenantCount(processing[..i], tenant) && users == UserCount(processing[..i], tenant, user)
      {
        CountSnoc(processing[..i], processing[i], tenant, user);
        assert processing[..i + 1] == processing[..i] + [processing[i]];
        if processing[i].name.tenant == tenant {
          tenants := tenants + 1;
          if processing[i].user == user { users := users + 1; }
        }
      }
      assert processing[..|processing|] == processing;
    }

    method AttemptsSoFar(id: MessageId) returns (attempts: nat)
      ensures attempts == NextAttempt(Snapshot(), id)
    {
      attempts := 1;
      if id in retryMeta {
        attempts := retryMeta[id].attempts + 1;
      } else if id in processingMeta {
        attempts := processingMeta[id].attempts + 1;
      }
    }

    /** The reply that stops a lease try, if one applies. */
    method LeaseRefusal(raw: Raw, position: int, limits: Limits) returns (refused: bool, reply: Reply)
      ensures var s := Snapshot();
              refused <==> (IsFenced(s, raw.name) || !CapacityOpen(processing, limits)
                            || !AtHead(s.waiting, raw, position) || !QuotaOpen(processing, raw, limits))
      ensures refused ==> forall worker, attempt, owner, now ::
                LeaseScript(Snapshot(), raw, position, worker, attempt, owner, limits, now) == (Snapshot(), reply)
    {
      hide TenantCount, UserCount;
      refused := true;
      if Field(raw.name) in fences { return true, Fenced; }
      if limits.processing > 0 && |processing| >= limits.processing { return true, CapacityFull; }
      if position < 0 || position >= |queued| || queued[position] != raw { return true, Conflict; }
      var tenants, users := CountProcessing(raw.name.tenant, raw.user);
      if limits.tenant > 0 && tenants >= limits.tenant { return true, QuotaBlocked(tenants, users); }
      if limits.user > 0 && users >= limits.user { return true, QuotaBlocked(tenants, users); }
      refused, reply := false, Done;
    }

    method LeaseRun(raw: Raw, position: int, worker: string, attempt: string, owner: string, limits: Limits, now: int)
      returns (reply: Reply)
      modifies this
      ensures (Snapshot(), reply) == LeaseScript(Live(old(Snapshot()), now), raw, position, worker, attempt, owner, limits, now)
    {
      hide Live, NextAttempt, Unindex, QuotaOpen, CapacityOpen;
      Expire(now);
      var refused, refusal := LeaseRefusal(raw, position, limits);
      if refused { return refusal; }
      var attempts := AttemptsSoFar(raw);
      UnindexMessage(Field(raw.name), raw);
      TakeOut(position, raw);
      StartLease(Lease(raw, attempts, now, now, worker, attempt, owner));
      reply := Leased(attempts, now);
    }

    method StartLease(row: Lease)
      modifies this`processing, this`processingMeta, this`retryMeta, this`workerBeat
      ensures processing == [row.raw] + old(processing)
      ensures processingMeta == old(processingMeta)[row.raw := row] && retryMeta == old(retryMeta)[row.raw := row]
      ensures workerBeat == old(workerBeat)[row.worker := row.heartbeatAt]
    {
      processing := [row.raw] + processing;
      processingMeta := processingMeta[row.raw := row];
      retryMeta := retryMeta[row.raw := row];
      workerBeat := workerBeat[row.worker := row.heartbeatAt];
    }

    method DeadLetterInvalidRun(raw: Raw, position: int, worker: string, now: int) returns (reply: Reply)
      modifies this
      ensures (Snapshot(), reply) == DeadLetterInvalidScript(Live(old(Snapshot()), now), raw, position, worker)
    {
      hide Live, NextAttempt, Unindex;
      Expire(now);
      if position < 0 || position >= |queued| || queued[position] != raw { return Conflict; }
      var attempts := AttemptsSoFar(raw);
      if raw in queuedMeta && Admissible(queuedMeta[raw].raw) {
        UnindexMessage(Field(queuedMeta[raw].raw.name), raw);
      }
      TakeOut(position, raw);
      deadLetter := deadLetter + [DeadLetter(raw, "invalid_queue_payload", attempts, worker)];
      retryMeta := retryMeta - {raw};
      reply := DeadLettered(attempts);
    }

    method TrimDeadLetterList(keep: nat)
      modifies this`deadLetter
      ensures deadLetter == LastOf(old(deadLetter), keep)
    {
      if |deadLetter| > keep { deadLetter := deadLetter[|deadLetter| - keep..]; }
    }

    // ---- Fences ----------------------------------------------------------------------------

    static method HasRun(items: seq<Raw>, name: RunName) returns (owned: bool)
      ensures owned <==> exists r :: r in items && r.name == name
    {
      for i := 0 to |items|
        invariant forall r :: r in items[..i] ==> r.name != name
      {
        if items[i].name == name { return true; }
      }
      assert items[..|items|] == items;
      owned := false;
    }

    /** Walks the rows of one hash, in whatever order HGETALL gives them. */
    method RowsBlock(rows: map<MessageId, Lease>, name: RunName, workerTtl: int, now: int) returns (blocked: bool)
      ensures blocked <==> exists id :: id in rows && RowBlocks(Snapshot(), rows[id], name, workerTtl, now)
    {
      hide RowBlocks;
      var rest := rows.Keys;
      while rest != {}
        invariant rest <= rows.Keys
        invariant forall id :: id in rows && id !in rest ==> !RowBlocks(Snapshot(), rows[id], name, workerTtl, now)
        decreases |rest|
      {
        var id :| id in rest;
        var blocks := RowIsLive(rows[id], name, workerTtl, now);
        if blocks { return true; }
        rest := rest - {id};
      }
      blocked := false;
    }

    method RowIsLive(row: Lease, name: RunName, workerTtl: int, now: int) returns (blocks: bool)
      ensures blocks == RowBlocks(Snapshot(), row, name, workerTtl, now)
    {
      if row.raw.name != name { return false; }
      if row.worker == "" { return true; }
      var latest := row.heartbeatAt;
      if row.leasedAt > latest { latest := row.leasedAt; }
      if latest > now { return true; }
      var workerActive := false;
      if row.worker in workerBeat {
        if workerBeat[row.worker] > now { return true; }
        workerActive := now - workerBeat[row.worker] <= workerTtl;
      }
      blocks := now - latest <= workerTtl && workerActive;
    }

    method QueuedRowsNameRun(name: RunName) returns (owned: bool)
      ensures owned <==> exists id :: id in queuedMeta && queuedMeta[id].raw.name == name
    {
      var rest := queuedMeta.Keys;
      while rest != {}
        invariant rest <= queuedMeta.Keys
        invariant forall id :: id in queuedMeta && id !in rest ==> queuedMeta[id].raw.name != name
        decreases |rest|
      {
        var id :| id in rest;
        if queuedMeta[id].raw.name == name { return true; }
        rest := rest - {id};
      }
      owned := false;
    }

    /** The walk over both lists, the run index and the three metadata hashes. */
    method RunIsUnowned(name: RunName, workerTtl: int, scanLimit: int, now: int) returns (free: bool)
      ensures free == Unowned(Snapshot(), name, workerTtl, scanLimit, now)
    {
      hide RowBlocks;
      if |queued| > scanLimit || |processing| > scanLimit { return false; }
      var queuedHere := HasRun(queued, name);
      if queuedHere { return false; }
      var processingHere := HasRun(processing, name);
      if processingHere || Field(name) in runIndex { return false; }
      if |queuedMeta| > scanLimit || |processingMeta| > scanLimit || |retryMeta| > scanLimit { return false; }
      var described := QueuedRowsNameRun(name);
      if described { return false; }
      var leased := RowsBlock(processingMeta, name, workerTtl, now);
      if leased { return false; }
      var retrying := RowsBlock(retryMeta, name, workerTtl, now);
      free := !retrying;
    }

    method AcquireRunFence(name: RunName, token: string, workerTtl: int, scanLimit: int, ttlMs: int, now: int)
      returns (reply: Reply)
      modifies this`fences
      ensures (Snapshot(), reply) == AcquireScript(Live(old(Snapshot()), now), name, token, workerTtl, scanLimit, ttlMs, now)
    {
      hide Live, Unowned;
      Expire(now);
      if Field(name) in fences || scanLimit < 1 || ttlMs < 1 { return NotClaimed; }
      var free := RunIsUnowned(name, workerTtl, scanLimit, now);
      if !free { return NotClaimed; }
      fences := fences[Field(name) := Fence(token, now + ttlMs * MILLISECOND)];
      reply := Claimed;
    }

    method RenewRunFence(name: RunName, token: string, ttlMs: int, now: int) returns (reply: Reply)
      modifies this`fences
      ensures (Snapshot(), reply) == RenewScript(Live(old(Snapshot()), now), name, token, ttlMs, now)
    {
      hide Live;
      Expire(now);
      if ttlMs < 1 { return InvalidTtl; }
      if Field(name) !in fences || fences[Field(name)].token != token { return OwnerLost; }
      fences := fences[Field(name) := Fence(token, now + ttlMs * MILLISECOND)];
      reply := Renewed;
    }

    method ReleaseRunFence(name: RunName, token: string, now: int) returns (reply: Reply)
      modifies this`fences
      ensures (Snapshot(), reply) == ReleaseScript(Live(old(Snapshot()), now), name, token)
    {
      hide Live;
      Expire(now);
      if Field(name) !in fences || fences[Field(name)].token != token { return NotReleased; }
      fences := fences - {Field(name)};
      reply := Released;
    }

    // ---- Reclaiming ------------------------------------------------------------------------

    static method PullBack(rows: map<MessageId, Lease>, id: MessageId, attempt: string, owner: string, now: int)
      returns (rows': map<MessageId, Lease>)
      ensures rows' == Normalize(rows, id, attempt, owner, now)
    {
      rows' := rows;
      if id in rows && Owns(rows[id], id, attempt, owner) {
        var row := rows[id];
        if row.heartbeatAt > now { row := row.(heartbeatAt := now); }
        if row.leasedAt > now { row := row.(leasedAt := now); }
        rows' := rows[id := row];
      }
    }

    /** The shared opening of the two reclaim scripts, applied in place. */
    method GuardReclaim(raw: Raw, attempt: string, owner: string, visibility: int, now: int)
      returns (proceed: bool, reply: Reply)
      modifies this`processingMeta, this`retryMeta
      ensures var guard := ReclaimGuard(old(Snapshot()), raw, attempt, owner, visibility, now);
              Snapshot() == guard.state && proceed == guard.Proceed? && (guard.Refuse? ==> reply == guard.reply)
    {
      hide Normalize;
      proceed := false;
      if raw.valid && Field(raw.name) in fences { return false, Fenced; }
      if raw !in processingMeta && raw !in retryMeta { return false, StaleOwner; }
      var row := if raw in processingMeta then processingMeta[raw] else retryMeta[raw];
      if !Owns(row, raw, attempt, owner) { return false, StaleOwner; }
      if visibility < 1 { return false, Inconclusive; }
      var activity := row.heartbeatAt;
      processingMeta := PullBack(processingMeta, raw, attempt, owner, now);
      retryMeta := PullBack(retryMeta, raw, attempt, owner, now);
      if activity > now { return false, ClockNormalized; }
      if now - activity <= visibility * SECOND { return false, LeaseActive; }
      proceed, reply := true, Done;
    }

    method RequeueRun(raw: Raw, row: Lease, attempt: string, owner: string, visibility: int, now: int) returns (reply: Reply)
      modifies this
      ensures (Snapshot(), reply) == RequeueScript(Live(old(Snapshot()), now), raw, row, attempt, owner, visibility, now)
    {
      hide Live, ReclaimGuard, Push;
      Expire(now);
      var proceed, refusal := GuardReclaim(raw, attempt, owner, visibility, now);
      if !proceed { return refusal; }
      if raw !in processing { return ProcessingMissing; }
      processing := RemoveFirst(processing, raw);
      processingMeta := processingMeta - {raw};
      Append(raw);
      retryMeta := retryMeta[raw := row];
      reply := Requeued;
    }

    method Bury(raw: Raw, letter: DeadLetter, dropMeta: bool)
      modifies this`processing, this`processingMeta, this`deadLetter, this`retryMeta
      ensures processing == RemoveFirst(old(processing), raw)
      ensures processingMeta == if dropMeta then old(processingMeta) - {raw} else old(processingMeta)
      ensures deadLetter == old(deadLetter) + [letter] && retryMeta == old(retryMeta) - {raw}
    {
      processing := RemoveFirst(processing, raw);
      if dropMeta { processingMeta := processingMeta - {raw}; }
      deadLetter := deadLetter + [letter];
      retryMeta := retryMeta - {raw};
    }

    method DeadLetterExpiredRun(raw: Raw, row: Lease, dropMeta: bool, attempt: string, owner: string, visibility: int, now: int)
      returns (reply: Reply)
      modifies this
      ensures (Snapshot(), reply) ==
              DeadLetterExpiredScript(Live(old(Snapshot()), now), raw, row, dropMeta, attempt, owner, visibility, now)
    {
      hide Live, ReclaimGuard;
      Expire(now);
      var proceed, refusal := GuardReclaim(raw, attempt, owner, visibility, now);
      if !proceed { return refusal; }
      var letter := DeadLetter(raw, "lease_expired_max_attempts", row.attempts, row.worker);
      Bury(raw, letter, dropMeta);
      reply := DeadLettered(row.attempts);
    }

    // ---- The worker's own calls ------------------------------------------------------------

    method HeartbeatRun(handle: Handle, worker: string, now: int) returns (reply: Reply)
      modifies this
      ensures (Snapshot(), reply) == HeartbeatScript(Live(old(Snapshot()), now), handle, worker, now)
    {
      hide Live;
      Expire(now);
      var id := handle.id;
      if id !in processingMeta { return Missing; }
      var row := processingMeta[id];
      if !Holds(row, handle, worker) { return StaleOwner; }
      if id in retryMeta && !Holds(retryMeta[id], handle, worker) { return StaleOwner; }
      if Field(row.raw.name) in fences { return Fenced; }
      var regressed := row.leasedAt > now || row.heartbeatAt > now;
      if id in retryMeta && (retryMeta[id].leasedAt > now || retryMeta[id].heartbeatAt > now) { regressed := true; }
      if worker in workerBeat && workerBeat[worker] > now { regressed := true; }
      row := row.(heartbeatAt := now);
      if regressed { row := row.(leasedAt := now); }
      processingMeta := processingMeta[id := row];
      retryMeta := retryMeta[id := row];
      workerBeat := workerBeat[worker := now];
      reply := if regressed then ClockRegressed else Beat(now);
    }

    /** LREM, HDEL, HDEL: the count LREM returns is not looked at. */
    method SettleMessage(raw: Raw, id: MessageId)
      modifies this`processing, this`processingMeta, this`retryMeta
      ensures Snapshot() == Settle(old(Snapshot()), raw, id)
    {
      processing := RemoveFirst(processing, raw);
      processingMeta := processingMeta - {id};
      retryMeta := retryMeta - {id};
    }

    method AckRun(raw: Raw, handle: Handle, now: int) returns (reply: Reply)
      modifies this
      ensures (Snapshot(), reply) == AckScript(Live(old(Snapshot()), now), raw, handle)
    {
      hide Live;
      Expire(now);
      if !raw.valid { return InvalidPayload; }
      if handle.id !in processingMeta { return StaleOwner; }
      var row := processingMeta[handle.id];
      if !Owns(row, handle.id, handle.attempt, handle.owner) || row.raw != raw { return StaleOwner; }
      if Field(raw.name) in fences { return Fenced; }
      SettleMessage(raw, handle.id);
      reply := Acked;
    }

    method FailRun(raw: Raw, handle: Handle, code: string, worker: string, now: int) returns (reply: Reply)
      modifies this
      ensures (Snapshot(), reply) == FailScript(Live(old(Snapshot()), now), raw, handle, code, worker)
    {
      hide Live;
      Expire(now);
      if !raw.valid { return InvalidPayload; }
      if handle.id !in processingMeta { return StaleOwner; }
      var row := processingMeta[handle.id];
      if !Owns(row, handle.id, handle.attempt, handle.owner) || row.raw != raw { return StaleOwner; }
      if Field(raw.name) in fences { return Fenced; }
      SettleMessage(raw, handle.id);
      deadLetter := deadLetter + [DeadLetter(raw, code, row.attempts, worker)];
      reply := Failed;
    }

    method VerifyRun(raw: Raw, handle: Handle, worker: string, now: int) returns (reply: Reply)
      modifies this`fences
      ensures (Snapshot(), reply) == VerifyScript(Live(old(Snapshot()), now), raw, handle, worker)
    {
      hide Live;
      Expire(now);
      if !raw.valid { return InvalidPayload; }
      if handle.id !in processingMeta { return StaleOwner; }
      var row := processingMeta[handle.id];
      if !Owns(row, handle.id, handle.attempt, handle.owner) || row.raw != raw || row.worker != worker { return StaleOwner; }
      reply := if Field(raw.name) in fences then Fenced else Current;
    }

    method PruneWorkerBeat(worker: string, seen: int)
      modifies this`workerBeat
      ensures (Snapshot(), Done) == PruneScript(old(Snapshot()), worker, seen)
    {
      if worker in workerBeat && workerBeat[worker] == seen { workerBeat := workerBeat - {worker}; }
    }

    /** Runs one of the scripts that touch no message. */
    method PerformQuiet(script: Script, now: int) returns (reply: Reply)
      requires script.AcquireFence? || script.RenewFence? || script.ReleaseFence? || script.Verify? || script.PruneWorker? || script.TrimDeadLetters?
      modifies this
      ensures (Snapshot(), reply) == Step(old(Snapshot()), script, now)
    {
      hide Live, AcquireScript, RenewScript, ReleaseScript, VerifyScript, PruneScript, LastOf;
      match script {
        case AcquireFence(name, token, workerTtl, scanLimit, ttlMs) =>
          reply := AcquireRunFence(name, token, workerTtl, scanLimit, ttlMs, now);
        case RenewFence(name, token, ttlMs) => reply := RenewRunFence(name, token, ttlMs, now);
        case ReleaseFence(name, token) => reply := ReleaseRunFence(name, token, now);
        case Verify(raw, handle, worker) => reply := VerifyRun(raw, handle, worker, now);
        case PruneWorker(worker, seen) =>
          Expire(now);
          PruneWorkerBeat(worker, seen);
          reply := Done;
        case TrimDeadLetters(keep) =>
          Expire(now);
          TrimDeadLetterList(keep);
          reply := Done;
      }
    }

    /** Runs one script. */
    method Perform(script: Script, now: int) returns (reply: Reply)
      modifies this
      ensures (Snapshot(), reply) == Step(old(Snapshot()), script, now)
    {
      hide Live, EnqueueScript, RemoveScript, LeaseScript, DeadLetterInvalidScript, RequeueScript, DeadLetterExpiredScript,
           HeartbeatScript, AckScript, FailScript;
      match script {
        case Enqueue(raw) => reply := this.Enqueue(raw, now);
        case RemoveQueued(name) => reply := RemoveQueuedRun(name, now);
        case LeaseAt(raw, position, worker, attempt, owner, limits) =>
          reply := LeaseRun(raw, position, worker, attempt, owner, limits, now);
        case DeadLetterInvalid(raw, position, worker) => reply := DeadLetterInvalidRun(raw, position, worker, now);
        case Requeue(raw, row, attempt, owner, visibility) => reply := RequeueRun(raw, row, attempt, owner, visibility, now);
        case DeadLetterExpired(raw, row, dropMeta, attempt, owner, visibility) =>
          reply := DeadLetterExpiredRun(raw, row, dropMeta, attempt, owner, visibility, now);
        case Heartbeat(handle, worker) => reply := HeartbeatRun(handle, worker, now);
        case Ack(raw, handle) => reply := AckRun(raw, handle, now);
        case Fail(raw, handle, code, worker) => reply := FailRun(raw, handle, code, worker, now);
        case _ =>
          hide Step;
          reply := PerformQuiet(script, now);
      }
    }
  }
}

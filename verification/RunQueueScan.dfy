/** The windowed search of a leasing worker, with no step of another client in
    between, against a plain walk over the queue and against what that walk
    means: the oldest eligible message, with the invalid ones before it
    dead-lettered. */
module RunQueueScan {
  import opened Sequences
  import opened RunQueueScripts
  import opened RunQueueStore

  /** Everything about a lease try that does not depend on the candidate. */
  datatype Try = Try(worker: string, limits: Limits, now: int, keep: nat)

  datatype Delivery = Nothing | Delivered(raw: Raw, attempts: nat, leasedAt: int, attempt: string, owner: string)

  // ---- The plain walk ------------------------------------------------------------------------

  /** Dead-letters the invalid entry at `p`, then trims the dead-letter list. */
  function Expel(s: State, p: nat, t: Try): (s': State)
    requires p < |s.waiting.list|
    ensures s'.waiting.list == RemoveAt(s.waiting.list, p)
    ensures s'.fences == s.fences && s'.processing == s.processing && s'.processingMeta == s.processingMeta
  {
    var s' := DeadLetterInvalidScript(s, s.waiting.list[p], p, t.worker).0;
    s'.(deadLetter := LastOf(s'.deadLetter, t.keep))
  }

  function TryLease(s: State, p: nat, t: Try, attempt: string, owner: string): (State, Reply)
    requires p < |s.waiting.list|
  {
    LeaseScript(s, s.waiting.list[p], p, t.worker, attempt, owner, t.limits, t.now)
  }

  /** From position `p` on: invalid entries leave, the first entry the lease
      script accepts is delivered. */
  function Walk(s: State, p: nat, t: Try, attempt: string, owner: string): (State, Delivery)
    requires p <= |s.waiting.list|
    decreases |s.waiting.list| - p
  {
    if p == |s.waiting.list| then (s, Nothing)
    else
      var raw := s.waiting.list[p];
      if !raw.valid then Walk(Expel(s, p, t), p, t, attempt, owner)
      else
        var (s', reply) := TryLease(s, p, t, attempt, owner);
        match reply
        case Leased(attempts, at) => (s', Delivered(raw, attempts, at, attempt, owner))
        case CapacityFull => (s, Nothing)
        case _ => Walk(s, p + 1, t, attempt, owner)
  }

  // ---- What the walk means ---------------------------------------------------------------------

  predicate Eligible(s: State, raw: Raw, limits: Limits) {
    raw.valid && !IsFenced(s, raw.name) && QuotaOpen(s.processing, raw, limits)
  }

  /** Position of the oldest eligible entry, or the length of the list. */
  function Oldest(s: State, list: seq<Raw>, limits: Limits): (k: nat)
    ensures k <= |list|
    ensures k < |list| ==> Eligible(s, list[k], limits)
    ensures forall i :: 0 <= i < k ==> !Eligible(s, list[i], limits)
  {
    if list == [] then 0
    else if Eligible(s, list[0], limits) then 0
    else 1 + Oldest(s, list[1..], limits)
  }

  /** The entries of one kind, in order. */
  function Sift(list: seq<Raw>, valid: bool): (r: seq<Raw>)
  {
    if list == [] then []
    else (if list[0].valid == valid then [list[0]] else []) + Sift(list[1..], valid)
  }

  /** The `n` entries from position `p` on are passed: invalid ones leave. */
  function Purge(s: State, p: nat, n: nat, t: Try): State
    requires p + n <= |s.waiting.list|
    decreases n
  {
    if n == 0 then s
    else if s.waiting.list[p].valid then Purge(s, p + 1, n - 1, t)
    else Purge(Expel(s, p, t), p, n - 1, t)
  }

  /** The valid, or the invalid, among `n` entries from position `p` on. */
  function Among(list: seq<Raw>, p: nat, n: nat, valid: bool): seq<Raw>
    requires p + n <= |list|
  {
    Sift(list[p..p + n], valid)
  }

  lemma AmongNone(list: seq<Raw>, p: nat, valid: bool)
    requires p <= |list|
    ensures Among(list, p, 0, valid) == []
  {
  }

  lemma AmongHead(list: seq<Raw>, p: nat, n: nat, valid: bool)
    requires 0 < n && p + n <= |list|
    ensures Among(list, p, n, valid) == (if list[p].valid == valid then [list[p]] else []) + Among(list, p + 1, n - 1, valid)
  {
    assert list[p..p + n][1..] == list[p + 1..p + n];
  }

  lemma AmongCut(list: seq<Raw>, p: nat, n: nat, valid: bool)
    requires p + n < |list|
    ensures Among(RemoveAt(list, p), p, n, valid) == Among(list, p + 1, n, valid)
  {
    assert RemoveAt(list, p)[p..p + n] == list[p + 1..p + 1 + n];
  }

  /** The list once the invalid entries among those `n` have left. */
  function Cleared(list: seq<Raw>, p: nat, n: nat): seq<Raw>
    requires p + n <= |list|
  {
    list[..p] + Among(list, p, n, true) + list[p + n..]
  }

  lemma ClearedNone(list: seq<Raw>, p: nat)
    requires p <= |list|
    ensures Cleared(list, p, 0) == list
  {
    AmongNone(list, p, true);
    hide Among;
  }

  lemma ClearedKeeps(list: seq<Raw>, p: nat, n: nat)
    requires 0 < n && p + n <= |list| && list[p].valid
    ensures Cleared(list, p, n) == Cleared(list, p + 1, n - 1)
  {
    AmongHead(list, p, n, true);
    hide Among;
    var rest := Among(list, p + 1, n - 1, true);
    assert list[..p + 1] == list[..p] + [list[p]];
  }

  lemma ClearedDrops(list: seq<Raw>, p: nat, n: nat)
    requires 0 < n && p + n <= |list| && !list[p].valid
    ensures Cleared(list, p, n) == Cleared(RemoveAt(list, p), p, n - 1)
  {
    AmongHead(list, p, n, true);
    AmongCut(list, p, n - 1, true);
    hide Among;
    var cut := RemoveAt(list, p);
    assert cut[..p] == list[..p] && cut[p + n - 1..] == list[p + n..];
  }

  /** Passing entries keeps the valid ones, in order, and everything behind
      them; processing, its rows and the fences stay. */
  lemma {:induction false} PurgeList(s: State, p: nat, n: nat, t: Try)
    requires p + n <= |s.waiting.list|
    ensures var s' := Purge(s, p, n, t);
            && s'.waiting.list == Cleared(s.waiting.list, p, n)
            && s'.fences == s.fences && s'.processing == s.processing && s'.processingMeta == s.processingMeta
    decreases n
  {
    hide Expel, Cleared, RemoveAt;
    var list := s.waiting.list;
    if n == 0 {
      ClearedNone(list, p);
    } else if list[p].valid {
      ClearedKeeps(list, p, n);
      PurgeList(s, p + 1, n - 1, t);
    } else {
      ClearedDrops(list, p, n);
      PurgeList(Expel(s, p, t), p, n - 1, t);
    }
  }

  /** What a worker should get: nothing at capacity; otherwise the oldest eligible
      message, leased from where it stands once the invalid entries before it
      are gone. */
  function Choice(s: State, t: Try, attempt: string, owner: string): (State, Delivery) {
    if !CapacityOpen(s.processing, t.limits) then (s, Nothing)
    else
      var k := Oldest(s, s.waiting.list, t.limits);
      var u := Purge(s, 0, k, t);
      if k == |s.waiting.list| then (u, Nothing)
      else
        var raw := s.waiting.list[k];
        var p := |Among(s.waiting.list, 0, k, true)|;
        var (u', reply) := LeaseScript(u, raw, p, t.worker, attempt, owner, t.limits, t.now);
        if reply.Leased? then (u', Delivered(raw, reply.attempts, reply.leasedAt, attempt, owner)) else (u, Nothing)
  }

  lemma {:induction false} OldestCons(s: State, p: nat, limits: Limits)
    requires p < |s.waiting.list|
    ensures var rest := s.waiting.list[p..];
            Oldest(s, rest, limits) ==
              if Eligible(s, rest[0], limits) then 0 else 1 + Oldest(s, s.waiting.list[p + 1..], limits)
  {
    assert s.waiting.list[p..][1..] == s.waiting.list[p + 1..];
  }

  /** Eligibility reads only the fences and the processing list. */
  lemma {:induction false} OldestFrame(s: State, s': State, list: seq<Raw>, limits: Limits)
    requires s'.fences == s.fences && s'.processing == s.processing
    ensures Oldest(s', list, limits) == Oldest(s, list, limits)
  {
    if list != [] { OldestFrame(s, s', list[1..], limits); }
  }

  /** What the lease script answers for a valid entry below the cap. */
  lemma LeaseAnswers(s: State, p: nat, t: Try, attempt: string, owner: string)
    requires p < |s.waiting.list| && CapacityOpen(s.processing, t.limits) && s.waiting.list[p].valid
    ensures var reply := TryLease(s, p, t, attempt, owner).1;
            if Eligible(s, s.waiting.list[p], t.limits) then reply.Leased? else reply.Fenced? || reply.QuotaBlocked?
  {
    hide QuotaOpen, NextAttempt, DropAt, Unindex;
  }

  /** The outcome when the entries before the oldest eligible one are passed,
      leaving `u`, and `rest` starts with that entry, now at position `q`. */
  ghost predicate Yields(
    outcome: (State, Delivery), u: State, rest: seq<Raw>, q: nat, t: Try, attempt: string, owner: string)
  {
    if rest == [] then outcome == (u, Nothing)
    else
      var (u', reply) := LeaseScript(u, rest[0], q, t.worker, attempt, owner, t.limits, t.now);
      reply.Leased? && outcome == (u', Delivered(rest[0], reply.attempts, reply.leasedAt, attempt, owner))
  }

  ghost predicate Finds(s: State, p: nat, k: nat, t: Try, attempt: string, owner: string)
    requires p + k <= |s.waiting.list|
  {
    Yields(Walk(s, p, t, attempt, owner), Purge(s, p, k, t), s.waiting.list[p + k..],
           p + |Among(s.waiting.list, p, k, true)|, t, attempt, owner)
  }

  lemma FindsHere(s: State, p: nat, t: Try, attempt: string, owner: string)
    requires p <= |s.waiting.list| && CapacityOpen(s.processing, t.limits)
    requires p < |s.waiting.list| ==> Eligible(s, s.waiting.list[p], t.limits)
    ensures Finds(s, p, 0, t, attempt, owner)
  {
    AmongNone(s.waiting.list, p, true);
    if p < |s.waiting.list| { LeaseAnswers(s, p, t, attempt, owner); }
    hide LeaseScript, QuotaOpen, CapacityOpen;
  }

  lemma FindsPast(s: State, p: nat, k: nat, t: Try, attempt: string, owner: string)
    requires 1 <= k && p + k <= |s.waiting.list| && CapacityOpen(s.processing, t.limits)
    requires s.waiting.list[p].valid && !Eligible(s, s.waiting.list[p], t.limits)
    requires Finds(s, p + 1, k - 1, t, attempt, owner)
    ensures Finds(s, p, k, t, attempt, owner)
  {
    hide Yields;
    LeaseAnswers(s, p, t, attempt, owner);
    AmongHead(s.waiting.list, p, k, true);
    hide LeaseScript, QuotaOpen, CapacityOpen, TryLease, Expel, Among;
    assert Purge(s, p, k, t) == Purge(s, p + 1, k - 1, t);
    assert Walk(s, p, t, attempt, owner) == Walk(s, p + 1, t, attempt, owner);
  }

  lemma FindsAfterExpel(s: State, p: nat, k: nat, t: Try, attempt: string, owner: string)
    requires 1 <= k && p + k <= |s.waiting.list| && !s.waiting.list[p].valid
    requires Finds(Expel(s, p, t), p, k - 1, t, attempt, owner)
    ensures Finds(s, p, k, t, attempt, owner)
  {
    hide Yields;
    var u := Expel(s, p, t);
    AmongHead(s.waiting.list, p, k, true);
    AmongCut(s.waiting.list, p, k - 1, true);
    CutShifts(s.waiting.list, p, k);
    hide LeaseScript, TryLease, Expel, Among, RemoveAt;
    assert Purge(s, p, k, t) == Purge(u, p, k - 1, t);
    assert Walk(s, p, t, attempt, owner) == Walk(u, p, t, attempt, owner);
  }

  lemma CutShifts(list: seq<Raw>, p: nat, k: nat)
    requires 1 <= k && p + k <= |list|
    ensures RemoveAt(list, p)[p + k - 1..] == list[p + k..]
  {
  }

  lemma {:induction false} WalkFinds(s: State, p: nat, t: Try, attempt: string, owner: string)
    requires p <= |s.waiting.list| && CapacityOpen(s.processing, t.limits)
    ensures Finds(s, p, Oldest(s, s.waiting.list[p..], t.limits), t, attempt, owner)
    decreases |s.waiting.list| - p
  {
    hide Finds, Eligible, CapacityOpen, Expel;
    var k := Oldest(s, s.waiting.list[p..], t.limits);
    if p == |s.waiting.list| {
      FindsHere(s, p, t, attempt, owner);
    } else {
      OldestCons(s, p, t.limits);
      hide Oldest;
      if k == 0 {
        FindsHere(s, p, t, attempt, owner);
      } else if s.waiting.list[p].valid {
        WalkFinds(s, p + 1, t, attempt, owner);
        FindsPast(s, p, k, t, attempt, owner);
      } else {
        var u := Expel(s, p, t);
        assert u.waiting.list[p..] == s.waiting.list[p + 1..];
        WalkFinds(u, p, t, attempt, owner);
        OldestFrame(s, u, s.waiting.list[p + 1..], t.limits);
        FindsAfterExpel(s, p, k, t, attempt, owner);
      }
    }
  }

  /** Below the processing cap the walk delivers the oldest eligible message and
      expels exactly the invalid ones before it. */
  lemma WalkIsChoice(s: State, t: Try, attempt: string, owner: string)
    requires CapacityOpen(s.processing, t.limits)
    ensures Walk(s, 0, t, attempt, owner) == Choice(s, t, attempt, owner)
  {
    WalkFinds(s, 0, t, attempt, owner);
    var k := Oldest(s, s.waiting.list, t.limits);
    assert s.waiting.list[0..] == s.waiting.list;
    hide Walk, Oldest, Purge, LeaseScript, Among;
  }

  lemma {:induction false} SiftCovers(list: seq<Raw>)
    ensures forall x :: x in Sift(list, true) ==> x.valid
    ensures forall x :: x in Sift(list, false) ==> !x.valid
    ensures multiset(list) == multiset(Sift(list, true)) + multiset(Sift(list, false))
  {
    if list != [] {
      SiftCovers(list[1..]);
      assert list == [list[0]] + list[1..];
    }
  }

  /** The raw entries of a dead-letter list. */
  function Raws(letters: seq<DeadLetter>): (r: seq<Raw>)
    ensures |r| == |letters|
  {
    if letters == [] then [] else [letters[0].raw] + Raws(letters[1..])
  }

  lemma {:induction false} RawsSnoc(letters: seq<DeadLetter>, last: DeadLetter)
    ensures Raws(letters + [last]) == Raws(letters) + [last.raw]
  {
    if letters == [] {
      assert [last][1..] == [];
    } else {
      RawsSnoc(letters[1..], last);
      assert (letters + [last])[1..] == letters[1..] + [last];
    }
  }

  lemma {:induction false} RawsDrop(letters: seq<DeadLetter>, n: nat)
    requires n <= |letters|
    ensures Raws(letters[n..]) == Raws(letters)[n..]
  {
    if n > 0 {
      RawsDrop(letters[1..], n - 1);
      assert letters[1..][n - 1..] == letters[n..];
    }
  }

  lemma LastOfTwice<T>(a: seq<T>, b: seq<T>, keep: nat)
    ensures LastOf(LastOf(a, keep) + b, keep) == LastOf(a + b, keep)
  {
  }

  /** The dead-letter list after passing entries: the expelled ones, oldest
      first, behind the earlier letters, cut to the retention limit. */
  lemma {:induction false} PurgeLetters(s: State, p: nat, n: nat, t: Try)
    requires p + n <= |s.waiting.list|
    ensures Raws(Purge(s, p, n, t).deadLetter) == Filed(Raws(s.deadLetter), Among(s.waiting.list, p, n, false), t.keep)
    decreases n
  {
    hide Expel, RemoveAt, Among, Filed;
    if n == 0 {
      AmongNone(s.waiting.list, p, false);
      FiledMore(Raws(s.deadLetter), [], [], t.keep);
    } else {
      var list := s.waiting.list;
      AmongHead(list, p, n, false);
      if list[p].valid {
        PurgeLetters(s, p + 1, n - 1, t);
        assert [] + Among(list, p + 1, n - 1, false) == Among(list, p + 1, n - 1, false);
      } else {
        AmongCut(list, p, n - 1, false);
        PurgeLetters(Expel(s, p, t), p, n - 1, t);
        ExpelLetter(s, p, t);
        FiledMore(Raws(s.deadLetter), [list[p]], Among(list, p + 1, n - 1, false), t.keep);
      }
    }
  }

  /** A dead-letter list after more letters; it is trimmed only when one came. */
  function Filed(letters: seq<Raw>, more: seq<Raw>, keep: nat): seq<Raw> {
    if more == [] then letters else LastOf(letters + more, keep)
  }

  lemma FiledMore(letters: seq<Raw>, a: seq<Raw>, b: seq<Raw>, keep: nat)
    ensures Filed(letters, [], keep) == letters
    ensures a != [] ==> Filed(Filed(letters, a, keep), b, keep) == Filed(letters, a + b, keep)
  {
    LastOfTwice(letters + a, b, keep);
    assert letters + a + b == letters + (a + b);
    if b == [] { assert a + b == a; }
  }

  lemma ExpelLetter(s: State, p: nat, t: Try)
    requires p < |s.waiting.list|
    ensures Raws(Expel(s, p, t).deadLetter) == Filed(Raws(s.deadLetter), [s.waiting.list[p]], t.keep)
  {
    var letter := DeadLetter(s.waiting.list[p], "invalid_queue_payload", NextAttempt(s, s.waiting.list[p]), t.worker);
    var letters := s.deadLetter + [letter];
    RawsSnoc(s.deadLetter, letter);
    if |letters| > t.keep { RawsDrop(letters, |letters| - t.keep); }
    hide NextAttempt, UnindexByRow;
  }

  // ---- The windowed search ----------------------------------------------------------------------

  ghost predicate NoExpired(s: State, now: int) {
    forall f :: f in s.fences ==> now < s.fences[f].deadline
  }

  lemma LiveIdle(s: State, now: int)
    requires NoExpired(s, now)
    ensures Live(s, now) == s
  {
  }

  lemma LiveSettles(s: State, now: int)
    ensures NoExpired(Live(s, now), now)
  {
  }

  /** A valid entry the lease script passes over. */
  predicate Blocked(s: State, raw: Raw, limits: Limits) {
    raw.valid && (IsFenced(s, raw.name) || !QuotaOpen(s.processing, raw, limits))
  }

  /** Blocked entries make no difference to the walk. */
  lemma {:induction false} WalkSkips(s: State, p: nat, q: nat, t: Try, attempt: string, owner: string)
    requires p <= q <= |s.waiting.list| && CapacityOpen(s.processing, t.limits)
    requires forall i :: p <= i < q ==> Blocked(s, s.waiting.list[i], t.limits)
    ensures Walk(s, p, t, attempt, owner) == Walk(s, q, t, attempt, owner)
    decreases q - p
  {
    hide QuotaOpen, NextAttempt, Unindex, DropAt;
    if p < q { WalkSkips(s, p + 1, q, t, attempt, owner); }
  }

  /** Whatever secrets are drawn, the rest of the walk from `p` is the walk that
      was asked for. */
  ghost predicate OnTrack(start: State, s: State, p: nat, t: Try) {
    p <= |s.waiting.list| &&
    forall attempt, owner :: Walk(s, p, t, attempt, owner) == Walk(start, 0, t, attempt, owner)
  }

  lemma OnTrackSkips(start: State, s: State, p: nat, q: nat, t: Try)
    requires p <= q <= |s.waiting.list| && CapacityOpen(s.processing, t.limits)
    requires forall i :: p <= i < q ==> Blocked(s, s.waiting.list[i], t.limits)
    ensures OnTrack(start, s, p, t) <==> OnTrack(start, s, q, t)
  {
    hide Walk, Blocked;
    forall attempt, owner ensures Walk(s, p, t, attempt, owner) == Walk(s, q, t, attempt, owner) {
      WalkSkips(s, p, q, t, attempt, owner);
    }
  }

  lemma OnTrackExpels(start: State, s: State, p: nat, t: Try)
    requires p < |s.waiting.list| && !s.waiting.list[p].valid && OnTrack(start, s, p, t)
    ensures OnTrack(start, Expel(s, p, t), p, t)
  {
    hide Expel;
    forall attempt, owner ensures Walk(Expel(s, p, t), p, t, attempt, owner) == Walk(start, 0, t, attempt, owner) {
      assert Walk(s, p, t, attempt, owner) == Walk(start, 0, t, attempt, owner);
    }
  }

  /** One candidate of a window: the dead-letter script and the trim, or a lease
      try with newly drawn secrets. */
  method Offer(store: Store, p: nat, t: Try, attempt: string, owner: string) returns (reply: Reply)
    requires p < |store.queued| && NoExpired(store.Snapshot(), t.now)
    modifies store
    ensures NoExpired(store.Snapshot(), t.now)
    ensures var s := old(store.Snapshot());
            if s.waiting.list[p].valid
            then (store.Snapshot(), reply) == TryLease(s, p, t, attempt, owner)
            else store.Snapshot() == Expel(s, p, t) && reply.DeadLettered?
  {
    ghost var s := store.Snapshot();
    LiveIdle(s, t.now);
    hide Live, NextAttempt, UnindexByRow, QuotaOpen, CapacityOpen, Unindex, DropAt;
    var raw := store.queued[p];
    if raw.valid {
      reply := store.LeaseRun(raw, p, t.worker, attempt, owner, t.limits, t.now);
    } else {
      reply := store.DeadLetterInvalidRun(raw, p, t.worker, t.now);
      store.TrimDeadLetterList(t.keep);
    }
  }

  datatype Stop = Window(n: nat) | Restart | Return(delivery: Delivery)

  /** One window: its snapshot is walked until an entry is delivered or expelled. */
  method ScanWindow(store: Store, from: nat, window: seq<Raw>, t: Try, mint: nat -> (string, string), drawn: nat)
    returns (stop: Stop, drawn': nat)
    requires NoExpired(store.Snapshot(), t.now) && t.now > 0 && CapacityOpen(store.processing, t.limits)
    requires from + |window| <= |store.queued| && window == store.queued[from..from + |window|]
    modifies store
    ensures NoExpired(store.Snapshot(), t.now)
    ensures drawn <= drawn'
    ensures stop.Window? ==>
              && stop.n == |window| && store.Snapshot() == old(store.Snapshot())
              && forall i :: from <= i < from + |window| ==> Blocked(store.Snapshot(), store.queued[i], t.limits)
    ensures stop.Restart? ==>
              exists p :: from <= p < |old(store.queued)| && ExpelledAt(old(store.Snapshot()), from, p, t) && store.Snapshot() == Expel(old(store.Snapshot()), p, t)
    ensures stop.Return? ==>
              exists p :: from <= p < |old(store.queued)| && LeasedAtPosition(old(store.Snapshot()), from, p, t, stop.delivery)
                          && store.Snapshot() == TryLease(old(store.Snapshot()), p, t, stop.delivery.attempt, stop.delivery.owner).0
    ensures stop.Return? ==> exists k :: 0 <= k < drawn' && (stop.delivery.attempt, stop.delivery.owner) == mint(k)
  {
    hide Live, QuotaOpen, CapacityOpen, NextAttempt, DropAt, Unindex, Expel;
    ghost var s := store.Snapshot();
    drawn' := drawn;
    for i := 0 to |window|
      invariant store.Snapshot() == s && drawn <= drawn'
      invariant forall j :: from <= j < from + i ==> Blocked(s, s.waiting.list[j], t.limits)
    {
      var raw := window[i];
      assert raw == store.queued[from + i];
      var (attempt, owner) := mint(drawn');
      if raw.valid { drawn' := drawn' + 1; }
      var reply := Offer(store, from + i, t, attempt, owner);
      if !raw.valid {
        assert ExpelledAt(s, from, from + i, t);
        return Restart, drawn';
      }
      if reply.Leased? && reply.leasedAt > 0 {
        assert mint(drawn' - 1) == (attempt, owner);
        assert LeasedAtPosition(s, from, from + i, t, Delivered(raw, reply.attempts, reply.leasedAt, attempt, owner));
        return Return(Delivered(raw, reply.attempts, reply.leasedAt, attempt, owner)), drawn';
      }
    }
    stop := Window(|window|);
  }

  ghost predicate ExpelledAt(s: State, from: nat, p: nat, t: Try) {
    && from <= p < |s.waiting.list| && !s.waiting.list[p].valid
    && forall j :: from <= j < p ==> Blocked(s, s.waiting.list[j], t.limits)
  }

  ghost predicate LeasedAtPosition(s: State, from: nat, p: nat, t: Try, d: Delivery) {
    && from <= p < |s.waiting.list| && d.Delivered? && d.raw == s.waiting.list[p] && d.raw.valid
    && TryLease(s, p, t, d.attempt, d.owner).1 == Leased(d.attempts, d.leasedAt)
    && forall j :: from <= j < p ==> Blocked(s, s.waiting.list[j], t.limits)
  }

  lemma Restarts(start: State, s: State, from: nat, p: nat, t: Try)
    requires CapacityOpen(s.processing, t.limits) && OnTrack(start, s, from, t) && ExpelledAt(s, from, p, t)
    ensures var s' := Expel(s, p, t);
            OnTrack(start, s', from, t) && CapacityOpen(s'.processing, t.limits) && |s'.waiting.list| < |s.waiting.list|
  {
    hide OnTrack, QuotaOpen, CapacityOpen, DeadLetterInvalidScript;
    OnTrackSkips(start, s, from, p, t);
    OnTrackExpels(start, s, p, t);
    var s' := Expel(s, p, t);
    forall j | from <= j < p ensures Blocked(s', s'.waiting.list[j], t.limits) {
      assert s'.waiting.list[j] == s.waiting.list[j];
    }
    OnTrackSkips(start, s', from, p, t);
  }

  lemma Returns(start: State, s: State, from: nat, p: nat, t: Try, d: Delivery)
    requires CapacityOpen(s.processing, t.limits) && OnTrack(start, s, from, t) && LeasedAtPosition(s, from, p, t, d)
    ensures Walk(start, 0, t, d.attempt, d.owner) == (TryLease(s, p, t, d.attempt, d.owner).0, d)
  {
    OnTrackSkips(start, s, from, p, t);
    assert OnTrack(start, s, p, t);
    hide QuotaOpen, CapacityOpen, TryLease;
  }

  /** The whole search. With any positive window and no other client, it leaves
      the state and returns the delivery of the plain choice, for the secrets it
      drew; with a window of zero or less, or at capacity, it does nothing. */
  method LeaseWithQuota(store: Store, t: Try, scanLimit: int, mint: nat -> (string, string)) returns (d: Delivery)
    requires t.now > 0
    modifies store
    ensures var s := Live(old(store.Snapshot()), t.now);
            if scanLimit <= 0 then store.Snapshot() == s && d.Nothing?
            else exists k: nat :: (store.Snapshot(), d) == Choice(s, t, mint(k).0, mint(k).1)
  {
    store.Expire(t.now);
    ghost var start := store.Snapshot();
    LiveSettles(old(store.Snapshot()), t.now);
    hide Live, QuotaOpen, NextAttempt, DropAt, Unindex, Expel, Walk, TryLease, Oldest, Purge, Among, LeaseScript, Blocked;
    d := Nothing;
    if t.limits.processing > 0 && |store.processing| >= t.limits.processing {
      assert (start, Nothing) == Choice(start, t, mint(0).0, mint(0).1);
      return;
    }
    if scanLimit <= 0 { return; }
    var depth := |store.queued|;
    var scanned, drawn := 0, 0;
    while scanned < depth
      invariant NoExpired(store.Snapshot(), t.now) && CapacityOpen(store.processing, t.limits)
      invariant depth == |store.queued| && 0 <= scanned <= depth
      invariant OnTrack(start, store.Snapshot(), scanned, t)
      decreases |store.queued|, depth - scanned
    {
      var end := if scanned + scanLimit < depth then scanned + scanLimit else depth;
      ghost var s := store.Snapshot();
      var stop: Stop;
      stop, drawn := ScanWindow(store, scanned, store.queued[scanned..end], t, mint, drawn);
      match stop {
        case Window(n) =>
          OnTrackSkips(start, s, scanned, scanned + n, t);
          scanned := scanned + n;
        case Restart =>
          ghost var p :| scanned <= p < |s.waiting.list| && ExpelledAt(s, scanned, p, t) && store.Snapshot() == Expel(s, p, t);
          Restarts(start, s, scanned, p, t);
          depth := |store.queued|;
        case Return(delivery) =>
          ghost var p :| scanned <= p < |s.waiting.list| && LeasedAtPosition(s, scanned, p, t, delivery)
                         && store.Snapshot() == TryLease(s, p, t, delivery.attempt, delivery.owner).0;
          Returns(start, s, scanned, p, t, delivery);
          WalkIsChoice(start, t, delivery.attempt, delivery.owner);
          return delivery;
      }
    }
    Exhausted(start, store.Snapshot(), t, mint(0).0, mint(0).1);
  }

  lemma Exhausted(start: State, s: State, t: Try, attempt: string, owner: string)
    requires OnTrack(start, s, |s.waiting.list|, t) && CapacityOpen(start.processing, t.limits)
    ensures Choice(start, t, attempt, owner) == (s, Nothing)
  {
    WalkIsChoice(start, t, attempt, owner);
    assert Walk(s, |s.waiting.list|, t, attempt, owner) == (s, Nothing);
    assert Walk(s, |s.waiting.list|, t, attempt, owner) == Walk(start, 0, t, attempt, owner);
  }
}

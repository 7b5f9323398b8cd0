/** The Redis structures of the run queue as one value, and each Lua script of
    app/queue.py as a function from that value and the Redis clock to a new
    value and a reply. */
module RunQueueScripts {
  import opened Sequences

  /** The Redis clock and lease stamps are in microseconds. */
  const SECOND: int := 1_000_000
  const MILLISECOND: int := 1_000

  datatype RunName = RunName(tenant: string, run: string)

  /** `tenant:run`: the field of queued_run_index and the tail of a fence key. */
  function Field(name: RunName): string {
    name.tenant + ":" + name.run
  }

  /** A queue entry: its text, the tenant, run and user every decoder reads from
      it, and whether the payload model of the leasing release accepts it. */
  datatype Raw = Raw(text: string, name: RunName, user: string, valid: bool)

  /** message_id_for_raw, a SHA-256, is taken to be injective: a message is
      identified with its raw entry. */
  type MessageId = Raw

  datatype QueuedRow = QueuedRow(raw: Raw, sequence: nat)

  /** queued, queued_meta, queued_run_index, queued_order and queued_sequence. */
  datatype Waiting = Waiting(
    list: seq<Raw>,
    meta: map<MessageId, QueuedRow>,
    index: map<string, seq<MessageId>>,
    order: map<MessageId, nat>,
    sequence: nat)

  /** A row of processing_meta or retry_meta. */
  datatype Lease = Lease(
    raw: Raw,
    attempts: nat,
    leasedAt: int,
    heartbeatAt: int,
    worker: string,
    attempt: string,
    owner: string)

  datatype DeadLetter = DeadLetter(raw: Raw, code: string, attempts: nat, worker: string)

  datatype Fence = Fence(token: string, deadline: int)

  datatype State = State(
    waiting: Waiting,
    processing: seq<Raw>,
    processingMeta: map<MessageId, Lease>,
    retryMeta: map<MessageId, Lease>,
    deadLetter: seq<DeadLetter>,
    workerBeat: map<string, int>,
    fences: map<string, Fence>)

  const EMPTY := State(Waiting([], map[], map[], map[], 0), [], map[], map[], [], map[], map[])

  /** What a worker holds: the parsed lease handle. */
  datatype Handle = Handle(id: MessageId, attempt: string, owner: string)

  /** Caps on concurrent processing; a cap that is not positive is off. */
  datatype Limits = Limits(processing: int, tenant: int, user: int)

  datatype Reply =
    | Rejected | Fenced | AlreadyEnqueued(position: nat, sequence: nat) | AlreadyLeased
    | Enqueued(position: nat, sequence: nat)
    | MissingIndex | MissingMetadata | Removed(count: nat)
    | CapacityFull | Conflict | QuotaBlocked(tenant: nat, user: nat) | Leased(attempts: nat, leasedAt: int)
    | DeadLettered(attempts: nat)
    | Claimed | NotClaimed | Renewed | InvalidTtl | OwnerLost | Released | NotReleased
    | StaleOwner | Inconclusive | ClockNormalized | LeaseActive | ProcessingMissing | Requeued
    | Missing | ClockRegressed | Beat(at: int)
    | InvalidPayload | Acked | Failed | Current | Done

  datatype Script =
    | Enqueue(raw: Raw)
    | RemoveQueued(name: RunName)
    | LeaseAt(raw: Raw, position: int, worker: string, attempt: string, owner: string, limits: Limits)
    | DeadLetterInvalid(raw: Raw, position: int, worker: string)
    | AcquireFence(name: RunName, token: string, workerTtl: int, scanLimit: int, ttlMs: int)
    | RenewFence(name: RunName, token: string, ttlMs: int)
    | ReleaseFence(name: RunName, token: string)
    | Requeue(raw: Raw, row: Lease, attempt: string, owner: string, visibility: int)
    | DeadLetterExpired(raw: Raw, row: Lease, dropMeta: bool, attempt: string, owner: string, visibility: int)
    | Heartbeat(handle: Handle, worker: string)
    | Ack(raw: Raw, handle: Handle)
    | Fail(raw: Raw, handle: Handle, code: string, worker: string)
    | Verify(raw: Raw, handle: Handle, worker: string)
    | PruneWorker(worker: string, seen: int)
    | TrimDeadLetters(keep: nat)

  // ---- Redis primitives -------------------------------------------------

  /** ZRANK: how many members of the sorted set score below `id`. */
  function ZRank(order: map<MessageId, nat>, id: MessageId): nat
    requires id in order
  {
    |set m | m in order && order[m] < order[id]|
  }

  function Indexed(w: Waiting, field: string): seq<MessageId> {
    if field in w.index then w.index[field] else []
  }

  /** Appends a message with the next sequence number to all five structures. */
  function Push(w: Waiting, raw: Raw): Waiting {
    var sequence := w.sequence + 1;
    var field := Field(raw.name);
    Waiting(
      w.list + [raw],
      w.meta[raw := QueuedRow(raw, sequence)],
      w.index[field := Without(Indexed(w, field), raw) + [raw]],
      w.order[raw := sequence],
      sequence)
  }

  /** remove_run_index_message. */
  function Unindex(index: map<string, seq<MessageId>>, field: string, id: MessageId): map<string, seq<MessageId>> {
    if field !in index then index
    else
      var remaining := Without(index[field], id);
      if remaining == [] then index - {field} else index[field := remaining]
  }

  /** Takes the entry at `position` out of the list and out of the metadata. */
  function DropAt(w: Waiting, position: nat, id: MessageId, index: map<string, seq<MessageId>>): Waiting
    requires position < |w.list|
  {
    Waiting(RemoveAt(w.list, position), w.meta - {id}, index, w.order - {id}, w.sequence)
  }

  function Drain(list: seq<Raw>, gone: set<Raw>): (r: seq<Raw>)
    ensures forall x :: x in r <==> x in list && x !in gone
    ensures |r| <= |list|
  {
    if list == [] then []
    else if list[0] in gone then Drain(list[1..], gone)
    else [list[0]] + Drain(list[1..], gone)
  }

  function TenantCount(items: seq<Raw>, tenant: string): nat {
    if items == [] then 0
    else (if items[0].name.tenant == tenant then 1 else 0) + TenantCount(items[1..], tenant)
  }

  function UserCount(items: seq<Raw>, tenant: string, user: string): nat {
    if items == [] then 0
    else (if items[0].name.tenant == tenant && items[0].user == user then 1 else 0) + UserCount(items[1..], tenant, user)
  }

  /** A fence whose deadline has passed is gone by the time a script looks. */
  function Live(s: State, now: int): State {
    s.(fences := map f | f in s.fences && now < s.fences[f].deadline :: s.fences[f])
  }

  predicate IsFenced(s: State, name: RunName) {
    Field(name) in s.fences
  }

  // ---- The scripts --------------------------------------------------------

  /** The payload model admits only non-empty tenant and run identifiers. */
  predicate Admissible(raw: Raw) {
    raw.name.tenant != "" && raw.name.run != ""
  }

  predicate KnownWaiting(w: Waiting, raw: Raw) {
    raw in Indexed(w, Field(raw.name)) && raw in w.meta && raw in w.order
  }

  function EnqueueScript(s: State, raw: Raw): (State, Reply) {
    if !Admissible(raw) then (s, Rejected)
    else if IsFenced(s, raw.name) then (s, Fenced)
    else if KnownWaiting(s.waiting, raw) then
      (s, AlreadyEnqueued(ZRank(s.waiting.order, raw) + 1, s.waiting.meta[raw].sequence))
    else if raw in s.processingMeta || raw in s.retryMeta then (s, AlreadyLeased)
    else (s.(waiting := Push(s.waiting, raw)), Enqueued(|s.waiting.list| + 1, s.waiting.sequence + 1))
  }

  /** The indexed messages whose row names this very run. */
  function Matched(w: Waiting, name: RunName): set<MessageId> {
    set id | id in Indexed(w, Field(name)) && id in w.meta && w.meta[id].raw.name == name
  }

  function Rowless(w: Waiting, name: RunName): set<MessageId> {
    set id | id in Indexed(w, Field(name)) && id !in w.meta
  }

  function RowsOf(w: Waiting, ids: set<MessageId>): set<Raw>
    requires forall id :: id in ids ==> id in w.meta
  {
    set id | id in ids :: w.meta[id].raw
  }

  function RemoveScript(s: State, name: RunName): (State, Reply) {
    var w := s.waiting;
    if Field(name) !in w.index then (s, MissingIndex)
    else
      var matched := Matched(w, name);
      var list := Drain(w.list, RowsOf(w, matched));
      var w' := Waiting(
        list, w.meta - matched, w.index - {Field(name)}, w.order - matched - Rowless(w, name), w.sequence);
      (s.(waiting := w'), if matched == {} then MissingMetadata else Removed(|w.list| - |list|))
  }

  /** The attempt number a delivery of this message would carry. */
  function NextAttempt(s: State, id: MessageId): nat {
    if id in s.retryMeta then s.retryMeta[id].attempts + 1
    else if id in s.processingMeta then s.processingMeta[id].attempts + 1
    else 1
  }

  predicate AtHead(w: Waiting, raw: Raw, position: int) {
    0 <= position < |w.list| && w.list[position] == raw
  }

  predicate QuotaOpen(processing: seq<Raw>, raw: Raw, limits: Limits) {
    && (limits.tenant > 0 ==> TenantCount(processing, raw.name.tenant) < limits.tenant)
    && (limits.user > 0 ==> UserCount(processing, raw.name.tenant, raw.user) < limits.user)
  }

  predicate CapacityOpen(processing: seq<Raw>, limits: Limits) {
    limits.processing > 0 ==> |processing| < limits.processing
  }

  function LeaseScript(
    s: State, raw: Raw, position: int, worker: string, attempt: string, owner: string, limits: Limits, now: int
  ): (State, Reply) {
    if IsFenced(s, raw.name) then (s, Fenced)
    else if !CapacityOpen(s.processing, limits) then (s, CapacityFull)
    else if !AtHead(s.waiting, raw, position) then (s, Conflict)
    else if !QuotaOpen(s.processing, raw, limits) then
      (s, QuotaBlocked(TenantCount(s.processing, raw.name.tenant), UserCount(s.processing, raw.name.tenant, raw.user)))
    else
      var attempts := NextAttempt(s, raw);
      var row := Lease(raw, attempts, now, now, worker, attempt, owner);
      var w := s.waiting;
      (s.(waiting := DropAt(w, position, raw, Unindex(w.index, Field(raw.name), raw)),
          processing := [raw] + s.processing,
          processingMeta := s.processingMeta[raw := row],
          retryMeta := s.retryMeta[raw := row],
          workerBeat := s.workerBeat[worker := now]),
       Leased(attempts, now))
  }

  /** The run index entry is only cleaned through the message's own row. */
  function UnindexByRow(w: Waiting, id: MessageId): map<string, seq<MessageId>> {
    if id in w.meta && Admissible(w.meta[id].raw) then Unindex(w.index, Field(w.meta[id].raw.name), id) else w.index
  }

  function DeadLetterInvalidScript(s: State, raw: Raw, position: int, worker: string): (State, Reply) {
    if !AtHead(s.waiting, raw, position) then (s, Conflict)
    else
      var attempts := NextAttempt(s, raw);
      (s.(waiting := DropAt(s.waiting, position, raw, UnindexByRow(s.waiting, raw)),
          deadLetter := s.deadLetter + [DeadLetter(raw, "invalid_queue_payload", attempts, worker)],
          retryMeta := s.retryMeta - {raw}),
       DeadLettered(attempts))
  }

  /** Whether a lease row of the run keeps a reconciler from claiming it: its
      worker is unknown, its stamps lie in the future, or both it and its
      worker are fresh. */
  predicate RowBlocks(s: State, row: Lease, name: RunName, workerTtl: int, now: int) {
    var beat := row.worker in s.workerBeat;
    var latest := if row.heartbeatAt < row.leasedAt then row.leasedAt else row.heartbeatAt;
    && row.raw.name == name
    && (|| row.worker == ""
        || latest > now
        || (beat && s.workerBeat[row.worker] > now)
        || (beat && now - latest <= workerTtl && now - s.workerBeat[row.worker] <= workerTtl))
  }

  predicate Unowned(s: State, name: RunName, workerTtl: int, scanLimit: int, now: int) {
    && |s.waiting.list| <= scanLimit && |s.processing| <= scanLimit
    && |s.waiting.meta| <= scanLimit && |s.processingMeta| <= scanLimit && |s.retryMeta| <= scanLimit
    && (forall r :: r in s.waiting.list ==> r.name != name)
    && (forall r :: r in s.processing ==> r.name != name)
    && Field(name) !in s.waiting.index
    && (forall id :: id in s.waiting.meta ==> s.waiting.meta[id].raw.name != name)
    && (forall id :: id in s.processingMeta ==> !RowBlocks(s, s.processingMeta[id], name, workerTtl, now))
    && (forall id :: id in s.retryMeta ==> !RowBlocks(s, s.retryMeta[id], name, workerTtl, now))
  }

  /** The refusals `fenced`, `owned` and `inconclusive` are one reply: the caller
      treats them alike. */
  function AcquireScript(
    s: State, name: RunName, token: string, workerTtl: int, scanLimit: int, ttlMs: int, now: int
  ): (State, Reply) {
    if IsFenced(s, name) || scanLimit < 1 || ttlMs < 1 || !Unowned(s, name, workerTtl, scanLimit, now) then (s, NotClaimed)
    else (s.(fences := s.fences[Field(name) := Fence(token, now + ttlMs * MILLISECOND)]), Claimed)
  }

  predicate HoldsFence(s: State, name: RunName, token: string) {
    IsFenced(s, name) && s.fences[Field(name)].token == token
  }

  function RenewScript(s: State, name: RunName, token: string, ttlMs: int, now: int): (State, Reply) {
    if ttlMs < 1 then (s, InvalidTtl)
    else if !HoldsFence(s, name, token) then (s, OwnerLost)
    else (s.(fences := s.fences[Field(name) := Fence(token, now + ttlMs * MILLISECOND)]), Renewed)
  }

  function ReleaseScript(s: State, name: RunName, token: string): (State, Reply) {
    if !HoldsFence(s, name, token) then (s, NotReleased)
    else (s.(fences := s.fences - {Field(name)}), Released)
  }

  predicate Owns(row: Lease, id: MessageId, attempt: string, owner: string) {
    row.raw == id && row.attempt == attempt && row.owner == owner
  }

  /** Stamps of the matching row that lie ahead of the clock are pulled back. */
  function Normalize(
    rows: map<MessageId, Lease>, id: MessageId, attempt: string, owner: string, now: int
  ): map<MessageId, Lease> {
    if id !in rows || !Owns(rows[id], id, attempt, owner) then rows
    else
      var row := rows[id];
      rows[id := row.(heartbeatAt := if row.heartbeatAt > now then now else row.heartbeatAt,
                      leasedAt := if row.leasedAt > now then now else row.leasedAt)]
  }

  /** The row that authorises a reclaim: processing_meta first, else retry_meta. */
  predicate HasLeaseRow(s: State, id: MessageId) {
    id in s.processingMeta || id in s.retryMeta
  }

  function LeaseRow(s: State, id: MessageId): Lease
    requires HasLeaseRow(s, id)
  {
    if id in s.processingMeta then s.processingMeta[id] else s.retryMeta[id]
  }

  datatype Reclaim = Refuse(reply: Reply, state: State) | Proceed(state: State)

  /** The shared opening of the two reclaim scripts. */
  function ReclaimGuard(
    s: State, raw: Raw, attempt: string, owner: string, visibility: int, now: int
  ): (r: Reclaim)
    ensures r.Refuse? ==> r.reply in {Fenced, StaleOwner, Inconclusive, ClockNormalized, LeaseActive}
  {
    var id := raw;
    if raw.valid && IsFenced(s, raw.name) then Refuse(Fenced, s)
    else if !HasLeaseRow(s, id) || !Owns(LeaseRow(s, id), id, attempt, owner) then Refuse(StaleOwner, s)
    else if visibility < 1 then Refuse(Inconclusive, s)
    else
      var activity := LeaseRow(s, id).heartbeatAt;
      var s' := s.(processingMeta := Normalize(s.processingMeta, id, attempt, owner, now),
                   retryMeta := Normalize(s.retryMeta, id, attempt, owner, now));
      if activity > now then Refuse(ClockNormalized, s')
      else if now - activity <= visibility * SECOND then Refuse(LeaseActive, s')
      else Proceed(s')
  }

  function RequeueScript(
    s: State, raw: Raw, row: Lease, attempt: string, owner: string, visibility: int, now: int
  ): (State, Reply) {
    match ReclaimGuard(s, raw, attempt, owner, visibility, now)
    case Refuse(reply, s') => (s', reply)
    case Proceed(s') =>
      if raw !in s'.processing then (s', ProcessingMissing)
      else
        (s'.(processing := RemoveFirst(s'.processing, raw),
             processingMeta := s'.processingMeta - {raw},
             waiting := Push(s'.waiting, raw),
             retryMeta := s'.retryMeta[raw := row]),
         Requeued)
  }

  /** Neither the presence of the entry nor the LREM count is checked. */
  function DeadLetterExpiredScript(
    s: State, raw: Raw, row: Lease, dropMeta: bool, attempt: string, owner: string, visibility: int, now: int
  ): (State, Reply) {
    match ReclaimGuard(s, raw, attempt, owner, visibility, now)
    case Refuse(reply, s') => (s', reply)
    case Proceed(s') =>
      (s'.(processing := RemoveFirst(s'.processing, raw),
           processingMeta := if dropMeta then s'.processingMeta - {raw} else s'.processingMeta,
           deadLetter := s'.deadLetter + [DeadLetter(raw, "lease_expired_max_attempts", row.attempts, row.worker)],
           retryMeta := s'.retryMeta - {raw}),
       DeadLettered(row.attempts))
  }

  predicate Holds(row: Lease, handle: Handle, worker: string) {
    Owns(row, handle.id, handle.attempt, handle.owner) && row.worker == worker
  }

  function HeartbeatScript(s: State, handle: Handle, worker: string, now: int): (State, Reply) {
    var id := handle.id;
    if id !in s.processingMeta then (s, Missing)
    else if !Holds(s.processingMeta[id], handle, worker) then (s, StaleOwner)
    else if id in s.retryMeta && !Holds(s.retryMeta[id], handle, worker) then (s, StaleOwner)
    else if IsFenced(s, s.processingMeta[id].raw.name) then (s, Fenced)
    else
      var row := s.processingMeta[id];
      var regressed :=
        || row.leasedAt > now || row.heartbeatAt > now
        || (id in s.retryMeta && (s.retryMeta[id].leasedAt > now || s.retryMeta[id].heartbeatAt > now))
        || (worker in s.workerBeat && s.workerBeat[worker] > now);
      var row' := row.(heartbeatAt := now, leasedAt := if regressed then now else row.leasedAt);
      (s.(processingMeta := s.processingMeta[id := row'],
          retryMeta := s.retryMeta[id := row'],
          workerBeat := s.workerBeat[worker := now]),
       if regressed then ClockRegressed else Beat(now))
  }

  /** The ownership proof shared by ack, fail and verify. */
  predicate IsCurrent(s: State, raw: Raw, handle: Handle) {
    && handle.id in s.processingMeta
    && Owns(s.processingMeta[handle.id], handle.id, handle.attempt, handle.owner)
    && s.processingMeta[handle.id].raw == raw
  }

  /** LREM runs unchecked: nothing here looks at how many entries it took out. */
  function Settle(s: State, raw: Raw, id: MessageId): State {
    s.(processing := RemoveFirst(s.processing, raw),
       processingMeta := s.processingMeta - {id},
       retryMeta := s.retryMeta - {id})
  }

  function AckScript(s: State, raw: Raw, handle: Handle): (State, Reply) {
    if !raw.valid then (s, InvalidPayload)
    else if !IsCurrent(s, raw, handle) then (s, StaleOwner)
    else if IsFenced(s, raw.name) then (s, Fenced)
    else (Settle(s, raw, handle.id), Acked)
  }

  function FailScript(s: State, raw: Raw, handle: Handle, code: string, worker: string): (State, Reply) {
    if !raw.valid then (s, InvalidPayload)
    else if !IsCurrent(s, raw, handle) then (s, StaleOwner)
    else if IsFenced(s, raw.name) then (s, Fenced)
    else
      var letter := DeadLetter(raw, code, s.processingMeta[handle.id].attempts, worker);
      (Settle(s, raw, handle.id).(deadLetter := s.deadLetter + [letter]), Failed)
  }

  function VerifyScript(s: State, raw: Raw, handle: Handle, worker: string): (State, Reply) {
    if !raw.valid then (s, InvalidPayload)
    else if !IsCurrent(s, raw, handle) || s.processingMeta[handle.id].worker != worker then (s, StaleOwner)
    else if IsFenced(s, raw.name) then (s, Fenced)
    else (s, Current)
  }

  function PruneScript(s: State, worker: string, seen: int): (State, Reply) {
    if worker in s.workerBeat && s.workerBeat[worker] == seen then (s.(workerBeat := s.workerBeat - {worker}), Done)
    else (s, Done)
  }

  function LastOf<T>(items: seq<T>, keep: nat): seq<T> {
    if |items| <= keep then items else items[|items| - keep..]
  }

  /** One atomic script at Redis time `now`. */
  function Step(s0: State, script: Script, now: int): (State, Reply) {
    var s := Live(s0, now);
    match script
    case Enqueue(raw) => EnqueueScript(s, raw)
    case RemoveQueued(name) => RemoveScript(s, name)
    case LeaseAt(raw, position, worker, attempt, owner, limits) =>
      LeaseScript(s, raw, position, worker, attempt, owner, limits, now)
    case DeadLetterInvalid(raw, position, worker) => DeadLetterInvalidScript(s, raw, position, worker)
    case AcquireFence(name, token, workerTtl, scanLimit, ttlMs) =>
      AcquireScript(s, name, token, workerTtl, scanLimit, ttlMs, now)
    case RenewFence(name, token, ttlMs) => RenewScript(s, name, token, ttlMs, now)
    case ReleaseFence(name, token) => ReleaseScript(s, name, token)
    case Requeue(raw, row, attempt, owner, visibility) => RequeueScript(s, raw, row, attempt, owner, visibility, now)
    case DeadLetterExpired(raw, row, dropMeta, attempt, owner, visibility) =>
      DeadLetterExpiredScript(s, raw, row, dropMeta, attempt, owner, visibility, now)
    case Heartbeat(handle, worker) => HeartbeatScript(s, handle, worker, now)
    case Ack(raw, handle) => AckScript(s, raw, handle)
    case Fail(raw, handle, code, worker) => FailScript(s, raw, handle, code, worker)
    case Verify(raw, handle, worker) => VerifyScript(s, raw, handle, worker)
    case PruneWorker(worker, seen) => PruneScript(s, worker, seen)
    case TrimDeadLetters(keep) => (s.(deadLetter := LastOf(s.deadLetter, keep)), Done)
  }
}

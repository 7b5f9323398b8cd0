/** Who owns a lease over a whole run: a superseded handle is dead for good, and
    a worker that keeps beating stays the owner. */
module RunQueueOwnership {
  import opened Sequences
  import opened RunQueueScripts
  import opened RunQueueCoherence
  import opened RunQueueWorld
  import opened RunQueueSteady

  predicate OwnsLease(db: State, h: Handle) {
    h.id in db.processingMeta && Owns(db.processingMeta[h.id], h.id, h.attempt, h.owner)
  }

  /** The handle was issued once and its lease is no longer the current one. */
  predicate Superseded(w: World, h: Handle) {
    h.attempt in w.issued && !OwnsLease(w.db, h)
  }

  lemma ReclaimKeepsIdentity(s: State, script: Script, now: int, h: Handle)
    requires IsReclaim(script) && !OwnsLease(s, h)
    ensures !OwnsLease(Step(s, script, now).0, h)
  {
    hide ReclaimGuard, Push;
    GuardRestamps(Live(s, now), script.raw, script.attempt, script.owner, script.visibility, now);
  }

  /** Scripts other than a lease never give a row a new identity. */
  lemma RowsKeepIdentity(s: State, script: Script, now: int, h: Handle)
    requires !OwnsLease(s, h)
    requires script.LeaseAt? ==> script.attempt != h.attempt
    ensures !OwnsLease(Step(s, script, now).0, h)
  {
    FrameRows(s, script, now);
    if IsReclaim(script) { ReclaimKeepsIdentity(s, script, now, h); }
    hide EnqueueScript, RemoveScript, DeadLetterInvalidScript, AcquireScript, RenewScript, ReleaseScript, PruneScript,
         RequeueScript, DeadLetterExpiredScript, DropAt, Unindex, NextAttempt, QuotaOpen, CapacityOpen;
  }

  /** processingMeta after the scripts that never write it. */
  lemma FrameRows(s: State, script: Script, now: int)
    ensures script.Enqueue? || script.RemoveQueued? || script.DeadLetterInvalid? || script.AcquireFence?
            || script.RenewFence? || script.ReleaseFence? || script.PruneWorker? || script.TrimDeadLetters? || script.Verify?
            ==> Step(s, script, now).0.processingMeta == s.processingMeta
  {
    hide Push, Matched, Rowless, RowsOf, Drain, UnindexByRow, Unowned, NextAttempt, ReclaimGuard, Unindex;
  }

  lemma SupersededNext(w: World, t: Timed, cfg: Config, h: Handle)
    requires Permitted(w, t.event, cfg) && Superseded(w, h)
    ensures Superseded(Next(w, t, cfg), h)
  {
    hide Step;
    if t.event.Call? {
      RowsKeepIdentity(w.db, t.event.script, t.now, h);
    } else if t.event.Reclaim? {
      RowsKeepIdentity(w.db, Verdict(w.reclaimers[t.event.who], cfg), t.now, h);
    }
  }

  /** The replies by which a script acknowledges the caller's lease. */
  predicate Acknowledges(reply: Reply) {
    reply.Beat? || reply.ClockRegressed? || reply.Current? || reply.Acked? || reply.Failed?
  }

  predicate ByHandle(script: Script, h: Handle) {
    (script.Heartbeat? || script.Verify? || script.Ack? || script.Fail?) && script.handle == h
  }

  lemma OnlyOwnersAcknowledged(s: State, script: Script, now: int, h: Handle)
    requires ByHandle(script, h)
    ensures Acknowledges(Step(s, script, now).1) ==> OwnsLease(s, h)
  {
  }

  /** Whatever else happens, in whatever order, a superseded handle is refused by
      heartbeat, verify, ack and fail for ever. */
  lemma {:induction false} SupersededForever(w: World, run: seq<Timed>, cfg: Config, h: Handle, script: Script, now: int)
    requires Legal(w, run, cfg) && Superseded(w, h) && ByHandle(script, h)
    ensures Superseded(After(w, run, cfg), h)
    ensures !Acknowledges(Step(After(w, run, cfg).db, script, now).1)
    decreases |run|
  {
    hide Superseded, Step, Acknowledges;
    if run == [] {
      OnlyOwnersAcknowledged(w.db, script, now, h);
      assert !OwnsLease(w.db, h) by { SupersededIs(w, h); }
    } else {
      SupersededNext(w, run[0], cfg, h);
      SupersededForever(Next(w, run[0], cfg), run[1..], cfg, h, script, now);
    }
  }

  lemma SupersededIs(w: World, h: Handle)
    requires Superseded(w, h)
    ensures !OwnsLease(w.db, h)
  {
  }

  /** Two handles of one message are never both current, not even at different
      moments: once a second handle owns the lease, the first is superseded, and so
      refused from then on. */
  lemma SecondHandleSupersedes(w: World, run: seq<Timed>, cfg: Config, h: Handle, h': Handle)
    requires Steady(w, cfg) && Legal(w, run, cfg) && h.id == h'.id && h != h'
    requires OwnsLease(w.db, h) && OwnsLease(After(w, run, cfg).db, h')
    ensures Superseded(After(w, run, cfg), h)
  {
    assert h.attempt in w.issued by { hide Guarded, Named, Counted, RowsBounded; }
    hide Steady;
    IssuedGrows(w, run, cfg, h.attempt);
  }

  lemma {:induction false} IssuedGrows(w: World, run: seq<Timed>, cfg: Config, attempt: string)
    requires Legal(w, run, cfg) && attempt in w.issued
    ensures attempt in After(w, run, cfg).issued
    decreases |run|
  {
    hide Step;
    if run != [] { IssuedGrows(Next(w, run[0], cfg), run[1..], cfg, attempt); }
  }

  // ---- A punctual worker keeps its lease -------------------------------------------------

  predicate Settling(t: Timed, h: Handle) {
    t.event.Call? && (t.event.script.Ack? || t.event.script.Fail?) && t.event.script.handle == h
  }

  predicate Beats(w: World, t: Timed, h: Handle) {
    && t.event.Call? && t.event.script.Heartbeat? && t.event.script.handle == h
    && Step(w.db, t.event.script, t.now).1.Beat?
  }

  /** The clock never runs backwards, no step comes later than one visibility
      timeout after the last successful heartbeat of `h`, and `h` is not settled. */
  ghost predicate Punctual(w: World, run: seq<Timed>, cfg: Config, h: Handle, clock: int, beat: int)
    requires Legal(w, run, cfg)
    decreases |run|
  {
    run == [] ||
    (&& clock <= run[0].now <= beat + cfg.visibility * SECOND
     && !Settling(run[0], h)
     && Punctual(Next(w, run[0], cfg), run[1..], cfg, h, run[0].now, if Beats(w, run[0], h) then run[0].now else beat))
  }

  /** The lease of `h` is current and was last confirmed between `beat` and `clock`. */
  predicate Fresh(db: State, h: Handle, beat: int, clock: int) {
    OwnsLease(db, h) && beat <= db.processingMeta[h.id].heartbeatAt <= clock
  }

  lemma FreshScript(s: State, script: Script, now: int, cfg: Config, h: Handle, clock: int, beat: int)
    requires Guarded(s) && Fresh(s, h, beat, clock) && clock <= now <= beat + cfg.visibility * SECOND
    requires !Settling(At(Call(script), now), h) && !IsReclaim(script)
    ensures Fresh(Step(s, script, now).0, h, beat, now)
    ensures script.Heartbeat? && script.handle == h && Step(s, script, now).1.Beat? ==> Fresh(Step(s, script, now).0, h, now, now)
  {
    hide Guarded, LeaseScript, HeartbeatScript, AckScript, FailScript, EnqueueScript, RemoveScript, DeadLetterInvalidScript, AcquireScript,
         RequeueScript, DeadLetterExpiredScript, VerifyScript, RenewScript, ReleaseScript, PruneScript;
    var u := Live(s, now);
    if script.LeaseAt? {
      LeasedElsewhere(s, script, now, h);
    } else if script.Heartbeat? {
      FreshBeat(u, script.handle, script.worker, now, h, clock, beat);
    } else if script.Ack? {
      FreshSettle(u, script.raw, script.handle, "", "", h, clock, beat);
      FreshLater(AckScript(u, script.raw, script.handle).0, h, beat, clock, now);
    } else if script.Fail? {
      FreshSettle(u, script.raw, script.handle, script.code, script.worker, h, clock, beat);
      FreshLater(FailScript(u, script.raw, script.handle, script.code, script.worker).0, h, beat, clock, now);
    } else {
      FrameRows(s, script, now);
    }
  }

  lemma FreshSettle(s: State, raw: Raw, handle: Handle, code: string, worker: string, h: Handle, clock: int, beat: int)
    requires Fresh(s, h, beat, clock) && handle != h
    ensures Fresh(AckScript(s, raw, handle).0, h, beat, clock)
    ensures Fresh(FailScript(s, raw, handle, code, worker).0, h, beat, clock)
  {
    hide RemoveFirst, IsFenced, Fresh;
    var gone := s.processingMeta - {handle.id};
    if IsCurrent(s, raw, handle) {
      OtherMessage(s, h, handle, beat, clock);
      hide IsCurrent;
      ForgetOther(s.processingMeta, gone, handle.id, h.id);
      FreshSameRow(s, AckScript(s, raw, handle).0, h, beat, clock);
      FreshSameRow(s, FailScript(s, raw, handle, code, worker).0, h, beat, clock);
    }
  }

  /** One lease has one handle. */
  lemma OtherMessage(s: State, h: Handle, handle: Handle, beat: int, clock: int)
    requires Fresh(s, h, beat, clock) && handle != h && OwnsLease(s, handle)
    ensures handle.id != h.id
  {
  }

  lemma FreshBeat(s: State, handle: Handle, worker: string, now: int, h: Handle, clock: int, beat: int)
    requires Fresh(s, h, beat, clock) && clock <= now && beat <= now
    ensures var (s', reply) := HeartbeatScript(s, handle, worker, now);
            Fresh(s', h, beat, now) && (handle == h && reply.Beat? ==> Fresh(s', h, now, now))
  {
    hide IsFenced;
  }

  lemma LeasedElsewhere(s: State, script: Script, now: int, h: Handle)
    requires Guarded(s) && OwnsLease(s, h) && script.LeaseAt?
    ensures var db := Step(s, script, now).0;
            h.id in db.processingMeta && db.processingMeta[h.id] == s.processingMeta[h.id]
  {
    hide Guarded, Unindex, DropAt, QuotaOpen, CapacityOpen, NextAttempt;
    ProcessingFacts(s, h.id);
    if AtHead(s.waiting, script.raw, script.position) {
      assert script.raw in s.waiting.list && script.raw != h.id;
    }
  }

  /** The guard of a reclaim script stops at a lease that is alive. */
  lemma GuardStops(s: State, raw: Raw, attempt: string, owner: string, now: int, cfg: Config, h: Handle, clock: int, beat: int)
    requires Fresh(s, h, beat, clock) && clock <= now <= beat + cfg.visibility * SECOND
    ensures var guard := ReclaimGuard(s, raw, attempt, owner, cfg.visibility, now);
            Fresh(guard.state, h, beat, clock) && (guard.Proceed? ==> raw != h.id)
  {
  }

  /** An expired-lease script finds the lease alive, or belongs to another one. */
  lemma FreshReclaim(s: State, script: Script, now: int, cfg: Config, h: Handle, clock: int, beat: int)
    requires Fresh(s, h, beat, clock) && clock <= now <= beat + cfg.visibility * SECOND
    requires IsReclaim(script) && script.visibility == cfg.visibility
    ensures Fresh(Step(s, script, now).0, h, beat, now)
  {
    hide ReclaimGuard, Fresh, Live, Step;
    LiveFresh(s, now, h, beat, clock);
    GuardStops(Live(s, now), script.raw, script.attempt, script.owner, now, cfg, h, clock, beat);
    var guard := ReclaimGuard(Live(s, now), script.raw, script.attempt, script.owner, script.visibility, now);
    FreshLater(guard.state, h, beat, clock, now);
    ReclaimRows(s, script, now);
    if guard.Proceed? {
      ForgetOther(guard.state.processingMeta, Step(s, script, now).0.processingMeta, script.raw, h.id);
      FreshSameRow(guard.state, Step(s, script, now).0, h, beat, now);
    }
  }

  /** A reclaim that proceeds at most forgets the processing row of its message. */
  lemma ReclaimRows(s: State, script: Script, now: int)
    requires IsReclaim(script)
    ensures var guard := ReclaimGuard(Live(s, now), script.raw, script.attempt, script.owner, script.visibility, now);
            RowsAfter(guard, Step(s, script, now).0, script.raw)
  {
    hide RequeueScript, DeadLetterExpiredScript, ReclaimGuard, Live;
    var live := Live(s, now);
    if script.Requeue? {
      assert Step(s, script, now) == RequeueScript(live, script.raw, script.row, script.attempt, script.owner, script.visibility, now);
      hide Step;
      RequeueRows(live, script.raw, script.row, script.attempt, script.owner, script.visibility, now);
    } else {
      assert Step(s, script, now) ==
             DeadLetterExpiredScript(live, script.raw, script.row, script.dropMeta, script.attempt, script.owner, script.visibility, now);
      hide Step;
      BuryRows(live, script.raw, script.row, script.dropMeta, script.attempt, script.owner, script.visibility, now);
    }
  }

  predicate RowsAfter(guard: Reclaim, s': State, raw: Raw) {
    if guard.Refuse? then s' == guard.state
    else s'.processingMeta == guard.state.processingMeta || s'.processingMeta == guard.state.processingMeta - {raw}
  }

  lemma RequeueRows(s: State, raw: Raw, row: Lease, attempt: string, owner: string, visibility: int, now: int)
    ensures RowsAfter(ReclaimGuard(s, raw, attempt, owner, visibility, now), RequeueScript(s, raw, row, attempt, owner, visibility, now).0, raw)
  {
    hide Push, ReclaimGuard, RemoveFirst;
  }

  lemma BuryRows(s: State, raw: Raw, row: Lease, dropMeta: bool, attempt: string, owner: string, visibility: int, now: int)
    ensures RowsAfter(ReclaimGuard(s, raw, attempt, owner, visibility, now),
                      DeadLetterExpiredScript(s, raw, row, dropMeta, attempt, owner, visibility, now).0, raw)
  {
    hide ReclaimGuard, RemoveFirst;
  }

  lemma LiveFresh(s: State, now: int, h: Handle, beat: int, clock: int)
    requires Fresh(s, h, beat, clock)
    ensures Fresh(Live(s, now), h, beat, clock)
  {
  }

  lemma ForgetOther(rows: map<MessageId, Lease>, rows': map<MessageId, Lease>, raw: Raw, id: MessageId)
    requires raw != id && (rows' == rows || rows' == rows - {raw})
    ensures id in rows <==> id in rows'
    ensures id in rows ==> rows'[id] == rows[id]
  {
  }

  lemma FreshSameRow(s: State, s': State, h: Handle, beat: int, clock: int)
    requires Fresh(s, h, beat, clock)
    requires h.id in s.processingMeta ==> h.id in s'.processingMeta && s'.processingMeta[h.id] == s.processingMeta[h.id]
    ensures Fresh(s', h, beat, clock)
  {
  }

  lemma FreshNext(w: World, t: Timed, cfg: Config, h: Handle, clock: int, beat: int)
    requires Guarded(w.db) && Permitted(w, t.event, cfg)
    requires Fresh(w.db, h, beat, clock) && clock <= t.now <= beat + cfg.visibility * SECOND && !Settling(t, h)
    ensures Fresh(Next(w, t, cfg).db, h, if Beats(w, t, h) then t.now else beat, t.now)
  {
    hide Guarded, Step, Fresh;
    if t.event.Call? {
      FreshScript(w.db, t.event.script, t.now, cfg, h, clock, beat);
    } else if t.event.Reclaim? {
      FreshReclaim(w.db, Verdict(w.reclaimers[t.event.who], cfg), t.now, cfg, h, clock, beat);
    } else {
      FreshLater(w.db, h, beat, clock, t.now);
    }
  }

  lemma FreshLater(db: State, h: Handle, beat: int, clock: int, now: int)
    requires Fresh(db, h, beat, clock) && clock <= now
    ensures Fresh(db, h, beat, now)
  {
  }

  lemma OwnerAcked(s: State, h: Handle, now: int)
    requires OwnsLease(s, h) && h.id.valid && !IsFenced(Live(s, now), h.id.name)
    ensures Step(s, Ack(h.id, h), now).1 == Acked
  {
  }

  /** While its successful heartbeats are at most one visibility timeout apart,
      a worker stays the owner of its lease until it settles it itself; its ack then
      succeeds, whenever it comes, unless the run is fenced. */
  lemma {:induction false} PunctualStaysOwner(w: World, run: seq<Timed>, cfg: Config, h: Handle, clock: int, beat: int)
    requires Steady(w, cfg) && Sound(cfg) && Legal(w, run, cfg)
    requires Fresh(w.db, h, beat, clock) && Punctual(w, run, cfg, h, clock, beat)
    ensures OwnsLease(After(w, run, cfg).db, h)
    ensures forall now :: h.id.valid && !IsFenced(Live(After(w, run, cfg).db, now), h.id.name) ==>
              Step(After(w, run, cfg).db, Ack(h.id, h), now).1 == Acked
    decreases |run|
  {
    hide Guarded, Named, Ledger, Settling, Step, IsFenced;
    if run == [] {
      forall now | h.id.valid && !IsFenced(Live(w.db, now), h.id.name) ensures Step(w.db, Ack(h.id, h), now).1 == Acked {
        OwnerAcked(w.db, h, now);
      }
    } else {
      FreshNext(w, run[0], cfg, h, clock, beat);
      NextSteady(w, run[0], cfg);
      hide Fresh, Beats;
      PunctualStaysOwner(
        Next(w, run[0], cfg), run[1..], cfg, h, run[0].now, if Beats(w, run[0], h) then run[0].now else beat);
    }
  }
}

/** Listener frames, rebinds and finishing steps, and the calls that do not wait in the mailbox. */
module MailboxFrames {
  import opened Wrappers
  import opened Lifecycle
  import opened Ordered
  import opened MailboxState
  import opened MailboxScan
  import opened MailboxInvariant
  import opened MailboxAlarm
  import opened MailboxRun
  import opened MailboxAudit
  import opened MailboxTheorems
  import opened MailboxGuarantees
  import opened MailboxEffects

  // ---- Whose frames count ------------------------------------------------------------------

  /** The call is stored and has not ended, and a durable one is held under this lease by this session. */
  predicate HeldBy(s: Store, id: CallId, lease: Option<nat>, session: Option<nat>) {
    && id in s.tasks && s.tasks[id].state in {IsSubmitted, IsWorking}
    && (s.tasks[id].mail.Some? ==>
          && s.tasks[id].mail.value.lease.Some?
          && lease == Some(s.tasks[id].mail.value.lease.value.id)
          && session == Some(s.tasks[id].mail.value.lease.value.session))
  }

  /** A frame from anyone else changes nothing; an ending frame from the holder always counts. */
  lemma OnlyTheHolderIsHeard(s: Store, id: CallId, frame: Frame, lease: Option<nat>, session: Option<nat>, now: int)
    ensures FrameApplies(s, id, lease, session) <==> HeldBy(s, id, lease, session)
    ensures !HeldBy(s, id, lease, session) ==> OnFrame(s, id, frame, lease, session, now) == s
    ensures HeldBy(s, id, lease, session) && IsEnding(frame) ==>
              var s' := OnFrame(s, id, frame, lease, session, now);
              id in s'.tasks && s'.tasks[id].state !in {IsSubmitted, IsWorking}
  {
  }

  /** The first acceptance of a call is recorded and reported; afterwards the frame means nothing. */
  lemma AcceptEffect(s: Store, id: CallId, lease: Option<nat>, session: Option<nat>, now: int)
    requires DueAgrees(s) && HeldBy(s, id, lease, session)
    ensures OnFrame(s, id, AcceptedFrame, lease, session, now) ==
            if s.tasks[id].phase != Phase.Submitted then s
            else s.(tasks := s.tasks[id := s.tasks[id].(phase := Accepted, updatedAt := now)],
                    outbox := s.outbox + {Intent(now, CallAccept, id)})
  {
    DueMember(s.tasks, DueKey(id, s.tasks[id]));
    var s' := OnFrame(s, id, AcceptedFrame, lease, session, now);
    assert s'.due == s.due;
  }

  // ---- Calls that wait for an open connection ----------------------------------------------

  predicate SameIndices(s: Store, s': Store) {
    s'.queue == s.queue && s'.dedupe == s.dedupe && s'.active == s.active
  }

  /** A synchronous call: one record, one due row and one event, and neither quota nor queue. */
  lemma SyncArrival(s: Store, id: CallId, from: string, now: int, deadline: int)
    requires id !in s.tasks
    ensures var s' := StartSync(s, id, NewSync(from, now, deadline));
            && s'.tasks == s.tasks[id := Task(from, now, now, deadline, Phase.Submitted, IsSubmitted, None, None)]
            && s'.due == s.due + {Key(deadline, id)} && s'.outbox == s.outbox + {Intent(now, CallSubmit, id)}
            && SameIndices(s, s') && SameCounters(s, s')
  {
    assert s.due - {} == s.due;
  }

  /** Starting it keeps its deadline, and reports an acceptance only if none was reported. */
  lemma SyncStart(s: Store, id: CallId, timeout: int, lease: Option<nat>, session: Option<nat>, now: int)
    requires DueAgrees(s) && HeldBy(s, id, lease, session) && s.tasks[id].mail.None?
    ensures var t := s.tasks[id];
            OnFrame(s, id, StartedFrame(timeout), lease, session, now) ==
            if t.phase == Working then s
            else s.(tasks := s.tasks[id := t.(phase := Working, state := IsWorking, updatedAt := now)],
                    outbox := s.outbox + if t.phase == Phase.Submitted then {Intent(now, CallAccept, id)} else {})
  {
    DueMember(s.tasks, DueKey(id, s.tasks[id]));
    var s' := OnFrame(s, id, StartedFrame(timeout), lease, session, now);
    assert s'.due == s.due;
    assert s.outbox + {} == s.outbox;
  }

  /** It ends as its frame says, and stays until its deadline. */
  lemma SyncEnding(s: Store, id: CallId, frame: Frame, lease: Option<nat>, session: Option<nat>, now: int)
    requires DueAgrees(s) && HeldBy(s, id, lease, session) && s.tasks[id].mail.None? && IsEnding(frame)
    ensures var s', t := OnFrame(s, id, frame, lease, session, now), s.tasks[id];
            && SameIndices(s, s') && SameCounters(s, s') && s'.due == s.due
            && match frame {
                 case CancelledFrame =>
                   && s'.tasks == s.tasks[id := t.(state := IsCanceled, updatedAt := now)]
                   && s'.outbox == s.outbox + {Intent(now, CallCancel, id)}
                 case RejectedFrame =>
                   && s'.tasks == s.tasks[id := t.(state := IsFailed, updatedAt := now)]
                   && s'.outbox == s.outbox + {Intent(now, CallFail, id)}
                 case OutcomeFrame(completed, _, answer) =>
                   && s'.tasks == s.tasks[id := t.(state := if completed then IsCompleted else IsFailed, updatedAt := now, outcome := Some(answer))]
                   && s'.outbox == s.outbox + {Intent(now, if completed then CallComplete else CallFail, id)}
                 case _ => true
               }
  {
    DueMember(s.tasks, DueKey(id, s.tasks[id]));
    var s' := OnFrame(s, id, frame, lease, session, now);
    assert s'.due == s.due;
  }

  /** At its deadline it is gone, and reported as late if it had not ended. */
  lemma SyncExpiry(s: Store, id: CallId, now: int)
    requires id in s.tasks && s.tasks[id].deadline <= now && s.tasks[id].mail.None?
    ensures var s', t := ExpireTask(s, id, now), s.tasks[id];
            && s'.tasks == s.tasks - {id} && s'.due == s.due - {Key(t.deadline, id)}
            && SameIndices(s, s') && SameCounters(s, s')
            && s'.outbox == s.outbox + if t.state in {IsSubmitted, IsWorking} then {Intent(now, CallTimeout, id)} else {}
  {
    assert s.outbox + {} == s.outbox;
  }

  // ---- Rebinds and finishing steps ---------------------------------------------------------

  /** A listener that connects is given the call that is under way: a new lease, until the call's
      deadline, that counts as the same attempt. */
  lemma RebindEffect(s: Store, lease: nat, session: nat, now: int)
    requires Inv(s)
    ensures var s' := Rebind(s, lease, session, now);
            if s.active.Some? && IsDelivery(s.tasks[s.active.value], Started)
            then
              && s' == s.(tasks := s'.tasks) && Rewrote(s, s', s.active.value)
              && OnlyLeaseChanged(s.tasks[s.active.value], s'.tasks[s.active.value], now)
              && IsDelivery(s'.tasks[s.active.value], Started)
              && s.tasks[s.active.value].mail.value.lease.Some?
              && s'.tasks[s.active.value].mail.value.lease ==
                 Some(Lease(lease, session, s.tasks[s.active.value].deadline, s.tasks[s.active.value].mail.value.lease.value.attempt))
            else s' == s
  {
    if s.active.Some? {
      var id := s.active.value;
      assert TaskOk(s.tasks[id]);
      DueMember(s.tasks, DueKey(id, s.tasks[id]));
      RebindKeepsRows(s, lease, session, now);
    }
  }

  lemma RebindKeepsRows(s: Store, lease: nat, session: nat, now: int)
    requires DueAgrees(s)
    ensures Rebind(s, lease, session, now).due == s.due
  {
  }

  /** The finishing step takes a durable call out of the queue and off the active pointer, and does
      nothing for a synchronous one. */
  lemma FinishEffect(s: Store, id: CallId, t: Task)
    ensures Finish(s, id, t) ==
            if t.mail.None? then s
            else s.(queue := s.queue - {Key(t.createdAt, id)}, active := if s.active == Some(id) then None else s.active)
  {
  }

  lemma FinishingHolds(w: World, c: Resume)
    requires WorldInv(w) && c in w.finishing
    ensures QueueAgrees(w.store) && FinishOk(c, w.store, w.used)
  {
    hide TrailInv;
    hide RecordsOk;
    hide QuotaAgrees;
    hide DueAgrees;
    hide DedupeAgrees;
    hide QueueAgrees;
    hide CheckOk;
    hide FinishOk;
  }

  lemma FinishTakesTheRow(s: Store, c: Resume, used: set<CallId>)
    requires QueueAgrees(s) && FinishOk(c, s, used)
    ensures s.active == Some(c.call) ==> c.task.mail.Some?
    ensures forall k | k in Finish(s, c.call, c.task).queue :: k.call != c.call
  {
  }

  /** After a finishing step the line is free: the active pointer is not on that call, and if it was,
      the next dispatches reach any queued call. */
  lemma FinishFreesTheLine(ws: seq<World>, acts: seq<Action>, i: nat)
    requires Behaviour(ws, acts) && i < |acts| && acts[i].FinishCall?
    ensures var s, s', id := ws[i].store, ws[i + 1].store, acts[i].finished.call;
            && s'.active != Some(id) && (forall k | k in s'.queue :: k.call != id)
            && (s.active != Some(id) ==> s'.active == s.active)
            && (s.active == Some(id) ==>
                  s'.active.None? &&
                  forall q, lease, session, leaseMs, now | QueuedCall(s', q) ::
                    LeasedUpTo(s', LeaseRepeatedly(s', |s'.queue|, lease, session, leaseMs, now), q))
  {
    RunKeeps(ws, acts, i);
    RunKeeps(ws, acts, i + 1);
    StepAt(ws, acts, i);
    var s, s', c := ws[i].store, ws[i + 1].store, acts[i].finished;
    assert c in ws[i].finishing && s' == Finish(s, c.call, c.task);
    FinishEffect(s, c.call, c.task);
    FinishingHolds(ws[i], c);
    FinishTakesTheRow(s, c, ws[i].used);
    hide Finish;
    if s.active == Some(c.call) {
      hide *;
      forall q, lease, session, leaseMs, now | QueuedCall(s', q)
        ensures LeasedUpTo(s', LeaseRepeatedly(s', |s'.queue|, lease, session, leaseMs, now), q)
      {
        LineIsFree(ws[i + 1], q, lease, session, leaseMs, now);
      }
    }
  }

  lemma LineIsFree(w: World, q: CallId, lease: nat, session: nat, leaseMs: int, now: int)
    requires WorldInv(w) && w.store.active.None? && QueuedCall(w.store, q)
    ensures LeasedUpTo(w.store, LeaseRepeatedly(w.store, |w.store.queue|, lease, session, leaseMs, now), q)
  {
    hide LeasedUpTo;
    hide LeaseRepeatedly;
    assert Inv(w.store);
    QueuedCallsAreReached(w.store, q, lease, session, leaseMs, now);
  }
}

/** What each transaction changes, and that it changes nothing else: the record it is about, exact
    amounts on the counters with no clamp, and the rows that come and go. */
module MailboxEffects {
  import opened Wrappers
  import opened Lifecycle
  import opened Ordered
  import opened MailboxState
  import opened MailboxScan
  import opened MailboxInvariant
  import opened MailboxRun

  // ---- Vocabulary --------------------------------------------------------------------------

  /** One record was rewritten; every other record, and all deduplication, is as before. */
  ghost predicate Rewrote(s: Store, s': Store, id: CallId) {
    && id in s.tasks && id in s'.tasks && SameCall(s.tasks[id], s'.tasks[id])
    && OthersSame(s, s', id) && s'.dedupe == s.dedupe
    && s'.due == s.due - {DueKey(id, s.tasks[id])} + {DueKey(id, s'.tasks[id])}
  }

  ghost predicate SameCounters(s: Store, s': Store) {
    s'.outstanding == s.outstanding && s'.perCaller == s.perCaller && s'.bytes == s.bytes
  }

  /** One call of `agent` gave its slot back; `freed` bytes went and `kept` bytes stay. */
  ghost predicate SlotReturned(s: Store, s': Store, agent: string, freed: nat, kept: nat) {
    && s'.outstanding == s.outstanding - 1 && s'.bytes == s.bytes - freed + kept
    && Count(s'.perCaller, agent) == Count(s.perCaller, agent) - 1
    && forall other | other != agent :: Count(s'.perCaller, other) == Count(s.perCaller, other)
  }

  /** An ended durable record: who and when stay, ciphertext and lease are gone. */
  predicate Over(t: Task, state: TaskState, reason: Reason, outcome: Option<Envelope>, deadline: int, now: int) {
    && t.mail.Some? && t.state == state && t.updatedAt == now && t.deadline == deadline && t.outcome == outcome
    && var m := t.mail.value;
    && m.delivery == Closed && m.reason == Some(reason) && m.request.None? && m.lease.None? && m.released
    && m.bytes == (if outcome.Some? then |outcome.value| else 0)
  }

  ghost predicate EndsAs(s: Store, s': Store, id: CallId, state: TaskState, reason: Reason, outcome: Option<Envelope>,
                         deadline: int, event: Event, now: int)
  {
    && Rewrote(s, s', id) && s.tasks[id].mail.Some? && !Terminal(s.tasks[id])
    && Over(s'.tasks[id], state, reason, outcome, deadline, now)
    && SlotReturned(s, s', s.tasks[id].mail.value.agent, |s.tasks[id].mail.value.digest|,
                    if outcome.Some? then |outcome.value| else 0)
    && s'.outbox == s.outbox + {Intent(now, event, id)}
  }

  /** The call left the queue, and the active pointer if it was there. */
  ghost predicate LetGo(s: Store, s': Store, id: CallId)
    requires id in s.tasks
  {
    && s'.queue == s.queue - {Key(s.tasks[id].createdAt, id)}
    && s'.active == (if s.active == Some(id) then None else s.active)
  }

  ghost predicate StillPlaced(s: Store, s': Store) {
    s'.queue == s.queue && s'.active == s.active
  }

  predicate SamePhase(s: Store, s': Store, id: CallId) {
    id in s.tasks && id in s'.tasks && s'.tasks[id].phase == s.tasks[id].phase
  }

  lemma SettleEffect(s: Store, id: CallId, closed: Task)
    requires QuotaAgrees(s) && id in s.tasks && HoldsQuota(s.tasks[id]) && closed.mail.Some?
    ensures var s' := Settle(s, id, closed);
            && SlotReturned(s, s', s.tasks[id].mail.value.agent, Charge(s.tasks[id]), Charge(closed))
            && s'.tasks == s.tasks[id := closed.(mail := Some(closed.mail.value.(released := true)))]
            && s'.queue == s.queue && s'.active == s.active && s'.dedupe == s.dedupe && s'.outbox == s.outbox
            && s'.due == s.due - {DueKey(id, s.tasks[id])} + {DueKey(id, closed)}
  {
    ReleaseNeverClamps(s, id);
  }

  predicate Closing(t: Task, closed: Task, now: int) {
    && t.mail.Some? && SameCall(t, closed) && closed.updatedAt == now && closed.mail.value.reason.Some?
    && closed.mail.value == t.mail.value.(
         delivery := Closed, request := None, lease := None, reason := closed.mail.value.reason, bytes := closed.mail.value.bytes)
    && closed.mail.value.bytes == if closed.outcome.Some? then |closed.outcome.value| else 0
  }

  lemma ClosingIsOver(t: Task, closed: Task, now: int)
    requires Closing(t, closed, now)
    ensures var t' := closed.(mail := Some(closed.mail.value.(released := true)));
            && SameCall(t, t') && t'.deadline == closed.deadline
            && Over(t', closed.state, closed.mail.value.reason.value, closed.outcome, closed.deadline, now)
    ensures Charge(closed) == if closed.outcome.Some? then |closed.outcome.value| else 0
  {
  }

  /** A terminal write, whatever else the transaction does to queue and active pointer. */
  lemma ClosingEffect(s: Store, s': Store, id: CallId, closed: Task, event: Event, now: int)
    requires RecordsOk(s) && QuotaAgrees(s) && id in s.tasks && !Terminal(s.tasks[id]) && Closing(s.tasks[id], closed, now)
    requires s' == Emit(Settle(s, id, closed), Intent(now, event, id)).(queue := s'.queue, active := s'.active)
    ensures EndsAs(s, s', id, closed.state, closed.mail.value.reason.value, closed.outcome, closed.deadline, event, now)
    ensures s'.tasks[id].phase == closed.phase
  {
    OpenHoldsQuota(s, id);
    SettleEffect(s, id, closed);
    ClosingIsOver(s.tasks[id], closed, now);
    hide Settle;
    hide Closing;
    hide Over;
    hide SameCall;
    hide RecordsOk;
    hide QuotaAgrees;
    hide Charge;
  }

  lemma OpenHoldsQuota(s: Store, id: CallId)
    requires RecordsOk(s) && id in s.tasks && s.tasks[id].mail.Some? && !Terminal(s.tasks[id])
    ensures HoldsQuota(s.tasks[id]) && Charge(s.tasks[id]) == |s.tasks[id].mail.value.digest| && s.tasks[id].outcome.None?
  {
    assert TaskOk(s.tasks[id]);
  }

  // ---- Endings -----------------------------------------------------------------------------

  lemma CancelEffect(s: Store, id: CallId, caller: string, now: int)
    requires RecordsOk(s) && QuotaAgrees(s)
    ensures var s' := Cancel(s, id, caller, now);
            if caller != "" && id in s.tasks && s.tasks[id].from == caller && !Terminal(s.tasks[id]) && Waiting(s.tasks[id])
            then EndsAs(s, s', id, IsCanceled, ReasonCanceled, None, s.tasks[id].mail.value.purgeAt, CallCancel, now) && LetGo(s, s', id) &&
                 SamePhase(s, s', id)
            else s' == s
  {
    if caller != "" && id in s.tasks && s.tasks[id].from == caller && Cancelable(s.tasks[id]) {
      var t := s.tasks[id];
      var s' := Cancel(s, id, caller, now);
      assert t.outcome.None? by {
        OpenHoldsQuota(s, id);
      }
      var closed := Close(t, IsCanceled, ReasonCanceled, t.mail.value.purgeAt, 0, now);
      assert s' == Emit(Settle(s, id, closed), Intent(now, CallCancel, id)).(queue := s'.queue, active := s'.active);
      ClosingEffect(s, s', id, closed, CallCancel, now);
    }
  }

  lemma DenialEffect(s: Store, id: CallId, seen: Task, now: int)
    requires RecordsOk(s) && QuotaAgrees(s) && QueueAgrees(s) && seen.mail.Some? && (id in s.tasks ==> SeenBefore(seen, s.tasks[id]))
    ensures var s' := Revoke(s, id, seen, now);
            if id in s.tasks && !Terminal(s.tasks[id]) && IsDelivery(s.tasks[id], Queued)
            then EndsAs(s, s', id, IsRejected, ReasonRevoked, None, seen.mail.value.purgeAt, CallFail, now) && LetGo(s, s', id) &&
                 s'.tasks[id].phase == seen.phase
            else s' == s
  {
    if id in s.tasks && !Terminal(s.tasks[id]) && IsDelivery(s.tasks[id], Queued) {
      OpenHoldsQuota(s, id);
      SettleEffect(s, id, Close(seen, IsRejected, ReasonRevoked, seen.mail.value.purgeAt, 0, now));
    }
  }

  /** A lapsed lease: the call waits again under its old place in the queue, or fails after three tries. */
  ghost predicate Requeued(s: Store, s': Store, id: CallId, now: int)
    requires id in s.tasks && s.tasks[id].mail.Some?
  {
    && Rewrote(s, s', id) && SameCounters(s, s') && s'.outbox == s.outbox && s'.queue == s.queue
    && s'.active.None? && s.active == Some(id)
    && Key(s.tasks[id].createdAt, id) in s'.queue
    && s'.tasks[id] == s.tasks[id].(updatedAt := now, mail := Some(s.tasks[id].mail.value.(delivery := Queued)))
  }

  /** A call that is leased, not started, and whose lease has run out. */
  predicate Lapsed(s: Store, id: CallId, now: int) {
    && id in s.tasks && !Terminal(s.tasks[id]) && IsDelivery(s.tasks[id], Leased)
    && s.tasks[id].mail.value.lease.Some? && s.tasks[id].mail.value.lease.value.expiresAt <= now
  }

  lemma RequeueEffect(s: Store, id: CallId, now: int)
    requires Inv(s) && Lapsed(s, id, now) && s.tasks[id].mail.value.lease.value.attempt < 3
    ensures Requeued(s, RecoverLease(s, id, now), id, now)
  {
    DueMember(s.tasks, DueKey(id, s.tasks[id]));
  }

  lemma LastLapseEffect(s: Store, id: CallId, now: int)
    requires RecordsOk(s) && QuotaAgrees(s) && Lapsed(s, id, now) && s.tasks[id].mail.value.lease.value.attempt >= 3
    ensures var s' := RecoverLease(s, id, now);
            && EndsAs(s, s', id, IsFailed, ReasonDeliveryFailed, None, s.tasks[id].mail.value.purgeAt, CallFail, now) && LetGo(s, s', id)
            && SamePhase(s, s', id)
  {
    var t, s' := s.tasks[id], RecoverLease(s, id, now);
    OpenHoldsQuota(s, id);
    var closed := Close(t, IsFailed, ReasonDeliveryFailed, t.mail.value.purgeAt, 0, now);
    assert s' == Emit(Settle(s, id, closed), Intent(now, CallFail, id)).(queue := s'.queue, active := s'.active);
    ClosingEffect(s, s', id, closed, CallFail, now);
  }

  lemma RecoveryEffect(s: Store, id: CallId, now: int)
    requires Inv(s)
    ensures var s' := RecoverLease(s, id, now);
            if !Lapsed(s, id, now) then s' == s
            else if s.tasks[id].mail.value.lease.value.attempt < 3 then Requeued(s, s', id, now)
            else EndsAs(s, s', id, IsFailed, ReasonDeliveryFailed, None, s.tasks[id].mail.value.purgeAt, CallFail, now) && LetGo(s, s', id) &&
                 SamePhase(s, s', id)
  {
    if Lapsed(s, id, now) {
      if s.tasks[id].mail.value.lease.value.attempt < 3 {
        RequeueEffect(s, id, now);
      } else {
        LastLapseEffect(s, id, now);
      }
      hide RecoverLease;
    }
    hide EndsAs;
    hide Requeued;
    hide LetGo;
    hide SamePhase;
    hide Inv;
  }

  lemma TimeoutEffect(s: Store, id: CallId, now: int)
    requires RecordsOk(s) && QuotaAgrees(s) && id in s.tasks && s.tasks[id].deadline <= now && s.tasks[id].mail.Some? && !Terminal(s.tasks[id])
    ensures var s' := ExpireTask(s, id, now);
            && EndsAs(s, s', id, IsFailed, if IsDelivery(s.tasks[id], Started) then ReasonFailed else ReasonExpired, None,
                      s.tasks[id].mail.value.purgeAt, CallTimeout, now)
            && LetGo(s, s', id) && SamePhase(s, s', id)
  {
    var t := s.tasks[id];
    var s' := ExpireTask(s, id, now);
    OpenHoldsQuota(s, id);
    var reason := if t.mail.value.delivery == Started then ReasonFailed else ReasonExpired;
    var closed := Close(t, IsFailed, reason, t.mail.value.purgeAt, 0, now);
    assert s' == Emit(Settle(s, id, closed), Intent(now, CallTimeout, id)).(queue := s'.queue, active := s'.active);
    ClosingEffect(s, s', id, closed, CallTimeout, now);
  }

  /** Before its deadline nothing happens to a call. */
  lemma NotDueEffect(s: Store, id: CallId, now: int)
    requires id in s.tasks ==> now < s.tasks[id].deadline
    ensures ExpireTask(s, id, now) == s
  {
  }

  predicate IsEnding(frame: Frame) {
    !frame.AcceptedFrame? && !frame.StartedFrame?
  }

  /** A terminal frame ends the call at once, as the frame says; its place in the queue is given up only later. */
  lemma EndingFrameEffect(s: Store, id: CallId, frame: Frame, lease: Option<nat>, session: Option<nat>, now: int)
    requires RecordsOk(s) && QuotaAgrees(s) && FrameApplies(s, id, lease, session) && s.tasks[id].mail.Some? && IsEnding(frame)
    ensures var s', m := OnFrame(s, id, frame, lease, session, now), s.tasks[id].mail.value;
            && StillPlaced(s, s') && SamePhase(s, s', id)
            && match frame {
                 case CancelledFrame => EndsAs(s, s', id, IsCanceled, ReasonCanceled, None, m.purgeAt, CallCancel, now)
                 case RejectedFrame => EndsAs(s, s', id, IsFailed, ReasonDeliveryFailed, None, m.purgeAt, CallFail, now)
                 case OutcomeFrame(completed, reason, answer) =>
                   EndsAs(s, s', id, if completed then IsCompleted else IsFailed,
                          if reason.Some? then reason.value else if completed then ReasonCompleted else ReasonFailed,
                          Some(answer), m.executeBy, if completed then CallComplete else CallFail, now)
                 case _ => true
               }
  {
    var s' := OnFrame(s, id, frame, lease, session, now);
    var closed := Ended(s.tasks[id], frame, now);
    assert s.tasks[id].outcome.None? by {
      OpenHoldsQuota(s, id);
    }
    assert s' == Emit(Settle(s, id, closed), Intent(now, EndingEvent(frame), id));
    hide Settle;
    ClosingEffect(s, s', id, closed, EndingEvent(frame), now);
    assert StillPlaced(s, s') by {
      SettledInPlace(s, id, closed);
    }
    hide EndsAs;
  }

  lemma SettledInPlace(s: Store, id: CallId, closed: Task)
    requires id in s.tasks
    ensures StillPlaced(s, Settle(s, id, closed))
  {
  }

  // ---- Arrivals and movements --------------------------------------------------------------

  lemma AdmissionEffect(s: Store, id: CallId, from: string, agent: string, message: string, envelope: Envelope,
                        now: int, timeout: Option<int>)
    requires Inv(s) && id !in s.tasks
    ensures var t := NewDurable(from, agent, message, envelope, now, timeout);
            var s' := Admit(s, id, t);
            if AdmissionOf(s, t.mail.value) != Admitted then s' == s
            else
              && s'.tasks == s.tasks[id := t] && OthersSame(s, s', id)
              && t.from == from && t.phase == Phase.Submitted && t.state == IsSubmitted && IsDelivery(t, Queued)
              && t.mail.value.agent == agent && t.mail.value.message == message && t.mail.value.request == Some(envelope)
              && t.mail.value.lease.None? && t.outcome.None? && t.mail.value.executeBy == t.deadline
              && t.deadline == now + (if timeout.Some? && timeout.value < 259_200_000 then timeout.value else 259_200_000)
              && t.mail.value.purgeAt == t.deadline + 86_400_000
              && s.outstanding < 100 && Count(s.perCaller, agent) < 10 && s.bytes + |envelope| <= 33_554_432
              && SlotReturned(s', s, agent, |envelope|, 0)
              && s'.queue == s.queue + {Key(now, id)} && Key(now, id) !in s.queue && s'.active == s.active
              && s'.due == s.due + {Key(t.deadline, id)}
              && s'.dedupe == s.dedupe[DedupeKey(agent, message) := Dedupe(id, envelope)] && DedupeKey(agent, message) !in s.dedupe
              && s'.outbox == s.outbox + {Intent(now, CallSubmit, id)}
  {
  }

  predicate Grant(l: Lease, previous: Option<Lease>, lease: nat, session: nat, expiresAt: int) {
    && l.id == lease && l.session == session && l.expiresAt == expiresAt && 1 <= l.attempt <= 3
    && l.attempt == if previous.Some? then previous.value.attempt + 1 else 1
  }

  /** The record but for its delivery state, its lease and the time of this write. */
  predicate OnlyLeaseChanged(t: Task, t': Task, now: int) {
    && t.mail.Some? && t'.mail.Some? && t'.updatedAt == now
    && t' == t.(updatedAt := t'.updatedAt,
                mail := Some(t.mail.value.(delivery := t'.mail.value.delivery, lease := t'.mail.value.lease)))
  }

  lemma GrantedOk(t: Task, lease: nat, session: nat, leaseMs: int, now: int)
    requires TaskOk(t) && !Terminal(t) && IsDelivery(t, Queued)
    ensures var l := LeasedRecord(t, lease, session, leaseMs, now);
            && SameCall(t, l) && IsDelivery(l, Leased) && OnlyLeaseChanged(t, l, now)
            && l.mail.value.lease.Some? && Grant(l.mail.value.lease.value, t.mail.value.lease, lease, session, now + leaseMs)
  {
  }

  ghost predicate Grants(s: Store, s': Store, id: CallId, lease: nat, session: nat, expiresAt: int, now: int) {
    && s'.active == Some(id) && SameCounters(s, s') && s'.outbox == s.outbox && s'.queue == s.queue
    && Rewrote(s, s', id) && OnlyLeaseChanged(s.tasks[id], s'.tasks[id], now) && IsDelivery(s'.tasks[id], Leased)
    && s'.tasks[id].mail.value.lease.Some?
    && Grant(s'.tasks[id].mail.value.lease.value, s.tasks[id].mail.value.lease, lease, session, expiresAt)
  }

  lemma HeadGranted(s: Store, id: CallId, lease: nat, session: nat, leaseMs: int, now: int)
    requires RecordsOk(s) && DueAgrees(s) && s.active.None? && s.queue != {} && First(s.queue).call == id
    requires id in s.tasks && IsDelivery(s.tasks[id], Queued) && !Terminal(s.tasks[id])
    ensures Grants(s, LeaseHead(s, lease, session, leaseMs, now), id, lease, session, now + leaseMs, now)
  {
    DueMember(s.tasks, DueKey(id, s.tasks[id]));
    GrantedOk(s.tasks[id], lease, session, leaseMs, now);
    hide LeasedRecord;
    hide TaskOk;
    hide Grant;
    hide OnlyLeaseChanged;
  }

  /** Nothing is leased beside an active call. Otherwise the first row of the queue is taken: its call is
      leased if it is still queued, and the row goes away if it is not. */
  lemma LeaseEffect(s: Store, lease: nat, session: nat, leaseMs: int, now: int)
    requires RecordsOk(s) && DueAgrees(s)
    ensures var s' := LeaseHead(s, lease, session, leaseMs, now);
            if s.active.Some? || s.queue == {} then s' == s
            else
              var head := First(s.queue);
              if head.call in s.tasks && !Terminal(s.tasks[head.call]) && IsDelivery(s.tasks[head.call], Queued)
              then Grants(s, s', head.call, lease, session, now + leaseMs, now)
              else s' == s.(queue := s.queue - {head})
  {
    if s.active.None? && s.queue != {} {
      var id := First(s.queue).call;
      if id in s.tasks && !Terminal(s.tasks[id]) && IsDelivery(s.tasks[id], Queued) {
        HeadGranted(s, id, lease, session, leaseMs, now);
        hide LeaseHead;
        hide Grants;
      }
    }
  }

  /** Starting a durable call fixes its deadline: no later than its expiry, no later than the time it was given. */
  lemma StartEffect(s: Store, id: CallId, timeout: int, lease: Option<nat>, session: Option<nat>, now: int)
    requires DueAgrees(s) && FrameApplies(s, id, lease, session) && s.tasks[id].mail.Some?
    ensures var s' := OnFrame(s, id, StartedFrame(timeout), lease, session, now);
            if s.tasks[id].phase == Working then s' == s
            else
            && Rewrote(s, s', id) && SameCounters(s, s') && StillPlaced(s, s')
            && IsDelivery(s'.tasks[id], Started) && s'.tasks[id].phase == Working && s'.tasks[id].state == IsWorking
            && s'.tasks[id].mail.value == s.tasks[id].mail.value.(delivery := Started)
            && s'.tasks[id].updatedAt == now && s'.tasks[id].outcome == s.tasks[id].outcome
            && s'.tasks[id].deadline <= s.tasks[id].mail.value.executeBy && s'.tasks[id].deadline <= now + timeout
            && (s'.tasks[id].deadline == s.tasks[id].mail.value.executeBy || s'.tasks[id].deadline == now + timeout)
            && s'.outbox == s.outbox + (if s.tasks[id].phase == Phase.Submitted then {Intent(now, CallAccept, id)} else {})
  {
    if s.tasks[id].phase != Working {
      AdvanceCases(s, id, Working, timeout, now);
    }
  }

  /** A purge takes away the record and every row that mentions it, and the bytes it still held. */
  lemma PurgeEffect(s: Store, id: CallId, now: int)
    requires RecordsOk(s) && QuotaAgrees(s) && id in s.tasks && s.tasks[id].deadline <= now
    requires s.tasks[id].mail.Some? && Terminal(s.tasks[id]) && s.tasks[id].mail.value.purgeAt <= now
    ensures var s', t := ExpireTask(s, id, now), s.tasks[id];
            && id !in s'.tasks && OthersSame(s, s', id) && s'.outbox == s.outbox
            && s'.outstanding == s.outstanding && s'.perCaller == s.perCaller
            && s'.bytes == s.bytes - (if t.outcome.Some? then |t.outcome.value| else 0)
            && s'.due == s.due - {DueKey(id, t)} && LetGo(s, s', id)
            && s'.dedupe == s.dedupe - {DedupeKeyOf(t.mail.value)}
  {
    assert TaskOk(s.tasks[id]);
    ReleaseNeverClamps(s, id);
  }

  /** Until its purge an ended call stays known, but its answer goes when its execution time is over. */
  lemma RetentionEffect(s: Store, id: CallId, now: int)
    requires RecordsOk(s) && QuotaAgrees(s) && id in s.tasks && s.tasks[id].deadline <= now
    requires s.tasks[id].mail.Some? && Terminal(s.tasks[id]) && s.tasks[id].mail.value.purgeAt > now
    ensures var s', t := ExpireTask(s, id, now), s.tasks[id];
            && Rewrote(s, s', id) && StillPlaced(s, s') && s'.outbox == s.outbox
            && s'.outstanding == s.outstanding && s'.perCaller == s.perCaller
            && s'.bytes == s.bytes - (if t.outcome.Some? then |t.outcome.value| else 0)
            && s'.tasks[id] == t.(deadline := t.mail.value.purgeAt, outcome := None, mail := Some(t.mail.value.(bytes := 0)))
  {
    assert TaskOk(s.tasks[id]);
    ReleaseNeverClamps(s, id);
  }
}

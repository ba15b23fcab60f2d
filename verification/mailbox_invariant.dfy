/** The indices and counters always say what a full scan of the tasks would say. One predicate per
    index; every transaction keeps them all. */
module MailboxInvariant {
  import opened Wrappers
  import opened Lifecycle
  import opened MailboxState
  import opened MailboxScan

  // ---- The invariant -----------------------------------------------------------------------

  predicate LeaseOk(m: Mail) {
    && (m.delivery == Leased || m.delivery == Started ==> m.lease.Some?)
    && (m.lease.Some? ==> 1 <= m.lease.value.attempt <= if m.delivery == Queued then 2 else MAX_LEASE_ATTEMPTS)
  }

  predicate OpenOk(t: Task, m: Mail) {
    && m.delivery != Closed && !m.released
    && m.request == Some(m.digest) && m.bytes == |m.digest| && t.outcome.None?
    && t.deadline <= m.executeBy
    && (m.delivery == Started <==> t.phase == Working)
    && (t.state == IsWorking <==> t.phase == Working)
    && LeaseOk(m)
  }

  predicate ClosedOk(t: Task, m: Mail) {
    && m.delivery == Closed && m.released
    && m.request.None? && m.lease.None? && m.reason.Some?
    && m.bytes == (if t.outcome.Some? then |t.outcome.value| else 0)
    && (t.deadline == m.executeBy || t.deadline == m.purgeAt)
    && (t.outcome.Some? ==> t.deadline == m.executeBy)
  }

  predicate TaskOk(t: Task) {
    t.mail.Some? ==>
      var m := t.mail.value;
      && m.purgeAt == m.executeBy + TOMBSTONE_TTL
      && if Terminal(t) then ClosedOk(t, m) else OpenOk(t, m)
  }

  ghost predicate RecordsOk(s: Store) {
    forall id | id in s.tasks :: TaskOk(s.tasks[id])
  }

  ghost predicate QuotaAgrees(s: Store) {
    && s.outstanding == |Where(s.tasks, Open())|
    && (forall agent :: Count(s.perCaller, agent) == |Where(s.tasks, OpenFor(agent))|)
    && s.bytes == StoredBytes(s.tasks)
  }

  ghost predicate DueAgrees(s: Store) {
    s.due == DueKeys(s.tasks)
  }

  /** Dedupe rows and stored durable tasks correspond one to one. */
  ghost predicate DedupeAgrees(s: Store) {
    && (forall id | id in s.tasks && s.tasks[id].mail.Some? ::
          var m := s.tasks[id].mail.value;
          DedupeKeyOf(m) in s.dedupe && s.dedupe[DedupeKeyOf(m)] == Dedupe(id, m.digest))
    && (forall k | k in s.dedupe ::
          && s.dedupe[k].call in s.tasks && s.tasks[s.dedupe[k].call].mail.Some?
          && DedupeKeyOf(s.tasks[s.dedupe[k].call].mail.value) == k)
  }

  predicate Waiting(t: Task) {
    IsDelivery(t, Queued) || IsDelivery(t, Leased)
  }

  ghost predicate QueueAgrees(s: Store) {
    && (forall id | id in s.tasks && Waiting(s.tasks[id]) :: QueueKey(id, s.tasks[id]) in s.queue)
    && (forall k | k in s.queue ::
          k.call in s.tasks && s.tasks[k.call].mail.Some? && k == QueueKey(k.call, s.tasks[k.call]))
    && (forall id | id in s.tasks && IsDelivery(s.tasks[id], Leased) :: s.active == Some(id))
    && (s.active.Some? ==>
          && s.active.value in s.tasks && s.tasks[s.active.value].mail.Some?
          && s.tasks[s.active.value].mail.value.delivery != Queued)
  }

  ghost predicate Inv(s: Store) {
    RecordsOk(s) && QuotaAgrees(s) && DueAgrees(s) && DedupeAgrees(s) && QueueAgrees(s)
  }

  lemma EmptyInv()
    ensures Inv(EMPTY_STORE)
  {
  }

  // ---- How counters move -------------------------------------------------------------------

  lemma QuotaPut(s: Store, s': Store, id: CallId, t: Task)
    requires QuotaAgrees(s) && s'.tasks == s.tasks[id := t]
    requires s'.outstanding == s.outstanding + Bit(HoldsQuota(t)) - Bit(id in s.tasks && HoldsQuota(s.tasks[id]))
    requires forall agent :: Count(s'.perCaller, agent) ==
               Count(s.perCaller, agent) + Bit(OpenFor(agent)(t)) - Bit(id in s.tasks && OpenFor(agent)(s.tasks[id]))
    requires s'.bytes == s.bytes + Charge(t) - (if id in s.tasks then Charge(s.tasks[id]) else 0)
    ensures QuotaAgrees(s')
  {
    WhereAfterPut(s.tasks, id, t, Open());
    StoredBytesPut(s.tasks, id, t);
    forall agent
      ensures Count(s'.perCaller, agent) == |Where(s'.tasks, OpenFor(agent))|
    {
      WhereAfterPut(s.tasks, id, t, OpenFor(agent));
    }
  }

  lemma QuotaRemove(s: Store, s': Store, id: CallId)
    requires QuotaAgrees(s) && id in s.tasks && !HoldsQuota(s.tasks[id]) && s'.tasks == s.tasks - {id}
    requires s'.outstanding == s.outstanding && s'.perCaller == s.perCaller
    requires s'.bytes == s.bytes - Charge(s.tasks[id])
    ensures QuotaAgrees(s')
  {
    WhereAfterRemove(s.tasks, id, Open());
    StoredBytesSplit(s.tasks, id);
    forall agent
      ensures Count(s'.perCaller, agent) == |Where(s'.tasks, OpenFor(agent))|
    {
      WhereAfterRemove(s.tasks, id, OpenFor(agent));
    }
  }

  /** A record that still holds quota is counted in every counter it will be taken from, so none of
      the clamps in a release can fire. */
  lemma ReleaseNeverClamps(s: Store, id: CallId)
    requires QuotaAgrees(s) && id in s.tasks
    ensures s.bytes >= Charge(s.tasks[id])
    ensures HoldsQuota(s.tasks[id]) ==> s.outstanding >= 1 && Count(s.perCaller, s.tasks[id].mail.value.agent) >= 1
  {
    StoredBytesSplit(s.tasks, id);
    var t := s.tasks[id];
    if HoldsQuota(t) {
      assert id in Where(s.tasks, Open());
      assert id in Where(s.tasks, OpenFor(t.mail.value.agent));
    }
  }

  // ---- Shapes of transactions --------------------------------------------------------------

  /** The parts of a record that no transaction changes. */
  predicate SameCall(a: Task, b: Task) {
    && a.createdAt == b.createdAt && a.from == b.from
    && (a.mail.Some? <==> b.mail.Some?)
    && (a.mail.Some? ==>
          var m, n := a.mail.value, b.mail.value;
          m.agent == n.agent && m.message == n.message && m.digest == n.digest &&
          m.executeBy == n.executeBy && m.purgeAt == n.purgeAt)
  }

  lemma RecordsPut(s: Store, s': Store, id: CallId, t: Task)
    requires RecordsOk(s) && TaskOk(t) && s'.tasks == s.tasks[id := t]
    ensures RecordsOk(s')
  {
  }

  lemma DuePut(s: Store, s': Store, id: CallId, t: Task)
    requires DueAgrees(s) && s'.tasks == s.tasks[id := t] && s'.due == PutTask(s, id, t).due
    ensures DueAgrees(s')
  {
    DueAfterPut(s.tasks, id, t);
  }

  lemma DedupePut(s: Store, s': Store, id: CallId, t: Task)
    requires DedupeAgrees(s) && id in s.tasks && SameCall(s.tasks[id], t)
    requires s'.tasks == s.tasks[id := t] && s'.dedupe == s.dedupe
    ensures DedupeAgrees(s')
  {
  }

  /** Where the active pointer may stand after one record was rewritten. */
  predicate ActiveOk(was: Option<CallId>, now: Option<CallId>, id: CallId, t: Task) {
    && (now == was || (was.None? && now == Some(id)) || (was == Some(id) && now.None?))
    && (IsDelivery(t, Leased) ==> now == Some(id))
    && (now == Some(id) ==> t.mail.Some? && t.mail.value.delivery != Queued)
  }

  lemma QueuePut(s: Store, s': Store, id: CallId, t: Task)
    requires QueueAgrees(s) && id in s.tasks && SameCall(s.tasks[id], t)
    requires s'.tasks == s.tasks[id := t] && s'.queue == s.queue
    requires Waiting(t) ==> Waiting(s.tasks[id])
    requires ActiveOk(s.active, s'.active, id, t)
    ensures QueueAgrees(s')
  {
  }

  lemma PutKeeps(s: Store, s': Store, id: CallId, t: Task)
    requires Inv(s) && QuotaAgrees(s') && TaskOk(t) && id in s.tasks && SameCall(s.tasks[id], t)
    requires s'.tasks == s.tasks[id := t] && s'.due == PutTask(s, id, t).due
    requires s'.dedupe == s.dedupe && s'.queue == s.queue
    requires Waiting(t) ==> Waiting(s.tasks[id])
    requires ActiveOk(s.active, s'.active, id, t)
    ensures Inv(s')
  {
    RecordsPut(s, s', id, t);
    DuePut(s, s', id, t);
    DedupePut(s, s', id, t);
    QueuePut(s, s', id, t);
  }

  lemma SameQuota(s: Store, s': Store, id: CallId, t: Task)
    requires QuotaAgrees(s) && id in s.tasks && SameCall(s.tasks[id], t) && s'.tasks == s.tasks[id := t]
    requires HoldsQuota(t) == HoldsQuota(s.tasks[id]) && Charge(t) == Charge(s.tasks[id])
    requires s'.outstanding == s.outstanding && s'.perCaller == s.perCaller && s'.bytes == s.bytes
    ensures QuotaAgrees(s')
  {
    QuotaPut(s, s', id, t);
  }

  /** A write that leaves a durable call open, or touches a synchronous one. */
  lemma ReviseKeeps(s: Store, s': Store, id: CallId, t: Task)
    requires Inv(s) && id in s.tasks && SameCall(s.tasks[id], t) && TaskOk(t)
    requires s' == PutTask(s, id, t).(active := s'.active)
    requires HoldsQuota(t) == HoldsQuota(s.tasks[id]) && Charge(t) == Charge(s.tasks[id])
    requires Waiting(t) ==> Waiting(s.tasks[id])
    requires ActiveOk(s.active, s'.active, id, t)
    ensures Inv(s')
  {
    SameQuota(s, s', id, t);
    PutKeeps(s, s', id, t);
  }

  /** The same, when the deadline does not move and the due index is not touched. */
  lemma ReviseInPlaceKeeps(s: Store, s': Store, id: CallId, t: Task)
    requires Inv(s) && id in s.tasks && SameCall(s.tasks[id], t) && TaskOk(t)
    requires t.deadline == s.tasks[id].deadline
    requires s' == s.(tasks := s.tasks[id := t], active := s'.active)
    requires HoldsQuota(t) == HoldsQuota(s.tasks[id]) && Charge(t) == Charge(s.tasks[id])
    requires Waiting(t) ==> Waiting(s.tasks[id])
    requires ActiveOk(s.active, s'.active, id, t)
    ensures Inv(s')
  {
    DueMember(s.tasks, DueKey(id, s.tasks[id]));
    assert s'.due == PutTask(s, id, t).due;
    ReviseKeeps(s, s', id, t);
  }

  /** What every terminal record must be, given the record it replaces. */
  predicate Closes(t: Task, closed: Task) {
    && SameCall(t, closed) && Terminal(closed)
    && (t.mail.Some? ==> !Terminal(t) && TaskOk(closed.(mail := Some(closed.mail.value.(released := true)))))
  }

  lemma SettleQuota(s: Store, id: CallId, closed: Task)
    requires QuotaAgrees(s) && id in s.tasks && Closes(s.tasks[id], closed)
    requires s.tasks[id].mail.Some? ==> HoldsQuota(s.tasks[id])
    ensures QuotaAgrees(Settle(s, id, closed))
  {
    ReleaseNeverClamps(s, id);
    QuotaPut(s, Settle(s, id, closed), id, MarkReleased(s.tasks[id], closed));
  }

  lemma ReleasedOk(t: Task, closed: Task)
    requires Closes(t, closed) && (t.mail.Some? ==> HoldsQuota(t))
    ensures var t' := MarkReleased(t, closed);
            TaskOk(t') && SameCall(t, t') && !Waiting(t') && (t'.mail.Some? ==> t'.mail.value.delivery == Closed)
  {
  }

  lemma ClosedActive(s: Store, id: CallId, t: Task)
    requires QueueAgrees(s) && id in s.tasks && (t.mail.Some? <==> s.tasks[id].mail.Some?)
    requires t.mail.Some? ==> t.mail.value.delivery == Closed
    ensures ActiveOk(s.active, s.active, id, t)
  {
  }

  lemma SettleKeeps(s: Store, id: CallId, closed: Task)
    requires Inv(s) && id in s.tasks && Closes(s.tasks[id], closed)
    ensures Inv(Settle(s, id, closed))
    ensures Settle(s, id, closed).tasks == s.tasks[id := MarkReleased(s.tasks[id], closed)]
    ensures TaskOk(MarkReleased(s.tasks[id], closed))
  {
    var t := s.tasks[id];
    var s', t' := Settle(s, id, closed), MarkReleased(t, closed);
    assert TaskOk(t);
    SettleQuota(s, id, closed);
    ReleasedOk(t, closed);
    ClosedActive(s, id, t');
    PutKeeps(s, s', id, t');
  }

  lemma DetachQueue(s: Store, id: CallId, t: Task)
    requires QueueAgrees(s) && (id in s.tasks ==> !Waiting(s.tasks[id]))
    ensures QueueAgrees(Detach(s, id, t))
  {
  }

  lemma DetachKeeps(s: Store, id: CallId, t: Task)
    requires Inv(s) && (id in s.tasks ==> !Waiting(s.tasks[id]))
    ensures Inv(Detach(s, id, t))
  {
    DetachQueue(s, id, t);
  }

  // ---- Every transaction keeps the invariant -----------------------------------------------

  /** A record written under an id that was not in use. */
  lemma NewKeeps(s: Store, s': Store, id: CallId, t: Task)
    requires Inv(s) && QuotaAgrees(s') && DedupeAgrees(s') && TaskOk(t) && id !in s.tasks
    requires !IsDelivery(t, Leased) && (t.mail.Some? ==> Waiting(t))
    requires s'.tasks == s.tasks[id := t] && s'.due == PutTask(s, id, t).due && s'.active == s.active
    requires s'.queue == s.queue + if t.mail.Some? then {QueueKey(id, t)} else {}
    ensures Inv(s')
  {
    RecordsPut(s, s', id, t);
    DuePut(s, s', id, t);
    QueueNew(s, s', id, t);
  }

  lemma QueueNew(s: Store, s': Store, id: CallId, t: Task)
    requires QueueAgrees(s) && id !in s.tasks && !IsDelivery(t, Leased) && (t.mail.Some? ==> Waiting(t))
    requires s'.tasks == s.tasks[id := t] && s'.active == s.active
    requires s'.queue == s.queue + if t.mail.Some? then {QueueKey(id, t)} else {}
    ensures QueueAgrees(s')
  {
  }

  lemma DedupeNew(s: Store, s': Store, id: CallId, t: Task)
    requires DedupeAgrees(s) && id !in s.tasks && s'.tasks == s.tasks[id := t]
    requires t.mail.None? ==> s'.dedupe == s.dedupe
    requires t.mail.Some? ==>
               var m := t.mail.value;
               DedupeKeyOf(m) !in s.dedupe && s'.dedupe == s.dedupe[DedupeKeyOf(m) := Dedupe(id, m.digest)]
    ensures DedupeAgrees(s')
  {
  }

  lemma NewDurableOk(from: string, agent: string, message: string, envelope: Envelope, now: int, timeout: Option<int>)
    ensures var t := NewDurable(from, agent, message, envelope, now, timeout);
            TaskOk(t) && HoldsQuota(t) && Waiting(t) && !IsDelivery(t, Leased) && Charge(t) == |envelope|
  {
  }

  lemma AdmitQuota(s: Store, s': Store, id: CallId, t: Task)
    requires QuotaAgrees(s) && id !in s.tasks && HoldsQuota(t) && s'.tasks == s.tasks[id := t]
    requires s'.outstanding == s.outstanding + 1 && s'.bytes == s.bytes + Charge(t)
    requires s'.perCaller == s.perCaller[t.mail.value.agent := Count(s.perCaller, t.mail.value.agent) + 1]
    ensures QuotaAgrees(s')
  {
    QuotaPut(s, s', id, t);
  }

  /** Admitting a new record adds to every index and counter, and moves nothing. */
  lemma AdmittedKeeps(s: Store, s': Store, id: CallId, t: Task)
    requires Inv(s) && id !in s.tasks && TaskOk(t) && HoldsQuota(t) && Waiting(t) && !IsDelivery(t, Leased)
    requires AdmissionOf(s, t.mail.value) == Admitted && s' == Admit(s, id, t)
    ensures Inv(s')
  {
    hide Inv;
    var m := t.mail.value;
    assert DedupeKeyOf(m) !in s.dedupe;
    assert s'.due == PutTask(s, id, t).due;
    hide OverCapacity;
    AllParts(s);
    AdmitQuota(s, s', id, t);
    DedupeNew(s, s', id, t);
    NewKeeps(s, s', id, t);
  }

  lemma AllParts(s: Store)
    requires Inv(s)
    ensures RecordsOk(s) && QuotaAgrees(s) && DueAgrees(s) && DedupeAgrees(s) && QueueAgrees(s)
  {
  }

  lemma AdmitKeeps(s: Store, id: CallId, from: string, agent: string, message: string, envelope: Envelope,
                   now: int, timeout: Option<int>)
    requires Inv(s) && id !in s.tasks
    ensures Inv(Admit(s, id, NewDurable(from, agent, message, envelope, now, timeout)))
  {
    var t := NewDurable(from, agent, message, envelope, now, timeout);
    var s' := Admit(s, id, t);
    NewDurableOk(from, agent, message, envelope, now, timeout);
    if AdmissionOf(s, t.mail.value) == Admitted {
      AdmittedKeeps(s, s', id, t);
    }
  }

  lemma StartSyncKeeps(s: Store, id: CallId, from: string, now: int, deadline: int)
    requires Inv(s) && id !in s.tasks
    ensures Inv(StartSync(s, id, NewSync(from, now, deadline)))
  {
    var t := NewSync(from, now, deadline);
    var s' := StartSync(s, id, t);
    QuotaPut(s, s', id, t);
    DedupeNew(s, s', id, t);
    NewKeeps(s, s', id, t);
  }

  lemma CancelKeeps(s: Store, id: CallId, caller: string, now: int)
    requires Inv(s)
    ensures Inv(Cancel(s, id, caller, now))
  {
    if caller != "" && id in s.tasks && s.tasks[id].from == caller && Cancelable(s.tasks[id]) {
      var t := s.tasks[id];
      OpenCloses(t, IsCanceled, ReasonCanceled, now);
      SettleAndDetachKeeps(s, id, Close(t, IsCanceled, ReasonCanceled, t.mail.value.purgeAt, 0, now), Intent(now, CallCancel, id));
    }
  }

  /** A candidate read before an authority check is an older, queued version of the same call. */
  predicate SeenBefore(seen: Task, t: Task) {
    SameCall(seen, t) && TaskOk(seen) && IsDelivery(seen, Queued) && !Terminal(seen)
  }

  lemma RevokeKeeps(s: Store, id: CallId, seen: Task, now: int)
    requires Inv(s) && seen.mail.Some? && (id in s.tasks ==> SeenBefore(seen, s.tasks[id]))
    ensures Inv(Revoke(s, id, seen, now))
  {
    if id in s.tasks && !Terminal(s.tasks[id]) && IsDelivery(s.tasks[id], Queued) {
      var t := s.tasks[id];
      var closed := Close(seen, IsRejected, ReasonRevoked, seen.mail.value.purgeAt, 0, now);
      assert TaskOk(t);
      OpenCloses(seen, IsRejected, ReasonRevoked, now);
      assert s.active != Some(id);
      SettleAndDetachKeeps(s, id, closed, Intent(now, CallFail, id));
      assert Revoke(s, id, seen, now) == Emit(Detach(Settle(s, id, closed), id, t), Intent(now, CallFail, id));
    }
  }

  lemma RebindKeeps(s: Store, lease: nat, session: nat, now: int)
    requires Inv(s)
    ensures Inv(Rebind(s, lease, session, now))
  {
    if Rebindable(s) {
      var s' := Rebind(s, lease, session, now);
      ReviseInPlaceKeeps(s, s', s.active.value, s'.tasks[s.active.value]);
    }
  }

  lemma LeasedOk(t: Task, lease: nat, session: nat, leaseMs: int, now: int)
    requires TaskOk(t) && IsDelivery(t, Queued)
    ensures var t' := LeasedRecord(t, lease, session, leaseMs, now);
            TaskOk(t') && SameCall(t, t') && Charge(t') == Charge(t) && HoldsQuota(t') == HoldsQuota(t)
  {
  }

  lemma LeaseRecordKeeps(s: Store, s': Store, id: CallId, lease: nat, session: nat, leaseMs: int, now: int)
    requires Inv(s) && s.active.None? && id in s.tasks && IsDelivery(s.tasks[id], Queued)
    requires s' == s.(tasks := s.tasks[id := LeasedRecord(s.tasks[id], lease, session, leaseMs, now)], active := Some(id))
    ensures Inv(s')
  {
    var t := LeasedRecord(s.tasks[id], lease, session, leaseMs, now);
    assert TaskOk(s.tasks[id]);
    LeasedOk(s.tasks[id], lease, session, leaseMs, now);
    ReviseInPlaceKeeps(s, s', id, t);
  }

  lemma DropHeadKeeps(s: Store, head: Key)
    requires Inv(s) && head in s.queue && s.active.None? && !IsDelivery(s.tasks[head.call], Queued)
    ensures Inv(s.(queue := s.queue - {head}))
  {
    assert !Waiting(s.tasks[head.call]);
    DetachKeeps(s, head.call, s.tasks[head.call]);
    assert head == QueueKey(head.call, s.tasks[head.call]);
  }

  lemma LeaseHeadKeeps(s: Store, lease: nat, session: nat, leaseMs: int, now: int)
    requires Inv(s)
    ensures Inv(LeaseHead(s, lease, session, leaseMs, now))
  {
    if s.active.None? && s.queue != {} {
      var head := First(s.queue);
      assert TaskOk(s.tasks[head.call]);
      if IsDelivery(s.tasks[head.call], Queued) {
        LeaseRecordKeeps(s, LeaseHead(s, lease, session, leaseMs, now), head.call, lease, session, leaseMs, now);
      } else {
        DropHeadKeeps(s, head);
      }
    }
  }

  lemma FinishKeeps(s: Store, id: CallId, t: Task)
    requires Inv(s) && (id in s.tasks ==> !Waiting(s.tasks[id]))
    ensures Inv(Finish(s, id, t))
  {
    DetachKeeps(s, id, t);
  }

  lemma RequeueKeeps(s: Store, id: CallId, now: int)
    requires Inv(s) && LeaseLapsed(s, id, now) && s.tasks[id].mail.value.lease.value.attempt < MAX_LEASE_ATTEMPTS
    ensures Inv(RecoverLease(s, id, now))
  {
    var s' := RecoverLease(s, id, now);
    assert TaskOk(s.tasks[id]);
    assert TaskOk(s'.tasks[id]);
    ReviseInPlaceKeeps(s, s', id, s'.tasks[id]);
  }

  /** Closing a call and taking it off the queue and the active pointer, as one transaction. */
  lemma SettleAndDetachKeeps(s: Store, id: CallId, closed: Task, intent: Intent)
    requires Inv(s) && id in s.tasks && s.tasks[id].mail.Some? && Closes(s.tasks[id], closed)
    ensures Inv(Emit(Detach(Settle(s, id, closed), id, s.tasks[id]), intent))
  {
    SettleKeeps(s, id, closed);
    assert !Waiting(Settle(s, id, closed).tasks[id]);
    DetachKeeps(Settle(s, id, closed), id, s.tasks[id]);
    EmitKeeps(Detach(Settle(s, id, closed), id, s.tasks[id]), intent);
  }

  lemma OpenCloses(t: Task, state: TaskState, reason: Reason, now: int)
    requires TaskOk(t) && !Terminal(t) && t.mail.Some? && state !in {IsSubmitted, IsWorking}
    ensures Closes(t, Close(t, state, reason, t.mail.value.purgeAt, 0, now))
  {
  }

  lemma RecoverLeaseKeeps(s: Store, id: CallId, now: int)
    requires Inv(s)
    ensures Inv(RecoverLease(s, id, now))
  {
    if LeaseLapsed(s, id, now) {
      var t := s.tasks[id];
      if t.mail.value.lease.value.attempt < MAX_LEASE_ATTEMPTS {
        RequeueKeeps(s, id, now);
      } else {
        OpenCloses(t, IsFailed, ReasonDeliveryFailed, now);
        SettleAndDetachKeeps(s, id, Close(t, IsFailed, ReasonDeliveryFailed, t.mail.value.purgeAt, 0, now), Intent(now, CallFail, id));
      }
    }
  }

  lemma RetainedOk(t: Task)
    requires TaskOk(t) && t.mail.Some? && Terminal(t)
    ensures TaskOk(Retained(t)) && SameCall(t, Retained(t)) && Retained(t).mail.value.delivery == Closed
    ensures !HoldsQuota(t) && !HoldsQuota(Retained(t))
    ensures Charge(Retained(t)) == if t.outcome.Some? then 0 else Charge(t)
  {
  }

  lemma RetainKeeps(s: Store, id: CallId, now: int)
    requires Inv(s) && Overdue(s, id, now) && s.tasks[id].mail.Some? && Terminal(s.tasks[id])
    requires s.tasks[id].mail.value.purgeAt > now
    ensures Inv(ExpireTask(s, id, now))
  {
    var t, s' := s.tasks[id], ExpireTask(s, id, now);
    assert TaskOk(t);
    RetainedOk(t);
    ReleaseNeverClamps(s, id);
    QuotaPut(s, s', id, Retained(t));
    ClosedActive(s, id, Retained(t));
    PutKeeps(s, s', id, Retained(t));
  }

  /** A closed record, and every row that mentions it, goes away. */
  lemma RemoveKeeps(s: Store, s': Store, id: CallId)
    requires Inv(s) && QuotaAgrees(s') && id in s.tasks && !Waiting(s.tasks[id])
    requires s'.tasks == s.tasks - {id} && s'.due == s.due - {DueKey(id, s.tasks[id])}
    requires s'.dedupe == s.dedupe - if s.tasks[id].mail.Some? then {DedupeKeyOf(s.tasks[id].mail.value)} else {}
    requires s'.queue == s.queue - if s.tasks[id].mail.Some? then {QueueKey(id, s.tasks[id])} else {}
    requires s'.active == if s.active == Some(id) then None else s.active
    ensures Inv(s')
  {
    DueAfterRemove(s.tasks, id);
    DedupeRemove(s, s', id);
    QueueRemove(s, s', id);
  }

  lemma DedupeRemove(s: Store, s': Store, id: CallId)
    requires DedupeAgrees(s) && id in s.tasks && s'.tasks == s.tasks - {id}
    requires s'.dedupe == s.dedupe - if s.tasks[id].mail.Some? then {DedupeKeyOf(s.tasks[id].mail.value)} else {}
    ensures DedupeAgrees(s')
  {
  }

  lemma QueueRemove(s: Store, s': Store, id: CallId)
    requires QueueAgrees(s) && id in s.tasks && !Waiting(s.tasks[id]) && s'.tasks == s.tasks - {id}
    requires s'.queue == s.queue - if s.tasks[id].mail.Some? then {QueueKey(id, s.tasks[id])} else {}
    requires s'.active == if s.active == Some(id) then None else s.active
    ensures QueueAgrees(s')
  {
  }

  lemma PurgeKeeps(s: Store, id: CallId)
    requires Inv(s) && id in s.tasks && s.tasks[id].mail.Some? && Terminal(s.tasks[id])
    ensures Inv(Purge(s, id))
  {
    ReleaseNeverClamps(s, id);
    QuotaRemove(s, Purge(s, id), id);
    RemoveKeeps(s, Purge(s, id), id);
  }

  lemma DropSyncKeeps(s: Store, s': Store, id: CallId)
    requires Inv(s) && id in s.tasks && s.tasks[id].mail.None?
    requires s' == s.(tasks := s.tasks - {id}, due := s.due - {DueKey(id, s.tasks[id])}, outbox := s'.outbox)
    ensures Inv(s')
  {
    assert Charge(s.tasks[id]) == 0;
    QuotaRemove(s, s', id);
    RemoveKeeps(s, s', id);
  }

  lemma ExpireTaskKeeps(s: Store, id: CallId, now: int)
    requires Inv(s)
    ensures Inv(ExpireTask(s, id, now))
  {
    if Overdue(s, id, now) {
      var t := s.tasks[id];
      if t.mail.None? {
        DropSyncKeeps(s, ExpireTask(s, id, now), id);
      } else if !Terminal(t) {
        var reason := if t.mail.value.delivery == Started then ReasonFailed else ReasonExpired;
        OpenCloses(t, IsFailed, reason, now);
        SettleAndDetachKeeps(s, id, Close(t, IsFailed, reason, t.mail.value.purgeAt, 0, now), Intent(now, CallTimeout, id));
      } else if t.mail.value.purgeAt > now {
        RetainKeeps(s, id, now);
      } else {
        PurgeKeeps(s, id);
      }
    }
  }

  lemma MovedOk(t: Task, phase: Phase, timeout: int, now: int)
    requires TaskOk(t) && !Terminal(t) && phase != Submitted && Rank(phase) > Rank(t.phase)
    requires t.mail.Some? ==> t.mail.value.lease.Some?
    ensures var moved := Moved(t, phase, timeout, now);
            && TaskOk(moved) && SameCall(t, moved) && Charge(moved) == Charge(t)
            && HoldsQuota(moved) == HoldsQuota(t) && (Waiting(moved) ==> Waiting(t))
            && (t.mail.Some? && Waiting(moved) ==> moved.mail == t.mail)
  {
  }

  lemma EmitKeeps(s: Store, i: Intent)
    requires Inv(s)
    ensures Inv(Emit(s, i))
  {
  }

  lemma ActiveStays(s: Store, id: CallId, moved: Task)
    requires QueueAgrees(s) && id in s.tasks && (moved.mail.Some? <==> s.tasks[id].mail.Some?)
    requires moved.mail.Some? && Waiting(moved) ==> moved.mail == s.tasks[id].mail
    ensures ActiveOk(s.active, s.active, id, moved)
  {
  }

  lemma MovedKeeps(s: Store, id: CallId, phase: Phase, timeout: int, now: int)
    requires Inv(s) && id in s.tasks && !Terminal(s.tasks[id]) && phase != Submitted
    requires Rank(phase) > Rank(s.tasks[id].phase)
    requires s.tasks[id].mail.Some? ==> s.tasks[id].mail.value.lease.Some?
    ensures Inv(PutTask(s, id, Moved(s.tasks[id], phase, timeout, now)))
  {
    var t := s.tasks[id];
    var moved := Moved(t, phase, timeout, now);
    assert TaskOk(t);
    MovedOk(t, phase, timeout, now);
    ActiveStays(s, id, moved);
    SameQuota(s, PutTask(s, id, moved), id, moved);
    PutKeeps(s, PutTask(s, id, moved), id, moved);
  }

  /** Whichever rows it touches, a move writes this record and reports an acceptance only if none was reported. */
  lemma AdvanceShape(s: Store, id: CallId, phase: Phase, timeout: int, now: int)
    requires id in s.tasks
    ensures var s' := AdvanceCall(s, id, phase, timeout, now);
            if Rank(phase) <= Rank(s.tasks[id].phase) then s' == s
            else
              s' == s.(tasks := s.tasks[id := Moved(s.tasks[id], phase, timeout, now)], due := s'.due,
                       outbox := s.outbox + (if s.tasks[id].phase == Submitted then {Intent(now, CallAccept, id)} else {}))
  {
  }

  lemma AdvanceCases(s: Store, id: CallId, phase: Phase, timeout: int, now: int)
    requires DueAgrees(s) && id in s.tasks
    ensures AdvanceCall(s, id, phase, timeout, now) ==
            if Rank(phase) <= Rank(s.tasks[id].phase) then s
            else if s.tasks[id].phase == Submitted
            then Emit(PutTask(s, id, Moved(s.tasks[id], phase, timeout, now)), Intent(now, CallAccept, id))
            else PutTask(s, id, Moved(s.tasks[id], phase, timeout, now))
  {
    var next := Moved(s.tasks[id], phase, timeout, now);
    if !Rekeys(id, s.tasks[id], next) {
      DueMember(s.tasks, DueKey(id, s.tasks[id]));
      assert DueKey(id, next) == DueKey(id, s.tasks[id]);
      assert PutTask(s, id, next).due == s.due;
    }
  }

  lemma AdvanceKeeps(s: Store, id: CallId, phase: Phase, timeout: int, now: int)
    requires Inv(s) && id in s.tasks && !Terminal(s.tasks[id]) && phase != Submitted
    requires s.tasks[id].mail.Some? ==> s.tasks[id].mail.value.lease.Some?
    ensures Inv(AdvanceCall(s, id, phase, timeout, now))
  {
    AdvanceCases(s, id, phase, timeout, now);
    if Rank(phase) > Rank(s.tasks[id].phase) {
      MovedKeeps(s, id, phase, timeout, now);
      EmitKeeps(PutTask(s, id, Moved(s.tasks[id], phase, timeout, now)), Intent(now, CallAccept, id));
    }
  }

  lemma EndedCloses(t: Task, frame: Frame, now: int)
    requires TaskOk(t) && !Terminal(t) && !frame.AcceptedFrame? && !frame.StartedFrame?
    ensures Closes(t, Ended(t, frame, now))
  {
  }

  lemma EndedKeeps(s: Store, id: CallId, frame: Frame, now: int)
    requires Inv(s) && id in s.tasks && !Terminal(s.tasks[id]) && !frame.AcceptedFrame? && !frame.StartedFrame?
    ensures Inv(Settle(s, id, Ended(s.tasks[id], frame, now)))
  {
    assert TaskOk(s.tasks[id]);
    EndedCloses(s.tasks[id], frame, now);
    SettleKeeps(s, id, Ended(s.tasks[id], frame, now));
  }

  lemma OnFrameKeeps(s: Store, id: CallId, frame: Frame, lease: Option<nat>, session: Option<nat>, now: int)
    requires Inv(s)
    ensures Inv(OnFrame(s, id, frame, lease, session, now))
  {
    if FrameApplies(s, id, lease, session) {
      match frame
      case AcceptedFrame => AdvanceKeeps(s, id, Accepted, 0, now);
      case StartedFrame(timeout) => AdvanceKeeps(s, id, Working, timeout, now);
      case _ => EndedKeeps(s, id, frame, now);
    }
  }
}

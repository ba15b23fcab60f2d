/** The relay object in the form it is written: fields that every transaction reads and writes one
    put or delete at a time. Each method is proved to be the storage transaction the runs are made of. */
module RelayObject {
  import opened Wrappers
  import opened Lifecycle
  import opened Ordered
  import opened MailboxState
  import opened MailboxScan
  import opened MailboxInvariant
  import opened MailboxAlarm
  import opened MailboxRun

  predicate IsFirst(k: Key, keys: set<Key>) {
    k in keys && forall o | o in keys :: o == k || Before(k, o)
  }

  lemma FirstExists(keys: set<Key>)
    requires keys != {}
    ensures exists k :: IsFirst(k, keys)
  {
    assert IsFirst(First(keys), keys);
  }

  lemma ListedStep(keys: set<Key>, limit: nat, k: Key)
    requires limit > 0 && IsFirst(k, keys)
    ensures Listed(keys, limit) == [k] + Listed(keys - {k}, limit - 1)
  {
    assert Total(KeyOrder());
    assert k == Least(KeyOrder(), keys);
  }

  lemma VisitIsExpiry(s: Store, k: Key, now: int)
    ensures Visit(s, k, now) ==
            if Overdue(s, k.call, now) then MailboxState.ExpireTask(s, k.call, now)
            else MailboxState.ExpireTask(s, k.call, now).(due := s.due - {k})
    ensures !Overdue(s, k.call, now) ==> MailboxState.ExpireTask(s, k.call, now) == s
  {
  }

  class HandleDO {
    var tasks: map<CallId, Task>
    var queue: set<Key>
    var due: set<Key>
    var dedupe: map<DedupeKey, Dedupe>
    var active: Option<CallId>
    var outstanding: int
    var perCaller: map<string, int>
    var bytes: int
    var outbox: set<Intent>

    ghost function State(): Store
      reads this
    {
      Store(tasks, queue, due, dedupe, active, outstanding, perCaller, bytes, outbox)
    }

    constructor ()
      ensures State() == EMPTY_STORE
    {
      tasks, queue, due, dedupe, active := map[], {}, {}, map[], None;
      outstanding, perCaller, bytes, outbox := 0, map[], 0, {};
    }

    /** storage.list: the keys with one prefix, in order, at most `limit` of them. */
    static method List(keys: set<Key>, limit: nat) returns (rows: seq<Key>)
      ensures rows == Listed(keys, limit)
    {
      rows := [];
      var rest := keys;
      while |rows| < limit && rest != {}
        invariant |rows| <= limit && rows + Listed(rest, limit - |rows|) == Listed(keys, limit)
        decreases rest
      {
        FirstExists(rest);
        var k :| IsFirst(k, rest);
        ListedStep(rest, limit - |rows|, k);
        rows := rows + [k];
        rest := rest - {k};
      }
    }

    method ReleaseDurableQuota(previous: Task, next: Task) returns (persisted: Task)
      modifies `outstanding, `perCaller, `bytes
      ensures State() == ReleaseQuota(old(State()), previous, next)
      ensures persisted == MarkReleased(previous, next)
    {
      if previous.mail.None? || previous.mail.value.released {
        return next;
      }
      var agent := previous.mail.value.agent;
      var held, callerHeld, stored := outstanding, Count(perCaller, agent), bytes;
      outstanding := if held < 1 then 0 else held - 1;
      perCaller := perCaller[agent := if callerHeld < 1 then 0 else callerHeld - 1];
      var left := stored - previous.mail.value.bytes + Charge(next);
      bytes := if left < 0 then 0 else left;
      persisted := if next.mail.Some? then next.(mail := Some(next.mail.value.(released := true))) else next;
    }

    method PersistTaskWithAudit(id: CallId, task: Task, intent: Intent)
      modifies this
      ensures State() == Emit(if id in old(tasks) && Terminal(task) then Settle(old(State()), id, task)
                              else PutTask(old(State()), id, task), intent)
    {
      var persisted := task;
      if id in tasks && Terminal(task) {
        persisted := ReleaseDurableQuota(tasks[id], task);
      }
      var stale := if id in tasks then {DueKey(id, tasks[id])} else {};
      tasks := tasks[id := persisted];
      if stale != {DueKey(id, persisted)} {
        due := due - stale;
      }
      due := due + {DueKey(id, persisted)};
      outbox := outbox + {intent};
    }

    /** What the transaction decides before it writes anything. */
    method DecideAdmission(m: Mail) returns (result: Admission)
      ensures result == AdmissionOf(State(), m)
    {
      var key := DedupeKey(m.agent, m.message);
      result := Conflict;
      if key in dedupe {
        var entry := dedupe[key];
        if entry.digest != m.digest {
          return;
        }
        if entry.call in tasks {
          result := Existing(tasks[entry.call]);
        }
        return;
      }
      var held, callerHeld, stored := outstanding, Count(perCaller, m.agent), bytes;
      if held >= MAX_QUEUED_TASKS || callerHeld >= MAX_OUTSTANDING_PER_CALLER || stored + m.bytes > MAX_STORED_BYTES {
        return AtCapacity;
      }
      result := Admitted;
    }

    method AdmitDurableTask(id: CallId, task: Task) returns (result: Admission)
      requires task.mail.Some?
      modifies this
      ensures result == AdmissionOf(old(State()), task.mail.value)
      ensures State() == Admit(old(State()), id, task)
    {
      var m := task.mail.value;
      result := DecideAdmission(m);
      if result != Admitted {
        return;
      }
      tasks := tasks[id := task];
      dedupe := dedupe[DedupeKey(m.agent, m.message) := Dedupe(id, m.digest)];
      queue := queue + {QueueKey(id, task)};
      due := due + {DueKey(id, task)};
      outstanding := outstanding + 1;
      perCaller := perCaller[m.agent := Count(perCaller, m.agent) + 1];
      bytes := bytes + m.bytes;
      outbox := outbox + {Intent(task.createdAt, CallSubmit, id)};
    }

    method CancelTask(id: CallId, caller: string, now: int) returns (canceled: Option<Task>)
      modifies this
      ensures State() == Cancel(old(State()), id, caller, now)
      ensures canceled.Some? <==> caller != "" && id in old(tasks) && old(tasks)[id].from == caller && Cancelable(old(tasks)[id])
      ensures canceled.Some? ==> id in tasks && canceled.value.state == IsCanceled && tasks[id] == MarkReleased(old(tasks)[id], canceled.value)
    {
      canceled := None;
      if caller == "" || id !in tasks || tasks[id].from != caller || Terminal(tasks[id]) {
        return;
      }
      var current := tasks[id];
      if current.mail.None? || (current.mail.value.delivery != Queued && current.mail.value.delivery != Leased) {
        return;
      }
      var cancellation := Close(current, IsCanceled, ReasonCanceled, current.mail.value.purgeAt, 0, now);
      canceled := Some(cancellation);
      var persisted := ReleaseDurableQuota(current, cancellation);
      tasks := tasks[id := persisted];
      queue := queue - {QueueKey(id, current)};
      due := due - {DueKey(id, current)};
      due := due + {DueKey(id, cancellation)};
      if active == Some(id) {
        active := None;
      }
      outbox := outbox + {Intent(now, CallCancel, id)};
    }

    method RevokeDurableTask(id: CallId, seen: Task, now: int)
      requires seen.mail.Some?
      modifies this
      ensures State() == Revoke(old(State()), id, seen, now)
    {
      var revoked := Close(seen, IsRejected, ReasonRevoked, seen.mail.value.purgeAt, 0, now);
      if id !in tasks || Terminal(tasks[id]) || !IsDelivery(tasks[id], Queued) {
        return;
      }
      var current := tasks[id];
      var persisted := ReleaseDurableQuota(current, revoked);
      tasks := tasks[id := persisted];
      queue := queue - {QueueKey(id, current)};
      due := due - {DueKey(id, current)};
      due := due + {DueKey(id, revoked)};
      outbox := outbox + {Intent(now, CallFail, id)};
    }

    /** The first half of a dispatch: a started call is handed to the listener that just connected. */
    method RebindActive(lease: nat, session: nat, now: int)
      modifies `tasks
      ensures State() == Rebind(old(State()), lease, session, now)
    {
      if active.None? || active.value !in tasks {
        return;
      }
      var t := tasks[active.value];
      if !IsDelivery(t, Started) || t.mail.value.request.None? || Terminal(t) {
        return;
      }
      var attempt := if t.mail.value.lease.Some? then t.mail.value.lease.value.attempt else 1;
      tasks := tasks[active.value := t.(
        updatedAt := now, mail := Some(t.mail.value.(lease := Some(Lease(lease, session, t.deadline, attempt)))))];
    }

    /** The leasing half of a dispatch. */
    method LeaseNext(lease: nat, session: nat, leaseMs: int, now: int) returns (leased: Option<CallId>)
      modifies `tasks, `queue, `active
      ensures State() == LeaseHead(old(State()), lease, session, leaseMs, now)
      ensures leased.Some? ==> old(active).None? && active == leased && leased.value in tasks
      ensures leased.Some? ==> IsDelivery(tasks[leased.value], Leased)
      ensures leased.Some? ==> queue != {} && First(queue).call == leased.value
    {
      leased := None;
      if active.Some? {
        return;
      }
      var rows := List(queue, 1);
      if rows == [] {
        return;
      }
      var head := rows[0];
      assert head == First(queue);
      if head.call !in tasks || Terminal(tasks[head.call]) || !IsDelivery(tasks[head.call], Queued) {
        queue := queue - {head};
        return;
      }
      var t := tasks[head.call];
      var previous := if t.mail.value.lease.Some? then t.mail.value.lease.value.attempt else 0;
      var grant := Lease(lease, session, now + leaseMs, previous + 1);
      tasks := tasks[head.call := t.(updatedAt := now, mail := Some(t.mail.value.(delivery := Leased, lease := Some(grant))))];
      active := Some(head.call);
      leased := Some(head.call);
    }

    method FinishDurableTask(id: CallId, task: Task)
      modifies `queue, `active
      ensures State() == Finish(old(State()), id, task)
    {
      if task.mail.None? {
        return;
      }
      queue := queue - {QueueKey(id, task)};
      if active == Some(id) {
        active := None;
      }
    }

    method RecoverExpiredLease(id: CallId, now: int)
      modifies this
      ensures State() == RecoverLease(old(State()), id, now)
    {
      if id !in tasks || !IsDelivery(tasks[id], Leased) || tasks[id].mail.value.lease.None? ||
         tasks[id].mail.value.lease.value.expiresAt > now || Terminal(tasks[id]) {
        return;
      }
      var current := tasks[id];
      if active == Some(id) {
        active := None;
      }
      if current.mail.value.lease.value.attempt < MAX_LEASE_ATTEMPTS {
        tasks := tasks[id := current.(updatedAt := now, mail := Some(current.mail.value.(delivery := Queued)))];
        return;
      }
      var failed := Close(current, IsFailed, ReasonDeliveryFailed, current.mail.value.purgeAt, 0, now);
      var persisted := ReleaseDurableQuota(current, failed);
      tasks := tasks[id := persisted];
      queue := queue - {QueueKey(id, current)};
      due := due - {DueKey(id, current)};
      due := due + {DueKey(id, failed)};
      outbox := outbox + {Intent(now, CallFail, id)};
    }

    /** A terminal record that came due: its answer goes first, the record itself at the purge time. */
    method RetainOrPurge(id: CallId, now: int)
      requires id in tasks && tasks[id].mail.Some? && Terminal(tasks[id]) && tasks[id].deadline <= now
      modifies this
      ensures State() == MailboxState.ExpireTask(old(State()), id, now)
    {
      var current := tasks[id];
      var m := current.mail.value;
      if m.purgeAt > now {
        var retained := current.(deadline := m.purgeAt);
        if retained.outcome.Some? {
          bytes := if bytes < m.bytes then 0 else bytes - m.bytes;
          retained := retained.(outcome := None, mail := Some(m.(bytes := 0)));
        }
        tasks := tasks[id := retained];
        due := due - {DueKey(id, current)};
        due := due + {DueKey(id, retained)};
        return;
      }
      tasks := tasks - {id};
      queue := queue - {QueueKey(id, current)};
      due := due - {DueKey(id, current)};
      dedupe := dedupe - {DedupeKey(m.agent, m.message)};
      if m.released && m.bytes > 0 {
        bytes := if bytes < m.bytes then 0 else bytes - m.bytes;
      }
      if active == Some(id) {
        active := None;
      }
    }

    method ExpireTask(id: CallId, now: int) returns (expired: bool)
      modifies this
      ensures expired == Overdue(old(State()), id, now)
      ensures State() == MailboxState.ExpireTask(old(State()), id, now)
    {
      if id !in tasks || tasks[id].deadline > now {
        return false;
      }
      expired := true;
      var current := tasks[id];
      if current.mail.Some? {
        if Terminal(current) {
          RetainOrPurge(id, now);
          return;
        }
        var reason := if current.mail.value.delivery == Started then ReasonFailed else ReasonExpired;
        var late := Close(current, IsFailed, reason, current.mail.value.purgeAt, 0, now);
        var persisted := ReleaseDurableQuota(current, late);
        tasks := tasks[id := persisted];
        queue := queue - {QueueKey(id, current)};
        due := due - {DueKey(id, current)};
        due := due + {DueKey(id, late)};
        if active == Some(id) {
          active := None;
        }
        outbox := outbox + {Intent(now, CallTimeout, id)};
        return;
      }
      tasks := tasks - {id};
      due := due - {DueKey(id, current)};
      if !Terminal(current) {
        outbox := outbox + {Intent(now, CallTimeout, id)};
      }
    }

    /** The loop over the listed rows, up to the first that lies in the future. */
    method ExpireDue(rows: seq<Key>, now: int)
      modifies this
      ensures State() == ExpireListed(old(State()), rows, now)
    {
      hide MailboxState.ExpireTask;
      ghost var done := ExpireListed(State(), rows, now);
      var i := 0;
      while i < |rows| && rows[i].at <= now
        invariant 0 <= i <= |rows|
        invariant ExpireListed(State(), rows[i..], now) == done
      {
        VisitIsExpiry(State(), rows[i], now);
        assert rows[i..][1..] == rows[i + 1..];
        var expired := ExpireTask(rows[i].call, now);
        if !expired {
          due := due - {rows[i]};
        }
        i := i + 1;
      }
    }

    method Alarm(now: int)
      modifies this
      ensures State() == MailboxState.Alarm(old(State()), now)
      ensures Inv(old(State())) ==> Inv(State())
    {
      hide RecoverLease;
      hide ExpireListed;
      hide Inv;
      if active.Some? {
        RecoverExpiredLease(active.value, now);
      }
      var rows := List(due, DRAIN_LIMIT);
      ExpireDue(rows, now);
      if Inv(old(State())) {
        AlarmKeeps(old(State()), now);
      }
    }

    method AdvanceCall(id: CallId, phase: Phase, timeout: int, now: int)
      requires id in tasks && !Terminal(tasks[id])
      modifies this
      ensures State() == MailboxState.AdvanceCall(old(State()), id, phase, timeout, now)
    {
      var current := tasks[id];
      if Rank(phase) <= Rank(current.phase) {
        return;
      }
      var next := current.(phase := phase, updatedAt := now);
      if phase == Working {
        next := next.(state := IsWorking);
        if current.mail.Some? {
          var m := current.mail.value;
          next := next.(mail := Some(m.(delivery := Started)), deadline := Smaller(m.executeBy, now + timeout));
        }
      }
      assert next == Moved(current, phase, timeout, now);
      if phase == Working && current.mail.Some? {
        tasks := tasks[id := next];
        if DueKey(id, current) != DueKey(id, next) {
          due := due - {DueKey(id, current)};
          due := due + {DueKey(id, next)};
        }
        if current.phase == Phase.Submitted {
          outbox := outbox + {Intent(now, CallAccept, id)};
        }
      } else if current.phase == Phase.Submitted {
        PersistTaskWithAudit(id, next, Intent(now, CallAccept, id));
      } else {
        tasks := tasks[id := next];
      }
    }

    /** A listener frame, up to the wait for its audit delivery. A terminal frame leaves behind the
        record that the finishing step will be called with. */
    method ReceiveFrame(id: CallId, frame: Frame, lease: Option<nat>, session: Option<nat>, now: int)
      returns (finishing: Option<Task>)
      modifies this
      ensures State() == OnFrame(old(State()), id, frame, lease, session, now)
      ensures finishing.Some? <==>
              FrameApplies(old(State()), id, lease, session) && !frame.AcceptedFrame? && !frame.StartedFrame?
      ensures finishing.Some? ==> finishing.value == Ended(old(tasks)[id], frame, now)
    {
      finishing := None;
      if id !in tasks || Terminal(tasks[id]) || !ValidLease(tasks[id], lease, session) {
        return;
      }
      match frame {
        case AcceptedFrame => AdvanceCall(id, Accepted, 0, now);
        case StartedFrame(timeout) => AdvanceCall(id, Working, timeout, now);
        case _ =>
          var ended := Ended(tasks[id], frame, now);
          PersistTaskWithAudit(id, ended, Intent(now, EndingEvent(frame), id));
          finishing := Some(ended);
      }
    }

    method DeleteDelivered(items: seq<Intent>)
      modifies `outbox
      ensures State() == old(State()).(outbox := old(outbox) - (set i | i in items))
    {
      outbox := outbox - (set i | i in items);
    }

    /** scheduleNextAlarm reads one due row, one record, one outbox row and the rate limiter's next
        maintenance time; the time it picks is the earliest of everything that waits. */
    method ScheduleNextAlarm(now: int, maintenance: Option<int>) returns (at: Option<int>)
      requires DueAgrees(State())
      ensures IsMinimum(at, Wakeups(State(), now) + if maintenance.Some? then {maintenance.value} else {})
    {
      at := None;
      var rows := List(due, 1);
      FirstDueIsEarliest(State());
      if rows != [] {
        assert rows[0] == First(due);
        at := Some(rows[0].at);
      }
      assert IsMinimum(at, set id | id in tasks :: tasks[id].deadline);
      if active.Some? && active.value in tasks && tasks[active.value].mail.Some? &&
         tasks[active.value].mail.value.lease.Some? {
        var expiresAt := tasks[active.value].mail.value.lease.value.expiresAt;
        if at.None? || expiresAt < at.value {
          at := Some(expiresAt);
        }
      }
      if outbox != {} && (at.None? || now + AUDIT_RETRY < at.value) {
        at := Some(now + AUDIT_RETRY);
      }
      if maintenance.Some? && (at.None? || maintenance.value < at.value) {
        at := maintenance;
      }
    }
  }

  /** The organization's event table, as far as the outbox writes it. */
  class EventTable {
    var events: seq<Intent>

    constructor ()
      ensures events == []
    {
      events := [];
    }

    method InsertBatch(items: seq<Intent>)
      modifies this
      ensures events == Insert(old(events), items)
    {
      var i := 0;
      while i < |items|
        invariant 0 <= i <= |items|
        invariant Insert(events, items[i..]) == Insert(old(events), items)
      {
        if !exists j | 0 <= j < |events| :: SameEventKey(events[j], items[i]) {
          events := events + [items[i]];
        }
        assert items[i..][1..] == items[i + 1..];
        i := i + 1;
      }
    }
  }
}

/** Runs of the relay object: storage transactions interleaved with the continuations that wait for
    the database, lose their process, or come back late. */
module MailboxRun {
  import opened Wrappers
  import opened Lifecycle
  import opened Ordered
  import opened MailboxState
  import opened MailboxScan
  import opened MailboxInvariant
  import opened MailboxAlarm

  /** A continuation that holds a record read before it waited. */
  datatype Resume = Resume(call: CallId, task: Task)

  /** One delivery of audit intents: read from the outbox, then maybe committed to the database. */
  datatype Flush = Flush(items: seq<Intent>, delivered: bool)

  datatype World = World(
    store: Store, clock: int, used: set<CallId>,
    checks: set<Resume>, finishing: set<Resume>, flushes: map<nat, Flush>, ledger: seq<Intent>)

  const START := World(EMPTY_STORE, 0, {}, {}, {}, map[], [])

  datatype Action =
    | Submit(id: CallId, from: string, agent: string, message: string, envelope: Envelope, readAt: int, timeout: Option<int>)
    | CallNow(id: CallId, from: string, readAt: int, deadline: int)
    | CancelBy(id: CallId, caller: string, now: int)
    | AskAuthority
    | Deny(denied: Resume, now: int)
    | LeaseNext(lease: nat, session: nat, leaseMs: int, now: int)
    | RebindActive(lease: nat, session: nat, now: int)
    | Receive(id: CallId, frame: Frame, claimed: Option<nat>, sender: Option<nat>, now: int)
    | FinishCall(finished: Resume)
    | Ring(now: int)
    | FlushRead(flush: nat)
    | FlushCommit(flush: nat)
    | FlushDelete(flush: nat)
    | FlushFail(flush: nat)
    | Crash

  // ---- The audit outbox --------------------------------------------------------------------

  function EventOrdinal(e: Event): nat {
    match e
    case CallSubmit => 0
    case CallAccept => 1
    case CallCancel => 2
    case CallComplete => 3
    case CallFail => 4
    case CallTimeout => 5
  }

  /** Outbox keys sort by time, then lifecycle rank, then event key. */
  predicate IntentBefore(a: Intent, b: Intent) {
    a.at < b.at || (a.at == b.at && (
      EventRank(a.event) < EventRank(b.event) || (EventRank(a.event) == EventRank(b.event) && (
        a.call < b.call || (a.call == b.call && EventOrdinal(a.event) < EventOrdinal(b.event))))))
  }

  function IntentOrder(): (Intent, Intent) -> bool {
    (a, b) => IntentBefore(a, b)
  }

  lemma IntentOrderTotal()
    ensures Total(IntentOrder())
  {
    var less := IntentOrder();
    forall a, b
      ensures a == b || less(a, b) || less(b, a)
    {
      assert EventOrdinal(a.event) == EventOrdinal(b.event) ==> a.event == b.event;
    }
  }

  ghost function Pending(outbox: set<Intent>): seq<Intent> {
    IntentOrderTotal();
    Prefix(IntentOrder(), outbox, DRAIN_LIMIT)
  }

  predicate SameEventKey(a: Intent, b: Intent) {
    a.call == b.call && a.event == b.event
  }

  predicate Recorded(ledger: seq<Intent>, i: Intent) {
    exists j :: 0 <= j < |ledger| && SameEventKey(ledger[j], i)
  }

  /** INSERT … ON CONFLICT(event_key) DO NOTHING, row by row in one batch. */
  function Insert(ledger: seq<Intent>, items: seq<Intent>): seq<Intent>
    decreases |items|
  {
    if items == [] then ledger
    else Insert(if Recorded(ledger, items[0]) then ledger else ledger + [items[0]], items[1..])
  }

  // ---- Steps -------------------------------------------------------------------------------

  predicate Timely(w: World, a: Action) {
    match a
    case Submit(_, _, _, _, _, readAt, _) => readAt <= w.clock
    case CallNow(_, _, readAt, _) => readAt <= w.clock
    case CancelBy(_, _, now) => w.clock <= now
    case Deny(_, now) => w.clock <= now
    case LeaseNext(_, _, _, now) => w.clock <= now
    case RebindActive(_, _, now) => w.clock <= now
    case Receive(_, _, _, _, now) => w.clock <= now
    case Ring(now) => w.clock <= now
    case _ => true
  }

  /** What may happen next: ids are fresh, the clock does not go back, a continuation runs only if
      it is waiting, and rows are deleted from the outbox only by a flush that reached the database. */
  predicate Enabled(w: World, a: Action) {
    Timely(w, a) &&
    match a
    case Submit(id, _, _, _, _, _, _) => id !in w.used
    case CallNow(id, _, _, _) => id !in w.used
    case Deny(denied, _) => denied in w.checks && denied.task.mail.Some?
    case FinishCall(finished) => finished in w.finishing
    case FlushRead(f) => f !in w.flushes
    case FlushCommit(f) => f in w.flushes && !w.flushes[f].delivered
    case FlushDelete(f) => f in w.flushes && w.flushes[f].delivered
    case FlushFail(f) => f in w.flushes
    case _ => true
  }

  ghost function Head(s: Store): Option<Resume> {
    if s.active.Some? || s.queue == {} then None
    else
      var id := First(s.queue).call;
      if id in s.tasks && IsDelivery(s.tasks[id], Queued) && !Terminal(s.tasks[id]) then Some(Resume(id, s.tasks[id]))
      else None
  }

  ghost function Step(w: World, a: Action): World
    requires Enabled(w, a)
  {
    match a
    case Submit(id, from, agent, message, envelope, readAt, timeout) =>
      var t := NewDurable(from, agent, message, envelope, readAt, timeout);
      w.(store := Admit(w.store, id, t),
         used := if AdmissionOf(w.store, t.mail.value) == Admitted then w.used + {id} else w.used)
    case CallNow(id, from, readAt, deadline) =>
      w.(store := StartSync(w.store, id, NewSync(from, readAt, deadline)), used := w.used + {id})
    case CancelBy(id, caller, now) => w.(store := Cancel(w.store, id, caller, now), clock := now)
    case AskAuthority => w.(checks := w.checks + if Head(w.store).Some? then {Head(w.store).value} else {})
    case Deny(c, now) => w.(store := Revoke(w.store, c.call, c.task, now), clock := now, checks := w.checks - {c})
    case LeaseNext(lease, session, leaseMs, now) =>
      w.(store := LeaseHead(w.store, lease, session, leaseMs, now), clock := now)
    case RebindActive(lease, session, now) => w.(store := Rebind(w.store, lease, session, now), clock := now)
    case Receive(id, frame, claimed, sender, now) =>
      var next := OnFrame(w.store, id, frame, claimed, sender, now);
      w.(store := next, clock := now,
         finishing := if FrameApplies(w.store, id, claimed, sender) && Terminal(next.tasks[id])
                      then w.finishing + {Resume(id, next.tasks[id])} else w.finishing)
    case FinishCall(c) => w.(store := Finish(w.store, c.call, c.task), finishing := w.finishing - {c})
    case Ring(now) => w.(store := Alarm(w.store, now), clock := now)
    case FlushRead(f) => w.(flushes := w.flushes[f := Flush(Pending(w.store.outbox), false)])
    case FlushCommit(f) =>
      w.(ledger := Insert(w.ledger, w.flushes[f].items), flushes := w.flushes[f := w.flushes[f].(delivered := true)])
    case FlushDelete(f) =>
      w.(store := w.store.(outbox := w.store.outbox - (set i | i in w.flushes[f].items)), flushes := w.flushes - {f})
    case FlushFail(f) => w.(flushes := w.flushes - {f})
    case Crash => w.(checks := {}, finishing := {}, flushes := map[])
  }

  // ---- What the transactions do to one call ------------------------------------------------

  type Record = Option<Task>

  function RecordOf(s: Store, id: CallId): Record {
    if id in s.tasks then Some(s.tasks[id]) else None
  }

  /** How far a call is from being gone. Every write but a rebind makes it smaller. */
  function Distance(r: Record): nat {
    if r.None? then 0
    else
      var t := r.value;
      if t.mail.None? then (if Terminal(t) then 1 else 2 + (2 - Rank(t.phase)))
      else if Terminal(t) then (if t.deadline == t.mail.value.purgeAt then 1 else 2)
      else 3 + LeaseDistance(t.mail.value) + (2 - Rank(t.phase))
  }

  function LeaseDistance(m: Mail): nat {
    var attempts := if m.lease.Some? && 0 <= m.lease.value.attempt <= 3 then m.lease.value.attempt as nat else 0;
    match m.delivery
    case Queued => 2 * (3 - attempts)
    case Leased => 2 * (3 - attempts) + 1
    case _ => 0
  }

  function EndingOf(t: Task): (TaskState, Option<Reason>) {
    (t.state, if t.mail.Some? then t.mail.value.reason else None)
  }

  /** A record is untouched, or strictly nearer to being gone; and an ended call keeps its ending. */
  predicate Progress(a: Record, b: Record) {
    || a == b
    || (a.Some? && Distance(b) < Distance(a) &&
        (b.Some? && Terminal(a.value) ==> Terminal(b.value) && EndingOf(b.value) == EndingOf(a.value)))
  }

  predicate NoRegress(a: Record, b: Record) {
    a.Some? && b.Some? ==> Rank(a.value.phase) <= Rank(b.value.phase)
  }

  /** Continuations that remember a record stay valid across a write of this kind. */
  predicate Carries(a: Record, b: Record) {
    a.Some? && b.Some? ==>
      && SameCall(a.value, b.value)
      && (Terminal(a.value) ==> Terminal(b.value))
      && (Terminal(b.value) || Rank(a.value.phase) <= Rank(b.value.phase))
  }

  /** Where a call is in its life, as far as its audit trail is concerned. */
  datatype Stage = Unused | Fresh | Taken | Over

  function StageOf(r: Record, used: bool): Stage {
    if !used then Unused
    else if r.None? || Terminal(r.value) then Over
    else if r.value.phase == Submitted then Fresh
    else Taken
  }

  /** The audit events one step may emit for one call, from the stages before and after. */
  predicate EmitsFor(before: Stage, after: Stage, news: set<Intent>, id: CallId, now: int) {
    || (before == after && news == {})
    || (before == Unused && after == Fresh && news == {Intent(now, CallSubmit, id)})
    || (before == Fresh && after == Taken && news == {Intent(now, CallAccept, id)})
    || ((before == Fresh || before == Taken) && after == Over &&
        exists e: Event :: EventRank(e) == 2 && news == {Intent(now, e, id)})
  }

  ghost predicate OthersSame(s: Store, s': Store, id: CallId) {
    forall o | o != id :: RecordOf(s', o) == RecordOf(s, o)
  }

  /** One transaction: it writes one call's record, and emits what that change calls for. */
  ghost predicate OneCall(s: Store, s': Store, id: CallId, used: set<CallId>, used': set<CallId>, now: int) {
    && OthersSame(s, s', id) && Carries(RecordOf(s, id), RecordOf(s', id))
    && used <= used' <= used + {id}
    && s.outbox <= s'.outbox
    && exists news :: EmitsFor(StageOf(RecordOf(s, id), id in used), StageOf(RecordOf(s', id), id in used'), news, id, now)
                      && s'.outbox == s.outbox + news
  }

  lemma OneCallBy(s: Store, s': Store, id: CallId, used: set<CallId>, used': set<CallId>, now: int, news: set<Intent>)
    requires OthersSame(s, s', id) && Carries(RecordOf(s, id), RecordOf(s', id)) && used <= used' <= used + {id}
    requires EmitsFor(StageOf(RecordOf(s, id), id in used), StageOf(RecordOf(s', id), id in used'), news, id, now)
    requires s'.outbox == s.outbox + news
    ensures OneCall(s, s', id, used, used', now)
  {
  }

  lemma EndsWith(stage: Stage, e: Event, id: CallId, now: int)
    requires (stage == Fresh || stage == Taken) && EventRank(e) == 2
    ensures EmitsFor(stage, Over, {Intent(now, e, id)}, id, now)
  {
  }

  lemma AdmitOne(s: Store, id: CallId, t: Task, used: set<CallId>)
    requires id !in used && id !in s.tasks && t.mail.Some? && !Terminal(t) && t.phase == Submitted
    ensures var used' := if AdmissionOf(s, t.mail.value) == Admitted then used + {id} else used;
            OneCall(s, Admit(s, id, t), id, used, used', t.createdAt)
  {
    var news := if AdmissionOf(s, t.mail.value) == Admitted then {Intent(t.createdAt, CallSubmit, id)} else {};
    var used' := if AdmissionOf(s, t.mail.value) == Admitted then used + {id} else used;
    OneCallBy(s, Admit(s, id, t), id, used, used', t.createdAt, news);
  }

  lemma StartSyncOne(s: Store, id: CallId, from: string, now: int, deadline: int, used: set<CallId>)
    requires id !in used && id !in s.tasks
    ensures OneCall(s, StartSync(s, id, NewSync(from, now, deadline)), id, used, used + {id}, now)
  {
    OneCallBy(s, StartSync(s, id, NewSync(from, now, deadline)), id, used, used + {id}, now, {Intent(now, CallSubmit, id)});
  }

  lemma CancelOne(s: Store, id: CallId, caller: string, now: int, used: set<CallId>)
    requires s.tasks.Keys <= used && RecordsOk(s)
    ensures OneCall(s, Cancel(s, id, caller, now), id, used, used, now)
    ensures Progress(RecordOf(s, id), RecordOf(Cancel(s, id, caller, now), id))
    ensures NoRegress(RecordOf(s, id), RecordOf(Cancel(s, id, caller, now), id))
  {
    var s' := Cancel(s, id, caller, now);
    if caller != "" && id in s.tasks && s.tasks[id].from == caller && Cancelable(s.tasks[id]) {
      assert TaskOk(s.tasks[id]);
      EndsWith(StageOf(RecordOf(s, id), true), CallCancel, id, now);
      OneCallBy(s, s', id, used, used, now, {Intent(now, CallCancel, id)});
    } else {
      OneCallBy(s, s', id, used, used, now, {});
    }
  }

  lemma RevokeOne(s: Store, id: CallId, seen: Task, now: int, used: set<CallId>)
    requires s.tasks.Keys <= used && RecordsOk(s) && seen.mail.Some? && (id in s.tasks ==> SeenBefore(seen, s.tasks[id]))
    ensures OneCall(s, Revoke(s, id, seen, now), id, used, used, now)
    ensures Progress(RecordOf(s, id), RecordOf(Revoke(s, id, seen, now), id))
  {
    var s' := Revoke(s, id, seen, now);
    if id in s.tasks && !Terminal(s.tasks[id]) && IsDelivery(s.tasks[id], Queued) {
      EndsWith(StageOf(RecordOf(s, id), true), CallFail, id, now);
      OneCallBy(s, s', id, used, used, now, {Intent(now, CallFail, id)});
    } else {
      OneCallBy(s, s', id, used, used, now, {});
    }
  }

  lemma LeaseHeadOne(s: Store, lease: nat, session: nat, leaseMs: int, now: int, used: set<CallId>)
    requires s.tasks.Keys <= used && RecordsOk(s) && s.active.None? && s.queue != {}
    ensures var id, s' := First(s.queue).call, LeaseHead(s, lease, session, leaseMs, now);
            && OneCall(s, s', id, used, used, now)
            && Progress(RecordOf(s, id), RecordOf(s', id)) && NoRegress(RecordOf(s, id), RecordOf(s', id))
  {
    var id, s' := First(s.queue).call, LeaseHead(s, lease, session, leaseMs, now);
    if id in s.tasks {
      assert TaskOk(s.tasks[id]);
    }
    OneCallBy(s, s', id, used, used, now, {});
  }

  lemma RebindOne(s: Store, lease: nat, session: nat, now: int, used: set<CallId>)
    requires Rebindable(s)
    ensures var id, s' := s.active.value, Rebind(s, lease, session, now);
            && OneCall(s, s', id, used, used, now)
            && Distance(RecordOf(s, id)) == Distance(RecordOf(s', id)) && NoRegress(RecordOf(s, id), RecordOf(s', id))
  {
    OneCallBy(s, Rebind(s, lease, session, now), s.active.value, used, used, now, {});
  }

  lemma RecoverOne(s: Store, id: CallId, now: int, used: set<CallId>)
    requires s.tasks.Keys <= used && RecordsOk(s)
    ensures OneCall(s, RecoverLease(s, id, now), id, used, used, now)
    ensures Progress(RecordOf(s, id), RecordOf(RecoverLease(s, id, now), id))
    ensures NoRegress(RecordOf(s, id), RecordOf(RecoverLease(s, id, now), id))
  {
    var s' := RecoverLease(s, id, now);
    if LeaseLapsed(s, id, now) {
      assert TaskOk(s.tasks[id]);
      if s.tasks[id].mail.value.lease.value.attempt < MAX_LEASE_ATTEMPTS {
        OneCallBy(s, s', id, used, used, now, {});
      } else {
        EndsWith(StageOf(RecordOf(s, id), true), CallFail, id, now);
        OneCallBy(s, s', id, used, used, now, {Intent(now, CallFail, id)});
      }
    } else {
      OneCallBy(s, s', id, used, used, now, {});
    }
  }

  lemma TimeoutOne(s: Store, id: CallId, now: int, used: set<CallId>)
    requires s.tasks.Keys <= used && Overdue(s, id, now) && TaskOk(s.tasks[id]) && !Terminal(s.tasks[id])
    ensures OneCall(s, ExpireTask(s, id, now), id, used, used, now)
  {
    EndsWith(StageOf(RecordOf(s, id), true), CallTimeout, id, now);
    OneCallBy(s, ExpireTask(s, id, now), id, used, used, now, {Intent(now, CallTimeout, id)});
  }

  lemma RetireOne(s: Store, id: CallId, now: int, used: set<CallId>)
    requires s.tasks.Keys <= used && Overdue(s, id, now) && TaskOk(s.tasks[id]) && Terminal(s.tasks[id])
    ensures OneCall(s, ExpireTask(s, id, now), id, used, used, now)
  {
    OneCallBy(s, ExpireTask(s, id, now), id, used, used, now, {});
  }

  lemma ExpiryProgress(s: Store, id: CallId, now: int)
    requires Overdue(s, id, now) && TaskOk(s.tasks[id])
    ensures Progress(RecordOf(s, id), RecordOf(ExpireTask(s, id, now), id))
    ensures NoRegress(RecordOf(s, id), RecordOf(ExpireTask(s, id, now), id))
  {
  }

  lemma ExpireOne(s: Store, id: CallId, now: int, used: set<CallId>)
    requires s.tasks.Keys <= used && RecordsOk(s)
    ensures OneCall(s, ExpireTask(s, id, now), id, used, used, now)
    ensures Progress(RecordOf(s, id), RecordOf(ExpireTask(s, id, now), id))
    ensures NoRegress(RecordOf(s, id), RecordOf(ExpireTask(s, id, now), id))
  {
    if Overdue(s, id, now) {
      assert TaskOk(s.tasks[id]);
      hide TaskOk;
      hide OneCall;
      hide ExpireTask;
      ExpiryProgress(s, id, now);
      if Terminal(s.tasks[id]) {
        RetireOne(s, id, now, used);
      } else {
        TimeoutOne(s, id, now, used);
      }
    } else {
      OneCallBy(s, s, id, used, used, now, {});
    }
  }

  lemma AdvanceOne(s: Store, id: CallId, phase: Phase, timeout: int, now: int, used: set<CallId>)
    requires s.tasks.Keys <= used && RecordsOk(s) && id in s.tasks && !Terminal(s.tasks[id]) && phase != Submitted
    requires s.tasks[id].mail.Some? ==> s.tasks[id].mail.value.lease.Some?
    ensures var s' := AdvanceCall(s, id, phase, timeout, now);
            && OneCall(s, s', id, used, used, now)
            && Progress(RecordOf(s, id), RecordOf(s', id)) && NoRegress(RecordOf(s, id), RecordOf(s', id))
            && id in s'.tasks && !Terminal(s'.tasks[id])
  {
    var s' := AdvanceCall(s, id, phase, timeout, now);
    AdvanceShape(s, id, phase, timeout, now);
    assert TaskOk(s.tasks[id]);
    if Rank(phase) > Rank(s.tasks[id].phase) && s.tasks[id].phase == Submitted {
      OneCallBy(s, s', id, used, used, now, {Intent(now, CallAccept, id)});
    } else {
      OneCallBy(s, s', id, used, used, now, {});
    }
  }

  lemma EndOne(s: Store, id: CallId, frame: Frame, now: int, used: set<CallId>)
    requires s.tasks.Keys <= used && RecordsOk(s) && id in s.tasks && !Terminal(s.tasks[id])
    requires !frame.AcceptedFrame? && !frame.StartedFrame?
    ensures var s' := Emit(Settle(s, id, Ended(s.tasks[id], frame, now)), Intent(now, EndingEvent(frame), id));
            && OneCall(s, s', id, used, used, now)
            && Progress(RecordOf(s, id), RecordOf(s', id)) && NoRegress(RecordOf(s, id), RecordOf(s', id))
            && id in s'.tasks && Terminal(s'.tasks[id])
  {
    var s' := Emit(Settle(s, id, Ended(s.tasks[id], frame, now)), Intent(now, EndingEvent(frame), id));
    assert TaskOk(s.tasks[id]);
    EndsWith(StageOf(RecordOf(s, id), true), EndingEvent(frame), id, now);
    OneCallBy(s, s', id, used, used, now, {Intent(now, EndingEvent(frame), id)});
  }

  lemma OnFrameOne(s: Store, id: CallId, frame: Frame, lease: Option<nat>, session: Option<nat>, now: int, used: set<CallId>)
    requires s.tasks.Keys <= used && RecordsOk(s)
    ensures var s' := OnFrame(s, id, frame, lease, session, now);
            && OneCall(s, s', id, used, used, now)
            && Progress(RecordOf(s, id), RecordOf(s', id)) && NoRegress(RecordOf(s, id), RecordOf(s', id))
            && (FrameApplies(s, id, lease, session) ==> id in s'.tasks)
  {
    var s' := OnFrame(s, id, frame, lease, session, now);
    if FrameApplies(s, id, lease, session) {
      match frame
      case AcceptedFrame => AdvanceOne(s, id, Accepted, 0, now, used);
      case StartedFrame(timeout) => AdvanceOne(s, id, Working, timeout, now, used);
      case _ => EndOne(s, id, frame, now, used);
    } else {
      OneCallBy(s, s', id, used, used, now, {});
    }
  }
}

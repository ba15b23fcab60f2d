/** When a durable call can run without being the active one, and a run in which two do at once. */
module MailboxOverlap {
  import opened Wrappers
  import opened Lifecycle
  import opened Ordered
  import opened MailboxState
  import opened MailboxScan
  import opened MailboxInvariant
  import opened MailboxAlarm
  import opened MailboxRun
  import opened MailboxAudit
  import opened MailboxTheorems
  import opened MailboxGuarantees

  /** A start is accepted from whoever holds the lease on the record, and a lapsed lease stays there
      when the call is requeued. So a call starts without being active exactly if it was requeued. */
  lemma StartsUnattended(ws: seq<World>, acts: seq<Action>, i: nat, id: CallId, timeout: int,
                         claimed: Option<nat>, sender: Option<nat>, now: int)
    requires Behaviour(ws, acts) && i < |ws|
    requires FrameApplies(ws[i].store, id, claimed, sender) && ws[i].store.tasks[id].mail.Some?
    requires !IsDelivery(ws[i].store.tasks[id], Started)
    ensures var s' := OnFrame(ws[i].store, id, StartedFrame(timeout), claimed, sender, now);
            && id in s'.tasks && IsDelivery(s'.tasks[id], Started)
            && (s'.active != Some(id) <==> IsDelivery(ws[i].store.tasks[id], Queued))
  {
    RunKeeps(ws, acts, i);
    StartFromWaiting(ws[i].store, id, timeout, claimed, sender, now);
  }

  lemma StartFromWaiting(s: Store, id: CallId, timeout: int, claimed: Option<nat>, sender: Option<nat>, now: int)
    requires RecordsOk(s) && QueueAgrees(s) && FrameApplies(s, id, claimed, sender)
    requires s.tasks[id].mail.Some? && !IsDelivery(s.tasks[id], Started)
    ensures var s' := OnFrame(s, id, StartedFrame(timeout), claimed, sender, now);
            && id in s'.tasks && IsDelivery(s'.tasks[id], Started)
            && (s'.active != Some(id) <==> IsDelivery(s.tasks[id], Queued))
  {
    assert TaskOk(s.tasks[id]);
    AdvanceShape(s, id, Working, timeout, now);
  }

  // ---- The only way ------------------------------------------------------------------------

  /** A start that is accepted for a call that was requeued. */
  predicate StartsRequeued(w: World, a: Action) {
    && a.Receive? && a.frame.StartedFrame? && FrameApplies(w.store, a.id, a.claimed, a.sender)
    && IsDelivery(w.store.tasks[a.id], Queued)
  }

  ghost predicate StartedIsActive(s: Store) {
    forall id | id in s.tasks && IsDelivery(s.tasks[id], Started) :: s.active == Some(id)
  }

  ghost predicate TwoStarted(s: Store) {
    exists a, b :: a != b && a in s.tasks && b in s.tasks && IsDelivery(s.tasks[a], Started) && IsDelivery(s.tasks[b], Started)
  }

  /** Rewriting one record keeps started calls apart if it is not started, or active. */
  lemma RewriteAlone(s: Store, s': Store, id: CallId, t: Task)
    requires StartedIsActive(s) && s'.tasks == s.tasks[id := t] && s'.active == s.active
    requires IsDelivery(t, Started) ==> s.active == Some(id)
    ensures StartedIsActive(s')
  {
  }

  lemma MovedDelivery(s: Store, id: CallId, phase: Phase, timeout: int, now: int)
    requires RecordsOk(s) && QueueAgrees(s) && StartedIsActive(s) && id in s.tasks && !Terminal(s.tasks[id])
    requires phase == Working ==> !IsDelivery(s.tasks[id], Queued)
    ensures IsDelivery(Moved(s.tasks[id], phase, timeout, now), Started) ==> s.active == Some(id)
  {
    assert TaskOk(s.tasks[id]);
  }

  lemma AdvanceAlone(s: Store, id: CallId, phase: Phase, timeout: int, now: int)
    requires RecordsOk(s) && QueueAgrees(s) && StartedIsActive(s) && id in s.tasks && !Terminal(s.tasks[id])
    requires phase == Working ==> !IsDelivery(s.tasks[id], Queued)
    ensures StartedIsActive(AdvanceCall(s, id, phase, timeout, now))
  {
    AdvanceShape(s, id, phase, timeout, now);
    MovedDelivery(s, id, phase, timeout, now);
    hide AdvanceCall;
    hide Moved;
    hide RecordsOk;
    hide QueueAgrees;
    if Rank(phase) > Rank(s.tasks[id].phase) {
      RewriteAlone(s, AdvanceCall(s, id, phase, timeout, now), id, Moved(s.tasks[id], phase, timeout, now));
    }
  }

  lemma EndedIsClosed(t: Task, frame: Frame, now: int)
    requires !frame.AcceptedFrame? && !frame.StartedFrame?
    ensures !IsDelivery(Ended(t, frame, now), Started) && !IsDelivery(MarkReleased(t, Ended(t, frame, now)), Started)
  {
  }

  lemma EndAlone(s: Store, id: CallId, frame: Frame, now: int)
    requires StartedIsActive(s) && id in s.tasks && !frame.AcceptedFrame? && !frame.StartedFrame?
    ensures StartedIsActive(Settle(s, id, Ended(s.tasks[id], frame, now)))
  {
    var ended := Ended(s.tasks[id], frame, now);
    EndedIsClosed(s.tasks[id], frame, now);
    hide Ended;
    RewriteAlone(s, Settle(s, id, ended), id, MarkReleased(s.tasks[id], ended));
  }

  lemma FrameAlone(s: Store, id: CallId, frame: Frame, claimed: Option<nat>, sender: Option<nat>, now: int)
    requires RecordsOk(s) && QueueAgrees(s) && StartedIsActive(s)
    requires frame.StartedFrame? && FrameApplies(s, id, claimed, sender) ==> !IsDelivery(s.tasks[id], Queued)
    ensures StartedIsActive(OnFrame(s, id, frame, claimed, sender, now))
  {
    hide RecordsOk;
    hide QueueAgrees;
    hide AdvanceCall;
    hide Settle;
    hide Ended;
    if FrameApplies(s, id, claimed, sender) {
      match frame
      case AcceptedFrame => AdvanceAlone(s, id, Accepted, 0, now);
      case StartedFrame(timeout) => AdvanceAlone(s, id, Working, timeout, now);
      case _ => EndAlone(s, id, frame, now);
    }
  }

  lemma ExpireAlone(s: Store, id: CallId, now: int)
    requires StartedIsActive(s)
    ensures StartedIsActive(ExpireTask(s, id, now))
  {
    var s' := ExpireTask(s, id, now);
    if Overdue(s, id, now) {
      ExpireTouchesOne(s, id, now);
      assert s'.active == s.active || s.active == Some(id);
    }
  }

  lemma VisitAlone(s: Store, k: Key, now: int)
    requires StartedIsActive(s)
    ensures StartedIsActive(Visit(s, k, now))
  {
    ExpireAlone(s, k.call, now);
    hide ExpireTask;
  }

  lemma {:induction false} ListedAlone(s: Store, rows: seq<Key>, now: int)
    requires StartedIsActive(s)
    ensures StartedIsActive(ExpireListed(s, rows, now))
    decreases |rows|
  {
    if rows != [] && rows[0].at <= now {
      VisitAlone(s, rows[0], now);
      ListedAlone(Visit(s, rows[0], now), rows[1..], now);
    }
  }

  lemma RecoveredAlone(s: Store, id: CallId, now: int)
    requires StartedIsActive(s)
    ensures StartedIsActive(RecoverLease(s, id, now))
  {
  }

  lemma AlarmAlone(s: Store, now: int)
    requires StartedIsActive(s)
    ensures StartedIsActive(Alarm(s, now))
  {
    if s.active.Some? {
      RecoveredAlone(s, s.active.value, now);
    }
    hide RecoverLease;
    var r := if s.active.Some? then RecoverLease(s, s.active.value, now) else s;
    ListedAlone(r, Listed(r.due, DRAIN_LIMIT), now);
  }

  lemma LeaseAlone(s: Store, lease: nat, session: nat, leaseMs: int, now: int)
    requires StartedIsActive(s)
    ensures StartedIsActive(LeaseHead(s, lease, session, leaseMs, now))
  {
  }

  lemma FinishAlone(s: Store, id: CallId, t: Task)
    requires RecordsOk(s) && StartedIsActive(s) && (id in s.tasks ==> Terminal(s.tasks[id]))
    ensures StartedIsActive(Finish(s, id, t))
  {
    assert id in s.tasks ==> TaskOk(s.tasks[id]);
  }

  lemma CancelAlone(s: Store, id: CallId, caller: string, now: int)
    requires StartedIsActive(s)
    ensures StartedIsActive(Cancel(s, id, caller, now))
  {
  }

  lemma DenyAlone(s: Store, id: CallId, seen: Task, now: int)
    requires StartedIsActive(s) && seen.mail.Some?
    ensures StartedIsActive(Revoke(s, id, seen, now))
  {
  }

  lemma ArriveAlone(s: Store, id: CallId, t: Task)
    requires StartedIsActive(s) && !IsDelivery(t, Started)
    ensures StartedIsActive(StartSync(s, id, t)) && (t.mail.Some? ==> StartedIsActive(Admit(s, id, t)))
  {
  }

  lemma RebindAlone(s: Store, lease: nat, session: nat, now: int)
    requires StartedIsActive(s)
    ensures StartedIsActive(Rebind(s, lease, session, now))
  {
  }

  lemma StoreParts(w: World)
    requires WorldInv(w)
    ensures RecordsOk(w.store) && QueueAgrees(w.store)
    ensures forall c | c in w.finishing && c.call in w.store.tasks :: Terminal(w.store.tasks[c.call])
  {
    assert forall c | c in w.finishing :: FinishOk(c, w.store, w.used);
  }

  lemma ArrivalAlone(w: World, a: Action)
    requires Enabled(w, a) && StartedIsActive(w.store) && (a.Submit? || a.CallNow?)
    ensures StartedIsActive(Step(w, a).store)
  {
    hide StartedIsActive;
    hide Admit;
    hide StartSync;
    match a
    case Submit(id, from, agent, message, envelope, readAt, timeout) =>
      ArriveAlone(w.store, id, NewDurable(from, agent, message, envelope, readAt, timeout));
    case CallNow(id, from, readAt, deadline) => ArriveAlone(w.store, id, NewSync(from, readAt, deadline));
  }

  lemma DispatchAlone(w: World, a: Action)
    requires Enabled(w, a) && StartedIsActive(w.store) && (a.CancelBy? || a.Deny? || a.LeaseNext? || a.RebindActive? || a.Ring?)
    ensures StartedIsActive(Step(w, a).store)
  {
    hide StartedIsActive;
    hide Cancel;
    hide Revoke;
    hide LeaseHead;
    hide Rebind;
    hide Alarm;
    match a
    case CancelBy(id, caller, now) => CancelAlone(w.store, id, caller, now);
    case Deny(c, now) => DenyAlone(w.store, c.call, c.task, now);
    case LeaseNext(lease, session, leaseMs, now) => LeaseAlone(w.store, lease, session, leaseMs, now);
    case RebindActive(lease, session, now) => RebindAlone(w.store, lease, session, now);
    case Ring(now) => AlarmAlone(w.store, now);
  }

  lemma ContinueAlone(w: World, a: Action)
    requires WorldInv(w) && Enabled(w, a) && StartedIsActive(w.store) && !StartsRequeued(w, a) && (a.Receive? || a.FinishCall?)
    ensures StartedIsActive(Step(w, a).store)
  {
    StoreParts(w);
    hide WorldInv;
    hide StartedIsActive;
    hide RecordsOk;
    hide QueueAgrees;
    hide OnFrame;
    hide Finish;
    match a
    case Receive(id, frame, claimed, sender, now) => FrameAlone(w.store, id, frame, claimed, sender, now);
    case FinishCall(c) => FinishAlone(w.store, c.call, c.task);
  }

  lemma FlushAlone(w: World, a: Action)
    requires Enabled(w, a) && StartedIsActive(w.store)
    requires a.AskAuthority? || a.FlushRead? || a.FlushCommit? || a.FlushDelete? || a.FlushFail? || a.Crash?
    ensures StartedIsActive(Step(w, a).store)
  {
    if a.FlushDelete? {
      OutboxAlone(w.store, w.flushes[a.flush].items);
    }
    hide StartedIsActive;
  }

  lemma StepAlone(w: World, a: Action)
    requires WorldInv(w) && Enabled(w, a) && StartedIsActive(w.store) && !StartsRequeued(w, a)
    ensures StartedIsActive(Step(w, a).store)
  {
    hide *;
    if a.Submit? || a.CallNow? {
      ArrivalAlone(w, a);
    } else if a.CancelBy? || a.Deny? || a.LeaseNext? || a.RebindActive? || a.Ring? {
      DispatchAlone(w, a);
    } else if a.Receive? || a.FinishCall? {
      ContinueAlone(w, a);
    } else {
      FlushAlone(w, a);
    }
  }

  lemma OutboxAlone(s: Store, items: seq<Intent>)
    requires StartedIsActive(s)
    ensures StartedIsActive(s.(outbox := s.outbox - (set i | i in items)))
  {
  }

  lemma {:induction false} AloneUntil(ws: seq<World>, acts: seq<Action>, i: nat)
    requires Behaviour(ws, acts) && i < |ws|
    requires forall k | 0 <= k < i :: !StartsRequeued(ws[k], acts[k])
    ensures StartedIsActive(ws[i].store)
    decreases i
  {
    if i > 0 {
      AloneUntil(ws, acts, i - 1);
      RunKeeps(ws, acts, i - 1);
      hide WorldInv;
      hide Step;
      hide Enabled;
      hide StartsRequeued;
      hide StartedIsActive;
      assert !StartsRequeued(ws[i - 1], acts[i - 1]);
      StepAlone(ws[i - 1], acts[i - 1]);
    }
  }

  lemma RequeuedStartIsNotAlone(w: World, a: Action)
    requires WorldInv(w) && Enabled(w, a) && StartsRequeued(w, a)
    ensures !StartedIsActive(Step(w, a).store)
  {
    StoreParts(w);
    StartFromWaiting(w.store, a.id, a.frame.timeout, a.claimed, a.sender, a.now);
  }

  /** The active pointer keeps durable calls apart exactly as long as no requeued call is started: up to
      any point of a run, every started call was always the active one if and only if no start had been
      accepted for a call that was waiting again. */
  lemma StartedCallsAreActive(ws: seq<World>, acts: seq<Action>, n: nat)
    requires Behaviour(ws, acts) && n < |ws|
    ensures (forall i | 0 <= i <= n :: StartedIsActive(ws[i].store)) <==>
            (forall k | 0 <= k < n :: !StartsRequeued(ws[k], acts[k]))
  {
    hide WorldInv;
    hide Step;
    hide Enabled;
    hide StartsRequeued;
    hide StartedIsActive;
    if forall k | 0 <= k < n :: !StartsRequeued(ws[k], acts[k]) {
      forall i | 0 <= i <= n
        ensures StartedIsActive(ws[i].store)
      {
        AloneUntil(ws, acts, i);
      }
    } else {
      var k :| 0 <= k < n && StartsRequeued(ws[k], acts[k]);
      RunKeeps(ws, acts, k);
      RequeuedStartIsNotAlone(ws[k], acts[k]);
      assert !StartedIsActive(ws[k + 1].store);
    }
  }

  lemma ActiveIsOne(s: Store)
    requires StartedIsActive(s)
    ensures !TwoStarted(s)
  {
  }

  /** So two calls are never started at once unless a requeued one was. */
  lemma TwoNeedARequeuedStart(ws: seq<World>, acts: seq<Action>, n: nat)
    requires Behaviour(ws, acts) && n < |ws| && TwoStarted(ws[n].store)
    ensures exists k :: 0 <= k < n && StartsRequeued(ws[k], acts[k])
  {
    hide Step;
    hide Enabled;
    hide StartsRequeued;
    if forall k | 0 <= k < n :: !StartsRequeued(ws[k], acts[k]) {
      AloneUntil(ws, acts, n);
      ActiveIsOne(ws[n].store);
    }
  }

  // ---- Two at once -------------------------------------------------------------------------

  function Waits(message: string, createdAt: int): Task {
    NewDurable("caller", "agent", message, "{}", createdAt, None)
  }

  const FIRST := Waits("first", 0)
  const SECOND := Waits("second", 0)

  const FIRST_LEASED := LeasedRecord(FIRST, 7, 1, 30_000, 1_000)
  const FIRST_REQUEUED := FIRST_LEASED.(updatedAt := 31_000, mail := Some(FIRST_LEASED.mail.value.(delivery := Queued)))
  const FIRST_STARTED := Moved(FIRST_REQUEUED, Working, 60_000, 32_000)
  const SECOND_LEASED := LeasedRecord(SECOND, 8, 1, 30_000, 33_000)
  const SECOND_STARTED := Moved(SECOND_LEASED, Working, 60_000, 34_000)

  const ACTIONS := [
    Submit(1, "caller", "agent", "first", "{}", 0, None),
    Submit(2, "caller", "agent", "second", "{}", 0, None),
    LeaseNext(7, 1, 30_000, 1_000),
    Ring(31_000),
    Receive(1, StartedFrame(60_000), Some(7), Some(1), 32_000),
    LeaseNext(8, 1, 30_000, 33_000),
    LeaseNext(8, 1, 30_000, 33_000),
    Receive(2, StartedFrame(60_000), Some(8), Some(1), 34_000)]

  ghost predicate Goes(w: World, a: Action, w': World) {
    Enabled(w, a) && Step(w, a) == w'
  }

  ghost predicate At(s: Store, first: Task, second: Task, queue: set<Key>, active: Option<CallId>) {
    s.tasks == map[1 := first, 2 := second] && s.queue == queue && s.active == active
  }

  /** What the run keeps an eye on. */
  ghost predicate Holds(w: World, first: Task, second: Task, queue: set<Key>, active: Option<CallId>, clock: int) {
    WorldInv(w) && w.clock == clock && At(w.store, first, second, queue, active)
  }

  const BOTH := {Key(0, 1), Key(0, 2)}

  lemma FirstAdmitted()
    ensures Admit(EMPTY_STORE, 1, FIRST).tasks == map[1 := FIRST] && Admit(EMPTY_STORE, 1, FIRST).active.None?
    ensures Admit(EMPTY_STORE, 1, FIRST).queue == {Key(0, 1)}
    ensures AdmissionOf(Admit(EMPTY_STORE, 1, FIRST), SECOND.mail.value) == Admitted
  {
  }

  lemma SecondAdmitted()
    ensures At(Admit(Admit(EMPTY_STORE, 1, FIRST), 2, SECOND), FIRST, SECOND, BOTH, None)
  {
    FirstAdmitted();
  }

  lemma FirstArrives() returns (w: World)
    ensures Goes(START, ACTIONS[0], w) && WorldInv(w)
    ensures w.store == Admit(EMPTY_STORE, 1, FIRST) && w.used == {1} && w.clock == 0
  {
    StartInv();
    StepKeeps(START, ACTIONS[0]);
    w := Step(START, ACTIONS[0]);
  }

  lemma SecondArrives(w: World) returns (w': World)
    requires WorldInv(w) && w.store == Admit(EMPTY_STORE, 1, FIRST) && w.used == {1} && w.clock == 0
    ensures Goes(w, ACTIONS[1], w') && Holds(w', FIRST, SECOND, BOTH, None, 0)
  {
    hide WorldInv;
    SecondAdmitted();
    hide Admit;
    hide At;
    StepKeeps(w, ACTIONS[1]);
    w' := Step(w, ACTIONS[1]);
  }

  lemma HeadOfBoth(s: Store)
    requires s.queue == BOTH
    ensures First(s.queue) == Key(0, 1)
  {
  }

  lemma LeasingFirst(s: Store)
    requires At(s, FIRST, SECOND, BOTH, None)
    ensures At(LeaseHead(s, 7, 1, 30_000, 1_000), FIRST_LEASED, SECOND, BOTH, Some(1))
  {
    HeadOfBoth(s);
  }

  lemma FirstIsLeased(w: World) returns (w': World)
    requires Holds(w, FIRST, SECOND, BOTH, None, 0)
    ensures Goes(w, ACTIONS[2], w') && Holds(w', FIRST_LEASED, SECOND, BOTH, Some(1), 1_000)
  {
    hide WorldInv;
    LeasingFirst(w.store);
    hide LeaseHead;
    hide At;
    StepKeeps(w, ACTIONS[2]);
    w' := Step(w, ACTIONS[2]);
  }

  lemma NothingIsDue(s: Store, now: int)
    requires DueAgrees(s) && forall id | id in s.tasks :: s.tasks[id].deadline > now
    ensures ExpireListed(s, Listed(s.due, DRAIN_LIMIT), now) == s
  {
    assert Total(KeyOrder());
    PrefixRows(KeyOrder(), s.due, DRAIN_LIMIT);
    var rows := Listed(s.due, DRAIN_LIMIT);
    if rows != [] {
      assert rows[0] in rows;
      DueMember(s.tasks, rows[0]);
    }
  }

  lemma Lapsing(s: Store)
    requires DueAgrees(s) && At(s, FIRST_LEASED, SECOND, BOTH, Some(1))
    ensures At(Alarm(s, 31_000), FIRST_REQUEUED, SECOND, BOTH, None)
  {
    var r := RecoverLease(s, 1, 31_000);
    assert r.tasks == map[1 := FIRST_REQUEUED, 2 := SECOND];
    DuePut(s, r, 1, FIRST_REQUEUED);
    NothingIsDue(r, 31_000);
  }

  lemma DueOf(w: World)
    requires WorldInv(w)
    ensures DueAgrees(w.store)
  {
  }

  lemma LeaseLapses(w: World) returns (w': World)
    requires Holds(w, FIRST_LEASED, SECOND, BOTH, Some(1), 1_000)
    ensures Goes(w, ACTIONS[3], w') && Holds(w', FIRST_REQUEUED, SECOND, BOTH, None, 31_000)
  {
    hide WorldInv;
    hide DueAgrees;
    DueOf(w);
    Lapsing(w.store);
    hide Alarm;
    hide At;
    StepKeeps(w, ACTIONS[3]);
    w' := Step(w, ACTIONS[3]);
  }

  lemma StartingFirst(s: Store)
    requires At(s, FIRST_REQUEUED, SECOND, BOTH, None)
    ensures At(OnFrame(s, 1, StartedFrame(60_000), Some(7), Some(1), 32_000), FIRST_STARTED, SECOND, BOTH, None)
  {
    AdvanceShape(s, 1, Working, 60_000, 32_000);
  }

  lemma FirstStartsLate(w: World) returns (w': World)
    requires Holds(w, FIRST_REQUEUED, SECOND, BOTH, None, 31_000)
    ensures Goes(w, ACTIONS[4], w') && Holds(w', FIRST_STARTED, SECOND, BOTH, None, 32_000)
  {
    hide WorldInv;
    StartingFirst(w.store);
    hide OnFrame;
    hide At;
    StepKeeps(w, ACTIONS[4]);
    w' := Step(w, ACTIONS[4]);
  }

  lemma DroppingStale(s: Store)
    requires At(s, FIRST_STARTED, SECOND, BOTH, None)
    ensures At(LeaseHead(s, 8, 1, 30_000, 33_000), FIRST_STARTED, SECOND, {Key(0, 2)}, None)
  {
    HeadOfBoth(s);
    assert BOTH - {Key(0, 1)} == {Key(0, 2)};
  }

  lemma StaleRowGoes(w: World) returns (w': World)
    requires Holds(w, FIRST_STARTED, SECOND, BOTH, None, 32_000)
    ensures Goes(w, ACTIONS[5], w') && Holds(w', FIRST_STARTED, SECOND, {Key(0, 2)}, None, 33_000)
  {
    hide WorldInv;
    DroppingStale(w.store);
    hide LeaseHead;
    hide At;
    StepKeeps(w, ACTIONS[5]);
    w' := Step(w, ACTIONS[5]);
  }

  lemma LeasingSecond(s: Store)
    requires At(s, FIRST_STARTED, SECOND, {Key(0, 2)}, None)
    ensures At(LeaseHead(s, 8, 1, 30_000, 33_000), FIRST_STARTED, SECOND_LEASED, {Key(0, 2)}, Some(2))
  {
    assert First(s.queue) == Key(0, 2);
  }

  lemma SecondIsLeased(w: World) returns (w': World)
    requires Holds(w, FIRST_STARTED, SECOND, {Key(0, 2)}, None, 33_000)
    ensures Goes(w, ACTIONS[6], w') && Holds(w', FIRST_STARTED, SECOND_LEASED, {Key(0, 2)}, Some(2), 33_000)
  {
    hide WorldInv;
    LeasingSecond(w.store);
    hide LeaseHead;
    hide At;
    StepKeeps(w, ACTIONS[6]);
    w' := Step(w, ACTIONS[6]);
  }

  lemma StartingSecond(s: Store)
    requires At(s, FIRST_STARTED, SECOND_LEASED, {Key(0, 2)}, Some(2))
    ensures At(OnFrame(s, 2, StartedFrame(60_000), Some(8), Some(1), 34_000), FIRST_STARTED, SECOND_STARTED, {Key(0, 2)}, Some(2))
  {
    AdvanceShape(s, 2, Working, 60_000, 34_000);
  }

  lemma SecondStarts(w: World) returns (w': World)
    requires Holds(w, FIRST_STARTED, SECOND_LEASED, {Key(0, 2)}, Some(2), 33_000)
    ensures Goes(w, ACTIONS[7], w') && Holds(w', FIRST_STARTED, SECOND_STARTED, {Key(0, 2)}, Some(2), 34_000)
  {
    hide WorldInv;
    StartingSecond(w.store);
    hide OnFrame;
    hide At;
    StepKeeps(w, ACTIONS[7]);
    w' := Step(w, ACTIONS[7]);
  }

  lemma Played(ws: seq<World>)
    requires |ws| == 9 && ws[0] == START
    requires Goes(ws[0], ACTIONS[0], ws[1]) && Goes(ws[1], ACTIONS[1], ws[2]) && Goes(ws[2], ACTIONS[2], ws[3])
    requires Goes(ws[3], ACTIONS[3], ws[4]) && Goes(ws[4], ACTIONS[4], ws[5]) && Goes(ws[5], ACTIONS[5], ws[6])
    requires Goes(ws[6], ACTIONS[6], ws[7]) && Goes(ws[7], ACTIONS[7], ws[8])
    ensures Behaviour(ws, ACTIONS)
  {
    hide Step;
    hide Enabled;
    forall i | 0 <= i < |ACTIONS|
      ensures Goes(ws[i], ACTIONS[i], ws[i + 1])
    {
      assert i == 0 || i == 1 || i == 2 || i == 3 || i == 4 || i == 5 || i == 6 || i == 7;
    }
  }

  lemma BothStarted(w: World)
    requires Holds(w, FIRST_STARTED, SECOND_STARTED, {Key(0, 2)}, Some(2), 34_000)
    ensures TwoStarted(w.store)
  {
    assert 1 in w.store.tasks && 2 in w.store.tasks;
    assert IsDelivery(w.store.tasks[1], Started) && IsDelivery(w.store.tasks[2], Started);
  }

  /** A lease lapses, its holder starts the call all the same, and the next call is leased and started
      beside it. */
  lemma TwoCallsCanBeStarted()
    ensures exists ws: seq<World> :: Behaviour(ws, ACTIONS) && TwoStarted(ws[8].store)
  {
    hide *;
    var w1 := FirstArrives();
    var w2 := SecondArrives(w1);
    var w3 := FirstIsLeased(w2);
    var w4 := LeaseLapses(w3);
    var w5 := FirstStartsLate(w4);
    var w6 := StaleRowGoes(w5);
    var w7 := SecondIsLeased(w6);
    var w8 := SecondStarts(w7);
    var ws := [START, w1, w2, w3, w4, w5, w6, w7, w8];
    Played(ws);
    BothStarted(ws[8]);
  }
}

/** The promises of the relay's durable mailbox, stated about arbitrary runs. */
module MailboxGuarantees {
  import opened Wrappers
  import opened Lifecycle
  import opened Ordered
  import opened MailboxState
  import opened MailboxScan
  import opened MailboxInvariant
  import opened MailboxAlarm
  import opened MailboxRun
  import opened MailboxAudit
  import opened MailboxTheorems

  /** ws lists the worlds a run went through, one more than its actions. */
  ghost predicate Behaviour(ws: seq<World>, acts: seq<Action>) {
    && |ws| == |acts| + 1 && ws[0] == START
    && forall i | 0 <= i < |acts| :: Enabled(ws[i], acts[i]) && ws[i + 1] == Step(ws[i], acts[i])
  }

  lemma StepAt(ws: seq<World>, acts: seq<Action>, i: nat)
    requires Behaviour(ws, acts) && i < |acts|
    ensures |ws| == |acts| + 1 && Enabled(ws[i], acts[i]) && ws[i + 1] == Step(ws[i], acts[i])
  {
    hide Step;
    hide Enabled;
  }

  lemma {:induction false} RunKeeps(ws: seq<World>, acts: seq<Action>, i: nat)
    requires Behaviour(ws, acts) && i < |ws|
    ensures WorldInv(ws[i])
    decreases i
  {
    hide Step;
    hide Enabled;
    hide WorldInv;
    if i == 0 {
      StartInv();
    } else {
      RunKeeps(ws, acts, i - 1);
      StepAt(ws, acts, i - 1);
      StepKeeps(ws[i - 1], acts[i - 1]);
    }
  }

  // ---- Quota -------------------------------------------------------------------------------

  ghost function LiveDurable(tasks: Tasks): set<CallId> {
    set id | id in tasks && tasks[id].mail.Some? && !Terminal(tasks[id])
  }

  ghost function LiveDurableOf(tasks: Tasks, agent: string): set<CallId> {
    set id | id in tasks && tasks[id].mail.Some? && !Terminal(tasks[id]) && tasks[id].mail.value.agent == agent
  }

  /** The three counters are what a scan of the stored tasks would count, in every reachable state. */
  lemma QuotaConservation(ws: seq<World>, acts: seq<Action>, i: nat)
    requires Behaviour(ws, acts) && i < |ws|
    ensures var s := ws[i].store;
            && s.outstanding == |LiveDurable(s.tasks)|
            && (forall agent :: Count(s.perCaller, agent) == |LiveDurableOf(s.tasks, agent)|)
            && s.bytes == StoredBytes(s.tasks)
  {
    RunKeeps(ws, acts, i);
    var s := ws[i].store;
    assert forall id | id in s.tasks :: TaskOk(s.tasks[id]);
    assert LiveDurable(s.tasks) == Where(s.tasks, Open());
    forall agent
      ensures LiveDurableOf(s.tasks, agent) == Where(s.tasks, OpenFor(agent))
    {
    }
  }

  // ---- Queue and lease ---------------------------------------------------------------------

  lemma OnlyTheActiveCallIsLeased(ws: seq<World>, acts: seq<Action>, i: nat, a: CallId, b: CallId)
    requires Behaviour(ws, acts) && i < |ws|
    ensures var s := ws[i].store;
            && (a in s.tasks && Waiting(s.tasks[a]) ==> QueueKey(a, s.tasks[a]) in s.queue)
            && (a in s.tasks && IsDelivery(s.tasks[a], Leased) ==> s.active == Some(a))
            && (a in s.tasks && b in s.tasks && IsDelivery(s.tasks[a], Leased) && IsDelivery(s.tasks[b], Leased) ==> a == b)
            && (s.active == Some(a) ==> a in s.tasks && !IsDelivery(s.tasks[a], Queued))
  {
    RunKeeps(ws, acts, i);
  }

  /** A lease is the first, second or third of its call, a requeued call has had at most two, and a
      leased or started call has one. */
  lemma LeasesAreCounted(ws: seq<World>, acts: seq<Action>, i: nat, id: CallId)
    requires Behaviour(ws, acts) && i < |ws| && id in ws[i].store.tasks && ws[i].store.tasks[id].mail.Some?
    ensures var m := ws[i].store.tasks[id].mail.value;
            && (m.delivery == Leased || m.delivery == Started ==> m.lease.Some?)
            && (m.lease.Some? ==> 1 <= m.lease.value.attempt <= 3)
            && (m.lease.Some? && m.delivery == Queued ==> m.lease.value.attempt <= 2)
  {
    RunKeeps(ws, acts, i);
    assert TaskOk(ws[i].store.tasks[id]);
  }

  predicate QueuedCall(s: Store, id: CallId) {
    id in s.tasks && IsDelivery(s.tasks[id], Queued)
  }

  /** A lease goes to the oldest queued call. */
  lemma LeaseIsFifo(s: Store, lease: nat, session: nat, leaseMs: int, now: int, id: CallId, other: CallId)
    requires QueueAgrees(s) && QueuedCall(s, id) && QueuedCall(s, other)
    requires IsDelivery(LeaseHead(s, lease, session, leaseMs, now).tasks[id], Leased)
    ensures s.tasks[id].createdAt < s.tasks[other].createdAt || (s.tasks[id].createdAt == s.tasks[other].createdAt && id <= other)
  {
    var head := First(s.queue);
    assert head.call == id;
    assert head == QueueKey(id, s.tasks[id]);
    assert QueueKey(other, s.tasks[other]) in s.queue;
  }

  ghost function LeaseRepeatedly(s: Store, n: nat, lease: nat, session: nat, leaseMs: int, now: int): Store
    decreases n
  {
    if n == 0 then s
    else LeaseRepeatedly(LeaseHead(s, lease, session, leaseMs, now), n - 1, lease, session, leaseMs, now)
  }

  lemma LeasedStays(s: Store, n: nat, lease: nat, session: nat, leaseMs: int, now: int)
    requires s.active.Some?
    ensures LeaseRepeatedly(s, n, lease, session, leaseMs, now) == s
  {
  }

  /** s' leased a call that was queued in s, and none that was queued before `id` was passed over. */
  predicate LeasedUpTo(s: Store, s': Store, id: CallId) {
    && s'.active.Some? && QueuedCall(s, id) && QueuedCall(s, s'.active.value)
    && s'.active.value in s'.tasks && IsDelivery(s'.tasks[s'.active.value], Leased)
    && (s'.active.value == id || Before(QueueKey(s'.active.value, s.tasks[s'.active.value]), QueueKey(id, s.tasks[id])))
  }

  lemma LeasedUpToSame(s: Store, next: Store, s': Store, id: CallId)
    requires next.tasks == s.tasks && LeasedUpTo(next, s', id)
    ensures LeasedUpTo(s, s', id)
  {
  }

  /** Stale rows at the head of the queue delay a queued call by one dispatch each, and no more. */
  lemma {:induction false} QueuedCallsAreReached(s: Store, id: CallId, lease: nat, session: nat, leaseMs: int, now: int)
    requires Inv(s) && s.active.None? && QueuedCall(s, id)
    ensures LeasedUpTo(s, LeaseRepeatedly(s, |s.queue|, lease, session, leaseMs, now), id)
    decreases |s.queue|
  {
    assert QueueKey(id, s.tasks[id]) in s.queue;
    AllParts(s);
    hide Inv;
    hide LeaseHead;
    hide RecordsOk;
    hide QuotaAgrees;
    hide DueAgrees;
    hide DedupeAgrees;
    hide QueueAgrees;
    hide LeasedUpTo;
    var next := LeaseHead(s, lease, session, leaseMs, now);
    if QueuedCall(s, First(s.queue).call) {
      HeadIsLeased(s, id, lease, session, leaseMs, now);
      LeasedStays(next, |s.queue| - 1, lease, session, leaseMs, now);
    } else {
      StaleHeadIsDropped(s, lease, session, leaseMs, now);
      QueuedCallsAreReached(next, id, lease, session, leaseMs, now);
      LeasedUpToSame(s, next, LeaseRepeatedly(next, |next.queue|, lease, session, leaseMs, now), id);
    }
  }

  lemma HeadIsLeased(s: Store, id: CallId, lease: nat, session: nat, leaseMs: int, now: int)
    requires RecordsOk(s) && QueueAgrees(s)
    requires s.active.None? && QueuedCall(s, id) && s.queue != {} && QueuedCall(s, First(s.queue).call)
    ensures LeasedUpTo(s, LeaseHead(s, lease, session, leaseMs, now), id)
  {
    var head := First(s.queue);
    assert TaskOk(s.tasks[head.call]);
    assert head == QueueKey(head.call, s.tasks[head.call]);
    assert QueueKey(id, s.tasks[id]) in s.queue;
    hide RecordsOk;
    hide QueueAgrees;
    hide TaskOk;
  }

  lemma StaleHeadIsDropped(s: Store, lease: nat, session: nat, leaseMs: int, now: int)
    requires Inv(s) && s.active.None? && s.queue != {} && !QueuedCall(s, First(s.queue).call)
    ensures var next := LeaseHead(s, lease, session, leaseMs, now);
            Inv(next) && next.tasks == s.tasks && next.active.None? && |next.queue| == |s.queue| - 1
  {
    LeaseHeadKeeps(s, lease, session, leaseMs, now);
    assert LeaseHead(s, lease, session, leaseMs, now) == s.(queue := s.queue - {First(s.queue)});
  }

  // ---- Deduplication -----------------------------------------------------------------------

  /** A stored task of the same caller and message id. */
  predicate Submitted(tasks: Tasks, id: CallId, m: Mail) {
    id in tasks && tasks[id].mail.Some? && tasks[id].mail.value.agent == m.agent && tasks[id].mail.value.message == m.message
  }

  predicate NoRoom(s: Store, m: Mail) {
    s.outstanding >= 100 || Count(s.perCaller, m.agent) >= 10 || s.bytes + m.bytes > 33_554_432
  }

  ghost predicate DedupeAnswers(s: Store, m: Mail) {
    && (forall a, b | Submitted(s.tasks, a, m) && Submitted(s.tasks, b, m) :: a == b)
    && (forall id | Submitted(s.tasks, id, m) ::
          AdmissionOf(s, m) == if s.tasks[id].mail.value.digest == m.digest then Existing(s.tasks[id]) else Conflict)
    && ((forall id :: !Submitted(s.tasks, id, m)) ==>
          AdmissionOf(s, m) == if NoRoom(s, m) then AtCapacity else Admitted)
  }

  lemma DedupeFindsTask(s: Store, m: Mail)
    requires DedupeAgrees(s)
    ensures DedupeAnswers(s, m)
  {
    if DedupeKeyOf(m) in s.dedupe {
      assert Submitted(s.tasks, s.dedupe[DedupeKeyOf(m)].call, m);
    }
  }

  /** Resubmitting a message finds its one task while the task is stored, whatever became of it; a
      different envelope under the same message id is refused; anything else is judged by quota. */
  lemma ResubmissionFindsItsTask(ws: seq<World>, acts: seq<Action>, i: nat, m: Mail)
    requires Behaviour(ws, acts) && i < |ws|
    ensures DedupeAnswers(ws[i].store, m)
  {
    RunKeeps(ws, acts, i);
    DedupeFindsTask(ws[i].store, m);
  }

  /** A submission is admitted if and only if no stored task has its message id, fewer than 100 durable
      calls are live and fewer than 10 of this caller, and the envelope fits beside all stored bytes. */
  lemma AdmittedExactly(ws: seq<World>, acts: seq<Action>, i: nat, m: Mail)
    requires Behaviour(ws, acts) && i < |ws|
    ensures var s := ws[i].store;
            AdmissionOf(s, m) == Admitted <==>
            && (forall id :: !Submitted(s.tasks, id, m))
            && |LiveDurable(s.tasks)| < 100 && |LiveDurableOf(s.tasks, m.agent)| < 10
            && StoredBytes(s.tasks) + m.bytes <= 33_554_432
  {
    ResubmissionFindsItsTask(ws, acts, i, m);
    QuotaConservation(ws, acts, i);
    hide AdmissionOf;
    hide Behaviour;
    hide LiveDurable;
    hide LiveDurableOf;
  }

  // ---- Audit -------------------------------------------------------------------------------

  ghost predicate TellsAll(w: World, w': World) {
    w.ledger <= w'.ledger && Told(w.store.outbox, w.ledger) <= Told(w'.store.outbox, w'.ledger)
  }

  lemma TellsJoin(a: World, b: World, c: World)
    requires TellsAll(a, b) && TellsAll(b, c)
    ensures TellsAll(a, c)
  {
  }

  lemma StepTellsMore(w: World, a: Action)
    requires WorldInv(w) && Enabled(w, a)
    ensures TellsAll(w, Step(w, a))
  {
    if a.FlushCommit? {
      var told := Told(w.store.outbox, w.ledger);
      assert FlushOk(w.flushes[a.flush], w.ledger, told);
      InsertKeeps(w.ledger, w.flushes[a.flush].items, told);
    } else if a.FlushDelete? {
      FlushDeleteKeeps(w, a);
    } else {
      StepKeepsOutbox(w, a);
    }
  }

  lemma {:induction false} ExpireListedKeepsOutbox(s: Store, rows: seq<Key>, now: int)
    ensures s.outbox <= ExpireListed(s, rows, now).outbox
    decreases |rows|
  {
    if rows != [] && rows[0].at <= now {
      ExpireListedKeepsOutbox(Visit(s, rows[0], now), rows[1..], now);
    }
  }

  lemma StepKeepsOutbox(w: World, a: Action)
    requires Enabled(w, a) && !a.FlushDelete?
    ensures w.store.outbox <= Step(w, a).store.outbox
  {
    if a.Ring? {
      var r := Recovered(w.store, a.now);
      ExpireListedKeepsOutbox(r, Listed(r.due, DRAIN_LIMIT), a.now);
    }
  }

  /** No intent is ever dropped: from its first moment it is in the outbox or in the database. */
  lemma {:induction false} NothingIsForgotten(ws: seq<World>, acts: seq<Action>, i: nat, j: nat)
    requires Behaviour(ws, acts) && i <= j < |ws|
    ensures TellsAll(ws[i], ws[j])
    decreases j
  {
    hide Step;
    hide Enabled;
    hide WorldInv;
    if i < j {
      NothingIsForgotten(ws, acts, i, j - 1);
      RunKeeps(ws, acts, j - 1);
      StepAt(ws, acts, j - 1);
      StepTellsMore(ws[j - 1], acts[j - 1]);
      TellsJoin(ws[i], ws[j - 1], ws[j]);
    }
  }

  const ENDING_EVENTS := {CallComplete, CallFail, CallCancel, CallTimeout}

  ghost predicate ExactlyOne(told: set<Intent>, id: CallId, events: set<Event>) {
    exists i :: i in told && i.call == id && i.event in events &&
                forall j | j in told && j.call == id && j.event in events :: j == i
  }

  ghost predicate AnyOf(told: set<Intent>, id: CallId, events: set<Event>) {
    exists i :: i in told && i.call == id && i.event in events
  }

  function EventsOfRank(rank: nat): set<Event>
    requires rank < 3
  {
    if rank == 0 then {CallSubmit} else if rank == 1 then {CallAccept} else ENDING_EVENTS
  }

  lemma OneIfAny(told: set<Intent>, id: CallId, rank: nat)
    requires TrailUnique(told) && rank < 3
    ensures HasRank(told, id, rank) <==> ExactlyOne(told, id, EventsOfRank(rank))
    ensures HasRank(told, id, rank) <==> AnyOf(told, id, EventsOfRank(rank))
  {
    assert forall e :: EventRank(e) == rank <==> e in EventsOfRank(rank);
    if HasRank(told, id, rank) {
      var x :| x in told && x.call == id && EventRank(x.event) == rank;
    }
  }

  /** Every call that was taken on has exactly one submit event; it has exactly one ending event once
      it has ended and none before; and it never has two accept events. */
  lemma AuditTrailIsComplete(ws: seq<World>, acts: seq<Action>, i: nat, id: CallId)
    requires Behaviour(ws, acts) && i < |ws|
    ensures var w, told := ws[i], Told(ws[i].store.outbox, ws[i].ledger);
            && (id in w.used <==> ExactlyOne(told, id, {CallSubmit}))
            && (id in w.used && (id !in w.store.tasks || Terminal(w.store.tasks[id])) <==> ExactlyOne(told, id, ENDING_EVENTS))
            && (AnyOf(told, id, {CallAccept}) ==> ExactlyOne(told, id, {CallAccept}))
            && (id in w.store.tasks && !Terminal(w.store.tasks[id]) ==>
                  (ExactlyOne(told, id, {CallAccept}) <==> w.store.tasks[id].phase != Phase.Submitted))
  {
    RunKeeps(ws, acts, i);
    var w, told := ws[i], Told(ws[i].store.outbox, ws[i].ledger);
    assert TrailMatches(told, id, StageOf(RecordOf(w.store, id), id in w.used));
    OneIfAny(told, id, 0);
    OneIfAny(told, id, 1);
    OneIfAny(told, id, 2);
    hide ExactlyOne;
    hide AnyOf;
  }

  /** In a call's life x comes before y: submit, then accept, then any ending. */
  predicate ComesBefore(x: Intent, y: Intent) {
    && x.call == y.call && x.event != y.event
    && (x.event == CallSubmit || (x.event == CallAccept && y.event != CallSubmit))
  }

  /** The database has each event at most once, and each call's events in lifecycle order with no gap. */
  lemma DeliveryIsOnceAndInOrder(ws: seq<World>, acts: seq<Action>, i: nat)
    requires Behaviour(ws, acts) && i < |ws|
    ensures var w, told := ws[i], Told(ws[i].store.outbox, ws[i].ledger);
            && (forall p, q | 0 <= p < q < |w.ledger| :: w.ledger[p].call != w.ledger[q].call || w.ledger[p].event != w.ledger[q].event)
            && (forall q, x | 0 <= q < |w.ledger| && x in told && ComesBefore(x, w.ledger[q]) :: x in w.ledger[..q])
  {
    RunKeeps(ws, acts, i);
    var w := ws[i];
    assert forall x, y | ComesBefore(x, y) :: Precedes(x, y);
    forall p, q | 0 <= p < q < |w.ledger|
      ensures !SameEventKey(w.ledger[p], w.ledger[q])
    {
    }
  }

  // ---- Progress ----------------------------------------------------------------------------

  lemma ProgressJoins(a: Record, b: Record, c: Record)
    requires Progress(a, b) && Progress(b, c)
    ensures Progress(a, c)
  {
  }

  lemma {:induction false} ExpireListedProgress(s: Store, rows: seq<Key>, now: int, id: CallId, used: set<CallId>)
    requires RecordsOk(s) && Inv(s) && Listing(s, rows) && s.tasks.Keys <= used
    ensures Progress(RecordOf(s, id), RecordOf(ExpireListed(s, rows, now), id))
    ensures NoRegress(RecordOf(s, id), RecordOf(ExpireListed(s, rows, now), id))
    ensures id !in s.tasks ==> id !in ExpireListed(s, rows, now).tasks
  {
    ExpireListedAt(s, rows, id, now);
    if id in s.tasks {
      assert TaskOk(s.tasks[id]);
      if VisitedRow(rows, id, now) {
        var i :| 0 <= i < |rows| && rows[i].call == id && forall j | 0 <= j <= i :: rows[j].at <= now;
        assert rows[i] in rows;
        ExpireOne(s, id, now, used);
        ExpireTouchesOne(s, id, now);
      }
    }
  }

  lemma RingProgress(w: World, now: int, id: CallId)
    requires WorldInv(w) && w.clock <= now
    ensures Progress(RecordOf(w.store, id), RecordOf(Alarm(w.store, now), id))
    ensures NoRegress(RecordOf(w.store, id), RecordOf(Alarm(w.store, now), id))
    ensures id !in w.store.tasks ==> id !in Alarm(w.store, now).tasks
  {
    var r := Recovered(w.store, now);
    if w.store.active.Some? {
      RecoverLeaseKeeps(w.store, w.store.active.value, now);
      RecoverOne(w.store, w.store.active.value, now, w.used);
      RecoverKeys(w.store, w.store.active.value, now);
      assert id != w.store.active.value ==> RecordOf(r, id) == RecordOf(w.store, id);
    }
    ListedIsListing(r);
    ExpireListedProgress(r, Listed(r.due, DRAIN_LIMIT), now, id, w.used);
    ProgressJoins(RecordOf(w.store, id), RecordOf(r, id), RecordOf(Alarm(w.store, now), id));
  }

  /** What one step can do to the record of one call. A rebind refreshes a started call's lease and
      nothing else; any other write brings the call strictly nearer to its end. Only a denial can
      move a phase back. */
  predicate RecordStep(used: bool, a: Action, r: Record, r': Record) {
    && (used && r.None? ==> r'.None?)
    && (r.Some? && !a.RebindActive? ==> Progress(r, r'))
    && (r.Some? && a.RebindActive? ==>
          r'.Some? && Distance(r) == Distance(r') && Terminal(r.value) == Terminal(r'.value))
    && (!a.Deny? ==> NoRegress(r, r'))
  }

  lemma OneCallRecord(s: Store, s': Store, n: CallId, id: CallId, used: set<CallId>, used': set<CallId>, now: int, a: Action)
    requires OneCall(s, s', n, used, used', now) && (n in used || n !in s.tasks)
    requires n in used ==> RecordStep(true, a, RecordOf(s, n), RecordOf(s', n))
    requires s.tasks.Keys <= used
    ensures RecordStep(id in used, a, RecordOf(s, id), RecordOf(s', id))
  {
    if id != n {
      assert RecordOf(s', id) == RecordOf(s, id);
    }
  }

  lemma ArrivalRecord(w: World, a: Action, id: CallId)
    requires WorldInv(w) && Enabled(w, a) && (a.Submit? || a.CallNow?)
    ensures RecordStep(id in w.used, a, RecordOf(w.store, id), RecordOf(Step(w, a).store, id))
  {
    if a.Submit? {
      AdmitOne(w.store, a.id, NewDurable(a.from, a.agent, a.message, a.envelope, a.readAt, a.timeout), w.used);
      OneCallRecord(w.store, Step(w, a).store, a.id, id, w.used, Step(w, a).used, a.readAt, a);
    } else {
      StartSyncOne(w.store, a.id, a.from, a.readAt, a.deadline, w.used);
      OneCallRecord(w.store, Step(w, a).store, a.id, id, w.used, Step(w, a).used, a.readAt, a);
    }
  }

  lemma LeaseRecord(w: World, a: Action, id: CallId)
    requires WorldInv(w) && Enabled(w, a) && a.LeaseNext?
    ensures RecordStep(id in w.used, a, RecordOf(w.store, id), RecordOf(Step(w, a).store, id))
  {
    if w.store.active.None? && w.store.queue != {} {
      LeaseHeadOne(w.store, a.lease, a.session, a.leaseMs, a.now, w.used);
      assert First(w.store.queue).call in w.store.tasks;
      OneCallRecord(w.store, Step(w, a).store, First(w.store.queue).call, id, w.used, w.used, a.now, a);
    }
  }

  lemma RebindRecord(w: World, a: Action, id: CallId)
    requires WorldInv(w) && Enabled(w, a) && a.RebindActive?
    ensures RecordStep(id in w.used, a, RecordOf(w.store, id), RecordOf(Step(w, a).store, id))
  {
    if Rebindable(w.store) {
      RebindOne(w.store, a.lease, a.session, a.now, w.used);
      OneCallRecord(w.store, Step(w, a).store, w.store.active.value, id, w.used, w.used, a.now, a);
    }
  }

  lemma CloseRecord(w: World, a: Action, id: CallId)
    requires WorldInv(w) && Enabled(w, a) && (a.CancelBy? || a.Deny?)
    ensures RecordStep(id in w.used, a, RecordOf(w.store, id), RecordOf(Step(w, a).store, id))
  {
    if a.CancelBy? {
      CancelOne(w.store, a.id, a.caller, a.now, w.used);
      OneCallRecord(w.store, Step(w, a).store, a.id, id, w.used, w.used, a.now, a);
    } else {
      assert CheckOk(a.denied, w.store, w.used);
      RevokeOne(w.store, a.denied.call, a.denied.task, a.now, w.used);
      OneCallRecord(w.store, Step(w, a).store, a.denied.call, id, w.used, w.used, a.now, a);
    }
  }

  lemma ReceiveRecord(w: World, a: Action, id: CallId)
    requires WorldInv(w) && Enabled(w, a) && a.Receive?
    ensures RecordStep(id in w.used, a, RecordOf(w.store, id), RecordOf(Step(w, a).store, id))
  {
    OnFrameOne(w.store, a.id, a.frame, a.claimed, a.sender, a.now, w.used);
    OnFrameKeys(w.store, a.id, a.frame, a.claimed, a.sender, a.now);
    OneCallRecord(w.store, Step(w, a).store, a.id, id, w.used, w.used, a.now, a);
  }

  lemma StepRecord(w: World, a: Action, id: CallId)
    requires WorldInv(w) && Enabled(w, a)
    ensures RecordStep(id in w.used, a, RecordOf(w.store, id), RecordOf(Step(w, a).store, id))
  {
    match a
    case Submit(_, _, _, _, _, _, _) => ArrivalRecord(w, a, id);
    case CallNow(_, _, _, _) => ArrivalRecord(w, a, id);
    case CancelBy(_, _, _) => CloseRecord(w, a, id);
    case Deny(_, _) => CloseRecord(w, a, id);
    case LeaseNext(_, _, _, _) => LeaseRecord(w, a, id);
    case RebindActive(_, _, _) => RebindRecord(w, a, id);
    case Receive(_, _, _, _, _) => ReceiveRecord(w, a, id);
    case Ring(now) => RingProgress(w, now, id);
    case _ =>
  }

  predicate Writes(w: World, w': World, a: Action, id: CallId) {
    !a.RebindActive? && RecordOf(w.store, id) != RecordOf(w'.store, id)
  }

  /** How many steps from i up to j wrote this call's record, rebinds aside. */
  ghost function WriteCount(ws: seq<World>, acts: seq<Action>, id: CallId, i: nat, j: nat): nat
    requires |ws| == |acts| + 1 && i <= j < |ws|
    decreases j
  {
    if i == j then 0
    else WriteCount(ws, acts, id, i, j - 1) + (if Writes(ws[j - 1], ws[j], acts[j - 1], id) then 1 else 0)
  }

  lemma DistanceIsSmall(t: Task)
    requires TaskOk(t)
    ensures Distance(Some(t)) <= 11
  {
  }

  lemma StoredIsNear(w: World, id: CallId)
    requires WorldInv(w) && id in w.store.tasks
    ensures id in w.used && Distance(RecordOf(w.store, id)) <= 11
  {
    assert TaskOk(w.store.tasks[id]);
    DistanceIsSmall(w.store.tasks[id]);
  }

  lemma DistanceDrops(w: World, w': World, a: Action, id: CallId)
    requires id in w.used && RecordStep(true, a, RecordOf(w.store, id), RecordOf(w'.store, id))
    ensures (if Writes(w, w', a, id) then 1 else 0) + Distance(RecordOf(w'.store, id)) <= Distance(RecordOf(w.store, id))
  {
  }

  lemma UsedStays(w: World, a: Action)
    requires Enabled(w, a)
    ensures w.used <= Step(w, a).used
  {
  }

  /** From the moment a call is stored it is written at most eleven times, whatever the listener, the
      caller, the clock and the database do; what is left after each write is its distance. */
  lemma {:induction false} CallsComeToAnEnd(ws: seq<World>, acts: seq<Action>, id: CallId, i: nat, j: nat)
    requires Behaviour(ws, acts) && i <= j < |ws| && id in ws[i].store.tasks
    ensures WriteCount(ws, acts, id, i, j) + Distance(RecordOf(ws[j].store, id)) <= Distance(RecordOf(ws[i].store, id)) <= 11
    ensures id in ws[j].used
    decreases j
  {
    hide Step;
    hide Enabled;
    hide WorldInv;
    hide Distance;
    hide RecordStep;
    hide Writes;
    if i == j {
      RunKeeps(ws, acts, i);
      StoredIsNear(ws[i], id);
    } else {
      CallsComeToAnEnd(ws, acts, id, i, j - 1);
      RunKeeps(ws, acts, j - 1);
      StepAt(ws, acts, j - 1);
      StepRecord(ws[j - 1], acts[j - 1], id);
      DistanceDrops(ws[j - 1], ws[j], acts[j - 1], id);
      UsedStays(ws[j - 1], acts[j - 1]);
    }
  }

  /** An ended call keeps its ending until it is purged, and a purged id never comes back. */
  lemma {:induction false} EndingsAreFinal(ws: seq<World>, acts: seq<Action>, id: CallId, i: nat, j: nat)
    requires Behaviour(ws, acts) && i <= j < |ws| && id in ws[i].used
    requires id in ws[i].store.tasks ==> Terminal(ws[i].store.tasks[id])
    ensures id in ws[j].used
    ensures id in ws[j].store.tasks ==>
              id in ws[i].store.tasks && Terminal(ws[j].store.tasks[id]) &&
              EndingOf(ws[j].store.tasks[id]) == EndingOf(ws[i].store.tasks[id])
    decreases j
  {
    hide Step;
    hide Enabled;
    hide WorldInv;
    if i < j {
      EndingsAreFinal(ws, acts, id, i, j - 1);
      RunKeeps(ws, acts, j - 1);
      StepAt(ws, acts, j - 1);
      UsedStays(ws[j - 1], acts[j - 1]);
      StepRecord(ws[j - 1], acts[j - 1], id);
      if acts[j - 1].RebindActive? {
        EndedIsNotRebound(ws[j - 1], acts[j - 1], id);
      }
    }
  }

  lemma EndedIsNotRebound(w: World, a: Action, id: CallId)
    requires Enabled(w, a) && a.RebindActive? && (id in w.store.tasks ==> Terminal(w.store.tasks[id]))
    ensures RecordOf(Step(w, a).store, id) == RecordOf(w.store, id)
  {
  }

  // ---- The one way back ---------------------------------------------------------------------

  /** A denial writes the record that was read before the database was asked. It sets the phase back
      exactly when the call was accepted in between. */
  lemma DenialMovesPhaseBack(w: World, c: Resume, now: int)
    requires WorldInv(w) && c in w.checks && w.clock <= now && QueuedCall(w.store, c.call)
    ensures Enabled(w, Deny(c, now))
    ensures var r, r' := RecordOf(w.store, c.call), RecordOf(Step(w, Deny(c, now)).store, c.call);
            && r.Some? && r'.Some? && Terminal(r'.value) && r'.value.phase == c.task.phase
            && (NoRegress(r, r') <==> c.task.phase == r.value.phase)
  {
    assert CheckOk(c, w.store, w.used);
    assert TaskOk(w.store.tasks[c.call]);
  }
}

/** What holds over every run of the relay object. */
module MailboxTheorems {
  import opened Wrappers
  import opened Lifecycle
  import opened Ordered
  import opened MailboxState
  import opened MailboxScan
  import opened MailboxInvariant
  import opened MailboxAlarm
  import opened MailboxRun
  import opened MailboxAudit

  // ---- Every step keeps the invariant ------------------------------------------------------

  lemma ClockKeeps(w: World, now: int)
    requires WorldInv(w) && w.clock <= now
    ensures WorldInv(w.(clock := now))
  {
    var told := Told(w.store.outbox, w.ledger);
    assert TrailDated(told, w.used, w.clock);
    assert TrailDated(told, w.used, now);
  }

  /** A transaction that may stamp its writes with the current time. */
  lemma TimedKeeps(w: World, s': Store, id: CallId, now: int)
    requires WorldInv(w) && w.clock <= now && Inv(s') && OneCall(w.store, s', id, w.used, w.used, now)
    requires s'.tasks.Keys <= w.store.tasks.Keys
    ensures WorldInv(w.(store := s', clock := now))
  {
    TransactionKeeps(w, w.(store := s', clock := now), id, now);
  }

  lemma SubmitKeeps(w: World, a: Action)
    requires WorldInv(w) && Enabled(w, a) && a.Submit?
    ensures WorldInv(Step(w, a))
  {
    var t := NewDurable(a.from, a.agent, a.message, a.envelope, a.readAt, a.timeout);
    AdmitKeeps(w.store, a.id, a.from, a.agent, a.message, a.envelope, a.readAt, a.timeout);
    AdmitOne(w.store, a.id, t, w.used);
    TransactionKeeps(w, Step(w, a), a.id, a.readAt);
  }

  lemma CallNowKeeps(w: World, a: Action)
    requires WorldInv(w) && Enabled(w, a) && a.CallNow?
    ensures WorldInv(Step(w, a))
  {
    StartSyncKeeps(w.store, a.id, a.from, a.readAt, a.deadline);
    StartSyncOne(w.store, a.id, a.from, a.readAt, a.deadline, w.used);
    TransactionKeeps(w, Step(w, a), a.id, a.readAt);
  }

  lemma CancelByKeeps(w: World, a: Action)
    requires WorldInv(w) && Enabled(w, a) && a.CancelBy?
    ensures WorldInv(Step(w, a))
  {
    CancelKeeps(w.store, a.id, a.caller, a.now);
    CancelOne(w.store, a.id, a.caller, a.now, w.used);
    TimedKeeps(w, Cancel(w.store, a.id, a.caller, a.now), a.id, a.now);
  }

  lemma AskKeeps(w: World)
    requires WorldInv(w)
    ensures WorldInv(Step(w, AskAuthority))
  {
    var h := Head(w.store);
    if h.Some? {
      assert TaskOk(w.store.tasks[h.value.call]);
      assert CheckOk(h.value, w.store, w.used);
    }
  }

  lemma DenyKeeps(w: World, a: Action)
    requires WorldInv(w) && Enabled(w, a) && a.Deny?
    ensures WorldInv(Step(w, a))
  {
    var c := a.denied;
    assert CheckOk(c, w.store, w.used);
    RevokeKeeps(w.store, c.call, c.task, a.now);
    RevokeOne(w.store, c.call, c.task, a.now, w.used);
    TransactionKeeps(w, Step(w, a), c.call, a.now);
  }

  lemma LeaseNextKeeps(w: World, a: Action)
    requires WorldInv(w) && Enabled(w, a) && a.LeaseNext?
    ensures WorldInv(Step(w, a))
  {
    if w.store.active.Some? || w.store.queue == {} {
      ClockKeeps(w, a.now);
    } else {
      LeaseHeadKeeps(w.store, a.lease, a.session, a.leaseMs, a.now);
      LeaseHeadOne(w.store, a.lease, a.session, a.leaseMs, a.now, w.used);
      assert First(w.store.queue).call in w.store.tasks;
      TimedKeeps(w, LeaseHead(w.store, a.lease, a.session, a.leaseMs, a.now), First(w.store.queue).call, a.now);
    }
  }

  lemma RebindActiveKeeps(w: World, a: Action)
    requires WorldInv(w) && Enabled(w, a) && a.RebindActive?
    ensures WorldInv(Step(w, a))
  {
    hide TrailInv;
    hide ContinuationInv;
    hide Inv;
    hide OneCall;
    if !Rebindable(w.store) {
      ClockKeeps(w, a.now);
    } else {
      RebindKeeps(w.store, a.lease, a.session, a.now);
      RebindOne(w.store, a.lease, a.session, a.now, w.used);
      TimedKeeps(w, Rebind(w.store, a.lease, a.session, a.now), w.store.active.value, a.now);
    }
  }

  lemma OnFrameKeys(s: Store, id: CallId, frame: Frame, lease: Option<nat>, session: Option<nat>, now: int)
    ensures OnFrame(s, id, frame, lease, session, now).tasks.Keys <= s.tasks.Keys
  {
  }

  lemma WillFinish(w: World, c: Resume)
    requires WorldInv(w) && FinishOk(c, w.store, w.used)
    ensures WorldInv(w.(finishing := w.finishing + {c}))
  {
    assert TrailInv(w.(finishing := w.finishing + {c}));
  }

  lemma ReceiveStored(w: World, a: Action)
    requires WorldInv(w) && Enabled(w, a) && a.Receive?
    ensures WorldInv(w.(store := OnFrame(w.store, a.id, a.frame, a.claimed, a.sender, a.now), clock := a.now))
  {
    OnFrameKeeps(w.store, a.id, a.frame, a.claimed, a.sender, a.now);
    OnFrameOne(w.store, a.id, a.frame, a.claimed, a.sender, a.now, w.used);
    OnFrameKeys(w.store, a.id, a.frame, a.claimed, a.sender, a.now);
    TimedKeeps(w, OnFrame(w.store, a.id, a.frame, a.claimed, a.sender, a.now), a.id, a.now);
  }

  lemma EndedIsFinishing(w: World, id: CallId)
    requires WorldInv(w) && id in w.store.tasks && Terminal(w.store.tasks[id])
    ensures FinishOk(Resume(id, w.store.tasks[id]), w.store, w.used)
  {
  }

  lemma ReceiveKeeps(w: World, a: Action)
    requires WorldInv(w) && Enabled(w, a) && a.Receive?
    ensures WorldInv(Step(w, a))
  {
    var next := OnFrame(w.store, a.id, a.frame, a.claimed, a.sender, a.now);
    var w1 := w.(store := next, clock := a.now);
    ReceiveStored(w, a);
    OnFrameOne(w.store, a.id, a.frame, a.claimed, a.sender, a.now, w.used);
    hide WorldInv;
    hide OneCall;
    hide OnFrame;
    if FrameApplies(w.store, a.id, a.claimed, a.sender) && Terminal(next.tasks[a.id]) {
      EndedIsFinishing(w1, a.id);
      WillFinish(w1, Resume(a.id, next.tasks[a.id]));
    }
  }

  lemma FinishStored(s: Store, c: Resume)
    requires Inv(s) && (c.call in s.tasks ==> Terminal(s.tasks[c.call]))
    ensures var s' := Finish(s, c.call, c.task);
            Inv(s') && s'.tasks == s.tasks && s'.outbox == s.outbox
  {
    assert c.call in s.tasks ==> TaskOk(s.tasks[c.call]);
    FinishKeeps(s, c.call, c.task);
  }

  lemma FinishCallKeeps(w: World, a: Action)
    requires WorldInv(w) && Enabled(w, a) && a.FinishCall?
    ensures WorldInv(Step(w, a))
  {
    var c := a.finished;
    assert FinishOk(c, w.store, w.used);
    FinishStored(w.store, c);
    SameRecordsKeep(w, w.(store := Finish(w.store, c.call, c.task), finishing := w.finishing - {c}));
  }

  /** A step that changes no record and no intent. */
  lemma SameRecordsKeep(w: World, w': World)
    requires WorldInv(w) && Inv(w'.store)
    requires w'.store.tasks == w.store.tasks && w'.store.outbox == w.store.outbox
    requires w' == w.(store := w'.store, finishing := w'.finishing) && w'.finishing <= w.finishing
    ensures WorldInv(w')
  {
    var told := Told(w.store.outbox, w.ledger);
    forall id
      ensures TrailMatches(told, id, StageOf(RecordOf(w'.store, id), id in w'.used))
    {
      assert TrailMatches(told, id, StageOf(RecordOf(w.store, id), id in w.used));
    }
  }

  lemma ExpireInRun(w: World, id: CallId)
    requires WorldInv(w) && Overdue(w.store, id, w.clock)
    ensures WorldInv(w.(store := ExpireTask(w.store, id, w.clock)))
  {
    ExpireTaskKeeps(w.store, id, w.clock);
    ExpireOne(w.store, id, w.clock, w.used);
    ExpireTouchesOne(w.store, id, w.clock);
    TimedKeeps(w, ExpireTask(w.store, id, w.clock), id, w.clock);
  }

  lemma {:induction false} ExpireListedInRun(w: World, rows: seq<Key>)
    requires WorldInv(w) && Listing(w.store, rows)
    ensures WorldInv(w.(store := ExpireListed(w.store, rows, w.clock)))
    decreases |rows|
  {
    hide TrailInv;
    hide ContinuationInv;
    hide Inv;
    hide ExpireTask;
    hide Listing;
    if rows != [] && rows[0].at <= w.clock {
      ListingRest(w.store, rows, w.clock);
      ExpireInRun(w, rows[0].call);
      var w' := w.(store := ExpireTask(w.store, rows[0].call, w.clock));
      ExpireListedInRun(w', rows[1..]);
      assert w'.(store := ExpireListed(w'.store, rows[1..], w.clock)) ==
             w.(store := ExpireListed(w.store, rows, w.clock));
    }
  }

  lemma RecoverOneInRun(w: World, id: CallId, now: int)
    requires WorldInv(w) && w.clock <= now && id in w.store.tasks
    ensures WorldInv(w.(store := RecoverLease(w.store, id, now), clock := now))
  {
    RecoverLeaseKeeps(w.store, id, now);
    RecoverOne(w.store, id, now, w.used);
    RecoverKeys(w.store, id, now);
    TimedKeeps(w, RecoverLease(w.store, id, now), id, now);
  }

  lemma RecoverKeys(s: Store, id: CallId, now: int)
    ensures RecoverLease(s, id, now).tasks.Keys <= s.tasks.Keys
  {
  }

  lemma RecoverInRun(w: World, now: int)
    requires WorldInv(w) && w.clock <= now
    ensures WorldInv(w.(store := Recovered(w.store, now), clock := now))
  {
    if w.store.active.Some? {
      RecoverOneInRun(w, w.store.active.value, now);
    } else {
      ClockKeeps(w, now);
    }
  }

  lemma RingKeeps(w: World, a: Action)
    requires WorldInv(w) && Enabled(w, a) && a.Ring?
    ensures WorldInv(Step(w, a))
  {
    var r := Recovered(w.store, a.now);
    var w1 := w.(store := r, clock := a.now);
    RecoverInRun(w, a.now);
    ListedIsListing(r);
    ExpireListedInRun(w1, Listed(r.due, DRAIN_LIMIT));
    assert Step(w, a) == w1.(store := ExpireListed(r, Listed(r.due, DRAIN_LIMIT), a.now));
  }

  lemma FlushReadKeeps(w: World, a: Action)
    requires WorldInv(w) && Enabled(w, a) && a.FlushRead?
    ensures WorldInv(Step(w, a))
  {
    PendingBatch(w.store.outbox, w.ledger, w.used, w.clock);
  }

  lemma FlushCommitKeeps(w: World, a: Action)
    requires WorldInv(w) && Enabled(w, a) && a.FlushCommit?
    ensures WorldInv(Step(w, a))
  {
    var told, w' := Told(w.store.outbox, w.ledger), Step(w, a);
    assert FlushOk(w.flushes[a.flush], w.ledger, told);
    InsertKeeps(w.ledger, w.flushes[a.flush].items, told);
    assert Told(w'.store.outbox, w'.ledger) == told;
    forall f | f in w'.flushes
      ensures FlushOk(w'.flushes[f], w'.ledger, told)
    {
      assert FlushOk(w.flushes[f], w.ledger, told);
      BatchGrowsLedger(w.flushes[f].items, w.ledger, w'.ledger, told);
    }
  }

  lemma FlushDeleteKeeps(w: World, a: Action)
    requires WorldInv(w) && Enabled(w, a) && a.FlushDelete?
    ensures WorldInv(Step(w, a))
    ensures Told(Step(w, a).store.outbox, w.ledger) == Told(w.store.outbox, w.ledger)
  {
    var told, w' := Told(w.store.outbox, w.ledger), Step(w, a);
    assert FlushOk(w.flushes[a.flush], w.ledger, told);
    assert Told(w'.store.outbox, w'.ledger) == told;
    forall id
      ensures TrailMatches(told, id, StageOf(RecordOf(w'.store, id), id in w'.used))
    {
      assert TrailMatches(told, id, StageOf(RecordOf(w.store, id), id in w.used));
    }
  }

  lemma StepKeeps(w: World, a: Action)
    requires WorldInv(w) && Enabled(w, a)
    ensures WorldInv(Step(w, a))
  {
    match a
    case Submit(_, _, _, _, _, _, _) => SubmitKeeps(w, a);
    case CallNow(_, _, _, _) => CallNowKeeps(w, a);
    case CancelBy(_, _, _) => CancelByKeeps(w, a);
    case AskAuthority => AskKeeps(w);
    case Deny(_, _) => DenyKeeps(w, a);
    case LeaseNext(_, _, _, _) => LeaseNextKeeps(w, a);
    case RebindActive(_, _, _) => RebindActiveKeeps(w, a);
    case Receive(_, _, _, _, _) => ReceiveKeeps(w, a);
    case FinishCall(_) => FinishCallKeeps(w, a);
    case Ring(_) => RingKeeps(w, a);
    case FlushRead(_) => FlushReadKeeps(w, a);
    case FlushCommit(_) => FlushCommitKeeps(w, a);
    case FlushDelete(_) => FlushDeleteKeeps(w, a);
    case FlushFail(_) =>
    case Crash =>
  }
}

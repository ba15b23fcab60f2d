/** How much the relay can hold. Only admission looks at the storage cap; outcomes may exceed it. */
module MailboxBounds {
  import opened Wrappers
  import opened Lifecycle
  import opened Ordered
  import opened MailboxState
  import opened MailboxScan
  import opened MailboxInvariant
  import opened MailboxAlarm
  import opened MailboxRun
  import opened MailboxAudit
  import opened MailboxTheorems
  import opened MailboxGuarantees

  /** No outcome envelope is larger than w. */
  predicate SmallOutcome(a: Action, w: nat) {
    a.Receive? && a.frame.OutcomeFrame? ==> |a.frame.envelope| <= w
  }

  ghost predicate Bounded(s: Store, w: nat) {
    && 0 <= s.outstanding <= 100
    && (forall agent :: Count(s.perCaller, agent) <= 10)
    && s.bytes <= 33_554_432 + (100 - s.outstanding) * w
  }

  /** The three ways a transaction moves the counters. */
  ghost predicate Moves(s: Store, s': Store, w: nat) {
    || (s'.outstanding == s.outstanding && s'.perCaller == s.perCaller && s'.bytes <= s.bytes)
    || (s'.outstanding == s.outstanding - 1 && s'.bytes <= s.bytes + w
        && forall agent :: Count(s'.perCaller, agent) <= Count(s.perCaller, agent))
    || (s'.outstanding == s.outstanding + 1 <= MAX_QUEUED_TASKS && s'.bytes <= MAX_STORED_BYTES
        && forall agent :: Count(s'.perCaller, agent) <= MAX_OUTSTANDING_PER_CALLER
                           || Count(s'.perCaller, agent) <= Count(s.perCaller, agent))
  }

  lemma OneMore(n: int, w: nat)
    ensures (n + 1) * w == n * w + w
  {
  }

  lemma NotNegative(n: nat, w: nat)
    ensures n * w >= 0
  {
  }

  lemma MoveStaysBounded(s: Store, s': Store, w: nat)
    requires Bounded(s, w) && Moves(s, s', w) && s'.outstanding >= 0
    ensures Bounded(s', w)
  {
    var free := MAX_QUEUED_TASKS - s.outstanding;
    if s'.outstanding == s.outstanding - 1 {
      OneMore(free, w);
    } else if s'.outstanding == s.outstanding + 1 {
      NotNegative(free - 1, w);
    }
  }

  lemma SettleMoves(s: Store, id: CallId, closed: Task, w: nat)
    requires QuotaAgrees(s) && id in s.tasks && Charge(closed) <= w
    ensures Moves(s, Settle(s, id, closed), w)
  {
    ReleaseNeverClamps(s, id);
  }

  lemma AdmitMoves(s: Store, id: CallId, t: Task, w: nat)
    requires t.mail.Some?
    ensures Moves(s, Admit(s, id, t), w)
  {
  }

  lemma CancelMoves(s: Store, id: CallId, caller: string, now: int, w: nat)
    requires QuotaAgrees(s)
    ensures Moves(s, Cancel(s, id, caller, now), w)
  {
    if caller != "" && id in s.tasks && s.tasks[id].from == caller && Cancelable(s.tasks[id]) {
      SettleMoves(s, id, Close(s.tasks[id], IsCanceled, ReasonCanceled, s.tasks[id].mail.value.purgeAt, 0, now), w);
    }
  }

  lemma RevokeMoves(s: Store, id: CallId, seen: Task, now: int, w: nat)
    requires QuotaAgrees(s) && seen.mail.Some?
    ensures Moves(s, Revoke(s, id, seen, now), w)
  {
    if id in s.tasks && !Terminal(s.tasks[id]) && IsDelivery(s.tasks[id], Queued) {
      SettleMoves(s, id, Close(seen, IsRejected, ReasonRevoked, seen.mail.value.purgeAt, 0, now), w);
    }
  }

  lemma RecoverMoves(s: Store, id: CallId, now: int, w: nat)
    requires QuotaAgrees(s)
    ensures Moves(s, RecoverLease(s, id, now), w)
  {
    if LeaseLapsed(s, id, now) {
      SettleMoves(s, id, Close(s.tasks[id], IsFailed, ReasonDeliveryFailed, s.tasks[id].mail.value.purgeAt, 0, now), w);
    }
  }

  lemma ExpireMoves(s: Store, id: CallId, now: int, w: nat)
    requires QuotaAgrees(s)
    ensures Moves(s, ExpireTask(s, id, now), w)
  {
    if Overdue(s, id, now) {
      ReleaseNeverClamps(s, id);
      var t := s.tasks[id];
      if t.mail.Some? && !Terminal(t) {
        var reason := if t.mail.value.delivery == Started then ReasonFailed else ReasonExpired;
        SettleMoves(s, id, Close(t, IsFailed, reason, t.mail.value.purgeAt, 0, now), w);
      }
    }
  }

  lemma OnFrameMoves(s: Store, id: CallId, frame: Frame, lease: Option<nat>, session: Option<nat>, now: int, w: nat)
    requires QuotaAgrees(s) && (frame.OutcomeFrame? ==> |frame.envelope| <= w)
    ensures Moves(s, OnFrame(s, id, frame, lease, session, now), w)
  {
    if FrameApplies(s, id, lease, session) && !frame.AcceptedFrame? && !frame.StartedFrame? {
      SettleMoves(s, id, Ended(s.tasks[id], frame, now), w);
    }
  }

  lemma {:induction false} ExpireListedBounded(s: Store, rows: seq<Key>, now: int, w: nat)
    requires Inv(s) && Listing(s, rows) && Bounded(s, w)
    ensures Bounded(ExpireListed(s, rows, now), w)
    decreases |rows|
  {
    if rows != [] && rows[0].at <= now {
      var next := ExpireTask(s, rows[0].call, now);
      ListingRest(s, rows, now);
      ExpireTaskKeeps(s, rows[0].call, now);
      ExpireMoves(s, rows[0].call, now, w);
      MoveStaysBounded(s, next, w);
      ExpireListedBounded(next, rows[1..], now, w);
    }
  }

  lemma AlarmBounded(s: Store, now: int, w: nat)
    requires Inv(s) && Bounded(s, w)
    ensures Bounded(Alarm(s, now), w)
  {
    var r := Recovered(s, now);
    if s.active.Some? {
      RecoverLeaseKeeps(s, s.active.value, now);
      RecoverMoves(s, s.active.value, now, w);
      MoveStaysBounded(s, r, w);
    }
    ListedIsListing(r);
    ExpireListedBounded(r, Listed(r.due, DRAIN_LIMIT), now, w);
  }

  predicate Charging(a: Action) {
    a.Submit? || a.CancelBy? || a.Deny? || a.Receive? || a.Ring?
  }

  lemma QuietStep(world: World, a: Action)
    requires Enabled(world, a) && !Charging(a)
    ensures var s, s' := world.store, Step(world, a).store;
            s'.outstanding == s.outstanding && s'.perCaller == s.perCaller && s'.bytes == s.bytes
  {
  }

  lemma SubmitOrReceiveMoves(world: World, a: Action, w: nat)
    requires QuotaAgrees(world.store) && Enabled(world, a) && SmallOutcome(a, w) && (a.Submit? || a.Receive?)
    ensures Moves(world.store, Step(world, a).store, w)
  {
    if a.Submit? {
      AdmitMoves(world.store, a.id, NewDurable(a.from, a.agent, a.message, a.envelope, a.readAt, a.timeout), w);
    } else {
      OnFrameMoves(world.store, a.id, a.frame, a.claimed, a.sender, a.now, w);
    }
  }

  lemma CloseMoves(world: World, a: Action, w: nat)
    requires QuotaAgrees(world.store) && Enabled(world, a) && (a.CancelBy? || a.Deny?)
    ensures Moves(world.store, Step(world, a).store, w)
  {
    if a.CancelBy? {
      CancelMoves(world.store, a.id, a.caller, a.now, w);
    } else {
      RevokeMoves(world.store, a.denied.call, a.denied.task, a.now, w);
    }
  }

  lemma StepMoves(world: World, a: Action, w: nat)
    requires QuotaAgrees(world.store) && Enabled(world, a) && SmallOutcome(a, w) && !a.Ring?
    ensures Moves(world.store, Step(world, a).store, w)
  {
    hide Step;
    if a.Submit? || a.Receive? {
      SubmitOrReceiveMoves(world, a, w);
    } else if a.CancelBy? || a.Deny? {
      CloseMoves(world, a, w);
    } else {
      QuietStep(world, a);
    }
  }

  lemma RingBounded(world: World, a: Action, w: nat)
    requires Inv(world.store) && Enabled(world, a) && a.Ring? && Bounded(world.store, w)
    ensures Bounded(Step(world, a).store, w)
  {
    AlarmBounded(world.store, a.now, w);
  }

  lemma StepBounded(world: World, a: Action, w: nat)
    requires Inv(world.store) && Enabled(world, a) && SmallOutcome(a, w) && Bounded(world.store, w)
    requires Step(world, a).store.outstanding >= 0
    ensures Bounded(Step(world, a).store, w)
  {
    hide Step;
    if a.Ring? {
      RingBounded(world, a, w);
    } else {
      StepMoves(world, a, w);
      MoveStaysBounded(world.store, Step(world, a).store, w);
    }
  }

  /** Never more than 100 outstanding calls, never more than 10 of one caller, and never more bytes
      than the admission cap plus one outcome for each free slot. */
  lemma {:induction false} StorageBound(ws: seq<World>, acts: seq<Action>, i: nat, w: nat)
    requires Behaviour(ws, acts) && i < |ws|
    requires forall k | 0 <= k < |acts| :: SmallOutcome(acts[k], w)
    ensures Bounded(ws[i].store, w)
    decreases i
  {
    hide Step;
    if i > 0 {
      StorageBound(ws, acts, i - 1, w);
      RunKeeps(ws, acts, i - 1);
      RunKeeps(ws, acts, i);
      OutstandingIsACount(ws[i].store);
      StepBounded(ws[i - 1], acts[i - 1], w);
    }
  }

  lemma OutstandingIsACount(s: Store)
    requires QuotaAgrees(s)
    ensures s.outstanding >= 0
  {
  }
}

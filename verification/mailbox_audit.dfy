/** The invariant of whole runs: storage, audit trail and waiting continuations together. */
module MailboxAudit {
  import opened Wrappers
  import opened Lifecycle
  import opened Ordered
  import opened MailboxState
  import opened MailboxScan
  import opened MailboxInvariant
  import opened MailboxAlarm
  import opened MailboxRun

  // ---- The audit trail ---------------------------------------------------------------------

  /** Every intent ever emitted: still in the outbox, or in the database, or both. */
  ghost function Told(outbox: set<Intent>, ledger: seq<Intent>): set<Intent> {
    outbox + set i | i in ledger
  }

  predicate Precedes(i: Intent, j: Intent) {
    i.call == j.call && EventRank(i.event) < EventRank(j.event)
  }

  ghost predicate HasRank(told: set<Intent>, id: CallId, rank: nat) {
    exists i :: i in told && i.call == id && EventRank(i.event) == rank
  }

  ghost predicate TrailDated(told: set<Intent>, used: set<CallId>, clock: int) {
    && (forall i | i in told :: i.call in used && i.at <= clock)
    && (forall i, j | i in told && j in told && Precedes(i, j) :: i.at <= j.at)
  }

  /** One submit, at most one accept, at most one ending. */
  ghost predicate TrailUnique(told: set<Intent>) {
    forall i, j | i in told && j in told && i.call == j.call && EventRank(i.event) == EventRank(j.event) :: i == j
  }

  ghost predicate TrailMatches(told: set<Intent>, id: CallId, stage: Stage) {
    match stage
    case Unused => !HasRank(told, id, 0) && !HasRank(told, id, 1) && !HasRank(told, id, 2)
    case Fresh => HasRank(told, id, 0) && !HasRank(told, id, 1) && !HasRank(told, id, 2)
    case Taken => HasRank(told, id, 0) && HasRank(told, id, 1) && !HasRank(told, id, 2)
    case Over => HasRank(told, id, 0) && HasRank(told, id, 2)
  }

  ghost predicate TrailComplete(told: set<Intent>, s: Store, used: set<CallId>) {
    forall id :: TrailMatches(told, id, StageOf(RecordOf(s, id), id in used))
  }

  /** A new intent is the highest-ranked of its call so far. */
  ghost predicate Latest(told: set<Intent>, n: Intent) {
    forall j | j in told && j.call == n.call :: EventRank(j.event) < EventRank(n.event)
  }

  lemma NewIsLatest(told: set<Intent>, before: Stage, after: Stage, news: set<Intent>, id: CallId, now: int, n: Intent)
    requires TrailMatches(told, id, before) && EmitsFor(before, after, news, id, now) && n in news
    ensures Latest(told, n) && n.call == id && n.at == now && n !in told
  {
    forall j | j in told && j.call == n.call
      ensures EventRank(j.event) < EventRank(n.event)
    {
      assert HasRank(told, id, EventRank(j.event));
    }
  }

  lemma HasRankAfter(told: set<Intent>, news: set<Intent>, id: CallId, rank: nat)
    ensures HasRank(told + news, id, rank) <==> HasRank(told, id, rank) || HasRank(news, id, rank)
  {
    if HasRank(told, id, rank) {
      var i :| i in told && i.call == id && EventRank(i.event) == rank;
      assert i in told + news;
    }
    if HasRank(news, id, rank) {
      var i :| i in news && i.call == id && EventRank(i.event) == rank;
      assert i in told + news;
    }
  }

  lemma NewsRank(before: Stage, after: Stage, news: set<Intent>, id: CallId, now: int, rank: nat)
    requires EmitsFor(before, after, news, id, now)
    ensures HasRank(news, id, rank) <==>
            before != after && rank == (if after == Fresh then 0 else if after == Taken then 1 else 2)
  {
    if before != after && news != {} {
      var n :| n in news;
      assert news == {n};
      assert n.call == id;
      if rank == EventRank(n.event) {
        assert HasRank(news, id, rank);
      }
    }
  }

  lemma TrailOfCall(told: set<Intent>, before: Stage, after: Stage, news: set<Intent>, id: CallId, now: int)
    requires TrailMatches(told, id, before) && EmitsFor(before, after, news, id, now)
    ensures TrailMatches(told + news, id, after)
  {
    HasRankAfter(told, news, id, 0);
    HasRankAfter(told, news, id, 1);
    HasRankAfter(told, news, id, 2);
    NewsRank(before, after, news, id, now, 0);
    NewsRank(before, after, news, id, now, 1);
    NewsRank(before, after, news, id, now, 2);
  }

  lemma TrailOfOther(told: set<Intent>, news: set<Intent>, id: CallId, other: CallId, stage: Stage)
    requires TrailMatches(told, other, stage) && other != id && forall n | n in news :: n.call == id
    ensures TrailMatches(told + news, other, stage)
  {
    HasRankAfter(told, news, other, 0);
    HasRankAfter(told, news, other, 1);
    HasRankAfter(told, news, other, 2);
  }

  ghost predicate TrailOk(told: set<Intent>, s: Store, used: set<CallId>, clock: int) {
    TrailDated(told, used, clock) && TrailUnique(told) && TrailComplete(told, s, used)
  }

  lemma NewsSingle(before: Stage, after: Stage, news: set<Intent>, id: CallId, now: int)
    requires EmitsFor(before, after, news, id, now)
    ensures forall i, j | i in news && j in news :: i == j
    ensures news != {} ==> after != Unused
  {
  }

  lemma TrailCompleteStep(told: set<Intent>, news: set<Intent>, s: Store, s': Store, id: CallId,
                          used: set<CallId>, used': set<CallId>, now: int)
    requires TrailComplete(told, s, used) && OthersSame(s, s', id) && used <= used' <= used + {id}
    requires EmitsFor(StageOf(RecordOf(s, id), id in used), StageOf(RecordOf(s', id), id in used'), news, id, now)
    requires forall n | n in news :: n.call == id
    ensures TrailComplete(told + news, s', used')
  {
    forall other
      ensures TrailMatches(told + news, other, StageOf(RecordOf(s', other), other in used'))
    {
      var before := StageOf(RecordOf(s, other), other in used);
      assert TrailMatches(told, other, before);
      if other == id {
        TrailOfCall(told, before, StageOf(RecordOf(s', id), id in used'), news, id, now);
      } else {
        TrailOfOther(told, news, id, other, before);
        assert RecordOf(s', other) == RecordOf(s, other) && (other in used' <==> other in used);
      }
    }
  }

  lemma TrailDates(told: set<Intent>, news: set<Intent>, id: CallId, used: set<CallId>, used': set<CallId>,
                   now: int, clock: int, clock': int)
    requires TrailDated(told, used, clock) && used <= used'
    requires now <= clock' && clock <= clock' && (clock <= now || id !in used)
    requires forall n | n in news :: Latest(told, n) && n.call == id && n.at == now
    requires forall i, j | i in news && j in news :: i == j
    requires news != {} ==> id in used'
    ensures TrailDated(told + news, used', clock')
  {
    assert forall i, j | i in news && j in told && j.call == i.call :: EventRank(j.event) < EventRank(i.event);
  }

  lemma TrailStaysUnique(told: set<Intent>, news: set<Intent>)
    requires TrailUnique(told) && forall n | n in news :: Latest(told, n)
    requires forall i, j | i in news && j in news :: i == j
    ensures TrailUnique(told + news)
  {
  }

  lemma TrailStep(told: set<Intent>, s: Store, s': Store, id: CallId, used: set<CallId>, used': set<CallId>,
                  now: int, clock: int, clock': int)
    requires TrailOk(told, s, used, clock) && s.outbox <= told && OneCall(s, s', id, used, used', now)
    requires now <= clock' && clock <= clock' && (clock <= now || id !in used)
    ensures TrailOk(told + s'.outbox, s', used', clock')
    ensures forall n | n in s'.outbox && n !in told :: Latest(told, n)
  {
    var before, after := StageOf(RecordOf(s, id), id in used), StageOf(RecordOf(s', id), id in used');
    var news :| EmitsFor(before, after, news, id, now) && s'.outbox == s.outbox + news;
    assert told + s'.outbox == told + news;
    assert TrailMatches(told, id, before);
    forall n | n in news
      ensures Latest(told, n) && n.call == id && n.at == now
    {
      NewIsLatest(told, before, after, news, id, now, n);
    }
    NewsSingle(before, after, news, id, now);
    TrailCompleteStep(told, news, s, s', id, used, used', now);
    TrailDates(told, news, id, used, used', now, clock, clock');
    TrailStaysUnique(told, news);
  }

  // ---- Deliveries --------------------------------------------------------------------------

  ghost predicate LedgerOk(ledger: seq<Intent>, told: set<Intent>) {
    && (forall p, q | 0 <= p < q < |ledger| :: !SameEventKey(ledger[p], ledger[q]))
    && (forall q, i | 0 <= q < |ledger| && i in told && Precedes(i, ledger[q]) :: i in ledger[..q])
  }

  /** Whatever must be delivered before an item of this batch is before it in the batch, or is
      already delivered. */
  ghost predicate BatchOk(items: seq<Intent>, ledger: seq<Intent>, told: set<Intent>) {
    && (forall i | i in items :: i in told)
    && (forall q, i | 0 <= q < |items| && i in told && Precedes(i, items[q]) :: i in items[..q] || i in ledger)
  }

  ghost predicate FlushOk(f: Flush, ledger: seq<Intent>, told: set<Intent>) {
    BatchOk(f.items, ledger, told) && (f.delivered ==> forall i | i in f.items :: i in ledger)
  }

  lemma LedgerGrowsTold(ledger: seq<Intent>, told: set<Intent>, told': set<Intent>)
    requires LedgerOk(ledger, told) && told <= told' && (forall i | i in ledger :: i in told)
    requires forall n | n in told' && n !in told :: Latest(told, n)
    ensures LedgerOk(ledger, told')
  {
    forall q, i | 0 <= q < |ledger| && i in told' && Precedes(i, ledger[q])
      ensures i in ledger[..q]
    {
      assert ledger[q] in ledger;
      assert i in told;
    }
  }

  lemma BatchGrowsTold(items: seq<Intent>, ledger: seq<Intent>, told: set<Intent>, told': set<Intent>)
    requires BatchOk(items, ledger, told) && told <= told'
    requires forall n | n in told' && n !in told :: Latest(told, n)
    ensures BatchOk(items, ledger, told')
  {
    forall q, i | 0 <= q < |items| && i in told' && Precedes(i, items[q])
      ensures i in items[..q] || i in ledger
    {
      assert items[q] in items;
      assert i in told;
    }
  }

  lemma BatchGrowsLedger(items: seq<Intent>, ledger: seq<Intent>, ledger': seq<Intent>, told: set<Intent>)
    requires BatchOk(items, ledger, told) && forall i | i in ledger :: i in ledger'
    ensures BatchOk(items, ledger', told)
  {
  }

  lemma PendingItem(outbox: set<Intent>, ledger: seq<Intent>, used: set<CallId>, clock: int, q: nat, i: Intent)
    requires TrailDated(Told(outbox, ledger), used, clock)
    requires q < |Pending(outbox)| && i in outbox && Precedes(i, Pending(outbox)[q])
    ensures i in Pending(outbox)[..q]
  {
    IntentOrderTotal();
    PrefixRows(IntentOrder(), outbox, DRAIN_LIMIT);
    var j := Pending(outbox)[q];
    assert j in Pending(outbox);
    assert i in Told(outbox, ledger) && j in Told(outbox, ledger);
    assert IntentOrder()(i, j);
    PrefixClosed(IntentOrder(), outbox, DRAIN_LIMIT, q, i);
  }

  lemma PendingBatch(outbox: set<Intent>, ledger: seq<Intent>, used: set<CallId>, clock: int)
    requires TrailDated(Told(outbox, ledger), used, clock)
    ensures BatchOk(Pending(outbox), ledger, Told(outbox, ledger))
  {
    IntentOrderTotal();
    PrefixRows(IntentOrder(), outbox, DRAIN_LIMIT);
    forall q, i | 0 <= q < |Pending(outbox)| && i in Told(outbox, ledger) && Precedes(i, Pending(outbox)[q])
      ensures i in Pending(outbox)[..q] || i in ledger
    {
      if i in outbox {
        PendingItem(outbox, ledger, used, clock, q, i);
      }
    }
  }

  lemma BatchTail(items: seq<Intent>, ledger: seq<Intent>, told: set<Intent>)
    requires BatchOk(items, ledger, told) && items != [] && items[0] in ledger
    ensures BatchOk(items[1..], ledger, told)
  {
    var rest := items[1..];
    forall i | i in rest
      ensures i in told
    {
      assert i in items;
    }
    forall q, i | 0 <= q < |rest| && i in told && Precedes(i, rest[q])
      ensures i in rest[..q] || i in ledger
    {
      assert rest[q] == items[q + 1];
      if i in items[..q + 1] {
        var p :| 0 <= p < q + 1 && items[..q + 1][p] == i;
        if p > 0 {
          assert rest[..q][p - 1] == i;
        }
      }
    }
  }

  lemma InsertOne(ledger: seq<Intent>, x: Intent, told: set<Intent>)
    requires LedgerOk(ledger, told) && x in told && !Recorded(ledger, x)
    requires forall i | i in told && Precedes(i, x) :: i in ledger
    ensures LedgerOk(ledger + [x], told)
  {
    var next := ledger + [x];
    forall q, i | 0 <= q < |next| && i in told && Precedes(i, next[q])
      ensures i in next[..q]
    {
      if q < |ledger| {
        assert next[..q] == ledger[..q];
      } else {
        assert next[..q] == ledger;
      }
    }
  }

  lemma {:induction false} InsertKeeps(ledger: seq<Intent>, items: seq<Intent>, told: set<Intent>)
    requires LedgerOk(ledger, told) && BatchOk(items, ledger, told) && TrailUnique(told)
    requires forall i | i in ledger :: i in told
    ensures LedgerOk(Insert(ledger, items), told)
    ensures ledger <= Insert(ledger, items)
    ensures forall i | i in items :: i in Insert(ledger, items)
    ensures forall i | i in Insert(ledger, items) :: i in told
    decreases |items|
  {
    if items != [] {
      var x := items[0];
      assert x in items;
      var next := if Recorded(ledger, x) then ledger else ledger + [x];
      if Recorded(ledger, x) {
        var j :| 0 <= j < |ledger| && SameEventKey(ledger[j], x);
        assert ledger[j] in ledger;
        assert ledger[j] == x;
      } else {
        assert forall i | i in told && Precedes(i, x) :: i in ledger by {
          assert items[..0] == [];
        }
        InsertOne(ledger, x, told);
      }
      BatchGrowsLedger(items, ledger, next, told);
      BatchTail(items, next, told);
      InsertKeeps(next, items[1..], told);
      forall i | i in items
        ensures i in Insert(ledger, items)
      {
        assert i == x || i in items[1..];
        assert x in next && next <= Insert(next, items[1..]);
      }
    }
  }

  // ---- Waiting continuations ---------------------------------------------------------------

  ghost predicate CheckOk(c: Resume, s: Store, used: set<CallId>) {
    && c.call in used && TaskOk(c.task) && IsDelivery(c.task, Queued) && !Terminal(c.task)
    && (c.call in s.tasks ==>
          && SameCall(c.task, s.tasks[c.call])
          && (!Terminal(s.tasks[c.call]) ==> Rank(c.task.phase) <= Rank(s.tasks[c.call].phase)))
  }

  ghost predicate FinishOk(c: Resume, s: Store, used: set<CallId>) {
    c.call in used && (c.call in s.tasks ==> Terminal(s.tasks[c.call]) && SameCall(c.task, s.tasks[c.call]))
  }

  lemma ContinuationsCarry(c: Resume, s: Store, s': Store, id: CallId, used: set<CallId>, used': set<CallId>, now: int)
    requires OneCall(s, s', id, used, used', now) && s.tasks.Keys <= used
    requires c.call in used ==> (c.call in s'.tasks ==> c.call in s.tasks)
    ensures CheckOk(c, s, used) ==> CheckOk(c, s', used')
    ensures FinishOk(c, s, used) ==> FinishOk(c, s', used')
  {
    assert Carries(RecordOf(s, id), RecordOf(s', id));
    assert c.call != id ==> RecordOf(s', c.call) == RecordOf(s, c.call);
  }

  // ---- The invariant of runs ---------------------------------------------------------------

  ghost predicate TrailInv(w: World) {
    var told := Told(w.store.outbox, w.ledger);
    && TrailOk(told, w.store, w.used, w.clock)
    && LedgerOk(w.ledger, told)
    && forall f | f in w.flushes :: FlushOk(w.flushes[f], w.ledger, told)
  }

  ghost predicate ContinuationInv(w: World) {
    && (forall c | c in w.checks :: CheckOk(c, w.store, w.used))
    && (forall c | c in w.finishing :: FinishOk(c, w.store, w.used))
  }

  ghost predicate WorldInv(w: World) {
    Inv(w.store) && w.store.tasks.Keys <= w.used && TrailInv(w) && ContinuationInv(w)
  }

  lemma StartInv()
    ensures WorldInv(START)
  {
    EmptyInv();
    var told := Told({}, []);
    assert told == {};
    forall id
      ensures TrailMatches(told, id, StageOf(RecordOf(EMPTY_STORE, id), false))
    {
    }
  }

  lemma TrailInvStep(w: World, w': World, id: CallId, now: int)
    requires TrailInv(w) && w'.ledger == w.ledger && w'.flushes == w.flushes
    requires OneCall(w.store, w'.store, id, w.used, w'.used, now)
    requires now <= w'.clock && w.clock <= w'.clock && (w.clock <= now || id !in w.used)
    ensures TrailInv(w')
  {
    var told, told' := Told(w.store.outbox, w.ledger), Told(w'.store.outbox, w'.ledger);
    TrailStep(told, w.store, w'.store, id, w.used, w'.used, now, w.clock, w'.clock);
    assert told' == told + w'.store.outbox;
    LedgerGrowsTold(w.ledger, told, told');
    forall f | f in w'.flushes
      ensures FlushOk(w'.flushes[f], w'.ledger, told')
    {
      assert FlushOk(w.flushes[f], w.ledger, told);
      BatchGrowsTold(w.flushes[f].items, w.ledger, told, told');
    }
  }

  lemma ContinuationInvStep(w: World, w': World, id: CallId, now: int)
    requires ContinuationInv(w) && w.store.tasks.Keys <= w.used
    requires OneCall(w.store, w'.store, id, w.used, w'.used, now)
    requires w'.checks <= w.checks && w'.finishing == w.finishing
    requires forall o | o in w'.store.tasks && o in w.used :: o in w.store.tasks
    ensures ContinuationInv(w')
  {
    forall c | c in w.checks || c in w.finishing
      ensures CheckOk(c, w.store, w.used) ==> CheckOk(c, w'.store, w'.used)
      ensures FinishOk(c, w.store, w.used) ==> FinishOk(c, w'.store, w'.used)
    {
      ContinuationsCarry(c, w.store, w'.store, id, w.used, w'.used, now);
    }
  }

  /** One storage transaction inside a run. */
  lemma TransactionKeeps(w: World, w': World, id: CallId, now: int)
    requires WorldInv(w) && Inv(w'.store)
    requires w'.ledger == w.ledger && w'.flushes == w.flushes
    requires w'.checks <= w.checks && w'.finishing == w.finishing
    requires OneCall(w.store, w'.store, id, w.used, w'.used, now)
    requires now <= w'.clock && w.clock <= w'.clock && (w.clock <= now || id !in w.used)
    requires w'.store.tasks.Keys <= w'.used
    requires forall o | o in w'.store.tasks && o in w.used :: o in w.store.tasks
    ensures WorldInv(w')
  {
    TrailInvStep(w, w', id, now);
    ContinuationInvStep(w, w', id, now);
  }
}

/** The alarm reads a short, ordered listing of the due index. What it does is what a full scan of
    the tasks would have asked for. */
module MailboxAlarm {
  import opened Wrappers
  import opened Lifecycle
  import opened Ordered
  import opened MailboxState
  import opened MailboxScan
  import opened MailboxInvariant

  /** What becomes of one overdue record: None means it is deleted. */
  function Expired(t: Task, now: int): Option<Task> {
    if t.mail.None? then None
    else
      var m := t.mail.value;
      if !Terminal(t) then
        var reason := if m.delivery == Started then ReasonFailed else ReasonExpired;
        Some(MarkReleased(t, Close(t, IsFailed, reason, m.purgeAt, 0, now)))
      else if m.purgeAt > now then Some(Retained(t))
      else None
  }

  predicate Became(tasks: Tasks, id: CallId, t: Option<Task>) {
    if t.Some? then id in tasks && tasks[id] == t.value else id !in tasks
  }

  lemma ExpireTouchesOne(s: Store, id: CallId, now: int)
    requires Overdue(s, id, now)
    ensures var after := ExpireTask(s, id, now).tasks;
            && Became(after, id, Expired(s.tasks[id], now))
            && (forall o | o != id && o in s.tasks :: o in after && after[o] == s.tasks[o])
            && (forall o | o in after :: o in s.tasks)
  {
  }

  /** Every row of the listing names a stored call by its deadline, and no call twice. */
  ghost predicate Listing(s: Store, rows: seq<Key>) {
    && (forall k | k in rows :: k.call in s.tasks && k == DueKey(k.call, s.tasks[k.call]))
    && (forall i, j | 0 <= i < j < |rows| :: rows[i].call != rows[j].call)
  }

  ghost predicate VisitedRow(rows: seq<Key>, id: CallId, now: int) {
    exists i :: 0 <= i < |rows| && rows[i].call == id && forall j | 0 <= j <= i :: rows[j].at <= now
  }

  lemma ListingRest(s: Store, rows: seq<Key>, now: int)
    requires Listing(s, rows) && rows != [] && rows[0].at <= now
    ensures Overdue(s, rows[0].call, now)
    ensures Listing(ExpireTask(s, rows[0].call, now), rows[1..])
  {
    var s' := ExpireTask(s, rows[0].call, now);
    assert rows[0] in rows;
    ExpireTouchesOne(s, rows[0].call, now);
    forall k | k in rows[1..]
      ensures k.call in s'.tasks && k == DueKey(k.call, s'.tasks[k.call])
    {
      var i :| 0 <= i < |rows| - 1 && rows[i + 1] == k;
      assert k in rows;
    }
  }

  lemma VisitedStep(rows: seq<Key>, id: CallId, now: int)
    requires rows != [] && rows[0].at <= now
    ensures VisitedRow(rows, id, now) <==> rows[0].call == id || VisitedRow(rows[1..], id, now)
  {
    if VisitedRow(rows, id, now) && rows[0].call != id {
      var i :| 0 <= i < |rows| && rows[i].call == id && forall j | 0 <= j <= i :: rows[j].at <= now;
      assert rows[1..][i - 1].call == id;
      assert forall j | 0 <= j <= i - 1 :: rows[1..][j] == rows[j + 1];
    }
    if VisitedRow(rows[1..], id, now) {
      var i :| 0 <= i < |rows[1..]| && rows[1..][i].call == id && forall j | 0 <= j <= i :: rows[1..][j].at <= now;
      assert rows[i + 1].call == id;
      forall j | 0 <= j <= i + 1
        ensures rows[j].at <= now
      {
        assert j == 0 || rows[j] == rows[1..][j - 1];
      }
    }
  }

  lemma {:induction false} ExpireListedKeeps(s: Store, rows: seq<Key>, now: int)
    requires Inv(s) && Listing(s, rows)
    ensures Inv(ExpireListed(s, rows, now))
    decreases |rows|
  {
    if rows != [] && rows[0].at <= now {
      ListingRest(s, rows, now);
      ExpireTaskKeeps(s, rows[0].call, now);
      ExpireListedKeeps(ExpireTask(s, rows[0].call, now), rows[1..], now);
    }
  }

  /** What a walk over a listing does to one call; calls that were not stored stay absent. */
  lemma {:induction false} ExpireListedAt(s: Store, rows: seq<Key>, id: CallId, now: int)
    requires Listing(s, rows)
    ensures Became(ExpireListed(s, rows, now).tasks, id,
                   if id !in s.tasks then None
                   else if VisitedRow(rows, id, now) then Expired(s.tasks[id], now)
                   else Some(s.tasks[id]))
    decreases |rows|
  {
    if rows != [] && rows[0].at <= now {
      var first := rows[0].call;
      ListingRest(s, rows, now);
      ExpireTouchesOne(s, first, now);
      ExpireListedAt(ExpireTask(s, first, now), rows[1..], id, now);
      VisitedStep(rows, id, now);
      if id == first {
        assert forall j | 0 <= j < |rows[1..]| :: rows[1..][j] == rows[j + 1];
        assert !VisitedRow(rows[1..], id, now);
      }
    }
  }

  /** The earliest overdue calls, as a scan of all tasks finds them. */
  ghost predicate AmongEarliestDue(tasks: Tasks, id: CallId, now: int) {
    && id in tasks && tasks[id].deadline <= now
    && |Earlier(KeyOrder(), DueKeys(tasks), Key(tasks[id].deadline, id))| < 24
  }

  lemma ListedIsListing(s: Store)
    requires DueAgrees(s)
    ensures Listing(s, Listed(s.due, DRAIN_LIMIT))
  {
    assert Total(KeyOrder());
    PrefixRows(KeyOrder(), s.due, DRAIN_LIMIT);
    var rows := Listed(s.due, DRAIN_LIMIT);
    forall k | k in rows
      ensures k.call in s.tasks && k == DueKey(k.call, s.tasks[k.call])
    {
      DueMember(s.tasks, k);
    }
    forall i, j | 0 <= i < j < |rows|
      ensures rows[i].call != rows[j].call
    {
      assert KeyOrder()(rows[i], rows[j]);
      assert rows[i] in rows && rows[j] in rows;
    }
  }

  lemma VisitedIsEarly(s: Store, id: CallId, now: int)
    requires DueAgrees(s) && id in s.tasks && VisitedRow(Listed(s.due, DRAIN_LIMIT), id, now)
    ensures AmongEarliestDue(s.tasks, id, now)
  {
    assert Total(KeyOrder());
    var rows, k := Listed(s.due, DRAIN_LIMIT), DueKey(id, s.tasks[id]);
    ListedIsListing(s);
    var i :| 0 <= i < |rows| && rows[i].call == id && forall j | 0 <= j <= i :: rows[j].at <= now;
    assert rows[i] in rows;
    assert rows[i] == k;
    DueMember(s.tasks, k);
    PrefixByRank(KeyOrder(), s.due, DRAIN_LIMIT, k);
  }

  lemma EarlyIsVisited(s: Store, id: CallId, now: int)
    requires DueAgrees(s) && AmongEarliestDue(s.tasks, id, now)
    ensures VisitedRow(Listed(s.due, DRAIN_LIMIT), id, now)
  {
    assert Total(KeyOrder());
    var rows, k := Listed(s.due, DRAIN_LIMIT), DueKey(id, s.tasks[id]);
    DueMember(s.tasks, k);
    PrefixRows(KeyOrder(), s.due, DRAIN_LIMIT);
    PrefixByRank(KeyOrder(), s.due, DRAIN_LIMIT, k);
    var i :| 0 <= i < |rows| && rows[i] == k;
    forall j | 0 <= j <= i
      ensures rows[j].at <= now
    {
      assert j == i || KeyOrder()(rows[j], rows[i]);
    }
  }

  ghost function Recovered(s: Store, now: int): Store {
    if s.active.Some? then RecoverLease(s, s.active.value, now) else s
  }

  lemma RecoveredKeeps(s: Store, now: int)
    requires Inv(s)
    ensures Inv(Recovered(s, now))
  {
    if s.active.Some? {
      RecoverLeaseKeeps(s, s.active.value, now);
    }
  }

  lemma AlarmKeeps(s: Store, now: int)
    requires Inv(s)
    ensures Inv(Alarm(s, now))
  {
    var r := Recovered(s, now);
    RecoveredKeeps(s, now);
    ListedIsListing(r);
    ExpireListedKeeps(r, Listed(r.due, DRAIN_LIMIT), now);
  }

  /** One alarm expires exactly the earliest overdue calls, at most DRAIN_LIMIT of them, each in its
      own way, and leaves every other record as the lease recovery before it left it. */
  lemma AlarmExact(s: Store, now: int, id: CallId)
    requires Inv(s)
    ensures var before := Recovered(s, now).tasks;
            Became(Alarm(s, now).tasks, id,
                   if id !in before then None
                   else if AmongEarliestDue(before, id, now) then Expired(before[id], now)
                   else Some(before[id]))
  {
    var r := Recovered(s, now);
    RecoveredKeeps(s, now);
    ListedIsListing(r);
    var rows := Listed(r.due, DRAIN_LIMIT);
    ExpireListedAt(r, rows, id, now);
    if id in r.tasks {
      if VisitedRow(rows, id, now) {
        VisitedIsEarly(r, id, now);
      }
      if AmongEarliestDue(r.tasks, id, now) {
        EarlyIsVisited(r, id, now);
      }
    }
  }

  // ---- When the next alarm must ring -------------------------------------------------------

  predicate IsMinimum(at: Option<int>, candidates: set<int>) {
    if at.None? then candidates == {} else at.value in candidates && forall c | c in candidates :: at.value <= c
  }

  /** Everything that may call for an alarm, found by a full scan. */
  ghost function Wakeups(s: Store, now: int): set<int> {
    (set id | id in s.tasks :: s.tasks[id].deadline) +
    (if s.active.Some? && s.active.value in s.tasks && s.tasks[s.active.value].mail.Some? &&
        s.tasks[s.active.value].mail.value.lease.Some?
     then {s.tasks[s.active.value].mail.value.lease.value.expiresAt} else {}) +
    (if s.outbox != {} then {now + 1_000} else {})
  }

  /** The earliest deadline is in the first row of the due index, and nowhere else. */
  lemma FirstDueIsEarliest(s: Store)
    requires DueAgrees(s)
    ensures s.due == {} <==> s.tasks == map[]
    ensures s.due != {} ==> IsMinimum(Some(First(s.due).at), set id | id in s.tasks :: s.tasks[id].deadline)
  {
    if s.tasks != map[] {
      var id :| id in s.tasks;
      DueMember(s.tasks, DueKey(id, s.tasks[id]));
    }
    if s.due != {} {
      var k := First(s.due);
      DueMember(s.tasks, k);
      forall id | id in s.tasks
        ensures k.at <= s.tasks[id].deadline
      {
        DueMember(s.tasks, DueKey(id, s.tasks[id]));
      }
    }
  }
}

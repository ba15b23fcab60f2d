/** What the replay store answers, told from the attempts before instead of from its entries. */
module ReplayAnswers {
  import opened Wrappers
  import opened ReplayStore

  /** The attempt at i was taken, and no attempt taken between i and j read a clock two minutes past its
      expiry: taking one is the only moment at which old entries are dropped. */
  predicate TakenAndKept(hs: seq<seq<Reservation>>, attempts: seq<Attempt>, i: nat, j: nat)
    requires |hs| == |attempts| + 1 && j <= |attempts|
  {
    && i < j && Takes(hs, attempts, i)
    && forall k | i < k < j && Takes(hs, attempts, k) :: attempts[k].now < attempts[i].r.expiresAt + 120_000
  }

  lemma KeptOneMore(hs: seq<seq<Reservation>>, attempts: seq<Attempt>, i: nat, j: nat)
    requires |hs| == |attempts| + 1 && i + 1 < j <= |attempts|
    ensures TakenAndKept(hs, attempts, i, j) <==>
            TakenAndKept(hs, attempts, i, j - 1) && !(Takes(hs, attempts, j - 1) && Forgets(attempts[j - 1], attempts[i].r))
  {
    hide Takes;
  }

  /** The store holds exactly the reservations that were taken and kept. */
  lemma {:induction false} EntriesWereTaken(hs: seq<seq<Reservation>>, attempts: seq<Attempt>, j: nat, r: Reservation)
    requires History(hs, attempts) && j < |hs|
    ensures r in hs[j] <==> exists i :: 0 <= i < j && TakenAndKept(hs, attempts, i, j) && attempts[i].r == r
    decreases j
  {
    if j > 0 {
      EntriesWereTaken(hs, attempts, j - 1, r);
      assert hs[j] == After(hs[j - 1], attempts[j - 1].r, attempts[j - 1].now);
      if Takes(hs, attempts, j - 1) {
        AfterRows(hs[j - 1], attempts[j - 1].r, attempts[j - 1].now);
      }
      assert Takes(hs, attempts, j - 1) <==> TakenAndKept(hs, attempts, j - 1, j);
      forall i | 0 <= i < j - 1
        ensures TakenAndKept(hs, attempts, i, j) <==>
                TakenAndKept(hs, attempts, i, j - 1) && !(Takes(hs, attempts, j - 1) && Forgets(attempts[j - 1], attempts[i].r))
      {
        KeptOneMore(hs, attempts, i, j);
      }
      hide Takes;
      hide TakenAndKept;
      hide After;
      if r in hs[j] && r in hs[j - 1] && !(Takes(hs, attempts, j - 1) && Forgets(attempts[j - 1], r)) {
        var i :| 0 <= i < j - 1 && TakenAndKept(hs, attempts, i, j - 1) && attempts[i].r == r;
        assert TakenAndKept(hs, attempts, i, j);
      } else if r in hs[j] {
        assert TakenAndKept(hs, attempts, j - 1, j) && attempts[j - 1].r == r;
      }
    }
  }

  /** At attempt j, read by its clock, the attempt at i is remembered. */
  predicate Remembered(hs: seq<seq<Reservation>>, attempts: seq<Attempt>, i: nat, j: nat)
    requires |hs| == |attempts| + 1 && j < |attempts|
  {
    TakenAndKept(hs, attempts, i, j) && attempts[j].now < attempts[i].r.expiresAt + 120_000
  }

  ghost function RowsRemembered(hs: seq<seq<Reservation>>, attempts: seq<Attempt>, j: nat): set<Reservation>
    requires |hs| == |attempts| + 1 && j < |attempts|
  {
    set i | 0 <= i < j && Remembered(hs, attempts, i, j) :: attempts[i].r
  }

  lemma {:induction false} DistinctRows(rs: seq<Reservation>)
    requires NoDuplicate(rs)
    ensures |set r | r in rs| == |rs|
    decreases |rs|
  {
    if rs == [] {
      assert (set r | r in rs) == {};
    } else {
      assert NoDuplicate(rs[1..]);
      DistinctRows(rs[1..]);
      assert (set r | r in rs) == {rs[0]} + set r | r in rs[1..];
      assert rs[0] !in rs[1..];
    }
  }

  lemma LiveIsRemembered(hs: seq<seq<Reservation>>, attempts: seq<Attempt>, j: nat)
    requires History(hs, attempts) && j < |attempts|
    ensures forall r :: r in Live(hs[j], attempts[j].now) <==> r in RowsRemembered(hs, attempts, j)
    ensures |Live(hs[j], attempts[j].now)| == |RowsRemembered(hs, attempts, j)|
  {
    var live := Live(hs[j], attempts[j].now);
    StoreStaysValid(hs, attempts, j);
    LiveRows(hs[j], attempts[j].now);
    hide TakenAndKept;
    forall r
      ensures r in live <==> r in RowsRemembered(hs, attempts, j)
    {
      EntriesWereTaken(hs, attempts, j, r);
      if r in live {
        var i :| 0 <= i < j && TakenAndKept(hs, attempts, i, j) && attempts[i].r == r;
        assert Remembered(hs, attempts, i, j);
      }
    }
    DistinctRows(live);
    assert (set r | r in live) == RowsRemembered(hs, attempts, j);
  }

  predicate InTime(a: Attempt) {
    && 0 <= a.r.expiresAt <= 9_007_199_254_740_991 - 120_000 && 0 <= a.now <= 9_007_199_254_740_991
    && a.now < a.r.expiresAt <= a.now + 480_000
  }

  /** A request is refused as a replay exactly if an attempt at the same request is remembered; otherwise
      it is taken exactly if fewer than ten thousand reservations are. An expiry that has passed, lies
      more than eight minutes ahead, or is no safe integer, is refused before that. */
  lemma ReservationIsAnswered(hs: seq<seq<Reservation>>, attempts: seq<Attempt>, j: nat)
    requires History(hs, attempts) && j < |attempts|
    ensures VerdictOn(hs[j], attempts[j].r, attempts[j].now) ==
            if !InTime(attempts[j]) then Invalid
            else if exists q :: q in RowsRemembered(hs, attempts, j) && q.sender == attempts[j].r.sender && q.request == attempts[j].r.request
            then Replayed
            else if |RowsRemembered(hs, attempts, j)| >= 10_000 then Full
            else Accepted
  {
    LiveIsRemembered(hs, attempts, j);
    var live, r := Live(hs[j], attempts[j].now), attempts[j].r;
    hide RowsRemembered;
    hide Live;
    if Known(live, r) {
      var k :| 0 <= k < |live| && SameRequest(live[k], r);
      assert live[k] in live;
    } else {
      NotKnown(live, r);
    }
  }
}

/** Which encrypted requests a listener has already taken, on disk and under a file lock. */
module ReplayStore {
  import opened Wrappers

  const MAX_RESERVATIONS := 10_000
  const RETENTION_SKEW := 120_000
  const MAX_FUTURE := 360_000 + RETENTION_SKEW
  const MAX_SAFE_INTEGER := 9007199254740991

  /** Fingerprints and request ids are fixed-width hexadecimal; such text sorts like its number. */
  datatype Reservation = Reservation(sender: nat, request: nat, expiresAt: int)

  datatype Verdict = Accepted | Replayed | Full | Invalid

  predicate SameRequest(a: Reservation, b: Reservation) {
    a.sender == b.sender && a.request == b.request
  }

  predicate NotAfter(a: Reservation, b: Reservation) {
    a.expiresAt < b.expiresAt || (a.expiresAt == b.expiresAt && (
      a.sender < b.sender || (a.sender == b.sender && a.request <= b.request)))
  }

  predicate InOrder(rs: seq<Reservation>) {
    forall i, j | 0 <= i < j < |rs| :: NotAfter(rs[i], rs[j])
  }

  predicate NoDuplicate(rs: seq<Reservation>) {
    forall i, j | 0 <= i < j < |rs| :: !SameRequest(rs[i], rs[j])
  }

  predicate Known(rs: seq<Reservation>, r: Reservation) {
    exists i :: 0 <= i < |rs| && SameRequest(rs[i], r)
  }

  /** What every saved store satisfies. */
  predicate Valid(rs: seq<Reservation>) {
    |rs| <= MAX_RESERVATIONS && NoDuplicate(rs) && InOrder(rs)
  }

  function Live(rs: seq<Reservation>, now: int): seq<Reservation> {
    if rs == [] then []
    else (if now < rs[0].expiresAt + RETENTION_SKEW then [rs[0]] else []) + Live(rs[1..], now)
  }

  function Insert(rs: seq<Reservation>, r: Reservation): seq<Reservation> {
    if rs == [] || NotAfter(r, rs[0]) then [r] + rs else [rs[0]] + Insert(rs[1..], r)
  }

  /** The order is total on reservations, so any sorting algorithm gives this list. */
  function Sorted(rs: seq<Reservation>): seq<Reservation> {
    if rs == [] then [] else Insert(Sorted(rs[1..]), rs[0])
  }

  predicate Acceptable(r: Reservation, now: int) {
    && 0 <= r.expiresAt <= MAX_SAFE_INTEGER - RETENTION_SKEW
    && 0 <= now <= MAX_SAFE_INTEGER && now < r.expiresAt <= now + MAX_FUTURE
  }

  function VerdictOn(rs: seq<Reservation>, r: Reservation, now: int): Verdict {
    if !Acceptable(r, now) then Invalid
    else if Known(Live(rs, now), r) then Replayed
    else if |Live(rs, now)| >= MAX_RESERVATIONS then Full
    else Accepted
  }

  function After(rs: seq<Reservation>, r: Reservation, now: int): seq<Reservation> {
    if VerdictOn(rs, r, now) == Accepted then Sorted(Live(rs, now) + [r]) else rs
  }

  // ---- Sorting and filtering ---------------------------------------------------------------

  lemma {:induction false} InsertKeepsRows(rs: seq<Reservation>, r: Reservation)
    ensures multiset(Insert(rs, r)) == multiset(rs) + multiset{r}
    decreases |rs|
  {
    if rs == [] || NotAfter(r, rs[0]) {
      assert Insert(rs, r) == [r] + rs;
    } else {
      InsertKeepsRows(rs[1..], r);
      assert rs == [rs[0]] + rs[1..];
      assert Insert(rs, r) == [rs[0]] + Insert(rs[1..], r);
    }
  }

  lemma OrderedFront(x: Reservation, rest: seq<Reservation>)
    requires InOrder(rest) && forall q | q in rest :: NotAfter(x, q)
    ensures InOrder([x] + rest)
  {
    var s := [x] + rest;
    forall i, j | 0 <= i < j < |s|
      ensures NotAfter(s[i], s[j])
    {
      assert s[j] == rest[j - 1];
    }
  }

  lemma OrderedHead(rs: seq<Reservation>)
    requires InOrder(rs) && rs != []
    ensures InOrder(rs[1..]) && forall q | q in rs[1..] :: NotAfter(rs[0], q)
  {
  }

  lemma {:induction false} InsertKeepsOrder(rs: seq<Reservation>, r: Reservation)
    requires InOrder(rs)
    ensures InOrder(Insert(rs, r))
    decreases |rs|
  {
    if rs == [] {
      assert Insert(rs, r) == [r];
    } else {
      OrderedHead(rs);
      if NotAfter(r, rs[0]) {
        assert rs == [rs[0]] + rs[1..];
        OrderedFront(r, rs);
      } else {
        InsertKeepsOrder(rs[1..], r);
        InsertKeepsRows(rs[1..], r);
        var rest := Insert(rs[1..], r);
        forall q | q in rest
          ensures NotAfter(rs[0], q)
        {
          assert q in multiset(rest);
        }
        OrderedFront(rs[0], rest);
      }
    }
  }

  /** Sorting keeps every entry and puts them in order. */
  lemma {:induction false} SortedRows(rs: seq<Reservation>)
    ensures multiset(Sorted(rs)) == multiset(rs) && InOrder(Sorted(rs))
    decreases |rs|
  {
    if rs != [] {
      SortedRows(rs[1..]);
      InsertKeepsRows(Sorted(rs[1..]), rs[0]);
      InsertKeepsOrder(Sorted(rs[1..]), rs[0]);
      assert rs == [rs[0]] + rs[1..];
    }
  }

  lemma {:induction false} LiveRows(rs: seq<Reservation>, now: int)
    ensures forall r :: r in Live(rs, now) <==> r in rs && now < r.expiresAt + RETENTION_SKEW
    ensures |Live(rs, now)| <= |rs|
    ensures NoDuplicate(rs) ==> NoDuplicate(Live(rs, now))
    decreases |rs|
  {
    if rs != [] {
      LiveRows(rs[1..], now);
      var rest := Live(rs[1..], now);
      var s := Live(rs, now);
      assert forall r :: r in rs <==> r == rs[0] || r in rs[1..];
      if NoDuplicate(rs) && now < rs[0].expiresAt + RETENTION_SKEW {
        assert NoDuplicate(rs[1..]);
        assert s == [rs[0]] + rest;
        forall j | 0 < j < |s|
          ensures !SameRequest(s[0], s[j])
        {
          assert s[j] in rest;
        }
      }
    }
  }

  lemma {:induction false} DistinctByCount(rs: seq<Reservation>, ss: seq<Reservation>)
    requires NoDuplicate(rs) && multiset(rs) == multiset(ss)
    ensures NoDuplicate(ss) && |ss| == |rs|
  {
    assert |multiset(rs)| == |rs| && |multiset(ss)| == |ss|;
    forall i, j | 0 <= i < j < |ss|
      ensures !SameRequest(ss[i], ss[j])
    {
      if SameRequest(ss[i], ss[j]) {
        TwoPlaces(ss, i, j);
        assert ss[i] in multiset(rs) && ss[j] in multiset(rs);
        var k :| 0 <= k < |rs| && rs[k] == ss[i];
        var l :| 0 <= l < |rs| && rs[l] == ss[j];
        if k == l {
          OncePerEntry(rs, k);
        }
      }
    }
  }

  lemma TwoPlaces(ss: seq<Reservation>, i: nat, j: nat)
    requires i < j < |ss|
    ensures ss[i] == ss[j] ==> multiset(ss)[ss[i]] >= 2
  {
    assert ss == ss[..j] + [ss[j]] + ss[j + 1..];
    assert ss[..j][i] in multiset(ss[..j]);
  }

  lemma OncePerEntry(rs: seq<Reservation>, k: nat)
    requires NoDuplicate(rs) && k < |rs|
    ensures multiset(rs)[rs[k]] == 1
  {
    assert rs == rs[..k] + [rs[k]] + rs[k + 1..];
    assert forall i | 0 <= i < |rs| && i != k :: rs[i] != rs[k];
    assert rs[k] !in rs[..k] && rs[k] !in rs[k + 1..];
  }

  lemma AfterRows(rs: seq<Reservation>, r: Reservation, now: int)
    requires VerdictOn(rs, r, now) == Accepted
    ensures forall q :: q in After(rs, r, now) <==> q == r || (q in rs && now < q.expiresAt + RETENTION_SKEW)
  {
    LiveRows(rs, now);
    SortedRows(Live(rs, now) + [r]);
    forall q
      ensures q in After(rs, r, now) <==> q == r || q in Live(rs, now)
    {
      assert q in After(rs, r, now) <==> q in multiset(After(rs, r, now));
      assert q in multiset(Live(rs, now) + [r]) <==> q in Live(rs, now) + [r];
    }
  }

  lemma AfterValid(rs: seq<Reservation>, r: Reservation, now: int)
    requires Valid(rs)
    ensures Valid(After(rs, r, now))
  {
    if VerdictOn(rs, r, now) == Accepted {
      LiveRows(rs, now);
      var unsorted := Live(rs, now) + [r];
      assert NoDuplicate(unsorted);
      SortedRows(unsorted);
      DistinctByCount(unsorted, Sorted(unsorted));
    }
  }

  class Store {
    var reservations: seq<Reservation>

    constructor ()
      ensures reservations == []
    {
      reservations := [];
    }

    method ReserveReplay(r: Reservation, now: int) returns (verdict: Verdict)
      requires Valid(reservations)
      modifies this
      ensures Valid(reservations)
      ensures verdict == VerdictOn(old(reservations), r, now)
      ensures reservations == After(old(reservations), r, now)
    {
      AfterValid(reservations, r, now);
      if r.expiresAt < 0 || r.expiresAt > MAX_SAFE_INTEGER - RETENTION_SKEW || now < 0 || now > MAX_SAFE_INTEGER {
        return Invalid;
      }
      if r.expiresAt <= now || r.expiresAt > now + MAX_FUTURE {
        return Invalid;
      }
      var live := Live(reservations, now);
      if exists i | 0 <= i < |live| :: SameRequest(live[i], r) {
        return Replayed;
      }
      if |live| >= MAX_RESERVATIONS {
        return Full;
      }
      reservations := Sorted(live + [r]);
      verdict := Accepted;
    }
  }

  // ---- Histories ---------------------------------------------------------------------------

  datatype Attempt = Attempt(r: Reservation, now: int)

  ghost predicate History(hs: seq<seq<Reservation>>, attempts: seq<Attempt>) {
    && |hs| == |attempts| + 1 && hs[0] == []
    && forall i | 0 <= i < |attempts| :: hs[i + 1] == After(hs[i], attempts[i].r, attempts[i].now)
  }

  predicate Takes(hs: seq<seq<Reservation>>, attempts: seq<Attempt>, i: nat)
    requires |hs| == |attempts| + 1 && i < |attempts|
  {
    VerdictOn(hs[i], attempts[i].r, attempts[i].now) == Accepted
  }

  /** In any order of attempts and with any clock readings the store stays bounded, free of duplicates
      and in order. */
  lemma {:induction false} StoreStaysValid(hs: seq<seq<Reservation>>, attempts: seq<Attempt>, i: nat)
    requires History(hs, attempts) && i < |hs|
    ensures Valid(hs[i])
    ensures |hs[i]| <= 10_000
    ensures forall p, q | 0 <= p < q < |hs[i]| ::
              var a, b := hs[i][p], hs[i][q];
              || a.expiresAt < b.expiresAt || (a.expiresAt == b.expiresAt && a.sender < b.sender)
              || (a.expiresAt == b.expiresAt && a.sender == b.sender && a.request < b.request)
    decreases i
  {
    if i > 0 {
      StoreStaysValid(hs, attempts, i - 1);
      AfterValid(hs[i - 1], attempts[i - 1].r, attempts[i - 1].now);
    }
  }

  predicate Forgets(a: Attempt, r: Reservation) {
    a.now >= r.expiresAt + RETENTION_SKEW
  }

  lemma {:induction false} StaysKnown(hs: seq<seq<Reservation>>, attempts: seq<Attempt>, i: nat, j: nat, r: Reservation)
    requires History(hs, attempts) && i <= j < |hs| && r in hs[i]
    requires forall k | i <= k < j :: !(Takes(hs, attempts, k) && Forgets(attempts[k], r))
    ensures r in hs[j]
    decreases j
  {
    if i < j {
      StaysKnown(hs, attempts, i, j - 1, r);
      assert hs[j] == After(hs[j - 1], attempts[j - 1].r, attempts[j - 1].now);
      if Takes(hs, attempts, j - 1) {
        AfterRows(hs[j - 1], attempts[j - 1].r, attempts[j - 1].now);
      }
    }
  }

  /** The same reservation is taken twice only if in between the clock read more than two minutes past
      the second reading; a clock that never goes back takes it once. */
  lemma TakenTwiceOnlyByABadClock(hs: seq<seq<Reservation>>, attempts: seq<Attempt>, i: nat, j: nat)
    requires History(hs, attempts) && i < j < |attempts| && attempts[i].r == attempts[j].r
    requires Takes(hs, attempts, i) && Takes(hs, attempts, j)
    ensures exists k :: i < k < j && Takes(hs, attempts, k) && attempts[k].now > attempts[j].now + RETENTION_SKEW
  {
    var r := attempts[i].r;
    assert hs[i + 1] == After(hs[i], attempts[i].r, attempts[i].now);
    AfterRows(hs[i], r, attempts[i].now);
    if forall k | i + 1 <= k < j :: !(Takes(hs, attempts, k) && Forgets(attempts[k], r)) {
      StaysKnown(hs, attempts, i + 1, j, r);
      LiveRows(hs[j], attempts[j].now);
      var live := Live(hs[j], attempts[j].now);
      assert r in live ==> Known(live, r) by {
        if r in live {
          var n :| 0 <= n < |live| && live[n] == r;
          assert SameRequest(live[n], r);
        }
      }
    }
    var k :| i + 1 <= k < j && Takes(hs, attempts, k) && Forgets(attempts[k], r);
    assert attempts[k].now > attempts[j].now + RETENTION_SKEW;
  }

  // ---- Exactly when a repeat is taken ------------------------------------------------------

  /** No entry of this request is on file but the reservation itself. */
  predicate OnlyAs(rs: seq<Reservation>, r: Reservation) {
    forall q | q in rs && SameRequest(q, r) :: q == r
  }

  lemma OnlyAfterTake(rs: seq<Reservation>, r: Reservation, now: int)
    requires VerdictOn(rs, r, now) == Accepted
    ensures OnlyAs(After(rs, r, now), r) && r in After(rs, r, now)
  {
    AfterRows(rs, r, now);
    LiveRows(rs, now);
    NotKnown(Live(rs, now), r);
  }

  lemma NotKnown(rs: seq<Reservation>, r: Reservation)
    requires !Known(rs, r)
    ensures forall q | q in rs :: !SameRequest(q, r)
  {
    assert forall n | 0 <= n < |rs| :: !SameRequest(rs[n], r);
  }

  lemma OnlyStays(rs: seq<Reservation>, a: Attempt, r: Reservation)
    requires OnlyAs(rs, r) && (VerdictOn(rs, a.r, a.now) == Accepted ==> !SameRequest(a.r, r))
    ensures var after := After(rs, a.r, a.now);
            && OnlyAs(after, r)
            && (r in after <==> r in rs && !(VerdictOn(rs, a.r, a.now) == Accepted && Forgets(a, r)))
  {
    if VerdictOn(rs, a.r, a.now) == Accepted {
      AfterRows(rs, a.r, a.now);
      assert a.r != r;
    }
  }

  ghost predicate ForgottenBetween(hs: seq<seq<Reservation>>, attempts: seq<Attempt>, i: nat, j: nat, r: Reservation)
    requires |hs| == |attempts| + 1 && j <= |attempts|
  {
    exists k :: i <= k < j && Takes(hs, attempts, k) && Forgets(attempts[k], r)
  }

  lemma {:induction false} KeptUnlessForgotten(hs: seq<seq<Reservation>>, attempts: seq<Attempt>, i: nat, j: nat, r: Reservation)
    requires History(hs, attempts) && i <= j < |hs| && r in hs[i] && OnlyAs(hs[i], r)
    requires forall k | i <= k < j && Takes(hs, attempts, k) :: !SameRequest(attempts[k].r, r)
    ensures OnlyAs(hs[j], r) && (r in hs[j] <==> !ForgottenBetween(hs, attempts, i, j, r))
    decreases j
  {
    if i < j {
      KeptUnlessForgotten(hs, attempts, i, j - 1, r);
      assert hs[j] == After(hs[j - 1], attempts[j - 1].r, attempts[j - 1].now);
      OnlyStays(hs[j - 1], attempts[j - 1], r);
      assert ForgottenBetween(hs, attempts, i, j, r) <==>
             ForgottenBetween(hs, attempts, i, j - 1, r) || (Takes(hs, attempts, j - 1) && Forgets(attempts[j - 1], r));
    }
  }

  lemma KnownIfHeld(rs: seq<Reservation>, r: Reservation, now: int)
    requires OnlyAs(rs, r) && now < r.expiresAt + RETENTION_SKEW
    ensures Known(Live(rs, now), r) <==> r in rs
  {
    LiveRows(rs, now);
    var live := Live(rs, now);
    if Known(live, r) {
      var n :| 0 <= n < |live| && SameRequest(live[n], r);
      assert live[n] in live;
    }
    if r in rs {
      assert r in live;
      var n :| 0 <= n < |live| && live[n] == r;
      assert SameRequest(live[n], r);
    }
  }

  /** A repeat of a taken reservation that is still valid and finds room is taken again if and only if
      an attempt that was taken since read a clock past the reservation's retention. */
  lemma RepeatIsTakenExactlyIfForgotten(hs: seq<seq<Reservation>>, attempts: seq<Attempt>, i: nat, j: nat)
    requires History(hs, attempts) && i < j < |attempts| && Takes(hs, attempts, i) && attempts[j].r == attempts[i].r
    requires forall k | i < k < j && Takes(hs, attempts, k) :: !SameRequest(attempts[k].r, attempts[i].r)
    requires Acceptable(attempts[j].r, attempts[j].now) && |Live(hs[j], attempts[j].now)| < MAX_RESERVATIONS
    ensures Takes(hs, attempts, j) <==> ForgottenBetween(hs, attempts, i + 1, j, attempts[i].r)
  {
    var r := attempts[i].r;
    OnlyAfterTake(hs[i], r, attempts[i].now);
    assert hs[i + 1] == After(hs[i], attempts[i].r, attempts[i].now);
    KeptUnlessForgotten(hs, attempts, i + 1, j, r);
    KnownIfHeld(hs[j], r, attempts[j].now);
  }

  /** A clock that jumps ahead and comes back does it. */
  lemma TakenTwice()
    ensures exists hs, attempts: seq<Attempt> ::
              && History(hs, attempts) && |attempts| == 3 && attempts[0] == attempts[2]
              && Takes(hs, attempts, 0) && Takes(hs, attempts, 2)
  {
    var r, q := Reservation(1, 1, 1_000), Reservation(1, 2, 200_000);
    var attempts := [Attempt(r, 0), Attempt(q, 150_000), Attempt(r, 0)];
    assert Live([], 0) == [];
    assert Sorted([r]) == [r];
    assert Live([], 0) + [r] == [r] && After([], r, 0) == [r];
    assert Live([r], 150_000) == [];
    assert Sorted([q]) == [q];
    assert Live([r], 150_000) + [q] == [q] && After([r], q, 150_000) == [q];
    assert Live([q], 0) == [q];
    var hs := [[], [r], [q], After([q], r, 0)];
    assert History(hs, attempts);
    assert Takes(hs, attempts, 0) && Takes(hs, attempts, 2);
  }
}

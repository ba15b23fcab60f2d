/** The listener's durable record of which calls it has begun to execute. Every operation runs under a
    file lock and saves durably, so operations of any processes follow one another. */
module ExecutionJournal {
  import opened Wrappers

  const MAX_EXECUTION_RECORDS := 1_000
  const RECORD_TTL := 72 * 60 * 60_000 + 24 * 60 * 60_000

  datatype State = Claimed | Started | Terminal

  datatype Record = Record(call: string, digest: string, state: State, updatedAt: int, purgeAfter: int)

  datatype Decision = Execute | Conflict | Indeterminate | AlreadyTerminal

  predicate IsDigest(d: string) {
    |d| == 64 && forall i | 0 <= i < 64 :: '0' <= d[i] <= '9' || 'a' <= d[i] <= 'f'
  }

  function Live(rs: seq<Record>, now: int): seq<Record> {
    if rs == [] then []
    else (if now < rs[0].purgeAfter then [rs[0]] else []) + Live(rs[1..], now)
  }

  predicate Has(rs: seq<Record>, call: string) {
    exists i :: 0 <= i < |rs| && rs[i].call == call
  }

  /** The schema of the journal file. */
  predicate Valid(rs: seq<Record>) {
    && |rs| <= MAX_EXECUTION_RECORDS
    && (forall i | 0 <= i < |rs| :: rs[i].call != "" && IsDigest(rs[i].digest) && rs[i].updatedAt >= 0 && rs[i].purgeAfter > 0)
    && forall i, j | 0 <= i < j < |rs| :: rs[i].call != rs[j].call
  }

  function IndexOf(rs: seq<Record>, call: string): (i: int)
    ensures if Has(rs, call) then 0 <= i < |rs| && rs[i].call == call else i < 0
  {
    if rs == [] then -1
    else if rs[0].call == call then 0
    else
      var rest := IndexOf(rs[1..], call);
      assert Has(rs, call) ==> Has(rs[1..], call) by {
        if Has(rs, call) {
          var k :| 0 <= k < |rs| && rs[k].call == call;
          assert rs[1..][k - 1].call == call;
        }
      }
      if rest < 0 then
        assert Has(rs[1..], call) ==> Has(rs, call);
        rest
      else rest + 1
  }

  function Claim(call: string, digest: string, now: int): Record {
    Record(call, digest, Claimed, now, now + RECORD_TTL)
  }

  function DecisionFor(r: Record, digest: string): Decision {
    if r.digest != digest then Conflict
    else match r.state case Claimed => Execute case Started => Indeterminate case Terminal => AlreadyTerminal
  }

  // ---- The operations as functions on the records ------------------------------------------

  predicate Creates(rs: seq<Record>, call: string, digest: string, now: int) {
    && call != "" && IsDigest(digest) && now >= 0
    && !Has(Live(rs, now), call) && |Live(rs, now)| < MAX_EXECUTION_RECORDS
  }

  function AfterClaim(rs: seq<Record>, call: string, digest: string, now: int): seq<Record> {
    if Creates(rs, call, digest, now) then Live(rs, now) + [Claim(call, digest, now)] else rs
  }

  function ClaimResult(rs: seq<Record>, call: string, digest: string, now: int): Result<Decision> {
    var live := Live(rs, now);
    if call == "" || !IsDigest(digest) then Failure
    else if Has(live, call) then Success(DecisionFor(live[IndexOf(live, call)], digest))
    else if Creates(rs, call, digest, now) then Success(Execute)
    else Failure
  }

  predicate Transitions(rs: seq<Record>, call: string, digest: string, target: State, now: int) {
    && Has(rs, call) && now >= 0
    && var r := rs[IndexOf(rs, call)];
    && r.digest == digest && (if target == Started then r.state == Claimed else r.state != Terminal)
  }

  function AfterTransition(rs: seq<Record>, call: string, digest: string, target: State, now: int): seq<Record> {
    if Transitions(rs, call, digest, target, now)
    then rs[IndexOf(rs, call) := rs[IndexOf(rs, call)].(state := target, updatedAt := now)]
    else rs
  }

  lemma {:induction false} LiveRows(rs: seq<Record>, now: int)
    ensures forall r :: r in Live(rs, now) <==> r in rs && now < r.purgeAfter
    decreases |rs|
  {
    if rs != [] {
      LiveRows(rs[1..], now);
      assert forall r :: r in rs <==> r == rs[0] || r in rs[1..];
    }
  }

  lemma {:induction false} LiveValid(rs: seq<Record>, now: int)
    requires Valid(rs)
    ensures Valid(Live(rs, now))
    decreases |rs|
  {
    if rs != [] {
      assert Valid(rs[1..]);
      LiveValid(rs[1..], now);
      LiveRows(rs[1..], now);
      var rest := Live(rs[1..], now);
      assert |rest| <= |rs[1..]| by { LiveShorter(rs[1..], now); }
      var live := Live(rs, now);
      if now < rs[0].purgeAfter {
        assert live == [rs[0]] + rest;
        forall j | 0 < j < |live|
          ensures live[0].call != live[j].call
        {
          assert live[j] in rest && live[j] in rs[1..];
        }
      }
    }
  }

  lemma {:induction false} LiveShorter(rs: seq<Record>, now: int)
    ensures |Live(rs, now)| <= |rs|
    decreases |rs|
  {
    if rs != [] {
      LiveShorter(rs[1..], now);
    }
  }

  lemma ClaimValid(rs: seq<Record>, call: string, digest: string, now: int)
    requires Valid(rs)
    ensures Valid(AfterClaim(rs, call, digest, now))
  {
    LiveValid(rs, now);
    if Creates(rs, call, digest, now) {
      var live := Live(rs, now);
      assert forall i | 0 <= i < |live| :: live[i].call != call;
    }
  }

  class Journal {
    var records: seq<Record>

    constructor ()
      ensures records == []
    {
      records := [];
    }

    method ClaimExecution(call: string, digest: string, now: int) returns (result: Result<Decision>)
      requires Valid(records)
      modifies this
      ensures Valid(records)
      ensures result == ClaimResult(old(records), call, digest, now)
      ensures records == AfterClaim(old(records), call, digest, now)
    {
      ClaimValid(records, call, digest, now);
      if call == "" || !IsDigest(digest) {
        return Failure;
      }
      var live := Live(records, now);
      var index := IndexOf(live, call);
      if index >= 0 {
        var existing := live[index];
        if existing.digest != digest {
          return Success(Conflict);
        }
        match existing.state {
          case Claimed => return Success(Execute);
          case Started => return Success(Indeterminate);
          case Terminal => return Success(AlreadyTerminal);
        }
      }
      if |live| >= MAX_EXECUTION_RECORDS || now < 0 {
        return Failure;
      }
      live := live + [Record(call, digest, Claimed, now, now + RECORD_TTL)];
      records := live;
      result := Success(Execute);
    }

    method Transition(call: string, digest: string, target: State, now: int) returns (done: bool)
      requires Valid(records) && target != Claimed
      modifies this
      ensures Valid(records)
      ensures done == Transitions(old(records), call, digest, target, now)
      ensures records == AfterTransition(old(records), call, digest, target, now)
    {
      var index := IndexOf(records, call);
      if index < 0 || records[index].digest != digest {
        return false;
      }
      var record := records[index];
      if target == Started && record.state != Claimed {
        return false;
      }
      if target == Terminal && record.state == Terminal {
        return false;
      }
      if now < 0 {
        return false;
      }
      records := records[index := record.(state := target, updatedAt := now)];
      done := true;
    }

    method MarkExecutionStarted(call: string, digest: string, now: int) returns (done: bool)
      requires Valid(records)
      modifies this
      ensures Valid(records)
      ensures done == Transitions(old(records), call, digest, Started, now)
      ensures records == AfterTransition(old(records), call, digest, Started, now)
    {
      done := Transition(call, digest, Started, now);
    }

    method MarkExecutionTerminal(call: string, digest: string, now: int) returns (done: bool)
      requires Valid(records)
      modifies this
      ensures Valid(records)
      ensures done == Transitions(old(records), call, digest, Terminal, now)
      ensures records == AfterTransition(old(records), call, digest, Terminal, now)
    {
      done := Transition(call, digest, Terminal, now);
    }
  }

  // ---- Runs --------------------------------------------------------------------------------

  datatype Op = ToClaim(call: string, digest: string, now: int)
              | ToStart(call: string, digest: string, now: int)
              | ToFinish(call: string, digest: string, now: int)

  function Apply(rs: seq<Record>, op: Op): seq<Record> {
    match op
    case ToClaim(call, digest, now) => AfterClaim(rs, call, digest, now)
    case ToStart(call, digest, now) => AfterTransition(rs, call, digest, Started, now)
    case ToFinish(call, digest, now) => AfterTransition(rs, call, digest, Terminal, now)
  }

  /** Operations of any processes in lock order, with whatever clock readings they happen to see. */
  ghost predicate History(hs: seq<seq<Record>>, ops: seq<Op>) {
    && |hs| == |ops| + 1 && hs[0] == []
    && forall i | 0 <= i < |ops| :: hs[i + 1] == Apply(hs[i], ops[i])
  }

  predicate Begins(hs: seq<seq<Record>>, ops: seq<Op>, i: nat)
    requires |hs| == |ops| + 1 && i < |ops|
  {
    ops[i].ToClaim? && Creates(hs[i], ops[i].call, ops[i].digest, ops[i].now)
  }

  predicate StartsCall(hs: seq<seq<Record>>, ops: seq<Op>, i: nat)
    requires |hs| == |ops| + 1 && i < |ops|
  {
    ops[i].ToStart? && Transitions(hs[i], ops[i].call, ops[i].digest, Started, ops[i].now)
  }

  function Rank(s: State): nat {
    match s case Claimed => 0 case Started => 1 case Terminal => 2
  }

  /** The journal still holds the record made for this call, perhaps further along. */
  predicate Carries(rs: seq<Record>, r: Record) {
    Has(rs, r.call) &&
    var s := rs[IndexOf(rs, r.call)];
    s.digest == r.digest && s.purgeAfter == r.purgeAfter && Rank(r.state) <= Rank(s.state)
  }

  lemma UniqueIndex(rs: seq<Record>, r: Record)
    requires Valid(rs) && r in rs
    ensures Has(rs, r.call) && rs[IndexOf(rs, r.call)] == r
  {
    var i :| 0 <= i < |rs| && rs[i] == r;
    assert rs[i].call == r.call;
  }

  lemma TransitionValid(rs: seq<Record>, call: string, digest: string, target: State, now: int)
    requires Valid(rs)
    ensures Valid(AfterTransition(rs, call, digest, target, now))
  {
  }

  lemma {:induction false} HistoryValid(hs: seq<seq<Record>>, ops: seq<Op>, i: nat)
    requires History(hs, ops) && i < |hs|
    ensures Valid(hs[i])
    decreases i
  {
    if i > 0 {
      HistoryValid(hs, ops, i - 1);
      assert hs[i] == Apply(hs[i - 1], ops[i - 1]);
      match ops[i - 1]
      case ToClaim(call, digest, now) => ClaimValid(hs[i - 1], call, digest, now);
      case ToStart(call, digest, now) => TransitionValid(hs[i - 1], call, digest, Started, now);
      case ToFinish(call, digest, now) => TransitionValid(hs[i - 1], call, digest, Terminal, now);
    }
  }

  /** Only a claim that reads a clock past the purge time can lose a record. */
  predicate Purges(op: Op, r: Record) {
    op.ToClaim? && op.now >= r.purgeAfter
  }

  lemma ClaimCarries(rs: seq<Record>, r: Record, call: string, digest: string, now: int)
    requires Valid(rs) && Carries(rs, r) && now < r.purgeAfter
    ensures Carries(AfterClaim(rs, call, digest, now), r)
  {
    if Creates(rs, call, digest, now) {
      var kept := rs[IndexOf(rs, r.call)];
      LiveRows(rs, now);
      ClaimValid(rs, call, digest, now);
      assert kept in Live(rs, now);
      assert kept in AfterClaim(rs, call, digest, now);
      UniqueIndex(AfterClaim(rs, call, digest, now), kept);
    }
  }

  lemma TransitionCarries(rs: seq<Record>, r: Record, call: string, digest: string, target: State, now: int)
    requires Valid(rs) && Carries(rs, r) && target != Claimed
    ensures Carries(AfterTransition(rs, call, digest, target, now), r)
  {
    if Transitions(rs, call, digest, target, now) {
      var at, mine := IndexOf(rs, call), IndexOf(rs, r.call);
      var after := AfterTransition(rs, call, digest, target, now);
      TransitionValid(rs, call, digest, target, now);
      assert after[mine] in after && after[mine].call == r.call;
      UniqueIndex(after, after[mine]);
    }
  }

  lemma {:induction false} RecordPersists(hs: seq<seq<Record>>, ops: seq<Op>, i: nat, j: nat, r: Record)
    requires History(hs, ops) && i <= j < |hs| && Carries(hs[i], r)
    requires forall k | i <= k < j :: !Purges(ops[k], r)
    ensures Carries(hs[j], r)
    decreases j
  {
    if i < j {
      RecordPersists(hs, ops, i, j - 1, r);
      HistoryValid(hs, ops, j - 1);
      assert hs[j] == Apply(hs[j - 1], ops[j - 1]);
      var op := ops[j - 1];
      assert !Purges(op, r);
      match op
      case ToClaim(call, digest, now) => ClaimCarries(hs[j - 1], r, call, digest, now);
      case ToStart(call, digest, now) => TransitionCarries(hs[j - 1], r, call, digest, Started, now);
      case ToFinish(call, digest, now) => TransitionCarries(hs[j - 1], r, call, digest, Terminal, now);
    }
  }

  lemma ClaimedIsCarried(rs: seq<Record>, call: string, digest: string, now: int)
    requires Valid(rs) && Creates(rs, call, digest, now)
    ensures Carries(AfterClaim(rs, call, digest, now), Claim(call, digest, now))
  {
    var after := AfterClaim(rs, call, digest, now);
    ClaimValid(rs, call, digest, now);
    assert after[|after| - 1] in after;
    UniqueIndex(after, Claim(call, digest, now));
  }

  lemma FoundAlive(rs: seq<Record>, r: Record, now: int)
    requires Valid(rs) && Carries(rs, r) && now < r.purgeAfter
    ensures var live := Live(rs, now);
            Has(live, r.call) && live[IndexOf(live, r.call)] == rs[IndexOf(rs, r.call)]
  {
    LiveRows(rs, now);
    LiveValid(rs, now);
    var kept := rs[IndexOf(rs, r.call)];
    assert kept in Live(rs, now);
    UniqueIndex(Live(rs, now), kept);
  }

  /** Two records of one call are made at least 96 hours apart, by the clock readings the journal saw:
      some claim after the first, up to the second, read a time that late. */
  lemma RecordsAreApart(hs: seq<seq<Record>>, ops: seq<Op>, i: nat, j: nat)
    requires History(hs, ops) && i < j < |ops| && Begins(hs, ops, i) && Begins(hs, ops, j) && ops[i].call == ops[j].call
    ensures exists k :: i < k <= j && ops[k].ToClaim? && ops[k].now >= ops[i].now + RECORD_TTL
    ensures (forall k | i <= k < j :: ops[k].now <= ops[j].now) ==> ops[j].now >= ops[i].now + RECORD_TTL
  {
    var r := Claim(ops[i].call, ops[i].digest, ops[i].now);
    HistoryValid(hs, ops, i);
    ClaimedIsCarried(hs[i], ops[i].call, ops[i].digest, ops[i].now);
    assert hs[i + 1] == Apply(hs[i], ops[i]);
    if forall k | i < k < j :: !Purges(ops[k], r) {
      RecordPersists(hs, ops, i + 1, j, r);
      HistoryValid(hs, ops, j);
      if ops[j].now < r.purgeAfter {
        FoundAlive(hs[j], r, ops[j].now);
      }
      assert Purges(ops[j], r);
    }
  }

  lemma StartedIsCarried(rs: seq<Record>, call: string, digest: string, now: int)
    requires Valid(rs) && Transitions(rs, call, digest, Started, now)
    ensures var r := rs[IndexOf(rs, call)].(state := Started, updatedAt := now);
            Carries(AfterTransition(rs, call, digest, Started, now), r)
  {
    var r := rs[IndexOf(rs, call)].(state := Started, updatedAt := now);
    var after := AfterTransition(rs, call, digest, Started, now);
    TransitionValid(rs, call, digest, Started, now);
    assert after[IndexOf(rs, call)] == r;
    assert r in after;
    UniqueIndex(after, r);
  }

  /** A call starts at most once per record: for a second start, its first record must have been purged. */
  lemma OneStartPerRecord(hs: seq<seq<Record>>, ops: seq<Op>, i: nat, j: nat)
    requires History(hs, ops) && i < j < |ops| && StartsCall(hs, ops, i) && StartsCall(hs, ops, j) && ops[i].call == ops[j].call
    ensures exists k :: i < k < j && Purges(ops[k], hs[i][IndexOf(hs[i], ops[i].call)])
  {
    var was := hs[i][IndexOf(hs[i], ops[i].call)];
    var r := was.(state := Started, updatedAt := ops[i].now);
    HistoryValid(hs, ops, i);
    StartedIsCarried(hs[i], ops[i].call, ops[i].digest, ops[i].now);
    assert hs[i + 1] == Apply(hs[i], ops[i]);
    if forall k | i < k < j :: !Purges(ops[k], r) {
      RecordPersists(hs, ops, i + 1, j, r);
    }
    var k :| i < k < j && Purges(ops[k], r);
    assert Purges(ops[k], was);
  }

  // ---- Every record was claimed ------------------------------------------------------------

  predicate MadeBy(hs: seq<seq<Record>>, ops: seq<Op>, b: nat, r: Record)
    requires |hs| == |ops| + 1 && b < |ops|
  {
    Begins(hs, ops, b) && ops[b].call == r.call && ops[b].digest == r.digest && r.purgeAfter == ops[b].now + RECORD_TTL
  }

  predicate SameRecord(q: Record, r: Record) {
    q.call == r.call && q.digest == r.digest && q.purgeAfter == r.purgeAfter
  }

  predicate JustMade(rs: seq<Record>, op: Op, r: Record) {
    op.ToClaim? && Creates(rs, op.call, op.digest, op.now) && r == Claim(op.call, op.digest, op.now)
  }

  lemma StepRecord(rs: seq<Record>, op: Op, r: Record) returns (q: Record)
    requires Valid(rs) && r in Apply(rs, op)
    ensures JustMade(rs, op, r) || (q in rs && SameRecord(q, r))
  {
    q := r;
    match op
    case ToClaim(call, digest, now) => LiveRows(rs, now);
    case ToStart(call, digest, now) =>
      if Transitions(rs, call, digest, Started, now) && r !in rs {
        q := rs[IndexOf(rs, call)];
      }
    case ToFinish(call, digest, now) =>
      if Transitions(rs, call, digest, Terminal, now) && r !in rs {
        q := rs[IndexOf(rs, call)];
      }
  }

  lemma {:induction false} RecordsWereClaimed(hs: seq<seq<Record>>, ops: seq<Op>, i: nat, r: Record) returns (b: nat)
    requires History(hs, ops) && i < |hs| && r in hs[i]
    ensures b < i && b < |ops| && |hs| == |ops| + 1 && MadeBy(hs, ops, b, r)
    decreases i
  {
    if i == 0 {
      assert false;
    } else {
      HistoryValid(hs, ops, i - 1);
      assert hs[i] == Apply(hs[i - 1], ops[i - 1]);
      var q := StepRecord(hs[i - 1], ops[i - 1], r);
      hide Apply;
      if JustMade(hs[i - 1], ops[i - 1], r) {
        b := i - 1;
      } else {
        b := RecordsWereClaimed(hs, ops, i - 1, q);
      }
    }
  }

  /** A start is only ever of the request that was claimed: same call, same ciphertext. */
  lemma StartsWereClaimed(hs: seq<seq<Record>>, ops: seq<Op>, j: nat)
    requires History(hs, ops) && j < |ops| && StartsCall(hs, ops, j)
    ensures exists b :: 0 <= b < j && Begins(hs, ops, b) && ops[b].call == ops[j].call && ops[b].digest == ops[j].digest
  {
    var r := hs[j][IndexOf(hs[j], ops[j].call)];
    var b := RecordsWereClaimed(hs, ops, j, r);
  }

  /** While its record is kept, a call is refused with any other ciphertext. */
  lemma OtherCiphertextIsRefused(hs: seq<seq<Record>>, ops: seq<Op>, i: nat, j: nat)
    requires History(hs, ops) && i < j < |ops| && Begins(hs, ops, i) && ops[j].ToClaim? && ops[j].call == ops[i].call
    requires forall k | i < k <= j :: !Purges(ops[k], Claim(ops[i].call, ops[i].digest, ops[i].now))
    requires IsDigest(ops[j].digest) && ops[j].digest != ops[i].digest
    ensures ClaimResult(hs[j], ops[j].call, ops[j].digest, ops[j].now) == Success(Conflict)
  {
    var r := Claim(ops[i].call, ops[i].digest, ops[i].now);
    HistoryValid(hs, ops, i);
    HistoryValid(hs, ops, j);
    ClaimedIsCarried(hs[i], ops[i].call, ops[i].digest, ops[i].now);
    assert hs[i + 1] == Apply(hs[i], ops[i]);
    RecordPersists(hs, ops, i + 1, j, r);
    FoundAlive(hs[j], r, ops[j].now);
  }

  /** Once a call has started, a redelivery is never told to execute while the record is kept. */
  lemma StartedIsNeverExecuted(hs: seq<seq<Record>>, ops: seq<Op>, i: nat, j: nat)
    requires History(hs, ops) && i < j < |ops| && StartsCall(hs, ops, i) && ops[j].ToClaim? && ops[j].call == ops[i].call
    requires forall k | i < k <= j :: !Purges(ops[k], hs[i][IndexOf(hs[i], ops[i].call)])
    ensures ClaimResult(hs[j], ops[j].call, ops[j].digest, ops[j].now) != Success(Execute)
  {
    var was := hs[i][IndexOf(hs[i], ops[i].call)];
    var r := was.(state := Started, updatedAt := ops[i].now);
    HistoryValid(hs, ops, i);
    HistoryValid(hs, ops, j);
    StartedIsCarried(hs[i], ops[i].call, ops[i].digest, ops[i].now);
    assert hs[i + 1] == Apply(hs[i], ops[i]);
    assert forall k | i < k <= j :: Purges(ops[k], r) <==> Purges(ops[k], was);
    RecordPersists(hs, ops, i + 1, j, r);
    FoundAlive(hs[j], r, ops[j].now);
  }
}

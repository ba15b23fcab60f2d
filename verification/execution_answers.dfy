/** What the journal answers, told from the operations before it instead of from its records. */
module ExecutionAnswers {
  import opened Wrappers
  import opened ExecutionJournal

  // ---- What has happened to a record -------------------------------------------------------

  predicate Finishes(hs: seq<seq<Record>>, ops: seq<Op>, k: nat)
    requires |hs| == |ops| + 1 && k < |ops|
  {
    ops[k].ToFinish? && Transitions(hs[k], ops[k].call, ops[k].digest, Terminal, ops[k].now)
  }

  /** No record was made, between i and j, under a clock 96 hours past the claim at i: making a record is
      the only moment at which old ones are dropped. */
  predicate Kept(hs: seq<seq<Record>>, ops: seq<Op>, i: nat, j: nat)
    requires |hs| == |ops| + 1 && i < j <= |ops|
  {
    forall k | i < k < j && Begins(hs, ops, k) :: ops[k].now < ops[i].now + 345_600_000
  }

  predicate StartedSince(hs: seq<seq<Record>>, ops: seq<Op>, i: nat, j: nat)
    requires |hs| == |ops| + 1 && i < j <= |ops|
  {
    exists k :: i < k < j && StartsCall(hs, ops, k) && ops[k].call == ops[i].call
  }

  predicate FinishedSince(hs: seq<seq<Record>>, ops: seq<Op>, i: nat, j: nat)
    requires |hs| == |ops| + 1 && i < j <= |ops|
  {
    exists k :: i < k < j && Finishes(hs, ops, k) && ops[k].call == ops[i].call
  }

  predicate RecordFor(r: Record, op: Op, state: State) {
    r.call == op.call && r.digest == op.digest && r.purgeAfter == op.now + 345_600_000 && r.state == state
  }

  predicate Holds(rs: seq<Record>, op: Op, state: State) {
    exists r :: r in rs && RecordFor(r, op, state)
  }

  function Reached(started: bool, finished: bool): State {
    if finished then Terminal else if started then Started else Claimed
  }

  /** What one more operation does to the record made by `made`. */
  function Moved(rs: seq<Record>, op: Op, made: Op, state: State): State {
    if op.call != made.call then state
    else if op.ToStart? && Transitions(rs, op.call, op.digest, Started, op.now) then Started
    else if op.ToFinish? && Transitions(rs, op.call, op.digest, Terminal, op.now) then Terminal
    else state
  }

  lemma ClaimHolds(rs: seq<Record>, op: Op, made: Op, state: State)
    requires Valid(rs) && Holds(rs, made, state) && op.ToClaim?
    requires Creates(rs, op.call, op.digest, op.now) ==> op.now < made.now + 345_600_000
    ensures Holds(Apply(rs, op), made, state)
  {
    var r :| r in rs && RecordFor(r, made, state);
    LiveRows(rs, op.now);
    assert r in Apply(rs, op);
  }

  lemma TransitionHolds(rs: seq<Record>, op: Op, made: Op, state: State)
    requires Valid(rs) && Holds(rs, made, state) && !op.ToClaim?
    ensures Holds(Apply(rs, op), made, Moved(rs, op, made, state))
  {
    var r :| r in rs && RecordFor(r, made, state);
    var target := if op.ToStart? then Started else Terminal;
    UniqueIndex(rs, r);
    if Transitions(rs, op.call, op.digest, target, op.now) {
      var at, mine := IndexOf(rs, op.call), IndexOf(rs, r.call);
      var after := Apply(rs, op);
      assert after == rs[at := rs[at].(state := target, updatedAt := op.now)];
      assert after[mine] in after;
      assert RecordFor(after[mine], made, Moved(rs, op, made, state));
    }
  }

  lemma OneMore(hs: seq<seq<Record>>, ops: seq<Op>, i: nat, j: nat)
    requires History(hs, ops) && i + 1 < j <= |ops|
    ensures StartedSince(hs, ops, i, j) <==>
            StartedSince(hs, ops, i, j - 1) || (StartsCall(hs, ops, j - 1) && ops[j - 1].call == ops[i].call)
    ensures FinishedSince(hs, ops, i, j) <==>
            FinishedSince(hs, ops, i, j - 1) || (Finishes(hs, ops, j - 1) && ops[j - 1].call == ops[i].call)
  {
    hide Transitions;
    hide Apply;
  }

  lemma StartedByHand(hs: seq<seq<Record>>, ops: seq<Op>, k: nat, made: Op, state: State)
    requires History(hs, ops) && k < |ops| && Valid(hs[k]) && Holds(hs[k], made, state) && ops[k].call == made.call
    ensures StartsCall(hs, ops, k) <==> ops[k].ToStart? && ops[k].now >= 0 && ops[k].digest == made.digest && state == Claimed
    ensures Finishes(hs, ops, k) <==> ops[k].ToFinish? && ops[k].now >= 0 && ops[k].digest == made.digest && state != Terminal
  {
    var r :| r in hs[k] && RecordFor(r, made, state);
    UniqueIndex(hs[k], r);
  }

  lemma HeldStep(hs: seq<seq<Record>>, ops: seq<Op>, k: nat, made: Op, state: State)
    requires History(hs, ops) && k < |ops| && Valid(hs[k]) && Holds(hs[k], made, state)
    requires Begins(hs, ops, k) ==> ops[k].now < made.now + 345_600_000
    ensures Holds(hs[k + 1], made, Moved(hs[k], ops[k], made, state))
  {
    assert hs[k + 1] == Apply(hs[k], ops[k]);
    if ops[k].ToClaim? {
      ClaimHolds(hs[k], ops[k], made, state);
    } else {
      TransitionHolds(hs[k], ops[k], made, state);
    }
  }

  /** A claim that made a record is on file, in the state that the starts and finishes since then make. */
  lemma {:induction false} RecordTells(hs: seq<seq<Record>>, ops: seq<Op>, i: nat, j: nat)
    requires History(hs, ops) && i < j <= |ops| && Begins(hs, ops, i) && Kept(hs, ops, i, j)
    ensures Valid(hs[j]) && Holds(hs[j], ops[i], Reached(StartedSince(hs, ops, i, j), FinishedSince(hs, ops, i, j)))
    decreases j
  {
    HistoryValid(hs, ops, j);
    if j == i + 1 {
      assert hs[j] == Apply(hs[i], ops[i]);
      var r := Claim(ops[i].call, ops[i].digest, ops[i].now);
      assert hs[j][|hs[j]| - 1] == r;
      assert RecordFor(r, ops[i], Claimed);
    } else {
      RecordTells(hs, ops, i, j - 1);
      OneMore(hs, ops, i, j);
      var state := Reached(StartedSince(hs, ops, i, j - 1), FinishedSince(hs, ops, i, j - 1));
      HeldStep(hs, ops, j - 1, ops[i], state);
      if ops[j - 1].call == ops[i].call {
        StartedByHand(hs, ops, j - 1, ops[i], state);
      }
      hide Transitions;
      hide Apply;
      hide Holds;
      hide StartedSince;
      hide FinishedSince;
    }
  }

  // ---- Every record on file was made and kept ----------------------------------------------

  predicate MadeAndKept(hs: seq<seq<Record>>, ops: seq<Op>, i: nat, j: nat, r: Record)
    requires |hs| == |ops| + 1 && i < j <= |ops|
  {
    && Begins(hs, ops, i) && Kept(hs, ops, i, j)
    && ops[i].call == r.call && ops[i].digest == r.digest && r.purgeAfter == ops[i].now + 345_600_000
  }

  lemma RecordSurvived(rs: seq<Record>, op: Op, r: Record)
    requires Valid(rs) && r in Apply(rs, op)
    ensures || JustMade(rs, op, r)
            || exists q :: q in rs && SameRecord(q, r) && (op.ToClaim? && Creates(rs, op.call, op.digest, op.now) ==> op.now < r.purgeAfter)
  {
    var q := StepRecord(rs, op, r);
    if op.ToClaim? && Creates(rs, op.call, op.digest, op.now) && !JustMade(rs, op, r) {
      LiveRows(rs, op.now);
      assert r in rs && SameRecord(r, r);
    }
  }

  lemma MadeOneLater(hs: seq<seq<Record>>, ops: seq<Op>, i: nat, j: nat, q: Record, r: Record)
    requires |hs| == |ops| + 1 && i < j < |ops| && MadeAndKept(hs, ops, i, j, q)
    requires SameRecord(q, r) && (Begins(hs, ops, j) ==> ops[j].now < r.purgeAfter)
    ensures MadeAndKept(hs, ops, i, j + 1, r)
  {
    hide Begins;
  }

  lemma {:induction false} RecordsWereMade(hs: seq<seq<Record>>, ops: seq<Op>, j: nat, r: Record) returns (i: nat)
    requires History(hs, ops) && j < |hs| && r in hs[j]
    ensures i < j && |hs| == |ops| + 1 && MadeAndKept(hs, ops, i, j, r)
    decreases j
  {
    assert j > 0;
    HistoryValid(hs, ops, j - 1);
    assert hs[j] == Apply(hs[j - 1], ops[j - 1]);
    RecordSurvived(hs[j - 1], ops[j - 1], r);
    hide Apply;
    hide Creates;
    if JustMade(hs[j - 1], ops[j - 1], r) {
      i := j - 1;
      assert Creates(hs[j - 1], ops[j - 1].call, ops[j - 1].digest, ops[j - 1].now);
    } else {
      var q :| q in hs[j - 1] && SameRecord(q, r) && (Begins(hs, ops, j - 1) ==> ops[j - 1].now < r.purgeAfter);
      i := RecordsWereMade(hs, ops, j - 1, q);
      hide *;
      MadeOneLater(hs, ops, i, j - 1, q, r);
    }
  }

  // ---- Answers -----------------------------------------------------------------------------

  /** At operation j, read by its clock, the claim at i is remembered. */
  predicate Remembered(hs: seq<seq<Record>>, ops: seq<Op>, i: nat, j: nat)
    requires |hs| == |ops| + 1 && j < |ops|
  {
    i < j && Begins(hs, ops, i) && Kept(hs, ops, i, j) && ops[j].now < ops[i].now + 345_600_000
  }

  ghost function CallsRemembered(hs: seq<seq<Record>>, ops: seq<Op>, j: nat): set<string>
    requires |hs| == |ops| + 1 && j < |ops|
  {
    set i | 0 <= i < j && Remembered(hs, ops, i, j) :: ops[i].call
  }

  lemma RememberedIsLive(hs: seq<seq<Record>>, ops: seq<Op>, i: nat, j: nat) returns (r: Record)
    requires History(hs, ops) && j < |ops| && Remembered(hs, ops, i, j)
    ensures Valid(Live(hs[j], ops[j].now)) && r in Live(hs[j], ops[j].now)
    ensures RecordFor(r, ops[i], Reached(StartedSince(hs, ops, i, j), FinishedSince(hs, ops, i, j)))
  {
    RecordTells(hs, ops, i, j);
    LiveValid(hs[j], ops[j].now);
    LiveRows(hs[j], ops[j].now);
    r :| r in hs[j] && RecordFor(r, ops[i], Reached(StartedSince(hs, ops, i, j), FinishedSince(hs, ops, i, j)));
  }

  lemma LiveIsRemembered(hs: seq<seq<Record>>, ops: seq<Op>, j: nat, r: Record) returns (i: nat)
    requires History(hs, ops) && j < |ops| && r in Live(hs[j], ops[j].now)
    ensures Remembered(hs, ops, i, j) && ops[i].call == r.call
  {
    LiveRows(hs[j], ops[j].now);
    i := RecordsWereMade(hs, ops, j, r);
  }

  lemma {:induction false} DistinctCalls(rs: seq<Record>)
    requires forall i, j | 0 <= i < j < |rs| :: rs[i].call != rs[j].call
    ensures |set r | r in rs :: r.call| == |rs|
    decreases |rs|
  {
    var calls := set r | r in rs :: r.call;
    if rs == [] {
      assert calls == {};
    } else {
      DistinctCalls(rs[1..]);
      var rest := set r | r in rs[1..] :: r.call;
      assert calls == {rs[0].call} + rest;
      assert rs[0].call !in rest;
    }
  }

  lemma LiveCalls(hs: seq<seq<Record>>, ops: seq<Op>, j: nat)
    requires History(hs, ops) && j < |ops|
    ensures |CallsRemembered(hs, ops, j)| == |Live(hs[j], ops[j].now)|
    ensures forall call :: Has(Live(hs[j], ops[j].now), call) <==> call in CallsRemembered(hs, ops, j)
  {
    var live := Live(hs[j], ops[j].now);
    HistoryValid(hs, ops, j);
    LiveValid(hs[j], ops[j].now);
    DistinctCalls(live);
    var calls := set r | r in live :: r.call;
    forall call
      ensures call in calls <==> call in CallsRemembered(hs, ops, j)
    {
      if call in calls {
        var r :| r in live && r.call == call;
        var i := LiveIsRemembered(hs, ops, j, r);
      }
      if call in CallsRemembered(hs, ops, j) {
        var i :| 0 <= i < j && Remembered(hs, ops, i, j) && ops[i].call == call;
        var r := RememberedIsLive(hs, ops, i, j);
        assert r.call in calls;
      }
    }
    assert calls == CallsRemembered(hs, ops, j);
    forall call
      ensures Has(live, call) <==> call in calls
    {
      if Has(live, call) {
        var k :| 0 <= k < |live| && live[k].call == call;
        assert live[k] in live;
      }
    }
  }

  /** A claim of a remembered call is told what became of it: refused under another ciphertext, already
      finished, started but not finished, or still to be executed. */
  lemma RedeliveryIsAnswered(hs: seq<seq<Record>>, ops: seq<Op>, i: nat, j: nat)
    requires History(hs, ops) && j < |ops| && Remembered(hs, ops, i, j)
    requires ops[j].ToClaim? && ops[j].call == ops[i].call && IsDigest(ops[j].digest)
    ensures ClaimResult(hs[j], ops[j].call, ops[j].digest, ops[j].now) == Success(
              if ops[j].digest != ops[i].digest then Conflict
              else if FinishedSince(hs, ops, i, j) then AlreadyTerminal
              else if StartedSince(hs, ops, i, j) then Indeterminate
              else Execute)
    ensures !Begins(hs, ops, j)
  {
    var r := RememberedIsLive(hs, ops, i, j);
    UniqueIndex(Live(hs[j], ops[j].now), r);
    hide StartedSince;
    hide FinishedSince;
    hide Live;
  }

  /** Any other claim makes a record and is told to execute, unless its name or digest is malformed, the
      clock is negative, or a thousand calls are remembered. */
  lemma NewClaimIsAnswered(hs: seq<seq<Record>>, ops: seq<Op>, j: nat)
    requires History(hs, ops) && j < |ops| && ops[j].ToClaim? && ops[j].call !in CallsRemembered(hs, ops, j)
    ensures var admitted := && ops[j].call != "" && |ops[j].digest| == 64
                            && (forall k | 0 <= k < 64 :: ops[j].digest[k] in "0123456789abcdef")
                            && ops[j].now >= 0 && |CallsRemembered(hs, ops, j)| < 1_000;
            && (Begins(hs, ops, j) <==> admitted)
            && ClaimResult(hs[j], ops[j].call, ops[j].digest, ops[j].now) == if admitted then Success(Execute) else Failure
  {
    LiveCalls(hs, ops, j);
    HexDigits(ops[j].digest);
    hide CallsRemembered;
    hide Live;
  }

  lemma HexDigits(d: string)
    ensures IsDigest(d) <==> |d| == 64 && forall k | 0 <= k < 64 :: d[k] in "0123456789abcdef"
  {
    forall c: char
      ensures c in "0123456789abcdef" <==> '0' <= c <= '9' || 'a' <= c <= 'f'
    {
    }
  }

  /** A claim at i whose record is on file when operation j comes, however old. */
  predicate OnFile(hs: seq<seq<Record>>, ops: seq<Op>, i: nat, j: nat)
    requires |hs| == |ops| + 1 && j < |ops|
  {
    i < j && Begins(hs, ops, i) && Kept(hs, ops, i, j) && ops[i].call == ops[j].call && ops[i].digest == ops[j].digest
  }

  lemma TransitionFindsRecord(hs: seq<seq<Record>>, ops: seq<Op>, j: nat, target: State) returns (i: nat)
    requires History(hs, ops) && j < |ops| && Transitions(hs[j], ops[j].call, ops[j].digest, target, ops[j].now)
    ensures OnFile(hs, ops, i, j)
  {
    var r := hs[j][IndexOf(hs[j], ops[j].call)];
    i := RecordsWereMade(hs, ops, j, r);
  }

  /** A start succeeds exactly for a call that was claimed with the same ciphertext, is on file, and was
      neither started nor finished since. */
  lemma StartIsExact(hs: seq<seq<Record>>, ops: seq<Op>, j: nat)
    requires History(hs, ops) && j < |ops| && ops[j].ToStart?
    ensures StartsCall(hs, ops, j) <==>
            && ops[j].now >= 0
            && exists i :: OnFile(hs, ops, i, j) && !StartedSince(hs, ops, i, j) && !FinishedSince(hs, ops, i, j)
  {
    hide StartedSince;
    hide FinishedSince;
    hide Kept;
    forall i: nat | OnFile(hs, ops, i, j)
      ensures StartsCall(hs, ops, j) <==> ops[j].now >= 0 && !StartedSince(hs, ops, i, j) && !FinishedSince(hs, ops, i, j)
    {
      RecordTells(hs, ops, i, j);
      StartedByHand(hs, ops, j, ops[i], Reached(StartedSince(hs, ops, i, j), FinishedSince(hs, ops, i, j)));
    }
    if StartsCall(hs, ops, j) {
      var i := TransitionFindsRecord(hs, ops, j, Started);
      assert OnFile(hs, ops, i, j);
    }
  }

  /** A finish succeeds exactly for such a call that was not finished since. */
  lemma FinishIsExact(hs: seq<seq<Record>>, ops: seq<Op>, j: nat)
    requires History(hs, ops) && j < |ops| && ops[j].ToFinish?
    ensures Finishes(hs, ops, j) <==>
            ops[j].now >= 0 && exists i :: OnFile(hs, ops, i, j) && !FinishedSince(hs, ops, i, j)
  {
    hide StartedSince;
    hide FinishedSince;
    hide Kept;
    forall i: nat | OnFile(hs, ops, i, j)
      ensures Finishes(hs, ops, j) <==> ops[j].now >= 0 && !FinishedSince(hs, ops, i, j)
    {
      RecordTells(hs, ops, i, j);
      StartedByHand(hs, ops, j, ops[i], Reached(StartedSince(hs, ops, i, j), FinishedSince(hs, ops, i, j)));
    }
    if Finishes(hs, ops, j) {
      var i := TransitionFindsRecord(hs, ops, j, Terminal);
      assert OnFile(hs, ops, i, j);
    }
  }
}

/** Listener processes that claim, start and run calls, and may stop at any moment. */
module ExecutionListener {
  import opened Wrappers
  import opened ExecutionJournal
  import opened ExecutionAnswers

  /** How far the handling of one delivery has come. `start` is the journal operation that marked it. */
  datatype Handler =
    | Delivered(call: string, digest: string)
    | Cleared(call: string, digest: string)
    | Refused(call: string, digest: string)
    | Marked(call: string, digest: string, start: nat)
    | Ran(call: string, digest: string)

  /** `hs` and `ops` are the journal's history; `runs` names, for each agent run, the start it used. */
  datatype World = World(hs: seq<seq<Record>>, ops: seq<Op>, handlers: map<nat, Handler>, runs: seq<nat>)

  const IDLE := World([[]], [], map[], [])

  datatype Action =
    | Deliver(h: nat, call: string, digest: string)
    | ClaimCall(h: nat, now: int)
    | MarkStarted(h: nat, now: int)
    | RunAgent(h: nat)
    | MarkTerminal(h: nat, now: int)
    | Restart

  predicate Enabled(w: World, a: Action) {
    match a
    case Deliver(h, _, _) => h !in w.handlers
    case ClaimCall(h, _) => h in w.handlers && w.handlers[h].Delivered?
    case MarkStarted(h, _) => h in w.handlers && w.handlers[h].Cleared?
    case RunAgent(h) => h in w.handlers && w.handlers[h].Marked?
    case MarkTerminal(h, _) => h in w.handlers && !w.handlers[h].Delivered?
    case Restart => true
  }

  function Journaled(w: World, op: Op): World
    requires w.hs != []
  {
    w.(hs := w.hs + [Apply(w.hs[|w.hs| - 1], op)], ops := w.ops + [op])
  }

  function Step(w: World, a: Action): World
    requires w.hs != [] && Enabled(w, a)
  {
    var now := w.hs[|w.hs| - 1];
    match a
    case Deliver(h, call, digest) => w.(handlers := w.handlers[h := Delivered(call, digest)])
    case ClaimCall(h, at) =>
      var d := w.handlers[h];
      var w' := Journaled(w, ToClaim(d.call, d.digest, at));
      if ClaimResult(now, d.call, d.digest, at) == Success(Execute)
      then w'.(handlers := w.handlers[h := Cleared(d.call, d.digest)])
      else w'.(handlers := w.handlers - {h})
    case MarkStarted(h, at) =>
      var d := w.handlers[h];
      var w' := Journaled(w, ToStart(d.call, d.digest, at));
      if Transitions(now, d.call, d.digest, Started, at)
      then w'.(handlers := w.handlers[h := Marked(d.call, d.digest, |w.ops|)])
      else w'.(handlers := w.handlers[h := Refused(d.call, d.digest)])
    case RunAgent(h) =>
      w.(handlers := w.handlers[h := Ran(w.handlers[h].call, w.handlers[h].digest)], runs := w.runs + [w.handlers[h].start])
    case MarkTerminal(h, at) =>
      Journaled(w, ToFinish(w.handlers[h].call, w.handlers[h].digest, at)).(handlers := w.handlers - {h})
    case Restart => w.(handlers := map[])
  }

  predicate StartOf(w: World, i: nat, call: string, digest: string) {
    |w.hs| == |w.ops| + 1 && i < |w.ops| && StartsCall(w.hs, w.ops, i) && w.ops[i].call == call && w.ops[i].digest == digest
  }

  ghost predicate MarksOk(w: World) {
    && (forall h | h in w.handlers && w.handlers[h].Marked? ::
          StartOf(w, w.handlers[h].start, w.handlers[h].call, w.handlers[h].digest) && w.handlers[h].start !in w.runs)
    && forall h, g | h in w.handlers && g in w.handlers && w.handlers[h].Marked? && w.handlers[g].Marked? &&
                     w.handlers[h].start == w.handlers[g].start :: h == g
  }

  /** Each run used a successful start, and no two runs the same one. */
  predicate RunsOk(w: World) {
    && (forall k | 0 <= k < |w.runs| :: |w.hs| == |w.ops| + 1 && w.runs[k] < |w.ops| && StartsCall(w.hs, w.ops, w.runs[k]))
    && forall k, l | 0 <= k < l < |w.runs| :: w.runs[k] != w.runs[l]
  }

  ghost predicate Inv(w: World) {
    History(w.hs, w.ops) && MarksOk(w) && RunsOk(w)
  }

  lemma JournaledHistory(w: World, op: Op)
    requires History(w.hs, w.ops)
    ensures History(Journaled(w, op).hs, Journaled(w, op).ops)
    ensures forall i | 0 <= i < |w.ops| ::
              StartsCall(Journaled(w, op).hs, Journaled(w, op).ops, i) == StartsCall(w.hs, w.ops, i) &&
              Journaled(w, op).ops[i] == w.ops[i]
  {
    var w' := Journaled(w, op);
    forall i | 0 <= i < |w'.ops|
      ensures w'.hs[i + 1] == Apply(w'.hs[i], w'.ops[i])
    {
      if i < |w.ops| {
        assert w.hs[i + 1] == Apply(w.hs[i], w.ops[i]);
      }
    }
  }

  lemma JournaledRuns(w: World, op: Op)
    requires History(w.hs, w.ops) && RunsOk(w)
    ensures RunsOk(Journaled(w, op))
  {
    JournaledHistory(w, op);
  }

  lemma JournaledMarks(w: World, op: Op)
    requires History(w.hs, w.ops) && MarksOk(w)
    ensures MarksOk(Journaled(w, op))
  {
    JournaledHistory(w, op);
    hide StartsCall;
  }

  lemma StepKeeps(w: World, a: Action)
    requires Inv(w) && Enabled(w, a)
    ensures w.hs != [] && Inv(Step(w, a))
  {
    match a
    case ClaimCall(h, at) =>
      var op := ToClaim(w.handlers[h].call, w.handlers[h].digest, at);
      JournaledHistory(w, op);
      JournaledRuns(w, op);
      JournaledMarks(w, op);
    case MarkStarted(h, at) => StartKeeps(w, h, at);
    case MarkTerminal(h, at) =>
      var op := ToFinish(w.handlers[h].call, w.handlers[h].digest, at);
      JournaledHistory(w, op);
      JournaledRuns(w, op);
      JournaledMarks(w, op);
    case RunAgent(h) => RunKeeps(w, h);
    case _ =>
  }

  lemma RunKeeps(w: World, h: nat)
    requires Inv(w) && Enabled(w, RunAgent(h))
    ensures w.hs != [] && Inv(Step(w, RunAgent(h)))
  {
    assert StartOf(w, w.handlers[h].start, w.handlers[h].call, w.handlers[h].digest);
    hide StartsCall;
  }

  lemma StartKeeps(w: World, h: nat, at: int)
    requires Inv(w) && Enabled(w, MarkStarted(h, at))
    ensures w.hs != [] && Inv(Step(w, MarkStarted(h, at)))
  {
    var op := ToStart(w.handlers[h].call, w.handlers[h].digest, at);
    JournaledHistory(w, op);
    JournaledRuns(w, op);
    JournaledMarks(w, op);
    var w1 := Journaled(w, op);
    assert StartsCall(w1.hs, w1.ops, |w.ops|) == Transitions(w.hs[|w.hs| - 1], op.call, op.digest, Started, at);
    assert forall g | g in w.handlers && w.handlers[g].Marked? :: w.handlers[g].start < |w.ops|;
    hide StartsCall;
    hide Transitions;
    hide Apply;
  }

  ghost predicate Behaviour(ws: seq<World>, acts: seq<Action>) {
    && |ws| == |acts| + 1 && ws[0] == IDLE
    && forall i | 0 <= i < |acts| :: ws[i].hs != [] && Enabled(ws[i], acts[i]) && ws[i + 1] == Step(ws[i], acts[i])
  }

  lemma {:induction false} BehaviourKeeps(ws: seq<World>, acts: seq<Action>, i: nat)
    requires Behaviour(ws, acts) && i < |ws|
    ensures Inv(ws[i])
    decreases i
  {
    if i > 0 {
      BehaviourKeeps(ws, acts, i - 1);
      hide Inv;
      hide Enabled;
      hide Step;
      StepKeeps(ws[i - 1], acts[i - 1]);
    }
  }

  /** The agent runs only after a start that succeeded, and that start was of a ciphertext claimed for
      the same call before. */
  lemma AgentRunsOnlyAfterAStart(ws: seq<World>, acts: seq<Action>, n: nat, k: nat)
    requires Behaviour(ws, acts) && n < |ws| && k < |ws[n].runs|
    ensures var w := ws[n];
            var i := w.runs[k];
            && |w.hs| == |w.ops| + 1 && i < |w.ops| && StartsCall(w.hs, w.ops, i)
            && exists b :: 0 <= b < i && Begins(w.hs, w.ops, b) && w.ops[b].call == w.ops[i].call && w.ops[b].digest == w.ops[i].digest
  {
    BehaviourKeeps(ws, acts, n);
    StartsWereClaimed(ws[n].hs, ws[n].ops, ws[n].runs[k]);
  }

  /** However often a call is redelivered and the listener restarted, two runs of the agent never share
      a start, and between two of the same call a claim read a clock past the first record's purge time. */
  lemma AgentRunsAtMostOncePerRecord(ws: seq<World>, acts: seq<Action>, n: nat, k: nat, l: nat)
    requires Behaviour(ws, acts) && n < |ws| && k < |ws[n].runs| && l < |ws[n].runs| && k != l
    ensures var w := ws[n];
            var i, j := w.runs[k], w.runs[l];
            && i != j && |w.hs| == |w.ops| + 1 && i < |w.ops| && j < |w.ops|
            && StartsCall(w.hs, w.ops, i) && StartsCall(w.hs, w.ops, j)
            && (i < j && w.ops[i].call == w.ops[j].call ==>
                  exists p :: i < p < j && Purges(w.ops[p], w.hs[i][IndexOf(w.hs[i], w.ops[i].call)]))
  {
    BehaviourKeeps(ws, acts, n);
    var w := ws[n];
    var i, j := w.runs[k], w.runs[l];
    assert k < l ==> w.runs[k] != w.runs[l];
    assert l < k ==> w.runs[l] != w.runs[k];
    if i < j && w.ops[i].call == w.ops[j].call {
      OneStartPerRecord(w.hs, w.ops, i, j);
    }
  }

  // ---- Deliveries that do run --------------------------------------------------------------

  /** The handler may go on to start its call. */
  predicate IsCleared(w: World, h: nat, call: string, digest: string) {
    h in w.handlers && w.handlers[h] == Cleared(call, digest)
  }

  /** A delivery goes on to its start exactly if nothing is remembered of its call and there is room for
      it, or if the same ciphertext was claimed before and neither started nor finished since. */
  lemma ClearedExactly(ws: seq<World>, acts: seq<Action>, n: nat)
    requires Behaviour(ws, acts) && n < |acts| && acts[n].ClaimCall?
    ensures var h, w', j := acts[n].h, ws[n + 1], |ws[n].ops|;
            && |w'.hs| == |w'.ops| + 1 && |w'.ops| == j + 1 && w'.ops[j].ToClaim?
            && (IsCleared(w', h, w'.ops[j].call, w'.ops[j].digest) <==>
                  || Begins(w'.hs, w'.ops, j)
                  || exists i :: && OnFile(w'.hs, w'.ops, i, j) && Remembered(w'.hs, w'.ops, i, j)
                                 && !StartedSince(w'.hs, w'.ops, i, j) && !FinishedSince(w'.hs, w'.ops, i, j))
            && (!IsCleared(w', h, w'.ops[j].call, w'.ops[j].digest) ==> h !in w'.handlers)
  {
    var h, w, w', j := acts[n].h, ws[n], ws[n + 1], |ws[n].ops|;
    BehaviourKeeps(ws, acts, n);
    BehaviourKeeps(ws, acts, n + 1);
    var op := ToClaim(w.handlers[h].call, w.handlers[h].digest, acts[n].now);
    assert w' == Step(w, acts[n]) && w'.ops == w.ops + [op] && w'.hs == w.hs + [Apply(w.hs[|w.hs| - 1], op)];
    assert w'.hs[j] == w.hs[|w.hs| - 1];
    assert IsCleared(w', h, op.call, op.digest) <==> ClaimResult(w'.hs[j], op.call, op.digest, op.now) == Success(Execute);
    assert History(w'.hs, w'.ops);
    hide Inv;
    hide Apply;
    hide Step;
    hide Enabled;
    ExecuteExactly(w'.hs, w'.ops, j);
  }

  lemma ExecuteExactly(hs: seq<seq<Record>>, ops: seq<Op>, j: nat)
    requires History(hs, ops) && j < |ops| && ops[j].ToClaim?
    ensures ClaimResult(hs[j], ops[j].call, ops[j].digest, ops[j].now) == Success(Execute) <==>
            || Begins(hs, ops, j)
            || exists i :: && OnFile(hs, ops, i, j) && Remembered(hs, ops, i, j)
                           && !StartedSince(hs, ops, i, j) && !FinishedSince(hs, ops, i, j)
  {
    forall i: nat | Remembered(hs, ops, i, j) && ops[i].call == ops[j].call && IsDigest(ops[j].digest)
      ensures ClaimResult(hs[j], ops[j].call, ops[j].digest, ops[j].now) == Success(Execute) <==>
              OnFile(hs, ops, i, j) && !StartedSince(hs, ops, i, j) && !FinishedSince(hs, ops, i, j)
      ensures !Begins(hs, ops, j)
    {
      RedeliveryIsAnswered(hs, ops, i, j);
    }
    if ops[j].call !in CallsRemembered(hs, ops, j) {
      NewClaimIsAnswered(hs, ops, j);
    }
    hide StartedSince;
    hide FinishedSince;
  }

  lemma JustClaimedStarts(rs: seq<Record>, call: string, digest: string, now: int, at: int)
    requires Valid(rs) && Creates(rs, call, digest, now) && at >= 0
    ensures ClaimResult(rs, call, digest, now) == Success(Execute)
    ensures Transitions(AfterClaim(rs, call, digest, now), call, digest, Started, at)
  {
    var after := AfterClaim(rs, call, digest, now);
    ClaimValid(rs, call, digest, now);
    assert after[|after| - 1] in after;
    UniqueIndex(after, Claim(call, digest, now));
  }

  /** A delivery whose claim makes a record, and which starts before anything else happens, runs the agent. */
  lemma FirstDeliveryRuns(ws: seq<World>, acts: seq<Action>, n: nat)
    requires Behaviour(ws, acts) && n + 1 < |acts| && acts[n].ClaimCall? && acts[n + 1].MarkStarted?
    requires acts[n + 1].h == acts[n].h && acts[n + 1].now >= 0
    requires |ws[n + 1].hs| == |ws[n + 1].ops| + 1 && |ws[n + 1].ops| == |ws[n].ops| + 1
    requires Begins(ws[n + 1].hs, ws[n + 1].ops, |ws[n].ops|)
    ensures var w := ws[n + 2];
            && w.hs != [] && Enabled(w, RunAgent(acts[n].h))
            && Step(w, RunAgent(acts[n].h)).runs == ws[n].runs + [|ws[n].ops| + 1]
  {
    BehaviourKeeps(ws, acts, n);
    var w, d := ws[n], ws[n].handlers[acts[n].h];
    var last := w.hs[|w.hs| - 1];
    HistoryValid(w.hs, w.ops, |w.ops|);
    assert ws[n + 1] == Step(w, acts[n]) && ws[n + 2] == Step(ws[n + 1], acts[n + 1]);
    assert ws[n + 1].hs[|w.ops|] == last && ws[n + 1].ops[|w.ops|] == ToClaim(d.call, d.digest, acts[n].now);
    JustClaimedStarts(last, d.call, d.digest, acts[n].now, acts[n + 1].now);
    assert ws[n + 1].hs[|ws[n + 1].hs| - 1] == AfterClaim(last, d.call, d.digest, acts[n].now);
    hide Transitions;
    hide AfterClaim;
    hide AfterTransition;
    hide ClaimResult;
    hide Creates;
  }

  /** A handler that may start does so exactly if its start succeeds in the journal; if not, all it can
      still do is mark the call finished. */
  lemma MarkedExactly(ws: seq<World>, acts: seq<Action>, n: nat)
    requires Behaviour(ws, acts) && n < |acts| && acts[n].MarkStarted?
    ensures var h, w', j := acts[n].h, ws[n + 1], |ws[n].ops|;
            && |w'.hs| == |w'.ops| + 1 && |w'.ops| == j + 1 && w'.ops[j].ToStart? && h in w'.handlers
            && w'.handlers[h] == (if StartsCall(w'.hs, w'.ops, j) then Marked(w'.ops[j].call, w'.ops[j].digest, j)
                                  else Refused(w'.ops[j].call, w'.ops[j].digest))
            && (Enabled(w', RunAgent(h)) <==> StartsCall(w'.hs, w'.ops, j)) && !Enabled(w', MarkStarted(h, 0)) && Enabled(w', MarkTerminal(h, 0))
  {
    BehaviourKeeps(ws, acts, n);
    assert ws[n + 1] == Step(ws[n], acts[n]) && Enabled(ws[n], acts[n]);
    hide Inv;
    hide Transitions;
    hide AfterTransition;
    assert ws[n + 1].hs[|ws[n].ops|] == ws[n].hs[|ws[n].hs| - 1];
  }

  /** A handler that marks its call finished has done all it does. */
  lemma FinishedHandlersGo(w: World, h: nat, at: int)
    requires w.hs != [] && Enabled(w, MarkTerminal(h, at))
    ensures var w' := Step(w, MarkTerminal(h, at));
            && w'.handlers == w.handlers - {h} && w'.runs == w.runs
            && w'.ops == w.ops + [ToFinish(w.handlers[h].call, w.handlers[h].digest, at)]
  {
  }

  function LostRecord(call: string, digest: string, state: State, at: int): Record {
    Record(call, digest, state, at, 1 + RECORD_TTL)
  }

  lemma OneRecord(r: Record, call: string)
    requires r.call == call
    ensures Has([r], call) && IndexOf([r], call) == 0
    ensures Live([r], 3) == if 3 < r.purgeAfter then [r] else []
  {
    assert [r][0].call == call;
    assert [r][1..] == [];
  }

  lemma LostClaim(call: string, digest: string)
    requires call != "" && IsDigest(digest)
    ensures ClaimResult([], call, digest, 1) == Success(Execute)
    ensures AfterClaim([], call, digest, 1) == [LostRecord(call, digest, Claimed, 1)]
  {
    assert Live([], 1) == [] && !Has([], call);
  }

  lemma LostStart(call: string, digest: string)
    requires call != "" && IsDigest(digest)
    ensures Transitions([LostRecord(call, digest, Claimed, 1)], call, digest, Started, 2)
    ensures AfterTransition([LostRecord(call, digest, Claimed, 1)], call, digest, Started, 2) == [LostRecord(call, digest, Started, 2)]
  {
    OneRecord(LostRecord(call, digest, Claimed, 1), call);
  }

  lemma LostRedelivery(call: string, digest: string)
    requires call != "" && IsDigest(digest)
    ensures ClaimResult([LostRecord(call, digest, Started, 2)], call, digest, 3) == Success(Indeterminate)
    ensures AfterClaim([LostRecord(call, digest, Started, 2)], call, digest, 3) == [LostRecord(call, digest, Started, 2)]
  {
    OneRecord(LostRecord(call, digest, Started, 2), call);
  }

  lemma BehaviourOn(ws: seq<World>, acts: seq<Action>, a: Action, w: World)
    requires Behaviour(ws, acts) && ws[|acts|].hs != [] && Enabled(ws[|acts|], a) && w == Step(ws[|acts|], a)
    ensures Behaviour(ws + [w], acts + [a]) && (ws + [w])[|acts| + 1] == w
  {
    hide Step;
    hide Enabled;
    var us, bs := ws + [w], acts + [a];
    forall i | 0 <= i < |bs|
      ensures us[i].hs != [] && Enabled(us[i], bs[i]) && us[i + 1] == Step(us[i], bs[i])
    {
      if i < |acts| {
        assert us[i] == ws[i] && us[i + 1] == ws[i + 1] && bs[i] == acts[i];
      }
    }
  }

  /** The first delivery gets as far as its mark. */
  lemma MarkedOnce(call: string, digest: string) returns (ws: seq<World>, acts: seq<Action>)
    requires call != "" && IsDigest(digest)
    ensures Behaviour(ws, acts) && |acts| == 3 && |ws| == 4
    ensures ws[3] == World([[], [LostRecord(call, digest, Claimed, 1)], [LostRecord(call, digest, Started, 2)]],
                           [ToClaim(call, digest, 1), ToStart(call, digest, 2)],
                           map[0 := Marked(call, digest, 1)], [])
  {
    LostClaim(call, digest);
    LostStart(call, digest);
    hide AfterClaim;
    hide AfterTransition;
    hide ClaimResult;
    hide Transitions;
    var w1 := Step(IDLE, Deliver(0, call, digest));
    BehaviourOn([IDLE], [], Deliver(0, call, digest), w1);
    var w2 := Step(w1, ClaimCall(0, 1));
    assert w2 == World([[], [LostRecord(call, digest, Claimed, 1)]], [ToClaim(call, digest, 1)], map[0 := Cleared(call, digest)], []);
    BehaviourOn([IDLE] + [w1], [] + [Deliver(0, call, digest)], ClaimCall(0, 1), w2);
    var w3 := Step(w2, MarkStarted(0, 2));
    BehaviourOn([IDLE] + [w1] + [w2], [] + [Deliver(0, call, digest)] + [ClaimCall(0, 1)], MarkStarted(0, 2), w3);
    ws, acts := [IDLE] + [w1] + [w2] + [w3], [] + [Deliver(0, call, digest)] + [ClaimCall(0, 1)] + [MarkStarted(0, 2)];
  }

  /** A listener that stops between the mark and the run loses the call: a redelivery is told that its
      fate is unknown, and no handler is left to run it. The journal promises at most once, no more. */
  lemma RestartCanLoseARun(call: string, digest: string) returns (ws: seq<World>, acts: seq<Action>)
    requires call != "" && IsDigest(digest)
    ensures Behaviour(ws, acts) && |acts| == 6 && acts[5] == ClaimCall(1, 3)
    ensures ws[5].hs != [] && ClaimResult(ws[5].hs[|ws[5].hs| - 1], call, digest, 3) == Success(Indeterminate)
    ensures ws[6].handlers == map[] && ws[6].runs == []
  {
    LostRedelivery(call, digest);
    hide AfterClaim;
    hide ClaimResult;
    var us, bs := MarkedOnce(call, digest);
    hide Behaviour;
    var w4 := Step(us[3], Restart);
    BehaviourOn(us, bs, Restart, w4);
    var w5 := Step(w4, Deliver(1, call, digest));
    BehaviourOn(us + [w4], bs + [Restart], Deliver(1, call, digest), w5);
    var w6 := Step(w5, ClaimCall(1, 3));
    assert w6.handlers == map[] && w6.runs == [];
    BehaviourOn(us + [w4] + [w5], bs + [Restart] + [Deliver(1, call, digest)], ClaimCall(1, 3), w6);
    ws, acts := us + [w4] + [w5] + [w6], bs + [Restart] + [Deliver(1, call, digest)] + [ClaimCall(1, 3)];
  }
}

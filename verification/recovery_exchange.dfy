/** What the relay does with each request, field by field, and who can therefore hold a handle. */
module RecoveryExchange {
  import opened Wrappers
  import opened Recovery
  import opened RecoveryGuarantees

  // ---- One exchange ------------------------------------------------------------------------

  /** The receipt of a committed request. It is kept for seven days. */
  predicate ReceiptOf(s: Stored, r: Request, now: int) {
    && Repeats(r, s) && s.committedAt == now && s.expiresAt == now + 604_800_000
  }

  /** The batch hands the handle over exactly if the request carries the current proof on the current
      generation and was not committed before; what it hands over is what the request named. */
  lemma RedemptionIsExact(w: World, h: nat)
    requires Enabled(w, CommitBatch(h))
    ensures var r, relay, relay' := w.handlers[h].req, w.relay, Step(w, CommitBatch(h)).relay;
            && (relay'.token != relay.token || relay'.recovery != relay.recovery || relay'.generation != relay.generation
                <==> relay.recovery == Some(r.proof) && relay.generation == r.generation && Key(r.generation, r.op) !in relay.receipts)
            && (relay'.generation != relay.generation ==>
                  && relay'.token == r.token && relay'.recovery == Some(r.successor) && relay'.generation == r.generation + 1
                  && Key(r.generation, r.op) in relay'.receipts
                  && ReceiptOf(relay'.receipts[Key(r.generation, r.op)], r, w.handlers[h].now))
  {
  }

  /** The one that committed is answered; any other looks for a receipt once more. */
  lemma CommitIsAnswered(w: World, h: nat)
    requires Enabled(w, CommitBatch(h))
    ensures var r, now, w' := w.handlers[h].req, w.handlers[h].now, Step(w, CommitBatch(h));
            if Presents(w.relay, r)
            then
              && w'.handlers == w.handlers - {h}
              && w'.answers == w.answers + {Receipt(r.op, r.generation, r.generation + 1, r.clientId, r.successorId, now)}
            else w'.handlers == w.handlers[h := AtSecondRead(r, now)] && w'.answers == w.answers
  {
  }

  /** The proof and generation are right, but the operation was committed before: the whole batch is undone. */
  predicate Collides(relay: Relay, r: Request) {
    relay.recovery == Some(r.proof) && relay.generation == r.generation && Key(r.generation, r.op) in relay.receipts
  }

  /** No batch rewrites a receipt, and every one that is not undone drops exactly the expired ones. */
  lemma ReceiptsGoByAge(w: World, h: nat, k: Key)
    requires Enabled(w, CommitBatch(h)) && k in w.relay.receipts
    ensures var r, relay' := w.handlers[h].req, Step(w, CommitBatch(h)).relay;
            && (k in relay'.receipts <==> w.handlers[h].now < w.relay.receipts[k].expiresAt || Collides(w.relay, r))
            && (k in relay'.receipts ==> relay'.receipts[k] == w.relay.receipts[k])
  {
  }

  /** A request whose public ids are not those of its secrets is turned away. */
  lemma MalformedIsRefused(w: World, h: nat, r: Request, now: int)
    requires Enabled(w, Arrive(h, r, now)) && (r.clientId != PublicId(r.token) || r.successorId != PublicId(r.successor))
    ensures Step(w, Arrive(h, r, now)) == w.(clock := now)
  {
  }

  /** A request that is lost on the way changes nothing more. */
  lemma LostHandlersStop(w: World, h: nat)
    ensures var w' := Step(w, LoseHandler(h));
            && w'.relay == w.relay && w'.client == w.client && w'.answers == w.answers
            && !Enabled(w', LiveRead(h)) && !Enabled(w', CommitBatch(h)) && !Enabled(w', SecondRead(h))
  {
  }

  /** A new proof is issued exactly to who presents the current token and generation. */
  lemma IssueIsExact(w: World, presented: Secret, expected: nat, successor: Secret)
    ensures var a := IssueProof(presented, expected, successor);
            Step(w, a) ==
            if presented != w.relay.token || expected != w.relay.generation then w
            else w.(relay := Relay(w.relay.token, Some(successor), w.relay.generation + 1, w.relay.receipts))
  {
  }

  /** Before it writes, the relay lets exactly those requests pass that carry the current proof. */
  lemma LiveReadIsExact(w: World, h: nat)
    requires Enabled(w, LiveRead(h))
    ensures var r, w' := w.handlers[h].req, Step(w, LiveRead(h));
            && w'.relay == w.relay && w'.answers == w.answers
            && w'.handlers == if w.relay.recovery == Some(r.proof) && w.relay.generation == r.generation
                              then w.handlers[h := AtBatch(r, w.handlers[h].now)] else w.handlers - {h}
  {
  }

  /** Whoever lost the race gets the winner's receipt exactly if it asked for the very same thing. */
  lemma SecondReadIsExact(w: World, h: nat)
    requires LogOk(w) && Enabled(w, SecondRead(h))
    ensures var r, w' := w.handlers[h].req, Step(w, SecondRead(h));
            var k := Key(r.generation, r.op);
            && w'.relay == w.relay && w'.handlers == w.handlers - {h}
            && w'.answers == w.answers + (
                 if k in w.relay.receipts && w.handlers[h].now < w.relay.receipts[k].expiresAt && Repeats(r, w.relay.receipts[k])
                 then {Receipt(r.op, r.generation, r.generation + 1, r.clientId, r.successorId, w.relay.receipts[k].committedAt)}
                 else {})
  {
  }

  /** The installation takes an answer for its own exactly if it names the operation, both generations
      and both new secrets. */
  lemma AnswerIsChecked(w: World, answer: Receipt)
    requires Enabled(w, TakeAnswer(answer))
    ensures var p, after := w.client.running.value.pending, Step(w, TakeAnswer(answer)).client.running;
            if answer.op == p.op && answer.consumed == p.generation && answer.generation == p.generation + 1 &&
               answer.clientId == PublicId(p.candidate) && answer.recoveryId == PublicId(p.successor)
            then after == Some(Confirmed(p)) else after.None?
  {
  }

  /** A public id is the first 16 of the 64 digits of a digest. */
  lemma PublicIdIsAPrefix(high: nat, low: nat)
    requires low < 0x1_0000_0000_0000_0000_0000_0000_0000_0000_0000_0000_0000_0000
    ensures PublicId(high * 0x1_0000_0000_0000_0000_0000_0000_0000_0000_0000_0000_0000_0000 + low) == high
  {
  }

  // ---- Over whole runs ---------------------------------------------------------------------

  /** The step hands out a proof, and which. */
  function Given(w: World, a: Action): Option<Secret> {
    if Redeems(w, a) then Some(w.handlers[a.h].req.successor)
    else if Issues(w, a) then Some(a.successor)
    else None
  }

  lemma GivenIsAccepted(w: World, a: Action)
    requires Enabled(w, a)
    ensures Step(w, a).relay.recovery == if Given(w, a).Some? then Given(w, a) else w.relay.recovery
  {
  }

  /** The relay accepts one proof at a time: the one it started with, until one is issued or redeemed,
      and from then on the one that was named last. */
  lemma {:induction false} OnlyTheLastProofCounts(ws: seq<World>, acts: seq<Action>, i: nat, j: nat)
    requires Behaviour(ws, acts) && i <= j < |ws|
    ensures || (ws[j].relay.recovery == ws[i].relay.recovery && forall m | i <= m < j :: Given(ws[m], acts[m]).None?)
            || exists k :: && i <= k < j && Given(ws[k], acts[k]).Some? && ws[j].relay.recovery == Given(ws[k], acts[k])
                           && forall m | k < m < j :: Given(ws[m], acts[m]).None?
    decreases j
  {
    hide Step;
    hide Enabled;
    hide Given;
    if i < j {
      StepAt(ws, acts, j - 1);
      GivenIsAccepted(ws[j - 1], acts[j - 1]);
      OnlyTheLastProofCounts(ws, acts, i, j - 1);
      if Given(ws[j - 1], acts[j - 1]).None? &&
         !(ws[j - 1].relay.recovery == ws[i].relay.recovery && forall m | i <= m < j - 1 :: Given(ws[m], acts[m]).None?)
      {
        var k :| && i <= k < j - 1 && Given(ws[k], acts[k]).Some? && ws[j - 1].relay.recovery == Given(ws[k], acts[k])
                 && forall m | k < m < j - 1 :: Given(ws[m], acts[m]).None?;
        assert forall m | k < m < j :: Given(ws[m], acts[m]).None?;
      }
    }
  }

  lemma TokenStep(w: World, a: Action)
    requires Enabled(w, a) && Step(w, a).relay.token != w.relay.token
    ensures a.RotateToken? || a.OthersRotate? || Redeems(w, a)
    ensures Redeems(w, a) ==> Step(w, a).relay.token == w.handlers[a.h].req.token
  {
  }

  /** A handle changes hands only by a rotation under its current token, or by a request that carries
      the proof and generation the relay accepts at that moment. */
  lemma {:induction false} TakeoverNeedsTheProof(ws: seq<World>, acts: seq<Action>, i: nat, j: nat)
    requires Behaviour(ws, acts) && i <= j < |ws| && ws[i].relay.token != ws[j].relay.token
    ensures exists k :: i <= k < j && (acts[k].RotateToken? || acts[k].OthersRotate? || Redeems(ws[k], acts[k]))
    decreases j
  {
    hide Step;
    hide Enabled;
    hide Redeems;
    StepAt(ws, acts, j - 1);
    if ws[j - 1].relay.token != ws[j].relay.token {
      TokenStep(ws[j - 1], acts[j - 1]);
    } else {
      TakeoverNeedsTheProof(ws, acts, i, j - 1);
    }
  }

  // ---- A recovery that nobody disturbs -----------------------------------------------------

  lemma LeadsThree(w: World, a: Action, b: Action, c: Action)
    requires Enabled(w, a) && Enabled(Step(w, a), b) && Enabled(Step(Step(w, a), b), c)
    ensures Leads(w, [a, b, c], Step(Step(Step(w, a), b), c))
  {
    hide Step;
    hide Enabled;
    var last := Step(Step(Step(w, a), b), c);
    LeadsOn(Step(Step(w, a), b), c, [], last);
    LeadsOn(Step(w, a), b, [c], last);
    assert [b] + [c] == [b, c];
    LeadsOn(w, a, [b, c], last);
    assert [a] + [b, c] == [a, b, c];
  }

  lemma {:induction false} LeadsJoin(w: World, acts: seq<Action>, mid: World, more: seq<Action>, last: World)
    requires Leads(w, acts, mid) && Leads(mid, more, last)
    ensures Leads(w, acts + more, last)
    decreases |acts|
  {
    hide Step;
    hide Enabled;
    if acts == [] {
      assert acts + more == more;
    } else {
      LeadsJoin(Step(w, acts[0]), acts[1..], mid, more, last);
      assert acts + more == [acts[0]] + (acts[1..] + more);
      LeadsOn(w, acts[0], acts[1..] + more, last);
    }
  }

  lemma Sent(w: World, p: Pending, proof: Secret) returns (w': World)
    requires Enabled(w, MakePending(p))
    ensures Leads(w, [MakePending(p), WritePending, SendRedeem(proof)], w')
    ensures w'.relay == w.relay && w'.clock == w.clock && w'.handlers == w.handlers && RedeemRequest(p, proof) in w'.sent
    ensures w'.client == Client(Some(p), w.client.config, Some(Waiting(p)))
  {
    w' := Step(Step(Step(w, MakePending(p)), WritePending), SendRedeem(proof));
    LeadsThree(w, MakePending(p), WritePending, SendRedeem(proof));
  }

  lemma Redeemed(w: World, r: Request, h: nat, now: int) returns (w': World)
    requires r in w.sent && h !in w.handlers && w.clock <= now
    requires r.clientId == PublicId(r.token) && r.successorId == PublicId(r.successor) && Presents(w.relay, r)
    ensures Leads(w, [Arrive(h, r, now), LiveRead(h), CommitBatch(h)], w')
    ensures w'.relay.token == r.token && w'.relay.recovery == Some(r.successor) && w'.client == w.client
    ensures Receipt(r.op, r.generation, r.generation + 1, r.clientId, r.successorId, now) in w'.answers
  {
    w' := Step(Step(Step(w, Arrive(h, r, now)), LiveRead(h)), CommitBatch(h));
    LeadsThree(w, Arrive(h, r, now), LiveRead(h), CommitBatch(h));
  }

  lemma Taken(w: World, p: Pending, answer: Receipt) returns (w': World)
    requires w.client == Client(Some(p), w.client.config, Some(Waiting(p))) && answer in w.answers
    requires answer.op == p.op && answer.consumed == p.generation && answer.generation == p.generation + 1
    requires answer.clientId == PublicId(p.candidate) && answer.recoveryId == PublicId(p.successor)
    ensures Leads(w, [TakeAnswer(answer), WriteConfig, RemovePending], w')
    ensures w'.client == Client(None, Some(p.candidate), None) && w'.relay == w.relay
  {
    Completed(w, p, answer);
    w' := Step(Step(Step(w, TakeAnswer(answer)), WriteConfig), RemovePending);
    LeadsThree(w, TakeAnswer(answer), WriteConfig, RemovePending);
  }

  lemma FreshIsUncommitted(w: World, p: Pending)
    requires Inv(w) && FreshPending(w, p)
    ensures Key(p.generation, p.op) !in w.relay.receipts
  {
  }

  /** Whoever still has the proof gets the handle back: a first attempt that nothing interrupts ends with
      the new token at the relay and in the config, and with the new proof in force. */
  lemma RecoveryGoesThrough(w: World, p: Pending, proof: Secret, h: nat, now: int) returns (last: World)
    requires Inv(w) && Enabled(w, MakePending(p)) && h !in w.handlers && w.clock <= now
    requires w.relay.recovery == Some(proof) && w.relay.generation == p.generation
    ensures Leads(w,
                  [MakePending(p), WritePending, SendRedeem(proof)] +
                  ([Arrive(h, RedeemRequest(p, proof), now), LiveRead(h), CommitBatch(h)] +
                   [TakeAnswer(Receipt(p.op, p.generation, p.generation + 1, PublicId(p.candidate), PublicId(p.successor), now)),
                    WriteConfig, RemovePending]),
                  last)
    ensures last.client == Client(None, Some(p.candidate), None)
    ensures last.relay.token == p.candidate && last.relay.recovery == Some(p.successor)
  {
    FreshIsUncommitted(w, p);
    hide Inv;
    hide Enabled;
    var r := RedeemRequest(p, proof);
    var answer := Receipt(p.op, p.generation, p.generation + 1, PublicId(p.candidate), PublicId(p.successor), now);
    var sent := Sent(w, p, proof);
    var redeemed := Redeemed(sent, r, h, now);
    last := Taken(redeemed, p, answer);
    hide Leads;
    var redeeming, taking := [Arrive(h, r, now), LiveRead(h), CommitBatch(h)], [TakeAnswer(answer), WriteConfig, RemovePending];
    LeadsJoin(sent, redeeming, redeemed, taking, last);
    LeadsJoin(w, [MakePending(p), WritePending, SendRedeem(proof)], sent, redeeming + taking, last);
  }

  // ---- Others ------------------------------------------------------------------------------

  /** Whoever else has the proof can take the handle with it. */
  lemma AnyoneWithTheProofCanRedeem(w: World, r: Request, h: nat, now: int) returns (last: World)
    requires Enabled(w, OthersSend(r)) && h !in w.handlers && w.clock <= now
    requires r.clientId == PublicId(r.token) && r.successorId == PublicId(r.successor) && Presents(w.relay, r)
    ensures Leads(w, [OthersSend(r)] + [Arrive(h, r, now), LiveRead(h), CommitBatch(h)], last)
    ensures last.relay.token == r.token && last.relay.recovery == Some(r.successor)
  {
    var sent := Step(w, OthersSend(r));
    last := Redeemed(sent, r, h, now);
    hide Leads;
    LeadsOn(w, OthersSend(r), [Arrive(h, r, now), LiveRead(h), CommitBatch(h)], last);
  }

  /** A rotation of this installation ends with the new token at the relay and in the config; one from
      elsewhere changes the relay's token and leaves the config behind. */
  lemma RotationsGoThrough(w: World, minted: Secret)
    requires minted !in w.ours && w.client.running.None?
    ensures w.client.config == Some(w.relay.token) ==>
              && Enabled(w, RotateToken(minted)) && Enabled(Step(w, RotateToken(minted)), WriteRotated)
              && var w' := Step(Step(w, RotateToken(minted)), WriteRotated);
              w'.relay == w.relay.(token := minted) && w'.client == Client(w.client.pending, Some(minted), None)
    ensures Enabled(w, OthersRotate(minted)) && Step(w, OthersRotate(minted)) == w.(relay := w.relay.(token := minted))
  {
  }
}

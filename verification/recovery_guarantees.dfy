/** What recovery promises over whole runs. */
module RecoveryGuarantees {
  import opened Wrappers
  import opened Recovery

  ghost predicate Behaviour(ws: seq<World>, acts: seq<Action>) {
    && |ws| == |acts| + 1
    && ws[0] == Begin(ws[0].relay.token, ws[0].relay.recovery, ws[0].relay.generation, ws[0].client.config, ws[0].clock)
    && forall i | 0 <= i < |acts| :: Enabled(ws[i], acts[i]) && ws[i + 1] == Step(ws[i], acts[i])
  }

  lemma StartOk(ws: seq<World>, acts: seq<Action>)
    requires Behaviour(ws, acts)
    ensures Inv(ws[0]) && KeptUntilExpiry(ws[0])
  {
    hide Step;
    hide Enabled;
    assert ws[0].log == map[] && ws[0].sent == {} && ws[0].handlers == map[] && ws[0].client.running.None?;
  }

  lemma StepAt(ws: seq<World>, acts: seq<Action>, i: nat)
    requires Behaviour(ws, acts) && i < |acts|
    ensures |ws| == |acts| + 1 && Enabled(ws[i], acts[i]) && ws[i + 1] == Step(ws[i], acts[i])
  {
    hide Step;
    hide Enabled;
  }

  lemma CommitExpiry(w: World, h: nat)
    requires LogOk(w) && KeptUntilExpiry(w) && Enabled(w, CommitBatch(h))
    ensures KeptUntilExpiry(Step(w, CommitBatch(h)))
  {
  }

  lemma OtherReceipts(w: World, a: Action)
    requires Enabled(w, a) && !a.CommitBatch?
    ensures Step(w, a).relay.receipts == w.relay.receipts && Step(w, a).log == w.log && w.clock <= Step(w, a).clock
    ensures forall h | h in Step(w, a).handlers :: Step(w, a).handlers[h].now <= Step(w, a).clock ||
                                                   (h in w.handlers && Step(w, a).handlers[h].now == w.handlers[h].now)
  {
  }

  lemma ExpiryKeeps(w: World, a: Action)
    requires LogOk(w) && KeptUntilExpiry(w) && Enabled(w, a)
    ensures KeptUntilExpiry(Step(w, a))
  {
    if a.CommitBatch? {
      CommitExpiry(w, a.h);
    } else {
      OtherReceipts(w, a);
      hide Step;
      hide Enabled;
    }
  }

  lemma {:induction false} RunKeeps(ws: seq<World>, acts: seq<Action>, i: nat)
    requires Behaviour(ws, acts) && i < |ws|
    ensures Inv(ws[i]) && KeptUntilExpiry(ws[i])
    decreases i
  {
    hide Step;
    hide Enabled;
    if i == 0 {
      StartOk(ws, acts);
    } else {
      RunKeeps(ws, acts, i - 1);
      StepAt(ws, acts, i - 1);
      StepKeeps(ws[i - 1], acts[i - 1]);
      ExpiryKeeps(ws[i - 1], acts[i - 1]);
    }
  }

  lemma OursGrow(w: World, a: Action)
    requires Enabled(w, a)
    ensures w.ours <= Step(w, a).ours && w.ops <= Step(w, a).ops
    ensures w.relay.generation <= Step(w, a).relay.generation
  {
  }

  lemma {:induction false} RunGrows(ws: seq<World>, acts: seq<Action>, i: nat, j: nat)
    requires Behaviour(ws, acts) && i <= j < |ws|
    ensures ws[i].ours <= ws[j].ours && ws[i].relay.generation <= ws[j].relay.generation
    decreases j
  {
    hide Step;
    hide Enabled;
    if i < j {
      RunGrows(ws, acts, i, j - 1);
      StepAt(ws, acts, j - 1);
      OursGrow(ws[j - 1], acts[j - 1]);
    }
  }

  /** The request names the relay's current generation, proves it, and was not committed before. */
  predicate Presents(relay: Relay, r: Request) {
    relay.recovery == Some(r.proof) && relay.generation == r.generation && Key(r.generation, r.op) !in relay.receipts
  }

  predicate Redeems(w: World, a: Action) {
    a.CommitBatch? && a.h in w.handlers && Presents(w.relay, w.handlers[a.h].req)
  }

  predicate Issues(w: World, a: Action) {
    a.IssueProof? && w.relay.token == a.presented && w.relay.generation == a.expected
  }

  lemma RedeemSetsToken(w: World, a: Action)
    requires Inv(w) && Enabled(w, a) && Redeems(w, a) && w.handlers[a.h].req.op in w.ops
    ensures Step(w, a).relay.token == w.handlers[a.h].req.token && w.handlers[a.h].req.token in Step(w, a).ours
  {
    var r := w.handlers[a.h].req;
    assert r in w.sent;
    assert IsPending(w, r);
  }

  /** Whenever the relay has committed a recovery of this installation, and for as long as it goes on
      accepting that token, the token is on disk: in the pending file or in the config. */
  lemma CredentialIsNeverLost(ws: seq<World>, acts: seq<Action>, i: nat, j: nat)
    requires Behaviour(ws, acts) && i < j < |ws| && Redeems(ws[i], acts[i]) && ws[i].handlers[acts[i].h].req.op in ws[i].ops
    ensures var token := ws[i].handlers[acts[i].h].req.token;
            && ws[i + 1].relay.token == token
            && (ws[j].relay.token == token ==> OnDisk(ws[j], token))
  {
    hide Step;
    hide Enabled;
    RunKeeps(ws, acts, i);
    RunKeeps(ws, acts, j);
    StepAt(ws, acts, i);
    RedeemSetsToken(ws[i], acts[i]);
    RunGrows(ws, acts, i + 1, j);
  }

  lemma ConsumesOne(w: World, a: Action)
    requires Enabled(w, a)
    ensures Redeems(w, a) ==> Step(w, a).relay.generation == w.relay.generation + 1 && w.handlers[a.h].req.generation == w.relay.generation
    ensures Issues(w, a) ==> Step(w, a).relay.generation == w.relay.generation + 1
    ensures !Redeems(w, a) && !Issues(w, a) ==> Step(w, a).relay.generation == w.relay.generation
  {
  }

  /** Every generation is used up at most once, by an issue or by a redemption; a redemption uses up the
      generation it names, and nothing else moves the generation. */
  lemma GenerationsAreUsedOnce(ws: seq<World>, acts: seq<Action>, i: nat, j: nat)
    requires Behaviour(ws, acts) && i < j < |acts|
    requires (Redeems(ws[i], acts[i]) || Issues(ws[i], acts[i])) && (Redeems(ws[j], acts[j]) || Issues(ws[j], acts[j]))
    ensures ws[i].relay.generation < ws[j].relay.generation
    ensures Redeems(ws[i], acts[i]) ==> ws[i].handlers[acts[i].h].req.generation == ws[i].relay.generation
    ensures ws[i + 1].relay.generation == ws[i].relay.generation + 1
  {
    hide Step;
    hide Enabled;
    StepAt(ws, acts, i);
    ConsumesOne(ws[i], acts[i]);
    RunGrows(ws, acts, i + 1, j);
  }

  /** All answers about one operation on one generation are the same receipt. */
  lemma AnswersAgree(ws: seq<World>, acts: seq<Action>, i: nat, a: Receipt, b: Receipt)
    requires Behaviour(ws, acts) && i < |ws| && a in ws[i].answers && b in ws[i].answers
    requires a.op == b.op && a.consumed == b.consumed
    ensures a == b
  {
    RunKeeps(ws, acts, i);
  }

  /** The request asked for exactly what was committed, with the proof it was committed with. */
  predicate Repeats(r: Request, s: Stored) {
    && r.generation == s.consumed && r.op == s.op && r.proof == s.proof
    && r.token == s.token && r.clientId == s.clientId && r.successor == s.successor && r.successorId == s.successorId
  }

  /** A request for a committed operation changes nothing while the receipt is kept; it is answered with
      that same receipt if and only if it repeats the committed request in every field. */
  lemma ReplayIsAnswered(w: World, h: nat, r: Request, now: int)
    requires Inv(w) && KeptUntilExpiry(w) && Enabled(w, Arrive(h, r, now))
    requires r.clientId == PublicId(r.token) && r.successorId == PublicId(r.successor)
    requires Key(r.generation, r.op) in w.log && now < w.log[Key(r.generation, r.op)].expiresAt
    ensures var w', s := Step(w, Arrive(h, r, now)), w.log[Key(r.generation, r.op)];
            && w'.relay == w.relay && w'.client == w.client && w'.handlers == w.handlers
            && w'.answers == w.answers + (
                 if Repeats(r, s) then {Receipt(r.op, r.generation, r.generation + 1, r.clientId, r.successorId, s.committedAt)} else {})
  {
    assert w.handlers - {h} == w.handlers;
    assert w.log[KeyOf(r)].op == r.op && w.log[KeyOf(r)].consumed == r.generation;
  }

  lemma ReplayedReceiptIsExact(w: World, p: Pending)
    requires LogOk(w) && PendingOk(w) && w.client.pending == Some(p) && Committed(w, p)
    ensures ExactReceipt(ReceiptJson(w.log[Key(p.generation, p.op)]), p)
  {
  }

  lemma Resent(w: World, p: Pending, proof: Secret)
    requires w.client == Client(Some(p), w.client.config, None)
    ensures Enabled(w, ResumePending) && Enabled(Step(w, ResumePending), SendRedeem(proof))
    ensures var w2 := Step(Step(w, ResumePending), SendRedeem(proof));
            w2 == w.(client := Client(Some(p), w.client.config, Some(Waiting(p))), sent := w.sent + {RedeemRequest(p, proof)})
  {
  }

  lemma Completed(w: World, p: Pending, answer: Receipt)
    requires w.client == Client(Some(p), w.client.config, Some(Waiting(p))) && answer in w.answers && ExactReceipt(answer, p)
    ensures Enabled(w, TakeAnswer(answer)) && Enabled(Step(w, TakeAnswer(answer)), WriteConfig)
    ensures Enabled(Step(Step(w, TakeAnswer(answer)), WriteConfig), RemovePending)
    ensures Step(Step(Step(w, TakeAnswer(answer)), WriteConfig), RemovePending).client == Client(None, Some(p.candidate), None)
  {
  }

  ghost predicate Leads(w: World, acts: seq<Action>, last: World)
    decreases |acts|
  {
    if acts == [] then w == last else Enabled(w, acts[0]) && Leads(Step(w, acts[0]), acts[1..], last)
  }

  lemma LeadsOn(w: World, a: Action, acts: seq<Action>, last: World)
    requires Enabled(w, a) && Leads(Step(w, a), acts, last)
    ensures Leads(w, [a] + acts, last)
  {
    assert ([a] + acts)[1..] == acts;
  }

  function Resumption(w: World, p: Pending, h: nat, now: int): seq<Action>
    requires Committed(w, p)
  {
    var stored := w.log[Key(p.generation, p.op)];
    [ResumePending] + ([SendRedeem(stored.proof)] + ([Arrive(h, RedeemRequest(p, stored.proof), now)] +
    ([TakeAnswer(ReceiptJson(stored))] + ([WriteConfig] + ([RemovePending] + [])))))
  }

  /** However an earlier attempt ended, once it was committed a resume with the same proof and before
      the receipt expires puts the committed token into the config. */
  lemma ResumeRestoresTheCredential(w: World, p: Pending, h: nat, now: int) returns (last: World)
    requires Inv(w) && KeptUntilExpiry(w) && w.client == Client(Some(p), w.client.config, None) && Committed(w, p)
    requires h !in w.handlers && w.clock <= now < w.log[Key(p.generation, p.op)].expiresAt
    ensures Leads(w, Resumption(w, p, h, now), last)
    ensures last.client == Client(None, Some(p.candidate), None) && last.relay == w.relay
  {
    var stored := w.log[Key(p.generation, p.op)];
    var proof := stored.proof;
    var r := RedeemRequest(p, proof);
    Resent(w, p, proof);
    StepKeeps(w, ResumePending);
    ExpiryKeeps(w, ResumePending);
    StepKeeps(Step(w, ResumePending), SendRedeem(proof));
    ExpiryKeeps(Step(w, ResumePending), SendRedeem(proof));
    hide Inv;
    var w1 := Step(w, ResumePending);
    var w2 := Step(w1, SendRedeem(proof));
    assert StoredFor(stored, p) && ExactStored(stored, r) by {
      PendingStored(w, p);
    }
    ReplayIsAnswered(w2, h, r, now);
    var w3 := Step(w2, Arrive(h, r, now));
    ExactAnswer(w, p);
    var answer := ReceiptJson(stored);
    Completed(w3, p, answer);
    var w4 := Step(w3, TakeAnswer(answer));
    var w5 := Step(w4, WriteConfig);
    last := Step(w5, RemovePending);
    hide Step;
    hide Enabled;
    LeadsOn(w5, RemovePending, [], last);
    LeadsOn(w4, WriteConfig, [RemovePending] + [], last);
    LeadsOn(w3, TakeAnswer(answer), [WriteConfig] + ([RemovePending] + []), last);
    hide Leads;
    LeadsOn(w2, Arrive(h, r, now), [TakeAnswer(answer)] + ([WriteConfig] + ([RemovePending] + [])), last);
    LeadsOn(w1, SendRedeem(proof), [Arrive(h, r, now)] + ([TakeAnswer(answer)] + ([WriteConfig] + ([RemovePending] + []))), last);
    LeadsOn(w, ResumePending,
            [SendRedeem(proof)] + ([Arrive(h, r, now)] + ([TakeAnswer(answer)] + ([WriteConfig] + ([RemovePending] + [])))), last);
  }

  lemma PendingStored(w: World, p: Pending)
    requires Inv(w) && w.client.pending == Some(p) && Committed(w, p)
    ensures StoredFor(w.log[Key(p.generation, p.op)], p)
  {
  }

  lemma ExactAnswer(w: World, p: Pending)
    requires Inv(w) && w.client.pending == Some(p) && Committed(w, p)
    ensures ExactReceipt(ReceiptJson(w.log[Key(p.generation, p.op)]), p)
  {
    ReplayedReceiptIsExact(w, p);
  }
}

/** Credential recovery of one handle: an installation that may stop anywhere, a relay, and a network
    that loses, delays and repeats. */
module Recovery {
  import opened Wrappers

  const RECEIPT_TTL := 7 * 24 * 60 * 60_000

  // A secret and its SHA-256 digest are the same number: digests are taken to be injective.
  type Secret = nat

  const TWO_192 := 0x1_0000_0000_0000_0000_0000_0000_0000_0000_0000_0000_0000_0000

  /** The first 16 of 64 hexadecimal digits. */
  function PublicId(digest: Secret): nat {
    digest / TWO_192
  }

  datatype Request = Request(
    generation: nat, proof: Secret, op: nat, token: Secret, clientId: nat, successor: Secret, successorId: nat)

  datatype Key = Key(generation: nat, op: nat)

  datatype Stored = Stored(
    consumed: nat, op: nat, proof: Secret, token: Secret, clientId: nat,
    successor: Secret, successorId: nat, committedAt: int, expiresAt: int)

  /** What the relay answers, but for whether sessions were already evicted and the agent kind. */
  datatype Receipt = Receipt(op: nat, consumed: nat, generation: nat, clientId: nat, recoveryId: nat, committedAt: int)

  datatype Pending = Pending(generation: nat, op: nat, candidate: Secret, successor: Secret)

  datatype Relay = Relay(token: Secret, recovery: Option<Secret>, generation: nat, receipts: map<Key, Stored>)

  /** A redeem request between two database calls. */
  datatype Handler = AtLiveRead(req: Request, now: int) | AtBatch(req: Request, now: int) | AtSecondRead(req: Request, now: int)

  /** A command of the installation, between two effects; the file lock admits one at a time. */
  datatype Command =
    | Shown(pending: Pending)
    | Ready(pending: Pending)
    | Waiting(pending: Pending)
    | Confirmed(pending: Pending)
    | Saved(pending: Pending)
    | Rotated(token: Secret)

  datatype Client = Client(pending: Option<Pending>, config: Option<Secret>, running: Option<Command>)

  /** `log` remembers every receipt ever committed, `answers` every one ever sent, `sent` every request
      ever made, `ours` and `ops` the secrets this installation has made up or was set up with. */
  datatype World = World(
    relay: Relay, client: Client, clock: int, handlers: map<nat, Handler>, sent: set<Request>,
    answers: set<Receipt>, log: map<Key, Stored>, ours: set<Secret>, ops: set<nat>)

  datatype Action =
    | MakePending(made: Pending)
    | WritePending
    | ResumePending
    | SendRedeem(proof: Secret)
    | TakeAnswer(answer: Receipt)
    | WriteConfig
    | RemovePending
    | RotateToken(minted: Secret)
    | WriteRotated
    | StopCommand
    | OthersSend(req: Request)
    | OthersRotate(minted: Secret)
    | IssueProof(presented: Secret, expected: nat, successor: Secret)
    | Arrive(h: nat, req: Request, now: int)
    | LiveRead(h: nat)
    | CommitBatch(h: nat)
    | SecondRead(h: nat)
    | LoseHandler(h: nat)

  // ---- The relay ---------------------------------------------------------------------------

  predicate ValidPublicIds(r: Request) {
    r.clientId == PublicId(r.token) && r.successorId == PublicId(r.successor)
  }

  predicate ExactStored(s: Stored, r: Request) {
    && s.proof == r.proof && s.token == r.token && s.clientId == r.clientId
    && s.successor == r.successor && s.successorId == r.successorId
  }

  function KeyOf(r: Request): Key {
    Key(r.generation, r.op)
  }

  function ReceiptJson(s: Stored): Receipt {
    Receipt(s.op, s.consumed, s.consumed + 1, s.clientId, s.successorId, s.committedAt)
  }

  function FindReceipt(relay: Relay, r: Request, now: int): Option<Stored> {
    if KeyOf(r) in relay.receipts && relay.receipts[KeyOf(r)].expiresAt > now then Some(relay.receipts[KeyOf(r)]) else None
  }

  predicate MatchesLive(relay: Relay, r: Request) {
    relay.recovery == Some(r.proof) && relay.generation == r.generation
  }

  function NewStored(r: Request, now: int): Stored {
    Stored(r.generation, r.op, r.proof, r.token, r.clientId, r.successor, r.successorId, now, now + RECEIPT_TTL)
  }

  function Unexpired(receipts: map<Key, Stored>, now: int): map<Key, Stored> {
    map k | k in receipts && receipts[k].expiresAt > now :: receipts[k]
  }

  /** The batch changes something only if the handle still carries the generation and proof of the
      request; a primary-key conflict takes all of it back. */
  predicate BatchApplies(relay: Relay, r: Request) {
    MatchesLive(relay, r) && KeyOf(r) !in relay.receipts
  }

  function AfterBatch(relay: Relay, r: Request, now: int): Relay {
    if MatchesLive(relay, r) && KeyOf(r) in relay.receipts then relay
    else if BatchApplies(relay, r) then
      Relay(r.token, Some(r.successor), r.generation + 1, Unexpired(relay.receipts[KeyOf(r) := NewStored(r, now)], now))
    else relay.(receipts := Unexpired(relay.receipts, now))
  }

  // ---- The installation --------------------------------------------------------------------

  function RedeemRequest(p: Pending, proof: Secret): Request {
    Request(p.generation, proof, p.op, p.candidate, PublicId(p.candidate), p.successor, PublicId(p.successor))
  }

  predicate ExactReceipt(a: Receipt, p: Pending) {
    && a.op == p.op && a.consumed == p.generation && a.generation == p.generation + 1
    && a.clientId == PublicId(p.candidate) && a.recoveryId == PublicId(p.successor)
  }

  /** Random secrets are taken not to repeat. */
  predicate FreshPending(w: World, p: Pending) {
    && p.op !in w.ops && p.candidate !in w.ours && p.candidate != w.relay.token
    && forall r | r in w.sent :: r.op != p.op && r.token != p.candidate
  }

  predicate Running(w: World, a: Action) {
    match a
    case MakePending(p) => w.client.running.None? && w.client.pending.None? && FreshPending(w, p)
    case WritePending => w.client.running.Some? && w.client.running.value.Shown?
    case ResumePending => w.client.running.None? && w.client.pending.Some?
    case SendRedeem(_) => w.client.running.Some? && w.client.running.value.Ready?
    case TakeAnswer(answer) => w.client.running.Some? && w.client.running.value.Waiting? && answer in w.answers
    case WriteConfig => w.client.running.Some? && w.client.running.value.Confirmed?
    case RemovePending => w.client.running.Some? && w.client.running.value.Saved?
    case RotateToken(minted) => w.client.running.None? && w.client.config == Some(w.relay.token) && minted !in w.ours
    case WriteRotated => w.client.running.Some? && w.client.running.value.Rotated?
    case _ => true
  }

  predicate Enabled(w: World, a: Action) {
    Running(w, a) &&
    match a
    case OthersSend(r) => r.op !in w.ops && r.token !in w.ours
    case OthersRotate(minted) => minted !in w.ours
    case Arrive(h, r, now) => h !in w.handlers && r in w.sent && w.clock <= now
    case LiveRead(h) => h in w.handlers && w.handlers[h].AtLiveRead?
    case CommitBatch(h) => h in w.handlers && w.handlers[h].AtBatch?
    case SecondRead(h) => h in w.handlers && w.handlers[h].AtSecondRead?
    case _ => true
  }

  function Proceed(w: World, c: Command): World {
    w.(client := w.client.(running := Some(c)))
  }

  function Finish(w: World): World {
    w.(client := w.client.(running := None))
  }

  function ClientStep(w: World, a: Action): World
    requires Running(w, a)
  {
    match a
    case MakePending(p) => Proceed(w, Shown(p)).(ours := w.ours + {p.candidate}, ops := w.ops + {p.op})
    case WritePending =>
      var p := w.client.running.value.pending;
      w.(client := Client(Some(p), w.client.config, Some(Ready(p))))
    case ResumePending => Proceed(w, Ready(w.client.pending.value))
    case SendRedeem(proof) =>
      var p := w.client.running.value.pending;
      Proceed(w, Waiting(p)).(sent := w.sent + {RedeemRequest(p, proof)})
    case TakeAnswer(answer) =>
      var p := w.client.running.value.pending;
      if ExactReceipt(answer, p) then Proceed(w, Confirmed(p)) else Finish(w)
    case WriteConfig =>
      var p := w.client.running.value.pending;
      w.(client := Client(w.client.pending, Some(p.candidate), Some(Saved(p))))
    case RemovePending => w.(client := Client(None, w.client.config, None))
    case RotateToken(minted) => Proceed(w, Rotated(minted)).(relay := w.relay.(token := minted))
    case WriteRotated => w.(client := Client(w.client.pending, Some(w.client.running.value.token), None))
    case _ => Finish(w)
  }

  /** A handler answers with a stored receipt if it is exactly the one of its request. */
  function Answer(w: World, h: nat, s: Stored, r: Request): World {
    w.(handlers := w.handlers - {h}, answers := if ExactStored(s, r) then w.answers + {ReceiptJson(s)} else w.answers)
  }

  function RelayStep(w: World, a: Action): World
    requires Enabled(w, a)
  {
    match a
    case OthersSend(r) => w.(sent := w.sent + {r})
    case OthersRotate(minted) => w.(relay := w.relay.(token := minted))
    case IssueProof(presented, expected, successor) =>
      if w.relay.token == presented && w.relay.generation == expected
      then w.(relay := w.relay.(recovery := Some(successor), generation := expected + 1)) else w
    case Arrive(h, r, now) =>
      var at := w.(clock := now);
      if !ValidPublicIds(r) then at
      else
        var found := FindReceipt(w.relay, r, now);
        if found.Some? then Answer(at, h, found.value, r) else at.(handlers := w.handlers[h := AtLiveRead(r, now)])
    case LiveRead(h) =>
      var r := w.handlers[h].req;
      if MatchesLive(w.relay, r) then w.(handlers := w.handlers[h := AtBatch(r, w.handlers[h].now)])
      else w.(handlers := w.handlers - {h})
    case CommitBatch(h) =>
      var r, now := w.handlers[h].req, w.handlers[h].now;
      var relay := AfterBatch(w.relay, r, now);
      if BatchApplies(w.relay, r) then
        w.(relay := relay, handlers := w.handlers - {h}, log := w.log[KeyOf(r) := NewStored(r, now)],
           answers := w.answers + {ReceiptJson(NewStored(r, now))})
      else w.(relay := relay, handlers := w.handlers[h := AtSecondRead(r, now)])
    case SecondRead(h) =>
      var r := w.handlers[h].req;
      var found := FindReceipt(w.relay, r, w.handlers[h].now);
      if found.Some? then Answer(w, h, found.value, r) else w.(handlers := w.handlers - {h})
    case LoseHandler(h) => w.(handlers := w.handlers - {h})
    case _ => w
  }

  predicate IsClientAction(a: Action) {
    a.MakePending? || a.WritePending? || a.ResumePending? || a.SendRedeem? || a.TakeAnswer? || a.WriteConfig? ||
    a.RemovePending? || a.RotateToken? || a.WriteRotated? || a.StopCommand?
  }

  function Step(w: World, a: Action): World
    requires Enabled(w, a)
  {
    if IsClientAction(a) then ClientStep(w, a) else RelayStep(w, a)
  }

  /** A relay that has the handle, and an installation that may or may not still hold a credential. */
  function Begin(token: Secret, recovery: Option<Secret>, generation: nat, config: Option<Secret>, clock: int): World {
    World(Relay(token, recovery, generation, map[]), Client(None, config, None), clock, map[], {}, {}, map[],
          if config.Some? then {config.value} else {}, {})
  }

  // ---- Invariant ---------------------------------------------------------------------------

  /** Receipts on file and answers sent are all of committed operations, and committing uses up a generation. */
  predicate LogOk(w: World) {
    && (forall k | k in w.log :: k.generation < w.relay.generation && w.log[k].op == k.op && w.log[k].consumed == k.generation)
    && (forall k | k in w.relay.receipts :: k in w.log && w.log[k] == w.relay.receipts[k])
    && (forall a | a in w.answers :: Key(a.consumed, a.op) in w.log && a == ReceiptJson(w.log[Key(a.consumed, a.op)]))
  }

  predicate IsPending(w: World, r: Request) {
    w.client.pending.Some? && r == RedeemRequest(w.client.pending.value, r.proof)
  }

  /** A request of ours belongs to the operation on disk, or its generation is used up. */
  predicate RequestsOk(w: World) {
    forall r | r in w.sent ::
      if r.op in w.ops then IsPending(w, r) || r.generation < w.relay.generation else r.token !in w.ours
  }

  predicate HandlersOk(w: World) {
    forall h | h in w.handlers :: w.handlers[h].req in w.sent
  }

  predicate Committed(w: World, p: Pending) {
    Key(p.generation, p.op) in w.log
  }

  predicate PendingOk(w: World) {
    w.client.pending.Some? ==>
      var p := w.client.pending.value;
      && p.op in w.ops && p.candidate in w.ours
      && (Committed(w, p) && w.relay.token in w.ours ==> w.relay.token == p.candidate)
      && (Committed(w, p) ==> StoredFor(w.log[Key(p.generation, p.op)], p))
  }

  /** What the relay stored for an operation is what the installation asked for. */
  predicate StoredFor(s: Stored, p: Pending) {
    && s.token == p.candidate && s.clientId == PublicId(p.candidate)
    && s.successor == p.successor && s.successorId == PublicId(p.successor)
  }

  predicate OnDisk(w: World, token: Secret) {
    w.client.config == Some(token) || (w.client.pending.Some? && w.client.pending.value.candidate == token)
  }

  predicate TokenSafe(w: World) {
    w.relay.token in w.ours ==> OnDisk(w, w.relay.token)
  }

  predicate CommandOk(w: World) {
    w.client.running.Some? ==>
      match w.client.running.value
      case Shown(p) => w.client.pending.None? && p.op in w.ops && p.candidate in w.ours && p.candidate != w.relay.token &&
                       (forall r | r in w.sent :: r.op != p.op) && !Committed(w, p)
      case Ready(p) => w.client.pending == Some(p)
      case Waiting(p) => w.client.pending == Some(p)
      case Confirmed(p) => w.client.pending == Some(p) && Committed(w, p)
      case Saved(p) => w.client.pending == Some(p) && Committed(w, p) && w.client.config == Some(p.candidate)
      case Rotated(_) => w.relay.token in w.ours ==> w.client.pending.Some? && w.relay.token == w.client.pending.value.candidate
  }

  /** Operations that were committed were requested. */
  predicate LogRequested(w: World) {
    forall k | k in w.log :: exists r :: r in w.sent && KeyOf(r) == k
  }

  /** A receipt is dropped only when a handler's clock was past its expiry. */
  predicate KeptUntilExpiry(w: World) {
    && (forall h | h in w.handlers :: w.handlers[h].now <= w.clock)
    && forall k | k in w.log :: k in w.relay.receipts || w.log[k].expiresAt <= w.clock
  }

  predicate Inv(w: World) {
    LogOk(w) && LogRequested(w) && RequestsOk(w) && HandlersOk(w) && PendingOk(w) && TokenSafe(w) && CommandOk(w)
  }

  // ---- Steps of the installation -----------------------------------------------------------

  lemma MakeKeeps(w: World, p: Pending)
    requires Inv(w) && Enabled(w, MakePending(p))
    ensures Inv(Step(w, MakePending(p)))
  {
    assert forall r | r in w.sent :: KeyOf(r) != Key(p.generation, p.op);
    assert !Committed(w, p);
  }

  lemma WritePendingKeeps(w: World)
    requires Inv(w) && Enabled(w, WritePending)
    ensures Inv(Step(w, WritePending))
  {
    var p := w.client.running.value.pending;
    var w' := Step(w, WritePending);
    forall r | r in w'.sent
      ensures if r.op in w'.ops then IsPending(w', r) || r.generation < w'.relay.generation else r.token !in w'.ours
    {
      assert r in w.sent;
    }
  }

  lemma SendKeeps(w: World, proof: Secret)
    requires Inv(w) && Enabled(w, SendRedeem(proof))
    ensures Inv(Step(w, SendRedeem(proof)))
  {
    var w' := Step(w, SendRedeem(proof));
    forall k | k in w'.log
      ensures exists r :: r in w'.sent && KeyOf(r) == k
    {
      var r :| r in w.sent && KeyOf(r) == k;
      assert r in w'.sent;
    }
    forall r | r in w'.sent
      ensures if r.op in w'.ops then IsPending(w', r) || r.generation < w'.relay.generation else r.token !in w'.ours
    {
      assert r in w.sent || r == RedeemRequest(w.client.pending.value, proof);
    }
  }

  /** An exact receipt proves that the operation on disk was committed. */
  lemma TakeAnswerKeeps(w: World, answer: Receipt)
    requires Inv(w) && Enabled(w, TakeAnswer(answer))
    ensures Inv(Step(w, TakeAnswer(answer)))
  {
    var w' := Step(w, TakeAnswer(answer));
    assert w'.log == w.log && w'.sent == w.sent && w'.relay == w.relay;
    assert forall r | r in w.sent :: IsPending(w', r) == IsPending(w, r);
  }

  lemma WriteConfigKeeps(w: World)
    requires Inv(w) && Enabled(w, WriteConfig)
    ensures Inv(Step(w, WriteConfig))
  {
    var w' := Step(w, WriteConfig);
    assert w'.log == w.log && w'.sent == w.sent && w'.relay == w.relay;
    assert forall r | r in w.sent :: IsPending(w', r) == IsPending(w, r);
  }

  lemma RotationKeeps(w: World, a: Action)
    requires Inv(w) && Enabled(w, a) && (a.WriteRotated? || a.RotateToken?)
    ensures Inv(Step(w, a))
  {
    var w' := Step(w, a);
    assert w'.log == w.log && w'.sent == w.sent && w'.relay.receipts == w.relay.receipts;
    assert forall r | r in w.sent :: IsPending(w', r) == IsPending(w, r);
  }

  lemma CommandKeeps(w: World, a: Action)
    requires Inv(w) && Enabled(w, a) && (a.ResumePending? || a.StopCommand?)
    ensures Inv(Step(w, a))
  {
    var w' := Step(w, a);
    assert w'.log == w.log && w'.sent == w.sent && w'.relay == w.relay;
    assert forall r | r in w.sent :: IsPending(w', r) == IsPending(w, r);
  }

  /** The pending file goes only when its token is in the config and its generation is used up. */
  lemma RemoveKeeps(w: World)
    requires Inv(w) && Enabled(w, RemovePending)
    ensures Inv(Step(w, RemovePending))
  {
    var p := w.client.running.value.pending;
    var w' := Step(w, RemovePending);
    assert Key(p.generation, p.op) in w.log;
    forall r | r in w'.sent
      ensures if r.op in w'.ops then IsPending(w', r) || r.generation < w'.relay.generation else r.token !in w'.ours
    {
      if IsPending(w, r) {
        assert r.generation == p.generation;
      }
    }
  }

  // ---- Steps of the relay ------------------------------------------------------------------

  lemma CommitLog(w: World, h: nat)
    requires Inv(w) && Enabled(w, CommitBatch(h)) && BatchApplies(w.relay, w.handlers[h].req)
    ensures LogOk(Step(w, CommitBatch(h))) && LogRequested(Step(w, CommitBatch(h)))
    ensures KeyOf(w.handlers[h].req) !in w.log
  {
    var r := w.handlers[h].req;
    var w' := Step(w, CommitBatch(h));
    assert r in w.sent;
    assert KeyOf(r) !in w.log;
    forall k | k in w'.log
      ensures exists q :: q in w'.sent && KeyOf(q) == k
    {
      if k in w.log {
        var q :| q in w.sent && KeyOf(q) == k;
        assert q in w'.sent;
      } else {
        assert KeyOf(r) == k;
      }
    }
  }

  /** The relay's token changes hands: to our pending candidate, or to someone else's. */
  lemma CommitTokens(w: World, h: nat)
    requires Inv(w) && Enabled(w, CommitBatch(h)) && BatchApplies(w.relay, w.handlers[h].req)
    ensures var w' := Step(w, CommitBatch(h)); PendingOk(w') && TokenSafe(w') && CommandOk(w')
  {
    var r := w.handlers[h].req;
    assert r in w.sent;
    assert r.op in w.ops ==> IsPending(w, r);
    if w.client.pending.Some? {
      var p := w.client.pending.value;
      assert r.op in w.ops ==> r.token == p.candidate;
    }
  }

  lemma CommitKeeps(w: World, h: nat)
    requires Inv(w) && Enabled(w, CommitBatch(h))
    ensures Inv(Step(w, CommitBatch(h)))
  {
    var w' := Step(w, CommitBatch(h));
    if BatchApplies(w.relay, w.handlers[h].req) {
      CommitLog(w, h);
      CommitTokens(w, h);
    } else {
      assert w'.log == w.log && w'.answers == w.answers && w'.sent == w.sent && w'.client == w.client;
    }
    assert w'.relay.generation >= w.relay.generation;
    forall q | q in w'.sent
      ensures if q.op in w'.ops then IsPending(w', q) || q.generation < w'.relay.generation else q.token !in w'.ours
    {
      assert q in w.sent;
    }
  }

  lemma OthersKeep(w: World, a: Action)
    requires Inv(w) && Enabled(w, a) && (a.OthersSend? || a.OthersRotate? || a.IssueProof?)
    ensures Inv(Step(w, a))
  {
    var w' := Step(w, a);
    assert w'.relay.generation >= w.relay.generation;
    forall r | r in w'.sent
      ensures if r.op in w'.ops then IsPending(w', r) || r.generation < w'.relay.generation else r.token !in w'.ours
    {
      assert r in w.sent || a == OthersSend(r);
    }
    forall k | k in w'.log
      ensures exists r :: r in w'.sent && KeyOf(r) == k
    {
      var r :| r in w.sent && KeyOf(r) == k;
      assert r in w'.sent;
    }
  }

  lemma AnswerLog(w: World, a: Action)
    requires LogOk(w) && Enabled(w, a) && (a.Arrive? || a.LiveRead? || a.SecondRead? || a.LoseHandler?)
    ensures LogOk(Step(w, a))
  {
  }

  ghost predicate Answering(w: World, w': World) {
    && w'.relay == w.relay && w'.client == w.client && w'.sent == w.sent && w'.log == w.log
    && w'.ours == w.ours && w'.ops == w.ops
    && forall h | h in w'.handlers :: w'.handlers[h].req in w.sent
  }

  lemma AnswerShape(w: World, a: Action)
    requires HandlersOk(w) && Enabled(w, a) && (a.Arrive? || a.LiveRead? || a.SecondRead? || a.LoseHandler?)
    ensures Answering(w, Step(w, a))
  {
  }

  lemma AnsweringKeeps(w: World, w': World)
    requires Inv(w) && Answering(w, w') && LogOk(w')
    ensures Inv(w')
  {
    assert forall r | r in w.sent :: IsPending(w', r) == IsPending(w, r);
  }

  lemma AnswerKeeps(w: World, a: Action)
    requires Inv(w) && Enabled(w, a) && (a.Arrive? || a.LiveRead? || a.SecondRead? || a.LoseHandler?)
    ensures Inv(Step(w, a))
  {
    AnswerLog(w, a);
    AnswerShape(w, a);
    hide Step;
    AnsweringKeeps(w, Step(w, a));
  }

  lemma StepKeeps(w: World, a: Action)
    requires Inv(w) && Enabled(w, a)
    ensures Inv(Step(w, a))
  {
    match a
    case MakePending(p) => MakeKeeps(w, p);
    case WritePending => WritePendingKeeps(w);
    case SendRedeem(proof) => SendKeeps(w, proof);
    case RemovePending => RemoveKeeps(w);
    case CommitBatch(h) => CommitKeeps(w, h);
    case OthersSend(_) => OthersKeep(w, a);
    case OthersRotate(_) => OthersKeep(w, a);
    case IssueProof(_, _, _) => OthersKeep(w, a);
    case Arrive(_, _, _) => AnswerKeeps(w, a);
    case LiveRead(_) => AnswerKeeps(w, a);
    case SecondRead(_) => AnswerKeeps(w, a);
    case LoseHandler(_) => AnswerKeeps(w, a);
    case TakeAnswer(answer) => TakeAnswerKeeps(w, answer);
    case WriteConfig => WriteConfigKeeps(w);
    case RotateToken(_) => RotationKeeps(w, a);
    case WriteRotated => RotationKeeps(w, a);
    case _ => CommandKeeps(w, a);
  }
}

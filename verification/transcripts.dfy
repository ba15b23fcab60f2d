/** The value lists behind every signature and AEAD header, and what a signature therefore fixes. */
module Transcripts {
  import opened Wrappers
  import opened Unicode
  import opened Canonical

  datatype Mode = Sync | Durable

  datatype Direction = RequestDirection | ResponseDirection

  datatype Base = Base(
    v: int, relayOrigin: Unicode.Text, from: Unicode.Text, to: Unicode.Text,
    messageId: Option<Unicode.Text>, mode: Option<Mode>, requestId: Unicode.Text,
    senderKey: Unicode.Text, recipientKey: Unicode.Text, epoch: int, issuedAt: int, expiresAt: int)

  datatype Outcome =
    | Reply(text: Unicode.Text, context: Option<Unicode.Text>, task: Option<Unicode.Text>)
    | PeerFailure(code: Unicode.Text, detail: Option<Unicode.Text>, offered: Option<seq<Unicode.Text>>)

  datatype Signed =
    | Request(base: Base, task: Option<Unicode.Text>, context: Option<Unicode.Text>, message: Unicode.Text)
    | Response(base: Base, requestHash: Unicode.Text, outcome: Outcome)
    | Header(v: int, direction: Direction, relayOrigin: Unicode.Text, from: Unicode.Text, to: Unicode.Text,
             keyId: Unicode.Text, epoch: int)
    | IdentityRecord(v: int, relayOrigin: Unicode.Text, address: Unicode.Text, identityPub: Unicode.Text)
    | KeyRecord(v: int, relayOrigin: Unicode.Text, address: Unicode.Text, keyId: Unicode.Text, suite: Unicode.Text,
                pub: Unicode.Text, epoch: int, notBefore: int, notAfter: int, prev: Option<Unicode.Text>)

  datatype Kind = RequestV1 | RequestV2 | ResponseV1 | ResponseV2 | HpkeAad | Identity | EncryptionKey

  function Ascii(s: string): Unicode.Text {
    seq(|s|, i requires 0 <= i < |s| => s[i] as int % 0x1_0000)
  }

  function Tag(k: Kind): string {
    match k
    case RequestV1 => "agentcall/request/v1"
    case RequestV2 => "agentcall/request/v2"
    case ResponseV1 => "agentcall/response/v1"
    case ResponseV2 => "agentcall/response/v2"
    case HpkeAad => "agentcall/hpke-aad/v1"
    case Identity => "agentcall/identity/v1"
    case EncryptionKey => "agentcall/encryption-key/v1"
  }

  predicate IsDurable(b: Base) {
    b.mode == Some(Durable)
  }

  function KindOf(s: Signed): Kind {
    match s
    case Request(base, _, _, _) => if IsDurable(base) then RequestV2 else RequestV1
    case Response(base, _, _) => if IsDurable(base) then ResponseV2 else ResponseV1
    case Header(_, _, _, _, _, _, _) => HpkeAad
    case IdentityRecord(_, _, _, _) => Identity
    case KeyRecord(_, _, _, _, _, _, _, _, _, _) => EncryptionKey
  }

  function Optional(o: Option<Unicode.Text>): Value {
    if o.Some? then Text(o.value) else Null
  }

  function DirectionText(d: Direction): Unicode.Text {
    if d.RequestDirection? then Ascii("request") else Ascii("response")
  }

  /** The schema: a durable message has an id. */
  predicate WellTyped(s: Signed) {
    (s.Request? || s.Response?) && IsDurable(s.base) ==> s.base.messageId.Some?
  }

  // ---- Value lists -------------------------------------------------------------------------

  function BaseValues(b: Base, d: Direction): seq<Value>
    requires IsDurable(b) ==> b.messageId.Some?
  {
    [Number(b.v), Text(DirectionText(d)), Text(b.relayOrigin), Text(b.from), Text(b.to)] +
    (if IsDurable(b) then [Text(b.messageId.value)] else []) +
    [Text(b.requestId), Text(b.senderKey), Text(b.recipientKey), Number(b.epoch), Number(b.issuedAt), Number(b.expiresAt)]
  }

  function Texts(ts: seq<Unicode.Text>): seq<Value> {
    seq(|ts|, i requires 0 <= i < |ts| => Text(ts[i]))
  }

  function OutcomeValues(o: Outcome): seq<Value> {
    match o
    case Reply(text, context, task) => [Text(Ascii("reply")), Text(text), Optional(context), Optional(task)]
    case PeerFailure(code, detail, offered) =>
      var list := if offered.Some? then offered.value else [];
      [Text(Ascii("failure")), Text(code), Optional(detail), Number(|list|)] + Texts(list)
  }

  function Closing(b: Base): seq<Value> {
    if IsDurable(b) then [Text(Ascii("durable"))] else []
  }

  function Body(s: Signed): seq<Value>
    requires WellTyped(s)
  {
    match s
    case Request(b, task, context, message) =>
      BaseValues(b, RequestDirection) + [Optional(task), Optional(context), Text(message)] + Closing(b)
    case Response(b, requestHash, outcome) =>
      BaseValues(b, ResponseDirection) + [Text(requestHash)] + OutcomeValues(outcome) + Closing(b)
    case Header(v, d, relayOrigin, from, to, keyId, epoch) =>
      [Number(v), Text(DirectionText(d)), Text(relayOrigin), Text(from), Text(to), Text(keyId), Number(epoch)]
    case IdentityRecord(v, relayOrigin, address, identityPub) =>
      [Number(v), Text(relayOrigin), Text(address), Text(identityPub)]
    case KeyRecord(v, relayOrigin, address, keyId, suite, pub, epoch, notBefore, notAfter, prev) =>
      [Number(v), Text(relayOrigin), Text(address), Text(keyId), Text(suite), Text(pub),
       Number(epoch), Number(notBefore), Number(notAfter), Optional(prev)]
  }

  function Values(s: Signed): seq<Value>
    requires WellTyped(s)
  {
    [Text(Ascii(Tag(KindOf(s))))] + Body(s)
  }

  // ---- Field order -------------------------------------------------------------------------
  // The order of the fields is part of the signature.

  lemma BaseFields(b: Base, d: Direction)
    ensures b.mode != Some(Durable) ==>
              BaseValues(b, d) ==
              [Number(b.v), Text(DirectionText(d)), Text(b.relayOrigin), Text(b.from), Text(b.to),
               Text(b.requestId), Text(b.senderKey), Text(b.recipientKey), Number(b.epoch), Number(b.issuedAt), Number(b.expiresAt)]
    ensures b.mode == Some(Durable) && b.messageId.Some? ==>
              BaseValues(b, d) ==
              [Number(b.v), Text(DirectionText(d)), Text(b.relayOrigin), Text(b.from), Text(b.to), Text(b.messageId.value),
               Text(b.requestId), Text(b.senderKey), Text(b.recipientKey), Number(b.epoch), Number(b.issuedAt), Number(b.expiresAt)]
    ensures DirectionText(d) == Ascii(if d == RequestDirection then "request" else "response")
  {
    hide Ascii;
  }

  function Durability(b: Base): seq<Value> {
    if b.mode == Some(Durable) then [Text(Ascii("durable"))] else []
  }

  lemma RequestFields(b: Base, task: Option<Unicode.Text>, context: Option<Unicode.Text>, message: Unicode.Text)
    requires WellTyped(Request(b, task, context, message))
    ensures Values(Request(b, task, context, message)) ==
            [Text(Ascii(if b.mode == Some(Durable) then "agentcall/request/v2" else "agentcall/request/v1"))] +
            (BaseValues(b, RequestDirection) + [Optional(task), Optional(context), Text(message)] + Durability(b))
  {
    hide Ascii;
    hide BaseValues;
  }

  lemma ResponseFields(b: Base, requestHash: Unicode.Text, outcome: Outcome)
    requires WellTyped(Response(b, requestHash, outcome))
    ensures Values(Response(b, requestHash, outcome)) ==
            [Text(Ascii(if b.mode == Some(Durable) then "agentcall/response/v2" else "agentcall/response/v1"))] +
            (BaseValues(b, ResponseDirection) + [Text(requestHash)] + OutcomeValues(outcome) + Durability(b))
  {
    hide Ascii;
    hide BaseValues;
    hide OutcomeValues;
  }

  lemma OutcomeFields(text: Unicode.Text, code: Unicode.Text, context: Option<Unicode.Text>, task: Option<Unicode.Text>,
                      detail: Option<Unicode.Text>, offered: seq<Unicode.Text>, n: nat)
    ensures OutcomeValues(Reply(text, context, task)) == [Text(Ascii("reply")), Text(text), Optional(context), Optional(task)]
    ensures OutcomeValues(PeerFailure(code, detail, None)) == [Text(Ascii("failure")), Text(code), Optional(detail), Number(0)]
    ensures var vs := OutcomeValues(PeerFailure(code, detail, Some(offered)));
            && |vs| == 4 + |offered| && vs[..4] == [Text(Ascii("failure")), Text(code), Optional(detail), Number(|offered|)]
            && (n < |offered| ==> vs[4 + n] == Text(offered[n]))
  {
    hide Ascii;
  }

  lemma RecordFields(s: Signed)
    requires WellTyped(s)
    ensures s.Header? ==>
              Values(s) == [Text(Ascii("agentcall/hpke-aad/v1")), Number(s.v),
                            Text(Ascii(if s.direction.RequestDirection? then "request" else "response")),
                            Text(s.relayOrigin), Text(s.from), Text(s.to), Text(s.keyId), Number(s.epoch)]
    ensures s.IdentityRecord? ==>
              Values(s) == [Text(Ascii("agentcall/identity/v1")), Number(s.v), Text(s.relayOrigin), Text(s.address), Text(s.identityPub)]
    ensures s.KeyRecord? ==>
              Values(s) == [Text(Ascii("agentcall/encryption-key/v1")), Number(s.v), Text(s.relayOrigin), Text(s.address), Text(s.keyId),
                            Text(s.suite), Text(s.pub), Number(s.epoch), Number(s.notBefore), Number(s.notAfter), Optional(s.prev)]
  {
    hide Ascii;
  }

  // ---- What a signature fixes --------------------------------------------------------------

  /** Version 1 leaves the delivery mode and message id out. */
  function SignedBase(b: Base): Base {
    if IsDurable(b) then b else b.(messageId := None, mode := None)
  }

  /** An absent list of offered tasks is signed like an empty one. */
  function SignedOutcome(o: Outcome): Outcome {
    if o.PeerFailure? && o.offered.None? then o.(offered := Some([])) else o
  }

  function Fixed(s: Signed): Signed {
    match s
    case Request(b, task, context, message) => Request(SignedBase(b), task, context, message)
    case Response(b, requestHash, outcome) => Response(SignedBase(b), requestHash, SignedOutcome(outcome))
    case _ => s
  }

  lemma TagShape(k: Kind)
    ensures |Tag(k)| == (match k case RequestV1 => 20 case RequestV2 => 20 case EncryptionKey => 27 case _ => 21)
    ensures Tag(k)[10] == (match k case HpkeAad => 'h' case Identity => 'i' case EncryptionKey => 'e' case _ => 'r')
    ensures Tag(k)[|Tag(k)| - 1] == (match k case RequestV2 => '2' case ResponseV2 => '2' case _ => '1')
  {
  }

  lemma AsciiAt(s: string, i: nat)
    requires i < |s| && s[i] as int < 128
    ensures |Ascii(s)| == |s| && Ascii(s)[i] == s[i] as int
  {
  }

  lemma TagsDiffer(j: Kind, k: Kind)
    requires Ascii(Tag(j)) == Ascii(Tag(k))
    ensures j == k
  {
    TagShape(j);
    TagShape(k);
    AsciiAt(Tag(j), 10);
    AsciiAt(Tag(k), 10);
    AsciiAt(Tag(j), |Tag(j)| - 1);
    AsciiAt(Tag(k), |Tag(k)| - 1);
  }

  lemma DirectionsDiffer(d: Direction, e: Direction)
    requires DirectionText(d) == DirectionText(e)
    ensures d == e
  {
    assert |Ascii("request")| == 7 && |Ascii("response")| == 8;
  }

  lemma OutcomeKindsDiffer()
    ensures Ascii("reply") != Ascii("failure")
  {
    assert |Ascii("reply")| == 5 && |Ascii("failure")| == 7;
  }

  lemma OptionalDecides(a: Option<Unicode.Text>, b: Option<Unicode.Text>)
    requires Optional(a) == Optional(b)
    ensures a == b
  {
  }

  lemma BaseDecides(a: Base, b: Base, d: Direction)
    requires IsDurable(a) == IsDurable(b) && (IsDurable(a) ==> a.messageId.Some? && b.messageId.Some?)
    requires BaseValues(a, d) == BaseValues(b, d)
    ensures SignedBase(a) == SignedBase(b)
  {
    var x, y := BaseValues(a, d), BaseValues(b, d);
    var n := if IsDurable(a) then 6 else 5;
    assert x[0] == y[0] && x[2] == y[2] && x[3] == y[3] && x[4] == y[4];
    assert IsDurable(a) ==> x[5] == y[5];
    assert x[n] == y[n] && x[n + 1] == y[n + 1] && x[n + 2] == y[n + 2];
    assert x[n + 3] == y[n + 3] && x[n + 4] == y[n + 4] && x[n + 5] == y[n + 5];
  }

  lemma TextsDecide(a: seq<Unicode.Text>, b: seq<Unicode.Text>)
    requires Texts(a) == Texts(b)
    ensures a == b
  {
    assert |a| == |Texts(a)| == |b|;
    forall i | 0 <= i < |a|
      ensures a[i] == b[i]
    {
      assert Texts(a)[i] == Texts(b)[i];
    }
  }

  function Offered(o: Outcome): seq<Unicode.Text>
    requires o.PeerFailure?
  {
    if o.offered.Some? then o.offered.value else []
  }

  lemma FailureDecides(a: Outcome, b: Outcome)
    requires a.PeerFailure? && b.PeerFailure? && OutcomeValues(a) == OutcomeValues(b)
    ensures SignedOutcome(a) == SignedOutcome(b)
  {
    var x := [Text(Ascii("failure")), Text(a.code), Optional(a.detail), Number(|Offered(a)|)];
    var y := [Text(Ascii("failure")), Text(b.code), Optional(b.detail), Number(|Offered(b)|)];
    Prefixes(x, y, Texts(Offered(a)), Texts(Offered(b)));
    assert x[1] == y[1] && x[2] == y[2];
    OptionalDecides(a.detail, b.detail);
    TextsDecide(Offered(a), Offered(b));
  }

  lemma OutcomeDecides(a: Outcome, b: Outcome)
    requires OutcomeValues(a) == OutcomeValues(b)
    ensures SignedOutcome(a) == SignedOutcome(b)
  {
    OutcomeKindsDiffer();
    assert OutcomeValues(a)[0] == OutcomeValues(b)[0];
    if a.PeerFailure? {
      FailureDecides(a, b);
    } else {
      assert OutcomeValues(a)[1] == OutcomeValues(b)[1];
      assert OutcomeValues(a)[2] == OutcomeValues(b)[2] && OutcomeValues(a)[3] == OutcomeValues(b)[3];
    }
  }

  lemma BaseLength(a: Base, b: Base, d: Direction)
    requires IsDurable(a) == IsDurable(b) && (IsDurable(a) ==> a.messageId.Some? && b.messageId.Some?)
    ensures |BaseValues(a, d)| == |BaseValues(b, d)| && Closing(a) == Closing(b)
  {
  }

  lemma RequestDecides(a: Signed, b: Signed)
    requires a.Request? && b.Request? && KindOf(a) == KindOf(b) && WellTyped(a) && WellTyped(b) && Body(a) == Body(b)
    ensures Fixed(a) == Fixed(b)
  {
    BaseLength(a.base, b.base, RequestDirection);
    var x, y := [Optional(a.task), Optional(a.context), Text(a.message)], [Optional(b.task), Optional(b.context), Text(b.message)];
    hide BaseValues;
    Headed(BaseValues(a.base, RequestDirection), BaseValues(b.base, RequestDirection), x, y, Closing(a.base), Closing(b.base));
    Prefixes(x, y, Closing(a.base), Closing(b.base));
    BaseDecides(a.base, b.base, RequestDirection);
    assert x[0] == y[0] && x[1] == y[1] && x[2] == y[2];
  }

  lemma Suffixes<T>(x: seq<T>, y: seq<T>, end: seq<T>)
    requires x + end == y + end
    ensures x == y
  {
    assert |x| == |y|;
    Prefixes(x, y, end, end);
  }

  lemma ResponseDecides(a: Signed, b: Signed)
    requires a.Response? && b.Response? && KindOf(a) == KindOf(b) && WellTyped(a) && WellTyped(b) && Body(a) == Body(b)
    ensures Fixed(a) == Fixed(b)
  {
    BaseLength(a.base, b.base, ResponseDirection);
    hide BaseValues;
    hide OutcomeValues;
    var s, t := BaseValues(a.base, ResponseDirection), BaseValues(b.base, ResponseDirection);
    Suffixes(s + [Text(a.requestHash)] + OutcomeValues(a.outcome), t + [Text(b.requestHash)] + OutcomeValues(b.outcome), Closing(a.base));
    Headed(s, t, [Text(a.requestHash)], [Text(b.requestHash)], OutcomeValues(a.outcome), OutcomeValues(b.outcome));
    Prefixes([Text(a.requestHash)], [Text(b.requestHash)], OutcomeValues(a.outcome), OutcomeValues(b.outcome));
    BaseDecides(a.base, b.base, ResponseDirection);
    OutcomeDecides(a.outcome, b.outcome);
    assert [Text(a.requestHash)][0] == [Text(b.requestHash)][0];
  }

  lemma RecordDecides(a: Signed, b: Signed)
    requires KindOf(a) == KindOf(b) && !a.Request? && !a.Response? && WellTyped(a) && WellTyped(b) && Body(a) == Body(b)
    ensures a == b
  {
    var x, y := Body(a), Body(b);
    assert x[0] == y[0] && x[1] == y[1] && x[2] == y[2] && x[3] == y[3];
    if a.Header? {
      DirectionsDiffer(a.direction, b.direction);
      assert x[4] == y[4] && x[5] == y[5] && x[6] == y[6];
    } else if a.KeyRecord? {
      assert x[4] == y[4] && x[5] == y[5] && x[6] == y[6] && x[7] == y[7] && x[8] == y[8] && x[9] == y[9];
    }
  }

  lemma ValuesDecide(a: Signed, b: Signed)
    requires WellTyped(a) && WellTyped(b) && Values(a) == Values(b)
    ensures Fixed(a) == Fixed(b)
  {
    hide Body;
    Prefixes([Text(Ascii(Tag(KindOf(a))))], [Text(Ascii(Tag(KindOf(b))))], Body(a), Body(b));
    assert [Text(Ascii(Tag(KindOf(a))))][0] == [Text(Ascii(Tag(KindOf(b))))][0];
    TagsDiffer(KindOf(a), KindOf(b));
    hide Tag;
    if a.Request? {
      RequestDecides(a, b);
    } else if a.Response? {
      ResponseDecides(a, b);
    } else {
      RecordDecides(a, b);
    }
  }

  /** The list depends on nothing but the fields the signature fixes. */
  lemma FixedIsSigned(s: Signed)
    requires WellTyped(s)
    ensures WellTyped(Fixed(s)) && Values(Fixed(s)) == Values(s)
  {
    if s.Response? {
      assert OutcomeValues(SignedOutcome(s.outcome)) == OutcomeValues(s.outcome);
    }
  }

  /** Strings as the schemas admit them, and numbers that can be encoded. */
  predicate Admissible(s: Signed) {
    && WellTyped(s) && Proper(Values(s))
    && forall v | v in Values(s) :: Clean(v)
  }

  /** Requests, responses, envelope headers and key records of any kind: two have the same transcript
      exactly if they are of the same kind and agree in every field the signature fixes. */
  lemma TranscriptsDistinguish(a: Signed, b: Signed)
    requires Admissible(a) && Admissible(b)
    ensures Encode(Values(a)) == Encode(Values(b)) <==> Fixed(a) == Fixed(b)
    ensures Encode(Values(a)) == Encode(Values(b)) ==> KindOf(a) == KindOf(b)
  {
    FixedIsSigned(a);
    FixedIsSigned(b);
    hide Values;
    if Encode(Values(a)) == Encode(Values(b)) {
      EncodingIsInjective(Values(a), Values(b));
      ValuesDecide(a, b);
    }
  }
}

/** When an export page is answered, and that an export nobody disturbs comes to its end. */
module AuditProgress {
  import opened Wrappers
  import opened Ordered
  import opened AuditExport
  import opened AuditSnapshot
  import opened AuditRetention

  // ---- One page ----------------------------------------------------------------------------

  /** None of the rows that were there when the checkpoint was taken has been deleted. */
  ghost predicate Intact(w: World, org: string, c: Checkpoint) {
    Capture(org, c) in w.captured && w.captured[Capture(org, c)] <= w.live
  }

  lemma CapturedAreUnder(w: World, org: string, c: Checkpoint)
    requires Inv(w) && Intact(w, org, c)
    ensures Under(w, org, c) == w.captured[Capture(org, c)]
  {
    var rows := w.captured[Capture(org, c)];
    assert SnapshotOk(w, org, c, rows);
  }

  lemma CompleteIffIntact(w: World, org: string, c: Checkpoint)
    requires Inv(w) && Capture(org, c) in w.captured
    ensures Complete(w, org, c) <==> Intact(w, org, c)
  {
    var rows := w.captured[Capture(org, c)];
    assert SnapshotOk(w, org, c, rows);
    if Complete(w, org, c) {
      CountsDecide(Under(w, org, c), rows);
    }
    if Intact(w, org, c) {
      CapturedAreUnder(w, org, c);
    }
  }

  /** A request is answered with its page if and only if no row of its snapshot was deleted by then. */
  lemma AnsweredIffIntact(w: World, r: nat)
    requires Inv(w) && Enabled(w, Answer(r))
    ensures var q, w' := w.requests[r], Step(w, Answer(r));
            && w'.requests == w.requests - {r}
            && w'.pages == w.pages + if Intact(w, q.org, q.checkpoint) then {PageOf(q)} else {}
  {
    assert RequestOk(w, w.requests[r]);
    CompleteIffIntact(w, w.requests[r].org, w.requests[r].checkpoint);
  }

  lemma ServedIsFull(log: map<Spot, Body>, rows: set<Spot>, p: Page)
    requires Serves(log, rows, p)
    ensures |p.rows| <= p.query.pageSize
    ensures p.next.Some? ==> |p.rows| == p.query.pageSize > 0 && p.next.value.position == p.rows[|p.rows| - 1]
  {
    assert Total(SpotOrder());
    PrefixRows(SpotOrder(), Wanted(log, rows, p.query, PositionOf(p.from)), p.query.pageSize);
    hide Wanted;
    hide Prefix;
  }

  /** Every page but the last is full, no page is larger than asked for, and its cursor names its last row. */
  lemma PagesAreFull(w: World, p: Page)
    requires PagesOk(w) && p in w.pages
    ensures 1 <= p.query.pageSize <= 500 && |p.rows| <= p.query.pageSize
    ensures p.next.Some? ==> |p.rows| == p.query.pageSize && p.next.value.position == p.rows[|p.rows| - 1]
  {
    assert PageOk(w, p);
    ServedIsFull(w.log, w.captured[Capture(p.org, p.checkpoint)], p);
    hide Serves;
  }

  /** An export begins, or goes on under a cursor, only with 1 to 500 rows a page and a range that is not
      empty; and a cursor is taken only from whom it was issued to, for the query it was issued for. */
  lemma QueriesAreChecked(w: World, r: nat, org: string, handle: string, q: Query, token: Cursor)
    requires r !in w.requests
    ensures var checked := 1 <= q.pageSize <= 500 && (q.after.Some? && q.before.Some? ==> q.after.value < q.before.value);
            && (Enabled(w, Begin(r, org, handle, q)) <==> checked)
            && (Enabled(w, Resume(r, org, handle, q, token)) <==>
                  && checked && token.org == org && token.handle == handle && token.query == q
                  && exists p :: p in w.pages && p.next == Some(token))
  {
  }

  /** Holds and policies count from the moment they are set, and an export asks for none of them. */
  lemma SettingsTakeEffect(w: World, org: string, days: nat, s: Spot, evaluatedAt: int)
    ensures var w' := Step(w, SetPolicy(org, days));
            PastRetention(w', org, s, evaluatedAt) <==>
            s in w.live && s in w.log && w.log[s].org == org && s.at + days * 86_400_000 < evaluatedAt
    ensures org !in w.held ==> !Eligible(Step(w, CreateHold(org)), org, s, evaluatedAt)
    ensures org !in Step(w, ReleaseHold(org)).held
  {
  }

  /** A deleted row is gone, a new one is there, and no other row is concerned. */
  lemma RowsComeAndGo(w: World, s: Spot, body: Body, gone: set<Spot>)
    ensures Step(w, Delete(gone)).live == w.live - gone && Step(w, Delete(gone)).log == w.log
    ensures Enabled(w, Append(s, body)) ==>
              Step(w, Append(s, body)).live == w.live + {s} && Step(w, Append(s, body)).log == w.log[s := body]
  {
  }

  // ---- A whole export ----------------------------------------------------------------------

  ghost predicate Leads(w: World, acts: seq<Action>, last: World)
    decreases |acts|
  {
    if acts == [] then w == last else Enabled(w, acts[0]) && Leads(Step(w, acts[0]), acts[1..], last)
  }

  lemma {:induction false} LeadsJoin(w: World, acts: seq<Action>, mid: World, more: seq<Action>, last: World)
    requires Leads(w, acts, mid) && Leads(mid, more, last)
    ensures Leads(w, acts + more, last)
    decreases |acts|
  {
    hide Step;
    hide Enabled;
    if acts == [] {
      assert acts + more == more;
    } else {
      LeadsJoin(Step(w, acts[0]), acts[1..], mid, more, last);
      assert (acts + more)[0] == acts[0] && (acts + more)[1..] == acts[1..] + more;
    }
  }

  /** Nothing but requests and pages changed. */
  predicate SameRows(w: World, w': World) {
    w'.live == w.live && w'.log == w.log && w'.acks == w.acks && w'.days == w.days && w'.held == w.held && w.pages <= w'.pages
  }

  predicate SameButRequests(w: World, w': World) {
    SameRows(w, w') && w'.captured == w.captured && w'.pages == w.pages
  }

  lemma ReadShape(w: World, r: nat)
    requires Enabled(w, ReadPage(r))
    ensures var q, w' := w.requests[r], Step(w, ReadPage(r));
            && SameButRequests(w, w') && r in w'.requests && w'.requests - {r} == w.requests - {r}
            && w'.requests[r].reading.Some? && w'.requests[r] == q.(reading := w'.requests[r].reading)
  {
    var w' := Step(w, ReadPage(r));
    assert w'.requests - {r} == w.requests - {r};
    hide Select;
    hide Under;
  }

  lemma Read(w: World, r: nat)
    requires Inv(w) && Enabled(w, ReadPage(r))
    ensures var q, w' := w.requests[r], Step(w, ReadPage(r));
            && Inv(w') && SameButRequests(w, w') && r in w'.requests && w'.requests - {r} == w.requests - {r}
            && w'.requests[r].reading.Some? && w'.requests[r] == q.(reading := w'.requests[r].reading)
  {
    StepKeeps(w, ReadPage(r));
    ReadShape(w, r);
    hide Inv;
    hide Step;
    hide SameButRequests;
  }

  lemma AnswerShape(w: World, r: nat)
    requires Enabled(w, Answer(r))
    ensures var w' := Step(w, Answer(r)); SameRows(w, w') && w'.captured == w.captured
  {
    hide Complete;
  }

  lemma Answered(w: World, r: nat)
    requires Inv(w) && Enabled(w, Answer(r)) && Intact(w, w.requests[r].org, w.requests[r].checkpoint)
    ensures var q, w' := w.requests[r], Step(w, Answer(r));
            && Inv(w') && SameRows(w, w') && w'.captured == w.captured
            && w'.pages == w.pages + {PageOf(q)} && w'.requests == w.requests - {r}
            && PageOf(q).org == q.org && PageOf(q).handle == q.handle && PageOf(q).query == q.query
            && PageOf(q).from == q.from && PageOf(q).checkpoint == q.checkpoint
  {
    StepKeeps(w, Answer(r));
    AnsweredIffIntact(w, r);
    AnswerShape(w, r);
    hide Inv;
    hide Step;
    hide SameRows;
    hide Intact;
  }

  lemma LeadsTwo(w: World, a: Action, b: Action)
    requires Enabled(w, a) && Enabled(Step(w, a), b)
    ensures Leads(w, [a, b], Step(Step(w, a), b))
  {
    hide Step;
    hide Enabled;
    var last := Step(Step(w, a), b);
    assert [a, b][1..] == [b] && [b][1..] == [];
    assert Leads(last, [], last);
    assert Leads(Step(w, a), [b], last);
  }

  /** A request that meets no other step gets its page. */
  lemma Served(w: World, r: nat) returns (w': World, p: Page)
    requires Inv(w) && Enabled(w, ReadPage(r)) && Intact(w, w.requests[r].org, w.requests[r].checkpoint)
    ensures Leads(w, [ReadPage(r), Answer(r)], w')
    ensures Inv(w') && SameRows(w, w') && w'.captured == w.captured
    ensures w'.pages == w.pages + {p} && w'.requests == w.requests - {r}
    ensures var q := w.requests[r];
            p.org == q.org && p.handle == q.handle && p.query == q.query && p.from == q.from && p.checkpoint == q.checkpoint
  {
    Read(w, r);
    var w1 := Step(w, ReadPage(r));
    Answered(w1, r);
    LeadsTwo(w, ReadPage(r), Answer(r));
    w' := Step(w1, Answer(r));
    p := PageOf(w1.requests[r]);
  }

  lemma ResumeShape(w: World, r: nat, p: Page)
    requires p.next.Some? && Enabled(w, Resume(r, p.org, p.handle, p.query, p.next.value)) && p.next.value.checkpoint == p.checkpoint
    ensures var w' := Step(w, Resume(r, p.org, p.handle, p.query, p.next.value));
            && SameButRequests(w, w') && w'.requests == w.requests[r := Request(p.org, p.handle, p.query, p.next, p.checkpoint, None)]
  {
  }

  lemma CanResume(w: World, r: nat, p: Page)
    requires PagesOk(w) && p in w.pages && p.next.Some? && r !in w.requests
    ensures Enabled(w, Resume(r, p.org, p.handle, p.query, p.next.value)) && p.next.value.checkpoint == p.checkpoint
  {
    assert PageOk(w, p);
    assert Issued(w.pages, p.next.value);
    hide Select;
    hide Wanted;
  }

  lemma Resumed(w: World, r: nat, p: Page)
    requires Inv(w) && p in w.pages && p.next.Some? && r !in w.requests
    ensures var a := Resume(r, p.org, p.handle, p.query, p.next.value);
            && Enabled(w, a)
            && var w' := Step(w, a);
            && Inv(w') && SameButRequests(w, w')
            && w'.requests == w.requests[r := Request(p.org, p.handle, p.query, p.next, p.checkpoint, None)]
  {
    CanResume(w, r, p);
    ResumeShape(w, r, p);
    StepKeeps(w, Resume(r, p.org, p.handle, p.query, p.next.value));
    hide Inv;
    hide Step;
    hide Enabled;
    hide SameButRequests;
  }

  /** What is still wanted after a page. */
  ghost function Left(w: World, p: Page): set<Spot>
    requires Capture(p.org, p.checkpoint) in w.captured
  {
    Wanted(w.log, w.captured[Capture(p.org, p.checkpoint)], p.query, PositionOf(p.next))
  }

  /** The last row of a page was wanted, and is not wanted again. */
  lemma LastIsTaken(log: map<Spot, Body>, rows: set<Spot>, q: Page)
    requires ValidQuery(q.query) && Serves(log, rows, q) && q.next.Some?
    ensures var last := q.next.value.position;
            last in Wanted(log, rows, q.query, PositionOf(q.from)) && last !in Wanted(log, rows, q.query, Some(last))
  {
    assert Total(SpotOrder());
    PrefixRows(SpotOrder(), Wanted(log, rows, q.query, PositionOf(q.from)), q.query.pageSize);
    assert q.rows[|q.rows| - 1] in q.rows;
    hide Prefix;
  }

  lemma LaterWantsLess(log: map<Spot, Body>, rows: set<Spot>, q: Query, from: Spot, last: Spot)
    requires last in Wanted(log, rows, q, Some(from))
    ensures Wanted(log, rows, q, Some(last)) <= Wanted(log, rows, q, Some(from))
  {
  }

  lemma PageTakesSome(w: World, p: Page, q: Page)
    requires PagesOk(w) && p in w.pages && q in w.pages && Follows(p, q) && q.next.Some?
    ensures Capture(p.org, p.checkpoint) in w.captured && Left(w, q) < Left(w, p)
  {
    assert PageOk(w, p) && PageOk(w, q);
    hide PagesOk;
    hide Serves;
    var rows := w.captured[Capture(p.org, p.checkpoint)];
    LastIsTaken(w.log, rows, q);
    LaterWantsLess(w.log, rows, q.query, p.next.value.position, q.next.value.position);
    hide Wanted;
  }

  lemma FewerLeft(a: set<Spot>, b: set<Spot>)
    requires a < b
    ensures |a| < |b|
  {
    SmallerSubset(a, b);
  }

  lemma LeadsThen(w: World, a: Action, w1: World, acts: seq<Action>, last: World)
    requires Enabled(w, a) && w1 == Step(w, a) && Leads(w1, acts, last)
    ensures Leads(w, [a] + acts, last)
  {
    assert ([a] + acts)[1..] == acts;
  }

  lemma NextAnswered(w: World, r: nat, p: Page) returns (acts: seq<Action>, w': World, q: Page)
    requires Inv(w) && r !in w.requests && p in w.pages && p.next.Some? && Intact(w, p.org, p.checkpoint)
    ensures Leads(w, acts, w') && Inv(w') && SameRows(w, w') && w'.captured == w.captured && w'.requests == w.requests
    ensures q in w'.pages && Follows(p, q)
  {
    hide Step;
    hide Enabled;
    hide Inv;
    hide Leads;
    var a := Resume(r, p.org, p.handle, p.query, p.next.value);
    Resumed(w, r, p);
    var w1 := Step(w, a);
    CanRead(w1, r);
    w', q := Served(w1, r);
    LeadsThen(w, a, w1, [ReadPage(r), Answer(r)], w');
    acts := [a] + [ReadPage(r), Answer(r)];
  }

  lemma ChainOn(pages: set<Page>, more: set<Page>, chain: seq<Page>, q: Page)
    requires pages <= more && q in more && Chain(pages, chain) && Follows(chain[|chain| - 1], q)
    ensures Chain(more, chain + [q]) && (chain + [q])[|chain + [q]| - 1] == q && (chain + [q])[0] == chain[0]
  {
    ChainStays(pages, more, chain);
    ChainGrows(more, chain, q);
    assert more + {q} == more;
  }

  lemma FewerLeftThen(w: World, w': World, p: Page, q: Page)
    requires Inv(w') && SameRows(w, w') && w'.captured == w.captured && p in w'.pages && q in w'.pages && Follows(p, q) && q.next.Some?
    ensures Capture(p.org, p.checkpoint) in w.captured && |Left(w', q)| < |Left(w, p)|
  {
    PageTakesSome(w', p, q);
    FewerLeft(Left(w', q), Left(w', p));
    assert Left(w', p) == Left(w, p);
  }

  lemma {:induction false} ExportGoesOn(w: World, r: nat, chain: seq<Page>) returns (acts: seq<Action>, w': World, whole: seq<Page>)
    requires Inv(w) && r !in w.requests && Chain(w.pages, chain)
    requires Intact(w, chain[|chain| - 1].org, chain[|chain| - 1].checkpoint)
    ensures Leads(w, acts, w') && Inv(w') && SameRows(w, w')
    ensures Finished(w'.pages, whole) && whole[0] == chain[0]
    decreases |Left(w, chain[|chain| - 1])|
  {
    var p := chain[|chain| - 1];
    assert p in chain;
    hide Inv;
    if p.next.None? {
      acts, w', whole := [], w, chain;
    } else {
      hide Leads;
      hide Left;
      hide Chain;
      var first, w1, q := NextAnswered(w, r, p);
      ChainOn(w.pages, w1.pages, chain, q);
      if q.next.None? {
        acts, w', whole := first, w1, chain + [q];
      } else {
        FewerLeftThen(w, w1, p, q);
        var more;
        more, w', whole := ExportGoesOn(w1, r, chain + [q]);
        acts := first + more;
        LeadsJoin(w, first, w1, more, w');
      }
    }
  }

  lemma CanRead(w: World, r: nat)
    requires r in w.requests && w.requests[r].reading.None?
    ensures Enabled(w, ReadPage(r))
  {
  }

  lemma LeadsNowhere(w: World)
    ensures Leads(w, [], w)
  {
  }

  lemma ChainStays(pages: set<Page>, more: set<Page>, chain: seq<Page>)
    requires pages <= more && Chain(pages, chain)
    ensures Chain(more, chain)
  {
  }

  lemma StartShape(w: World, r: nat, org: string, handle: string, q: Query)
    requires Enabled(w, Begin(r, org, handle, q))
    ensures var w', c := Step(w, Begin(r, org, handle, q)), Checkpointed(w, org);
            && SameRows(w, w') && w'.pages == w.pages && Intact(w', org, c)
            && w'.requests == w.requests[r := Request(org, handle, q, None, c, None)]
  {
    hide Checkpointed;
  }

  lemma Started(w: World, r: nat, org: string, handle: string, q: Query)
    requires Inv(w) && r !in w.requests && ValidQuery(q)
    ensures var a := Begin(r, org, handle, q);
            && Enabled(w, a)
            && var w', c := Step(w, a), Checkpointed(w, org);
            && Inv(w') && SameRows(w, w') && w'.pages == w.pages && Intact(w', org, c)
            && w'.requests == w.requests[r := Request(org, handle, q, None, c, None)]
  {
    StartShape(w, r, org, handle, q);
    StepKeeps(w, Begin(r, org, handle, q));
    hide Inv;
    hide Step;
    hide Checkpointed;
    hide SameRows;
    hide Intact;
  }

  /** From any state, an export that no other step disturbs reaches its last page. */
  lemma ExportCompletes(w: World, r: nat, org: string, handle: string, q: Query)
    returns (acts: seq<Action>, w': World, chain: seq<Page>)
    requires Inv(w) && r !in w.requests && ValidQuery(q)
    ensures Leads(w, acts, w') && Inv(w') && SameRows(w, w')
    ensures Finished(w'.pages, chain)
    ensures chain[0].org == org && chain[0].handle == handle && chain[0].query == q && chain[0].checkpoint == Checkpointed(w, org)
  {
    hide Step;
    hide Enabled;
    hide Inv;
    hide Leads;
    var a := Begin(r, org, handle, q);
    Started(w, r, org, handle, q);
    var w1 := Step(w, a);
    CanRead(w1, r);
    var w2, p := Served(w1, r);
    LeadsThen(w, a, w1, [ReadPage(r), Answer(r)], w2);
    assert Chain(w2.pages, [p]);
    var more, last, whole := ExportGoesOn(w2, r, [p]);
    acts, w', chain := [a] + [ReadPage(r), Answer(r)] + more, last, whole;
    LeadsJoin(w, [a] + [ReadPage(r), Answer(r)], w2, more, w');
  }

  lemma FinishedIsReceipt(pages: set<Page>, chain: seq<Page>)
    requires Finished(pages, chain) && Unfiltered(chain[0].query)
    ensures ReceiptIssued(pages, chain[0].org, chain[0].checkpoint)
  {
    ChainIsOneExport(pages, chain, |chain| - 1);
    assert chain[|chain| - 1] in chain;
  }

  lemma CheckpointIsAbove(w: World, org: string, s: Spot)
    requires TableOk(w) && s in w.live && s in w.log && w.log[s].org == org
    ensures s.id <= IdOf(Checkpointed(w, org), s.ledger)
  {
    CheckpointCovers(w, org);
    assert s in Under(w, org, Checkpointed(w, org));
  }

  predicate NotBehind(acks: map<string, Checkpoint>, org: string, c: Checkpoint) {
    org in acks ==> acks[org].orgId <= c.orgId && acks[org].rosterId <= c.rosterId
  }

  lemma Acknowledged(w: World, org: string, c: Checkpoint)
    requires ReceiptIssued(w.pages, org, c) && NotBehind(w.acks, org, c)
    ensures Enabled(w, Acknowledge(org, c))
    ensures var w' := Step(w, Acknowledge(org, c));
            && w' == w.(acks := w'.acks) && AtLeast(w'.acks, org, c)
  {
    AcknowledgementTakesEffect(w, org, c);
  }

  lemma AcknowledgedFrees(w: World, last: World, org: string, s: Spot, evaluatedAt: int)
    requires TableOk(w) && last.live == w.live && last.log == w.log && last.days == w.days && org !in last.held
    requires AtLeast(last.acks, org, Checkpointed(w, org)) && PastRetention(w, org, s, evaluatedAt)
    ensures Eligible(last, org, s, evaluatedAt)
  {
    CheckpointIsAbove(w, org, s);
    hide Checkpointed;
    OldIsPastRetention(last, org, s, evaluatedAt);
  }

  lemma ExportAcknowledged(w: World, r: nat, org: string, handle: string, q: Query) returns (acts: seq<Action>, w': World)
    requires Inv(w) && r !in w.requests && ValidQuery(q) && Unfiltered(q) && NotBehind(w.acks, org, Checkpointed(w, org))
    ensures Leads(w, acts, w') && w'.live == w.live && w'.log == w.log && w'.days == w.days && w'.held == w.held
    ensures AtLeast(w'.acks, org, Checkpointed(w, org))
  {
    hide Inv;
    hide Step;
    hide Enabled;
    hide Leads;
    hide Finished;
    hide Checkpointed;
    hide ReceiptIssued;
    var exporting, w1, chain := ExportCompletes(w, r, org, handle, q);
    FinishedIsReceipt(w1.pages, chain);
    var a := Acknowledge(org, Checkpointed(w, org));
    Acknowledged(w1, org, Checkpointed(w, org));
    w' := Step(w1, a);
    LeadsNowhere(w');
    LeadsThen(w1, a, w', [], w');
    acts := exporting + ([a] + []);
    LeadsJoin(w, exporting, w1, [a] + [], w');
  }

  /** Exporting everything and acknowledging it makes every row past its retention deletable, unless a
      hold is active or the organization's rows have fallen behind what was acknowledged before. */
  lemma ExportFreesRows(w: World, r: nat, org: string, handle: string, pageSize: nat) returns (acts: seq<Action>, w': World)
    requires Inv(w) && r !in w.requests && 1 <= pageSize <= 500
    requires org !in w.held && NotBehind(w.acks, org, Checkpointed(w, org))
    ensures Leads(w, acts, w') && w'.live == w.live
    ensures forall s, t | PastRetention(w, org, s, t) :: Eligible(w', org, s, t)
  {
    var q := Query(None, None, None, None, None, pageSize);
    assert TableOk(w) && ValidQuery(q) && Unfiltered(q);
    hide *;
    acts, w' := ExportAcknowledged(w, r, org, handle, q);
    forall s, t | PastRetention(w, org, s, t)
      ensures Eligible(w', org, s, t)
    {
      AcknowledgedFrees(w, w', org, s, t);
    }
  }
}

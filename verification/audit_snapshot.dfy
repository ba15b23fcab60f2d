/** Every export step keeps the invariant, and what a finished export has served. */
module AuditSnapshot {
  import opened Wrappers
  import opened Ordered
  import opened AuditExport

  // ---- Sets with the same counts -----------------------------------------------------------

  lemma SubsetWithCount(a: set<Spot>, b: set<Spot>, l: Ledger)
    requires a <= b && |InLedger(a, l)| == |InLedger(b, l)|
    ensures InLedger(a, l) == InLedger(b, l)
  {
    if InLedger(a, l) != InLedger(b, l) {
      assert InLedger(a, l) < InLedger(b, l);
      SmallerSubset(InLedger(a, l), InLedger(b, l));
    }
  }

  /** Counting both ledgers is enough to tell a subset from the whole. */
  lemma CountsDecide(a: set<Spot>, b: set<Spot>)
    requires a <= b
    requires |InLedger(a, OrgLedger)| == |InLedger(b, OrgLedger)| && |InLedger(a, RosterLedger)| == |InLedger(b, RosterLedger)|
    ensures a == b
  {
    SubsetWithCount(a, b, OrgLedger);
    SubsetWithCount(a, b, RosterLedger);
    forall s | s in b
      ensures s in a
    {
      assert s in InLedger(b, s.ledger);
      assert s in InLedger(a, s.ledger);
    }
  }

  // ---- Steps keep the snapshots ------------------------------------------------------------

  /** What a step may do to the tables: old rows keep their bodies, and nothing appears under a
      checkpoint that was already taken. */
  ghost predicate Grows(w: World, w': World) {
    && w.lastOrg <= w'.lastOrg && w.lastRoster <= w'.lastRoster
    && (forall s | s in w.log :: s in w'.log && w'.log[s] == w.log[s])
    && (forall s | s in w'.live && s !in w.live :: s.id > Last(w, s.ledger))
  }

  lemma StepGrows(w: World, a: Action)
    requires TableOk(w) && Enabled(w, a)
    ensures Grows(w, Step(w, a))
  {
  }

  lemma OneSpotPerId(log: map<Spot, Body>, s: Spot, body: Body)
    requires forall a, b | a in log && b in log && a.ledger == b.ledger && a.id == b.id :: a == b
    requires forall a | a in log && a.ledger == s.ledger :: a.id < s.id
    ensures var log' := log[s := body];
            forall a, b | a in log' && b in log' && a.ledger == b.ledger && a.id == b.id :: a == b
  {
  }

  /** A table that gained one row under a new id, or lost rows. */
  predicate Gained(w: World, w': World, s: Spot, body: Body) {
    && w'.log == w.log[s := body] && w'.live == w.live + {s} && s.id > Last(w, s.ledger)
    && Last(w', s.ledger) == s.id && w.lastOrg <= w'.lastOrg && w.lastRoster <= w'.lastRoster
  }

  predicate Lost(w: World, w': World) {
    w'.log == w.log && w'.live <= w.live && w'.lastOrg == w.lastOrg && w'.lastRoster == w.lastRoster
  }

  lemma GainedKeeps(w: World, w': World, s: Spot, body: Body)
    requires TableOk(w) && Gained(w, w', s, body)
    ensures TableOk(w')
  {
    OneSpotPerId(w.log, s, body);
  }

  lemma LostKeeps(w: World, w': World)
    requires TableOk(w) && Lost(w, w')
    ensures TableOk(w')
  {
  }

  lemma TableStep(w: World, a: Action)
    requires Enabled(w, a)
    ensures if a.Append? then Gained(w, Step(w, a), a.spot, a.body) else Lost(w, Step(w, a))
  {
  }

  lemma TableKeeps(w: World, a: Action)
    requires TableOk(w) && Enabled(w, a)
    ensures TableOk(Step(w, a))
  {
    TableStep(w, a);
    hide *;
    if a.Append? {
      GainedKeeps(w, Step(w, a), a.spot, a.body);
    } else {
      LostKeeps(w, Step(w, a));
    }
  }

  lemma UnderShrinks(w: World, w': World, org: string, c: Checkpoint)
    requires TableOk(w) && Grows(w, w') && c.orgId <= w.lastOrg && c.rosterId <= w.lastRoster
    ensures Under(w', org, c) <= Under(w, org, c)
  {
  }

  lemma SnapshotStays(w: World, w': World, org: string, c: Checkpoint, rows: set<Spot>)
    requires TableOk(w) && Grows(w, w') && SnapshotOk(w, org, c, rows)
    ensures SnapshotOk(w', org, c, rows)
  {
    UnderShrinks(w, w', org, c);
  }

  lemma CheckpointCovers(w: World, org: string)
    requires TableOk(w)
    ensures var c := Checkpointed(w, org);
            SnapshotOk(w, org, c, OrgRows(w, org)) && Under(w, org, c) == OrgRows(w, org)
  {
    var c, all := Checkpointed(w, org), OrgRows(w, org);
    forall s | s in all
      ensures s.id <= IdOf(c, s.ledger)
    {
      assert s in InLedger(all, s.ledger);
    }
    assert Under(w, org, c) == all;
  }

  /** Taking the same checkpoint again finds the same rows: a checkpoint names one snapshot. */
  lemma CheckpointNamesRows(w: World, org: string)
    requires TableOk(w) && SnapshotsOk(w)
    ensures var k := Capture(org, Checkpointed(w, org));
            k in w.captured ==> w.captured[k] == OrgRows(w, org)
  {
    var c := Checkpointed(w, org);
    var k := Capture(org, c);
    CheckpointCovers(w, org);
    if k in w.captured {
      assert SnapshotOk(w, org, c, w.captured[k]);
      CountsDecide(OrgRows(w, org), w.captured[k]);
    }
  }

  /** Old snapshots keep their rows; the one a step may add is that of its own moment. */
  lemma CaptureStep(w: World, a: Action, k: Capture)
    requires TableOk(w) && SnapshotsOk(w) && Enabled(w, a)
    ensures k in w.captured ==> k in Step(w, a).captured && Step(w, a).captured[k] == w.captured[k]
    ensures k in Step(w, a).captured ==> SnapshotOk(w, k.org, k.checkpoint, Step(w, a).captured[k])
  {
    if a.Begin? {
      CheckpointCovers(w, a.org);
      CheckpointNamesRows(w, a.org);
    }
  }

  lemma SnapshotsKeep(w: World, a: Action)
    requires TableOk(w) && SnapshotsOk(w) && Enabled(w, a)
    ensures SnapshotsOk(Step(w, a))
    ensures forall k | k in w.captured :: k in Step(w, a).captured && Step(w, a).captured[k] == w.captured[k]
  {
    var w' := Step(w, a);
    StepGrows(w, a);
    forall k
      ensures k in w'.captured ==> SnapshotOk(w', k.org, k.checkpoint, w'.captured[k])
      ensures k in w.captured ==> k in w'.captured && w'.captured[k] == w.captured[k]
    {
      CaptureStep(w, a, k);
      if k in w'.captured {
        SnapshotStays(w, w', k.org, k.checkpoint, w'.captured[k]);
      }
    }
  }

  // ---- Steps keep requests and pages -------------------------------------------------------

  lemma SelectStays(log: map<Spot, Body>, log': map<Spot, Body>, rows: set<Spot>, q: Query, from: Option<Spot>, n: nat)
    requires forall s | s in rows :: s in log && s in log' && log'[s] == log[s]
    ensures Wanted(log', rows, q, from) == Wanted(log, rows, q, from)
    ensures Select(log', rows, q, from, n) == Select(log, rows, q, from, n)
  {
    assert Wanted(log', rows, q, from) == Wanted(log, rows, q, from);
  }

  /** What stays true of requests and pages under any step. */
  ghost predicate Extends(w: World, w': World) {
    && Grows(w, w') && w.pages <= w'.pages
    && forall k | k in w.captured :: k in w'.captured && w'.captured[k] == w.captured[k]
  }

  lemma RequestStays(w: World, w': World, r: Request)
    requires TableOk(w) && SnapshotsOk(w) && Extends(w, w') && RequestOk(w, r)
    ensures RequestOk(w', r)
  {
    var k := Capture(r.org, r.checkpoint);
    assert SnapshotOk(w, k.org, k.checkpoint, w.captured[k]);
    UnderShrinks(w, w', r.org, r.checkpoint);
    if r.reading.Some? {
      SelectStays(w.log, w'.log, r.reading.value.seen, r.query, PositionOf(r.from), r.query.pageSize + 1);
    }
  }

  lemma PageStays(w: World, w': World, p: Page)
    requires TableOk(w) && SnapshotsOk(w) && Extends(w, w') && PageOk(w, p)
    ensures PageOk(w', p)
  {
    var k := Capture(p.org, p.checkpoint);
    assert SnapshotOk(w, k.org, k.checkpoint, w.captured[k]);
    SelectStays(w.log, w'.log, w.captured[k], p.query, PositionOf(p.from), p.query.pageSize);
  }

  lemma StepExtends(w: World, a: Action)
    requires TableOk(w) && SnapshotsOk(w) && Enabled(w, a)
    ensures Extends(w, Step(w, a))
  {
    StepGrows(w, a);
    SnapshotsKeep(w, a);
  }

  lemma IssuedPage(w: World, c: Cursor)
    requires PagesOk(w) && Issued(w.pages, c)
    ensures Capture(c.org, c.checkpoint) in w.captured
  {
  }

  /** The one request a step writes. */
  lemma TouchedOk(w: World, a: Action)
    requires Inv(w) && Enabled(w, a)
    requires a.Begin? || a.Resume? || a.ReadPage?
    ensures RequestOk(Step(w, a), Step(w, a).requests[a.r])
  {
    var w' := Step(w, a);
    if a.Resume? {
      IssuedPage(w, a.token);
    }
    if a.ReadPage? {
      var q := w.requests[a.r];
      assert RequestOk(w, q);
      var k := Capture(q.org, q.checkpoint);
      assert SnapshotOk(w, k.org, k.checkpoint, w.captured[k]);
      assert Under(w', q.org, q.checkpoint) == Under(w, q.org, q.checkpoint);
    }
  }

  lemma RequestsKeep(w: World, a: Action)
    requires Inv(w) && Enabled(w, a)
    ensures RequestsOk(Step(w, a))
  {
    var w' := Step(w, a);
    StepExtends(w, a);
    forall r | r in w'.requests
      ensures RequestOk(w', w'.requests[r])
    {
      if r in w.requests && w'.requests[r] == w.requests[r] {
        RequestStays(w, w', w.requests[r]);
      } else {
        TouchedOk(w, a);
      }
    }
  }

  /** A listing cut to its first n rows is the listing with limit n. */
  lemma {:induction false} CutListing(s: set<Spot>, n: nat)
    requires Total(SpotOrder())
    ensures var longer := Prefix(SpotOrder(), s, n + 1);
            Prefix(SpotOrder(), s, n) == if |longer| > n then longer[..n] else longer
    decreases n
  {
    if n != 0 && s != {} {
      var x := Least(SpotOrder(), s);
      CutListing(s - {x}, n - 1);
      var longer := Prefix(SpotOrder(), s - {x}, n);
      assert Prefix(SpotOrder(), s, n + 1) == [x] + longer;
      assert |longer| > n - 1 ==> ([x] + longer)[..n] == [x] + longer[..n - 1];
    }
  }

  lemma PageOfServes(log: map<Spot, Body>, rows: set<Spot>, r: Request)
    requires ValidQuery(r.query) && r.reading.Some?
    requires r.reading.value.rows == Select(log, rows, r.query, PositionOf(r.from), r.query.pageSize + 1)
    ensures Serves(log, rows, PageOf(r))
  {
    assert Total(SpotOrder());
    hide Wanted;
    hide SpotBefore;
    hide Prefix;
    var wanted := Wanted(log, rows, r.query, PositionOf(r.from));
    CutListing(wanted, r.query.pageSize);
    PrefixRows(SpotOrder(), wanted, r.query.pageSize + 1);
  }

  /** The check after the read: if both counts still match, the page was read from the full snapshot. */
  lemma CheckedPageServes(w: World, r: Request)
    requires TableOk(w) && SnapshotsOk(w) && RequestOk(w, r) && r.reading.Some? && Complete(w, r.org, r.checkpoint)
    ensures PageOk(w, PageOf(r))
  {
    var k := Capture(r.org, r.checkpoint);
    var rows := w.captured[k];
    assert SnapshotOk(w, k.org, k.checkpoint, rows);
    CountsDecide(Under(w, r.org, r.checkpoint), rows);
    assert r.reading.value.seen == rows;
    PageOfServes(w.log, rows, r);
  }

  lemma PagesKeep(w: World, a: Action)
    requires Inv(w) && Enabled(w, a)
    ensures PagesOk(Step(w, a))
  {
    var w' := Step(w, a);
    StepExtends(w, a);
    forall p | p in w'.pages
      ensures PageOk(w', p)
    {
      if p !in w.pages {
        CheckedPageServes(w, w.requests[a.r]);
        PageStays(w, w', p);
      } else {
        PageStays(w, w', p);
      }
    }
  }

  lemma ReachedStays(pages: set<Page>, pages': set<Page>, p: Page)
    requires pages <= pages' && Reached(pages, p)
    ensures Reached(pages', p)
  {
    var chain :| Chain(pages, chain) && chain[|chain| - 1] == p;
    assert Chain(pages', chain);
  }

  lemma ChainGrows(pages: set<Page>, chain: seq<Page>, p: Page)
    requires Chain(pages, chain) && Follows(chain[|chain| - 1], p)
    ensures Chain(pages + {p}, chain + [p])
  {
    var longer := chain + [p];
    forall i, j | 0 <= i < j < |longer| && j == i + 1
      ensures Follows(longer[i], longer[j])
    {
      assert j < |chain| ==> Follows(chain[i], chain[j]);
    }
  }

  lemma ChainGoesOn(w: World, p: Page)
    requires PagesReached(w) && PagesOk(w)
    requires p.from.Some? ==> Accepts(w, p.from.value, p.org, p.handle, p.query) && p.from.value.checkpoint == p.checkpoint
    ensures Reached(w.pages + {p}, p)
  {
    if p.from.None? {
      assert Chain(w.pages + {p}, [p]);
      assert [p][|[p]| - 1] == p;
    } else {
      var before :| before in w.pages && before.next == p.from;
      assert PageOk(w, before);
      assert Follows(before, p);
      assert Reached(w.pages, before);
      var chain :| Chain(w.pages, chain) && chain[|chain| - 1] == before;
      ChainGrows(w.pages, chain, p);
      assert (chain + [p])[|chain + [p]| - 1] == p;
    }
  }

  lemma PageStep(w: World, a: Action, p: Page)
    requires Enabled(w, a) && p in Step(w, a).pages && p !in w.pages
    ensures a.Answer? && a.r in w.requests && w.requests[a.r].reading.Some? && p == PageOf(w.requests[a.r])
    ensures Step(w, a).pages == w.pages + {p}
  {
  }

  lemma PagesGrow(w: World, a: Action)
    requires Enabled(w, a)
    ensures w.pages <= Step(w, a).pages
  {
  }

  lemma ReachedKeep(w: World, a: Action)
    requires Inv(w) && Enabled(w, a)
    ensures PagesReached(Step(w, a))
  {
    PagesGrow(w, a);
    hide Step;
    hide Enabled;
    var w' := Step(w, a);
    forall p | p in w'.pages
      ensures Reached(w'.pages, p)
    {
      if p in w.pages {
        ReachedStays(w.pages, w'.pages, p);
      } else {
        PageStep(w, a, p);
        assert RequestOk(w, w.requests[a.r]);
        ChainGoesOn(w, p);
      }
    }
  }

  lemma ReceiptStays(pages: set<Page>, pages': set<Page>, org: string, c: Checkpoint)
    requires pages <= pages' && ReceiptIssued(pages, org, c)
    ensures ReceiptIssued(pages', org, c)
  {
    var p :| p in pages && p.org == org && p.checkpoint == c && p.next.None? && Unfiltered(p.query);
    assert p in pages';
  }

  lemma AcksChange(w: World, a: Action)
    requires Enabled(w, a)
    ensures Step(w, a).acks == if a.Acknowledge? then Upsert(w.acks, a.org, a.receipt) else w.acks
    ensures a.Acknowledge? ==> ReceiptIssued(w.pages, a.org, a.receipt)
  {
  }

  lemma AcksKeep(w: World, a: Action)
    requires AcksOk(w) && Enabled(w, a) && w.pages <= Step(w, a).pages
    ensures AcksOk(Step(w, a))
  {
    AcksChange(w, a);
    hide Step;
    hide Enabled;
    var w' := Step(w, a);
    forall org | org in w'.acks
      ensures ReceiptIssued(w'.pages, org, w'.acks[org])
    {
      ReceiptStays(w.pages, w'.pages, org, w'.acks[org]);
    }
  }

  lemma StepKeeps(w: World, a: Action)
    requires Inv(w) && Enabled(w, a)
    ensures Inv(Step(w, a)) && Extends(w, Step(w, a))
  {
    TableKeeps(w, a);
    StepExtends(w, a);
    SnapshotsKeep(w, a);
    RequestsKeep(w, a);
    PagesKeep(w, a);
    ReachedKeep(w, a);
    AcksKeep(w, a);
  }

  // ---- What an export serves ---------------------------------------------------------------

  ghost function Joined(chain: seq<Page>): seq<Spot>
    decreases |chain|
  {
    if chain == [] then [] else chain[0].rows + Joined(chain[1..])
  }

  ghost predicate Finished(pages: set<Page>, chain: seq<Page>) {
    Chain(pages, chain) && chain[|chain| - 1].next.None?
  }

  lemma RestOfWanted(log: map<Spot, Body>, rows: set<Spot>, q: Query, from: Option<Spot>, last: Spot)
    requires last in Wanted(log, rows, q, from)
    ensures Later(SpotOrder(), Wanted(log, rows, q, from), last) == Wanted(log, rows, q, Some(last))
  {
  }

  /** What one page leaves for the next. */
  lemma PageThenRest(log: map<Spot, Body>, rows: set<Spot>, p: Page)
    requires ValidQuery(p.query) && Serves(log, rows, p)
    ensures Total(SpotOrder())
    ensures var all := Sorted(SpotOrder(), Wanted(log, rows, p.query, PositionOf(p.from)));
            if p.next.None? then all == p.rows
            else all == p.rows + Sorted(SpotOrder(), Wanted(log, rows, p.query, PositionOf(p.next)))
  {
    assert Total(SpotOrder());
    var wanted := Wanted(log, rows, p.query, PositionOf(p.from));
    if p.next.None? {
      WholeList(SpotOrder(), wanted, p.query.pageSize);
    } else {
      PrefixRows(SpotOrder(), wanted, p.query.pageSize);
      PagesJoin(SpotOrder(), wanted, p.query.pageSize);
      var last := p.rows[|p.rows| - 1];
      assert last in p.rows;
      RestOfWanted(log, rows, p.query, PositionOf(p.from), last);
    }
  }

  lemma {:induction false} ChainServes(w: World, chain: seq<Page>, k: nat)
    requires PagesOk(w) && Finished(w.pages, chain) && k < |chain|
    requires Capture(chain[k].org, chain[k].checkpoint) in w.captured
    ensures Total(SpotOrder())
    ensures var p := chain[k];
            var rows := w.captured[Capture(p.org, p.checkpoint)];
            Joined(chain[k..]) == Sorted(SpotOrder(), Wanted(w.log, rows, p.query, PositionOf(p.from)))
    decreases |chain| - k
  {
    var p := chain[k];
    assert PageOk(w, p);
    hide Wanted;
    hide Serves;
    PageThenRest(w.log, w.captured[Capture(p.org, p.checkpoint)], p);
    assert chain[k..][1..] == chain[k + 1..];
    assert Joined(chain[k..]) == p.rows + Joined(chain[k + 1..]);
    if k + 1 == |chain| {
      assert Joined(chain[k + 1..]) == [];
    } else {
      assert Follows(chain[k], chain[k + 1]);
      ChainServes(w, chain, k + 1);
    }
  }
}

/** Exports and retention over whole runs. */
module AuditRetention {
  import opened Wrappers
  import opened Ordered
  import opened AuditExport
  import opened AuditSnapshot

  const DEFAULT_RETENTION_DAYS := 400
  const DAY_MS := 86_400_000

  ghost predicate Behaviour(ws: seq<World>, acts: seq<Action>) {
    && |ws| == |acts| + 1 && ws[0] == START
    && forall i | 0 <= i < |acts| :: Enabled(ws[i], acts[i]) && ws[i + 1] == Step(ws[i], acts[i])
  }

  lemma StartInv()
    ensures Inv(START)
  {
    assert START.requests == map[] && START.pages == {};
  }

  lemma {:induction false} RunKeeps(ws: seq<World>, acts: seq<Action>, i: nat)
    requires Behaviour(ws, acts) && i < |ws|
    ensures Inv(ws[i])
    decreases i
  {
    hide Step;
    hide Enabled;
    hide Inv;
    if i == 0 {
      StartInv();
    } else {
      RunKeeps(ws, acts, i - 1);
      StepKeeps(ws[i - 1], acts[i - 1]);
    }
  }

  lemma ExtendsJoins(a: World, b: World, c: World)
    requires TableOk(a) && Extends(a, b) && Extends(b, c)
    ensures Extends(a, c)
  {
  }

  lemma {:induction false} RunExtends(ws: seq<World>, acts: seq<Action>, i: nat, j: nat)
    requires Behaviour(ws, acts) && i <= j < |ws|
    ensures Inv(ws[i]) && Inv(ws[j]) && Extends(ws[i], ws[j])
    decreases j
  {
    RunKeeps(ws, acts, i);
    RunKeeps(ws, acts, j);
    hide Step;
    hide Enabled;
    if i < j {
      RunExtends(ws, acts, i, j - 1);
      RunKeeps(ws, acts, j - 1);
      StepKeeps(ws[j - 1], acts[j - 1]);
      ExtendsJoins(ws[i], ws[j - 1], ws[j]);
    }
  }

  // ---- Exports -----------------------------------------------------------------------------

  /** Step b began this export, and its checkpoint and snapshot are the ones of that moment. */
  ghost predicate Began(w: World, a: Action, org: string, handle: string, q: Query, c: Checkpoint) {
    a.Begin? && a.org == org && a.handle == handle && a.query == q && c == Checkpointed(w, org)
  }

  ghost predicate BeganIn(ws: seq<World>, acts: seq<Action>, i: nat, org: string, handle: string, q: Query, c: Checkpoint)
    requires Behaviour(ws, acts) && i < |ws|
  {
    exists b :: 0 <= b < i && Began(ws[b], acts[b], org, handle, q, c)
  }

  lemma NewRequest(w: World, a: Action, r: nat)
    requires Enabled(w, a) && r in Step(w, a).requests
    ensures var q := Step(w, a).requests[r];
            || (r in w.requests && SameStart(q, w.requests[r]))
            || q.from.Some?
            || Began(w, a, q.org, q.handle, q.query, q.checkpoint)
  {
  }

  predicate SameStart(q: Request, p: Request) {
    q.org == p.org && q.handle == p.handle && q.query == p.query && q.from == p.from && q.checkpoint == p.checkpoint
  }

  lemma NewPage(w: World, a: Action, p: Page)
    requires Enabled(w, a) && p in Step(w, a).pages && p !in w.pages
    ensures a.Answer? && a.r in w.requests
    ensures var q := w.requests[a.r];
            q.org == p.org && q.handle == p.handle && q.query == p.query && q.from == p.from && q.checkpoint == p.checkpoint
  {
  }

  lemma {:induction false} RequestsBegan(ws: seq<World>, acts: seq<Action>, i: nat, r: nat)
    requires Behaviour(ws, acts) && i < |ws| && r in ws[i].requests && ws[i].requests[r].from.None?
    ensures var q := ws[i].requests[r]; BeganIn(ws, acts, i, q.org, q.handle, q.query, q.checkpoint)
    decreases i
  {
    if i > 0 {
      assert Enabled(ws[i - 1], acts[i - 1]) && ws[i] == Step(ws[i - 1], acts[i - 1]);
      NewRequest(ws[i - 1], acts[i - 1], r);
      hide Step;
      hide Enabled;
      var q := ws[i].requests[r];
      if r in ws[i - 1].requests && SameStart(q, ws[i - 1].requests[r]) {
        RequestsBegan(ws, acts, i - 1, r);
        var b :| 0 <= b < i - 1 && Began(ws[b], acts[b], q.org, q.handle, q.query, q.checkpoint);
      }
    }
  }

  lemma {:induction false} PagesBegan(ws: seq<World>, acts: seq<Action>, i: nat, p: Page)
    requires Behaviour(ws, acts) && i < |ws| && p in ws[i].pages && p.from.None?
    ensures BeganIn(ws, acts, i, p.org, p.handle, p.query, p.checkpoint)
    decreases i
  {
    if i > 0 {
      assert Enabled(ws[i - 1], acts[i - 1]) && ws[i] == Step(ws[i - 1], acts[i - 1]);
      if p in ws[i - 1].pages {
        PagesBegan(ws, acts, i - 1, p);
      } else {
        NewPage(ws[i - 1], acts[i - 1], p);
        RequestsBegan(ws, acts, i - 1, acts[i - 1].r);
      }
      hide Step;
      hide Enabled;
      var b :| 0 <= b < i - 1 && Began(ws[b], acts[b], p.org, p.handle, p.query, p.checkpoint);
    }
  }

  lemma CaptureStays(ws: seq<World>, acts: seq<Action>, b: nat, i: nat)
    requires Behaviour(ws, acts) && b < i < |ws| && acts[b].Begin?
    ensures Inv(ws[b]) && Inv(ws[i]) && Extends(ws[b], ws[i])
    ensures var k := Capture(acts[b].org, Checkpointed(ws[b], acts[b].org));
            k in ws[i].captured && ws[i].captured[k] == OrgRows(ws[b], acts[b].org)
  {
    var k := Capture(acts[b].org, Checkpointed(ws[b], acts[b].org));
    assert Enabled(ws[b], acts[b]) && ws[b + 1] == Step(ws[b], acts[b]);
    assert k in ws[b + 1].captured && ws[b + 1].captured[k] == OrgRows(ws[b], acts[b].org);
    RunExtends(ws, acts, b + 1, i);
    RunExtends(ws, acts, b, i);
  }

  lemma InOrderIsChronological(served: seq<Spot>)
    requires InOrder(SpotOrder(), served)
    ensures Chronological(served)
  {
    forall i, j | 0 <= i < j < |served|
      ensures SpotBefore(served[i], served[j])
    {
      assert SpotOrder()(served[i], served[j]);
    }
  }

  lemma WantedIsAsked(w: World, org: string, q: Query, s: Spot)
    ensures s in Wanted(w.log, OrgRows(w, org), q, None) <==> s in w.live && s in w.log && w.log[s].org == org && Asked(s, w.log[s], q)
  {
  }

  lemma ServedFromCapture(w: World, later: World, chain: seq<Page>)
    requires Inv(later) && Extends(w, later) && Finished(later.pages, chain)
    requires var k := Capture(chain[0].org, chain[0].checkpoint);
             k in later.captured && later.captured[k] == OrgRows(w, chain[0].org)
    ensures ServedExactly(w, chain[0].org, chain[0].query, Joined(chain))
  {
    var p := chain[0];
    ChainServes(later, chain, 0);
    assert chain[0..] == chain;
    var rows := OrgRows(w, p.org);
    SelectStays(w.log, later.log, rows, p.query, None, 0);
    SortedRows(SpotOrder(), Wanted(w.log, rows, p.query, None));
    InOrderIsChronological(Joined(chain));
    forall s
      ensures s in Joined(chain) <==> s in w.live && s in w.log && w.log[s].org == p.org && Asked(s, w.log[s], p.query)
    {
      WantedIsAsked(w, p.org, p.query, s);
      hide *;
    }
  }

  /** An export that reached its last page has served exactly the matching rows that were there when
      it began, each once, in (at, ledger, id) order, whatever came and went in the meantime. */
  lemma ExportIsExact(ws: seq<World>, acts: seq<Action>, i: nat, chain: seq<Page>)
    requires Behaviour(ws, acts) && i < |ws| && Finished(ws[i].pages, chain)
    ensures exists b :: && 0 <= b < i && Began(ws[b], acts[b], chain[0].org, chain[0].handle, chain[0].query, chain[0].checkpoint)
                        && ServedExactly(ws[b], chain[0].org, chain[0].query, Joined(chain))
  {
    hide Step;
    hide Enabled;
    hide Inv;
    hide ServedExactly;
    var p := chain[0];
    assert p in chain;
    PagesBegan(ws, acts, i, p);
    var b :| 0 <= b < i && Began(ws[b], acts[b], p.org, p.handle, p.query, p.checkpoint);
    CaptureStays(ws, acts, b, i);
    ServedFromCapture(ws[b], ws[i], chain);
  }

  /** Oldest first; at the same time organization events before roster events, and each by its id. */
  predicate Chronological(served: seq<Spot>) {
    forall i, j | 0 <= i < j < |served| ::
      var a, b := served[i], served[j];
      || a.at < b.at
      || (a.at == b.at && a.ledger.OrgLedger? && b.ledger.RosterLedger?)
      || (a.at == b.at && a.ledger == b.ledger && a.id < b.id)
  }

  /** From `after` on, before `before`, and equal in whatever else was named. */
  predicate Asked(s: Spot, b: Body, q: Query) {
    && (q.after.Some? ==> q.after.value <= s.at) && (q.before.Some? ==> s.at < q.before.value)
    && (q.actor.Some? ==> q.actor.value == b.actor) && (q.event.Some? ==> q.event.value == b.event)
    && (q.ip.Some? ==> b.ip.Some? && q.ip.value == b.ip.value)
  }

  ghost predicate ServedExactly(w: World, org: string, q: Query, served: seq<Spot>) {
    && Chronological(served)
    && forall s :: s in served <==> s in w.live && s in w.log && w.log[s].org == org && Asked(s, w.log[s], q)
  }

  // ---- Acknowledgements --------------------------------------------------------------------

  predicate AtLeast(acks: map<string, Checkpoint>, org: string, c: Checkpoint) {
    org in acks && c.orgId <= acks[org].orgId && c.rosterId <= acks[org].rosterId
  }

  lemma AcksAdvance(w: World, a: Action, org: string, c: Checkpoint)
    requires Enabled(w, a) && AtLeast(w.acks, org, c)
    ensures AtLeast(Step(w, a).acks, org, c)
  {
    AcksChange(w, a);
    hide Step;
    hide Enabled;
  }

  /** Acknowledged ids never go back, in either ledger. */
  lemma {:induction false} AcksOnlyAdvance(ws: seq<World>, acts: seq<Action>, i: nat, j: nat, org: string)
    requires Behaviour(ws, acts) && i <= j < |ws| && org in ws[i].acks
    ensures AtLeast(ws[j].acks, org, ws[i].acks[org])
    decreases j
  {
    hide Step;
    hide Enabled;
    if i < j {
      AcksOnlyAdvance(ws, acts, i, j - 1, org);
      AcksAdvance(ws[j - 1], acts[j - 1], org, ws[i].acks[org]);
    }
  }

  /** An acknowledgement replaces the stored one unless it is behind it in one ledger or level in both. */
  lemma AcknowledgementTakesEffect(w: World, org: string, receipt: Checkpoint)
    requires Enabled(w, Acknowledge(org, receipt))
    ensures Step(w, Acknowledge(org, receipt)).acks ==
            if org in w.acks && (receipt.orgId < w.acks[org].orgId || receipt.rosterId < w.acks[org].rosterId ||
                                 (receipt.orgId == w.acks[org].orgId && receipt.rosterId == w.acks[org].rosterId))
            then w.acks else w.acks[org := receipt]
  {
  }

  // ---- Retention ---------------------------------------------------------------------------

  function Cutoff(w: World, org: string, evaluatedAt: int): nat {
    var at := evaluatedAt - (if org in w.days then w.days[org] else DEFAULT_RETENTION_DAYS) * DAY_MS;
    if at < 0 then 0 else at
  }

  function AcknowledgedId(w: World, org: string, l: Ledger): int {
    if org in w.acks then IdOf(w.acks[org], l) else -1
  }

  ghost predicate Old(w: World, org: string, s: Spot, evaluatedAt: int) {
    s in OrgRows(w, org) && s.at < Cutoff(w, org, evaluatedAt)
  }

  ghost predicate Eligible(w: World, org: string, s: Spot, evaluatedAt: int) {
    Old(w, org, s, evaluatedAt) && s.id <= AcknowledgedId(w, org, s.ledger) && org !in w.held
  }

  ghost predicate Unacknowledged(w: World, org: string, s: Spot, evaluatedAt: int) {
    Old(w, org, s, evaluatedAt) && (org !in w.acks || s.id > AcknowledgedId(w, org, s.ledger))
  }

  datatype LedgerReadiness = LedgerReadiness(through: Option<nat>, eligible: nat, unacknowledged: nat, ready: bool)

  datatype State = Held | Ready | ExportRequired

  datatype Readiness = Readiness(state: State, cutoff: nat, org: LedgerReadiness, roster: LedgerReadiness)

  ghost function OldIn(w: World, org: string, l: Ledger, evaluatedAt: int): set<Spot> {
    set s | s in OrgRows(w, org) && s.ledger == l && Old(w, org, s, evaluatedAt)
  }

  ghost function EligibleIn(w: World, org: string, l: Ledger, evaluatedAt: int): set<Spot> {
    set s | s in OrgRows(w, org) && s.ledger == l && Eligible(w, org, s, evaluatedAt)
  }

  ghost function UnacknowledgedIn(w: World, org: string, l: Ledger, evaluatedAt: int): set<Spot> {
    set s | s in OrgRows(w, org) && s.ledger == l && Unacknowledged(w, org, s, evaluatedAt)
  }

  ghost function ReadinessOf(w: World, org: string, l: Ledger, evaluatedAt: int): LedgerReadiness {
    var unacknowledged := |UnacknowledgedIn(w, org, l, evaluatedAt)|;
    LedgerReadiness(if org in w.acks then Some(IdOf(w.acks[org], l)) else None,
                    |EligibleIn(w, org, l, evaluatedAt)|, unacknowledged, org in w.acks && unacknowledged == 0)
  }

  ghost function Evaluate(w: World, org: string, evaluatedAt: int): Readiness {
    var o, r := ReadinessOf(w, org, OrgLedger, evaluatedAt), ReadinessOf(w, org, RosterLedger, evaluatedAt);
    Readiness(if org in w.held then Held else if o.ready && r.ready then Ready else ExportRequired,
              Cutoff(w, org, evaluatedAt), o, r)
  }

  /** Older than the organization keeps its events: the days its policy says, and 400 without one. */
  ghost predicate PastRetention(w: World, org: string, s: Spot, evaluatedAt: int) {
    && s in w.live && s in w.log && w.log[s].org == org
    && s.at + (if org in w.days then w.days[org] else 400) * 86_400_000 < evaluatedAt
  }

  lemma OldIsPastRetention(w: World, org: string, s: Spot, evaluatedAt: int)
    ensures Old(w, org, s, evaluatedAt) <==> PastRetention(w, org, s, evaluatedAt)
  {
  }

  lemma CutoffIsExact(w: World, org: string, evaluatedAt: int)
    ensures var kept := (if org in w.days then w.days[org] else 400) * 86_400_000;
            Evaluate(w, org, evaluatedAt).cutoff == if evaluatedAt < kept then 0 else evaluatedAt - kept
  {
  }

  /** Without a hold, the two counts split the rows before the cutoff; with one, nothing is eligible. */
  lemma CountsSplit(w: World, org: string, l: Ledger, evaluatedAt: int)
    ensures var r := ReadinessOf(w, org, l, evaluatedAt);
            if org in w.held then r.eligible == 0
            else r.eligible + r.unacknowledged == |OldIn(w, org, l, evaluatedAt)|
  {
    var e, u := EligibleIn(w, org, l, evaluatedAt), UnacknowledgedIn(w, org, l, evaluatedAt);
    if org in w.held {
      assert e == {};
    } else {
      assert e !! u && e + u == OldIn(w, org, l, evaluatedAt);
      assert |e + u| == |e| + |u|;
    }
  }

  /** A query without a range and without a condition, of any page size. */
  predicate NothingAsked(q: Query) {
    q == Query(None, None, None, None, None, q.pageSize)
  }

  /** A finished export of everything, whose receipt the organization has acknowledged. */
  ghost predicate Exported(w: World, org: string, s: Spot) {
    org in w.acks &&
    exists chain: seq<Page> :: && Finished(w.pages, chain) && chain[0].org == org && NothingAsked(chain[0].query)
                    && chain[0].checkpoint == w.acks[org] && s in Joined(chain)
  }

  lemma {:induction false} ChainIsOneExport(pages: set<Page>, chain: seq<Page>, k: nat)
    requires Chain(pages, chain) && k < |chain|
    ensures SameExport(chain[0], chain[k])
    decreases k
  {
    if k > 0 {
      ChainIsOneExport(pages, chain, k - 1);
      assert Follows(chain[k - 1], chain[k]);
    }
  }

  /** What an acknowledged checkpoint covers was served by the export behind it. */
  lemma AcknowledgedWasServed(w: World, org: string, s: Spot)
    requires Inv(w) && org in w.acks && s in Under(w, org, w.acks[org])
    ensures Exported(w, org, s)
  {
    var c := w.acks[org];
    assert ReceiptIssued(w.pages, org, c);
    var p :| p in w.pages && p.org == org && p.checkpoint == c && p.next.None? && Unfiltered(p.query);
    assert PageOk(w, p) && Reached(w.pages, p);
    var chain :| Chain(w.pages, chain) && chain[|chain| - 1] == p;
    ChainIsOneExport(w.pages, chain, |chain| - 1);
    ChainServes(w, chain, 0);
    assert chain[0..] == chain;
    var rows := w.captured[Capture(org, c)];
    assert SnapshotOk(w, org, c, rows);
    SortedRows(SpotOrder(), Wanted(w.log, rows, p.query, None));
    assert s in Wanted(w.log, rows, p.query, None);
  }

  lemma ServedIsCovered(w: World, org: string, s: Spot)
    requires Inv(w) && Exported(w, org, s)
    ensures s.id <= AcknowledgedId(w, org, s.ledger)
  {
    var chain: seq<Page> :| Finished(w.pages, chain) && chain[0].org == org && NothingAsked(chain[0].query)
                 && chain[0].checkpoint == w.acks[org] && s in Joined(chain);
    assert chain[0] in chain;
    assert PageOk(w, chain[0]);
    ChainServes(w, chain, 0);
    assert chain[0..] == chain;
    var rows := w.captured[Capture(org, w.acks[org])];
    assert SnapshotOk(w, org, w.acks[org], rows);
    SortedRows(SpotOrder(), Wanted(w.log, rows, chain[0].query, None));
  }

  lemma EligibleExactly(w: World, org: string, s: Spot, evaluatedAt: int)
    requires Inv(w)
    ensures Eligible(w, org, s, evaluatedAt) <==>
            PastRetention(w, org, s, evaluatedAt) && org !in w.held && Exported(w, org, s)
  {
    OldIsPastRetention(w, org, s, evaluatedAt);
    if Eligible(w, org, s, evaluatedAt) {
      AcknowledgedWasServed(w, org, s);
    }
    if Exported(w, org, s) {
      ServedIsCovered(w, org, s);
    }
  }

  /** A row may be deleted exactly if it is old enough, no hold is active, and an acknowledged export
      of everything has served it. */
  lemma RetentionSafety(ws: seq<World>, acts: seq<Action>, i: nat, org: string, s: Spot, evaluatedAt: int)
    requires Behaviour(ws, acts) && i < |ws|
    ensures Eligible(ws[i], org, s, evaluatedAt) <==>
            PastRetention(ws[i], org, s, evaluatedAt) && org !in ws[i].held && Exported(ws[i], org, s)
  {
    hide Inv;
    RunKeeps(ws, acts, i);
    EligibleExactly(ws[i], org, s, evaluatedAt);
  }

  ghost function Covered(w: World, org: string, l: Ledger, evaluatedAt: int): set<Spot> {
    set s | s in w.live && s.ledger == l && PastRetention(w, org, s, evaluatedAt) && Exported(w, org, s)
  }

  ghost function Uncovered(w: World, org: string, l: Ledger, evaluatedAt: int): set<Spot> {
    set s | s in w.live && s.ledger == l && PastRetention(w, org, s, evaluatedAt) && !Exported(w, org, s)
  }

  lemma UnacknowledgedExactly(w: World, org: string, s: Spot, evaluatedAt: int)
    requires Inv(w)
    ensures Unacknowledged(w, org, s, evaluatedAt) <==> PastRetention(w, org, s, evaluatedAt) && !Exported(w, org, s)
  {
    OldIsPastRetention(w, org, s, evaluatedAt);
    if Exported(w, org, s) {
      ServedIsCovered(w, org, s);
    } else if PastRetention(w, org, s, evaluatedAt) && org in w.acks && s.id <= AcknowledgedId(w, org, s.ledger) {
      AcknowledgedWasServed(w, org, s);
    }
  }

  /** The counts of one ledger: rows past their retention that an acknowledged export has served, none
      of them under a hold, and rows past their retention that none has. */
  lemma CountsAreExact(w: World, org: string, l: Ledger, evaluatedAt: int)
    requires Inv(w)
    ensures var r := ReadinessOf(w, org, l, evaluatedAt);
            && r.eligible == (if org in w.held then 0 else |Covered(w, org, l, evaluatedAt)|)
            && r.unacknowledged == |Uncovered(w, org, l, evaluatedAt)|
            && (r.ready <==> org in w.acks && Uncovered(w, org, l, evaluatedAt) == {})
            && r.through == (if org !in w.acks then None
                             else Some(if l.OrgLedger? then w.acks[org].orgId else w.acks[org].rosterId))
  {
    hide Inv;
    hide Eligible;
    hide Unacknowledged;
    hide Exported;
    hide PastRetention;
    forall s
      ensures Eligible(w, org, s, evaluatedAt) <==> PastRetention(w, org, s, evaluatedAt) && org !in w.held && Exported(w, org, s)
      ensures Unacknowledged(w, org, s, evaluatedAt) <==> PastRetention(w, org, s, evaluatedAt) && !Exported(w, org, s)
    {
      EligibleExactly(w, org, s, evaluatedAt);
      UnacknowledgedExactly(w, org, s, evaluatedAt);
    }
    assert forall s | PastRetention(w, org, s, evaluatedAt) :: s in OrgRows(w, org) by {
      PastIsStored(w, org, evaluatedAt);
    }
    assert UnacknowledgedIn(w, org, l, evaluatedAt) == Uncovered(w, org, l, evaluatedAt);
    assert EligibleIn(w, org, l, evaluatedAt) == if org in w.held then {} else Covered(w, org, l, evaluatedAt);
  }

  lemma PastIsStored(w: World, org: string, evaluatedAt: int)
    ensures forall s | PastRetention(w, org, s, evaluatedAt) :: s in OrgRows(w, org)
  {
  }

  /** "Held" is exactly a hold; "ready" is exactly: no hold, an acknowledged export, and every row past
      its retention was served by it. */
  lemma ReadyMeansCovered(w: World, org: string, evaluatedAt: int)
    requires Inv(w)
    ensures var state := Evaluate(w, org, evaluatedAt).state;
            && (state == Held <==> org in w.held)
            && (state == Ready <==>
                  && org in w.acks && org !in w.held
                  && forall s | s in w.live && PastRetention(w, org, s, evaluatedAt) :: Exported(w, org, s))
  {
    CountsAreExact(w, org, OrgLedger, evaluatedAt);
    CountsAreExact(w, org, RosterLedger, evaluatedAt);
    hide Inv;
    hide Exported;
    hide PastRetention;
    hide ReadinessOf;
    var o, r := Uncovered(w, org, OrgLedger, evaluatedAt), Uncovered(w, org, RosterLedger, evaluatedAt);
    if o == {} && r == {} {
      forall s | s in w.live && PastRetention(w, org, s, evaluatedAt)
        ensures Exported(w, org, s)
      {
        assert s !in o && s !in r;
      }
    }
  }
}

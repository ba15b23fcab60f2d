/** The audit export: pages of two merged ledgers, read under a signed cursor while the tables change. */
module AuditExport {
  import opened Wrappers
  import opened Ordered

  const MAX_PAGE_SIZE := 500

  datatype Ledger = OrgLedger | RosterLedger

  /** Where a row stands in an export. Rows are never rewritten, so a spot identifies a row for good. */
  datatype Spot = Spot(at: nat, ledger: Ledger, id: nat)

  /** The columns an export filters on; `rest` is everything else it shows. */
  datatype Body = Body(org: string, actor: string, event: string, ip: Option<string>, rest: string)

  datatype Query = Query(
    after: Option<nat>, before: Option<nat>,
    actor: Option<string>, event: Option<string>, ip: Option<string>, pageSize: nat)

  datatype Checkpoint = Checkpoint(orgId: nat, orgCount: nat, rosterId: nat, rosterCount: nat)

  /** The signed payload. Its filter digest stands for the filters themselves. */
  datatype Cursor = Cursor(org: string, handle: string, query: Query, checkpoint: Checkpoint, position: Spot)

  datatype Reading = Reading(rows: seq<Spot>, seen: set<Spot>)

  /** A request between two database reads. */
  datatype Request = Request(
    org: string, handle: string, query: Query, from: Option<Cursor>, checkpoint: Checkpoint, reading: Option<Reading>)

  /** A page that was answered. */
  datatype Page = Page(
    org: string, handle: string, query: Query, from: Option<Cursor>, checkpoint: Checkpoint,
    rows: seq<Spot>, next: Option<Cursor>)

  datatype Capture = Capture(org: string, checkpoint: Checkpoint)

  /** `live` are the rows in the tables; `log` remembers every row that ever was, `captured` which
      rows were live when a checkpoint was taken, and `pages` every answer. */
  datatype World = World(
    live: set<Spot>, log: map<Spot, Body>, lastOrg: nat, lastRoster: nat,
    captured: map<Capture, set<Spot>>, requests: map<nat, Request>, pages: set<Page>,
    acks: map<string, Checkpoint>, held: set<string>, days: map<string, nat>)

  const START := World({}, map[], 0, 0, map[], map[], {}, map[], {}, map[])

  // ---- Order and selection -----------------------------------------------------------------

  function LedgerRank(l: Ledger): nat {
    if l.OrgLedger? then 0 else 1
  }

  predicate SpotBefore(a: Spot, b: Spot) {
    a.at < b.at || (a.at == b.at && (
      LedgerRank(a.ledger) < LedgerRank(b.ledger) || (a.ledger == b.ledger && a.id < b.id)))
  }

  function SpotOrder(): (Spot, Spot) -> bool {
    (a, b) => SpotBefore(a, b)
  }

  predicate ValidQuery(q: Query) {
    && 1 <= q.pageSize <= MAX_PAGE_SIZE
    && !(q.after.Some? && q.before.Some? && q.after.value >= q.before.value)
  }

  predicate Unfiltered(q: Query) {
    q.after.None? && q.before.None? && q.actor.None? && q.event.None? && q.ip.None?
  }

  predicate Matches(s: Spot, b: Body, q: Query) {
    && (q.after.None? || s.at >= q.after.value) && (q.before.None? || s.at < q.before.value)
    && (q.actor.None? || b.actor == q.actor.value) && (q.event.None? || b.event == q.event.value)
    && (q.ip.None? || b.ip == q.ip)
  }

  function IdOf(c: Checkpoint, l: Ledger): nat {
    if l.OrgLedger? then c.orgId else c.rosterId
  }

  function Last(w: World, l: Ledger): nat {
    if l.OrgLedger? then w.lastOrg else w.lastRoster
  }

  ghost function InLedger(rows: set<Spot>, l: Ledger): set<Spot> {
    set s | s in rows && s.ledger == l
  }

  ghost function OrgRows(w: World, org: string): set<Spot> {
    set s | s in w.live && s in w.log && w.log[s].org == org
  }

  /** The organization's rows up to a checkpoint. */
  ghost function Under(w: World, org: string, c: Checkpoint): set<Spot> {
    set s | s in OrgRows(w, org) && s.id <= IdOf(c, s.ledger)
  }

  ghost function Wanted(log: map<Spot, Body>, rows: set<Spot>, q: Query, from: Option<Spot>): set<Spot> {
    set s | s in rows && s in log && Matches(s, log[s], q) && (from.None? || SpotBefore(from.value, s))
  }

  ghost function Select(log: map<Spot, Body>, rows: set<Spot>, q: Query, from: Option<Spot>, limit: nat): seq<Spot> {
    assert Total(SpotOrder());
    Prefix(SpotOrder(), Wanted(log, rows, q, from), limit)
  }

  function PositionOf(from: Option<Cursor>): Option<Spot> {
    if from.Some? then Some(from.value.position) else None
  }

  ghost function MaxId(rows: set<Spot>): (m: nat)
    ensures forall s | s in rows :: s.id <= m
    ensures if rows == {} then m == 0 else exists s :: s in rows && s.id == m
  {
    if rows == {} then 0
    else
      var s :| s in rows;
      var rest := MaxId(rows - {s});
      assert forall o | o in rows :: o == s || o in rows - {s};
      if rest > s.id then rest else s.id
  }

  ghost function Checkpointed(w: World, org: string): Checkpoint {
    var o, r := InLedger(OrgRows(w, org), OrgLedger), InLedger(OrgRows(w, org), RosterLedger);
    Checkpoint(MaxId(o), |o|, MaxId(r), |r|)
  }

  // ---- Tokens ------------------------------------------------------------------------------

  /** A signature verifies exactly when the relay issued the token. */
  ghost predicate Issued(pages: set<Page>, c: Cursor) {
    exists p :: p in pages && p.next == Some(c)
  }

  ghost predicate Accepts(w: World, c: Cursor, org: string, handle: string, q: Query) {
    Issued(w.pages, c) && c.org == org && c.handle == handle && c.query == q
  }

  /** A completion receipt is part of the last page of an export that filtered nothing out. */
  ghost predicate ReceiptIssued(pages: set<Page>, org: string, c: Checkpoint) {
    exists p :: p in pages && p.org == org && p.checkpoint == c && p.next.None? && Unfiltered(p.query)
  }

  // ---- Steps -------------------------------------------------------------------------------

  datatype Action =
    | Append(spot: Spot, body: Body)
    | Delete(gone: set<Spot>)
    | Begin(r: nat, org: string, handle: string, query: Query)
    | Resume(r: nat, org: string, handle: string, query: Query, token: Cursor)
    | ReadPage(r: nat)
    | Answer(r: nat)
    | Abandon(r: nat)
    | Acknowledge(org: string, receipt: Checkpoint)
    | CreateHold(org: string)
    | ReleaseHold(org: string)
    | SetPolicy(org: string, retentionDays: nat)

  /** Rows come and go at any time; their ids come from AUTOINCREMENT, so they are never reused. */
  ghost predicate Enabled(w: World, a: Action) {
    match a
    case Append(s, _) => s.id > Last(w, s.ledger)
    case Begin(r, _, _, q) => r !in w.requests && ValidQuery(q)
    case Resume(r, org, handle, q, token) => r !in w.requests && ValidQuery(q) && Accepts(w, token, org, handle, q)
    case ReadPage(r) => r in w.requests && w.requests[r].reading.None?
    case Answer(r) => r in w.requests && w.requests[r].reading.Some?
    case Abandon(r) => r in w.requests
    case Acknowledge(org, receipt) => ReceiptIssued(w.pages, org, receipt)
    case CreateHold(org) => org !in w.held
    case _ => true
  }

  ghost predicate Complete(w: World, org: string, c: Checkpoint) {
    && |InLedger(Under(w, org, c), OrgLedger)| == c.orgCount
    && |InLedger(Under(w, org, c), RosterLedger)| == c.rosterCount
  }

  /** The answer to a request whose rows were read: a page cut to size, and a cursor if there is more. */
  function PageOf(r: Request): Page
    requires r.reading.Some?
  {
    var rows := r.reading.value.rows;
    var n := r.query.pageSize;
    var events := if |rows| > n then rows[..n] else rows;
    var next := if |rows| > n && events != []
                then Some(Cursor(r.org, r.handle, r.query, r.checkpoint, events[|events| - 1])) else None;
    Page(r.org, r.handle, r.query, r.from, r.checkpoint, events, next)
  }

  function Upsert(acks: map<string, Checkpoint>, org: string, c: Checkpoint): map<string, Checkpoint> {
    if org !in acks then acks[org := c]
    else
      var stored := acks[org];
      if c.orgId >= stored.orgId && c.rosterId >= stored.rosterId &&
         (c.orgId > stored.orgId || c.rosterId > stored.rosterId)
      then acks[org := c] else acks
  }

  ghost function Step(w: World, a: Action): World
    requires Enabled(w, a)
  {
    match a
    case Append(s, b) =>
      w.(live := w.live + {s}, log := w.log[s := b],
         lastOrg := if s.ledger.OrgLedger? then s.id else w.lastOrg,
         lastRoster := if s.ledger.RosterLedger? then s.id else w.lastRoster)
    case Delete(gone) => w.(live := w.live - gone)
    case Begin(r, org, handle, q) =>
      var c := Checkpointed(w, org);
      w.(captured := w.captured[Capture(org, c) := OrgRows(w, org)],
         requests := w.requests[r := Request(org, handle, q, None, c, None)])
    case Resume(r, org, handle, q, token) =>
      w.(requests := w.requests[r := Request(org, handle, q, Some(token), token.checkpoint, None)])
    case ReadPage(r) =>
      var q := w.requests[r];
      var seen := Under(w, q.org, q.checkpoint);
      var rows := Select(w.log, seen, q.query, PositionOf(q.from), q.query.pageSize + 1);
      w.(requests := w.requests[r := q.(reading := Some(Reading(rows, seen)))])
    case Answer(r) =>
      var q := w.requests[r];
      w.(requests := w.requests - {r},
         pages := if Complete(w, q.org, q.checkpoint) then w.pages + {PageOf(q)} else w.pages)
    case Abandon(r) => w.(requests := w.requests - {r})
    case Acknowledge(org, receipt) => w.(acks := Upsert(w.acks, org, receipt))
    case CreateHold(org) => w.(held := w.held + {org})
    case ReleaseHold(org) => w.(held := w.held - {org})
    case SetPolicy(org, days) => w.(days := w.days[org := days])
  }

  // ---- Invariants --------------------------------------------------------------------------

  ghost predicate TableOk(w: World) {
    && (forall s | s in w.live :: s in w.log)
    && (forall s | s in w.log :: 1 <= s.id <= Last(w, s.ledger))
    && (forall a, b | a in w.log && b in w.log && a.ledger == b.ledger && a.id == b.id :: a == b)
  }

  /** A checkpoint still says how many rows there were, and nothing new ever shows up under it. */
  ghost predicate SnapshotOk(w: World, org: string, c: Checkpoint, rows: set<Spot>) {
    && (forall s | s in rows :: s in w.log && w.log[s].org == org && s.id <= IdOf(c, s.ledger))
    && |InLedger(rows, OrgLedger)| == c.orgCount && |InLedger(rows, RosterLedger)| == c.rosterCount
    && c.orgId <= w.lastOrg && c.rosterId <= w.lastRoster
    && Under(w, org, c) <= rows
  }

  ghost predicate SnapshotsOk(w: World) {
    forall k | k in w.captured :: SnapshotOk(w, k.org, k.checkpoint, w.captured[k])
  }

  ghost predicate ReadingOk(w: World, r: Request, rows: set<Spot>) {
    r.reading.Some? ==>
      && Under(w, r.org, r.checkpoint) <= r.reading.value.seen <= rows
      && r.reading.value.rows == Select(w.log, r.reading.value.seen, r.query, PositionOf(r.from), r.query.pageSize + 1)
  }

  ghost predicate RequestOk(w: World, r: Request) {
    && ValidQuery(r.query) && Capture(r.org, r.checkpoint) in w.captured
    && ReadingOk(w, r, w.captured[Capture(r.org, r.checkpoint)])
    && (r.from.Some? ==> Accepts(w, r.from.value, r.org, r.handle, r.query) && r.from.value.checkpoint == r.checkpoint)
  }

  ghost predicate RequestsOk(w: World) {
    forall r | r in w.requests :: RequestOk(w, w.requests[r])
  }

  /** A page holds the first rows that were wanted of the snapshot, and points on exactly if there are more. */
  ghost predicate Serves(log: map<Spot, Body>, rows: set<Spot>, p: Page) {
    && p.rows == Select(log, rows, p.query, PositionOf(p.from), p.query.pageSize)
    && if |Wanted(log, rows, p.query, PositionOf(p.from))| <= p.query.pageSize then p.next.None?
       else p.rows != [] && p.next == Some(Cursor(p.org, p.handle, p.query, p.checkpoint, p.rows[|p.rows| - 1]))
  }

  ghost predicate PageOk(w: World, p: Page) {
    && ValidQuery(p.query) && Capture(p.org, p.checkpoint) in w.captured
    && Serves(w.log, w.captured[Capture(p.org, p.checkpoint)], p)
  }

  ghost predicate PagesOk(w: World) {
    forall p | p in w.pages :: PageOk(w, p)
  }

  /** Pages that a client can have fetched one after the other. */
  ghost predicate Chain(pages: set<Page>, chain: seq<Page>) {
    && chain != [] && (forall p | p in chain :: p in pages)
    && chain[0].from.None?
    && forall i, j | 0 <= i < j < |chain| && j == i + 1 :: Follows(chain[i], chain[j])
  }

  predicate Follows(p: Page, q: Page) {
    p.next.Some? && q.from == p.next && SameExport(p, q)
  }

  predicate SameExport(p: Page, q: Page) {
    p.org == q.org && p.handle == q.handle && p.query == q.query && p.checkpoint == q.checkpoint
  }

  ghost predicate Reached(pages: set<Page>, p: Page) {
    exists chain :: Chain(pages, chain) && chain[|chain| - 1] == p
  }

  ghost predicate PagesReached(w: World) {
    forall p | p in w.pages :: Reached(w.pages, p)
  }

  ghost predicate AcksOk(w: World) {
    forall org | org in w.acks :: ReceiptIssued(w.pages, org, w.acks[org])
  }

  ghost predicate Inv(w: World) {
    TableOk(w) && SnapshotsOk(w) && RequestsOk(w) && PagesOk(w) && PagesReached(w) && AcksOk(w)
  }
}

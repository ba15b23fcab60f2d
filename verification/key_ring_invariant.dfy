/** What holds of the key files, and of what every process has read of them, in any state. */
module KeyRingInvariant {
  import opened Wrappers
  import opened KeyRing

  // ---- Files -------------------------------------------------------------------------------

  ghost predicate Superseded(r: Ring, e: nat) {
    exists h :: h > e && h in r.elected
  }

  predicate IsElected(r: Ring, e: nat, pair: Pair, link: Option<Hash>) {
    e in r.elected && r.elected[e] == Elected(pair, link)
  }

  ghost predicate StateOk(r: Ring, e: nat, c: Content) {
    && e >= 2 && (c.Active? || c.Retired?) && IsElected(r, e, c.pair, Some(c.prev))
    && (c.Retired? ==> Superseded(r, e) && e in r.kept)
  }

  predicate RetainedOk(r: Ring, e: nat, c: Content) {
    c.Retained? && IsElected(r, e, c.pair, c.link)
  }

  predicate PublishedOk(r: Ring, e: nat, c: Content) {
    c.Published? && IsElected(r, e, c.pair, c.link) && e in r.hashes && r.hashes[e] == c.hash
  }

  ghost predicate ContentOk(r: Ring, f: FileId, c: Content) {
    match f
    case StateFile(e) => StateOk(r, e, c)
    case RetainedFile(e) => RetainedOk(r, e, c) && e in r.kept
    case PublishedFile(e) => PublishedOk(r, e, c)
  }

  /** A file that is created but not written is locked, and its slot has not been won yet. */
  predicate PartialOk(r: Ring, f: FileId) {
    && f in r.locks
    && (f.StateFile? ==> f.epoch >= 2 && f.epoch !in r.elected)
    && (f.PublishedFile? ==> f.epoch !in r.hashes)
  }

  ghost predicate FilesOk(r: Ring) {
    forall f | f in r.files :: if r.files[f].None? then PartialOk(r, f) else ContentOk(r, f, r.files[f].value)
  }

  /** What was won stays on disk. */
  predicate WinnersOk(r: Ring) {
    && (forall e | e in r.elected :: e == 1 || (e >= 2 && Full(r, StateFile(e))))
    && (forall e | e in r.hashes :: e in r.elected && Full(r, PublishedFile(e)))
    && (forall e | e in r.kept :: e in r.elected)
  }

  ghost predicate RootOk(r: Ring, root: Root) {
    if root.Initial? then IsElected(r, 1, root.pair, None) else Superseded(r, 1) && 1 in r.kept
  }

  /** Every epoch after the first was linked to the published hash of the one before it. */
  predicate ChainOk(r: Ring) {
    && 1 in r.elected && r.elected[1].link.None?
    && forall e | e in r.elected && e != 1 :: e - 1 in r.hashes && r.elected[e].link == Some(r.hashes[e - 1])
  }

  ghost predicate RingOk(r: Ring) {
    FilesOk(r) && WinnersOk(r) && RootOk(r, r.root) && ChainOk(r)
  }

  // ---- Processes ---------------------------------------------------------------------------

  predicate Genuine(r: Ring, k: Keys) {
    && IsElected(r, k.epoch, k.pair, k.link)
    && (k.published.Some? ==> k.epoch in r.hashes && r.hashes[k.epoch] == k.published.value)
  }

  predicate Covers(floor: set<nat>, k: Keys) {
    forall e | e in floor :: e <= k.epoch
  }

  ghost predicate Retirable(r: Ring, k: Keys) {
    Genuine(r, k) && Superseded(r, k.epoch)
  }

  ghost predicate LeftOk(r: Ring, left: seq<Keys>) {
    forall k | k in left :: Retirable(r, k)
  }

  ghost predicate BackOk(r: Ring, floor: set<nat>, back: Back) {
    back.ToLoad? ==> Genuine(r, back.current) && Covers(floor, back.current) && LeftOk(r, back.left)
  }

  ghost predicate ThenOk(r: Ring, floor: set<nat>, next: Then) {
    match next
    case Readback(keys, back) => Retirable(r, keys) && BackOk(r, floor, back)
    case CheckElection(base) => Genuine(r, base) && base.published.Some?
    case CheckMarker(keys, _) => Genuine(r, keys)
  }

  /** What a process is about to write is what its slot may hold. */
  ghost predicate CandidateOk(r: Ring, f: FileId, c: Content) {
    match f
    case StateFile(e) => e >= 2 && c.Active? && e - 1 in r.hashes && r.hashes[e - 1] == c.prev
    case RetainedFile(e) => RetainedOk(r, e, c)
    case PublishedFile(e) => c.Published? && IsElected(r, e, c.pair, c.link)
  }

  predicate GotRetained(r: Ring, got: map<nat, Content>) {
    forall e | e in got :: RetainedOk(r, e, got[e])
  }

  ghost predicate GotStates(r: Ring, floor: set<nat>, todo: set<nat>, got: map<nat, Content>) {
    && (forall e | e in got :: StateOk(r, e, got[e]))
    && (forall e | e in floor :: e == 1 || e in todo || e in got)
  }

  ghost predicate PcOk(r: Ring, floor: set<nat>, pc: Pc) {
    match pc
    case ReadRoot(_) => true
    case ListStates(_, root) => RootOk(r, root)
    case ReadStates(_, root, todo, got) => RootOk(r, root) && GotStates(r, floor, todo, got)
    case RetireNext(_, current, left) => Genuine(r, current) && Covers(floor, current) && LeftOk(r, left)
    case ReadPublished(_, current) => Genuine(r, current) && Covers(floor, current)
    case TakeLock(f, c, next) => CandidateOk(r, f, c) && ThenOk(r, floor, next)
    case OpenFile(f, c, next) => CandidateOk(r, f, c) && ThenOk(r, floor, next)
    case WriteFile(f, c, next) => CandidateOk(r, f, c) && ThenOk(r, floor, next)
    case DropLock(_, next) => ThenOk(r, floor, next)
    case WaitForSlot(_, next) => ThenOk(r, floor, next)
    case Installed(next) => ThenOk(r, floor, next)
    case Inspect(keys, back) => Retirable(r, keys) && BackOk(r, floor, back) && keys.epoch in r.kept
    case Scrub(keys, back) => Retirable(r, keys) && BackOk(r, floor, back) && keys.epoch in r.kept
    case ListRetained(base, _) => Genuine(r, base)
    case ReadRetained(base, _, _, got) => Genuine(r, base) && GotRetained(r, got)
    case LoadJobs(base, _) => Genuine(r, base)
    case Evict(base, oldest, jobs, now) => Genuine(r, base) && !Needed(jobs, oldest, now)
    case Extend(base) => Genuine(r, base)
    case Done(keys, asked) => Genuine(r, keys) && if asked.Some? then keys.epoch == asked.value else Covers(floor, keys)
  }

  predicate Owns(pc: Pc, f: FileId) {
    match pc
    case OpenFile(g, _, _) => f == g
    case WriteFile(g, _, _) => f == g
    case DropLock(g, _) => f == g
    case _ => false
  }

  /** Whoever holds a lock knows whether the file behind it is written. */
  predicate HolderOk(r: Ring, pc: Pc) {
    match pc
    case OpenFile(f, _, _) => f in r.locks && (f in r.files ==> Full(r, f))
    case WriteFile(f, _, _) => f in r.locks && (f in r.files ==> !Full(r, f)) && (f.RetainedFile? || f in r.files)
    case DropLock(f, _) => f in r.locks && (f in r.files ==> Full(r, f))
    case _ => true
  }

  ghost predicate ProcessesOk(w: World) {
    forall p | p in w.procs ::
      PcOk(w.ring, w.procs[p].floor, w.procs[p].pc) && HolderOk(w.ring, w.procs[p].pc) &&
      w.procs[p].floor <= w.ring.elected.Keys
  }

  ghost predicate LocksOk(w: World) {
    forall p, q, f | p in w.procs && q in w.procs && Owns(w.procs[p].pc, f) && Owns(w.procs[q].pc, f) :: p == q
  }

  ghost predicate Inv(w: World) {
    RingOk(w.ring) && ProcessesOk(w) && LocksOk(w)
  }

  // ---- What no step takes back -------------------------------------------------------------

  predicate Extends(a: Ring, b: Ring) {
    && (forall e | e in a.elected :: e in b.elected && b.elected[e] == a.elected[e])
    && (forall e | e in a.hashes :: e in b.hashes && b.hashes[e] == a.hashes[e])
    && a.kept <= b.kept
  }

  lemma SupersededStays(a: Ring, b: Ring, e: nat)
    requires Extends(a, b) && Superseded(a, e)
    ensures Superseded(b, e)
  {
    var h :| h > e && h in a.elected;
    assert h in b.elected;
  }

  lemma RootStays(a: Ring, b: Ring, root: Root)
    requires Extends(a, b) && RootOk(a, root)
    ensures RootOk(b, root)
  {
    if root.Stable? {
      SupersededStays(a, b, 1);
    }
  }

  lemma StateStays(a: Ring, b: Ring, e: nat, c: Content)
    requires Extends(a, b) && StateOk(a, e, c)
    ensures StateOk(b, e, c)
  {
    if c.Retired? {
      SupersededStays(a, b, e);
    }
  }

  lemma LeftStays(a: Ring, b: Ring, left: seq<Keys>)
    requires Extends(a, b) && LeftOk(a, left)
    ensures LeftOk(b, left)
  {
    forall k | k in left
      ensures Retirable(b, k)
    {
      SupersededStays(a, b, k.epoch);
    }
  }

  lemma BackStays(a: Ring, b: Ring, floor: set<nat>, back: Back)
    requires Extends(a, b) && BackOk(a, floor, back)
    ensures BackOk(b, floor, back)
  {
    if back.ToLoad? {
      LeftStays(a, b, back.left);
    }
  }

  lemma ThenStays(a: Ring, b: Ring, floor: set<nat>, next: Then)
    requires Extends(a, b) && ThenOk(a, floor, next)
    ensures ThenOk(b, floor, next)
  {
    if next.Readback? {
      SupersededStays(a, b, next.keys.epoch);
      BackStays(a, b, floor, next.back);
    }
  }

  lemma GotStatesStay(a: Ring, b: Ring, floor: set<nat>, todo: set<nat>, got: map<nat, Content>)
    requires Extends(a, b) && GotStates(a, floor, todo, got)
    ensures GotStates(b, floor, todo, got)
  {
    forall e | e in got
      ensures StateOk(b, e, got[e])
    {
      StateStays(a, b, e, got[e]);
    }
  }

  /** What one process knows is not spoiled by what another does. */
  lemma PcStays(a: Ring, b: Ring, floor: set<nat>, pc: Pc)
    requires Extends(a, b) && PcOk(a, floor, pc)
    ensures PcOk(b, floor, pc)
  {
    match pc
    case ListStates(_, root) => RootStays(a, b, root);
    case ReadStates(_, root, todo, got) =>
      RootStays(a, b, root);
      GotStatesStay(a, b, floor, todo, got);
    case RetireNext(_, _, left) => LeftStays(a, b, left);
    case TakeLock(_, _, next) => ThenStays(a, b, floor, next);
    case OpenFile(_, _, next) => ThenStays(a, b, floor, next);
    case WriteFile(_, _, next) => ThenStays(a, b, floor, next);
    case DropLock(_, next) => ThenStays(a, b, floor, next);
    case WaitForSlot(_, next) => ThenStays(a, b, floor, next);
    case Installed(next) => ThenStays(a, b, floor, next);
    case Inspect(keys, back) =>
      SupersededStays(a, b, keys.epoch);
      BackStays(a, b, floor, back);
    case Scrub(keys, back) =>
      SupersededStays(a, b, keys.epoch);
      BackStays(a, b, floor, back);
    case _ =>
  }

  lemma FilesStay(a: Ring, b: Ring, f: FileId)
    requires Extends(a, b) && f in a.files && a.files[f].Some? && ContentOk(a, f, a.files[f].value)
    ensures ContentOk(b, f, a.files[f].value)
  {
    if f.StateFile? {
      StateStays(a, b, f.epoch, a.files[f].value);
    }
  }
}

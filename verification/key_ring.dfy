/** The encryption-key files of one identity, shared by processes that may stop between any two file
    operations. */
module KeyRing {
  import opened Wrappers

  const MAX_LIVE_EPOCHS := 8
  const RETAINED_KEY_TTL := 72 * 60 * 60_000 + 360_000 + 120_000

  /** A key pair is a number. Where only the public half is stored the number stands for that. */
  type Pair = nat

  type Hash = nat

  datatype Root = Initial(pair: Pair) | Stable

  datatype FileId = StateFile(epoch: nat) | RetainedFile(epoch: nat) | PublishedFile(epoch: nat)

  datatype Content =
    | Active(pair: Pair, prev: Hash)
    | Retired(pair: Pair, prev: Hash)
    | Retained(pair: Pair, link: Option<Hash>, until: int)
    | Published(pair: Pair, link: Option<Hash>, hash: Hash)

  datatype Elected = Elected(pair: Pair, link: Option<Hash>)

  /** `files` holds None for a file that was created but not yet written. The last three fields
      remember what was installed: the key of each epoch, its first published hash, and the epochs
      of which a retained copy has existed. */
  datatype Ring = Ring(
    root: Root, files: map<FileId, Option<Content>>, locks: set<FileId>,
    elected: map<nat, Elected>, hashes: map<nat, Hash>, kept: set<nat>)

  datatype Keys = Keys(epoch: nat, pair: Pair, link: Option<Hash>, published: Option<Hash>)

  datatype Job = Job(epoch: nat, expiresAt: int)

  /** What a process will do with the keys it is loading. */
  datatype Purpose = ToUse | ToDecrypt(epoch: nat) | ToRotate | LostElection(target: nat)

  datatype Look = ForEviction | ForDecryption(epoch: nat)

  /** Where a retirement returns to. */
  datatype Back = ToLoad(purpose: Purpose, current: Keys, left: seq<Keys>) | ToRotation

  /** What follows an installation, whoever won it. */
  datatype Then = Readback(keys: Keys, back: Back) | CheckElection(base: Keys) | CheckMarker(keys: Keys, hash: Hash)

  /** The file operation a process is about to do. */
  datatype Pc =
    | ReadRoot(purpose: Purpose)
    | ListStates(purpose: Purpose, root: Root)
    | ReadStates(purpose: Purpose, root: Root, todo: set<nat>, got: map<nat, Content>)
    | RetireNext(purpose: Purpose, current: Keys, left: seq<Keys>)
    | ReadPublished(purpose: Purpose, current: Keys)
    | TakeLock(file: FileId, content: Content, next: Then)
    | OpenFile(file: FileId, content: Content, next: Then)
    | WriteFile(file: FileId, content: Content, next: Then)
    | DropLock(file: FileId, next: Then)
    | WaitForSlot(file: FileId, next: Then)
    | Installed(next: Then)
    | Inspect(keys: Keys, back: Back)
    | Scrub(keys: Keys, back: Back)
    | ListRetained(base: Keys, look: Look)
    | ReadRetained(base: Keys, look: Look, todo: set<nat>, got: map<nat, Content>)
    | LoadJobs(base: Keys, oldest: nat)
    | Evict(base: Keys, oldest: nat, jobs: set<Job>, now: int)
    | Extend(base: Keys)
    | Done(keys: Keys, asked: Option<nat>)

  /** `floor` remembers the epochs that were installed when the current load began. */
  datatype Process = Process(pc: Pc, floor: set<nat>)

  datatype World = World(ring: Ring, procs: map<nat, Process>)

  /** What a step takes from outside: which file it reads next, the clock, a new key pair, the jobs file. */
  datatype Input = Input(epoch: nat, now: int, pair: Pair, jobs: set<Job>)

  datatype Action = Begin(p: nat, purpose: Purpose) | Remember(p: nat, hash: Hash) | Advance(p: nat, input: Input) | Crash(p: nat)

  function AfterSetup(pair: Pair): World {
    World(Ring(Initial(pair), map[], {}, map[1 := Elected(pair, None)], map[], {}), map[])
  }

  /** Where an operation stands after one step; no outcome means that it threw. */
  datatype Outcome = Outcome(ring: Ring, pc: Pc)

  function Go(r: Ring, pc: Pc): Option<Outcome> {
    Some(Outcome(r, pc))
  }

  // ---- loadKeys ----------------------------------------------------------------------------

  predicate Full(r: Ring, f: FileId) {
    f in r.files && r.files[f].Some?
  }

  /** Reading waits for a lock beside the file and gives up if it does not clear. */
  predicate Readable(r: Ring, f: FileId) {
    f !in r.locks && Full(r, f)
  }

  ghost function MaxOf(s: set<nat>): (m: nat)
    ensures forall e | e in s :: e <= m
    ensures if s == {} then m == 0 else m in s
  {
    if s == {} then 0
    else
      var any :| any in s;
      var rest := MaxOf(s - {any});
      assert forall e | e in s :: e == any || e in s - {any};
      if any > rest then any else rest
  }

  /** The highest active epoch at or below n, or 0. */
  function TopActive(got: map<nat, Content>, n: nat): (top: nat)
    ensures top > 0 ==> 2 <= top <= n && top in got && got[top].Active?
    ensures forall e | e in got && 2 <= e <= n && got[e].Active? :: e <= top
  {
    if n < 2 then 0 else if n in got && got[n].Active? then n else TopActive(got, n - 1)
  }

  function StateKeys(e: nat, c: Content): Keys
    requires c.Active?
  {
    Keys(e, c.pair, Some(c.prev), None)
  }

  /** The active epochs at or below n, highest first. */
  function ActiveDownFrom(got: map<nat, Content>, n: nat): seq<Keys> {
    if n < 2 then []
    else (if n in got && got[n].Active? then [StateKeys(n, got[n])] else []) + ActiveDownFrom(got, n - 1)
  }

  ghost function ChooseCurrent(root: Root, got: map<nat, Content>): Option<Keys> {
    var highestState := MaxOf(got.Keys);
    var top := TopActive(got, highestState);
    if top > 0 then
      if highestState > top then None else Some(StateKeys(top, got[top]))
    else if root.Initial? then
      if highestState > 1 then None else Some(Keys(1, root.pair, None, None))
    else None
  }

  ghost function Chosen(purpose: Purpose, root: Root, got: map<nat, Content>): Option<Pc> {
    var current := ChooseCurrent(root, got);
    if current.None? then None
    else
      var first := if root.Initial? && current.value.epoch > 1 then [Keys(1, root.pair, None, None)] else [];
      var lower := if current.value.epoch > 1 then ActiveDownFrom(got, current.value.epoch - 1) else [];
      Some(RetireNext(purpose, current.value, first + lower))
  }

  function Loaded(purpose: Purpose, keys: Keys): Option<Pc> {
    match purpose
    case ToUse => Some(Done(keys, None))
    case ToDecrypt(e) => if keys.epoch == e then Some(Done(keys, Some(e))) else Some(ListRetained(keys, ForDecryption(e)))
    case ToRotate => Some(ListRetained(keys, ForEviction))
    case LostElection(target) => if keys.epoch > target then Some(Done(keys, None)) else None
  }

  ghost function LoadNext(r: Ring, pc: Pc, i: Input): Option<Outcome>
    requires pc.ReadRoot? || pc.ListStates? || pc.ReadStates? || pc.RetireNext? || pc.ReadPublished?
  {
    match pc
    case ReadRoot(purpose) => Go(r, ListStates(purpose, r.root))
    case ListStates(purpose, root) => Go(r, ReadStates(purpose, root, set f | f in r.files && f.StateFile? :: f.epoch, map[]))
    case ReadStates(purpose, root, todo, got) =>
      if todo == {} then
        var chosen := Chosen(purpose, root, got);
        if chosen.Some? then Go(r, chosen.value) else None
      else if i.epoch in todo && Readable(r, StateFile(i.epoch)) then
        Go(r, ReadStates(purpose, root, todo - {i.epoch}, got[i.epoch := r.files[StateFile(i.epoch)].value]))
      else None
    case RetireNext(purpose, current, left) =>
      if left == [] then Go(r, ReadPublished(purpose, current))
      else Go(r, Retire(left[0], ToLoad(purpose, current, left[1..]), i.now))
    case ReadPublished(purpose, current) =>
      var f := PublishedFile(current.epoch);
      var found := if f in r.files then r.files[f] else None;
      if f in r.files && (!Readable(r, f) || !found.value.Published? || found.value.pair != current.pair || found.value.link != current.link)
      then None
      else
        var published := if found.Some? then Some(found.value.hash) else None;
        var next := Loaded(purpose, current.(published := published));
        if next.Some? then Go(r, next.value) else None
  }

  // ---- installFirstWriterWins --------------------------------------------------------------

  /** What a completed write makes true for good. */
  function Installing(r: Ring, f: FileId, c: Content): Ring {
    var written := r.(files := r.files[f := Some(c)]);
    match f
    case StateFile(e) =>
      if c.Active? then written.(elected := r.elected[e := Elected(c.pair, Some(c.prev))]) else written
    case RetainedFile(e) => written.(kept := r.kept + {e})
    case PublishedFile(e) => if c.Published? then written.(hashes := r.hashes[e := c.hash]) else written
  }

  function InstallNext(r: Ring, pc: Pc): Option<Outcome>
    requires pc.TakeLock? || pc.OpenFile? || pc.WriteFile? || pc.DropLock? || pc.WaitForSlot?
  {
    match pc
    case TakeLock(f, c, next) =>
      if f in r.locks then Go(r, WaitForSlot(f, next)) else Go(r.(locks := r.locks + {f}), OpenFile(f, c, next))
    case OpenFile(f, c, next) =>
      if f in r.files then Go(r, DropLock(f, next)) else Go(r.(files := r.files[f := None]), WriteFile(f, c, next))
    case WriteFile(f, c, next) =>
      // The file may have been evicted since it was opened; then the bytes go nowhere.
      Go(if f in r.files then Installing(r, f, c) else r, DropLock(f, next))
    case DropLock(f, next) => Go(r.(locks := r.locks - {f}), Installed(next))
    case WaitForSlot(f, next) => if Readable(r, f) then Go(r, Installed(next)) else None
  }

  // ---- retireEpoch and what follows an installation ----------------------------------------

  function Retire(keys: Keys, back: Back, now: int): Pc {
    TakeLock(RetainedFile(keys.epoch), Retained(keys.pair, keys.link, now + RETAINED_KEY_TTL), Readback(keys, back))
  }

  function Return(back: Back): Pc {
    match back
    case ToLoad(purpose, current, left) => RetireNext(purpose, current, left)
    case ToRotation => ReadRoot(ToUse)
  }

  function InstalledNext(r: Ring, next: Then, i: Input): Option<Outcome> {
    match next
    case Readback(keys, back) =>
      var f := RetainedFile(keys.epoch);
      if Readable(r, f) && r.files[f].value.Retained? && r.files[f].value.pair == keys.pair then Go(r, Inspect(keys, back)) else None
    case CheckElection(base) =>
      var f := StateFile(base.epoch + 1);
      if !Readable(r, f) then None
      else
        var c := r.files[f].value;
        if c.Retired? then Go(r, ReadRoot(LostElection(base.epoch + 1)))
        else if c.Active? && Some(c.prev) == base.published then Go(r, Retire(base, ToRotation, i.now))
        else None
    case CheckMarker(keys, hash) =>
      var f := PublishedFile(keys.epoch);
      if Readable(r, f) && r.files[f].value == Published(keys.pair, keys.link, hash) then Go(r, ReadRoot(ToUse)) else None
  }

  function RetireStep(r: Ring, pc: Pc, i: Input): Option<Outcome>
    requires pc.Installed? || pc.Inspect? || pc.Scrub?
  {
    match pc
    case Installed(next) => InstalledNext(r, next, i)
    case Inspect(keys, back) =>
      if keys.epoch == 1 then
        if r.root.Stable? then Go(r, Return(back))
        else if r.root.pair == keys.pair then Go(r, Scrub(keys, back))
        else None
      else
        var f := StateFile(keys.epoch);
        if !Readable(r, f) then None
        else if r.files[f].value.Retired? then Go(r, Return(back))
        else if r.files[f].value.Active? && keys.link == Some(r.files[f].value.prev) && keys.pair == r.files[f].value.pair
        then Go(r, Scrub(keys, back))
        else None
    case Scrub(keys, back) =>
      // One atomic rename replaces the file.
      if keys.epoch == 1 then Go(r.(root := Stable), Return(back))
      else if keys.link.Some? then
        Go(r.(files := r.files[StateFile(keys.epoch) := Some(Retired(keys.pair, keys.link.value))]), Return(back))
      else None
  }

  // ---- rotateEncryptionKey and loadEncryptionKeysForEpoch ----------------------------------

  predicate Needed(jobs: set<Job>, epoch: nat, now: int) {
    exists j :: j in jobs && j.expiresAt > now && j.epoch == epoch
  }

  ghost function LiveRetained(got: map<nat, Content>, now: int): set<nat> {
    set e | e in got && got[e].Retained? && now < got[e].until
  }

  ghost predicate IsOldest(live: set<nat>, e: nat) {
    e in live && forall o | o in live :: e <= o
  }

  ghost function RetainedSeen(base: Keys, look: Look, got: map<nat, Content>, i: Input): Option<Pc> {
    match look
    case ForDecryption(e) =>
      if e in got && got[e].Retained? && i.now < got[e].until
      then Some(Done(Keys(e, got[e].pair, got[e].link, None), Some(e)))
      else None
    case ForEviction =>
      var live := LiveRetained(got, i.now);
      if |live| + 1 < MAX_LIVE_EPOCHS then Some(Extend(base))
      else if IsOldest(live, i.epoch) then Some(LoadJobs(base, i.epoch))
      else None
  }

  ghost function RotateNext(r: Ring, pc: Pc, i: Input): Option<Outcome>
    requires pc.ListRetained? || pc.ReadRetained? || pc.LoadJobs? || pc.Evict? || pc.Extend?
  {
    match pc
    case ListRetained(base, look) =>
      Go(r, ReadRetained(base, look, set f | f in r.files && f.RetainedFile? :: f.epoch, map[]))
    case ReadRetained(base, look, todo, got) =>
      if todo == {} then
        var seen := RetainedSeen(base, look, got, i);
        if seen.Some? then Go(r, seen.value) else None
      else if i.epoch in todo && Readable(r, RetainedFile(i.epoch)) then
        Go(r, ReadRetained(base, look, todo - {i.epoch}, got[i.epoch := r.files[RetainedFile(i.epoch)].value]))
      else None
    case LoadJobs(base, oldest) =>
      if Needed(i.jobs, oldest, i.now) then None else Go(r, Evict(base, oldest, i.jobs, i.now))
    case Evict(base, oldest, _, _) =>
      if RetainedFile(oldest) in r.files then Go(r.(files := r.files - {RetainedFile(oldest)}), Extend(base)) else None
    case Extend(base) =>
      if base.published.None? then None
      else Go(r, TakeLock(StateFile(base.epoch + 1), Active(i.pair, base.published.value), CheckElection(base)))
  }

  // ---- Steps -------------------------------------------------------------------------------

  ghost function Next(r: Ring, pc: Pc, i: Input): Option<Outcome> {
    match pc
    case ReadRoot(_) => LoadNext(r, pc, i)
    case ListStates(_, _) => LoadNext(r, pc, i)
    case ReadStates(_, _, _, _) => LoadNext(r, pc, i)
    case RetireNext(_, _, _) => LoadNext(r, pc, i)
    case ReadPublished(_, _) => LoadNext(r, pc, i)
    case TakeLock(_, _, _) => InstallNext(r, pc)
    case OpenFile(_, _, _) => InstallNext(r, pc)
    case WriteFile(_, _, _) => InstallNext(r, pc)
    case DropLock(_, _) => InstallNext(r, pc)
    case WaitForSlot(_, _) => InstallNext(r, pc)
    case Installed(_) => RetireStep(r, pc, i)
    case Inspect(_, _) => RetireStep(r, pc, i)
    case Scrub(_, _) => RetireStep(r, pc, i)
    case ListRetained(_, _) => RotateNext(r, pc, i)
    case ReadRetained(_, _, _, _) => RotateNext(r, pc, i)
    case LoadJobs(_, _) => RotateNext(r, pc, i)
    case Evict(_, _, _, _) => RotateNext(r, pc, i)
    case Extend(_) => RotateNext(r, pc, i)
    case Done(_, _) => None
  }

  /** A load, whether an operation starts with it or comes back to it, notes what is installed. */
  function Floor(before: set<nat>, pc: Pc, r: Ring): set<nat> {
    if pc.ReadRoot? then r.elected.Keys else before
  }

  predicate Startable(purpose: Purpose) {
    purpose.ToUse? || purpose.ToDecrypt? || purpose.ToRotate?
  }

  predicate Enabled(w: World, a: Action) {
    match a
    case Begin(p, purpose) => p !in w.procs && Startable(purpose)
    case Remember(p, _) => p in w.procs && w.procs[p].pc.Done? && w.procs[p].pc.asked.None?
    case Advance(p, _) => p in w.procs
    case Crash(p) => p in w.procs
  }

  ghost function Step(w: World, a: Action): World
    requires Enabled(w, a)
  {
    match a
    case Begin(p, purpose) => w.(procs := w.procs[p := Process(ReadRoot(purpose), w.ring.elected.Keys)])
    case Remember(p, hash) =>
      var keys := w.procs[p].pc.keys;
      w.(procs := w.procs[p := w.procs[p].(
        pc := TakeLock(PublishedFile(keys.epoch), Published(keys.pair, keys.link, hash), CheckMarker(keys, hash)))])
    case Advance(p, i) =>
      var outcome := Next(w.ring, w.procs[p].pc, i);
      if outcome.None? then w.(procs := w.procs - {p})
      else
        var o := outcome.value;
        World(o.ring, w.procs[p := Process(o.pc, Floor(w.procs[p].floor, o.pc, o.ring))])
    case Crash(p) => w.(procs := w.procs - {p})
  }
}

/** Every file operation of every process keeps the invariant. */
module KeyRingSteps {
  import opened Wrappers
  import opened KeyRing
  import opened KeyRingInvariant

  lemma RingFiles(r: Ring)
    requires RingOk(r)
    ensures FilesOk(r) && WinnersOk(r)
  {
  }

  // ---- Loading -----------------------------------------------------------------------------

  lemma {:induction false} ActiveDownFromRows(got: map<nat, Content>, n: nat)
    ensures forall k | k in ActiveDownFrom(got, n) ::
              2 <= k.epoch <= n && k.epoch in got && got[k.epoch].Active? && k == StateKeys(k.epoch, got[k.epoch])
    decreases n
  {
    if n >= 2 {
      ActiveDownFromRows(got, n - 1);
    }
  }

  /** The key that a load settles on is elected, and nothing it saw lies above it. */
  lemma CurrentIsHighest(r: Ring, floor: set<nat>, root: Root, got: map<nat, Content>)
    requires RootOk(r, root) && GotStates(r, floor, {}, got)
    ensures var current := ChooseCurrent(root, got);
            current.Some? ==> Genuine(r, current.value) && Covers(floor, current.value) && current.value.published.None?
  {
    var current := ChooseCurrent(root, got);
    if current.Some? {
      forall e | e in floor
        ensures e <= current.value.epoch
      {
        assert e == 1 || e in got.Keys;
      }
    }
  }

  lemma LeftIsRetirable(r: Ring, floor: set<nat>, root: Root, got: map<nat, Content>, current: Keys)
    requires RootOk(r, root) && GotStates(r, floor, {}, got) && Genuine(r, current) && current.epoch > 1
    ensures LeftOk(r, ActiveDownFrom(got, current.epoch - 1))
    ensures root.Initial? ==> Retirable(r, Keys(1, root.pair, None, None))
  {
    assert current.epoch in r.elected;
    ActiveDownFromRows(got, current.epoch - 1);
    forall k | k in ActiveDownFrom(got, current.epoch - 1)
      ensures Retirable(r, k)
    {
      assert StateOk(r, k.epoch, got[k.epoch]);
    }
  }

  lemma ChosenOk(r: Ring, floor: set<nat>, purpose: Purpose, root: Root, got: map<nat, Content>)
    requires RootOk(r, root) && GotStates(r, floor, {}, got)
    ensures var chosen := Chosen(purpose, root, got);
            chosen.Some? ==> chosen.value.RetireNext? && PcOk(r, floor, chosen.value)
  {
    CurrentIsHighest(r, floor, root, got);
    var current := ChooseCurrent(root, got);
    if current.Some? && current.value.epoch > 1 {
      LeftIsRetirable(r, floor, root, got, current.value);
    }
  }

  predicate IsLoading(pc: Pc) {
    pc.ReadRoot? || pc.ListStates? || pc.ReadStates? || pc.RetireNext? || pc.ReadPublished?
  }

  lemma ListingSeesAll(r: Ring, floor: set<nat>)
    requires WinnersOk(r) && floor <= r.elected.Keys
    ensures GotStates(r, floor, set f | f in r.files && f.StateFile? :: f.epoch, map[])
  {
    forall e | e in floor && e != 1
      ensures e in set f | f in r.files && f.StateFile? :: f.epoch
    {
      assert StateFile(e) in r.files;
    }
  }

  lemma RetireOk(r: Ring, floor: set<nat>, keys: Keys, back: Back, now: int)
    requires Retirable(r, keys) && BackOk(r, floor, back)
    ensures PcOk(r, floor, Retire(keys, back, now))
  {
  }

  lemma OneMoreState(r: Ring, floor: set<nat>, todo: set<nat>, got: map<nat, Content>, e: nat)
    requires FilesOk(r) && Full(r, StateFile(e)) && GotStates(r, floor, todo, got)
    ensures GotStates(r, floor, todo - {e}, got[e := r.files[StateFile(e)].value])
  {
    assert ContentOk(r, StateFile(e), r.files[StateFile(e)].value);
  }

  lemma LoadedOk(r: Ring, floor: set<nat>, purpose: Purpose, current: Keys, published: Option<Hash>)
    requires Genuine(r, current.(published := published)) && Covers(floor, current)
    ensures var next := Loaded(purpose, current.(published := published));
            next.Some? ==> !next.value.ReadRoot? && PcOk(r, floor, next.value)
  {
  }

  lemma MarkerIsGenuine(r: Ring, current: Keys, c: Content)
    requires FilesOk(r) && PublishedFile(current.epoch) in r.files && r.files[PublishedFile(current.epoch)] == Some(c)
    requires Genuine(r, current)
    ensures c.Published? ==> Genuine(r, current.(published := Some(c.hash)))
  {
    assert ContentOk(r, PublishedFile(current.epoch), c);
  }

  lemma MarkerAgrees(r: Ring, current: Keys)
    requires FilesOk(r) && Genuine(r, current) && Full(r, PublishedFile(current.epoch))
    ensures var c := r.files[PublishedFile(current.epoch)].value; c.Published? && c.pair == current.pair && c.link == current.link
  {
    assert ContentOk(r, PublishedFile(current.epoch), r.files[PublishedFile(current.epoch)].value);
  }

  lemma RetireNextKeeps(r: Ring, floor: set<nat>, pc: Pc, i: Input)
    requires pc.RetireNext? && PcOk(r, floor, pc)
    ensures PcOk(r, floor, LoadNext(r, pc, i).value.pc)
  {
    var left := pc.left;
    if left != [] {
      assert left[0] in left;
      assert forall k | k in left[1..] :: k in left;
      RetireOk(r, floor, left[0], ToLoad(pc.purpose, pc.current, left[1..]), i.now);
    }
  }

  lemma ReadPublishedKeeps(r: Ring, floor: set<nat>, pc: Pc, i: Input)
    requires FilesOk(r) && pc.ReadPublished? && PcOk(r, floor, pc) && LoadNext(r, pc, i).Some?
    ensures !LoadNext(r, pc, i).value.pc.ReadRoot? && PcOk(r, floor, LoadNext(r, pc, i).value.pc)
  {
    var f := PublishedFile(pc.current.epoch);
    if f in r.files && r.files[f].Some? {
      MarkerIsGenuine(r, pc.current, r.files[f].value);
      LoadedOk(r, floor, pc.purpose, pc.current, Some(r.files[f].value.hash));
    } else {
      LoadedOk(r, floor, pc.purpose, pc.current, None);
    }
  }

  lemma ReadStatesKeeps(r: Ring, floor: set<nat>, pc: Pc, i: Input)
    requires FilesOk(r) && pc.ReadStates? && PcOk(r, floor, pc) && LoadNext(r, pc, i).Some?
    ensures !LoadNext(r, pc, i).value.pc.ReadRoot? && PcOk(r, floor, LoadNext(r, pc, i).value.pc)
  {
    if pc.todo == {} {
      ChosenOk(r, floor, pc.purpose, pc.root, pc.got);
    } else {
      OneMoreState(r, floor, pc.todo, pc.got, i.epoch);
    }
  }

  lemma LoadShape(r: Ring, pc: Pc, i: Input)
    requires IsLoading(pc) && LoadNext(r, pc, i).Some?
    ensures var o := LoadNext(r, pc, i).value;
            o.ring == r && !o.pc.ReadRoot? && HolderOk(r, o.pc) && forall f :: !Owns(o.pc, f)
  {
    if pc.ReadStates? && pc.todo == {} {
      assert Chosen(pc.purpose, pc.root, pc.got).value.RetireNext?;
    }
  }

  lemma LoadKeeps(r: Ring, floor: set<nat>, pc: Pc, i: Input)
    requires RingOk(r) && floor <= r.elected.Keys && IsLoading(pc) && PcOk(r, floor, pc)
    requires LoadNext(r, pc, i).Some?
    ensures PcOk(r, floor, LoadNext(r, pc, i).value.pc)
  {
    if pc.ListStates? {
      ListingSeesAll(r, floor);
    } else if pc.ReadStates? {
      ReadStatesKeeps(r, floor, pc, i);
    } else if pc.RetireNext? {
      RetireNextKeeps(r, floor, pc, i);
    } else if pc.ReadPublished? {
      ReadPublishedKeeps(r, floor, pc, i);
    }
  }

  // ---- Installing --------------------------------------------------------------------------

  predicate IsInstalling(pc: Pc) {
    pc.TakeLock? || pc.OpenFile? || pc.WriteFile? || pc.DropLock? || pc.WaitForSlot?
  }

  lemma WriteExtends(r: Ring, f: FileId, c: Content)
    requires PartialOk(r, f)
    ensures Extends(r, Installing(r, f, c))
  {
  }

  lemma FilesAfterWrite(r: Ring, f: FileId, c: Content)
    requires FilesOk(r) && CandidateOk(r, f, c) && PartialOk(r, f) && ChainOk(r)
    ensures FilesOk(Installing(r, f, c))
  {
    var r' := Installing(r, f, c);
    WriteExtends(r, f, c);
    forall g | g in r'.files
      ensures if r'.files[g].None? then PartialOk(r', g) else ContentOk(r', g, r'.files[g].value)
    {
      if g != f && r.files[g].Some? {
        FilesStay(r, r', g);
      }
    }
  }

  lemma WinnersAfterWrite(r: Ring, f: FileId, c: Content)
    requires WinnersOk(r) && CandidateOk(r, f, c)
    ensures WinnersOk(Installing(r, f, c))
  {
  }

  lemma ChainAfterWrite(r: Ring, f: FileId, c: Content)
    requires ChainOk(r) && CandidateOk(r, f, c) && PartialOk(r, f)
    ensures ChainOk(Installing(r, f, c))
  {
  }

  /** Winning a slot: the epoch's key, its published hash, or its retained copy is fixed from now on. */
  lemma WriteKeeps(r: Ring, f: FileId, c: Content)
    requires RingOk(r) && CandidateOk(r, f, c) && f in r.files && !Full(r, f)
    ensures Extends(r, Installing(r, f, c)) && RingOk(Installing(r, f, c))
  {
    assert PartialOk(r, f);
    WriteExtends(r, f, c);
    FilesAfterWrite(r, f, c);
    WinnersAfterWrite(r, f, c);
    ChainAfterWrite(r, f, c);
    RootStays(r, Installing(r, f, c), r.root);
  }

  ghost predicate SameWinners(r: Ring, r': Ring) {
    && r' == r.(files := r'.files, locks := r'.locks)
    && (forall f | f in r'.files :: if r'.files[f].None? then PartialOk(r', f) else f in r.files && r'.files[f] == r.files[f])
    && (forall f | Full(r, f) && !f.RetainedFile? :: f in r'.files && r'.files[f] == r.files[f])
  }

  lemma SameWinnersKeep(r: Ring, r': Ring)
    requires RingOk(r) && SameWinners(r, r')
    ensures RingOk(r') && Extends(r, r')
  {
    forall f | f in r'.files
      ensures if r'.files[f].None? then PartialOk(r', f) else ContentOk(r', f, r'.files[f].value)
    {
      if r'.files[f].Some? {
        FilesStay(r, r', f);
      }
    }
    RootStays(r, r', r.root);
  }

  lemma OpenedSame(r: Ring, f: FileId, c: Content)
    requires FilesOk(r) && WinnersOk(r) && CandidateOk(r, f, c) && f !in r.files && f in r.locks
    ensures SameWinners(r, r.(files := r.files[f := None]))
  {
  }

  lemma LockedSame(r: Ring, f: FileId)
    requires FilesOk(r)
    ensures SameWinners(r, r.(locks := r.locks + {f}))
    ensures (f in r.files ==> Full(r, f)) ==> SameWinners(r, r.(locks := r.locks - {f}))
  {
  }

  lemma InstallRing(r: Ring, floor: set<nat>, pc: Pc)
    requires RingOk(r) && IsInstalling(pc) && PcOk(r, floor, pc) && HolderOk(r, pc) && InstallNext(r, pc).Some?
    ensures var o := InstallNext(r, pc).value; RingOk(o.ring) && Extends(r, o.ring)
  {
    var o := InstallNext(r, pc).value;
    if pc.WriteFile? {
      if pc.file in r.files {
        WriteKeeps(r, pc.file, pc.content);
      }
    } else if pc.OpenFile? {
      if pc.file !in r.files {
        OpenedSame(r, pc.file, pc.content);
        SameWinnersKeep(r, o.ring);
      }
    } else if !pc.WaitForSlot? {
      LockedSame(r, pc.file);
      SameWinnersKeep(r, o.ring);
    }
  }

  lemma InstallShape(r: Ring, floor: set<nat>, pc: Pc)
    requires FilesOk(r) && IsInstalling(pc) && PcOk(r, floor, pc) && HolderOk(r, pc) && InstallNext(r, pc).Some?
    ensures var o := InstallNext(r, pc).value;
            && PcOk(r, floor, o.pc) && HolderOk(o.ring, o.pc)
            && !o.pc.ReadRoot? && forall f | Owns(o.pc, f) :: Owns(pc, f) || f !in r.locks
  {
  }

  predicate Apart(a: Pc, b: Pc) {
    match a
    case OpenFile(f, _, _) => !Owns(b, f)
    case WriteFile(f, _, _) => !Owns(b, f)
    case DropLock(f, _) => !Owns(b, f)
    case _ => true
  }

  lemma InstallSpares(r: Ring, pc: Pc, other: Pc)
    requires IsInstalling(pc) && InstallNext(r, pc).Some? && HolderOk(r, pc) && HolderOk(r, other) && Apart(other, pc)
    ensures HolderOk(InstallNext(r, pc).value.ring, other)
  {
  }

  // ---- Retiring ----------------------------------------------------------------------------

  predicate IsRetiring(pc: Pc) {
    pc.Installed? || pc.Inspect? || pc.Scrub?
  }

  lemma ReadbackOk(r: Ring, floor: set<nat>, keys: Keys, back: Back)
    requires FilesOk(r) && ThenOk(r, floor, Readback(keys, back)) && Full(r, RetainedFile(keys.epoch))
    ensures PcOk(r, floor, Inspect(keys, back))
  {
    assert ContentOk(r, RetainedFile(keys.epoch), r.files[RetainedFile(keys.epoch)].value);
  }

  lemma ElectionOk(r: Ring, floor: set<nat>, base: Keys, now: int)
    requires FilesOk(r) && Genuine(r, base) && Full(r, StateFile(base.epoch + 1))
    ensures PcOk(r, floor, Retire(base, ToRotation, now))
  {
    assert ContentOk(r, StateFile(base.epoch + 1), r.files[StateFile(base.epoch + 1)].value);
    assert base.epoch + 1 in r.elected;
    RetireOk(r, floor, base, ToRotation, now);
  }

  lemma InstalledOk(r: Ring, floor: set<nat>, next: Then, i: Input)
    requires FilesOk(r) && ThenOk(r, floor, next) && InstalledNext(r, next, i).Some?
    ensures var o := InstalledNext(r, next, i).value; o.ring == r && (o.pc.ReadRoot? || PcOk(r, floor, o.pc))
    ensures HolderOk(r, InstalledNext(r, next, i).value.pc) && forall f :: !Owns(InstalledNext(r, next, i).value.pc, f)
  {
    match next
    case Readback(keys, back) => ReadbackOk(r, floor, keys, back);
    case CheckElection(base) => ElectionOk(r, floor, base, i.now);
    case _ =>
  }

  lemma ScrubRootKeeps(r: Ring)
    requires RingOk(r) && Superseded(r, 1) && 1 in r.kept
    ensures RingOk(r.(root := Stable)) && Extends(r, r.(root := Stable))
  {
    var r' := r.(root := Stable);
    forall f | f in r'.files
      ensures if r'.files[f].None? then PartialOk(r', f) else ContentOk(r', f, r'.files[f].value)
    {
      if r.files[f].Some? {
        FilesStay(r, r', f);
      }
    }
    SupersededStays(r, r', 1);
  }

  function Tombstone(r: Ring, e: nat, pair: Pair, prev: Hash): Ring {
    r.(files := r.files[StateFile(e) := Some(Retired(pair, prev))])
  }

  lemma TombstoneFiles(r: Ring, e: nat, pair: Pair, prev: Hash)
    requires FilesOk(r) && e >= 2 && IsElected(r, e, pair, Some(prev)) && Superseded(r, e) && e in r.kept
    ensures FilesOk(Tombstone(r, e, pair, prev))
  {
    var r' := Tombstone(r, e, pair, prev);
    assert Extends(r, r');
    SupersededStays(r, r', e);
    assert StateOk(r', e, Retired(pair, prev));
    forall f | f in r'.files
      ensures if r'.files[f].None? then PartialOk(r', f) else ContentOk(r', f, r'.files[f].value)
    {
      if f != StateFile(e) && r.files[f].Some? {
        FilesStay(r, r', f);
      }
    }
  }

  lemma TombstoneWinners(r: Ring, e: nat, pair: Pair, prev: Hash)
    requires WinnersOk(r)
    ensures WinnersOk(Tombstone(r, e, pair, prev))
  {
  }

  lemma ScrubStateKeeps(r: Ring, e: nat, pair: Pair, prev: Hash)
    requires RingOk(r) && e != 1 && IsElected(r, e, pair, Some(prev)) && Superseded(r, e) && e in r.kept
    ensures RingOk(Tombstone(r, e, pair, prev)) && Extends(r, Tombstone(r, e, pair, prev))
  {
    var r' := Tombstone(r, e, pair, prev);
    TombstoneFiles(r, e, pair, prev);
    TombstoneWinners(r, e, pair, prev);
    assert Extends(r, r') && ChainOk(r');
    hide FilesOk;
    hide WinnersOk;
    hide ChainOk;
    RootStays(r, r', r.root);
  }

  lemma ScrubKeeps(r: Ring, floor: set<nat>, pc: Pc, i: Input)
    requires RingOk(r) && pc.Scrub? && PcOk(r, floor, pc) && RetireStep(r, pc, i).Some?
    ensures var o := RetireStep(r, pc, i).value;
            RingOk(o.ring) && Extends(r, o.ring) && o.pc == Return(pc.back)
  {
    if pc.keys.epoch == 1 {
      ScrubRootKeeps(r);
    } else {
      ScrubStateKeeps(r, pc.keys.epoch, pc.keys.pair, pc.keys.link.value);
    }
  }

  lemma ReturnOk(r: Ring, floor: set<nat>, back: Back)
    requires BackOk(r, floor, back)
    ensures Return(back).ReadRoot? || PcOk(r, floor, Return(back))
    ensures HolderOk(r, Return(back)) && forall f :: !Owns(Return(back), f)
  {
  }

  lemma InspectShape(r: Ring, pc: Pc, i: Input)
    requires pc.Inspect? && RetireStep(r, pc, i).Some?
    ensures var o := RetireStep(r, pc, i).value; o.ring == r && (o.pc == Return(pc.back) || o.pc == Scrub(pc.keys, pc.back))
  {
  }

  ghost predicate RetiredWell(r: Ring, floor: set<nat>, o: Outcome) {
    && RingOk(o.ring) && Extends(r, o.ring) && (o.pc.ReadRoot? || PcOk(o.ring, floor, o.pc))
    && HolderOk(o.ring, o.pc) && forall f :: !Owns(o.pc, f)
  }

  lemma InstalledShape(r: Ring, floor: set<nat>, pc: Pc, i: Input)
    requires pc.Installed? && PcOk(r, floor, pc)
    ensures RetireStep(r, pc, i) == InstalledNext(r, pc.next, i) && ThenOk(r, floor, pc.next)
  {
    hide InstalledNext;
    hide ThenOk;
  }

  lemma InstalledKeeps(r: Ring, floor: set<nat>, pc: Pc, i: Input)
    requires RingOk(r) && pc.Installed? && PcOk(r, floor, pc) && RetireStep(r, pc, i).Some?
    ensures RetiredWell(r, floor, RetireStep(r, pc, i).value)
  {
    hide *;
    RingFiles(r);
    InstalledShape(r, floor, pc, i);
    InstalledOk(r, floor, pc.next, i);
    RetiredSame(r, floor, InstalledNext(r, pc.next, i).value);
  }

  lemma RetiredSame(r: Ring, floor: set<nat>, o: Outcome)
    requires RingOk(r) && o.ring == r && (o.pc.ReadRoot? || PcOk(r, floor, o.pc))
    requires HolderOk(r, o.pc) && forall f :: !Owns(o.pc, f)
    ensures RetiredWell(r, floor, o)
  {
  }

  lemma InspectKeeps(r: Ring, floor: set<nat>, pc: Pc, i: Input)
    requires RingOk(r) && pc.Inspect? && PcOk(r, floor, pc) && RetireStep(r, pc, i).Some?
    ensures RetiredWell(r, floor, RetireStep(r, pc, i).value)
  {
    InspectShape(r, pc, i);
    assert PcOk(r, floor, Scrub(pc.keys, pc.back));
    ReturnOk(r, floor, pc.back);
    RetiredSame(r, floor, RetireStep(r, pc, i).value);
  }

  lemma ScrubbedKeeps(r: Ring, floor: set<nat>, pc: Pc, i: Input)
    requires RingOk(r) && pc.Scrub? && PcOk(r, floor, pc) && RetireStep(r, pc, i).Some?
    ensures RetiredWell(r, floor, RetireStep(r, pc, i).value)
  {
    ScrubKeeps(r, floor, pc, i);
    assert BackOk(r, floor, pc.back);
    hide *;
    BackStays(r, RetireStep(r, pc, i).value.ring, floor, pc.back);
    ReturnOk(RetireStep(r, pc, i).value.ring, floor, pc.back);
    assert RetiredWell(r, floor, RetireStep(r, pc, i).value) by {
      RetiredParts(r, floor, RetireStep(r, pc, i).value);
    }
  }

  lemma RetiredParts(r: Ring, floor: set<nat>, o: Outcome)
    requires RingOk(o.ring) && Extends(r, o.ring) && (o.pc.ReadRoot? || PcOk(o.ring, floor, o.pc))
    requires HolderOk(o.ring, o.pc) && forall f :: !Owns(o.pc, f)
    ensures RetiredWell(r, floor, o)
  {
  }

  lemma RetireKeeps(r: Ring, floor: set<nat>, pc: Pc, i: Input)
    requires RingOk(r) && IsRetiring(pc) && PcOk(r, floor, pc) && RetireStep(r, pc, i).Some?
    ensures RetiredWell(r, floor, RetireStep(r, pc, i).value)
  {
    hide RingOk;
    hide PcOk;
    hide RetireStep;
    hide RetiredWell;
    if pc.Installed? {
      InstalledKeeps(r, floor, pc, i);
    } else if pc.Inspect? {
      InspectKeeps(r, floor, pc, i);
    } else {
      ScrubbedKeeps(r, floor, pc, i);
    }
  }

  lemma TombstoneSpares(r: Ring, e: nat, pair: Pair, prev: Hash, other: Pc)
    requires Full(r, StateFile(e)) && HolderOk(r, other)
    ensures HolderOk(Tombstone(r, e, pair, prev), other)
  {
  }

  lemma RetireSpares(r: Ring, floor: set<nat>, pc: Pc, i: Input, other: Pc)
    requires WinnersOk(r) && IsRetiring(pc) && PcOk(r, floor, pc) && RetireStep(r, pc, i).Some? && HolderOk(r, other)
    ensures HolderOk(RetireStep(r, pc, i).value.ring, other)
  {
    if pc.Installed? {
      assert RetireStep(r, pc, i).value.ring == r;
    } else if pc.Inspect? {
      InspectShape(r, pc, i);
    } else if pc.keys.epoch == 1 {
    } else {
      TombstoneSpares(r, pc.keys.epoch, pc.keys.pair, pc.keys.link.value, other);
    }
  }

  // ---- Rotating and decrypting -------------------------------------------------------------

  predicate IsRotating(pc: Pc) {
    pc.ListRetained? || pc.ReadRetained? || pc.LoadJobs? || pc.Evict? || pc.Extend?
  }

  lemma EvictKeeps(r: Ring, e: nat)
    requires RingOk(r) && RetainedFile(e) in r.files
    ensures var r' := r.(files := r.files - {RetainedFile(e)}); RingOk(r') && Extends(r, r')
  {
    SameWinnersKeep(r, r.(files := r.files - {RetainedFile(e)}));
  }

  lemma ReadRetainedKeeps(r: Ring, floor: set<nat>, pc: Pc, i: Input)
    requires FilesOk(r) && pc.ReadRetained? && PcOk(r, floor, pc) && RotateNext(r, pc, i).Some?
    ensures PcOk(r, floor, RotateNext(r, pc, i).value.pc)
  {
    if pc.todo != {} {
      assert ContentOk(r, RetainedFile(i.epoch), r.files[RetainedFile(i.epoch)].value);
    }
  }

  lemma RotateRing(r: Ring, pc: Pc, i: Input)
    requires RingOk(r) && IsRotating(pc) && RotateNext(r, pc, i).Some?
    ensures var o := RotateNext(r, pc, i).value; RingOk(o.ring) && Extends(r, o.ring)
  {
    if pc.Evict? {
      EvictKeeps(r, pc.oldest);
    } else {
      assert RotateNext(r, pc, i).value.ring == r;
    }
  }

  lemma RotateShape(r: Ring, floor: set<nat>, pc: Pc, i: Input)
    requires FilesOk(r) && WinnersOk(r) && IsRotating(pc) && PcOk(r, floor, pc) && RotateNext(r, pc, i).Some?
    ensures var o := RotateNext(r, pc, i).value;
            PcOk(r, floor, o.pc) && !o.pc.ReadRoot? && HolderOk(o.ring, o.pc) && forall f :: !Owns(o.pc, f)
  {
    if pc.ReadRetained? {
      ReadRetainedKeeps(r, floor, pc, i);
    }
  }

  lemma RotateSpares(r: Ring, pc: Pc, i: Input, other: Pc)
    requires IsRotating(pc) && RotateNext(r, pc, i).Some? && HolderOk(r, other)
    ensures !other.WriteFile? || other.file.RetainedFile? || other.file in r.files ==> HolderOk(RotateNext(r, pc, i).value.ring, other)
  {
  }

  // ---- Any step ----------------------------------------------------------------------------

  ghost predicate OutcomeOk(r: Ring, floor: set<nat>, pc: Pc, o: Outcome) {
    && RingOk(o.ring) && Extends(r, o.ring) && (o.pc.ReadRoot? || PcOk(o.ring, floor, o.pc)) && HolderOk(o.ring, o.pc)
    && forall f | Owns(o.pc, f) :: Owns(pc, f) || f !in r.locks
  }

  lemma NextKeeps(r: Ring, floor: set<nat>, pc: Pc, i: Input)
    requires RingOk(r) && floor <= r.elected.Keys && PcOk(r, floor, pc) && HolderOk(r, pc) && Next(r, pc, i).Some?
    ensures OutcomeOk(r, floor, pc, Next(r, pc, i).value)
  {
    hide RingOk;
    var o := Next(r, pc, i).value;
    if IsLoading(pc) {
      LoadShape(r, pc, i);
      LoadKeeps(r, floor, pc, i);
    } else if IsInstalling(pc) {
      InstallRing(r, floor, pc);
      RingFiles(r);
      InstallShape(r, floor, pc);
      PcStays(r, o.ring, floor, o.pc);
    } else if IsRetiring(pc) {
      RetireKeeps(r, floor, pc, i);
    } else {
      RotateRing(r, pc, i);
      RingFiles(r);
      RotateShape(r, floor, pc, i);
      PcStays(r, o.ring, floor, o.pc);
    }
  }

  lemma NextSpares(r: Ring, floor: set<nat>, pc: Pc, i: Input, other: Pc)
    requires WinnersOk(r) && PcOk(r, floor, pc) && HolderOk(r, pc) && Next(r, pc, i).Some?
    requires HolderOk(r, other) && Apart(other, pc)
    ensures HolderOk(Next(r, pc, i).value.ring, other)
  {
    if IsLoading(pc) {
      LoadShape(r, pc, i);
    } else if IsInstalling(pc) {
      InstallSpares(r, pc, other);
    } else if IsRetiring(pc) {
      RetireSpares(r, floor, pc, i, other);
    } else {
      RotateSpares(r, pc, i, other);
    }
  }

  lemma OwnersApart(w: World, p: nat, q: nat)
    requires LocksOk(w) && p in w.procs && q in w.procs && p != q
    ensures Apart(w.procs[p].pc, w.procs[q].pc)
  {
    var a := w.procs[p].pc;
    match a
    case OpenFile(f, _, _) => assert Owns(a, f);
    case WriteFile(f, _, _) => assert Owns(a, f);
    case DropLock(f, _) => assert Owns(a, f);
    case _ =>
  }

  lemma OwnedIsLocked(r: Ring, pc: Pc, f: FileId)
    requires HolderOk(r, pc) && Owns(pc, f)
    ensures f in r.locks
  {
  }

  lemma LocksStayOwn(w: World, w': World, p: nat)
    requires LocksOk(w) && ProcessesOk(w) && p in w.procs && p in w'.procs && w'.procs == w.procs[p := w'.procs[p]]
    requires forall f | Owns(w'.procs[p].pc, f) :: Owns(w.procs[p].pc, f) || f !in w.ring.locks
    ensures LocksOk(w')
  {
    hide HolderOk;
    hide PcOk;
    hide Owns;
    forall q, f | q in w'.procs && q != p && Owns(w'.procs[q].pc, f)
      ensures !Owns(w'.procs[p].pc, f)
    {
      OwnedIsLocked(w.ring, w.procs[q].pc, f);
    }
  }

  ghost predicate ProcessOk(r: Ring, q: Process) {
    PcOk(r, q.floor, q.pc) && HolderOk(r, q.pc) && q.floor <= r.elected.Keys
  }

  lemma MoverOk(r: Ring, me: Process, i: Input)
    requires RingOk(r) && ProcessOk(r, me) && Next(r, me.pc, i).Some?
    ensures var o := Next(r, me.pc, i).value; ProcessOk(o.ring, Process(o.pc, Floor(me.floor, o.pc, o.ring)))
  {
    NextKeeps(r, me.floor, me.pc, i);
  }

  lemma BystanderOk(r: Ring, me: Process, i: Input, other: Process)
    requires RingOk(r) && ProcessOk(r, me) && ProcessOk(r, other) && Next(r, me.pc, i).Some? && Apart(other.pc, me.pc)
    ensures ProcessOk(Next(r, me.pc, i).value.ring, other)
  {
    RingFiles(r);
    NextKeeps(r, me.floor, me.pc, i);
    NextSpares(r, me.floor, me.pc, i, other.pc);
    PcStays(r, Next(r, me.pc, i).value.ring, other.floor, other.pc);
  }

  lemma AdvanceShape(w: World, p: nat, i: Input)
    requires p in w.procs && Next(w.ring, w.procs[p].pc, i).Some?
    ensures var o := Next(w.ring, w.procs[p].pc, i).value;
            Step(w, Advance(p, i)) == World(o.ring, w.procs[p := Process(o.pc, Floor(w.procs[p].floor, o.pc, o.ring))])
  {
  }

  lemma StepOf(w: World, p: nat, i: Input)
    requires p in w.procs
    ensures var next := Next(w.ring, w.procs[p].pc, i);
            if next.None? then Step(w, Advance(p, i)) == w.(procs := w.procs - {p})
            else p in Step(w, Advance(p, i)).procs && Step(w, Advance(p, i)).procs[p].pc == next.value.pc &&
                 Step(w, Advance(p, i)).ring == next.value.ring
  {
  }

  lemma AdvanceKeeps(w: World, p: nat, i: Input)
    requires Inv(w) && p in w.procs && Next(w.ring, w.procs[p].pc, i).Some?
    ensures Inv(Step(w, Advance(p, i))) && Extends(w.ring, Step(w, Advance(p, i)).ring)
  {
    AdvanceShape(w, p, i);
    hide *;
    AllOk(w);
    var me, o := w.procs[p], Next(w.ring, w.procs[p].pc, i).value;
    var w' := Step(w, Advance(p, i));
    MoverOutcome(w.ring, me, i);
    MoverOk(w.ring, me, i);
    forall q | q in w'.procs
      ensures ProcessOk(w'.ring, w'.procs[q])
    {
      if q != p {
        OwnersApart(w, q, p);
        BystanderOk(w.ring, me, i, w.procs[q]);
      }
    }
    LocksStayOwn(w, w', p);
    AllTogether(w');
  }

  lemma MoverOutcome(r: Ring, me: Process, i: Input)
    requires RingOk(r) && ProcessOk(r, me) && Next(r, me.pc, i).Some?
    ensures var o := Next(r, me.pc, i).value; RingOk(o.ring) && Extends(r, o.ring)
    ensures var o := Next(r, me.pc, i).value; forall f | Owns(o.pc, f) :: Owns(me.pc, f) || f !in r.locks
  {
    NextKeeps(r, me.floor, me.pc, i);
  }

  lemma AllOk(w: World)
    requires Inv(w)
    ensures RingOk(w.ring) && ProcessesOk(w) && LocksOk(w) && forall p | p in w.procs :: ProcessOk(w.ring, w.procs[p])
  {
  }

  lemma AllTogether(w: World)
    requires RingOk(w.ring) && LocksOk(w) && forall p | p in w.procs :: ProcessOk(w.ring, w.procs[p])
    ensures Inv(w)
  {
  }

  function Remembering(keys: Keys, hash: Hash): Pc {
    TakeLock(PublishedFile(keys.epoch), Published(keys.pair, keys.link, hash), CheckMarker(keys, hash))
  }

  lemma RememberingOk(r: Ring, floor: set<nat>, keys: Keys, hash: Hash)
    requires Genuine(r, keys) && floor <= r.elected.Keys
    ensures ProcessOk(r, Process(Remembering(keys, hash), floor)) && forall f :: !Owns(Remembering(keys, hash), f)
  {
  }

  lemma RememberShape(w: World, p: nat, hash: Hash)
    requires Enabled(w, Remember(p, hash))
    ensures w.procs[p].pc.Done?
    ensures Step(w, Remember(p, hash)) ==
            w.(procs := w.procs[p := Process(Remembering(w.procs[p].pc.keys, hash), w.procs[p].floor)])
  {
  }

  lemma DoneIsGenuine(w: World, p: nat)
    requires Inv(w) && p in w.procs && w.procs[p].pc.Done?
    ensures Genuine(w.ring, w.procs[p].pc.keys) && w.procs[p].floor <= w.ring.elected.Keys
  {
  }

  lemma RememberKeeps(w: World, p: nat, hash: Hash)
    requires Inv(w) && Enabled(w, Remember(p, hash))
    ensures Inv(Step(w, Remember(p, hash))) && Step(w, Remember(p, hash)).ring == w.ring
  {
    RememberShape(w, p, hash);
    DoneIsGenuine(w, p);
    hide *;
    AllOk(w);
    var w' := Step(w, Remember(p, hash));
    var me := w.procs[p];
    RememberingOk(w.ring, me.floor, me.pc.keys, hash);
    LocksStayOwn(w, w', p);
    AllTogether(w');
  }

  lemma BeginKeeps(w: World, p: nat, purpose: Purpose)
    requires Inv(w) && Enabled(w, Begin(p, purpose))
    ensures Inv(Step(w, Begin(p, purpose)))
  {
  }

  lemma StopKeeps(w: World, p: nat)
    requires Inv(w) && p in w.procs
    ensures Inv(w.(procs := w.procs - {p}))
  {
  }

  lemma StepKeeps(w: World, a: Action)
    requires Inv(w) && Enabled(w, a)
    ensures Inv(Step(w, a)) && Extends(w.ring, Step(w, a).ring)
  {
    if a.Advance? && Next(w.ring, w.procs[a.p].pc, a.input).Some? {
      AdvanceKeeps(w, a.p, a.input);
    } else {
      hide Inv;
      if a.Remember? {
        RememberKeeps(w, a.p, a.hash);
      } else if a.Begin? {
        BeginKeeps(w, a.p, a.purpose);
      } else {
        StopKeeps(w, a.p);
      }
    }
  }
}

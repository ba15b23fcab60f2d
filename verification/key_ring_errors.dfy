/** Every way in which an operation on the key ring can fail, and that there is no other. */
module KeyRingErrors {
  import opened Wrappers
  import opened KeyRing
  import opened KeyRingInvariant
  import opened KeyRingSteps
  import opened KeyRingGuarantees
  import opened KeyRingScrub
  import opened KeyRingRefusal

  // ---- When a step throws ------------------------------------------------------------------

  /** There is no file to read, or its lock does not clear. */
  predicate Unreadable(r: Ring, f: FileId) {
    f !in r.files || f in r.locks
  }

  /** The highest epoch that was seen is retired, so its successor was installed after the listing. */
  predicate SuccessorMissed(root: Root, got: map<nat, Content>) {
    || (exists e :: e in got && forall a | a in got && got[a].Active? :: a < e)
    || (got == map[] && root.Stable?)
  }

  ghost predicate Throws(r: Ring, pc: Pc, i: Input) {
    match pc
    case ReadStates(_, root, todo, got) =>
      if todo == {} then SuccessorMissed(root, got) else i.epoch !in todo || Unreadable(r, StateFile(i.epoch))
    case ReadPublished(_, current) => PublishedFile(current.epoch) in r.files && PublishedFile(current.epoch) in r.locks
    case WaitForSlot(f, _) => Unreadable(r, f)
    case Installed(next) =>
      (match next
       case Readback(keys, _) => Unreadable(r, RetainedFile(keys.epoch))
       case CheckElection(base) => Unreadable(r, StateFile(base.epoch + 1))
       case CheckMarker(keys, hash) =>
         Unreadable(r, PublishedFile(keys.epoch)) || keys.epoch !in r.hashes || r.hashes[keys.epoch] != hash)
    case Inspect(keys, _) => keys.epoch != 1 && Unreadable(r, StateFile(keys.epoch))
    case ReadRetained(_, look, todo, got) =>
      if todo != {} then i.epoch !in todo || Unreadable(r, RetainedFile(i.epoch))
      else (match look
            case ForDecryption(e) => e !in got || !got[e].Retained? || got[e].until <= i.now
            case ForEviction =>
              |set e | e in got && got[e].Retained? && i.now < got[e].until| + 1 >= 8 && !IsOldest(LiveRetained(got, i.now), i.epoch))
    case LoadJobs(_, oldest) => exists j :: j in i.jobs && j.expiresAt > i.now && j.epoch == oldest
    case Evict(_, oldest, _, _) => RetainedFile(oldest) !in r.files
    case Extend(base) => base.published.None?
    case _ => false
  }

  lemma UnreadableIs(r: Ring, f: FileId)
    requires FilesOk(r)
    ensures Unreadable(r, f) <==> !Readable(r, f)
  {
    assert f in r.files && r.files[f].None? ==> PartialOk(r, f);
  }

  lemma AboveAllActive(got: map<nat, Content>, top: nat, highest: nat)
    requires forall e | e in got :: 2 <= e <= highest
    requires got != map[] ==> highest in got
    requires top > 0 ==> top in got && got[top].Active?
    requires forall e | e in got && got[e].Active? :: e <= top
    ensures (exists e :: e in got && forall a | a in got && got[a].Active? :: a < e) <==> got != map[] && highest > top
  {
    if got != map[] && highest > top {
      assert forall a | a in got && got[a].Active? :: a < highest;
    }
    if e :| e in got && forall a | a in got && got[a].Active? :: a < e {
      assert e <= highest;
    }
  }

  lemma ChoiceCases(purpose: Purpose, root: Root, got: map<nat, Content>)
    ensures var highest := MaxOf(got.Keys);
            var top := TopActive(got, highest);
            Chosen(purpose, root, got).None? <==> if top > 0 then highest > top else root.Stable? || highest > 1
  {
    hide MaxOf;
    hide TopActive;
    hide ActiveDownFrom;
  }

  lemma TopFacts(got: map<nat, Content>)
    requires forall e | e in got :: e >= 2
    ensures var highest := MaxOf(got.Keys);
            var top := TopActive(got, highest);
            && (forall e | e in got :: 2 <= e <= highest) && (if got == map[] then highest == 0 else highest in got)
            && (top > 0 ==> top in got && got[top].Active?) && (forall e | e in got && got[e].Active? :: e <= top)
  {
    assert forall e | e in got :: e in got.Keys;
    assert got == map[] <==> got.Keys == {};
    hide MaxOf;
    hide TopActive;
  }

  lemma ChoiceFails(purpose: Purpose, root: Root, got: map<nat, Content>)
    requires forall e | e in got :: e >= 2
    ensures Chosen(purpose, root, got).None? <==> SuccessorMissed(root, got)
  {
    hide Chosen;
    hide MaxOf;
    hide TopActive;
    ChoiceCases(purpose, root, got);
    TopFacts(got);
    var highest := MaxOf(got.Keys);
    AboveAllActive(got, TopActive(got, highest), highest);
  }

  lemma LoadThrows(r: Ring, floor: set<nat>, pc: Pc, i: Input)
    requires FilesOk(r) && PcOk(r, floor, pc) && PcScrub(r, floor, pc) && IsLoading(pc)
    ensures LoadNext(r, pc, i).None? <==> Throws(r, pc, i)
  {
    if pc.ReadStates? {
      UnreadableIs(r, StateFile(i.epoch));
      if pc.todo == {} {
        assert forall e | e in pc.got :: StateOk(r, e, pc.got[e]);
        ChoiceFails(pc.purpose, pc.root, pc.got);
      }
      hide Chosen;
      hide SuccessorMissed;
    } else if pc.ReadPublished? {
      if pc.purpose.LostElection? {
        TargetIsBelow(r, floor, pc);
      }
      PublishedThrows(r, pc.purpose, pc.current, floor, i);
    }
  }

  /** No purpose refuses the key a load has settled on, but that of a lost election. */
  lemma PublishedThrows(r: Ring, purpose: Purpose, current: Keys, floor: set<nat>, i: Input)
    requires FilesOk(r) && Genuine(r, current)
    requires purpose.LostElection? ==> current.epoch > purpose.target
    ensures var f := PublishedFile(current.epoch);
            LoadNext(r, ReadPublished(purpose, current), i).None? <==> f in r.files && f in r.locks
  {
    var f := PublishedFile(current.epoch);
    UnreadableIs(r, f);
    if Full(r, f) {
      MarkerAgrees(r, current);
    }
  }

  lemma InstallThrows(r: Ring, pc: Pc, i: Input)
    requires FilesOk(r) && IsInstalling(pc)
    ensures InstallNext(r, pc).None? <==> Throws(r, pc, i)
  {
    UnreadableIs(r, pc.file);
  }

  lemma ReadbackThrows(r: Ring, keys: Keys, back: Back, i: Input)
    requires FilesOk(r) && Genuine(r, keys)
    ensures InstalledNext(r, Readback(keys, back), i).None? <==> Unreadable(r, RetainedFile(keys.epoch))
  {
    var f := RetainedFile(keys.epoch);
    UnreadableIs(r, f);
    if Full(r, f) {
      assert ContentOk(r, f, r.files[f].value);
    }
  }

  lemma ElectionThrows(r: Ring, base: Keys, i: Input)
    requires RingOk(r) && Genuine(r, base) && base.published.Some?
    ensures InstalledNext(r, CheckElection(base), i).None? <==> Unreadable(r, StateFile(base.epoch + 1))
  {
    var f := StateFile(base.epoch + 1);
    UnreadableIs(r, f);
    if Full(r, f) {
      assert ContentOk(r, f, r.files[f].value);
      assert ChainOk(r);
    }
  }

  lemma MarkerThrows(r: Ring, keys: Keys, hash: Hash, i: Input)
    requires FilesOk(r) && WinnersOk(r) && Genuine(r, keys)
    ensures InstalledNext(r, CheckMarker(keys, hash), i).None? <==>
            Unreadable(r, PublishedFile(keys.epoch)) || keys.epoch !in r.hashes || r.hashes[keys.epoch] != hash
  {
    var f := PublishedFile(keys.epoch);
    UnreadableIs(r, f);
    if Full(r, f) {
      assert ContentOk(r, f, r.files[f].value);
    }
  }

  lemma InspectThrows(r: Ring, keys: Keys, back: Back, i: Input)
    requires RingOk(r) && Genuine(r, keys)
    ensures RetireStep(r, Inspect(keys, back), i).None? <==> keys.epoch != 1 && Unreadable(r, StateFile(keys.epoch))
  {
    var f := StateFile(keys.epoch);
    UnreadableIs(r, f);
    if keys.epoch != 1 && Full(r, f) {
      assert ContentOk(r, f, r.files[f].value);
    }
  }

  lemma ScrubGoesOn(r: Ring, keys: Keys, back: Back, i: Input)
    requires ChainOk(r) && Genuine(r, keys)
    ensures RetireStep(r, Scrub(keys, back), i).Some?
  {
  }

  lemma RetireThrows(r: Ring, floor: set<nat>, pc: Pc, i: Input)
    requires RingOk(r) && PcOk(r, floor, pc) && IsRetiring(pc)
    ensures RetireStep(r, pc, i).None? <==> Throws(r, pc, i)
  {
    RingFiles(r);
    if pc.Inspect? {
      InspectThrows(r, pc.keys, pc.back, i);
    } else if pc.Scrub? {
      ScrubGoesOn(r, pc.keys, pc.back, i);
    } else {
      match pc.next {
        case Readback(keys, back) => ReadbackThrows(r, keys, back, i);
        case CheckElection(base) => ElectionThrows(r, base, i);
        case CheckMarker(keys, hash) => MarkerThrows(r, keys, hash, i);
      }
    }
  }

  lemma RotateThrows(r: Ring, floor: set<nat>, pc: Pc, i: Input)
    requires FilesOk(r) && PcOk(r, floor, pc) && IsRotating(pc)
    ensures RotateNext(r, pc, i).None? <==> Throws(r, pc, i)
  {
    if pc.ReadRetained? {
      UnreadableIs(r, RetainedFile(i.epoch));
      assert (set e | e in pc.got && pc.got[e].Retained? && i.now < pc.got[e].until) == LiveRetained(pc.got, i.now);
    }
  }

  lemma StepThrows(r: Ring, floor: set<nat>, pc: Pc, i: Input)
    requires RingOk(r) && PcOk(r, floor, pc) && PcScrub(r, floor, pc) && !pc.Done?
    ensures Next(r, pc, i).None? <==> Throws(r, pc, i)
  {
    RingFiles(r);
    hide RingOk;
    hide FilesOk;
    hide PcOk;
    hide PcScrub;
    hide Throws;
    if IsLoading(pc) {
      LoadThrows(r, floor, pc, i);
    } else if IsInstalling(pc) {
      InstallThrows(r, pc, i);
    } else if IsRetiring(pc) {
      RetireThrows(r, floor, pc, i);
    } else {
      RotateThrows(r, floor, pc, i);
    }
  }

  /** In any run, an operation goes on unless a file it needs is missing or stays locked, the highest state
      it saw was retired under it, the marker it finds is another than the one it tried to install, the
      asked copy is missing or expired, a live job needs the oldest copy, or its base is unpublished. None
      of the other checks in the code can ever fail. */
  lemma ErrorsAreExact(pair: Pair, ws: seq<World>, acts: seq<Action>, j: nat, p: nat, i: Input)
    requires Behaviour(pair, ws, acts) && j < |ws| && p in ws[j].procs && !ws[j].procs[p].pc.Done?
    ensures p !in Step(ws[j], Advance(p, i)).procs <==> Throws(ws[j].ring, ws[j].procs[p].pc, i)
  {
    RunScrubs(pair, ws, acts, j);
    RunKeeps(pair, ws, acts, j);
    AllOk(ws[j]);
    var w, me := ws[j], ws[j].procs[p];
    assert PcScrub(w.ring, me.floor, me.pc) && PcOk(w.ring, me.floor, me.pc);
    hide Inv;
    hide RingOk;
    hide PcOk;
    hide PcScrub;
    hide Throws;
    StepThrows(w.ring, me.floor, me.pc, i);
    StepOf(w, p, i);
    hide Next;
    hide Step;
    hide Enabled;
  }

  lemma MissedIsSuperseded(r: Ring, floor: set<nat>, root: Root, got: map<nat, Content>)
    requires RootOk(r, root) && GotStates(r, floor, {}, got) && SuccessorMissed(root, got)
    ensures exists h :: h in r.elected && h > 1 && forall e | e in got :: e < h
  {
    if got == map[] {
      var h :| h > 1 && h in r.elected;
    } else {
      TopFacts(got);
      var top := MaxOf(got.Keys);
      assert top in got && StateOk(r, top, got[top]);
      assert !got[top].Active?;
      var h :| h > top && h in r.elected;
    }
  }

  /** When a load gives up because it saw no active epoch above all retired ones, there is one: an epoch
      above all it saw is installed, and its private key is in place. */
  lemma ThereIsASuccessor(pair: Pair, ws: seq<World>, acts: seq<Action>, j: nat, p: nat, i: Input)
    requires Behaviour(pair, ws, acts) && j < |ws| && p in ws[j].procs
    requires ws[j].procs[p].pc.ReadStates? && ws[j].procs[p].pc.todo == {} && p !in Step(ws[j], Advance(p, i)).procs
    ensures var r, h := ws[j].ring, MaxOf(ws[j].ring.elected.Keys);
            Usable(r, h) && forall e | e in ws[j].procs[p].pc.got :: e < h
  {
    ErrorsAreExact(pair, ws, acts, j, p, i);
    HighestStaysUsable(pair, ws, acts, j);
    RunKeeps(pair, ws, acts, j);
    AllOk(ws[j]);
    var r, me := ws[j].ring, ws[j].procs[p];
    assert PcOk(r, me.floor, me.pc);
    hide Inv;
    hide Step;
    hide RingOk;
    hide Usable;
    MissedIsSuperseded(r, me.floor, me.pc.root, me.pc.got);
    var h :| h in r.elected && h > 1 && forall e | e in me.pc.got :: e < h;
    assert h in r.elected.Keys;
  }

  // ---- Files that no run writes ------------------------------------------------------------

  function Read(r: Ring, f: FileId): Option<Content> {
    if Readable(r, f) then r.files[f] else None
  }

  /** Whatever is on disk, even if no run could have written it: an operation goes on past a check only if
      the file is the one it expects. */
  lemma ForeignFilesAreRefused(r: Ring, pc: Pc, i: Input)
    requires Next(r, pc, i).Some?
    ensures pc.ReadPublished? ==>
              var f, c := PublishedFile(pc.current.epoch), Read(r, PublishedFile(pc.current.epoch));
              f !in r.files || (c.Some? && c.value.Published? && c.value.pair == pc.current.pair && c.value.link == pc.current.link)
    ensures pc.ReadPublished? && pc.purpose.LostElection? ==> pc.current.epoch > pc.purpose.target
    ensures pc.Installed? && pc.next.Readback? ==>
              var c := Read(r, RetainedFile(pc.next.keys.epoch)); c.Some? && c.value.Retained? && c.value.pair == pc.next.keys.pair
    ensures pc.Installed? && pc.next.CheckElection? ==>
              var c := Read(r, StateFile(pc.next.base.epoch + 1));
              c.Some? && (c.value.Retired? || (c.value.Active? && pc.next.base.published == Some(c.value.prev)))
    ensures pc.Installed? && pc.next.CheckMarker? ==>
              Read(r, PublishedFile(pc.next.keys.epoch)) == Some(Published(pc.next.keys.pair, pc.next.keys.link, pc.next.hash))
  {
  }

  /** And a private key is scrubbed only if it is the one that was retained. */
  lemma ScrubIsChecked(r: Ring, keys: Keys, back: Back, i: Input)
    requires Next(r, Inspect(keys, back), i) == Some(Outcome(r, Scrub(keys, back)))
    ensures if keys.epoch == 1 then r.root == Initial(keys.pair)
            else Read(r, StateFile(keys.epoch)).Some? && Read(r, StateFile(keys.epoch)).value.Active? &&
                 Read(r, StateFile(keys.epoch)).value.pair == keys.pair && keys.link == Some(Read(r, StateFile(keys.epoch)).value.prev)
  {
    if back.ToLoad? {
      assert Return(back).RetireNext?;
    } else {
      assert Return(back).ReadRoot?;
    }
  }

  // ---- A run in which a load misses the successor ------------------------------------------

  /** A second process steps beside the first. */
  lemma BesideMoves(w: World, pc: Pc, i: Input, o: Outcome) returns (w': World)
    requires Reachable(w) && 1 in w.procs && w.procs[1].pc == pc && Next(w.ring, pc, i) == Some(o)
    ensures Reachable(w') && w'.ring == o.ring && 1 in w'.procs && w'.procs[1].pc == o.pc && w'.procs - {1} == w.procs - {1}
  {
    w' := Step(w, Advance(1, i));
    ReachOn(w, Advance(1, i));
    AdvanceShape(w, 1, i);
    hide Next;
  }

  lemma BesideBegins(w: World) returns (w': World)
    requires Reachable(w) && w.procs == map[]
    ensures Reachable(w') && w'.ring == w.ring && 1 in w'.procs && w'.procs[1].pc == ReadRoot(ToUse) && w'.procs - {1} == map[]
  {
    w' := Step(w, Begin(1, ToUse));
    ReachOn(w, Begin(1, ToUse));
    assert w'.procs - {1} == map[];
  }

  /** It has listed the epochs of a ring with two, and read none. */
  lemma BesideListed(w: World, r: Ring) returns (w': World)
    requires Quiet(w, r) && Stage(r, 2, false) && w.procs == map[]
    ensures Quiet(w', r) && 1 in w'.procs && w'.procs[1].pc == ReadStates(ToUse, Stable, {2}, map[])
  {
    var todo := set f | f in r.files && f.StateFile? :: f.epoch;
    ListMoves(r, ToUse, todo);
    StageTodo(r, 2, false, todo);
    assert todo == {2};
    assert r.root == Stable;
    var w1 := BesideBegins(w);
    var w2 := BesideMoves(w1, ReadRoot(ToUse), NOTHING, Outcome(r, ListStates(ToUse, r.root)));
    w' := BesideMoves(w2, ListStates(ToUse, r.root), NOTHING, Outcome(r, ReadStates(ToUse, r.root, todo, map[])));
    assert 0 !in w'.procs - {1};
  }

  lemma SecondIsRetired(r: Ring)
    requires RingOk(r) && Stage(r, 3, false)
    ensures Readable(r, StateFile(2)) && r.files[StateFile(2)].value.Retired? && Usable(r, 3)
  {
    hide RingOk;
    StateHeld(r, 2);
    StateHeld(r, 3);
  }

  lemma RetiredIsMissed(r: Ring, c: Content)
    requires Readable(r, StateFile(2)) && r.files[StateFile(2)].value == c && c.Retired?
    ensures Next(r, ReadStates(ToUse, Stable, {2}, map[]), Input(2, 0, 0, {})) == Some(Outcome(r, ReadStates(ToUse, Stable, {}, map[2 := c])))
    ensures Next(r, ReadStates(ToUse, Stable, {}, map[2 := c]), NOTHING).None?
  {
    var got := map[2 := c];
    assert {2} - {2} == {} && map[][2 := c] == got;
    ChoiceFails(ToUse, Stable, got);
    assert 2 in got && forall a | a in got && got[a].Active? :: a < 2;
    hide Chosen;
  }

  /** A load that lists the epochs, waits while another process publishes and rotates, and reads on, gives
      up for want of an active epoch while the current key is in place. */
  lemma SuccessorCanBeMissed() returns (w: World, c: Content)
    ensures Reachable(w) && 1 in w.procs && w.procs[1].pc == ReadStates(ToUse, Stable, {}, map[2 := c]) && c.Retired?
    ensures Usable(w.ring, 3) && 1 !in Step(w, Advance(1, NOTHING)).procs
  {
    var w0, r0 := Climb(2);
    var w1 := BesideListed(w0, r0);
    var w2, r2 := PublishAlone(w1, r0, 2);
    var w3, r3 := RotateAlone(w2, r2, 2);
    assert 1 in Others(w1) && Others(w3) == Others(w1);
    ReachInv(w3);
    hide Stage;
    hide Next;
    hide Step;
    hide Usable;
    SecondIsRetired(r3);
    c := r3.files[StateFile(2)].value;
    RetiredIsMissed(r3, c);
    w := BesideMoves(w3, ReadStates(ToUse, Stable, {2}, map[]), Input(2, 0, 0, {}), Outcome(r3, ReadStates(ToUse, Stable, {}, map[2 := c])));
    StepOf(w, 1, NOTHING);
  }
}

/** A load leaves no superseded private key in place, and a rotation that lost its election finds the
    epoch it lost to. */
module KeyRingScrub {
  import opened Wrappers
  import opened KeyRing
  import opened KeyRingInvariant
  import opened KeyRingSteps
  import opened KeyRingGuarantees
  import opened KeyRingDecryption

  // ---- What is still to be scrubbed --------------------------------------------------------

  predicate AllGoneBut(r: Ring, n: nat, left: set<nat>) {
    forall e | 1 <= e < n :: PrivateKeyGone(r, e) || e in left
  }

  function Epochs(left: seq<Keys>): set<nat> {
    set k | k in left :: k.epoch
  }

  /** Whoever lost the election of an epoch had already seen a later one. */
  predicate Purposed(floor: set<nat>, purpose: Purpose) {
    purpose.LostElection? ==> exists h :: h in floor && h > purpose.target
  }

  predicate BackScrub(r: Ring, floor: set<nat>, back: Back, e: nat) {
    back.ToLoad? ==> Purposed(floor, back.purpose) && AllGoneBut(r, back.current.epoch, Epochs(back.left) + {e})
  }

  predicate ThenScrub(r: Ring, floor: set<nat>, next: Then) {
    next.Readback? ==> BackScrub(r, floor, next.back, next.keys.epoch)
  }

  /** Epochs from 2 on, without gaps. */
  predicate Closed(epochs: set<nat>) {
    forall e | e in epochs :: e >= 2 && (e == 2 || e - 1 in epochs)
  }

  predicate RetiredAreGone(r: Ring, got: map<nat, Content>) {
    forall e | e in got && got[e].Retired? :: e != 1 && PrivateKeyGone(r, e)
  }

  predicate PcScrub(r: Ring, floor: set<nat>, pc: Pc) {
    match pc
    case ReadRoot(purpose) => Purposed(floor, purpose)
    case ListStates(purpose, root) => Purposed(floor, purpose) && (root.Stable? ==> r.root.Stable?)
    case ReadStates(purpose, root, todo, got) =>
      Purposed(floor, purpose) && (root.Stable? ==> r.root.Stable?) && Closed(todo + got.Keys) && RetiredAreGone(r, got)
    case RetireNext(purpose, current, left) => Purposed(floor, purpose) && AllGoneBut(r, current.epoch, Epochs(left))
    case ReadPublished(purpose, current) => Purposed(floor, purpose) && AllGoneBut(r, current.epoch, {})
    case TakeLock(_, _, next) => ThenScrub(r, floor, next)
    case OpenFile(_, _, next) => ThenScrub(r, floor, next)
    case WriteFile(_, _, next) => ThenScrub(r, floor, next)
    case DropLock(_, next) => ThenScrub(r, floor, next)
    case WaitForSlot(_, next) => ThenScrub(r, floor, next)
    case Installed(next) => ThenScrub(r, floor, next)
    case Inspect(keys, back) => BackScrub(r, floor, back, keys.epoch)
    case Scrub(keys, back) => BackScrub(r, floor, back, keys.epoch)
    case Done(keys, asked) => asked.None? ==> AllGoneBut(r, keys.epoch, {})
    case _ => true
  }

  predicate StatesClosed(r: Ring) {
    forall f | f in r.files && f.StateFile? :: f.epoch >= 2 && (f.epoch == 2 || StateFile(f.epoch - 1) in r.files)
  }

  predicate ScrubInv(w: World) {
    StatesClosed(w.ring) && forall p | p in w.procs :: PcScrub(w.ring, w.procs[p].floor, w.procs[p].pc)
  }

  // ---- What is gone stays gone -------------------------------------------------------------

  ghost predicate StaysGone(r: Ring, r': Ring) {
    (r.root.Stable? ==> r'.root.Stable?) && forall e | PrivateKeyGone(r, e) :: PrivateKeyGone(r', e)
  }

  lemma InstallStaysGone(r: Ring, pc: Pc)
    requires IsInstalling(pc) && HolderOk(r, pc) && InstallNext(r, pc).Some?
    ensures StaysGone(r, InstallNext(r, pc).value.ring)
  {
  }

  lemma RetireStaysGone(r: Ring, pc: Pc, i: Input)
    requires IsRetiring(pc) && RetireStep(r, pc, i).Some?
    ensures StaysGone(r, RetireStep(r, pc, i).value.ring)
  {
    if pc.Installed? {
      assert RetireStep(r, pc, i).value.ring == r;
    } else if pc.Inspect? {
      InspectShape(r, pc, i);
    }
  }

  lemma RotateStaysGone(r: Ring, pc: Pc, i: Input)
    requires IsRotating(pc) && RotateNext(r, pc, i).Some?
    ensures StaysGone(r, RotateNext(r, pc, i).value.ring)
  {
  }

  lemma NextStaysGone(r: Ring, pc: Pc, i: Input)
    requires HolderOk(r, pc) && Next(r, pc, i).Some?
    ensures StaysGone(r, Next(r, pc, i).value.ring)
  {
    hide HolderOk;
    if IsLoading(pc) {
      LoadShape(r, pc, i);
    } else if IsInstalling(pc) {
      InstallStaysGone(r, pc);
    } else if IsRetiring(pc) {
      RetireStaysGone(r, pc, i);
    } else {
      RotateStaysGone(r, pc, i);
    }
  }

  lemma BackScrubStays(r: Ring, r': Ring, floor: set<nat>, back: Back, e: nat)
    requires StaysGone(r, r') && BackScrub(r, floor, back, e)
    ensures BackScrub(r', floor, back, e)
  {
    hide PrivateKeyGone;
  }

  lemma PcScrubStays(r: Ring, r': Ring, floor: set<nat>, pc: Pc)
    requires StaysGone(r, r') && PcScrub(r, floor, pc)
    ensures PcScrub(r', floor, pc)
  {
    hide PrivateKeyGone;
    hide BackScrub;
    match pc
    case TakeLock(_, _, next) => ThenScrubStays(r, r', floor, next);
    case OpenFile(_, _, next) => ThenScrubStays(r, r', floor, next);
    case WriteFile(_, _, next) => ThenScrubStays(r, r', floor, next);
    case DropLock(_, next) => ThenScrubStays(r, r', floor, next);
    case WaitForSlot(_, next) => ThenScrubStays(r, r', floor, next);
    case Installed(next) => ThenScrubStays(r, r', floor, next);
    case Inspect(keys, back) => BackScrubStays(r, r', floor, back, keys.epoch);
    case Scrub(keys, back) => BackScrubStays(r, r', floor, back, keys.epoch);
    case _ =>
  }

  lemma ThenScrubStays(r: Ring, r': Ring, floor: set<nat>, next: Then)
    requires StaysGone(r, r') && ThenScrub(r, floor, next)
    ensures ThenScrub(r', floor, next)
  {
    if next.Readback? {
      BackScrubStays(r, r', floor, next.back, next.keys.epoch);
    }
  }

  // ---- State files stay without gaps -------------------------------------------------------

  lemma OpenedIsClosed(r: Ring, f: FileId)
    requires StatesClosed(r) && (f.StateFile? ==> f.epoch >= 2 && (f.epoch == 2 || StateFile(f.epoch - 1) in r.files))
    ensures StatesClosed(r.(files := r.files[f := None]))
  {
  }

  lemma CandidateFollows(r: Ring, f: FileId, c: Content)
    requires WinnersOk(r) && CandidateOk(r, f, c) && f.StateFile?
    ensures f.epoch >= 2 && (f.epoch == 2 || StateFile(f.epoch - 1) in r.files)
  {
    if f.epoch > 2 {
      assert f.epoch - 1 in r.elected;
    }
  }

  lemma OpenKeepsClosed(r: Ring, floor: set<nat>, pc: Pc)
    requires WinnersOk(r) && StatesClosed(r) && pc.OpenFile? && PcOk(r, floor, pc) && InstallNext(r, pc).Some?
    ensures StatesClosed(InstallNext(r, pc).value.ring)
  {
    if pc.file !in r.files {
      if pc.file.StateFile? {
        CandidateFollows(r, pc.file, pc.content);
      }
      hide PcOk;
      hide WinnersOk;
      OpenedIsClosed(r, pc.file);
    }
    hide StatesClosed;
  }

  lemma NextKeepsClosed(r: Ring, floor: set<nat>, pc: Pc, i: Input)
    requires WinnersOk(r) && StatesClosed(r) && PcOk(r, floor, pc) && HolderOk(r, pc) && Next(r, pc, i).Some?
    ensures StatesClosed(Next(r, pc, i).value.ring)
  {
    if pc.OpenFile? {
      OpenKeepsClosed(r, floor, pc);
    } else {
      hide PcOk;
      SameStateFiles(r, pc, i);
    }
  }

  lemma SameStateFiles(r: Ring, pc: Pc, i: Input)
    requires WinnersOk(r) && HolderOk(r, pc) && Next(r, pc, i).Some? && !pc.OpenFile?
    requires pc.Scrub? && pc.keys.epoch != 1 ==> StateFile(pc.keys.epoch) in r.files
    ensures forall f: FileId | f.StateFile? :: f in Next(r, pc, i).value.ring.files <==> f in r.files
  {
    if IsLoading(pc) {
      LoadShape(r, pc, i);
    } else if pc.Inspect? {
      InspectShape(r, pc, i);
    }
  }

  // ---- Steps of one process ----------------------------------------------------------------

  lemma {:induction false} ActiveAreLeft(got: map<nat, Content>, n: nat, e: nat)
    requires 2 <= e <= n && e in got && got[e].Active?
    ensures StateKeys(e, got[e]) in ActiveDownFrom(got, n)
    decreases n
  {
    if e < n {
      ActiveAreLeft(got, n - 1, e);
    }
  }

  lemma {:induction false} ClosedBelow(epochs: set<nat>, n: nat, e: nat)
    requires Closed(epochs) && n in epochs && 2 <= e <= n
    ensures e in epochs
    decreases n
  {
    if e < n {
      ClosedBelow(epochs, n - 1, e);
    }
  }

  /** Everything below the key a load settles on is gone, or on its list. */
  lemma ChosenScrubs(r: Ring, floor: set<nat>, purpose: Purpose, root: Root, got: map<nat, Content>)
    requires (root.Stable? ==> r.root.Stable?) && Closed(got.Keys) && RetiredAreGone(r, got)
    requires forall e | e in got :: got[e].Active? || got[e].Retired?
    ensures var chosen := Chosen(purpose, root, got);
            chosen.Some? ==> chosen.value.RetireNext? && chosen.value.purpose == purpose &&
                             AllGoneBut(r, chosen.value.current.epoch, Epochs(chosen.value.left))
  {
    var chosen := Chosen(purpose, root, got);
    if chosen.Some? {
      var current, left := chosen.value.current, chosen.value.left;
      forall e | 1 <= e < current.epoch
        ensures PrivateKeyGone(r, e) || e in Epochs(left)
      {
        if e == 1 {
          if root.Initial? {
            assert Keys(1, root.pair, None, None) in left;
          }
        } else {
          assert current.epoch in got.Keys;
          ClosedBelow(got.Keys, current.epoch, e);
          if got[e].Active? {
            ActiveAreLeft(got, current.epoch - 1, e);
            assert StateKeys(e, got[e]) in left;
          }
        }
      }
    }
  }

  lemma ReadStatesScrubs(r: Ring, floor: set<nat>, pc: Pc, i: Input)
    requires FilesOk(r) && pc.ReadStates? && PcOk(r, floor, pc) && PcScrub(r, floor, pc) && LoadNext(r, pc, i).Some?
    ensures PcScrub(r, floor, LoadNext(r, pc, i).value.pc)
  {
    if pc.todo == {} {
      assert {} + pc.got.Keys == pc.got.Keys;
      assert forall e | e in pc.got :: StateOk(r, e, pc.got[e]);
      ChosenScrubs(r, floor, pc.purpose, pc.root, pc.got);
      hide Chosen;
    } else {
      var e := i.epoch;
      var c := r.files[StateFile(e)].value;
      assert ContentOk(r, StateFile(e), c);
      assert (pc.todo - {e}) + pc.got[e := c].Keys == pc.todo + pc.got.Keys;
    }
  }

  lemma LoadScrubs(r: Ring, floor: set<nat>, pc: Pc, i: Input)
    requires FilesOk(r) && StatesClosed(r) && IsLoading(pc) && PcOk(r, floor, pc) && PcScrub(r, floor, pc)
    requires LoadNext(r, pc, i).Some?
    ensures PcScrub(r, floor, LoadNext(r, pc, i).value.pc)
  {
    if pc.ReadStates? {
      ReadStatesScrubs(r, floor, pc, i);
    } else if pc.ListStates? {
      var todo := set f | f in r.files && f.StateFile? :: f.epoch;
      ListingIsClosed(r, todo);
      assert todo + {} == todo;
    } else if pc.RetireNext? {
      hide PrivateKeyGone;
      if pc.left == [] {
        assert Epochs(pc.left) == {};
      } else {
        assert Epochs(pc.left) == Epochs(pc.left[1..]) + {pc.left[0].epoch};
      }
    } else {
      hide PrivateKeyGone;
    }
  }

  lemma ListingIsClosed(r: Ring, todo: set<nat>)
    requires StatesClosed(r) && todo == set f | f in r.files && f.StateFile? :: f.epoch
    ensures Closed(todo)
  {
    forall e | e in todo
      ensures e >= 2 && (e == 2 || e - 1 in todo)
    {
      assert StateFile(e) in r.files;
      assert e != 2 ==> StateFile(e - 1) in r.files;
    }
  }

  lemma ReturnScrubs(r: Ring, floor: set<nat>, back: Back, e: nat)
    requires back.ToLoad? && BackScrub(r, floor, back, e) && (e == 0 || PrivateKeyGone(r, e))
    ensures PcScrub(r, floor, Return(back))
  {
    hide PrivateKeyGone;
  }

  lemma RetireScrubs(r: Ring, floor: set<nat>, pc: Pc, i: Input)
    requires FilesOk(r) && IsRetiring(pc) && PcOk(r, floor, pc) && PcScrub(r, floor, pc) && RetireStep(r, pc, i).Some?
    ensures var o := RetireStep(r, pc, i).value; o.pc.ReadRoot? || PcScrub(o.ring, floor, o.pc)
  {
    if pc.Inspect? {
      InspectShape(r, pc, i);
      if RetireStep(r, pc, i).value.pc == Return(pc.back) && pc.back.ToLoad? {
        ReturnScrubs(r, floor, pc.back, pc.keys.epoch);
      }
    } else if pc.Scrub? {
      var r' := RetireStep(r, pc, i).value.ring;
      if pc.back.ToLoad? {
        RetireStaysGone(r, pc, i);
        BackScrubStays(r, r', floor, pc.back, pc.keys.epoch);
        ReturnScrubs(r', floor, pc.back, pc.keys.epoch);
      }
    }
  }

  /** Only a lost election loads with that purpose, and the epoch that superseded it is installed. */
  lemma NewPurpose(r: Ring, floor: set<nat>, pc: Pc, i: Input)
    requires FilesOk(r) && PcOk(r, floor, pc) && Next(r, pc, i).Some? && Next(r, pc, i).value.pc.ReadRoot?
    ensures Purposed(Next(r, pc, i).value.ring.elected.Keys, Next(r, pc, i).value.pc.purpose)
  {
    if IsLoading(pc) {
      LoadShape(r, pc, i);
    } else if pc.Installed? && pc.next.CheckElection? {
      var f := StateFile(pc.next.base.epoch + 1);
      assert ContentOk(r, f, r.files[f].value);
      if r.files[f].value.Retired? {
        var h :| h > f.epoch && h in r.elected;
      }
    }
  }

  lemma InstallScrubs(r: Ring, floor: set<nat>, pc: Pc)
    requires IsInstalling(pc) && PcScrub(r, floor, pc) && HolderOk(r, pc) && InstallNext(r, pc).Some?
    ensures PcScrub(InstallNext(r, pc).value.ring, floor, InstallNext(r, pc).value.pc)
  {
    InstallStaysGone(r, pc);
    ThenScrubStays(r, InstallNext(r, pc).value.ring, floor, pc.next);
    hide ThenScrub;
  }

  lemma RotateScrubs(r: Ring, floor: set<nat>, pc: Pc, i: Input)
    requires IsRotating(pc) && RotateNext(r, pc, i).Some?
    ensures PcScrub(RotateNext(r, pc, i).value.ring, floor, RotateNext(r, pc, i).value.pc)
  {
  }

  lemma MoverScrubs(r: Ring, me: Process, i: Input)
    requires RingOk(r) && StatesClosed(r) && ProcessOk(r, me) && PcScrub(r, me.floor, me.pc) && Next(r, me.pc, i).Some?
    ensures var o := Next(r, me.pc, i).value; PcScrub(o.ring, Floor(me.floor, o.pc, o.ring), o.pc)
  {
    RingFiles(r);
    var o := Next(r, me.pc, i).value;
    if o.pc.ReadRoot? {
      NewPurpose(r, me.floor, me.pc, i);
    } else if IsLoading(me.pc) {
      LoadShape(r, me.pc, i);
      LoadScrubs(r, me.floor, me.pc, i);
      hide *;
    } else if IsInstalling(me.pc) {
      InstallScrubs(r, me.floor, me.pc);
    } else if IsRetiring(me.pc) {
      RetireScrubs(r, me.floor, me.pc, i);
    } else {
      RotateScrubs(r, me.floor, me.pc, i);
    }
  }

  lemma AdvanceScrubs(w: World, p: nat, i: Input)
    requires Inv(w) && ScrubInv(w) && p in w.procs && Next(w.ring, w.procs[p].pc, i).Some?
    ensures ScrubInv(Step(w, Advance(p, i)))
  {
    AdvanceShape(w, p, i);
    AllOk(w);
    RingFiles(w.ring);
    var me := w.procs[p];
    var o, w' := Next(w.ring, me.pc, i).value, Step(w, Advance(p, i));
    hide Next;
    hide Step;
    hide PcScrub;
    hide PcOk;
    hide HolderOk;
    hide RingOk;
    hide StatesClosed;
    NextStaysGone(w.ring, me.pc, i);
    NextKeepsClosed(w.ring, me.floor, me.pc, i);
    MoverScrubs(w.ring, me, i);
    hide StaysGone;
    forall q | q in w'.procs
      ensures PcScrub(w'.ring, w'.procs[q].floor, w'.procs[q].pc)
    {
      if q != p {
        PcScrubStays(w.ring, w'.ring, w.procs[q].floor, w.procs[q].pc);
      }
    }
  }

  lemma StepScrubs(w: World, a: Action)
    requires Inv(w) && ScrubInv(w) && Enabled(w, a)
    ensures ScrubInv(Step(w, a))
  {
    if a.Advance? && Next(w.ring, w.procs[a.p].pc, a.input).Some? {
      AdvanceScrubs(w, a.p, a.input);
    } else {
      OtherStep(w, a);
      hide Step;
      hide Enabled;
      hide PcScrub;
      hide StatesClosed;
    }
  }

  lemma OtherStep(w: World, a: Action)
    requires Enabled(w, a) && !(a.Advance? && Next(w.ring, w.procs[a.p].pc, a.input).Some?)
    ensures Step(w, a).ring == w.ring
    ensures forall p | p in Step(w, a).procs ::
              (p in w.procs && Step(w, a).procs[p] == w.procs[p]) || PcScrub(w.ring, Step(w, a).procs[p].floor, Step(w, a).procs[p].pc)
  {
  }

  // ---- Over whole runs ---------------------------------------------------------------------

  lemma {:induction false} RunScrubs(pair: Pair, ws: seq<World>, acts: seq<Action>, i: nat)
    requires Behaviour(pair, ws, acts) && i < |ws|
    ensures ScrubInv(ws[i])
    decreases i
  {
    hide Step;
    hide Enabled;
    hide Inv;
    if i == 0 {
      RunLength(pair, ws, acts);
      assert AfterSetup(pair).procs == map[];
    } else {
      RunScrubs(pair, ws, acts, i - 1);
      RunKeeps(pair, ws, acts, i - 1);
      StepAt(pair, ws, acts, i - 1);
      hide ScrubInv;
      StepScrubs(ws[i - 1], acts[i - 1]);
    }
  }

  /** Whenever a process has loaded the current key, no private key of an earlier epoch is in place. */
  lemma LoadsScrubWhatIsBelow(pair: Pair, ws: seq<World>, acts: seq<Action>, j: nat, p: nat, e: nat)
    requires Behaviour(pair, ws, acts) && j < |ws| && p in ws[j].procs && ws[j].procs[p].pc.Done?
    requires ws[j].procs[p].pc.asked.None? && 1 <= e < ws[j].procs[p].pc.keys.epoch
    ensures PrivateKeyGone(ws[j].ring, e)
  {
    RunScrubs(pair, ws, acts, j);
    hide PrivateKeyGone;
    assert PcScrub(ws[j].ring, ws[j].procs[p].floor, ws[j].procs[p].pc);
  }

  lemma LostMoves(r: Ring, current: Keys, target: nat, i: Input)
    requires FilesOk(r) && Genuine(r, current) && target < current.epoch
    ensures var f := PublishedFile(current.epoch);
            Next(r, ReadPublished(LostElection(target), current), i) ==
            if f in r.files && f in r.locks then None
            else Some(Outcome(r, Done(current.(published := MarkerHash(r, current.epoch)), None)))
  {
    if Full(r, PublishedFile(current.epoch)) {
      MarkerAgrees(r, current);
    }
  }

  lemma TargetIsBelow(r: Ring, floor: set<nat>, pc: Pc)
    requires PcOk(r, floor, pc) && PcScrub(r, floor, pc) && pc.ReadPublished? && pc.purpose.LostElection?
    ensures Genuine(r, pc.current) && pc.purpose.target < pc.current.epoch
  {
    hide PrivateKeyGone;
    var h :| h in floor && h > pc.purpose.target;
    assert h <= pc.current.epoch;
  }

  /** A rotation that finds its epoch taken and already retired never fails for want of a successor: when
      its second load has settled on a key, that key lies above the epoch it lost, and only a marker that
      someone left locked keeps it from being returned. */
  lemma LostElectionsSettle(pair: Pair, ws: seq<World>, acts: seq<Action>, j: nat, p: nat, i: Input)
    requires Behaviour(pair, ws, acts) && j < |ws| && p in ws[j].procs
    requires ws[j].procs[p].pc.ReadPublished? && ws[j].procs[p].pc.purpose.LostElection?
    ensures var pc, w' := ws[j].procs[p].pc, Step(ws[j], Advance(p, i));
            var f := PublishedFile(pc.current.epoch);
            && (p in w'.procs <==> f !in ws[j].ring.files || f !in ws[j].ring.locks)
            && (p in w'.procs ==> w'.procs[p].pc.Done? && w'.procs[p].pc.asked.None? && w'.procs[p].pc.keys.epoch > pc.purpose.target)
  {
    RunScrubs(pair, ws, acts, j);
    RunKeeps(pair, ws, acts, j);
    AllOk(ws[j]);
    var w, me := ws[j], ws[j].procs[p];
    assert PcScrub(w.ring, me.floor, me.pc);
    hide Inv;
    hide RingOk;
    hide PcOk;
    hide PcScrub;
    RingFiles(w.ring);
    TargetIsBelow(w.ring, me.floor, me.pc);
    LostMoves(w.ring, me.pc.current, me.pc.purpose.target, i);
    StepOf(w, p, i);
    hide Next;
    hide Step;
    hide Enabled;
  }

  // ---- Rotations advance -------------------------------------------------------------------

  /** The rotation has seen its election decided and is retiring its base. */
  predicate RetiringBase(pc: Pc) {
    match pc
    case TakeLock(_, _, next) => next.Readback? && next.back.ToRotation?
    case OpenFile(_, _, next) => next.Readback? && next.back.ToRotation?
    case WriteFile(_, _, next) => next.Readback? && next.back.ToRotation?
    case DropLock(_, next) => next.Readback? && next.back.ToRotation?
    case WaitForSlot(_, next) => next.Readback? && next.back.ToRotation?
    case Installed(next) => next.Readback? && next.back.ToRotation?
    case Inspect(_, back) => back.ToRotation?
    case Scrub(_, back) => back.ToRotation?
    case _ => false
  }

  predicate Heads(w: World, p: nat, n: nat) {
    n in w.ring.elected && p in w.procs && (RetiringBase(w.procs[p].pc) || n in w.procs[p].floor)
  }

  lemma RetiringGoesOn(r: Ring, pc: Pc, i: Input)
    requires RetiringBase(pc) && Next(r, pc, i).Some?
    ensures RetiringBase(Next(r, pc, i).value.pc) || Next(r, pc, i).value.pc.ReadRoot?
  {
  }

  lemma StillThere(w: World, a: Action, p: nat)
    requires Enabled(w, a) && p in w.procs && p in Step(w, a).procs
    ensures || Step(w, a).procs[p] == w.procs[p]
            || (a.Advance? && a.p == p && Next(w.ring, w.procs[p].pc, a.input).Some?)
            || (a.Remember? && a.p == p && w.procs[p].pc.Done?)
  {
    hide Next;
  }

  lemma RetiringStays(w: World, p: nat, i: Input, n: nat)
    requires p in w.procs && RetiringBase(w.procs[p].pc) && Next(w.ring, w.procs[p].pc, i).Some?
    ensures var w' := Step(w, Advance(p, i));
            p in w'.procs && (n in w'.ring.elected ==> Heads(w', p, n))
  {
    RetiringGoesOn(w.ring, w.procs[p].pc, i);
    AdvanceShape(w, p, i);
    hide Next;
    hide Step;
    hide RetiringBase;
  }

  lemma ElectedStays(a: Ring, b: Ring, n: nat)
    requires Extends(a, b) && n in a.elected
    ensures n in b.elected
  {
  }

  lemma RememberedIsDone(w: World, p: nat, n: nat)
    requires Heads(w, p, n) && w.procs[p].pc.Done?
    ensures n in w.procs[p].floor
  {
  }

  lemma HeadsStay(w: World, a: Action, p: nat, n: nat)
    requires Inv(w) && Enabled(w, a) && Heads(w, p, n) && p in Step(w, a).procs
    ensures Heads(Step(w, a), p, n)
  {
    hide Inv;
    hide Next;
    hide Step;
    hide Enabled;
    hide RetiringBase;
    hide Extends;
    StepKeeps(w, a);
    ElectedStays(w.ring, Step(w, a).ring, n);
    StillThere(w, a, p);
    if n in w.procs[p].floor {
      FloorHolds(w, a, p, n);
    } else if w.procs[p].pc.Done? {
      RememberedIsDone(w, p, n);
    } else if a.Advance? && a.p == p && Next(w.ring, w.procs[p].pc, a.input).Some? {
      RetiringStays(w, p, a.input, n);
    }
  }

  lemma WonOrLost(r: Ring, base: Keys, i: Input)
    requires FilesOk(r) && Next(r, Installed(CheckElection(base)), i).Some?
    ensures var o := Next(r, Installed(CheckElection(base)), i).value;
            o.ring == r && base.epoch + 1 in r.elected && (RetiringBase(o.pc) || o.pc.ReadRoot?)
  {
    var f := StateFile(base.epoch + 1);
    assert ContentOk(r, f, r.files[f].value);
  }

  lemma ElectionHeads(w: World, p: nat, i: Input)
    requires Inv(w) && p in w.procs && w.procs[p].pc.Installed? && w.procs[p].pc.next.CheckElection?
    requires p in Step(w, Advance(p, i)).procs
    ensures Heads(Step(w, Advance(p, i)), p, w.procs[p].pc.next.base.epoch + 1)
  {
    AllOk(w);
    RingFiles(w.ring);
    hide Inv;
    hide Next;
    hide RingOk;
    hide FilesOk;
    StepOf(w, p, i);
    assert Next(w.ring, w.procs[p].pc, i).Some?;
    WonOrLost(w.ring, w.procs[p].pc.next.base, i);
    AdvanceShape(w, p, i);
    hide Step;
    hide RetiringBase;
  }

  lemma {:induction false} HeadsSince(pair: Pair, ws: seq<World>, acts: seq<Action>, b: nat, j: nat, p: nat, n: nat)
    requires Behaviour(pair, ws, acts) && b <= j < |ws| && Heads(ws[b], p, n) && forall k | b <= k <= j :: p in ws[k].procs
    ensures Heads(ws[j], p, n)
    decreases j
  {
    hide Inv;
    hide Step;
    hide Enabled;
    hide Heads;
    if b < j {
      HeadsSince(pair, ws, acts, b, j - 1, p, n);
      RunKeeps(pair, ws, acts, j - 1);
      StepAt(pair, ws, acts, j - 1);
      HeadsStay(ws[j - 1], acts[j - 1], p, n);
    }
  }

  /** A rotation whose election is decided, won or lost, ends with a later epoch than it began with. */
  lemma RotationsAdvance(pair: Pair, ws: seq<World>, acts: seq<Action>, b: nat, j: nat, p: nat, i: Input)
    requires Behaviour(pair, ws, acts) && b < j < |ws| && forall k | b <= k <= j :: p in ws[k].procs
    requires ws[b].procs[p].pc.Installed? && ws[b].procs[p].pc.next.CheckElection? && acts[b] == Advance(p, i)
    requires ws[j].procs[p].pc.Done? && ws[j].procs[p].pc.asked.None?
    ensures ws[j].procs[p].pc.keys.epoch > ws[b].procs[p].pc.next.base.epoch
  {
    hide Inv;
    hide Step;
    hide Enabled;
    RunKeeps(pair, ws, acts, b);
    RunKeeps(pair, ws, acts, j);
    StepAt(pair, ws, acts, b);
    assert p in ws[b].procs && p in ws[b + 1].procs && p in ws[j].procs;
    ElectionHeads(ws[b], p, i);
    HeadsSince(pair, ws, acts, b + 1, j, p, ws[b].procs[p].pc.next.base.epoch + 1);
    KnownAt(ws[j], p);
  }

  // ---- Nobody rotates unasked --------------------------------------------------------------

  predicate BackRotates(back: Back) {
    back.ToRotation? || back.purpose.ToRotate?
  }

  predicate ThenRotates(next: Then) {
    next.CheckElection? || (next.Readback? && BackRotates(next.back))
  }

  /** The operation is a rotation, at any point before its last load. */
  predicate Rotating(pc: Pc) {
    match pc
    case ReadRoot(purpose) => purpose.ToRotate?
    case ListStates(purpose, _) => purpose.ToRotate?
    case ReadStates(purpose, _, _, _) => purpose.ToRotate?
    case RetireNext(purpose, _, _) => purpose.ToRotate?
    case ReadPublished(purpose, _) => purpose.ToRotate?
    case TakeLock(_, _, next) => ThenRotates(next)
    case OpenFile(_, _, next) => ThenRotates(next)
    case WriteFile(_, _, next) => ThenRotates(next)
    case DropLock(_, next) => ThenRotates(next)
    case WaitForSlot(_, next) => ThenRotates(next)
    case Installed(next) => ThenRotates(next)
    case Inspect(_, back) => BackRotates(back)
    case Scrub(_, back) => BackRotates(back)
    case ListRetained(_, look) => look.ForEviction?
    case ReadRetained(_, look, _, _) => look.ForEviction?
    case LoadJobs(_, _) => true
    case Evict(_, _, _, _) => true
    case Extend(_) => true
    case Done(_, _) => false
  }

  lemma StaysUnasked(r: Ring, pc: Pc, i: Input)
    requires !Rotating(pc) && Next(r, pc, i).Some?
    ensures !Rotating(Next(r, pc, i).value.pc)
  {
  }

  lemma UnaskedStep(w: World, a: Action, p: nat)
    requires Enabled(w, a) && p in w.procs && p in Step(w, a).procs && !Rotating(w.procs[p].pc)
    ensures !Rotating(Step(w, a).procs[p].pc)
  {
    StillThere(w, a, p);
    if a.Advance? && a.p == p && Next(w.ring, w.procs[p].pc, a.input).Some? {
      StaysUnasked(w.ring, w.procs[p].pc, a.input);
      AdvanceShape(w, p, a.input);
    }
    hide Next;
  }

  /** An operation that was not begun as a rotation never evicts a copy or installs an epoch; and once a
      rotation loads its result, or a lost election's, it does not rotate again. */
  lemma {:induction false} NobodyRotatesUnasked(pair: Pair, ws: seq<World>, acts: seq<Action>, b: nat, j: nat, p: nat)
    requires Behaviour(pair, ws, acts) && b <= j < |ws| && forall k | b <= k <= j :: p in ws[k].procs
    requires !Rotating(ws[b].procs[p].pc)
    ensures !Rotating(ws[j].procs[p].pc)
    decreases j
  {
    hide Step;
    hide Enabled;
    hide Rotating;
    if b < j {
      NobodyRotatesUnasked(pair, ws, acts, b, j - 1, p);
      StepAt(pair, ws, acts, j - 1);
      assert p in ws[j - 1].procs && p in ws[j].procs;
      UnaskedStep(ws[j - 1], acts[j - 1], p);
    }
  }
}

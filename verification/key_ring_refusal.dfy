/** A rotation that is refused because the current epoch was not published: when it has given up a
    retained key by then, and a run in which it does. */
module KeyRingRefusal {
  import opened Wrappers
  import opened KeyRing
  import opened KeyRingInvariant
  import opened KeyRingSteps
  import opened KeyRingGuarantees

  // ---- The exact condition -----------------------------------------------------------------

  /** What a process does on its own, until it is done, refused or out of inputs. */
  ghost function Alone(w: World, p: nat, inputs: seq<Input>): World
    decreases |inputs|
  {
    if inputs == [] || p !in w.procs then w else Alone(Step(w, Advance(p, inputs[0])), p, inputs[1..])
  }

  /** The rotation has loaded its unpublished base and read every retained copy. */
  predicate Deciding(w: World, p: nat, base: Keys, got: map<nat, Content>) {
    p in w.procs && w.procs[p].pc == ReadRetained(base, ForEviction, {}, got) && base.published.None?
  }

  /** Eight live epochs with the current one, and no live job for the oldest. */
  ghost predicate MustEvict(got: map<nat, Content>, oldest: nat, now: int, jobs: set<Job>, later: int) {
    && |set e | e in got && got[e].Retained? && now < got[e].until| + 1 >= 8
    && forall j | j in jobs && j.expiresAt > later :: j.epoch != oldest
  }

  lemma MustEvictMeans(got: map<nat, Content>, oldest: nat, now: int, jobs: set<Job>, later: int)
    ensures MustEvict(got, oldest, now, jobs, later) <==>
            |LiveRetained(got, now)| + 1 >= MAX_LIVE_EPOCHS && !Needed(jobs, oldest, later)
    ensures |set e | e in got && got[e].Retained? && now < got[e].until| + 1 < 8 <==> |LiveRetained(got, now)| + 1 < MAX_LIVE_EPOCHS
    ensures (forall job | job in jobs && job.expiresAt > later :: job.epoch != oldest) <==> !Needed(jobs, oldest, later)
  {
    assert (set e | e in got && got[e].Retained? && now < got[e].until) == LiveRetained(got, now);
  }

  /** Any rotation that has read the retained copies extends the ring at once if fewer than eight epochs
      are live, and otherwise goes on to evict the oldest unless a live job needs it. */
  lemma RotationDecides(w: World, p: nat, base: Keys, got: map<nat, Content>, i: Input, j: Input)
    requires p in w.procs && w.procs[p].pc == ReadRetained(base, ForEviction, {}, got)
    requires |LiveRetained(got, i.now)| + 1 >= MAX_LIVE_EPOCHS ==> IsOldest(LiveRetained(got, i.now), i.epoch)
    ensures var w1 := Step(w, Advance(p, i));
            && p in w1.procs && w1.ring == w.ring
            && if |set e | e in got && got[e].Retained? && i.now < got[e].until| + 1 < 8 then w1.procs[p].pc == Extend(base)
               else
                 var w2 := Step(w1, Advance(p, j));
                 && w2.ring == w.ring
                 && (p in w2.procs <==> forall job | job in j.jobs && job.expiresAt > j.now :: job.epoch != i.epoch)
                 && (p in w2.procs ==> w2.procs[p].pc == Evict(base, i.epoch, j.jobs, j.now))
  {
    StepOf(w, p, i);
    var w1 := Step(w, Advance(p, i));
    DecidingMoves(w.ring, base, got, i);
    StepOf(w1, p, j);
    JobsMoves(w.ring, base, i.epoch, j);
    MustEvictMeans(got, i.epoch, i.now, j.jobs, j.now);
    hide Next;
    hide Step;
    hide LiveRetained;
    hide Needed;
    hide MustEvict;
  }

  /** The process gets to evict the oldest copy exactly under that condition; below the cap it goes
      straight on to be refused, and with the oldest still needed it is refused at once. */
  lemma RefusedRotationDecides(w: World, p: nat, base: Keys, got: map<nat, Content>, i: Input, j: Input)
    requires Inv(w) && Deciding(w, p, base, got)
    requires |LiveRetained(got, i.now)| + 1 >= MAX_LIVE_EPOCHS ==> IsOldest(LiveRetained(got, i.now), i.epoch)
    ensures var w1 := Step(w, Advance(p, i));
            && p in w1.procs && w1.ring == w.ring
            && var w2 := Step(w1, Advance(p, j));
            && w2.ring == w.ring
            && (p in w2.procs <==> MustEvict(got, i.epoch, i.now, j.jobs, j.now))
            && (p in w2.procs ==> w2.procs[p].pc == Evict(base, i.epoch, j.jobs, j.now))
            && (|LiveRetained(got, i.now)| + 1 < MAX_LIVE_EPOCHS ==> w1.procs[p].pc == Extend(base))
  {
    StepOf(w, p, i);
    var w1 := Step(w, Advance(p, i));
    DecidingMoves(w.ring, base, got, i);
    StepOf(w1, p, j);
    JobsMoves(w.ring, base, i.epoch, j);
    MustEvictMeans(got, i.epoch, i.now, j.jobs, j.now);
    hide MustEvict;
    hide Next;
    hide Step;
    hide Inv;
    hide Needed;
    hide LiveRetained;
  }

  lemma DecidingMoves(r: Ring, base: Keys, got: map<nat, Content>, i: Input)
    requires |LiveRetained(got, i.now)| + 1 >= MAX_LIVE_EPOCHS ==> IsOldest(LiveRetained(got, i.now), i.epoch)
    ensures Next(r, ReadRetained(base, ForEviction, {}, got), i) ==
            Some(Outcome(r, if |LiveRetained(got, i.now)| + 1 < MAX_LIVE_EPOCHS then Extend(base) else LoadJobs(base, i.epoch)))
  {
  }

  lemma JobsMoves(r: Ring, base: Keys, oldest: nat, j: Input)
    ensures Next(r, LoadJobs(base, oldest), j) ==
            if Needed(j.jobs, oldest, j.now) then None else Some(Outcome(r, Evict(base, oldest, j.jobs, j.now)))
    ensures base.published.None? ==> Next(r, Extend(base), j) == None
  {
  }

  /** Left to itself the rotation of an unpublished epoch is always refused, and by then it has removed
      the oldest retained copy if and only if eight epochs were live and no live job needed that one. */
  lemma RefusedRotationEvictsExactly(w: World, p: nat, base: Keys, got: map<nat, Content>, i: Input, j: Input, k: Input, l: Input)
    requires Inv(w) && Deciding(w, p, base, got)
    requires |LiveRetained(got, i.now)| + 1 >= MAX_LIVE_EPOCHS ==> IsOldest(LiveRetained(got, i.now), i.epoch)
    ensures var last := Alone(w, p, [i, j, k, l]);
            && p !in last.procs
            && last.ring == if MustEvict(got, i.epoch, i.now, j.jobs, j.now)
                            then w.ring.(files := w.ring.files - {RetainedFile(i.epoch)}) else w.ring
  {
    hide Inv;
    RefusedRotationDecides(w, p, base, got, i, j);
    hide Next;
    hide Step;
    hide LiveRetained;
    hide Needed;
    var w1 := Step(w, Advance(p, i));
    var w2 := Step(w1, Advance(p, j));
    assert [i, j, k, l][1..] == [j, k, l] && [j, k, l][1..] == [k, l] && [k, l][1..] == [l];
    assert Alone(w, p, [i, j, k, l]) == Alone(w1, p, [j, k, l]) == Alone(w2, p, [k, l]);
    if p in w2.procs {
      EvictThenRefused(w2, p, k, l);
    }
  }

  lemma EvictThenRefused(w: World, p: nat, k: Input, l: Input)
    requires p in w.procs && w.procs[p].pc.Evict? && w.procs[p].pc.base.published.None?
    ensures var last := Alone(w, p, [k, l]);
            p !in last.procs && last.ring == w.ring.(files := w.ring.files - {RetainedFile(w.procs[p].pc.oldest)})
  {
    var w1 := Step(w, Advance(p, k));
    StepOf(w, p, k);
    assert [k, l][1..] == [l] && [l][1..] == [];
    assert Alone(w, p, [k, l]) == Alone(w1, p, [l]);
    if p in w1.procs {
      StepOf(w1, p, l);
      assert Alone(w1, p, [l]) == Alone(Step(w1, Advance(p, l)), p, []);
    }
  }

  // ---- Reachable worlds --------------------------------------------------------------------

  ghost predicate Reachable(w: World) {
    exists pair, ws, acts :: Behaviour(pair, ws, acts) && ws[|acts|] == w
  }

  lemma ReachStart(pair: Pair)
    ensures Reachable(AfterSetup(pair))
  {
    assert Behaviour(pair, [AfterSetup(pair)], []);
  }

  lemma BehaviourOn(pair: Pair, ws: seq<World>, acts: seq<Action>, a: Action)
    requires Behaviour(pair, ws, acts) && Enabled(ws[|acts|], a)
    ensures Behaviour(pair, ws + [Step(ws[|acts|], a)], acts + [a])
  {
    hide Step;
    hide Enabled;
    var us, bs := ws + [Step(ws[|acts|], a)], acts + [a];
    forall i | 0 <= i < |bs|
      ensures Enabled(us[i], bs[i]) && us[i + 1] == Step(us[i], bs[i])
    {
      if i < |acts| {
        assert us[i] == ws[i] && us[i + 1] == ws[i + 1] && bs[i] == acts[i];
      }
    }
  }

  lemma ReachOn(w: World, a: Action)
    requires Reachable(w) && Enabled(w, a)
    ensures Reachable(Step(w, a))
  {
    hide Step;
    hide Enabled;
    var pair, ws, acts :| Behaviour(pair, ws, acts) && ws[|acts|] == w;
    BehaviourOn(pair, ws, acts, a);
    var us, bs := ws + [Step(w, a)], acts + [a];
    assert us[|bs|] == Step(w, a);
  }

  lemma ReachInv(w: World)
    requires Reachable(w)
    ensures Inv(w)
  {
    hide Step;
    hide Enabled;
    hide Inv;
    var pair, ws, acts :| Behaviour(pair, ws, acts) && ws[|acts|] == w;
    RunKeeps(pair, ws, acts, |acts|);
  }

  // ---- One process at work -----------------------------------------------------------------

  /** The processes beside the one at work. */
  function Others(w: World): map<nat, Process> {
    w.procs - {0}
  }

  ghost predicate At(w: World, r: Ring, pc: Pc) {
    Reachable(w) && w.ring == r && 0 in w.procs && w.procs[0].pc == pc
  }

  ghost predicate Quiet(w: World, r: Ring) {
    Reachable(w) && w.ring == r && 0 !in w.procs
  }

  lemma Move(w: World, r: Ring, pc: Pc, i: Input, o: Outcome) returns (w': World)
    requires At(w, r, pc) && Next(r, pc, i) == Some(o)
    ensures At(w', o.ring, o.pc) && Others(w') == Others(w)
  {
    hide Next;
    w' := Step(w, Advance(0, i));
    AdvanceShape(w, 0, i);
    ReachOn(w, Advance(0, i));
  }

  lemma AtRing(w: World, r: Ring, pc: Pc)
    requires At(w, r, pc)
    ensures RingOk(r)
  {
    ReachInv(w);
  }

  lemma Enter(w: World, r: Ring, purpose: Purpose) returns (w': World)
    requires Quiet(w, r) && Startable(purpose)
    ensures At(w', r, ReadRoot(purpose)) && Others(w') == Others(w)
  {
    w' := Step(w, Begin(0, purpose));
    ReachOn(w, Begin(0, purpose));
  }

  lemma Leave(w: World, r: Ring, pc: Pc) returns (w': World)
    requires At(w, r, pc)
    ensures Quiet(w', r) && Others(w') == Others(w)
  {
    w' := Step(w, Crash(0));
    ReachOn(w, Crash(0));
  }

  const NOTHING := Input(0, 0, 0, {})

  /** An installation that nobody disturbs. */
  lemma InstallAlone(w: World, r: Ring, f: FileId, c: Content, next: Then) returns (w': World)
    requires At(w, r, TakeLock(f, c, next)) && f !in r.locks && f !in r.files
    ensures At(w', Installing(r, f, c), Installed(next)) && Others(w') == Others(w)
  {
    var r1 := r.(locks := r.locks + {f});
    var r2 := r1.(files := r1.files[f := None]);
    var r3 := Installing(r2, f, c);
    var w1 := Move(w, r, TakeLock(f, c, next), NOTHING, Outcome(r1, OpenFile(f, c, next)));
    var w2 := Move(w1, r1, OpenFile(f, c, next), NOTHING, Outcome(r2, WriteFile(f, c, next)));
    var w3 := Move(w2, r2, WriteFile(f, c, next), NOTHING, Outcome(r3, DropLock(f, next)));
    w' := Move(w3, r3, DropLock(f, next), NOTHING, Outcome(r3.(locks := r3.locks - {f}), Installed(next)));
    InstalledRing(r, f, c);
  }

  lemma InstalledRing(r: Ring, f: FileId, c: Content)
    requires f !in r.locks
    ensures var r2 := r.(locks := r.locks + {f}, files := r.files[f := None]);
            var r3 := Installing(r2, f, c);
            r3.(locks := r3.locks - {f}) == Installing(r, f, c)
  {
    assert r.locks + {f} - {f} == r.locks;
    assert r.files[f := None][f := Some(c)] == r.files[f := Some(c)];
  }

  // ---- A ring after n - 1 rotations --------------------------------------------------------

  predicate InStage(f: FileId, n: nat, published: bool) {
    match f
    case StateFile(e) => 2 <= e <= n
    case RetainedFile(e) => 1 <= e < n
    case PublishedFile(e) => 1 <= e < n || (published && e == n)
  }

  ghost predicate Stage(r: Ring, n: nat, published: bool) {
    && n >= 1 && r.locks == {} && n in r.elected
    && (forall f :: f in r.files <==> InStage(f, n, published))
    && (forall f | f in r.files :: r.files[f].Some?)
    && (r.root.Initial? <==> n == 1)
    && (forall e | 2 <= e <= n :: StateFile(e) in r.files && r.files[StateFile(e)].Some? &&
                                  (r.files[StateFile(e)].value.Active? <==> e == n))
    && (forall e | 1 <= e < n :: RetainedFile(e) in r.files && r.files[RetainedFile(e)].Some? &&
                                 r.files[RetainedFile(e)].value.Retained? && r.files[RetainedFile(e)].value.until > 0)
  }

  function CurrentKeys(r: Ring, n: nat): Keys
    requires n in r.elected
  {
    Keys(n, r.elected[n].pair, r.elected[n].link, None)
  }

  ghost predicate GotAll(r: Ring, n: nat, todo: set<nat>, got: map<nat, Content>) {
    && (forall e | e in todo :: 2 <= e <= n)
    && (forall e :: e in got <==> 2 <= e <= n && e !in todo)
    && (forall e | e in got :: StateFile(e) in r.files && r.files[StateFile(e)] == Some(got[e]))
  }

  lemma {:induction false} ReadAllStates(w: World, r: Ring, n: nat, published: bool, purpose: Purpose, todo: set<nat>,
                                         got: map<nat, Content>) returns (w': World, all: map<nat, Content>)
    requires Stage(r, n, published) && GotAll(r, n, todo, got) && At(w, r, ReadStates(purpose, r.root, todo, got))
    ensures GotAll(r, n, {}, all) && At(w', r, ReadStates(purpose, r.root, {}, all)) && Others(w') == Others(w)
    decreases |todo|
  {
    if todo == {} {
      w', all := w, got;
    } else {
      var e :| e in todo;
      var more := got[e := r.files[StateFile(e)].value];
      var w1 := Move(w, r, ReadStates(purpose, r.root, todo, got), Input(e, 0, 0, {}),
                     Outcome(r, ReadStates(purpose, r.root, todo - {e}, more)));
      w', all := ReadAllStates(w1, r, n, published, purpose, todo - {e}, more);
    }
  }

  lemma {:induction false} NoActiveBelow(got: map<nat, Content>, n: nat)
    requires forall e | e in got && 2 <= e <= n :: !got[e].Active?
    ensures ActiveDownFrom(got, n) == []
    decreases n
  {
    if n >= 2 {
      NoActiveBelow(got, n - 1);
    }
  }

  lemma StateHeld(r: Ring, e: nat)
    requires RingOk(r) && Full(r, StateFile(e))
    ensures var c := r.files[StateFile(e)].value; (c.Active? || c.Retired?) && IsElected(r, e, c.pair, Some(c.prev))
  {
    assert ContentOk(r, StateFile(e), r.files[StateFile(e)].value);
  }

  lemma RootHeld(r: Ring)
    requires RingOk(r)
    ensures r.root.Initial? ==> IsElected(r, 1, r.root.pair, None)
  {
  }

  lemma StageStates(r: Ring, n: nat, published: bool, got: map<nat, Content>)
    requires Stage(r, n, published) && GotAll(r, n, {}, got)
    ensures n >= 1 && n in r.elected && (r.root.Initial? <==> n == 1)
    ensures forall e :: e in got.Keys <==> 2 <= e <= n
    ensures forall e | e in got :: Full(r, StateFile(e)) && got[e] == r.files[StateFile(e)].value && (got[e].Active? <==> e == n)
  {
  }

  lemma TopIsCurrent(r: Ring, n: nat, got: map<nat, Content>)
    requires RingOk(r) && n >= 2 && n in r.elected
    requires forall e :: e in got.Keys <==> 2 <= e <= n
    requires forall e | e in got :: Full(r, StateFile(e)) && got[e] == r.files[StateFile(e)].value && (got[e].Active? <==> e == n)
    ensures n in got && got[n].Active? && StateKeys(n, got[n]) == CurrentKeys(r, n)
    ensures MaxOf(got.Keys) == n && TopActive(got, n) == n && ActiveDownFrom(got, n - 1) == []
  {
    hide RingOk;
    assert n in got.Keys;
    StateHeld(r, n);
    NoActiveBelow(got, n - 1);
  }

  lemma StageChooses(r: Ring, n: nat, published: bool, purpose: Purpose, got: map<nat, Content>)
    requires RingOk(r) && Stage(r, n, published) && GotAll(r, n, {}, got)
    ensures n in r.elected && Chosen(purpose, r.root, got) == Some(RetireNext(purpose, CurrentKeys(r, n), []))
  {
    hide RingOk;
    hide Stage;
    hide GotAll;
    StageStates(r, n, published, got);
    var none: seq<Keys> := [];
    assert none + none == none;
    if n == 1 {
      RootHeld(r);
      assert got.Keys == {};
      assert MaxOf(got.Keys) == 0 && TopActive(got, 0) == 0;
      assert CurrentKeys(r, 1) == Keys(1, r.root.pair, None, None);
      assert ChooseCurrent(r.root, got) == Some(CurrentKeys(r, 1));
    } else {
      TopIsCurrent(r, n, got);
      hide TopActive;
      hide ActiveDownFrom;
    }
  }

  lemma LoadMoves(r: Ring, purpose: Purpose, todo: set<nat>, all: map<nat, Content>, keys: Keys)
    requires todo == set f | f in r.files && f.StateFile? :: f.epoch
    requires Chosen(purpose, r.root, all) == Some(RetireNext(purpose, keys, []))
    ensures Next(r, ReadRoot(purpose), NOTHING) == Some(Outcome(r, ListStates(purpose, r.root)))
    ensures Next(r, ListStates(purpose, r.root), NOTHING) == Some(Outcome(r, ReadStates(purpose, r.root, todo, map[])))
    ensures Next(r, ReadStates(purpose, r.root, {}, all), NOTHING) == Some(Outcome(r, RetireNext(purpose, keys, [])))
    ensures Next(r, RetireNext(purpose, keys, []), NOTHING) == Some(Outcome(r, ReadPublished(purpose, keys)))
  {
    hide Chosen;
  }

  lemma ListMoves(r: Ring, purpose: Purpose, todo: set<nat>)
    requires todo == set f | f in r.files && f.StateFile? :: f.epoch
    ensures Next(r, ReadRoot(purpose), NOTHING) == Some(Outcome(r, ListStates(purpose, r.root)))
    ensures Next(r, ListStates(purpose, r.root), NOTHING) == Some(Outcome(r, ReadStates(purpose, r.root, todo, map[])))
  {
  }

  lemma LoadAlone(w: World, r: Ring, n: nat, published: bool, purpose: Purpose) returns (w': World)
    requires Stage(r, n, published) && At(w, r, ReadRoot(purpose))
    ensures n in r.elected && At(w', r, ReadPublished(purpose, CurrentKeys(r, n))) && Others(w') == Others(w)
  {
    var todo := set f | f in r.files && f.StateFile? :: f.epoch;
    ListMoves(r, purpose, todo);
    StageTodo(r, n, published, todo);
    AtRing(w, r, ReadRoot(purpose));
    hide RingOk;
    hide Stage;
    hide At;
    hide Next;
    hide Chosen;
    hide GotAll;
    var w1 := Move(w, r, ReadRoot(purpose), NOTHING, Outcome(r, ListStates(purpose, r.root)));
    var w2 := Move(w1, r, ListStates(purpose, r.root), NOTHING, Outcome(r, ReadStates(purpose, r.root, todo, map[])));
    var w3, all := ReadAllStates(w2, r, n, published, purpose, todo, map[]);
    StageChooses(r, n, published, purpose, all);
    var keys := CurrentKeys(r, n);
    LoadMoves(r, purpose, todo, all, keys);
    var w4 := Move(w3, r, ReadStates(purpose, r.root, {}, all), NOTHING, Outcome(r, RetireNext(purpose, keys, [])));
    w' := Move(w4, r, RetireNext(purpose, keys, []), NOTHING, Outcome(r, ReadPublished(purpose, keys)));
  }

  lemma StageTodo(r: Ring, n: nat, published: bool, todo: set<nat>)
    requires Stage(r, n, published) && todo == set f | f in r.files && f.StateFile? :: f.epoch
    ensures GotAll(r, n, todo, map[])
  {
    forall e | 2 <= e <= n
      ensures e in todo
    {
      assert StateFile(e) in r.files;
    }
  }

  // ---- Publishing and rotating, undisturbed ------------------------------------------------

  lemma MarkedStage(r: Ring, n: nat, c: Content)
    requires Stage(r, n, false) && c.Published?
    ensures Stage(Installing(r, PublishedFile(n), c), n, true)
  {
    var r' := Installing(r, PublishedFile(n), c);
    forall g
      ensures g in r'.files <==> InStage(g, n, true)
    {
      assert g in r.files <==> InStage(g, n, false);
    }
  }

  lemma RememberAlone(w: World, r: Ring, keys: Keys, hash: Hash) returns (w': World)
    requires At(w, r, Done(keys, None))
    ensures At(w', r, TakeLock(PublishedFile(keys.epoch), Published(keys.pair, keys.link, hash), CheckMarker(keys, hash)))
    ensures Others(w') == Others(w)
  {
    w' := Step(w, Remember(0, hash));
    ReachOn(w, Remember(0, hash));
  }

  lemma UnpublishedMoves(r: Ring, n: nat, keys: Keys)
    requires Stage(r, n, false) && keys.epoch == n && keys.published.None?
    ensures PublishedFile(n) !in r.files && PublishedFile(n) !in r.locks
    ensures Next(r, ReadPublished(ToUse, keys), NOTHING) == Some(Outcome(r, Done(keys, None)))
  {
  }

  /** The current epoch of a quiet ring is published. */
  lemma PublishAlone(w: World, r: Ring, n: nat) returns (w': World, r': Ring)
    requires Quiet(w, r) && Stage(r, n, false)
    ensures Quiet(w', r') && Stage(r', n, true) && Others(w') == Others(w)
  {
    assert n in r.elected;
    var keys := CurrentKeys(r, n);
    var f, c := PublishedFile(n), Published(keys.pair, keys.link, n);
    UnpublishedMoves(r, n, keys);
    MarkedStage(r, n, c);
    hide Stage;
    hide At;
    hide Quiet;
    hide Others;
    hide Next;
    hide Installing;
    var w1 := Enter(w, r, ToUse);
    var w2 := LoadAlone(w1, r, n, false, ToUse);
    var w3 := Move(w2, r, ReadPublished(ToUse, keys), NOTHING, Outcome(r, Done(keys, None)));
    var w4 := RememberAlone(w3, r, keys, n);
    var w5 := InstallAlone(w4, r, f, c, CheckMarker(keys, n));
    r' := Installing(r, f, c);
    w' := Leave(w5, r', Installed(CheckMarker(keys, n)));
  }

  ghost predicate GotCopies(r: Ring, n: nat, todo: set<nat>, got: map<nat, Content>) {
    && (forall e | e in todo :: 1 <= e < n)
    && (forall e :: e in got <==> 1 <= e < n && e !in todo)
    && (forall e | e in got :: RetainedFile(e) in r.files && r.files[RetainedFile(e)] == Some(got[e]))
  }

  lemma CopyAt(r: Ring, n: nat, published: bool, e: nat)
    requires Stage(r, n, published) && 1 <= e < n
    ensures Readable(r, RetainedFile(e))
  {
  }

  lemma OneMoreCopy(r: Ring, n: nat, todo: set<nat>, got: map<nat, Content>, e: nat)
    requires GotCopies(r, n, todo, got) && e in todo && Full(r, RetainedFile(e))
    ensures GotCopies(r, n, todo - {e}, got[e := r.files[RetainedFile(e)].value])
  {
  }

  lemma CopyMoves(r: Ring, base: Keys, todo: set<nat>, got: map<nat, Content>, e: nat)
    requires e in todo && Readable(r, RetainedFile(e))
    ensures Next(r, ReadRetained(base, ForEviction, todo, got), Input(e, 0, 0, {})) ==
            Some(Outcome(r, ReadRetained(base, ForEviction, todo - {e}, got[e := r.files[RetainedFile(e)].value])))
  {
  }

  lemma {:induction false} ReadAllCopies(w: World, r: Ring, n: nat, published: bool, base: Keys, todo: set<nat>,
                                         got: map<nat, Content>) returns (w': World, all: map<nat, Content>)
    requires Stage(r, n, published) && GotCopies(r, n, todo, got) && At(w, r, ReadRetained(base, ForEviction, todo, got))
    ensures GotCopies(r, n, {}, all) && At(w', r, ReadRetained(base, ForEviction, {}, all)) && Others(w') == Others(w)
    decreases |todo|
  {
    if todo == {} {
      w', all := w, got;
    } else {
      var e :| e in todo;
      assert 1 <= e < n;
      hide Stage;
      hide GotCopies;
      hide At;
      hide Next;
      CopyAt(r, n, published, e);
      var more := got[e := r.files[RetainedFile(e)].value];
      OneMoreCopy(r, n, todo, got, e);
      CopyMoves(r, base, todo, got, e);
      var w1 := Move(w, r, ReadRetained(base, ForEviction, todo, got), Input(e, 0, 0, {}),
                     Outcome(r, ReadRetained(base, ForEviction, todo - {e}, more)));
      w', all := ReadAllCopies(w1, r, n, published, base, todo - {e}, more);
    }
  }

  lemma {:induction false} EpochsBelow(n: nat, s: set<nat>)
    requires n >= 1 && forall e :: e in s <==> 1 <= e < n
    ensures |s| == n - 1
    decreases n
  {
    if n == 1 {
      assert s == {};
    } else {
      EpochsBelow(n - 1, s - {n - 1});
    }
  }

  lemma CopiesAreLive(r: Ring, n: nat, published: bool, got: map<nat, Content>)
    requires Stage(r, n, published) && GotCopies(r, n, {}, got)
    ensures |LiveRetained(got, 0)| == n - 1
    ensures n > 1 ==> IsOldest(LiveRetained(got, 0), 1)
  {
    EpochsBelow(n, LiveRetained(got, 0));
  }

  lemma MarkerMatches(r: Ring, n: nat)
    requires RingOk(r) && n in r.elected && Full(r, PublishedFile(n))
    ensures var c := r.files[PublishedFile(n)].value;
            c.Published? && c.pair == r.elected[n].pair && c.link == r.elected[n].link
  {
    assert ContentOk(r, PublishedFile(n), r.files[PublishedFile(n)].value);
  }

  lemma MarkerMoves(r: Ring, keys: Keys, published: Option<Hash>)
    requires var f := PublishedFile(keys.epoch);
             if published.None? then f !in r.files
             else Readable(r, f) && r.files[f] == Some(Published(keys.pair, keys.link, published.value))
    ensures Next(r, ReadPublished(ToRotate, keys), NOTHING) ==
            Some(Outcome(r, ListRetained(keys.(published := published), ForEviction)))
  {
  }

  lemma StageMarker(r: Ring, n: nat, published: bool)
    requires Stage(r, n, published)
    ensures n in r.elected && (PublishedFile(n) in r.files <==> published) && (published ==> Readable(r, PublishedFile(n)))
  {
  }

  lemma MarkerRead(r: Ring, n: nat, published: bool) returns (base: Keys)
    requires RingOk(r) && Stage(r, n, published)
    ensures n in r.elected && base == CurrentKeys(r, n).(published := base.published) && base.published.Some? == published
    ensures Next(r, ReadPublished(ToRotate, CurrentKeys(r, n)), NOTHING) == Some(Outcome(r, ListRetained(base, ForEviction)))
  {
    hide RingOk;
    hide Stage;
    hide Next;
    StageMarker(r, n, published);
    var keys, f := CurrentKeys(r, n), PublishedFile(n);
    if published {
      MarkerMatches(r, n);
    }
    base := keys.(published := if published then Some(r.files[f].value.hash) else None);
    MarkerMoves(r, keys, base.published);
  }

  /** A rotation up to the point where it decides about eviction. */
  lemma DecideAlone(w: World, r: Ring, n: nat, published: bool) returns (w': World, base: Keys, got: map<nat, Content>)
    requires Quiet(w, r) && Stage(r, n, published)
    ensures GotCopies(r, n, {}, got) && At(w', r, ReadRetained(base, ForEviction, {}, got)) && Others(w') == Others(w)
    ensures base == CurrentKeys(r, n).(published := base.published) && base.published.Some? == published
  {
    var todo := set g | g in r.files && g.RetainedFile? :: g.epoch;
    CopyTodo(r, n, published, todo);
    assert n in r.elected;
    hide RingOk;
    hide Stage;
    hide At;
    hide Quiet;
    hide GotCopies;
    var w1 := Enter(w, r, ToRotate);
    var w2 := LoadAlone(w1, r, n, published, ToRotate);
    AtRing(w1, r, ReadRoot(ToRotate));
    base := MarkerRead(r, n, published);
    var w3 := Move(w2, r, ReadPublished(ToRotate, CurrentKeys(r, n)), NOTHING, Outcome(r, ListRetained(base, ForEviction)));
    ListingMoves(r, base, todo);
    hide Next;
    var w4 := Move(w3, r, ListRetained(base, ForEviction), NOTHING, Outcome(r, ReadRetained(base, ForEviction, todo, map[])));
    w', got := ReadAllCopies(w4, r, n, published, base, todo, map[]);
  }

  lemma ListingMoves(r: Ring, base: Keys, todo: set<nat>)
    requires todo == set g | g in r.files && g.RetainedFile? :: g.epoch
    ensures Next(r, ListRetained(base, ForEviction), NOTHING) == Some(Outcome(r, ReadRetained(base, ForEviction, todo, map[])))
  {
  }

  lemma CopyTodo(r: Ring, n: nat, published: bool, todo: set<nat>)
    requires Stage(r, n, published) && todo == set f | f in r.files && f.RetainedFile? :: f.epoch
    ensures GotCopies(r, n, todo, map[])
  {
    forall e | 1 <= e < n
      ensures e in todo
    {
      assert RetainedFile(e) in r.files;
    }
  }

  function Scrubbed(r: Ring, keys: Keys): Ring
    requires keys.epoch == 1 || keys.link.Some?
  {
    if keys.epoch == 1 then r.(root := Stable)
    else r.(files := r.files[StateFile(keys.epoch) := Some(Retired(keys.pair, keys.link.value))])
  }

  lemma RotatedFiles(r: Ring, r': Ring, n: nat)
    requires Stage(r, n, true)
    requires r'.files.Keys == r.files.Keys + {StateFile(n + 1), RetainedFile(n)}
    ensures forall g :: g in r'.files <==> InStage(g, n + 1, false)
  {
    forall g
      ensures g in r'.files <==> InStage(g, n + 1, false)
    {
      assert g in r'.files <==> g in r'.files.Keys;
      assert g in r.files <==> InStage(g, n, true);
    }
  }

  predicate RotatedTo(r: Ring, r': Ring, n: nat, next: Content, copy: Content) {
    && r'.locks == r.locks && n + 1 in r'.elected && r'.root.Stable? == (n == 1 || r.root.Stable?)
    && r'.files.Keys == r.files.Keys + {StateFile(n + 1), RetainedFile(n)}
    && r'.files[StateFile(n + 1)] == Some(next) && r'.files[RetainedFile(n)] == Some(copy)
    && (n != 1 ==> StateFile(n) in r'.files && r'.files[StateFile(n)].Some? && r'.files[StateFile(n)].value.Retired?)
    && forall f | f in r.files && f != StateFile(n) && f != StateFile(n + 1) && f != RetainedFile(n) :: r'.files[f] == r.files[f]
  }

  lemma ScrubbedRotates(r: Ring, n: nat, base: Keys, next: Content, copy: Content)
    requires base.epoch == n && n >= 1 && (if n == 1 then true else base.link.Some? && StateFile(n) in r.files) && next.Active?
    ensures RotatedTo(r, Scrubbed(Installing(Installing(r, StateFile(n + 1), next), RetainedFile(n), copy), base), n, next, copy)
  {
  }

  lemma RotatedStage(r: Ring, r': Ring, n: nat, next: Content, copy: Content)
    requires Stage(r, n, true) && RotatedTo(r, r', n, next, copy)
    requires next.Active? && copy.Retained? && copy.until > 0
    ensures Stage(r', n + 1, false)
  {
    RotatedFiles(r, r', n);
    forall e | 2 <= e <= n + 1
      ensures StateFile(e) in r'.files && r'.files[StateFile(e)].Some? && (r'.files[StateFile(e)].value.Active? <==> e == n + 1)
    {
      assert e <= n ==> StateFile(e) in r.files;
    }
    forall e | 1 <= e < n + 1
      ensures RetainedFile(e) in r'.files && r'.files[RetainedFile(e)].Some? &&
              r'.files[RetainedFile(e)].value.Retained? && r'.files[RetainedFile(e)].value.until > 0
    {
      assert e < n ==> RetainedFile(e) in r.files;
    }
  }

  /** With fewer than eight live epochs, a quiet ring whose current epoch is published gets the next one. */
  lemma RotateAlone(w: World, r: Ring, n: nat) returns (w': World, r': Ring)
    requires Quiet(w, r) && Stage(r, n, true) && n < MAX_LIVE_EPOCHS
    ensures Quiet(w', r') && Stage(r', n + 1, false) && Others(w') == Others(w)
  {
    var w1, base, got := DecideAlone(w, r, n, true);
    CopiesAreLive(r, n, true, got);
    var w2 := Move(w1, r, ReadRetained(base, ForEviction, {}, got), NOTHING, Outcome(r, Extend(base)));
    w', r' := ExtendAlone(w2, r, n, base);
  }

  lemma ElectionMoves(r: Ring, base: Keys, next: Content)
    requires base.published.Some? && next == Active(0, base.published.value) && r.locks == {}
    ensures Next(r, Extend(base), NOTHING) == Some(Outcome(r, TakeLock(StateFile(base.epoch + 1), next, CheckElection(base))))
    ensures var r1 := Installing(r, StateFile(base.epoch + 1), next);
            Next(r1, Installed(CheckElection(base)), NOTHING) == Some(Outcome(r1, Retire(base, ToRotation, 0)))
  {
  }

  lemma ReadbackMoves(r: Ring, base: Keys, copy: Content)
    requires copy.Retained? && copy.pair == base.pair && r.locks == {}
    ensures var r2 := Installing(r, RetainedFile(base.epoch), copy);
            Next(r2, Installed(Readback(base, ToRotation)), NOTHING) == Some(Outcome(r2, Inspect(base, ToRotation)))
  {
  }

  predicate ReadyToScrub(r: Ring, base: Keys) {
    if base.epoch == 1 then r.root == Initial(base.pair)
    else base.link.Some? && Readable(r, StateFile(base.epoch)) &&
         r.files[StateFile(base.epoch)] == Some(Active(base.pair, base.link.value))
  }

  lemma ScrubMoves(r: Ring, base: Keys)
    requires ReadyToScrub(r, base)
    ensures Next(r, Inspect(base, ToRotation), NOTHING) == Some(Outcome(r, Scrub(base, ToRotation)))
    ensures Next(r, Scrub(base, ToRotation), NOTHING) == Some(Outcome(Scrubbed(r, base), ReadRoot(ToUse)))
  {
  }

  lemma StageEnd(r: Ring, n: nat)
    requires Stage(r, n, true)
    ensures r.locks == {} && StateFile(n + 1) !in r.files && RetainedFile(n) !in r.files && n >= 1 && n in r.elected
    ensures if n == 1 then r.root.Initial? else Full(r, StateFile(n)) && r.files[StateFile(n)].value.Active?
  {
  }

  lemma CurrentReady(r: Ring, n: nat, base: Keys)
    requires RingOk(r) && Stage(r, n, true) && base == CurrentKeys(r, n).(published := base.published)
    ensures ReadyToScrub(r, base)
  {
    hide RingOk;
    hide Stage;
    StageEnd(r, n);
    if n == 1 {
      RootHeld(r);
    } else {
      StateHeld(r, n);
    }
  }

  lemma ReadyStays(r: Ring, base: Keys, next: Content, copy: Content)
    requires ReadyToScrub(r, base) && next.Active?
    ensures ReadyToScrub(Installing(Installing(r, StateFile(base.epoch + 1), next), RetainedFile(base.epoch), copy), base)
    ensures Installing(r, StateFile(base.epoch + 1), next).locks == r.locks
    ensures RetainedFile(base.epoch) !in r.files ==>
              RetainedFile(base.epoch) !in Installing(r, StateFile(base.epoch + 1), next).files
  {
  }

  lemma ExtendAlone(w: World, r: Ring, n: nat, base: Keys) returns (w': World, r': Ring)
    requires At(w, r, Extend(base)) && Stage(r, n, true) && n in r.elected
    requires base == CurrentKeys(r, n).(published := base.published) && base.published.Some?
    ensures Quiet(w', r') && Stage(r', n + 1, false) && Others(w') == Others(w)
  {
    hide RingOk;
    hide Stage;
    hide At;
    hide Quiet;
    hide Next;
    hide Installing;
    hide Scrubbed;
    hide ReadyToScrub;
    AtRing(w, r, Extend(base));
    StageEnd(r, n);
    CurrentReady(r, n, base);
    var f, next := StateFile(n + 1), Active(0, base.published.value);
    var copy := Retained(base.pair, base.link, RETAINED_KEY_TTL);
    var after := Readback(base, ToRotation);
    var r1 := Installing(r, f, next);
    var r2 := Installing(r1, RetainedFile(n), copy);
    ReadyStays(r, base, next, copy);
    ElectionMoves(r, base, next);
    ReadbackMoves(r1, base, copy);
    ScrubMoves(r2, base);
    ScrubbedStage(r, n, base, next, copy);
    r' := Scrubbed(r2, base);
    var w1 := Move(w, r, Extend(base), NOTHING, Outcome(r, TakeLock(f, next, CheckElection(base))));
    var w2 := InstallAlone(w1, r, f, next, CheckElection(base));
    var w3 := Move(w2, r1, Installed(CheckElection(base)), NOTHING, Outcome(r1, TakeLock(RetainedFile(n), copy, after)));
    var w4 := InstallAlone(w3, r1, RetainedFile(n), copy, after);
    var w5 := Move(w4, r2, Installed(after), NOTHING, Outcome(r2, Inspect(base, ToRotation)));
    var w6 := Move(w5, r2, Inspect(base, ToRotation), NOTHING, Outcome(r2, Scrub(base, ToRotation)));
    var w7 := Move(w6, r2, Scrub(base, ToRotation), NOTHING, Outcome(r', ReadRoot(ToUse)));
    w' := Leave(w7, r', ReadRoot(ToUse));
  }

  lemma ScrubbedStage(r: Ring, n: nat, base: Keys, next: Content, copy: Content)
    requires Stage(r, n, true) && base.epoch == n && ReadyToScrub(r, base)
    requires next.Active? && copy.Retained? && copy.until > 0
    ensures base.epoch == 1 || base.link.Some?
    ensures Stage(Scrubbed(Installing(Installing(r, StateFile(n + 1), next), RetainedFile(n), copy), base), n + 1, false)
  {
    StageEnd(r, n);
    ScrubbedRotates(r, n, base, next, copy);
    hide Scrubbed;
    hide Installing;
    RotatedStage(r, Scrubbed(Installing(Installing(r, StateFile(n + 1), next), RetainedFile(n), copy), base), n, next, copy);
  }

  lemma {:induction false} Climb(n: nat) returns (w: World, r: Ring)
    requires 1 <= n <= MAX_LIVE_EPOCHS
    ensures Quiet(w, r) && Stage(r, n, false) && w.procs == map[]
    decreases n
  {
    if n == 1 {
      w := AfterSetup(0);
      r := w.ring;
      ReachStart(0);
    } else {
      var w1, r1 := Climb(n - 1);
      var w2, r2 := PublishAlone(w1, r1, n - 1);
      w, r := RotateAlone(w2, r2, n - 1);
    }
  }

  /** After seven rotations, with the eighth epoch not yet published, the next rotation takes away the
      oldest retained key and is then refused. */
  lemma UnpublishedRotationEvicts() returns (w: World, base: Keys, got: map<nat, Content>)
    ensures Reachable(w) && Deciding(w, 0, base, got) && base.epoch == 8
    ensures |LiveRetained(got, 0)| == 7 && IsOldest(LiveRetained(got, 0), 1) && RetainedFile(1) in w.ring.files
    ensures var last := Alone(w, 0, [Input(1, 0, 0, {}), NOTHING, NOTHING, NOTHING]);
            0 !in last.procs && last.ring == w.ring.(files := w.ring.files - {RetainedFile(1)})
  {
    var w1, r := Climb(8);
    w, base, got := DecideAlone(w1, r, 8, false);
    CopiesAreLive(r, 8, false, got);
    ReachInv(w);
    assert RetainedFile(1) in r.files;
    MustEvictMeans(got, 1, 0, {}, 0);
    hide MustEvict;
    hide Stage;
    hide Next;
    hide Step;
    RefusedRotationEvictsExactly(w, 0, base, got, Input(1, 0, 0, {}), NOTHING, NOTHING, NOTHING);
  }
}

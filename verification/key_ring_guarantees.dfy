/** What any number of processes, stopping anywhere, can rely on. */
module KeyRingGuarantees {
  import opened Wrappers
  import opened KeyRing
  import opened KeyRingInvariant
  import opened KeyRingSteps

  ghost predicate Behaviour(pair: Pair, ws: seq<World>, acts: seq<Action>) {
    && |ws| == |acts| + 1 && ws[0] == AfterSetup(pair)
    && forall i | 0 <= i < |acts| :: Enabled(ws[i], acts[i]) && ws[i + 1] == Step(ws[i], acts[i])
  }

  lemma StartInv(pair: Pair)
    ensures Inv(AfterSetup(pair))
  {
    assert AfterSetup(pair).procs == map[];
  }

  lemma StepAt(pair: Pair, ws: seq<World>, acts: seq<Action>, i: nat)
    requires Behaviour(pair, ws, acts) && i < |acts|
    ensures |ws| == |acts| + 1 && Enabled(ws[i], acts[i]) && ws[i + 1] == Step(ws[i], acts[i])
  {
    hide Step;
    hide Enabled;
  }

  lemma RunLength(pair: Pair, ws: seq<World>, acts: seq<Action>)
    requires Behaviour(pair, ws, acts)
    ensures |ws| == |acts| + 1 && ws[0] == AfterSetup(pair) && ws[0].ring.kept == {}
  {
  }

  lemma {:induction false} RunKeeps(pair: Pair, ws: seq<World>, acts: seq<Action>, i: nat)
    requires Behaviour(pair, ws, acts) && i < |ws|
    ensures Inv(ws[i])
    decreases i
  {
    hide Inv;
    hide Step;
    hide Enabled;
    if i == 0 {
      StartInv(pair);
    } else {
      RunKeeps(pair, ws, acts, i - 1);
      StepAt(pair, ws, acts, i - 1);
      StepKeeps(ws[i - 1], acts[i - 1]);
    }
  }

  lemma {:induction false} RunExtends(pair: Pair, ws: seq<World>, acts: seq<Action>, i: nat, j: nat)
    requires Behaviour(pair, ws, acts) && i <= j < |ws|
    ensures Extends(ws[i].ring, ws[j].ring)
    decreases j
  {
    hide Inv;
    hide Step;
    hide Enabled;
    if i < j {
      RunExtends(pair, ws, acts, i, j - 1);
      RunKeeps(pair, ws, acts, j - 1);
      StepAt(pair, ws, acts, j - 1);
      StepKeeps(ws[j - 1], acts[j - 1]);
    }
  }

  // ---- The chain ---------------------------------------------------------------------------

  lemma {:induction false} NoGaps(r: Ring, h: nat, e: nat)
    requires RingOk(r) && h in r.elected && 1 <= e <= h
    ensures e in r.elected
    decreases h
  {
    if e < h {
      assert h - 1 in r.hashes;
      NoGaps(r, h - 1, e);
    }
  }

  predicate Usable(r: Ring, e: nat) {
    e in r.elected &&
    if e == 1 then r.root == Initial(r.elected[1].pair)
    else Full(r, StateFile(e)) && r.elected[e].link.Some? &&
         r.files[StateFile(e)].value == Active(r.elected[e].pair, r.elected[e].link.value)
  }

  /** Epochs are installed without gaps, and the private key of the highest one is always in place. */
  lemma HighestStaysUsable(pair: Pair, ws: seq<World>, acts: seq<Action>, i: nat)
    requires Behaviour(pair, ws, acts) && i < |ws|
    ensures var r := ws[i].ring;
            var h := MaxOf(r.elected.Keys);
            && Usable(r, h) && forall e :: 1 <= e <= h <==> e in r.elected
  {
    RunKeeps(pair, ws, acts, i);
    var r := ws[i].ring;
    var h := MaxOf(r.elected.Keys);
    assert 1 in r.elected.Keys;
    forall e
      ensures 1 <= e <= h <==> e in r.elected
    {
      if 1 <= e <= h {
        NoGaps(r, h, e);
      }
      assert e in r.elected ==> e in r.elected.Keys;
    }
    assert !Superseded(r, h);
    if h != 1 {
      assert ContentOk(r, StateFile(h), r.files[StateFile(h)].value);
    }
  }

  lemma StateLinks(r: Ring, e: nat)
    requires RingOk(r) && Full(r, StateFile(e))
    ensures var state := r.files[StateFile(e)].value;
            && e >= 2 && e - 1 in r.hashes && (state.Active? || state.Retired?) && state.prev == r.hashes[e - 1]
  {
    assert ContentOk(r, StateFile(e), r.files[StateFile(e)].value);
  }

  lemma MarkerHolds(r: Ring, e: nat)
    requires RingOk(r) && e in r.hashes
    ensures Full(r, PublishedFile(e))
    ensures var marker := r.files[PublishedFile(e)].value; marker.Published? && marker.hash == r.hashes[e]
  {
    assert ContentOk(r, PublishedFile(e), r.files[PublishedFile(e)].value);
  }

  /** On disk, every later epoch links to the published hash of the one before it. */
  lemma ChainHolds(pair: Pair, ws: seq<World>, acts: seq<Action>, i: nat, e: nat)
    requires Behaviour(pair, ws, acts) && i < |ws| && Full(ws[i].ring, StateFile(e))
    ensures e >= 2 && Full(ws[i].ring, PublishedFile(e - 1))
    ensures var state, marker := ws[i].ring.files[StateFile(e)].value, ws[i].ring.files[PublishedFile(e - 1)].value;
            (state.Active? || state.Retired?) && marker.Published? && state.prev == marker.hash
  {
    hide Step;
    hide Enabled;
    hide RingOk;
    RunKeeps(pair, ws, acts, i);
    StateLinks(ws[i].ring, e);
    MarkerHolds(ws[i].ring, e - 1);
  }

  lemma MarkerStays(a: Ring, b: Ring, e: nat)
    requires RingOk(a) && RingOk(b) && Extends(a, b) && Full(a, PublishedFile(e))
    ensures Full(b, PublishedFile(e)) && b.files[PublishedFile(e)] == a.files[PublishedFile(e)]
  {
    var f := PublishedFile(e);
    assert ContentOk(a, f, a.files[f].value);
    assert e in b.hashes;
    assert ContentOk(b, f, b.files[f].value);
  }

  /** A hash that was published first is never replaced. */
  lemma FirstPublicationStands(pair: Pair, ws: seq<World>, acts: seq<Action>, i: nat, j: nat, e: nat)
    requires Behaviour(pair, ws, acts) && i <= j < |ws| && Full(ws[i].ring, PublishedFile(e))
    ensures Full(ws[j].ring, PublishedFile(e))
    ensures ws[j].ring.files[PublishedFile(e)] == ws[i].ring.files[PublishedFile(e)]
  {
    hide Step;
    hide Enabled;
    RunKeeps(pair, ws, acts, i);
    RunKeeps(pair, ws, acts, j);
    RunExtends(pair, ws, acts, i, j);
    MarkerStays(ws[i].ring, ws[j].ring, e);
  }

  // ---- Loads -------------------------------------------------------------------------------

  lemma FloorHolds(w: World, a: Action, p: nat, e: nat)
    requires Inv(w) && Enabled(w, a) && p in w.procs && p in Step(w, a).procs && e in w.procs[p].floor
    ensures e in Step(w, a).procs[p].floor
  {
    StepKeeps(w, a);
    if a.Advance? && a.p == p && Next(w.ring, w.procs[p].pc, a.input).Some? {
      AdvanceShape(w, p, a.input);
    }
    assert e in w.ring.elected;
  }

  /** At step b this process began to load: at its own beginning, or again after a rotation, a lost
      election or a publication. */
  predicate LoadBegins(w: World, a: Action, w': World, p: nat) {
    (a.Begin? || a.Advance?) && a.p == p && p in w'.procs && w'.procs[p].pc.ReadRoot?
  }

  lemma FloorBegins(w: World, a: Action, p: nat)
    requires Enabled(w, a) && LoadBegins(w, a, Step(w, a), p)
    ensures Step(w, a).procs[p].floor == Step(w, a).ring.elected.Keys
  {
    if a.Advance? {
      assert Next(w.ring, w.procs[p].pc, a.input).Some?;
      AdvanceShape(w, p, a.input);
    }
  }

  lemma {:induction false} FloorSince(pair: Pair, ws: seq<World>, acts: seq<Action>, b: nat, j: nat, p: nat, e: nat)
    requires Behaviour(pair, ws, acts) && b < j < |ws| && LoadBegins(ws[b], acts[b], ws[b + 1], p)
    requires forall k | b < k <= j :: p in ws[k].procs
    requires e in ws[b + 1].ring.elected
    ensures e in ws[j].procs[p].floor
    decreases j
  {
    hide Inv;
    hide Step;
    hide Enabled;
    StepAt(pair, ws, acts, j - 1);
    if j == b + 1 {
      FloorBegins(ws[b], acts[b], p);
    } else {
      FloorSince(pair, ws, acts, b, j - 1, p, e);
      RunKeeps(pair, ws, acts, j - 1);
      assert p in ws[j - 1].procs && p in ws[j].procs;
      FloorHolds(ws[j - 1], acts[j - 1], p, e);
    }
  }

  /** Whenever a process that is still there began to load at step b, the keys it ends up with are an
      elected key, linked and published as recorded; and unless it asked for one epoch's key, their
      epoch is no lower than any that was installed when that load began. */
  lemma LoadsAreCurrent(pair: Pair, ws: seq<World>, acts: seq<Action>, b: nat, j: nat, p: nat)
    requires Behaviour(pair, ws, acts) && b < j < |ws| && LoadBegins(ws[b], acts[b], ws[b + 1], p)
    requires forall k | b < k <= j :: p in ws[k].procs
    requires ws[j].procs[p].pc.Done?
    ensures var keys := ws[j].procs[p].pc.keys;
            && Genuine(ws[j].ring, keys)
            && (ws[j].procs[p].pc.asked.None? ==> Covers(ws[b + 1].ring.elected.Keys, keys))
  {
    hide Inv;
    hide Step;
    hide Enabled;
    hide Genuine;
    hide Covers;
    assert p in ws[j].procs;
    RunKeeps(pair, ws, acts, j);
    KnownAt(ws[j], p);
    forall e | e in ws[b + 1].ring.elected.Keys
      ensures e in ws[j].procs[p].floor
    {
      FloorSince(pair, ws, acts, b, j, p, e);
    }
    if ws[j].procs[p].pc.asked.None? {
      CoversLess(ws[b + 1].ring.elected.Keys, ws[j].procs[p].floor, ws[j].procs[p].pc.keys);
    }
  }

  lemma CoversLess(less: set<nat>, more: set<nat>, k: Keys)
    requires less <= more && Covers(more, k)
    ensures Covers(less, k)
  {
  }

  /** What a process that has loaded keys, or is about to evict a copy, can count on. */
  lemma KnownAt(w: World, p: nat)
    requires Inv(w) && p in w.procs
    ensures w.procs[p].pc.Done? ==>
              && Genuine(w.ring, w.procs[p].pc.keys)
              && if w.procs[p].pc.asked.Some? then w.procs[p].pc.keys.epoch == w.procs[p].pc.asked.value
                 else Covers(w.procs[p].floor, w.procs[p].pc.keys)
    ensures w.procs[p].pc.Evict? ==> !Needed(w.procs[p].pc.jobs, w.procs[p].pc.oldest, w.procs[p].pc.now)
  {
    assert PcOk(w.ring, w.procs[p].floor, w.procs[p].pc);
  }

  // ---- Retained copies ---------------------------------------------------------------------

  predicate PrivateKeyGone(r: Ring, e: nat) {
    if e == 1 then r.root.Stable? else Full(r, StateFile(e)) && r.files[StateFile(e)].value.Retired?
  }

  predicate HoldsCopy(r: Ring, e: nat, key: Elected) {
    Full(r, RetainedFile(e)) && r.files[RetainedFile(e)].value.Retained? &&
    r.files[RetainedFile(e)].value.pair == key.pair && r.files[RetainedFile(e)].value.link == key.link
  }

  lemma NewCopy(w: World, a: Action, e: nat)
    requires Enabled(w, a) && e in Step(w, a).ring.kept && e !in w.ring.kept
    ensures Full(Step(w, a).ring, RetainedFile(e))
  {
    assert a.Advance?;
    var pc := w.procs[a.p].pc;
    assert Next(w.ring, pc, a.input).Some?;
    AdvanceShape(w, a.p, a.input);
    assert pc.WriteFile?;
  }

  lemma CopyIsElected(w: World, e: nat)
    requires Inv(w) && Full(w.ring, RetainedFile(e))
    ensures e in w.ring.elected && HoldsCopy(w.ring, e, w.ring.elected[e])
  {
    assert ContentOk(w.ring, RetainedFile(e), w.ring.files[RetainedFile(e)].value);
  }

  lemma CopyCarries(a: Ring, b: Ring, c: Ring, e: nat)
    requires Extends(a, b) && e in a.elected && HoldsCopy(c, e, a.elected[e])
    ensures e in b.elected && HoldsCopy(c, e, b.elected[e])
  {
  }

  lemma {:induction false} KeptWasInstalled(pair: Pair, ws: seq<World>, acts: seq<Action>, i: nat, e: nat) returns (k: nat)
    requires Behaviour(pair, ws, acts) && i < |ws| && e in ws[i].ring.kept
    ensures k <= i && e in ws[i].ring.elected && HoldsCopy(ws[k].ring, e, ws[i].ring.elected[e])
    decreases i
  {
    hide *;
    RunLength(pair, ws, acts);
    RunKeeps(pair, ws, acts, i);
    k := i;
    if i > 0 {
      if e in ws[i - 1].ring.kept {
        k := KeptWasInstalled(pair, ws, acts, i - 1, e);
        RunExtends(pair, ws, acts, i - 1, i);
        CopyCarries(ws[i - 1].ring, ws[i].ring, ws[k].ring, e);
      } else {
        StepAt(pair, ws, acts, i - 1);
        NewCopy(ws[i - 1], acts[i - 1], e);
        CopyIsElected(ws[i], e);
      }
    }
  }

  /** Before a private key left its state file, a retained copy of that very key was installed. */
  lemma ScrubbedKeysWereKept(pair: Pair, ws: seq<World>, acts: seq<Action>, i: nat, e: nat)
    requires Behaviour(pair, ws, acts) && i < |ws| && PrivateKeyGone(ws[i].ring, e)
    ensures exists k :: 0 <= k <= i && e in ws[i].ring.elected && HoldsCopy(ws[k].ring, e, ws[i].ring.elected[e])
  {
    RunKeeps(pair, ws, acts, i);
    var r := ws[i].ring;
    if e != 1 {
      assert ContentOk(r, StateFile(e), r.files[StateFile(e)].value);
    }
    var k := KeptWasInstalled(pair, ws, acts, i, e);
  }

  /** Decrypting with an epoch's key gives the key that was elected for it, then and ever after. */
  lemma DecryptionKeyIsElected(pair: Pair, ws: seq<World>, acts: seq<Action>, i: nat, j: nat, p: nat)
    requires Behaviour(pair, ws, acts) && i <= j < |ws| && p in ws[i].procs && ws[i].procs[p].pc.Done?
    requires ws[i].procs[p].pc.asked.Some?
    ensures var keys := ws[i].procs[p].pc.keys;
            keys.epoch == ws[i].procs[p].pc.asked.value && IsElected(ws[j].ring, keys.epoch, keys.pair, keys.link)
  {
    hide Inv;
    hide Step;
    hide Enabled;
    RunKeeps(pair, ws, acts, i);
    RunExtends(pair, ws, acts, i, j);
    KnownAt(ws[i], p);
  }

  predicate Evicting(w: World, a: Action, e: nat) {
    && a.Advance? && a.p in w.procs && w.procs[a.p].pc.Evict? && w.procs[a.p].pc.oldest == e
  }

  lemma OnlyEvictionRemoves(w: World, a: Action, e: nat)
    requires Enabled(w, a) && RetainedFile(e) in w.ring.files && RetainedFile(e) !in Step(w, a).ring.files
    ensures Evicting(w, a, e)
  {
    assert a.Advance?;
    var pc := w.procs[a.p].pc;
    assert Next(w.ring, pc, a.input).Some?;
    AdvanceShape(w, a.p, a.input);
  }

  /** A retained copy goes away only in a rotation, and never while a live outbound job that this
      rotation loaded still needs its epoch. */
  lemma EvictionSparesLiveJobs(pair: Pair, ws: seq<World>, acts: seq<Action>, i: nat, e: nat)
    requires Behaviour(pair, ws, acts) && i < |acts|
    requires RetainedFile(e) in ws[i].ring.files && RetainedFile(e) !in ws[i + 1].ring.files
    ensures Evicting(ws[i], acts[i], e)
    ensures var pc := ws[i].procs[acts[i].p].pc;
            forall job | job in pc.jobs && job.expiresAt > pc.now :: job.epoch != e
  {
    hide Inv;
    hide Step;
    hide Enabled;
    RunKeeps(pair, ws, acts, i);
    StepAt(pair, ws, acts, i);
    OnlyEvictionRemoves(ws[i], acts[i], e);
    KnownAt(ws[i], acts[i].p);
  }
}

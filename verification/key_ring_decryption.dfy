/** When a process gets the key of the epoch an envelope names, and when it does not. */
module KeyRingDecryption {
  import opened Wrappers
  import opened KeyRing
  import opened KeyRingInvariant
  import opened KeyRingSteps
  import opened KeyRingGuarantees

  lemma GotAreRetained(w: World, p: nat)
    requires Inv(w) && p in w.procs && w.procs[p].pc.ReadRetained?
    ensures forall e | e in w.procs[p].pc.got :: w.procs[p].pc.got[e].Retained?
  {
    assert PcOk(w.ring, w.procs[p].floor, w.procs[p].pc);
  }

  lemma RetainedMoves(r: Ring, base: Keys, e: nat, got: map<nat, Content>, i: Input)
    requires forall k | k in got :: got[k].Retained?
    ensures Next(r, ReadRetained(base, ForDecryption(e), {}, got), i) ==
            if e in got && i.now < got[e].until then Some(Outcome(r, Done(Keys(e, got[e].pair, got[e].link, None), Some(e)))) else None
  {
  }

  /** Once every copy was read, the asked key is given exactly if its copy was among them and has not
      expired; otherwise the load is refused. */
  lemma DecryptionDecides(w: World, p: nat, base: Keys, e: nat, got: map<nat, Content>, i: Input)
    requires Inv(w) && p in w.procs && w.procs[p].pc == ReadRetained(base, ForDecryption(e), {}, got)
    ensures e in got ==> got[e].Retained?
    ensures var w' := Step(w, Advance(p, i));
            && w'.ring == w.ring && (p in w'.procs <==> e in got && i.now < got[e].until)
            && (p in w'.procs ==> w'.procs[p].pc == Done(Keys(e, got[e].pair, got[e].link, None), Some(e)))
  {
    GotAreRetained(w, p);
    RetainedMoves(w.ring, base, e, got, i);
    StepOf(w, p, i);
    hide Inv;
    hide Next;
    hide Step;
  }

  function MarkerHash(r: Ring, e: nat): Option<Hash> {
    var f := PublishedFile(e);
    if Full(r, f) && r.files[f].value.Published? then Some(r.files[f].value.hash) else None
  }

  lemma LoadedMoves(r: Ring, current: Keys, e: nat, i: Input)
    requires FilesOk(r) && Genuine(r, current)
    ensures var f, keys := PublishedFile(current.epoch), current.(published := MarkerHash(r, current.epoch));
            Next(r, ReadPublished(ToDecrypt(e), current), i) ==
            if f in r.files && f in r.locks then None
            else Some(Outcome(r, if e == current.epoch then Done(keys, Some(e)) else ListRetained(keys, ForDecryption(e))))
  {
    if Full(r, PublishedFile(current.epoch)) {
      MarkerAgrees(r, current);
    }
  }

  lemma CurrentIsGenuine(w: World, p: nat)
    requires Inv(w) && p in w.procs && w.procs[p].pc.ReadPublished?
    ensures FilesOk(w.ring) && Genuine(w.ring, w.procs[p].pc.current)
  {
    assert PcOk(w.ring, w.procs[p].floor, w.procs[p].pc);
  }

  /** A load for the current epoch is answered with the current key and needs no retained copy; a load for
      any other goes on to look for one. Only a marker that is still locked stops it. */
  lemma CurrentIsAnswered(w: World, p: nat, current: Keys, e: nat, i: Input)
    requires Inv(w) && p in w.procs && w.procs[p].pc == ReadPublished(ToDecrypt(e), current)
    ensures var w', f := Step(w, Advance(p, i)), PublishedFile(current.epoch);
            && w'.ring == w.ring && (p in w'.procs <==> f !in w.ring.files || f !in w.ring.locks)
            && (p in w'.procs ==>
                  var keys := current.(published := MarkerHash(w.ring, current.epoch));
                  w'.procs[p].pc == if e == current.epoch then Done(keys, Some(e)) else ListRetained(keys, ForDecryption(e)))
  {
    CurrentIsGenuine(w, p);
    LoadedMoves(w.ring, current, e, i);
    StepOf(w, p, i);
    hide Inv;
    hide Next;
    hide Step;
    hide FilesOk;
    hide Genuine;
  }

  // ---- Every copy that was there is read ---------------------------------------------------

  function CopiesIn(r: Ring): set<nat> {
    set f | f in r.files && f.RetainedFile? :: f.epoch
  }

  /** What has been read or will be is what was listed. */
  predicate ReadsListed(pc: Pc, listed: set<nat>) {
    pc.ReadRetained? && pc.todo + pc.got.Keys == listed
  }

  lemma ListedStep(r: Ring, pc: Pc, i: Input, listed: set<nat>)
    requires Next(r, pc, i).Some? && Next(r, pc, i).value.pc.ReadRetained?
    requires if pc.ListRetained? then listed == CopiesIn(r) else ReadsListed(pc, listed)
    ensures var next := Next(r, pc, i).value.pc;
            && ReadsListed(next, listed)
            && (pc.ReadRetained? ==> forall e | e in next.got ::
                  (e in pc.got && next.got[e] == pc.got[e]) || (RetainedFile(e) in r.files && r.files[RetainedFile(e)] == Some(next.got[e])))
            && (pc.ListRetained? ==> next.got == map[])
  {
    if pc.ReadRetained? {
      var next := Next(r, pc, i).value.pc;
      assert pc.todo != {} && i.epoch in pc.todo;
      assert next.todo + next.got.Keys == pc.todo + pc.got.Keys;
    }
  }

  lemma SameOrStepped(w: World, a: Action, p: nat)
    requires Enabled(w, a) && p in w.procs && p in Step(w, a).procs && !w.procs[p].pc.Done?
    ensures || Step(w, a).procs[p].pc == w.procs[p].pc
            || (a.Advance? && a.p == p && Next(w.ring, w.procs[p].pc, a.input).Some? &&
                Step(w, a).procs[p].pc == Next(w.ring, w.procs[p].pc, a.input).value.pc)
  {
    if a.Advance? && a.p == p {
      StepOf(w, p, a.input);
    }
    hide Next;
  }

  ghost predicate SeenBetween(ws: seq<World>, b: nat, j: nat, e: nat, c: Content)
    requires j < |ws|
  {
    exists k :: b <= k <= j && RetainedFile(e) in ws[k].ring.files && ws[k].ring.files[RetainedFile(e)] == Some(c)
  }

  lemma {:induction false} ListedCopiesAreRead(pair: Pair, ws: seq<World>, acts: seq<Action>, b: nat, j: nat, p: nat)
    requires Behaviour(pair, ws, acts) && b < j < |ws| && p in ws[b].procs && ws[b].procs[p].pc.ListRetained?
    requires forall k | b < k <= j :: p in ws[k].procs && ws[k].procs[p].pc.ReadRetained?
    ensures ReadsListed(ws[j].procs[p].pc, CopiesIn(ws[b].ring))
    ensures forall e | e in ws[j].procs[p].pc.got :: SeenBetween(ws, b, j, e, ws[j].procs[p].pc.got[e])
    decreases j
  {
    hide Step;
    hide Enabled;
    hide Next;
    var before, listed := ws[j - 1], CopiesIn(ws[b].ring);
    StepAt(pair, ws, acts, j - 1);
    if j > b + 1 {
      ListedCopiesAreRead(pair, ws, acts, b, j - 1, p);
    }
    assert p in before.procs && p in ws[j].procs && ws[j].procs[p].pc.ReadRetained?;
    hide CopiesIn;
    SameOrStepped(before, acts[j - 1], p);
    if ws[j].procs[p].pc != before.procs[p].pc {
      ListedStep(before.ring, before.procs[p].pc, acts[j - 1].input, listed);
    }
    hide ReadsListed;
    forall e | e in ws[j].procs[p].pc.got
      ensures SeenBetween(ws, b, j, e, ws[j].procs[p].pc.got[e])
    {
      if before.procs[p].pc.ReadRetained? && e in before.procs[p].pc.got && before.procs[p].pc.got[e] == ws[j].procs[p].pc.got[e] {
        var k :| b <= k <= j - 1 && RetainedFile(e) in ws[k].ring.files && ws[k].ring.files[RetainedFile(e)] == Some(ws[j].procs[p].pc.got[e]);
      }
    }
  }

  /** A process that looks for the key of an earlier epoch and is not stopped gets it exactly if the copy
      was there when it listed them and has not expired when it has read them all; what it gets is what
      the copy held. */
  lemma DecryptionIsExact(pair: Pair, ws: seq<World>, acts: seq<Action>, b: nat, j: nat, p: nat, e: nat, i: Input)
    requires Behaviour(pair, ws, acts) && b < j < |ws| && p in ws[b].procs && ws[b].procs[p].pc.ListRetained?
    requires forall k | b < k <= j :: p in ws[k].procs && ws[k].procs[p].pc.ReadRetained?
    requires ws[j].procs[p].pc.todo == {} && ws[j].procs[p].pc.look == ForDecryption(e)
    ensures var got, w' := ws[j].procs[p].pc.got, Step(ws[j], Advance(p, i));
            && (e in got <==> RetainedFile(e) in ws[b].ring.files)
            && (e in got ==> got[e].Retained? && SeenBetween(ws, b, j, e, got[e]))
            && (p in w'.procs <==> e in got && i.now < got[e].until)
            && (p in w'.procs ==> w'.procs[p].pc == Done(Keys(e, got[e].pair, got[e].link, None), Some(e)))
  {
    var pc := ws[j].procs[p].pc;
    RunKeeps(pair, ws, acts, j);
    ListedCopiesAreRead(pair, ws, acts, b, j, p);
    DecryptionDecides(ws[j], p, pc.base, e, pc.got, i);
    hide Step;
    hide Enabled;
    hide Inv;
    assert e in pc.got.Keys <==> e in CopiesIn(ws[b].ring) by {
      assert {} + pc.got.Keys == pc.got.Keys;
    }
    assert e in CopiesIn(ws[b].ring) <==> RetainedFile(e) in ws[b].ring.files;
  }

  /** The copy a rotation or a load makes of a key it retires can be used for three days, six minutes
      and two minutes. */
  lemma CopiesLast(r: Ring, keys: Keys, back: Back, now: int)
    ensures Retire(keys, back, now) ==
            TakeLock(RetainedFile(keys.epoch), Retained(keys.pair, keys.link, now + 259_680_000), Readback(keys, back))
  {
  }
}

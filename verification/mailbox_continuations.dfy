/** What the relay object remembers between its transactions: records read before a wait, deliveries
    under way, and what a restart forgets. */
module MailboxContinuations {
  import opened Wrappers
  import opened Lifecycle
  import opened Ordered
  import opened MailboxState
  import opened MailboxScan
  import opened MailboxInvariant
  import opened MailboxAlarm
  import opened MailboxRun
  import opened MailboxAudit
  import opened MailboxTheorems
  import opened MailboxGuarantees
  import opened MailboxEffects
  import opened MailboxFrames

  /** The call that a dispatch would take: first of the queue, still waiting, and nothing under way. */
  ghost predicate NextInLine(s: Store, r: Resume) {
    && s.active.None? && s.queue != {} && First(s.queue).call == r.call
    && QueuedCall(s, r.call) && !Terminal(s.tasks[r.call]) && r.task == s.tasks[r.call]
  }

  /** The record an ending frame of its holder has just written. */
  predicate JustEnded(w: World, a: Action, w': World, r: Resume) {
    && a.Receive? && IsEnding(a.frame) && HeldBy(w.store, a.id, a.claimed, a.sender)
    && r.call == a.id && a.id in w'.store.tasks && r.task == w'.store.tasks[a.id]
  }

  lemma EndedAtTheFrame(w: World, a: Action)
    requires Enabled(w, a) && a.Receive? && HeldBy(w.store, a.id, a.claimed, a.sender)
    ensures var s' := OnFrame(w.store, a.id, a.frame, a.claimed, a.sender, a.now);
            a.id in s'.tasks && (Terminal(s'.tasks[a.id]) <==> IsEnding(a.frame))
  {
    OnlyTheHolderIsHeard(w.store, a.id, a.frame, a.claimed, a.sender, a.now);
    if !IsEnding(a.frame) {
      AdvanceShape(w.store, a.id, if a.frame.AcceptedFrame? then Accepted else Working,
                   if a.frame.AcceptedFrame? then 0 else a.frame.timeout, a.now);
    }
  }

  lemma HeadIsNext(s: Store, r: Resume)
    ensures NextInLine(s, r) <==> Head(s) == Some(r)
  {
  }

  lemma ChecksComeAndGo(w: World, a: Action, r: Resume)
    requires Enabled(w, a)
    ensures r in Step(w, a).checks <==>
              (r in w.checks && a != Crash && !(a.Deny? && a.denied == r)) || (a == AskAuthority && NextInLine(w.store, r))
  {
    HeadIsNext(w.store, r);
    hide NextInLine;
    hide Head;
    assert Head(w.store).Some? && Head(w.store).value == r <==> Head(w.store) == Some(r);
  }

  lemma FinishingsComeAndGo(w: World, a: Action, r: Resume)
    requires Enabled(w, a)
    ensures var w' := Step(w, a);
            r in w'.finishing <==> (r in w.finishing && a != Crash && a != FinishCall(r)) || JustEnded(w, a, w', r)
  {
    if a.Receive? {
      OnlyTheHolderIsHeard(w.store, a.id, a.frame, a.claimed, a.sender, a.now);
      if HeldBy(w.store, a.id, a.claimed, a.sender) {
        EndedAtTheFrame(w, a);
      }
      hide OnFrame;
      hide FrameApplies;
    }
  }

  /** A record is remembered from the dispatch that asks for the sender's authority until the denial,
      from an ending frame until the finishing step, and no longer than the process lives. A delivery
      is remembered until it succeeds or fails. */
  lemma ContinuationsComeAndGo(w: World, a: Action)
    requires Enabled(w, a)
    ensures var w' := Step(w, a);
            && (forall r :: r in w'.checks <==>
                  (r in w.checks && a != Crash && !(a.Deny? && a.denied == r)) || (a == AskAuthority && NextInLine(w.store, r)))
            && (forall r :: r in w'.finishing <==>
                  (r in w.finishing && a != Crash && a != FinishCall(r)) || JustEnded(w, a, w', r))
            && (forall f :: f in w'.flushes <==>
                  (f in w.flushes && a != Crash && a != FlushDelete(f) && a != FlushFail(f)) || a == FlushRead(f))
  {
    hide *;
    var w' := Step(w, a);
    forall r
      ensures r in w'.checks <==>
                (r in w.checks && a != Crash && !(a.Deny? && a.denied == r)) || (a == AskAuthority && NextInLine(w.store, r))
    {
      ChecksComeAndGo(w, a, r);
    }
    forall r
      ensures r in w'.finishing <==> (r in w.finishing && a != Crash && a != FinishCall(r)) || JustEnded(w, a, w', r)
    {
      FinishingsComeAndGo(w, a, r);
    }
    FlushesComeAndGo(w, a);
  }

  lemma FlushesComeAndGo(w: World, a: Action)
    requires Enabled(w, a)
    ensures forall f :: f in Step(w, a).flushes <==>
              (f in w.flushes && a != Crash && a != FlushDelete(f) && a != FlushFail(f)) || a == FlushRead(f)
  {
  }

  /** Losing the process, or a delivery, costs nothing that is stored or known to the database. */
  lemma NothingStoredIsLost(w: World, a: Action)
    requires Enabled(w, a) && (a == Crash || a.FlushFail? || a == AskAuthority || a.FlushRead?)
    ensures var w' := Step(w, a);
            w'.store == w.store && w'.ledger == w.ledger && w'.used == w.used && w'.clock == w.clock
  {
  }

  /** Time is what the latest step read, and stands still if it read none. */
  lemma TimeIsRead(w: World, a: Action)
    requires Enabled(w, a)
    ensures w.clock <= Step(w, a).clock
    ensures a.CancelBy? || a.Deny? || a.LeaseNext? || a.RebindActive? || a.Receive? || a.Ring? ==> Step(w, a).clock == a.now
    ensures !(a.CancelBy? || a.Deny? || a.LeaseNext? || a.RebindActive? || a.Receive? || a.Ring?) ==> Step(w, a).clock == w.clock
  {
  }

  // ---- What a run writes -------------------------------------------------------------------

  /** The caller, and nobody else, can cancel a call that has not been accepted, at any point of a run. */
  lemma CallersCancel(ws: seq<World>, acts: seq<Action>, i: nat)
    requires Behaviour(ws, acts) && i < |acts| && acts[i].CancelBy?
    ensures var s, s', id, caller, now := ws[i].store, ws[i + 1].store, acts[i].id, acts[i].caller, acts[i].now;
            if caller != "" && id in s.tasks && s.tasks[id].from == caller && !Terminal(s.tasks[id]) && Waiting(s.tasks[id])
            then EndsAs(s, s', id, IsCanceled, ReasonCanceled, None, s.tasks[id].mail.value.purgeAt, CallCancel, now) && LetGo(s, s', id)
            else ws[i + 1] == ws[i].(clock := now)
  {
    RunKeeps(ws, acts, i);
    StepAt(ws, acts, i);
    CancelEffect(ws[i].store, acts[i].id, acts[i].caller, acts[i].now);
    hide Cancel;
    hide EndsAs;
    hide LetGo;
  }

  /** A denial ends the call it was asked about if that call still waits, and nothing else. */
  lemma DenialsEnd(ws: seq<World>, acts: seq<Action>, i: nat)
    requires Behaviour(ws, acts) && i < |acts| && acts[i].Deny?
    ensures var s, s', c, now := ws[i].store, ws[i + 1].store, acts[i].denied, acts[i].now;
            && c.task.mail.Some?
            && if c.call in s.tasks && !Terminal(s.tasks[c.call]) && IsDelivery(s.tasks[c.call], Queued)
               then EndsAs(s, s', c.call, IsRejected, ReasonRevoked, None, c.task.mail.value.purgeAt, CallFail, now) && LetGo(s, s', c.call)
               else ws[i + 1] == ws[i].(clock := now, checks := ws[i].checks - {c})
  {
    RunKeeps(ws, acts, i);
    StepAt(ws, acts, i);
    assert CheckOk(acts[i].denied, ws[i].store, ws[i].used);
    DenialEffect(ws[i].store, acts[i].denied.call, acts[i].denied.task, acts[i].now);
    hide Revoke;
    hide EndsAs;
    hide LetGo;
  }
}

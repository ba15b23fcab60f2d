/** The phase of one call and the rules by which peer frames move it. */
module Lifecycle {
  import opened Wrappers

  datatype Phase = Submitted | Accepted | Working

  datatype Ending = Completed | Failed | Canceled | Expired

  datatype Call = Call(phase: Phase, deadline: int, terminal: Option<Ending>)

  function Rank(p: Phase): nat {
    match p
    case Submitted => 0
    case Accepted => 1
    case Working => 2
  }

  /** A duplicate or backward frame leaves the call as it is. */
  function Advance(c: Call, requested: Phase): Call {
    if c.terminal.Some? || Rank(requested) <= Rank(c.phase) then c else c.(phase := requested)
  }

  function Terminate(c: Call, ending: Ending): Call {
    if c.terminal.Some? then c else c.(terminal := Some(ending))
  }

  function Expire(c: Call, now: int): Option<Call> {
    if now >= c.deadline then Some(Terminate(c, Expired)) else None
  }

  function AdvanceAll(c: Call, frames: seq<Phase>): Call
    decreases |frames|
  {
    if frames == [] then c else AdvanceAll(Advance(c, frames[0]), frames[1..])
  }

  /** However frames are duplicated, dropped or reordered, a live call ends at the highest phase it
      was ever asked for; an ended call does not move. */
  lemma {:induction false} FramesReachTheirMaximum(c: Call, frames: seq<Phase>)
    ensures AdvanceAll(c, frames).terminal == c.terminal && AdvanceAll(c, frames).deadline == c.deadline
    ensures c.terminal.Some? ==> AdvanceAll(c, frames) == c
    ensures c.terminal.None? ==>
              var last := AdvanceAll(c, frames).phase;
              && (last == c.phase || last in frames)
              && Rank(c.phase) <= Rank(last)
              && forall f :: f in frames ==> Rank(f) <= Rank(last)
    decreases |frames|
  {
    if frames != [] {
      FramesReachTheirMaximum(Advance(c, frames[0]), frames[1..]);
      assert frames == [frames[0]] + frames[1..];
    }
  }

  /** A call expires at its deadline, not before. */
  lemma ExpiresAtItsDeadline(c: Call, now: int)
    ensures Expire(c, now) ==
            if now < c.deadline then None else Some(Call(c.phase, c.deadline, if c.terminal.Some? then c.terminal else Some(Expired)))
  {
  }

  /** Whichever ending comes first is kept, whatever arrives afterwards. */
  lemma FirstEndingWins(c: Call, first: Ending, later: Ending, frames: seq<Phase>, now: int)
    requires c.terminal.None?
    ensures Terminate(c, first) == Call(c.phase, c.deadline, Some(first))
    ensures Terminate(AdvanceAll(Terminate(c, first), frames), later) == Terminate(c, first)
    ensures var e := Expire(Terminate(c, first), now); e.Some? ==> e.value == Terminate(c, first)
  {
    FramesReachTheirMaximum(Terminate(c, first), frames);
  }
}

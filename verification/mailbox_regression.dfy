/** A run in which a call's recorded phase goes back. */
module MailboxRegression {
  import opened Wrappers
  import opened Lifecycle
  import opened Ordered
  import opened MailboxState
  import opened MailboxScan
  import opened MailboxInvariant
  import opened MailboxAlarm
  import opened MailboxRun
  import opened MailboxAudit
  import opened MailboxTheorems
  import opened MailboxGuarantees

  const QUEUED := Task("caller", 0, 0, MAILBOX_TTL, Phase.Submitted, IsSubmitted, None,
                       Some(NewMail("agent", "message", "{}", MAILBOX_TTL)))

  const LEASED := QUEUED.(updatedAt := 1_000,
                          mail := Some(QUEUED.mail.value.(delivery := Leased, lease := Some(Lease(7, 1, 31_000, 1)))))

  const ACCEPTED := LEASED.(updatedAt := 2_000, phase := Accepted)

  const REQUEUED := ACCEPTED.(updatedAt := 31_000, mail := Some(ACCEPTED.mail.value.(delivery := Queued)))

  const ACTIONS := [
    Submit(1, "caller", "agent", "message", "{}", 0, None),
    AskAuthority,
    LeaseNext(7, 1, 30_000, 1_000),
    Receive(1, AcceptedFrame, Some(7), Some(1), 2_000),
    Ring(31_000),
    Deny(Resume(1, QUEUED), 50_000)]

  const SUBMITTED_STORE := Store(
    map[1 := QUEUED], {Key(0, 1)}, {Key(MAILBOX_TTL, 1)},
    map[DedupeKey("agent", "message") := Dedupe(1, "{}")], None, 1, map["agent" := 1], 2,
    {Intent(0, CallSubmit, 1)})

  const LEASED_STORE := SUBMITTED_STORE.(tasks := map[1 := LEASED], active := Some(1))

  const ACCEPTED_STORE := LEASED_STORE.(
    tasks := map[1 := ACCEPTED], outbox := {Intent(0, CallSubmit, 1), Intent(2_000, CallAccept, 1)})

  const REQUEUED_STORE := ACCEPTED_STORE.(tasks := map[1 := REQUEUED], active := None)

  lemma Submitting()
    ensures Admit(EMPTY_STORE, 1, QUEUED) == SUBMITTED_STORE
  {
  }

  lemma Leasing()
    ensures LeaseHead(SUBMITTED_STORE, 7, 1, 30_000, 1_000) == LEASED_STORE
  {
    assert First({Key(0, 1)}) == Key(0, 1);
  }

  lemma Accepting()
    ensures OnFrame(LEASED_STORE, 1, AcceptedFrame, Some(7), Some(1), 2_000) == ACCEPTED_STORE
  {
    AdvanceShape(LEASED_STORE, 1, Accepted, 0, 2_000);
    assert {Intent(0, CallSubmit, 1)} + {Intent(2_000, CallAccept, 1)} ==
           {Intent(0, CallSubmit, 1), Intent(2_000, CallAccept, 1)};
  }

  lemma Requeueing()
    ensures Alarm(ACCEPTED_STORE, 31_000) == REQUEUED_STORE
  {
    assert RecoverLease(ACCEPTED_STORE, 1, 31_000) == REQUEUED_STORE;
    var rows := Listed(REQUEUED_STORE.due, DRAIN_LIMIT);
    assert Total(KeyOrder());
    PrefixRows(KeyOrder(), REQUEUED_STORE.due, DRAIN_LIMIT);
    assert rows != [] ==> rows[0] in rows;
    assert ExpireListed(REQUEUED_STORE, rows, 31_000) == REQUEUED_STORE;
  }

  const W1 := START.(store := SUBMITTED_STORE, used := {1})
  const W2 := W1.(checks := {Resume(1, QUEUED)})
  const W3 := W2.(store := LEASED_STORE, clock := 1_000)
  const W4 := W3.(store := ACCEPTED_STORE, clock := 2_000)
  const W5 := W4.(store := REQUEUED_STORE, clock := 31_000)

  ghost predicate Goes(w: World, a: Action, w': World) {
    Enabled(w, a) && Step(w, a) == w'
  }

  lemma FirstStep()
    ensures Goes(START, ACTIONS[0], W1)
  {
    Submitting();
  }

  lemma SecondStep()
    ensures Goes(W1, ACTIONS[1], W2)
  {
    assert First({Key(0, 1)}) == Key(0, 1);
  }

  lemma ThirdStep()
    ensures Goes(W2, ACTIONS[2], W3)
  {
    Leasing();
  }

  lemma FourthStep()
    ensures Goes(W3, ACTIONS[3], W4)
  {
    Accepting();
  }

  lemma FifthStep()
    ensures Goes(W4, ACTIONS[4], W5)
  {
    Requeueing();
  }

  lemma LateDenial() returns (w: World)
    ensures Goes(W5, ACTIONS[5], w) && !NoRegress(RecordOf(W5.store, 1), RecordOf(w.store, 1))
  {
    w := Step(W5, ACTIONS[5]);
  }

  /** Two dispatches overlap: one waits for the database with the record it read, the other leases
      the call, the listener accepts it and its lease lapses. The late denial then records an
      earlier phase than the caller was told. */
  lemma PhaseCanGoBack()
    ensures exists ws: seq<World> ::
              Behaviour(ws, ACTIONS) && !NoRegress(RecordOf(ws[5].store, 1), RecordOf(ws[6].store, 1))
  {
    hide *;
    FirstStep();
    SecondStep();
    ThirdStep();
    FourthStep();
    FifthStep();
    var w6 := LateDenial();
    Replay(W1, W2, W3, W4, W5, w6);
    var ws := [START, W1, W2, W3, W4, W5, w6];
    assert ws[5] == W5 && ws[6] == w6;
  }

  lemma Replay(w1: World, w2: World, w3: World, w4: World, w5: World, w6: World)
    requires Goes(START, ACTIONS[0], w1) && Goes(w1, ACTIONS[1], w2) && Goes(w2, ACTIONS[2], w3)
    requires Goes(w3, ACTIONS[3], w4) && Goes(w4, ACTIONS[4], w5) && Goes(w5, ACTIONS[5], w6)
    ensures Behaviour([START, w1, w2, w3, w4, w5, w6], ACTIONS)
  {
    hide Step;
    hide Enabled;
    var ws := [START, w1, w2, w3, w4, w5, w6];
    forall i | 0 <= i < |ACTIONS|
      ensures Goes(ws[i], ACTIONS[i], ws[i + 1])
    {
      assert i == 0 || i == 1 || i == 2 || i == 3 || i == 4 || i == 5;
    }
  }
}

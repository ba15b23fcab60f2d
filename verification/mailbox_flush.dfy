/** Audit deliveries that nobody disturbs: what one takes along, and how many empty the outbox. */
module MailboxFlush {
  import opened Wrappers
  import opened Ordered
  import opened MailboxState
  import opened MailboxInvariant
  import opened MailboxRun
  import opened MailboxAudit
  import opened MailboxTheorems

  ghost function Flushed(w: World, f: nat): World
    requires f !in w.flushes
  {
    Step(Step(Step(w, FlushRead(f)), FlushCommit(f)), FlushDelete(f))
  }

  /** Before in the order of delivery: by time, and at the same time by place in a call's life. */
  predicate NotLater(x: Intent, y: Intent) {
    x.at < y.at || (x.at == y.at && EventRank(x.event) <= EventRank(y.event))
  }

  /** The batch that was taken: the earliest intents, 24 of them if there are as many. */
  ghost predicate Batch(outbox: set<Intent>, items: seq<Intent>) {
    && (forall x | x in items :: x in outbox) && (forall p, q | 0 <= p < q < |items| :: items[p] != items[q])
    && |items| == (if |outbox| < 24 then |outbox| else 24)
    && (forall x, y | x in items && y in outbox && y !in items :: NotLater(x, y))
  }

  lemma PendingIsBatch(outbox: set<Intent>)
    ensures Batch(outbox, Pending(outbox))
  {
    IntentOrderTotal();
    PrefixRows(IntentOrder(), outbox, 24);
    var items := Pending(outbox);
    forall p, q | 0 <= p < q < |items|
      ensures items[p] != items[q]
    {
      assert IntentOrder()(items[p], items[q]);
    }
    forall x, y | x in items && y in outbox && y !in items
      ensures NotLater(x, y)
    {
      assert IntentOrder()(x, y);
    }
  }

  lemma FlushedShape(w: World, f: nat)
    requires f !in w.flushes
    ensures var items := Pending(w.store.outbox);
            Flushed(w, f) == w.(store := w.store.(outbox := w.store.outbox - (set i | i in items)), ledger := Insert(w.ledger, items))
  {
    hide Pending;
    hide Insert;
    assert w.flushes - {f} == w.flushes;
    var w3 := Flushed(w, f);
    assert w3.flushes == w.flushes;
  }

  lemma DeliveredOnce(w: World, f: nat)
    requires WorldInv(w) && f !in w.flushes
    ensures var items := Pending(w.store.outbox);
            && w.ledger <= Insert(w.ledger, items) && (forall x | x in items :: x in Insert(w.ledger, items))
            && (forall x | x in Insert(w.ledger, items) :: x in w.ledger || x in items)
  {
    PendingBatch(w.store.outbox, w.ledger, w.used, w.clock);
    InsertKeeps(w.ledger, Pending(w.store.outbox), Told(w.store.outbox, w.ledger));
    InsertedFrom(w.ledger, Pending(w.store.outbox));
  }

  lemma {:induction false} InsertedFrom(ledger: seq<Intent>, items: seq<Intent>)
    ensures forall x | x in Insert(ledger, items) :: x in ledger || x in items
    decreases |items|
  {
    if items != [] {
      InsertedFrom(if Recorded(ledger, items[0]) then ledger else ledger + [items[0]], items[1..]);
    }
  }

  lemma FlushKeeps(w: World, f: nat)
    requires WorldInv(w) && f !in w.flushes
    ensures WorldInv(Flushed(w, f))
  {
    hide WorldInv;
    StepKeeps(w, FlushRead(f));
    StepKeeps(Step(w, FlushRead(f)), FlushCommit(f));
    StepKeeps(Step(Step(w, FlushRead(f)), FlushCommit(f)), FlushDelete(f));
  }

  /** One delivery moves the earliest batch of the outbox to the end of the ledger, and nothing else. */
  lemma FlushDelivers(w: World, f: nat)
    requires WorldInv(w) && f !in w.flushes
    ensures var w' := Flushed(w, f);
            && WorldInv(w') && w' == w.(store := w.store.(outbox := w'.store.outbox), ledger := w'.ledger)
            && w.ledger <= w'.ledger
            && exists items :: && Batch(w.store.outbox, items)
                               && w'.store.outbox == w.store.outbox - (set i | i in items)
                               && forall x :: x in w'.ledger <==> x in w.ledger || x in items
  {
    FlushKeeps(w, f);
    FlushedShape(w, f);
    DeliveredOnce(w, f);
    PendingIsBatch(w.store.outbox);
    hide Flushed;
    hide Pending;
    hide Insert;
    hide Batch;
    hide WorldInv;
  }

  ghost function FlushedTimes(w: World, f: nat, n: nat): World
    requires f !in w.flushes
    decreases n
  {
    if n == 0 then w else
      var w' := Flushed(w, f);
      assert f !in w'.flushes;
      FlushedTimes(w', f, n - 1)
  }

  lemma BatchSize(outbox: set<Intent>, items: seq<Intent>)
    requires Batch(outbox, items)
    ensures |outbox - (set i | i in items)| == if |outbox| < 24 then 0 else |outbox| - 24
  {
    var taken := set i | i in items;
    SetOfDistinct(items);
    assert taken <= outbox;
    assert |outbox| == |taken| + |outbox - taken| by {
      assert outbox == taken + (outbox - taken);
    }
  }

  lemma {:induction false} SetOfDistinct(items: seq<Intent>)
    requires forall p, q | 0 <= p < q < |items| :: items[p] != items[q]
    ensures |set i | i in items| == |items|
    decreases |items|
  {
    if items == [] {
      assert (set i | i in items) == {};
    } else {
      SetOfDistinct(items[1..]);
      assert (set i | i in items) == {items[0]} + set i | i in items[1..];
      assert items[0] !in items[1..];
    }
  }

  lemma FlushShrinks(w: World, f: nat)
    requires WorldInv(w) && f !in w.flushes
    ensures var w' := Flushed(w, f);
            && WorldInv(w') && w'.flushes == w.flushes && w'.store.tasks == w.store.tasks
            && |w'.store.outbox| == (if |w.store.outbox| < 24 then 0 else |w.store.outbox| - 24)
            && forall x :: x in w'.ledger || x in w'.store.outbox <==> x in w.ledger || x in w.store.outbox
  {
    FlushDelivers(w, f);
    var w' := Flushed(w, f);
    var items :| Batch(w.store.outbox, items) && w'.store.outbox == w.store.outbox - (set i | i in items)
                 && forall x :: x in w'.ledger <==> x in w.ledger || x in items;
    BatchSize(w.store.outbox, items);
    assert forall x | x in items :: x in w.store.outbox;
    hide WorldInv;
    hide Flushed;
    hide Batch;
  }

  /** A backlog of up to 24 n intents is in the database after n deliveries, and the outbox is empty. */
  lemma {:induction false} BacklogDrains(w: World, f: nat, n: nat)
    requires WorldInv(w) && f !in w.flushes && |w.store.outbox| <= 24 * n
    ensures var w' := FlushedTimes(w, f, n);
            && w'.store.outbox == {} && w'.store.tasks == w.store.tasks
            && forall x :: x in w'.ledger <==> x in w.ledger || x in w.store.outbox
    decreases n
  {
    hide WorldInv;
    hide Flushed;
    if n > 0 {
      FlushShrinks(w, f);
      BacklogDrains(Flushed(w, f), f, n - 1);
    }
  }
}

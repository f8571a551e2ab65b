/** Where the items of the statement-level Rust warehouse are: the same promises as over the semaphores'
    sections, after every single statement. */
module FineWarehouseItems {
  import opened Transitions
  import opened Bookkeeping
  import opened FineWarehouse
  import T = FineWarehouseTheorems
  import R = RustWarehouse
  import Items = WarehouseItems
  import W = Warehouse
  import Safety = WarehouseSafety

  function ProducerHand(p: W.Producer): seq<int> { Items.ProducerHand(W.RustStyle, p) }
  function ConsumerHand(c: W.Consumer): seq<int> { Items.ConsumerHand(W.RustStyle, c) }

  function BooksOf(s: State): Books {
    Books(seq(|s.producers|, i requires 0 <= i < |s.producers| => ProducerHand(s.producers[i])),
          seq(|s.consumers|, j requires 0 <= j < |s.consumers| => ConsumerHand(s.consumers[j])),
          s.ring.added, s.ring.removed)
  }

  function EntryOf(n: nat, s: State, l: R.Label): Entry {
    match Step(n, s, l)
    case None => Idle
    case Some(t) =>
      match l
      case ProducerMoves(i, random, _) =>
        if i < |s.producers|
        then Making(i, Items.MadeAt(s.producers[i].pc, random), Gain(s.ring.added, t.ring.added)) else Idle
      case ConsumerMoves(j, _) =>
        if j < |s.consumers|
        then Taking(j, Gain(s.ring.removed, t.ring.removed), Items.ConsumedAt(s.consumers[j])) else Idle
      case _ => Idle
  }

  function EntryFor(n: nat): (State, R.Label) -> Entry {
    (s, l) => EntryOf(n, s, l)
  }

  function EntriesOf(n: nat, p: nat, c: nat, labels: seq<R.Label>): seq<Entry> {
    Entries(Machine(n), EntryFor(n), Init(n, p, c), labels)
  }

  ghost predicate Styled(s: State) {
    && (forall i :: 0 <= i < |s.producers| ==> Items.ProducerStyled(W.RustStyle, s.producers[i].pc))
    && (forall j :: 0 <= j < |s.consumers| ==> Items.ConsumerStyled(W.RustStyle, s.consumers[j].pc))
  }

  /** A producer's step balances in its own hands. */
  lemma ProducerHands(n: nat, s: State, i: nat, random: nat, wake: nat)
    requires Styled(s) && i < |s.producers| && ProducerStep(n, s, i, random, wake).Some?
    ensures
      var t := ProducerStep(n, s, i, random, wake).value;
      && |t.producers| == |s.producers| && t.producers == s.producers[i := t.producers[i]] && t.consumers == s.consumers
      && Items.ProducerStyled(W.RustStyle, t.producers[i].pc)
      && ProducerHand(s.producers[i]) + Items.MadeAt(s.producers[i].pc, random)
         == Gain(s.ring.added, t.ring.added) + ProducerHand(t.producers[i])
      && t.ring.added == s.ring.added + Gain(s.ring.added, t.ring.added) && t.ring.removed == s.ring.removed
  {
    assert Items.ProducerStyled(W.RustStyle, s.producers[i].pc);
  }

  lemma ConsumerHands(n: nat, s: State, j: nat, wake: nat)
    requires Styled(s) && j < |s.consumers| && ConsumerStep(n, s, j, wake).Some?
    ensures
      var t := ConsumerStep(n, s, j, wake).value;
      && |t.consumers| == |s.consumers| && t.consumers == s.consumers[j := t.consumers[j]] && t.producers == s.producers
      && Items.ConsumerStyled(W.RustStyle, t.consumers[j].pc)
      && ConsumerHand(s.consumers[j]) + Gain(s.ring.removed, t.ring.removed)
         == Items.ConsumedAt(s.consumers[j]) + ConsumerHand(t.consumers[j])
      && t.ring.removed == s.ring.removed + Gain(s.ring.removed, t.ring.removed) && t.ring.added == s.ring.added
  {
    assert Items.ConsumerStyled(W.RustStyle, s.consumers[j].pc);
  }

  lemma ProducerBooked(n: nat, s: State, i: nat, random: nat, wake: nat)
    requires Styled(s) && i < |s.producers| && ProducerStep(n, s, i, random, wake).Some?
    ensures
      var t := ProducerStep(n, s, i, random, wake).value;
      Styled(t) && Booked(BooksOf(s), EntryOf(n, s, R.ProducerMoves(i, random, wake)), BooksOf(t))
  {
    ProducerHands(n, s, i, random, wake);
    var b, c := BooksOf(s), BooksOf(ProducerStep(n, s, i, random, wake).value);
    assert c.making == b.making[i := c.making[i]];
  }

  lemma ConsumerBooked(n: nat, s: State, j: nat, wake: nat)
    requires Styled(s) && j < |s.consumers| && ConsumerStep(n, s, j, wake).Some?
    ensures
      var t := ConsumerStep(n, s, j, wake).value;
      Styled(t) && Booked(BooksOf(s), EntryOf(n, s, R.ConsumerMoves(j, wake)), BooksOf(t))
  {
    ConsumerHands(n, s, j, wake);
    var b, c := BooksOf(s), BooksOf(ConsumerStep(n, s, j, wake).value);
    assert c.taking == b.taking[j := c.taking[j]];
  }

  lemma StepBooked(n: nat, s: State, l: R.Label)
    requires Styled(s) && Step(n, s, l).Some?
    ensures
      var t := Step(n, s, l).value;
      Styled(t) && Booked(BooksOf(s), EntryOf(n, s, l), BooksOf(t))
  {
    match l {
      case ProducerMoves(i, random, wake) => ProducerBooked(n, s, i, random, wake);
      case ConsumerMoves(j, wake) => ConsumerBooked(n, s, j, wake);
      case _ =>
    }
  }

  lemma MachineBooked(n: nat)
    ensures KeepsBooks(Machine(n), Styled, BooksOf, EntryFor(n))
  {
    forall s, l | Styled(s) && Machine(n)(s, l).Some?
      ensures Styled(Machine(n)(s, l).value)
      ensures Booked(BooksOf(s), EntryFor(n)(s, l), BooksOf(Machine(n)(s, l).value))
    {
      StepBooked(n, s, l);
    }
  }

  lemma InitBlank(n: nat, p: nat, c: nat)
    ensures Styled(Init(n, p, c)) && Blank(BooksOf(Init(n, p, c)))
  {
  }

  lemma RunBooked(n: nat, p: nat, c: nat, labels: seq<R.Label>, s: State)
    requires T.Reachable(n, p, c, labels, s)
    ensures Straight(EntriesOf(n, p, c, labels), BooksOf(s))
    ensures |s.producers| == p && |s.consumers| == c
  {
    InitBlank(n, p, c);
    MachineBooked(n);
    Account(Machine(n), Styled, BooksOf, EntryFor(n), Init(n, p, c), labels, s);
  }

  ghost function MakersHold(s: State): multiset<int> {
    Pool(BooksOf(s).making)
  }

  ghost function TakersHold(s: State): multiset<int> {
    Pool(BooksOf(s).taking)
  }

  /** After every statement of every run, spurious wake-ups included, each producer has added the items of
      the numbers it drew, in that order, but for the one in hand; all items added were made, none twice. */
  lemma ProducersAddWhatTheyMake(n: nat, p: nat, c: nat, labels: seq<R.Label>, s: State)
    requires T.Reachable(n, p, c, labels, s)
    ensures |s.producers| == p
    ensures
      var es := EntriesOf(n, p, c, labels);
      && (forall i :: 0 <= i < p ==> Column(es, MadeBy(i)) == Column(es, AddedBy(i)) + ProducerHand(s.producers[i]))
      && s.ring.added == Column(es, Added)
      && multiset(Column(es, Made)) == multiset(s.ring.added) + MakersHold(s)
  {
    RunBooked(n, p, c, labels, s);
  }

  lemma ConsumersConsumeWhatTheyRemove(n: nat, p: nat, c: nat, labels: seq<R.Label>, s: State)
    requires T.Reachable(n, p, c, labels, s)
    ensures |s.consumers| == c
    ensures
      var es := EntriesOf(n, p, c, labels);
      && (forall j :: 0 <= j < c ==> Column(es, RemovedBy(j)) == Column(es, ConsumedBy(j)) + ConsumerHand(s.consumers[j]))
      && s.ring.removed == Column(es, Removed)
      && multiset(s.ring.removed) == multiset(Column(es, Consumed)) + TakersHold(s)
  {
    RunBooked(n, p, c, labels, s);
  }

  /** As long as no wake-up is spurious, every item ever made is in exactly one place. */
  lemma EveryItemIsInOnePlace(n: nat, p: nat, c: nat, labels: seq<R.Label>, s: State)
    requires T.Reachable(n, p, c, labels, s) && s.empty.spurious + s.full.spurious == 0
    ensures
      var es := EntriesOf(n, p, c, labels);
      multiset(Column(es, Made)) ==
        multiset(Column(es, Consumed)) + TakersHold(s) + multiset(Gain(s.ring.removed, s.ring.added)) + MakersHold(s)
  {
    RunBooked(n, p, c, labels, s);
    T.RefinesRustWarehouse(n, p, c, labels, s);
    var run := T.SectionRun(n, p, c, labels);
    R.RefinesCountingWarehouse(n, p, c, run, Abs(s));
    Safety.RingFollowsLog(R.Cfg(n), p, c, R.CountingRun(n, p, c, run), R.Abs(Abs(s)));
    EverywhereOnce(EntriesOf(n, p, c, labels), BooksOf(s));
  }
}

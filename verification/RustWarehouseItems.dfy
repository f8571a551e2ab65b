/** Where the items of the Rust warehouse are, over its hand-written semaphores: producers add what they make
    and consumers consume what they remove in every run, spurious wake-ups included; as long as none is
    spurious every item ever made is in exactly one place. */
module RustWarehouseItems {
  import opened Transitions
  import opened Bookkeeping
  import opened RustWarehouse
  import Items = WarehouseItems
  import W = Warehouse
  import Safety = WarehouseSafety

  function ProducerHand(p: Producer): seq<int> { Items.ProducerHand(W.RustStyle, p.thread) }
  function ConsumerHand(c: Consumer): seq<int> { Items.ConsumerHand(W.RustStyle, c.thread) }

  function BooksOf(s: State): Books {
    Books(seq(|s.producers|, i requires 0 <= i < |s.producers| => ProducerHand(s.producers[i])),
          seq(|s.consumers|, j requires 0 <= j < |s.consumers| => ConsumerHand(s.consumers[j])),
          s.ring.added, s.ring.removed)
  }

  /** A thread that is woken makes and consumes nothing; one that is awake does what its place says. */
  function EntryOf(n: nat, s: State, l: Label): Entry {
    match Step(n, s, l)
    case None => Idle
    case Some(t) =>
      match l
      case ProducerMoves(i, random, _) =>
        if i < |s.producers|
        then Making(i, Items.MadeAt(s.producers[i].thread.pc, random), Gain(s.ring.added, t.ring.added)) else Idle
      case ConsumerMoves(j, _) =>
        if j < |s.consumers|
        then Taking(j, Gain(s.ring.removed, t.ring.removed), Items.ConsumedAt(s.consumers[j].thread)) else Idle
      case _ => Idle
  }

  function EntryFor(n: nat): (State, Label) -> Entry {
    (s, l) => EntryOf(n, s, l)
  }

  function EntriesOf(n: nat, p: nat, c: nat, labels: seq<Label>): seq<Entry> {
    Entries(Machine(n), EntryFor(n), Init(n, p, c), labels)
  }

  ghost predicate Styled(s: State) {
    && (forall i :: 0 <= i < |s.producers| ==> Items.ProducerStyled(W.RustStyle, s.producers[i].thread.pc))
    && (forall j :: 0 <= j < |s.consumers| ==> Items.ConsumerStyled(W.RustStyle, s.consumers[j].thread.pc))
    && NapPlaces(s)
  }

  lemma ProducerStyled(n: nat, s: State, i: nat, random: nat, wake: nat)
    requires Styled(s) && i < |s.producers| && ProducerStep(n, s, i, random, wake).Some?
    ensures Styled(ProducerStep(n, s, i, random, wake).value)
  {
  }

  lemma ConsumerStyled(n: nat, s: State, j: nat, wake: nat)
    requires Styled(s) && j < |s.consumers| && ConsumerStep(n, s, j, wake).Some?
    ensures Styled(ConsumerStep(n, s, j, wake).value)
  {
  }

  /** A producer's step balances in its own hands; the consumer that it may wake has nothing in hand. */
  lemma ProducerHands(n: nat, s: State, i: nat, random: nat, wake: nat)
    requires Styled(s) && i < |s.producers| && ProducerStep(n, s, i, random, wake).Some?
    ensures
      var t := ProducerStep(n, s, i, random, wake).value;
      var p, q := s.producers[i], t.producers[i];
      && |t.producers| == |s.producers| && |t.consumers| == |s.consumers|
      && t.producers == s.producers[i := q]
      && ProducerHand(p) + Items.MadeAt(p.thread.pc, random) == Gain(s.ring.added, t.ring.added) + ProducerHand(q)
      && t.ring.added == s.ring.added + Gain(s.ring.added, t.ring.added) && t.ring.removed == s.ring.removed
      && forall j :: 0 <= j < |s.consumers| ==> ConsumerHand(t.consumers[j]) == ConsumerHand(s.consumers[j])
  {
  }

  lemma ConsumerHands(n: nat, s: State, j: nat, wake: nat)
    requires Styled(s) && j < |s.consumers| && ConsumerStep(n, s, j, wake).Some?
    ensures
      var t := ConsumerStep(n, s, j, wake).value;
      var c, d := s.consumers[j], t.consumers[j];
      && |t.producers| == |s.producers| && |t.consumers| == |s.consumers|
      && t.consumers == s.consumers[j := d]
      && ConsumerHand(c) + Gain(s.ring.removed, t.ring.removed) == Items.ConsumedAt(c.thread) + ConsumerHand(d)
      && t.ring.removed == s.ring.removed + Gain(s.ring.removed, t.ring.removed) && t.ring.added == s.ring.added
      && forall i :: 0 <= i < |s.producers| ==> ProducerHand(t.producers[i]) == ProducerHand(s.producers[i])
  {
  }

  lemma ProducerBooked(n: nat, s: State, i: nat, random: nat, wake: nat)
    requires Styled(s) && i < |s.producers| && ProducerStep(n, s, i, random, wake).Some?
    ensures Booked(BooksOf(s), EntryOf(n, s, ProducerMoves(i, random, wake)), BooksOf(ProducerStep(n, s, i, random, wake).value))
  {
    ProducerHands(n, s, i, random, wake);
    var b, c := BooksOf(s), BooksOf(ProducerStep(n, s, i, random, wake).value);
    assert c.making == b.making[i := c.making[i]];
    assert c.taking == b.taking;
  }

  lemma ConsumerBooked(n: nat, s: State, j: nat, wake: nat)
    requires Styled(s) && j < |s.consumers| && ConsumerStep(n, s, j, wake).Some?
    ensures Booked(BooksOf(s), EntryOf(n, s, ConsumerMoves(j, wake)), BooksOf(ConsumerStep(n, s, j, wake).value))
  {
    ConsumerHands(n, s, j, wake);
    var b, c := BooksOf(s), BooksOf(ConsumerStep(n, s, j, wake).value);
    assert c.taking == b.taking[j := c.taking[j]];
    assert c.making == b.making;
  }

  lemma SpuriousBooked(n: nat, s: State, l: Label)
    requires Styled(s) && (l.SpuriousProducer? || l.SpuriousConsumer?) && Step(n, s, l).Some?
    ensures Styled(Step(n, s, l).value) && BooksOf(Step(n, s, l).value) == BooksOf(s)
  {
    var t := Step(n, s, l).value;
    assert BooksOf(t).making == BooksOf(s).making && BooksOf(t).taking == BooksOf(s).taking;
  }

  lemma StepBooked(n: nat, s: State, l: Label)
    requires Styled(s) && Step(n, s, l).Some?
    ensures Styled(Step(n, s, l).value)
    ensures Booked(BooksOf(s), EntryOf(n, s, l), BooksOf(Step(n, s, l).value))
  {
    match l {
      case ProducerMoves(i, random, wake) => ProducerStyled(n, s, i, random, wake); ProducerBooked(n, s, i, random, wake);
      case ConsumerMoves(j, wake) => ConsumerStyled(n, s, j, wake); ConsumerBooked(n, s, j, wake);
      case _ => SpuriousBooked(n, s, l);
    }
  }

  lemma MachineBooked(n: nat)
    ensures KeepsBooks(Machine(n), Styled, BooksOf, EntryFor(n))
  {
    forall s, l | Styled(s) && Machine(n)(s, l).Some?
      ensures Styled(Machine(n)(s, l).value)
      ensures Booked(BooksOf(s), EntryFor(n)(s, l), BooksOf(Machine(n)(s, l).value))
    {
      StepBooked(n, s, l);
    }
  }

  lemma InitBlank(n: nat, p: nat, c: nat)
    ensures Styled(Init(n, p, c)) && Blank(BooksOf(Init(n, p, c)))
  {
  }

  lemma RunBooked(n: nat, p: nat, c: nat, labels: seq<Label>, s: State)
    requires Reachable(n, p, c, labels, s)
    ensures Straight(EntriesOf(n, p, c, labels), BooksOf(s))
    ensures |s.producers| == p && |s.consumers| == c
  {
    InitBlank(n, p, c);
    MachineBooked(n);
    Account(Machine(n), Styled, BooksOf, EntryFor(n), Init(n, p, c), labels, s);
  }

  ghost function MakersHold(s: State): multiset<int> {
    Pool(BooksOf(s).making)
  }

  ghost function TakersHold(s: State): multiset<int> {
    Pool(BooksOf(s).taking)
  }

  /** In every run, however many wake-ups are spurious, each producer has added the items of the numbers it
      drew, in that order, but for the one it has in hand; and all items added were made, none twice. */
  lemma ProducersAddWhatTheyMake(n: nat, p: nat, c: nat, labels: seq<Label>, s: State)
    requires Reachable(n, p, c, labels, s)
    ensures |s.producers| == p
    ensures
      var es := EntriesOf(n, p, c, labels);
      && (forall i :: 0 <= i < p ==> Column(es, MadeBy(i)) == Column(es, AddedBy(i)) + ProducerHand(s.producers[i]))
      && s.ring.added == Column(es, Added)
      && multiset(Column(es, Made)) == multiset(s.ring.added) + MakersHold(s)
  {
    RunBooked(n, p, c, labels, s);
  }

  /** And each consumer has consumed the items it removed, in that order, but for the one in hand. */
  lemma ConsumersConsumeWhatTheyRemove(n: nat, p: nat, c: nat, labels: seq<Label>, s: State)
    requires Reachable(n, p, c, labels, s)
    ensures |s.consumers| == c
    ensures
      var es := EntriesOf(n, p, c, labels);
      && (forall j :: 0 <= j < c ==> Column(es, RemovedBy(j)) == Column(es, ConsumedBy(j)) + ConsumerHand(s.consumers[j]))
      && s.ring.removed == Column(es, Removed)
      && multiset(s.ring.removed) == multiset(Column(es, Consumed)) + TakersHold(s)
  {
    RunBooked(n, p, c, labels, s);
  }

  /** As long as no wake-up is spurious, every item ever made is in exactly one place. */
  lemma EveryItemIsInOnePlace(n: nat, p: nat, c: nat, labels: seq<Label>, s: State)
    requires Reachable(n, p, c, labels, s) && Strays(s) == 0
    ensures
      var es := EntriesOf(n, p, c, labels);
      multiset(Column(es, Made)) ==
        multiset(Column(es, Consumed)) + TakersHold(s) + multiset(Gain(s.ring.removed, s.ring.added)) + MakersHold(s)
  {
    RunBooked(n, p, c, labels, s);
    RefinesCountingWarehouse(n, p, c, labels, s);
    Safety.RingFollowsLog(Cfg(n), p, c, CountingRun(n, p, c, labels), Abs(s));
    EverywhereOnce(EntriesOf(n, p, c, labels), BooksOf(s));
  }
}

/** Where the items of the warehouse are: what producers make is what they add, what consumers remove is
    what they consume, and every item ever made is in exactly one place. */
module WarehouseItems {
  import opened Transitions
  import opened Ring
  import opened Bookkeeping
  import opened Warehouse
  import Safety = WarehouseSafety

  /** The item a producer has made and not yet added. */
  function ProducerHand(style: Style, p: Producer): seq<int> {
    match p.pc
    case WaitEmpty => if style == CStyle then [p.item] else []
    case WaitLock => if style == CStyle then [p.item] else []
    case Store => [p.item]
    case Advance => [p.item]
    case _ => []
  }

  /** The item a consumer has removed and not yet consumed. */
  function ConsumerHand(style: Style, c: Consumer): seq<int> {
    match c.pc
    case Display(_) => [c.item]
    case ConsumeLocked => [c.item]
    case ReleaseLock => if style == CStyle then [c.item] else []
    case PostEmpty => if style == CStyle then [c.item] else []
    case Consume => [c.item]
    case _ => []
  }

  /** What a producer makes by a step at this place: the item of the number drawn. */
  function MadeAt(pc: ProducerPc, random: nat): seq<int> {
    if pc.Produce? || pc.Pick? then [Produced(random)] else []
  }

  /** What a consumer consumes by a step: the item it has. */
  function ConsumedAt(c: Consumer): seq<int> {
    if c.pc.Consume? || c.pc.ConsumeLocked? then [c.item] else []
  }

  function BooksOf(style: Style, s: State): Books {
    Books(seq(|s.producers|, i requires 0 <= i < |s.producers| => ProducerHand(style, s.producers[i])),
          seq(|s.consumers|, j requires 0 <= j < |s.consumers| => ConsumerHand(style, s.consumers[j])),
          s.ring.added, s.ring.removed)
  }

  function EntryOf(cfg: Config, s: State, l: Label): Entry {
    match Step(cfg, s, l)
    case None => Idle
    case Some(t) =>
      match l
      case ProducerMoves(i, random) =>
        if i < |s.producers| then Making(i, MadeAt(s.producers[i].pc, random), Gain(s.ring.added, t.ring.added)) else Idle
      case ConsumerMoves(j) =>
        if j < |s.consumers| then Taking(j, Gain(s.ring.removed, t.ring.removed), ConsumedAt(s.consumers[j])) else Idle
  }

  function EntryFor(cfg: Config): (State, Label) -> Entry {
    (s, l) => EntryOf(cfg, s, l)
  }

  function EntriesOf(cfg: Config, p: nat, c: nat, labels: seq<Label>): seq<Entry> {
    Entries(Machine(cfg), EntryFor(cfg), Init(cfg, p, c), labels)
  }

  /** Each style has its own place to make and to consume. */
  predicate ProducerStyled(style: Style, pc: ProducerPc) {
    if style == CStyle then !pc.Pick? else !pc.Produce?
  }

  predicate ConsumerStyled(style: Style, pc: ConsumerPc) {
    if style == CStyle then !pc.ConsumeLocked? else !pc.Consume?
  }

  ghost predicate Styled(style: Style, s: State) {
    && (forall i :: 0 <= i < |s.producers| ==> ProducerStyled(style, s.producers[i].pc))
    && (forall j :: 0 <= j < |s.consumers| ==> ConsumerStyled(style, s.consumers[j].pc))
  }

  /** A step of a thread balances in its own hands. */
  lemma ProducerHands(cfg: Config, s: State, i: nat, random: nat)
    requires Styled(cfg.style, s) && i < |s.producers| && ProducerStep(cfg, s, i, random).Some?
    ensures
      var t := ProducerStep(cfg, s, i, random).value;
      && |t.producers| == |s.producers| && t.producers == s.producers[i := t.producers[i]] && t.consumers == s.consumers
      && ProducerStyled(cfg.style, t.producers[i].pc)
      && ProducerHand(cfg.style, s.producers[i]) + MadeAt(s.producers[i].pc, random)
         == Gain(s.ring.added, t.ring.added) + ProducerHand(cfg.style, t.producers[i])
      && t.ring.added == s.ring.added + Gain(s.ring.added, t.ring.added) && t.ring.removed == s.ring.removed
  {
    assert ProducerStyled(cfg.style, s.producers[i].pc);
  }

  lemma ConsumerHands(cfg: Config, s: State, j: nat)
    requires Styled(cfg.style, s) && j < |s.consumers| && ConsumerStep(cfg, s, j).Some?
    ensures
      var t := ConsumerStep(cfg, s, j).value;
      && |t.consumers| == |s.consumers| && t.consumers == s.consumers[j := t.consumers[j]] && t.producers == s.producers
      && ConsumerStyled(cfg.style, t.consumers[j].pc)
      && ConsumerHand(cfg.style, s.consumers[j]) + Gain(s.ring.removed, t.ring.removed)
         == ConsumedAt(s.consumers[j]) + ConsumerHand(cfg.style, t.consumers[j])
      && t.ring.removed == s.ring.removed + Gain(s.ring.removed, t.ring.removed) && t.ring.added == s.ring.added
  {
    assert ConsumerStyled(cfg.style, s.consumers[j].pc);
  }

  lemma ProducerBooked(cfg: Config, s: State, i: nat, random: nat)
    requires Styled(cfg.style, s) && i < |s.producers| && ProducerStep(cfg, s, i, random).Some?
    ensures
      var t := ProducerStep(cfg, s, i, random).value;
      Styled(cfg.style, t) && Booked(BooksOf(cfg.style, s), EntryOf(cfg, s, ProducerMoves(i, random)), BooksOf(cfg.style, t))
  {
    ProducerHands(cfg, s, i, random);
    var b, c := BooksOf(cfg.style, s), BooksOf(cfg.style, ProducerStep(cfg, s, i, random).value);
    assert c.making == b.making[i := c.making[i]];
  }

  lemma ConsumerBooked(cfg: Config, s: State, j: nat)
    requires Styled(cfg.style, s) && j < |s.consumers| && ConsumerStep(cfg, s, j).Some?
    ensures
      var t := ConsumerStep(cfg, s, j).value;
      Styled(cfg.style, t) && Booked(BooksOf(cfg.style, s), EntryOf(cfg, s, ConsumerMoves(j)), BooksOf(cfg.style, t))
  {
    ConsumerHands(cfg, s, j);
    var b, c := BooksOf(cfg.style, s), BooksOf(cfg.style, ConsumerStep(cfg, s, j).value);
    assert c.taking == b.taking[j := c.taking[j]];
  }

  lemma InitBlank(cfg: Config, p: nat, c: nat)
    ensures Styled(cfg.style, Init(cfg, p, c)) && Blank(BooksOf(cfg.style, Init(cfg, p, c)))
  {
  }

  function BooksIn(style: Style): State -> Books {
    s => BooksOf(style, s)
  }

  ghost function StyledIn(style: Style): State -> bool {
    s => Styled(style, s)
  }

  lemma MachineBooked(cfg: Config)
    ensures KeepsBooks(Machine(cfg), StyledIn(cfg.style), BooksIn(cfg.style), EntryFor(cfg))
  {
    forall s, l | StyledIn(cfg.style)(s) && Machine(cfg)(s, l).Some?
      ensures StyledIn(cfg.style)(Machine(cfg)(s, l).value)
      ensures Booked(BooksIn(cfg.style)(s), EntryFor(cfg)(s, l), BooksIn(cfg.style)(Machine(cfg)(s, l).value))
    {
      match l {
        case ProducerMoves(i, random) => ProducerBooked(cfg, s, i, random);
        case ConsumerMoves(j) => ConsumerBooked(cfg, s, j);
      }
    }
  }

  lemma RunBooked(cfg: Config, p: nat, c: nat, labels: seq<Label>, s: State)
    requires Safety.Reachable(cfg, p, c, labels, s)
    ensures Straight(EntriesOf(cfg, p, c, labels), BooksOf(cfg.style, s))
    ensures Safety.Sized(p, c, s)
  {
    InitBlank(cfg, p, c);
    MachineBooked(cfg);
    Account(Machine(cfg), StyledIn(cfg.style), BooksIn(cfg.style), EntryFor(cfg), Init(cfg, p, c), labels, s);
  }

  /** The items in the hands of all producers, and of all consumers. */
  ghost function MakersHold(style: Style, s: State): multiset<int> {
    Pool(BooksOf(style, s).making)
  }

  ghost function TakersHold(style: Style, s: State): multiset<int> {
    Pool(BooksOf(style, s).taking)
  }

  /** In every run each producer has added the items of the numbers it drew, in that order, but for the
      one it has in hand; and all items added were made, none twice. */
  lemma ProducersAddWhatTheyMake(cfg: Config, p: nat, c: nat, labels: seq<Label>, s: State)
    requires Safety.Reachable(cfg, p, c, labels, s)
    ensures |s.producers| == p
    ensures
      var es := EntriesOf(cfg, p, c, labels);
      && (forall i :: 0 <= i < p ==> Column(es, MadeBy(i)) == Column(es, AddedBy(i)) + ProducerHand(cfg.style, s.producers[i]))
      && s.ring.added == Column(es, Added)
      && multiset(Column(es, Made)) == multiset(s.ring.added) + MakersHold(cfg.style, s)
  {
    RunBooked(cfg, p, c, labels, s);
  }

  /** In every run each consumer has consumed the items it removed, in that order, but for the one it has
      in hand; and all items consumed were removed, none twice. */
  lemma ConsumersConsumeWhatTheyRemove(cfg: Config, p: nat, c: nat, labels: seq<Label>, s: State)
    requires Safety.Reachable(cfg, p, c, labels, s)
    ensures |s.consumers| == c
    ensures
      var es := EntriesOf(cfg, p, c, labels);
      && (forall j :: 0 <= j < c ==> Column(es, RemovedBy(j)) == Column(es, ConsumedBy(j)) + ConsumerHand(cfg.style, s.consumers[j]))
      && s.ring.removed == Column(es, Removed)
      && multiset(s.ring.removed) == multiset(Column(es, Consumed)) + TakersHold(cfg.style, s)
  {
    RunBooked(cfg, p, c, labels, s);
  }

  /** Every item ever made is in exactly one place: consumed, with a consumer, in the ring, or with a
      producer. */
  lemma EveryItemIsInOnePlace(cfg: Config, p: nat, c: nat, labels: seq<Label>, s: State)
    requires Safety.Reachable(cfg, p, c, labels, s)
    ensures
      var es := EntriesOf(cfg, p, c, labels);
      multiset(Column(es, Made)) ==
        multiset(Column(es, Consumed)) + TakersHold(cfg.style, s) + multiset(Gain(s.ring.removed, s.ring.added))
        + MakersHold(cfg.style, s)
  {
    RunBooked(cfg, p, c, labels, s);
    Safety.RingFollowsLog(cfg, p, c, labels, s);
    EverywhereOnce(EntriesOf(cfg, p, c, labels), BooksOf(cfg.style, s));
  }

  // ----- when items are added in the order in which they were made -----

  /** Who can have an item in hand: in Rust the holder of the lock, in C a producer that is alone. */
  function InHand(cfg: Config, s: State): seq<int> {
    if cfg.style == CStyle then if |s.producers| == 1 then ProducerHand(CStyle, s.producers[0]) else []
    else if s.holder.ByProducer? && s.holder.i < |s.producers| then ProducerHand(RustStyle, s.producers[s.holder.i])
    else []
  }

  ghost predicate OneHand(cfg: Config, s: State) {
    && Styled(cfg.style, s) && Safety.Locked(s)
    && (cfg.style == CStyle ==> |s.producers| <= 1)
  }

  /** In Rust a producer with an item in hand has the lock. */
  lemma HandIsHolders(s: State, i: nat)
    requires Safety.Locked(s) && i < |s.producers|
    ensures ProducerHand(RustStyle, s.producers[i]) == (if s.holder == ByProducer(i) then InHand(Config(0, RustStyle), s) else [])
  {
    assert Safety.ProducerInside(s.producers[i].pc) <==> s.holder == ByProducer(i);
  }

  lemma ProducerInHand(cfg: Config, s: State, i: nat, random: nat)
    requires OneHand(cfg, s) && i < |s.producers| && ProducerStep(cfg, s, i, random).Some?
    ensures
      var t := ProducerStep(cfg, s, i, random).value;
      && OneHand(cfg, t)
      && InHand(cfg, s) + MadeAt(s.producers[i].pc, random) == Gain(s.ring.added, t.ring.added) + InHand(cfg, t)
  {
    var t := ProducerStep(cfg, s, i, random).value;
    ProducerHands(cfg, s, i, random);
    Safety.ProducerLocked(cfg, s, i, random);
    if cfg.style == RustStyle {
      HandIsHolders(s, i);
      HandIsHolders(t, i);
      HoldersHand(cfg, s, i, random);
    }
  }

  /** Before and after its step a producer is the one with the lock, or nobody has anything in hand. */
  lemma HoldersHand(cfg: Config, s: State, i: nat, random: nat)
    requires OneHand(cfg, s) && cfg.style == RustStyle && i < |s.producers| && ProducerStep(cfg, s, i, random).Some?
    ensures
      var t := ProducerStep(cfg, s, i, random).value;
      && (s.holder == ByProducer(i) || t.holder == s.holder || s.holder == Nobody)
      && (s.holder != ByProducer(i) && t.holder == s.holder ==> t.ring == s.ring && InHand(cfg, t) == InHand(cfg, s) && MadeAt(s.producers[i].pc, random) == [])
      && (t.holder != s.holder ==> t.ring == s.ring && MadeAt(s.producers[i].pc, random) == [] && InHand(cfg, s) == InHand(cfg, t) == [])
  {
    assert Safety.ProducerInside(s.producers[i].pc) <==> s.holder == ByProducer(i);
  }

  lemma ConsumerInHand(cfg: Config, s: State, j: nat)
    requires OneHand(cfg, s) && j < |s.consumers| && ConsumerStep(cfg, s, j).Some?
    ensures
      var t := ConsumerStep(cfg, s, j).value;
      OneHand(cfg, t) && t.ring.added == s.ring.added && InHand(cfg, s) == InHand(cfg, t)
  {
    ConsumerHands(cfg, s, j);
    Safety.ConsumerLocked(cfg, s, j);
    assert Safety.ConsumerInside(s.consumers[j].pc) <==> s.holder == ByConsumer(j);
  }

  lemma StepInHand(cfg: Config, s: State, l: Label)
    requires OneHand(cfg, s) && Step(cfg, s, l).Some?
    ensures
      var t, e := Step(cfg, s, l).value, EntryOf(cfg, s, l);
      OneHand(cfg, t) && InHand(cfg, s) + Made(e) == Added(e) + InHand(cfg, t)
  {
    match l {
      case ProducerMoves(i, random) => ProducerInHand(cfg, s, i, random);
      case ConsumerMoves(j) => ConsumerInHand(cfg, s, j);
    }
  }

  lemma LinedUp(cfg: Config, s: State, labels: seq<Label>)
    requires OneHand(cfg, s) && Exec(Machine(cfg), s, labels).Some?
    ensures InHand(cfg, s) + Column(Entries(Machine(cfg), EntryFor(cfg), s, labels), Made)
            == Column(Entries(Machine(cfg), EntryFor(cfg), s, labels), Added) + InHand(cfg, Exec(Machine(cfg), s, labels).value)
  {
    forall s, l | OneHand(cfg, s) && Machine(cfg)(s, l).Some?
      ensures
        var t, e := Machine(cfg)(s, l).value, EntryFor(cfg)(s, l);
        OneHand(cfg, t) && InHand(cfg, s) + Made(e) == Added(e) + InHand(cfg, t)
    {
      StepInHand(cfg, s, l);
    }
    LineUp(Machine(cfg), s => OneHand(cfg, s), s => InHand(cfg, s), EntryFor(cfg), s, labels);
  }

  lemma RunInHand(cfg: Config, p: nat, c: nat, labels: seq<Label>, s: State)
    requires Safety.Reachable(cfg, p, c, labels, s) && (cfg.style == RustStyle || p <= 1)
    ensures Column(EntriesOf(cfg, p, c, labels), Made) == s.ring.added + InHand(cfg, s)
  {
    LinedUp(cfg, Init(cfg, p, c), labels);
    ProducersAddWhatTheyMake(cfg, p, c, labels, s);
    assert [] + Column(EntriesOf(cfg, p, c, labels), Made) == Column(EntriesOf(cfg, p, c, labels), Made);
  }

  lemma Extend(cfg: Config, p: nat, c: nat, labels: seq<Label>, s: State, l: Label) returns (longer: seq<Label>, t: State)
    requires Safety.Reachable(cfg, p, c, labels, s) && Step(cfg, s, l).Some?
    ensures Safety.Reachable(cfg, p, c, longer, t) && Some(t) == Step(cfg, s, l)
    ensures Column(EntriesOf(cfg, p, c, longer), Made) == Column(EntriesOf(cfg, p, c, labels), Made) + Made(EntryOf(cfg, s, l))
  {
    longer, t := labels + [l], Step(cfg, s, l).value;
    ExecSnoc(Machine(cfg), Init(cfg, p, c), labels, l);
    ColumnLast(Machine(cfg), EntryFor(cfg), Init(cfg, p, c), labels, l, Made);
  }

  /** A C producer that has made its item goes on until it has added it. */
  lemma AddsItsItem(cfg: Config, p: nat, c: nat, labels: seq<Label>, s: State, i: nat)
    returns (longer: seq<Label>, t: State)
    requires Safety.Reachable(cfg, p, c, labels, s) && cfg.style == CStyle && i < |s.producers|
    requires s.producers[i].pc == WaitEmpty && s.empty > 0 && s.lock > 0 && InBounds(s.ring)
    ensures Safety.Reachable(cfg, p, c, longer, t) && t.ring.added == s.ring.added + [s.producers[i].item]
    ensures Column(EntriesOf(cfg, p, c, longer), Made) == Column(EntriesOf(cfg, p, c, labels), Made)
  {
    longer, t := Extend(cfg, p, c, labels, s, ProducerMoves(i, 0));
    assert t.producers[i] == Producer(WaitLock, s.producers[i].item);
    longer, t := Extend(cfg, p, c, longer, t, ProducerMoves(i, 0));
    assert t.producers[i] == Producer(Store, s.producers[i].item) && t.ring == s.ring;
    longer, t := Extend(cfg, p, c, longer, t, ProducerMoves(i, 0));
    assert t.producers[i] == Producer(Advance, s.producers[i].item) && t.ring == StoreItem(s.ring, s.producers[i].item);
    longer, t := Extend(cfg, p, c, longer, t, ProducerMoves(i, 0));
  }

  /** In C the second of two producers can overtake the first between making and adding. */
  lemma SecondOvertakes(cfg: Config, p: nat, c: nat) returns (labels: seq<Label>, s: State)
    requires cfg.n > 0 && cfg.style == CStyle && p >= 2
    ensures Safety.Reachable(cfg, p, c, labels, s)
    ensures s.ring.added == [2] && Column(EntriesOf(cfg, p, c, labels), Made) == [1, 2]
  {
    labels, s := [], Init(cfg, p, c);
    assert Column(EntriesOf(cfg, p, c, labels), Made) == [];
    labels, s := Extend(cfg, p, c, labels, s, ProducerMoves(0, 0));
    labels, s := Extend(cfg, p, c, labels, s, ProducerMoves(1, 1));
    assert s.producers[1] == Producer(WaitEmpty, 2) && s.ring == EmptyRing(cfg.n);
    assert Column(EntriesOf(cfg, p, c, labels), Made) == [1, 2];
    labels, s := AddsItsItem(cfg, p, c, labels, s, 1);
  }

  ghost predicate AlwaysInMakingOrder(cfg: Config, p: nat, c: nat) {
    forall labels :: Exec(Machine(cfg), Init(cfg, p, c), labels).Some? ==>
      Exec(Machine(cfg), Init(cfg, p, c), labels).value.ring.added <= Column(EntriesOf(cfg, p, c, labels), Made)
  }

  /** In all runs the items are added, and so removed, in the order in which all producers together made
      them if and only if they are made under the lock, as in Rust, or there is at most one producer. */
  lemma WhenAddedInMakingOrder(cfg: Config, p: nat, c: nat)
    requires cfg.n > 0
    ensures AlwaysInMakingOrder(cfg, p, c) <==> cfg.style == RustStyle || p <= 1
  {
    if cfg.style == RustStyle || p <= 1 {
      forall labels | Exec(Machine(cfg), Init(cfg, p, c), labels).Some?
        ensures Exec(Machine(cfg), Init(cfg, p, c), labels).value.ring.added <= Column(EntriesOf(cfg, p, c, labels), Made)
      {
        RunInHand(cfg, p, c, labels, Exec(Machine(cfg), Init(cfg, p, c), labels).value);
      }
    } else {
      var labels, s := SecondOvertakes(cfg, p, c);
      assert Exec(Machine(cfg), Init(cfg, p, c), labels).Some?;
      assert s.ring.added[0] != Column(EntriesOf(cfg, p, c, labels), Made)[0];
    }
  }

  // ----- the items themselves -----

  /** enum Item of the Rust program. */
  datatype Item = Hat | Phone | Dress | Pants | Shoes | Burrito | Sushi | Sandals | PC | Other

  /** The match of the Rust produce, and of the C print_item, on a number. */
  function ItemOf(number: int): Item {
    match number
    case 1 => Hat
    case 2 => Phone
    case 3 => Dress
    case 4 => Pants
    case 5 => Shoes
    case 6 => Burrito
    case 7 => Sushi
    case 8 => Sandals
    case 9 => PC
    case _ => Other
  }

  /** Item::fmt. */
  function Format(item: Item): string {
    match item
    case Hat => "hat"
    case Phone => "phone"
    case Dress => "dress"
    case Pants => "pants"
    case Shoes => "shoes"
    case Burrito => "burrito"
    case Sushi => "sushi"
    case Sandals => "sandals"
    case PC => "pc"
    case Other => "other"
  }

  /** The C names and the Rust names of a number are the same. */
  lemma NamesAgree(number: int)
    ensures ItemName(number) == Format(ItemOf(number))
    ensures ItemOf(number) == Other <==> !ItemRange(number)
  {
  }

  /** No two items share a name, and no two numbers of items share an item. */
  lemma NamesAreDistinct(x: int, y: int)
    requires ItemRange(x) && ItemRange(y) && ItemName(x) == ItemName(y)
    ensures x == y
  {
    FirstLetter(x);
    FirstLetter(y);
  }

  lemma FirstLetter(x: int)
    requires ItemRange(x)
    ensures |ItemName(x)| > 2 || x == 9
    ensures |ItemName(x)| == 2 ==> x == 9
    ensures x == 9 ==> ItemName(x) == "pc"
    ensures x != 9 ==> ItemName(x)[..3] == ["hat", "pho", "dre", "pan", "sho", "bur", "sus", "san"][x - 1]
  {
  }

  /** Every number drawn makes an item of the enumeration, each of the nine items is made by some number,
      and numbers make the same item exactly when they differ by a multiple of nine. */
  lemma DrawsMakeAllItems(random: nat, other: nat, item: int)
    ensures ItemRange(Produced(random))
    ensures ItemRange(item) ==> Produced((item - 1) as nat) == item
    ensures Produced(random) == Produced(other) <==> (random - other) % 9 == 0
  {
    Nines(random - other, random / 9 - other / 9, random % 9 - other % 9);
  }

  lemma Nines(x: int, q: int, d: int)
    requires x == 9 * q + d && -9 < d < 9
    ensures x % 9 == 0 <==> d == 0
  {
  }
}

/** Bookkeeping of items that makers put into a store and takers take out of it: what a thread has in
    hand, what it made, added, removed and consumed. Any machine whose single steps balance has runs that
    balance, thread by thread in order and over all threads in number. */
module Bookkeeping {
  import opened Transitions

  /** What each maker and each taker has in hand, and the store's two logs. */
  datatype Books = Books(making: seq<seq<int>>, taking: seq<seq<int>>, added: seq<int>, removed: seq<int>)

  /** One step: of maker i, of taker j, or of neither kind. */
  datatype Entry =
    | Making(i: nat, made: seq<int>, added: seq<int>)
    | Taking(j: nat, removed: seq<int>, consumed: seq<int>)
    | Idle

  function Made(e: Entry): seq<int> { if e.Making? then e.made else [] }
  function Added(e: Entry): seq<int> { if e.Making? then e.added else [] }
  function Removed(e: Entry): seq<int> { if e.Taking? then e.removed else [] }
  function Consumed(e: Entry): seq<int> { if e.Taking? then e.consumed else [] }

  function MadeBy(i: nat): Entry -> seq<int> { (e: Entry) => if e.Making? && e.i == i then e.made else [] }
  function AddedBy(i: nat): Entry -> seq<int> { (e: Entry) => if e.Making? && e.i == i then e.added else [] }
  function RemovedBy(j: nat): Entry -> seq<int> { (e: Entry) => if e.Taking? && e.j == j then e.removed else [] }
  function ConsumedBy(j: nat): Entry -> seq<int> { (e: Entry) => if e.Taking? && e.j == j then e.consumed else [] }

  /** One column of the books of a run. */
  function Column(es: seq<Entry>, part: Entry -> seq<int>): seq<int> {
    if es == [] then [] else part(es[0]) + Column(es[1..], part)
  }

  /** What a log has gained. */
  function Gain(before: seq<int>, after: seq<int>): seq<int> {
    if |before| <= |after| then after[|before|..] else []
  }

  /** All items in hand. */
  ghost function Pool(hands: seq<seq<int>>): multiset<int> {
    if hands == [] then multiset{} else multiset(hands[0]) + Pool(hands[1..])
  }

  lemma {:induction false} PoolUpdate(hands: seq<seq<int>>, i: nat, hand: seq<int>)
    requires i < |hands|
    ensures Pool(hands[i := hand]) + multiset(hands[i]) == Pool(hands) + multiset(hand)
  {
    if i == 0 {
      assert hands[i := hand][1..] == hands[1..];
    } else {
      var after := hands[i := hand];
      PoolUpdate(hands[1..], i - 1, hand);
      assert after[1..] == hands[1..][i - 1 := hand] && after[0] == hands[0];
      assert Pool(after) + multiset(hands[i]) == multiset(hands[0]) + (Pool(after[1..]) + multiset(hands[i]));
    }
  }

  lemma {:induction false} PoolEmpty(hands: seq<seq<int>>)
    requires forall i :: 0 <= i < |hands| ==> hands[i] == []
    ensures Pool(hands) == multiset{}
  {
    if hands != [] {
      PoolEmpty(hands[1..]);
    }
  }

  /** The mover's hand before and what it takes in make up what it gives out and its hand after. */
  ghost predicate Booked(b: Books, e: Entry, c: Books) {
    match e
    case Making(i, made, added) =>
      && i < |b.making| == |c.making| && c.making == b.making[i := c.making[i]] && c.taking == b.taking
      && b.making[i] + made == added + c.making[i]
      && c.added == b.added + added && c.removed == b.removed
    case Taking(j, removed, consumed) =>
      && j < |b.taking| == |c.taking| && c.taking == b.taking[j := c.taking[j]] && c.making == b.making
      && b.taking[j] + removed == consumed + c.taking[j]
      && c.removed == b.removed + removed && c.added == b.added
    case Idle => c == b
  }

  /** Every thread gives out what it took in, in order, but for what it still has in hand. */
  ghost predicate InOrder(b: Books, es: seq<Entry>, c: Books) {
    && |b.making| == |c.making| && |b.taking| == |c.taking|
    && (forall i :: 0 <= i < |b.making| ==> b.making[i] + Column(es, MadeBy(i)) == Column(es, AddedBy(i)) + c.making[i])
    && (forall j :: 0 <= j < |b.taking| ==> b.taking[j] + Column(es, RemovedBy(j)) == Column(es, ConsumedBy(j)) + c.taking[j])
  }

  /** And so do all threads together. */
  ghost predicate InNumber(b: Books, es: seq<Entry>, c: Books) {
    && c.added == b.added + Column(es, Added) && c.removed == b.removed + Column(es, Removed)
    && Pool(b.making) + multiset(Column(es, Made)) == multiset(Column(es, Added)) + Pool(c.making)
    && Pool(b.taking) + multiset(Column(es, Removed)) == multiset(Column(es, Consumed)) + Pool(c.taking)
  }

  lemma Link(x: seq<int>, p: seq<int>, q: seq<int>, y: seq<int>, p': seq<int>, q': seq<int>, z: seq<int>)
    requires x + p == q + y && y + p' == q' + z
    ensures x + (p + p') == (q + q') + z
  {
    assert x + (p + p') == (x + p) + p';
    assert (q + y) + p' == q + (y + p');
    assert q + (q' + z) == (q + q') + z;
  }

  lemma FirstInOrder(b: Books, e: Entry, m: Books, es: seq<Entry>, c: Books)
    requires Booked(b, e, m) && InOrder(m, es, c)
    ensures InOrder(b, [e] + es, c)
  {
    assert ([e] + es)[1..] == es;
    forall i | 0 <= i < |b.making|
      ensures b.making[i] + Column([e] + es, MadeBy(i)) == Column([e] + es, AddedBy(i)) + c.making[i]
    {
      Link(b.making[i], MadeBy(i)(e), AddedBy(i)(e), m.making[i], Column(es, MadeBy(i)), Column(es, AddedBy(i)), c.making[i]);
    }
    forall j | 0 <= j < |b.taking|
      ensures b.taking[j] + Column([e] + es, RemovedBy(j)) == Column([e] + es, ConsumedBy(j)) + c.taking[j]
    {
      Link(b.taking[j], RemovedBy(j)(e), ConsumedBy(j)(e), m.taking[j], Column(es, RemovedBy(j)), Column(es, ConsumedBy(j)), c.taking[j]);
    }
  }

  lemma PoolBooked(hands: seq<seq<int>>, i: nat, hand: seq<int>, taken: seq<int>, given: seq<int>)
    requires i < |hands| && hands[i] + taken == given + hand
    ensures Pool(hands) + multiset(taken) == multiset(given) + Pool(hands[i := hand])
  {
    PoolUpdate(hands, i, hand);
    var after := hands[i := hand];
    assert multiset(hands[i]) + multiset(taken) == multiset(hands[i] + taken) == multiset(given) + multiset(hand);
    forall x: int
      ensures (Pool(hands) + multiset(taken))[x] == (multiset(given) + Pool(after))[x]
    {
      assert (Pool(after) + multiset(hands[i]))[x] == (Pool(hands) + multiset(hand))[x];
      assert (multiset(hands[i]) + multiset(taken))[x] == (multiset(given) + multiset(hand))[x];
    }
  }

  lemma PoolsBooked(b: Books, e: Entry, m: Books)
    requires Booked(b, e, m)
    ensures Pool(b.making) + multiset(Made(e)) == multiset(Added(e)) + Pool(m.making)
    ensures Pool(b.taking) + multiset(Removed(e)) == multiset(Consumed(e)) + Pool(m.taking)
    ensures m.added == b.added + Added(e) && m.removed == b.removed + Removed(e)
  {
    match e {
      case Making(i, made, added) => PoolBooked(b.making, i, m.making[i], made, added);
      case Taking(j, removed, consumed) => PoolBooked(b.taking, j, m.taking[j], removed, consumed);
      case Idle =>
    }
  }

  lemma PoolLink(
    x: multiset<int>, p: seq<int>, q: seq<int>, y: multiset<int>, p': seq<int>, q': seq<int>, z: multiset<int>)
    requires x + multiset(p) == multiset(q) + y && y + multiset(p') == multiset(q') + z
    ensures x + multiset(p + p') == multiset(q + q') + z
  {
    forall k: int
      ensures (x + multiset(p + p'))[k] == (multiset(q + q') + z)[k]
    {
      assert (x + multiset(p))[k] == (multiset(q) + y)[k];
      assert (y + multiset(p'))[k] == (multiset(q') + z)[k];
    }
  }

  lemma ColumnFirst(e: Entry, es: seq<Entry>, part: Entry -> seq<int>)
    ensures Column([e] + es, part) == part(e) + Column(es, part)
  {
    assert ([e] + es)[1..] == es;
  }

  /** All columns of the books of a run with one more step in front. */
  lemma ColumnsFirst(e: Entry, es: seq<Entry>)
    ensures Column([e] + es, Made) == Made(e) + Column(es, Made)
    ensures Column([e] + es, Added) == Added(e) + Column(es, Added)
    ensures Column([e] + es, Removed) == Removed(e) + Column(es, Removed)
    ensures Column([e] + es, Consumed) == Consumed(e) + Column(es, Consumed)
  {
    ColumnFirst(e, es, Made);
    ColumnFirst(e, es, Added);
    ColumnFirst(e, es, Removed);
    ColumnFirst(e, es, Consumed);
  }

  lemma Regroup(x: seq<int>, p: seq<int>, q: seq<int>)
    ensures (x + p) + q == x + (p + q)
  {
  }

  lemma FirstInNumber(b: Books, e: Entry, m: Books, es: seq<Entry>, c: Books)
    requires Booked(b, e, m) && InNumber(m, es, c)
    ensures InNumber(b, [e] + es, c)
  {
    PoolsBooked(b, e, m);
    ColumnsFirst(e, es);
    Regroup(b.added, Added(e), Column(es, Added));
    Regroup(b.removed, Removed(e), Column(es, Removed));
    PoolLink(Pool(b.making), Made(e), Added(e), Pool(m.making), Column(es, Made), Column(es, Added), Pool(c.making));
    PoolLink(Pool(b.taking), Removed(e), Consumed(e), Pool(m.taking), Column(es, Removed), Column(es, Consumed), Pool(c.taking));
  }

  ghost predicate KeepsBooks<S(!new), L(!new)>(
    step: (S, L) -> Option<S>, inv: S -> bool, books: S -> Books, entry: (S, L) -> Entry)
  {
    forall s, l :: inv(s) && step(s, l).Some? ==>
      inv(step(s, l).value) && Booked(books(s), entry(s, l), books(step(s, l).value))
  }

  /** The entries of a run. */
  function Entries<S, L>(step: (S, L) -> Option<S>, entry: (S, L) -> Entry, s: S, labels: seq<L>): seq<Entry>
    decreases |labels|
  {
    if labels == [] || step(s, labels[0]).None? then []
    else [entry(s, labels[0])] + Entries(step, entry, step(s, labels[0]).value, labels[1..])
  }

  /** What single steps keep in balance, runs do. */
  lemma {:induction false} Ledger<S(!new), L(!new)>(
    step: (S, L) -> Option<S>, inv: S -> bool, books: S -> Books, entry: (S, L) -> Entry, s: S, labels: seq<L>)
    requires inv(s) && KeepsBooks(step, inv, books, entry) && Exec(step, s, labels).Some?
    ensures InOrder(books(s), Entries(step, entry, s, labels), books(Exec(step, s, labels).value))
    ensures InNumber(books(s), Entries(step, entry, s, labels), books(Exec(step, s, labels).value))
    decreases |labels|
  {
    if labels != [] {
      var t := step(s, labels[0]).value;
      Ledger(step, inv, books, entry, t, labels[1..]);
      var rest := Entries(step, entry, t, labels[1..]);
      FirstInOrder(books(s), entry(s, labels[0]), books(t), rest, books(Exec(step, t, labels[1..]).value));
      FirstInNumber(books(s), entry(s, labels[0]), books(t), rest, books(Exec(step, t, labels[1..]).value));
    }
  }

  /** Books with empty hands and empty logs. */
  ghost predicate Blank(b: Books) {
    && b.added == [] && b.removed == []
    && (forall i :: 0 <= i < |b.making| ==> b.making[i] == [])
    && (forall j :: 0 <= j < |b.taking| ==> b.taking[j] == [])
  }

  /** A run from a blank start: each maker adds what it makes and each taker consumes what it removes, in
      order and none but that. */
  ghost predicate Straight(es: seq<Entry>, c: Books) {
    && (forall i :: 0 <= i < |c.making| ==> Column(es, MadeBy(i)) == Column(es, AddedBy(i)) + c.making[i])
    && (forall j :: 0 <= j < |c.taking| ==> Column(es, RemovedBy(j)) == Column(es, ConsumedBy(j)) + c.taking[j])
    && c.added == Column(es, Added) && c.removed == Column(es, Removed)
    && multiset(Column(es, Made)) == multiset(c.added) + Pool(c.making)
    && multiset(c.removed) == multiset(Column(es, Consumed)) + Pool(c.taking)
  }

  lemma FromBlank(b: Books, es: seq<Entry>, c: Books)
    requires Blank(b) && InOrder(b, es, c) && InNumber(b, es, c)
    ensures Straight(es, c)
  {
    PoolEmpty(b.making);
    PoolEmpty(b.taking);
    forall i | 0 <= i < |c.making| ensures Column(es, MadeBy(i)) == Column(es, AddedBy(i)) + c.making[i] {
      assert b.making[i] + Column(es, MadeBy(i)) == Column(es, MadeBy(i));
    }
    forall j | 0 <= j < |c.taking| ensures Column(es, RemovedBy(j)) == Column(es, ConsumedBy(j)) + c.taking[j] {
      assert b.taking[j] + Column(es, RemovedBy(j)) == Column(es, RemovedBy(j));
    }
    assert [] + Column(es, Added) == Column(es, Added) && [] + Column(es, Removed) == Column(es, Removed);
  }

  lemma Account<S(!new), L(!new)>(
    step: (S, L) -> Option<S>, inv: S -> bool, books: S -> Books, entry: (S, L) -> Entry, s: S, labels: seq<L>, t: S)
    requires inv(s) && KeepsBooks(step, inv, books, entry) && Blank(books(s)) && Exec(step, s, labels) == Some(t)
    ensures Straight(Entries(step, entry, s, labels), books(t))
    ensures |books(t).making| == |books(s).making| && |books(t).taking| == |books(s).taking|
  {
    Ledger(step, inv, books, entry, s, labels);
    FromBlank(books(s), Entries(step, entry, s, labels), books(t));
  }

  /** When the removed log is moreover a prefix of the added one, every item made is in exactly one place:
      consumed, in a taker's hands, in the store, or in a maker's hands. */
  lemma EverywhereOnce(es: seq<Entry>, c: Books)
    requires Straight(es, c) && c.removed <= c.added
    ensures multiset(Column(es, Made)) ==
            multiset(Column(es, Consumed)) + Pool(c.taking) + multiset(Gain(c.removed, c.added)) + Pool(c.making)
  {
    assert c.added == c.removed + Gain(c.removed, c.added);
  }

  /** When all that is in hand at any time is in one pair of hands, the items are added in the order in
      which they were made. */
  lemma {:induction false} LineUp<S(!new), L(!new)>(
    step: (S, L) -> Option<S>, inv: S -> bool, hand: S -> seq<int>, entry: (S, L) -> Entry, s: S, labels: seq<L>)
    requires inv(s) && Exec(step, s, labels).Some?
    requires forall s, l :: inv(s) && step(s, l).Some? ==>
               inv(step(s, l).value) && hand(s) + Made(entry(s, l)) == Added(entry(s, l)) + hand(step(s, l).value)
    ensures
      var es, t := Entries(step, entry, s, labels), Exec(step, s, labels).value;
      hand(s) + Column(es, Made) == Column(es, Added) + hand(t)
    decreases |labels|
  {
    if labels != [] {
      var e, t, end := entry(s, labels[0]), step(s, labels[0]).value, Exec(step, s, labels).value;
      var es := Entries(step, entry, t, labels[1..]);
      LineUp(step, inv, hand, entry, t, labels[1..]);
      ColumnsFirst(e, es);
      Link(hand(s), Made(e), Added(e), hand(t), Column(es, Made), Column(es, Added), hand(end));
    }
  }

  /** One more step adds its entry to a column. */
  lemma {:induction false} ColumnLast<S, L>(
    step: (S, L) -> Option<S>, entry: (S, L) -> Entry, s: S, labels: seq<L>, l: L, part: Entry -> seq<int>)
    requires Exec(step, s, labels).Some? && step(Exec(step, s, labels).value, l).Some?
    ensures Column(Entries(step, entry, s, labels + [l]), part)
            == Column(Entries(step, entry, s, labels), part) + part(entry(Exec(step, s, labels).value, l))
    decreases |labels|
  {
    if labels == [] {
      assert [l][1..] == [] && Entries(step, entry, step(s, l).value, []) == [];
      ColumnFirst(entry(s, l), [], part);
      assert labels + [l] == [l];
    } else {
      var t := step(s, labels[0]).value;
      assert (labels + [l])[1..] == labels[1..] + [l];
      ColumnLast(step, entry, t, labels[1..], l, part);
      ColumnFirst(entry(s, labels[0]), Entries(step, entry, t, labels[1..]), part);
      ColumnFirst(entry(s, labels[0]), Entries(step, entry, t, labels[1..] + [l]), part);
    }
  }
}

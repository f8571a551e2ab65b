/** The ring buffer of the warehouse (c/c_lab05_b.c, rust/r_lab05_b.rs) and what each of its
    unprotected updates does to it. `added` and `removed` are history: the items whose index
    bump has happened. The slot write and the index bump are separate operations, so the ring
    passes through states in which slots and indices disagree; `Activity` names them. */
module Ring {
  import opened RingArith

  /** C: 0, an item number, -1. Rust: Sloth::Empty, Sloth::Taken(item), Sloth::Deleted. */
  datatype Slot = Empty | Taken(item: int) | Deleted

  datatype Ring = Ring(slots: seq<Slot>, producerIdx: nat, consumerIdx: nat, added: seq<int>, removed: seq<int>)

  function EmptyRing(n: nat): Ring {
    Ring(seq(n, _ => Empty), 0, 0, [], [])
  }

  /** What the current holder of the lock has half done. */
  datatype Activity =
    | Quiet
    | Storing(item: int)     // slot written, producer index not yet moved
    | Marked                 // slot marked as deleted, consumer index not yet moved
    | Sweeping(from: nat)    // item removed, print_buffer has cleared the slots below `from`

  predicate InBounds(r: Ring) {
    r.producerIdx < |r.slots| && r.consumerIdx < |r.slots|
  }

  function StoreItem(r: Ring, item: int): Ring
    requires InBounds(r)
  {
    r.(slots := r.slots[r.producerIdx := Taken(item)])
  }

  function AdvanceProducer(r: Ring, item: int): Ring
    requires InBounds(r)
  {
    r.(producerIdx := (r.producerIdx + 1) % |r.slots|, added := r.added + [item])
  }

  function MarkDeleted(r: Ring): Ring
    requires InBounds(r)
  {
    r.(slots := r.slots[r.consumerIdx := Deleted])
  }

  function AdvanceConsumer(r: Ring, item: int): Ring
    requires InBounds(r)
  {
    r.(consumerIdx := (r.consumerIdx + 1) % |r.slots|, removed := r.removed + [item])
  }

  /** One iteration of print_buffer: a slot marked as deleted becomes empty. */
  function SweepSlot(r: Ring, i: nat): Ring
    requires i < |r.slots|
  {
    if r.slots[i] == Deleted then r.(slots := r.slots[i := Empty]) else r
  }

  /** The history logs only grow. */
  predicate LogsExtend(r: Ring, q: Ring) {
    r.added <= q.added && r.removed <= q.removed
  }

  function Live(r: Ring): int {
    |r.added| - |r.removed|
  }

  function SlotOf(r: Ring, j: nat): Slot
    requires |r.slots| > 0
  {
    r.slots[Wrap(|r.slots|, j)]
  }

  predicate ItemRange(x: int) {
    1 <= x <= 9
  }

  /** The content of the slot for log position j, for every j of the window of n positions
      that starts at the oldest item not yet removed. */
  ghost function Expected(r: Ring, act: Activity, j: nat): Slot
    requires |r.slots| > 0
  {
    if |r.removed| <= j < |r.added| then
      if j == |r.removed| && act.Marked? then Deleted else Taken(r.added[j])
    else if j == |r.added| && act.Storing? then Taken(act.item)
    else if j == |r.removed| + |r.slots| - 1 && act.Sweeping? && act.from <= Wrap(|r.slots|, j) then Deleted
    else Empty
  }

  ghost predicate SlotsAgree(r: Ring, act: Activity)
    requires |r.slots| > 0
  {
    forall j :: |r.removed| <= j < |r.removed| + |r.slots| ==> SlotOf(r, j) == Expected(r, act, j)
  }

  ghost predicate Counts(r: Ring) {
    && |r.slots| > 0
    && |r.removed| <= |r.added| <= |r.removed| + |r.slots|
    && r.producerIdx == Wrap(|r.slots|, |r.added|)
    && r.consumerIdx == Wrap(|r.slots|, |r.removed|)
    && r.removed == r.added[..|r.removed|]
    && forall k :: 0 <= k < |r.added| ==> ItemRange(r.added[k])
  }

  ghost predicate RingInv(r: Ring, act: Activity) {
    && Counts(r)
    && (act.Storing? ==> Live(r) < |r.slots| && ItemRange(act.item))
    && (act.Marked? ==> Live(r) > 0)
    && (act.Sweeping? ==> Live(r) < |r.slots|)
    && SlotsAgree(r, act)
  }

  lemma EmptyRingInv(n: nat)
    requires n > 0
    ensures RingInv(EmptyRing(n), Quiet)
  {
  }

  /** add_to_buffer, first statement: the slot it writes is empty, never a taken one. */
  lemma StoreKeeps(r: Ring, item: int)
    requires RingInv(r, Quiet) && Live(r) < |r.slots| && ItemRange(item)
    ensures r.slots[r.producerIdx] == Empty
    ensures RingInv(StoreItem(r, item), Storing(item))
  {
    var n, a := |r.slots|, |r.added|;
    assert SlotOf(r, a) == Expected(r, Quiet, a);
    var r' := StoreItem(r, item);
    forall j | |r.removed| <= j < |r.removed| + n
      ensures SlotOf(r', j) == Expected(r', Storing(item), j)
    {
      assert SlotOf(r, j) == Expected(r, Quiet, j);
      if j < a {
        WrapDistinct(n, j, a);
      } else if j > a {
        WrapDistinct(n, a, j);
      }
    }
  }

  /** add_to_buffer, second statement. */
  lemma AdvanceProducerKeeps(r: Ring, item: int)
    requires RingInv(r, Storing(item))
    ensures RingInv(AdvanceProducer(r, item), Quiet)
  {
    WrapNext(|r.slots|, |r.added|);
    var r' := AdvanceProducer(r, item);
    forall j | |r.removed| <= j < |r.removed| + |r.slots|
      ensures SlotOf(r', j) == Expected(r', Quiet, j)
    {
      assert SlotOf(r, j) == Expected(r, Storing(item), j);
    }
  }

  /** remove_from_buffer reads the oldest item. */
  lemma ReadsOldest(r: Ring)
    requires RingInv(r, Quiet) && Live(r) > 0
    ensures r.slots[r.consumerIdx] == Taken(r.added[|r.removed|])
  {
    assert SlotOf(r, |r.removed|) == Expected(r, Quiet, |r.removed|);
  }

  lemma MarkKeeps(r: Ring)
    requires RingInv(r, Quiet) && Live(r) > 0
    ensures RingInv(MarkDeleted(r), Marked)
  {
    var n, c := |r.slots|, |r.removed|;
    var r' := MarkDeleted(r);
    forall j | c <= j < c + n
      ensures SlotOf(r', j) == Expected(r', Marked, j)
    {
      assert SlotOf(r, j) == Expected(r, Quiet, j);
      if j > c {
        WrapDistinct(n, c, j);
      }
    }
  }

  lemma AdvanceConsumerKeeps(r: Ring)
    requires RingInv(r, Marked)
    ensures RingInv(AdvanceConsumer(r, r.added[|r.removed|]), Sweeping(0))
  {
    var n, c := |r.slots|, |r.removed|;
    WrapNext(n, c);
    WrapAround(n, c);
    var r' := AdvanceConsumer(r, r.added[c]);
    forall j | c + 1 <= j < c + 1 + n
      ensures SlotOf(r', j) == Expected(r', Sweeping(0), j)
    {
      if j < c + n {
        assert SlotOf(r, j) == Expected(r, Marked, j);
      } else {
        assert SlotOf(r, c) == Expected(r, Marked, c);
      }
    }
  }

  /** One iteration of print_buffer never touches a live item. */
  lemma SweepKeeps(r: Ring, i: nat)
    requires RingInv(r, Sweeping(i)) && i < |r.slots|
    ensures RingInv(SweepSlot(r, i), Sweeping(i + 1))
  {
    var n, c := |r.slots|, |r.removed|;
    var r' := SweepSlot(r, i);
    forall j | c <= j < c + n
      ensures SlotOf(r', j) == Expected(r', Sweeping(i + 1), j)
    {
      assert SlotOf(r, j) == Expected(r, Sweeping(i), j);
      assert SlotOf(r, c + n - 1) == Expected(r, Sweeping(i), c + n - 1);
      if j < c + n - 1 {
        WrapDistinct(n, j, c + n - 1);
      }
    }
  }

  lemma SweepDone(r: Ring)
    requires RingInv(r, Sweeping(|r.slots|))
    ensures RingInv(r, Quiet)
  {
    forall j | |r.removed| <= j < |r.removed| + |r.slots|
      ensures SlotOf(r, j) == Expected(r, Quiet, j)
    {
      assert SlotOf(r, j) == Expected(r, Sweeping(|r.slots|), j);
    }
  }

  /** Printing a ring in which nothing is marked changes nothing. */
  lemma SweepQuiet(r: Ring, i: nat)
    requires RingInv(r, Quiet) && i < |r.slots|
    ensures SweepSlot(r, i) == r
  {
    var j := WrapCovers(|r.slots|, |r.removed|, i);
    assert SlotOf(r, j) == Expected(r, Quiet, j);
  }

  /** The n slots read in ring order from the consumer index, as far as there are live items. */
  ghost function Window(r: Ring): seq<Slot>
    requires |r.slots| > 0 && 0 <= Live(r)
  {
    seq(Live(r), k requires k >= 0 => SlotOf(r, r.consumerIdx + k))
  }

  /** Slot occupancy, for every slot by its own index: taken exactly inside the live window,
      with the window holding the live items in order. */
  ghost predicate Occupies(r: Ring, slot: nat)
    requires |r.slots| > 0
  {
    exists j :: |r.removed| <= j < |r.added| && Wrap(|r.slots|, j) == slot
  }

  lemma QuietOccupancy(r: Ring, k: nat)
    requires RingInv(r, Quiet) && k < |r.slots|
    ensures r.slots[k].Taken? <==> Occupies(r, k)
    ensures !r.slots[k].Deleted?
  {
    var j := WrapCovers(|r.slots|, |r.removed|, k);
    assert SlotOf(r, j) == Expected(r, Quiet, j);
    if Occupies(r, k) {
      var i :| |r.removed| <= i < |r.added| && Wrap(|r.slots|, i) == k;
      assert SlotOf(r, i) == Expected(r, Quiet, i);
    }
  }

  lemma QuietWindow(r: Ring)
    requires RingInv(r, Quiet)
    ensures |Window(r)| == Live(r)
    ensures forall k :: 0 <= k < Live(r) ==> Window(r)[k] == Taken(r.added[|r.removed| + k])
  {
    forall k | 0 <= k < Live(r)
      ensures Window(r)[k] == Taken(r.added[|r.removed| + k])
    {
      WrapOffset(|r.slots|, |r.removed|, k);
      assert SlotOf(r, |r.removed| + k) == Expected(r, Quiet, |r.removed| + k);
    }
  }

  /** In every state, half-done ones included, at most one slot is marked as deleted. */
  lemma AtMostOneDeleted(r: Ring, act: Activity, k: nat, l: nat)
    requires RingInv(r, act)
    requires k < |r.slots| && l < |r.slots| && r.slots[k].Deleted? && r.slots[l].Deleted?
    ensures k == l
  {
    var j := WrapCovers(|r.slots|, |r.removed|, k);
    var i := WrapCovers(|r.slots|, |r.removed|, l);
    assert SlotOf(r, j) == Expected(r, act, j);
    assert SlotOf(r, i) == Expected(r, act, i);
  }
}

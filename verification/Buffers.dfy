/** The ring buffer in place, as the warehouse programs update it under their lock: the global array
    of c/c_lab05_b.c and struct Buffer of rust/r_lab05_b.rs. Each method is the sequence of ring
    operations that the step machine performs one at a time. */
module Buffers {
  import opened Transitions
  import opened Ring
  import W = Warehouse

  // ----- printing -----

  /** The ring after print_buffer has visited the slots below k. */
  ghost function Swept(r: Ring, k: nat): (q: Ring)
    requires k <= |r.slots|
    ensures |q.slots| == |r.slots|
    ensures forall i :: 0 <= i < |r.slots| ==> q.slots[i] == (if i < k && r.slots[i] == Deleted then Empty else r.slots[i])
  {
    if k == 0 then r else SweepSlot(Swept(r, k - 1), k - 1)
  }

  lemma {:induction false} SweptRest(r: Ring, k: nat)
    requires k <= |r.slots|
    ensures Swept(r, k) == r.(slots := Swept(r, k).slots)
  {
    if k > 0 {
      SweptRest(r, k - 1);
    }
  }

  /** Printing after a removal restores agreement between slots and items. */
  lemma {:induction false} SweptAfterRemoval(r: Ring, k: nat)
    requires RingInv(r, Sweeping(0)) && k <= |r.slots|
    ensures RingInv(Swept(r, k), Sweeping(k))
    ensures k == |r.slots| ==> RingInv(Swept(r, k), Quiet)
  {
    if k > 0 {
      SweptAfterRemoval(r, k - 1);
      SweepKeeps(Swept(r, k - 1), k - 1);
    }
    if k == |r.slots| {
      SweepDone(Swept(r, k));
    }
  }

  /** Printing at any other time changes nothing. */
  lemma {:induction false} SweptAfterAddition(r: Ring, k: nat)
    requires RingInv(r, Quiet) && k <= |r.slots|
    ensures Swept(r, k) == r
  {
    if k > 0 {
      SweptAfterAddition(r, k - 1);
      SweepQuiet(r, k - 1);
    }
  }

  // ----- C -----

  /** C stores 0 for an empty slot and -1 for a deleted one. */
  function Decode(x: int): Slot {
    if x == 0 then Empty else if x == -1 then Deleted else Taken(x)
  }

  /** Decoding loses nothing: reading the slot gives the number back. */
  lemma DecodeKeepsNumbers(x: int)
    ensures W.SlotValue(W.CStyle, Decode(x)) == x
    ensures ItemRange(x) ==> Decode(x) == Taken(x)
  {
  }

  ghost function DecodeAll(xs: seq<int>): seq<Slot> {
    seq(|xs|, i requires 0 <= i < |xs| => Decode(xs[i]))
  }

  class CBuffer {
    const buffer: array<int>
    var producerIdx: nat
    var consumerIdx: nat
    ghost var added: seq<int>
    ghost var removed: seq<int>

    ghost function View(): Ring
      reads this, buffer
    {
      Ring(DecodeAll(buffer[..]), producerIdx, consumerIdx, added, removed)
    }

    constructor (n: nat)
      requires n > 0
      ensures fresh(buffer) && View() == EmptyRing(n) && RingInv(View(), Quiet)
    {
      buffer := new int[n](_ => 0);
      producerIdx, consumerIdx, added, removed := 0, 0, [], [];
      new;
      assert View().slots == EmptyRing(n).slots;
      EmptyRingInv(n);
    }

    /** add_to_buffer. */
    method Add(item: int)
      requires InBounds(View())
      modifies this, buffer
      ensures buffer[..] == old(buffer[..])[old(producerIdx) := item]
      ensures View() == AdvanceProducer(old(View()).(slots := old(View()).slots[old(producerIdx) := Decode(item)]), item)
      ensures ItemRange(item) ==> View() == AdvanceProducer(StoreItem(old(View()), item), item)
      ensures ItemRange(item) && old(RingInv(View(), Quiet) && Live(View()) < |View().slots|) ==> RingInv(View(), Quiet)
    {
      ghost var r := View();
      buffer[producerIdx] := item;
      producerIdx := (producerIdx + 1) % buffer.Length;
      added := added + [item];
      assert View().slots == r.slots[r.producerIdx := Decode(item)];
      if ItemRange(item) && RingInv(r, Quiet) && Live(r) < |r.slots| {
        StoreKeeps(r, item);
        AdvanceProducerKeeps(StoreItem(r, item), item);
      }
    }

    /** remove_from_buffer: the oldest item, when there is one. */
    method Remove() returns (item: int)
      requires InBounds(View())
      modifies this, buffer
      ensures item == old(buffer[consumerIdx]) && buffer[..] == old(buffer[..])[old(consumerIdx) := -1]
      ensures View() == AdvanceConsumer(MarkDeleted(old(View())), item)
      ensures old(RingInv(View(), Quiet) && Live(View()) > 0) ==>
                item == old(added)[|old(removed)|] && RingInv(View(), Sweeping(0))
    {
      ghost var r := View();
      item := buffer[consumerIdx];
      buffer[consumerIdx] := -1;
      consumerIdx := (consumerIdx + 1) % buffer.Length;
      removed := removed + [item];
      assert View().slots == MarkDeleted(r).slots;
      if RingInv(r, Quiet) && Live(r) > 0 {
        ReadsOldest(r);
        MarkKeeps(r);
        AdvanceConsumerKeeps(MarkDeleted(r));
      }
    }

    /** print_buffer: the text of the slots, and every deleted slot is empty afterwards. */
    method Print() returns (text: string)
      modifies buffer
      ensures |text| == buffer.Length + 2 && text[0] == '[' && text[|text| - 1] == ']'
      ensures forall i :: 0 <= i < buffer.Length ==>
        && text[i + 1] == (if old(buffer[i]) == 0 then '0' else if old(buffer[i]) == -1 then '+' else '*')
        && buffer[i] == (if old(buffer[i]) == -1 then 0 else old(buffer[i]))
      ensures View() == Swept(old(View()), buffer.Length)
    {
      ghost var r := View();
      text := "[";
      for i := 0 to buffer.Length
        invariant |text| == i + 1 && text[0] == '['
        invariant forall k :: 0 <= k < i ==>
          text[k + 1] == (if old(buffer[k]) == 0 then '0' else if old(buffer[k]) == -1 then '+' else '*')
        invariant forall k :: 0 <= k < buffer.Length ==> buffer[k] == (if k < i && old(buffer[k]) == -1 then 0 else old(buffer[k]))
      {
        if buffer[i] == 0 {
          text := text + "0";
        } else if buffer[i] == -1 {
          text := text + "+";
          buffer[i] := 0;
        } else {
          text := text + "*";
        }
      }
      text := text + "]";
      assert View().slots == Swept(r, buffer.Length).slots;
      SweptRest(r, buffer.Length);
    }
  }

  // ----- Rust -----

  class RustBuffer {
    const sloths: array<Slot>
    var producerIdx: nat
    var consumerIdx: nat
    ghost var added: seq<int>
    ghost var removed: seq<int>

    ghost function View(): Ring
      reads this, sloths
    {
      Ring(sloths[..], producerIdx, consumerIdx, added, removed)
    }

    /** Buffer::new. */
    constructor (len: nat)
      requires len > 0
      ensures fresh(sloths) && View() == EmptyRing(len) && RingInv(View(), Quiet)
    {
      sloths := new Slot[len](_ => Empty);
      producerIdx, consumerIdx, added, removed := 0, 0, [], [];
      new;
      assert View().slots == EmptyRing(len).slots;
      EmptyRingInv(len);
    }

    /** Buffer::add. */
    method Add(item: int)
      requires InBounds(View())
      modifies this, sloths
      ensures View() == AdvanceProducer(StoreItem(old(View()), item), item)
      ensures ItemRange(item) && old(RingInv(View(), Quiet) && Live(View()) < |View().slots|) ==> RingInv(View(), Quiet)
    {
      ghost var r := View();
      sloths[producerIdx] := Taken(item);
      producerIdx := (producerIdx + 1) % sloths.Length;
      added := added + [item];
      assert View().slots == StoreItem(r, item).slots;
      if ItemRange(item) && RingInv(r, Quiet) && Live(r) < |r.slots| {
        StoreKeeps(r, item);
        AdvanceProducerKeeps(StoreItem(r, item), item);
      }
    }

    /** Buffer::remove, with its Item::Other arm; that arm is dead when an item is there. */
    method Remove() returns (item: int)
      requires InBounds(View())
      modifies this, sloths
      ensures item == (if old(sloths[consumerIdx]).Taken? then old(sloths[consumerIdx]).item else W.OTHER)
      ensures View() == AdvanceConsumer(MarkDeleted(old(View())), item)
      ensures old(RingInv(View(), Quiet) && Live(View()) > 0) ==>
                item == old(added)[|old(removed)|] && RingInv(View(), Sweeping(0))
    {
      ghost var r := View();
      match sloths[consumerIdx] {
        case Taken(x) => item := x;
        case _ => item := W.OTHER;
      }
      sloths[consumerIdx] := Deleted;
      consumerIdx := (consumerIdx + 1) % sloths.Length;
      removed := removed + [item];
      assert View().slots == MarkDeleted(r).slots;
      if RingInv(r, Quiet) && Live(r) > 0 {
        ReadsOldest(r);
        MarkKeeps(r);
        AdvanceConsumerKeeps(MarkDeleted(r));
      }
    }

    /** Buffer's Display, which clears deleted slots while it formats them. */
    method Format() returns (text: string)
      modifies sloths
      ensures |text| == sloths.Length + 2 && text[0] == '[' && text[|text| - 1] == ']'
      ensures forall i :: 0 <= i < sloths.Length ==>
        && text[i + 1] == (match old(sloths[i]) case Empty => '0' case Taken(_) => '*' case Deleted => '+')
        && sloths[i] == (if old(sloths[i]).Deleted? then Empty else old(sloths[i]))
      ensures View() == Swept(old(View()), sloths.Length)
    {
      ghost var r := View();
      text := "[";
      for i := 0 to sloths.Length
        invariant |text| == i + 1 && text[0] == '['
        invariant forall k :: 0 <= k < i ==>
          text[k + 1] == (match old(sloths[k]) case Empty => '0' case Taken(_) => '*' case Deleted => '+')
        invariant forall k :: 0 <= k < sloths.Length ==> sloths[k] == (if k < i && r.slots[k] == Deleted then Empty else r.slots[k])
      {
        match sloths[i] {
          case Empty => text := text + "0";
          case Taken(_) => text := text + "*";
          case Deleted =>
            text := text + "+";
            sloths[i] := Empty;
        }
      }
      text := text + "]";
      assert View().slots == Swept(r, sloths.Length).slots;
      SweptRest(r, sloths.Length);
    }
  }

  // ----- the critical sections of the step machine -----

  function ProducerTurns(i: nat, k: nat): seq<W.Label> {
    seq(k, _ => W.ProducerMoves(i, 0))
  }

  function ConsumerTurns(j: nat, k: nat): seq<W.Label> {
    seq(k, _ => W.ConsumerMoves(j))
  }

  function WithProducer(s: W.State, i: nat, r: Ring, pc: W.ProducerPc): W.State
    requires i < |s.producers|
  {
    s.(ring := r, producers := s.producers[i := s.producers[i].(pc := pc)])
  }

  function WithConsumer(s: W.State, j: nat, r: Ring, pc: W.ConsumerPc, item: int): W.State
    requires j < |s.consumers|
  {
    s.(ring := r, consumers := s.consumers[j := W.Consumer(pc, item)])
  }

  lemma Overwrite<T>(xs: seq<T>, i: nat, x: T, y: T)
    requires i < |xs|
    ensures xs[i := x][i := y] == xs[i := y]
  {
  }

  /** One local step of producer i, on a state written as WithProducer. */
  lemma ProducerTurn(cfg: W.Config, s: W.State, i: nat, r: Ring, pc: W.ProducerPc, r': Ring, pc': W.ProducerPc)
    requires i < |s.producers|
    requires pc.Store? || pc.Advance? || pc.Show?
    requires W.ProducerLocal(cfg, r, s.producers[i].(pc := pc), 0) == Some((r', s.producers[i].(pc := pc')))
    ensures W.Machine(cfg)(WithProducer(s, i, r, pc), W.ProducerMoves(i, 0)) == Some(WithProducer(s, i, r', pc'))
  {
    Overwrite(s.producers, i, s.producers[i].(pc := pc), s.producers[i].(pc := pc'));
  }

  lemma ConsumerTurn(
    cfg: W.Config, s: W.State, j: nat, r: Ring, pc: W.ConsumerPc, item: int, r': Ring, pc': W.ConsumerPc, item': int)
    requires j < |s.consumers|
    requires pc.Take? || pc.Mark? || pc.Retire? || pc.Display? || pc.ConsumeLocked?
    requires W.ConsumerLocal(cfg, r, W.Consumer(pc, item)) == Some((r', W.Consumer(pc', item')))
    ensures W.Machine(cfg)(WithConsumer(s, j, r, pc, item), W.ConsumerMoves(j)) == Some(WithConsumer(s, j, r', pc', item'))
  {
    Overwrite(s.consumers, j, W.Consumer(pc, item), W.Consumer(pc', item'));
  }

  lemma {:induction false} ShowLoop(cfg: W.Config, s: W.State, i: nat, r: Ring, k: nat)
    requires i < |s.producers| && k <= cfg.n == |r.slots|
    ensures Exec(W.Machine(cfg), WithProducer(s, i, r, W.Show(0)), ProducerTurns(i, k))
            == Some(WithProducer(s, i, Swept(r, k), W.Show(k)))
  {
    if k == 0 {
      assert ProducerTurns(i, 0) == [];
    } else {
      ShowLoop(cfg, s, i, r, k - 1);
      assert ProducerTurns(i, k) == ProducerTurns(i, k - 1) + [W.ProducerMoves(i, 0)];
      ExecSnoc(W.Machine(cfg), WithProducer(s, i, r, W.Show(0)), ProducerTurns(i, k - 1), W.ProducerMoves(i, 0));
      ProducerTurn(cfg, s, i, Swept(r, k - 1), W.Show(k - 1), Swept(r, k), W.Show(k));
    }
  }

  /** A run that starts with k known steps of the same label. */
  lemma FirstTwo<S, L>(step: (S, L) -> Option<S>, s: S, s1: S, s2: S, l: L, rest: seq<L>, all: seq<L>)
    requires step(s, l) == Some(s1) && step(s1, l) == Some(s2) && all == [l, l] + rest
    ensures Exec(step, s, all) == Exec(step, s2, rest)
  {
    assert all[1..] == [l] + rest;
    assert ([l] + rest)[1..] == rest;
    assert Exec(step, s1, [l] + rest) == Exec(step, s2, rest);
  }

  lemma FirstThree<S, L>(step: (S, L) -> Option<S>, s: S, s1: S, s2: S, s3: S, l: L, rest: seq<L>, all: seq<L>)
    requires step(s, l) == Some(s1) && step(s1, l) == Some(s2) && step(s2, l) == Some(s3) && all == [l, l, l] + rest
    ensures Exec(step, s, all) == Exec(step, s3, rest)
  {
    assert all[1..] == [l, l] + rest;
    FirstTwo(step, s1, s2, s3, l, rest, [l, l] + rest);
  }

  lemma ProducerAdds(cfg: W.Config, s: W.State, i: nat, r1: Ring, r2: Ring)
    requires i < |s.producers| && s.producers[i].pc == W.Store && InBounds(s.ring)
    requires r1 == StoreItem(s.ring, s.producers[i].item) && r2 == AdvanceProducer(r1, s.producers[i].item)
    ensures W.Machine(cfg)(s, W.ProducerMoves(i, 0)) == Some(WithProducer(s, i, r1, W.Advance))
    ensures W.Machine(cfg)(WithProducer(s, i, r1, W.Advance), W.ProducerMoves(i, 0)) == Some(WithProducer(s, i, r2, W.Show(0)))
  {
    assert s == WithProducer(s, i, s.ring, W.Store);
    ProducerTurn(cfg, s, i, s.ring, W.Store, r1, W.Advance);
    ProducerTurn(cfg, s, i, r1, W.Advance, r2, W.Show(0));
  }

  lemma ConsumerRemoves(cfg: W.Config, s: W.State, j: nat, r1: Ring, r2: Ring, item: int)
    requires j < |s.consumers| && s.consumers[j].pc == W.Take && InBounds(s.ring)
    requires item == W.SlotValue(cfg.style, s.ring.slots[s.ring.consumerIdx])
    requires r1 == MarkDeleted(s.ring) && r2 == AdvanceConsumer(r1, item)
    ensures W.Machine(cfg)(s, W.ConsumerMoves(j)) == Some(WithConsumer(s, j, s.ring, W.Mark, item))
    ensures W.Machine(cfg)(WithConsumer(s, j, s.ring, W.Mark, item), W.ConsumerMoves(j)) == Some(WithConsumer(s, j, r1, W.Retire, item))
    ensures W.Machine(cfg)(WithConsumer(s, j, r1, W.Retire, item), W.ConsumerMoves(j)) == Some(WithConsumer(s, j, r2, W.Display(0), item))
  {
    var before := s.consumers[j].item;
    assert s == WithConsumer(s, j, s.ring, W.Take, before);
    ConsumerTurn(cfg, s, j, s.ring, W.Take, before, s.ring, W.Mark, item);
    ConsumerTurn(cfg, s, j, s.ring, W.Mark, item, r1, W.Retire, item);
    ConsumerTurn(cfg, s, j, r1, W.Retire, item, r2, W.Display(0), item);
  }

  lemma ProducerPrints(cfg: W.Config, s: W.State, i: nat, r: Ring)
    requires i < |s.producers| && |r.slots| == cfg.n
    ensures Exec(W.Machine(cfg), WithProducer(s, i, r, W.Show(0)), ProducerTurns(i, cfg.n + 1))
            == Some(WithProducer(s, i, Swept(r, cfg.n), W.PostLock))
  {
    ShowLoop(cfg, s, i, r, cfg.n);
    ProducerTurn(cfg, s, i, Swept(r, cfg.n), W.Show(cfg.n), Swept(r, cfg.n), W.PostLock);
    ExecSnoc(W.Machine(cfg), WithProducer(s, i, r, W.Show(0)), ProducerTurns(i, cfg.n), W.ProducerMoves(i, 0));
    assert ProducerTurns(i, cfg.n) + [W.ProducerMoves(i, 0)] == ProducerTurns(i, cfg.n + 1);
  }

  /** A producer's section of the step machine, run through, is Add followed by Print. */
  lemma ProducerSectionAddsAndPrints(cfg: W.Config, s: W.State, i: nat)
    requires i < |s.producers| && s.producers[i].pc == W.Store && InBounds(s.ring) && |s.ring.slots| == cfg.n
    ensures
      var r := AdvanceProducer(StoreItem(s.ring, s.producers[i].item), s.producers[i].item);
      Exec(W.Machine(cfg), s, ProducerTurns(i, cfg.n + 3)) == Some(WithProducer(s, i, Swept(r, cfg.n), W.PostLock))
  {
    var item := s.producers[i].item;
    var r1 := StoreItem(s.ring, item);
    var r2 := AdvanceProducer(r1, item);
    ProducerAdds(cfg, s, i, r1, r2);
    FirstTwo(W.Machine(cfg), s, WithProducer(s, i, r1, W.Advance), WithProducer(s, i, r2, W.Show(0)),
             W.ProducerMoves(i, 0), ProducerTurns(i, cfg.n + 1), ProducerTurns(i, cfg.n + 3));
    ProducerPrints(cfg, s, i, r2);
  }

  lemma {:induction false} DisplayLoop(cfg: W.Config, s: W.State, j: nat, r: Ring, item: int, k: nat)
    requires j < |s.consumers| && k <= cfg.n == |r.slots|
    ensures Exec(W.Machine(cfg), WithConsumer(s, j, r, W.Display(0), item), ConsumerTurns(j, k))
            == Some(WithConsumer(s, j, Swept(r, k), W.Display(k), item))
  {
    if k == 0 {
      assert ConsumerTurns(j, 0) == [];
    } else {
      DisplayLoop(cfg, s, j, r, item, k - 1);
      assert ConsumerTurns(j, k) == ConsumerTurns(j, k - 1) + [W.ConsumerMoves(j)];
      ExecSnoc(W.Machine(cfg), WithConsumer(s, j, r, W.Display(0), item), ConsumerTurns(j, k - 1), W.ConsumerMoves(j));
      ConsumerTurn(cfg, s, j, Swept(r, k - 1), W.Display(k - 1), item, Swept(r, k), W.Display(k), item);
    }
  }

  /** Steps of a consumer's section after printing: Rust consumes the item before it releases the lock. */
  function AfterPrint(style: W.Style): nat {
    if style == W.CStyle then 1 else 2
  }

  /** One more turn of the consumer after k, one that leaves the ring alone. */
  lemma NextTurn(cfg: W.Config, s: W.State, j: nat, start: W.State, k: nat, r: Ring, pc: W.ConsumerPc, item: int, pc': W.ConsumerPc)
    requires j < |s.consumers| && (pc.Display? || pc.ConsumeLocked?)
    requires Exec(W.Machine(cfg), start, ConsumerTurns(j, k)) == Some(WithConsumer(s, j, r, pc, item))
    requires W.ConsumerLocal(cfg, r, W.Consumer(pc, item)) == Some((r, W.Consumer(pc', item)))
    ensures Exec(W.Machine(cfg), start, ConsumerTurns(j, k + 1)) == Some(WithConsumer(s, j, r, pc', item))
  {
    ConsumerTurn(cfg, s, j, r, pc, item, r, pc', item);
    ExecSnoc(W.Machine(cfg), start, ConsumerTurns(j, k), W.ConsumerMoves(j));
    assert ConsumerTurns(j, k) + [W.ConsumerMoves(j)] == ConsumerTurns(j, k + 1);
  }

  lemma AfterDisplay(cfg: W.Config, s: W.State, j: nat, start: W.State, k: nat, r: Ring, item: int)
    requires j < |s.consumers|
    requires Exec(W.Machine(cfg), start, ConsumerTurns(j, k)) == Some(WithConsumer(s, j, r, W.Display(cfg.n), item))
    ensures Exec(W.Machine(cfg), start, ConsumerTurns(j, k + AfterPrint(cfg.style))) == Some(WithConsumer(s, j, r, W.ReleaseLock, item))
  {
    if cfg.style == W.CStyle {
      NextTurn(cfg, s, j, start, k, r, W.Display(cfg.n), item, W.ReleaseLock);
    } else {
      NextTurn(cfg, s, j, start, k, r, W.Display(cfg.n), item, W.ConsumeLocked);
      NextTurn(cfg, s, j, start, k + 1, r, W.ConsumeLocked, item, W.ReleaseLock);
    }
  }

  /** A consumer's section, run through to the release of the lock, is Remove followed by Print. */
  lemma ConsumerSectionRemovesAndPrints(cfg: W.Config, s: W.State, j: nat)
    requires j < |s.consumers| && s.consumers[j].pc == W.Take && InBounds(s.ring) && |s.ring.slots| == cfg.n
    ensures
      var item := W.SlotValue(cfg.style, s.ring.slots[s.ring.consumerIdx]);
      var r := AdvanceConsumer(MarkDeleted(s.ring), item);
      Exec(W.Machine(cfg), s, ConsumerTurns(j, 3 + cfg.n + AfterPrint(cfg.style)))
      == Some(WithConsumer(s, j, Swept(r, cfg.n), W.ReleaseLock, item))
  {
    var item := W.SlotValue(cfg.style, s.ring.slots[s.ring.consumerIdx]);
    var r1 := MarkDeleted(s.ring);
    var r2 := AdvanceConsumer(r1, item);
    var rest := cfg.n + AfterPrint(cfg.style);
    ConsumerRemoves(cfg, s, j, r1, r2, item);
    FirstThree(W.Machine(cfg), s, WithConsumer(s, j, s.ring, W.Mark, item), WithConsumer(s, j, r1, W.Retire, item),
               WithConsumer(s, j, r2, W.Display(0), item),
               W.ConsumerMoves(j), ConsumerTurns(j, rest), ConsumerTurns(j, 3 + rest));
    DisplayLoop(cfg, s, j, r2, item, cfg.n);
    AfterDisplay(cfg, s, j, WithConsumer(s, j, r2, W.Display(0), item), cfg.n, Swept(r2, cfg.n), item);
  }
}

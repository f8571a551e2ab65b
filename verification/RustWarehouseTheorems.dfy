/** What the Rust warehouse promises over its hand-written semaphores: what holds in every run however
    many wake-ups are spurious, what holds as long as none is, and that one is enough to break it. */
module RustWarehouseTheorems {
  import opened Transitions
  import opened Ring
  import opened Sums
  import opened RustWarehouse
  import I = RustWarehouseInvariant
  import Fifo
  import W = Warehouse
  import Safety = WarehouseSafety

  // ----- every run -----

  /** With k producers and l consumers woken spuriously so far, the items in the ring exceed its bounds
      by at most that: between -l and n + k. */
  lemma LiveStaysInRange(n: nat, p: nat, c: nat, labels: seq<Label>, s: State)
    requires Reachable(n, p, c, labels, s)
    ensures -(s.strayConsumers as int) <= Live(s.ring) <= n + s.strayProducers
  {
    I.ReachableInv(n, p, c, labels, s);
    I.SleepersBounded(n, p, c, labels, s);
    SumSplit(s.producers, I.Owed, ProducerAsleep, ReservedOf);
    SumSplit(s.consumers, I.Claimed, ConsumerAsleep, ClaimedOf);
  }

  function ReservedOf(p: Producer): nat { Safety.Reserved(AbsProducer(p)) }
  function ClaimedOf(c: Consumer): nat { Safety.Claimed(AbsConsumer(c)) }

  /** The two i32 counts stay within [-p - k, n + l] and [-c - l, n + k], without spurious wake-ups within
      [-p, n] and [-c, n]. */
  lemma CountsStayInRange(n: nat, p: nat, c: nat, labels: seq<Label>, s: State)
    requires Reachable(n, p, c, labels, s)
    ensures -((p + s.strayProducers) as int) <= s.semEmpty <= n + s.strayConsumers
    ensures -((c + s.strayConsumers) as int) <= s.semFull <= n + s.strayProducers
  {
    I.ReachableInv(n, p, c, labels, s);
    I.SleepersBounded(n, p, c, labels, s);
    LiveStaysInRange(n, p, c, labels, s);
    SumAtMost(s.producers, ProducerAsleep, 1);
    SumAtMost(s.consumers, ConsumerAsleep, 1);
  }

  function ProducerIn(p: Producer): nat { if Safety.ProducerInside(p.thread.pc) then 1 else 0 }
  function ConsumerIn(c: Consumer): nat { if Safety.ConsumerInside(c.thread.pc) then 1 else 0 }

  /** The mutex excludes, and every access to the ring is in bounds. */
  lemma MutualExclusion(n: nat, p: nat, c: nat, labels: seq<Label>, s: State)
    requires Reachable(n, p, c, labels, s)
    ensures Sum(s.producers, ProducerIn) + Sum(s.consumers, ConsumerIn) == (if s.holder == W.Nobody then 0 else 1)
    ensures InBounds(s.ring)
  {
    I.ReachableInv(n, p, c, labels, s);
    InsideIsHolder(s);
    match s.holder {
      case Nobody => SumZero(s.producers, ProducerIn); SumZero(s.consumers, ConsumerIn);
      case ByProducer(i) => SumSingle(s.producers, i, ProducerIn); SumZero(s.consumers, ConsumerIn);
      case ByConsumer(j) => SumZero(s.producers, ProducerIn); SumSingle(s.consumers, j, ConsumerIn);
    }
  }

  lemma InsideIsHolder(s: State)
    requires Orderly(s)
    ensures forall i :: 0 <= i < |s.producers| ==> (Safety.ProducerInside(s.producers[i].thread.pc) <==> s.holder == W.ByProducer(i))
    ensures forall j :: 0 <= j < |s.consumers| ==> (Safety.ConsumerInside(s.consumers[j].thread.pc) <==> s.holder == W.ByConsumer(j))
  {
    forall i | 0 <= i < |s.producers|
      ensures Safety.ProducerInside(s.producers[i].thread.pc) <==> s.holder == W.ByProducer(i)
    {
      assert Safety.ProducerInside(Abs(s).producers[i].pc) <==> s.holder == W.ByProducer(i);
    }
    forall j | 0 <= j < |s.consumers|
      ensures Safety.ConsumerInside(s.consumers[j].thread.pc) <==> s.holder == W.ByConsumer(j)
    {
      assert Safety.ConsumerInside(Abs(s).consumers[j].pc) <==> s.holder == W.ByConsumer(j);
    }
  }

  // ----- runs without spurious wake-ups -----

  /** Such a run is a run of the atomic bounded FIFO queue. */
  lemma RefinesFifo(n: nat, p: nat, c: nat, labels: seq<Label>, s: State)
    requires Reachable(n, p, c, labels, s) && Strays(s) == 0
    ensures
      var ops := Image(W.Machine(Cfg(n)), Safety.QueueOps, W.Init(Cfg(n), p, c), CountingRun(n, p, c, labels));
      Exec(Fifo.Step, Fifo.EmptyQueue(n), ops)
      == Some(Fifo.Queue(n, if |s.ring.removed| <= |s.ring.added| then s.ring.added[|s.ring.removed|..] else [],
                         s.ring.added, s.ring.removed))
  {
    RefinesCountingWarehouse(n, p, c, labels, s);
    Safety.RefinesFifo(Cfg(n), p, c, CountingRun(n, p, c, labels), Abs(s));
  }

  /** Accesses are in bounds, `add` writes an empty slot, `remove` reads the oldest item. */
  ghost predicate SafeAccess(s: State) {
    && InBounds(s.ring)
    && (forall i :: 0 <= i < |s.producers| ==> s.producers[i].thread.pc.Store? ==> s.ring.slots[s.ring.producerIdx] == Empty)
    && (forall j :: 0 <= j < |s.consumers| ==> s.consumers[j].thread.pc.Take? ==>
          && |s.ring.removed| < |s.ring.added|
          && s.ring.slots[s.ring.consumerIdx] == Taken(s.ring.added[|s.ring.removed|]))
  }

  /** `remove` never takes the Item::Other arm and `add` never overwrites a taken slot. */
  lemma AccessesAreSafe(n: nat, p: nat, c: nat, labels: seq<Label>, s: State)
    requires Reachable(n, p, c, labels, s) && Strays(s) == 0
    ensures SafeAccess(s)
  {
    RefinesCountingWarehouse(n, p, c, labels, s);
    Safety.AccessesAreSafe(Cfg(n), p, c, CountingRun(n, p, c, labels), Abs(s));
    forall i | 0 <= i < |s.producers| && s.producers[i].thread.pc.Store?
      ensures s.ring.slots[s.ring.producerIdx] == Empty
    {
      assert Abs(s).producers[i] == s.producers[i].thread;
    }
    forall j | 0 <= j < |s.consumers| && s.consumers[j].thread.pc.Take?
      ensures |s.ring.removed| < |s.ring.added| && s.ring.slots[s.ring.consumerIdx] == Taken(s.ring.added[|s.ring.removed|])
    {
      assert Abs(s).consumers[j] == s.consumers[j].thread;
    }
  }

  /** With the mutex free a slot is taken exactly when it lies in the live window, and none is
      marked as deleted. */
  lemma SlotsMatchOccupancy(n: nat, p: nat, c: nat, labels: seq<Label>, s: State)
    requires Reachable(n, p, c, labels, s) && Strays(s) == 0 && s.holder == W.Nobody
    ensures |s.ring.slots| == n
    ensures forall k :: 0 <= k < n ==> !s.ring.slots[k].Deleted? && (s.ring.slots[k].Taken? <==> Occupies(s.ring, k))
  {
    RefinesCountingWarehouse(n, p, c, labels, s);
    Safety.SlotsMatchOccupancy(Cfg(n), p, c, CountingRun(n, p, c, labels), Abs(s));
  }
}

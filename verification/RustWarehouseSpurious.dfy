/** One spurious wake-up breaks the Rust warehouse, for every ring size and every number of threads: a
    consumer takes Item::Other from an empty ring, or a producer overwrites an item in a full one. So
    what the warehouse promises holds exactly of the runs without spurious wake-ups. */
module RustWarehouseSpurious {
  import opened Transitions
  import opened RingArith
  import opened Ring
  import opened RustWarehouse
  import opened RustWarehouseTheorems
  import opened RustWarehouseProgress
  import I = RustWarehouseInvariant
  import S = Semaphore
  import W = Warehouse
  import Safety = WarehouseSafety

  lemma Extend(n: nat, p: nat, c: nat, labels: seq<Label>, s: State, l: Label) returns (longer: seq<Label>, t: State)
    requires Reachable(n, p, c, labels, s) && Step(n, s, l).Some?
    ensures Reachable(n, p, c, longer, t) && Some(t) == Step(n, s, l)
    ensures Strays(t) == Strays(s) + (if GenuineStep(n, s, l).Some? then 0 else 1) && |longer| == |labels| + 1
  {
    longer, t := labels + [l], Step(n, s, l).value;
    ExecSnoc(Machine(n), Init(n, p, c), labels, l);
    StepCountsStrays(n, s, l);
  }

  /** What a FIFO queue of n places keeps. */
  ghost predicate QueueOrder(n: nat, s: State) {
    s.ring.removed <= s.ring.added && Live(s.ring) <= n
  }

  // ----- a consumer of the empty warehouse -----

  lemma ConsumerReachesTake(n: nat, p: nat, c: nat) returns (labels: seq<Label>, s: State)
    requires n > 0 && c > 0
    ensures Reachable(n, p, c, labels, s) && Strays(s) == 1
    ensures s.ring == EmptyRing(n) && |s.consumers| == c && s.consumers[0] == Consumer(W.Consumer(W.Take, 0), S.Awake)
  {
    labels, s := [], Init(n, p, c);
    labels, s := Extend(n, p, c, labels, s, ConsumerMoves(0, 0));
    labels, s := Extend(n, p, c, labels, s, SpuriousConsumer(0));
    labels, s := Extend(n, p, c, labels, s, ConsumerMoves(0, 0));
    labels, s := Extend(n, p, c, labels, s, ConsumerMoves(0, 0));
  }

  lemma ConsumerTakesOther(n: nat, p: nat, c: nat) returns (labels: seq<Label>, s: State)
    requires n > 0 && c > 0
    ensures Reachable(n, p, c, labels, s) && Strays(s) == 1
    ensures s.ring.added == [] && s.ring.removed == [W.OTHER]
  {
    labels, s := ConsumerReachesTake(n, p, c);
    labels, s := Extend(n, p, c, labels, s, ConsumerMoves(0, 0));
    labels, s := Extend(n, p, c, labels, s, ConsumerMoves(0, 0));
    labels, s := Extend(n, p, c, labels, s, ConsumerMoves(0, 0));
  }

  // ----- a producer of the full warehouse -----

  lemma NothingRemoved(n: nat, p: nat, labels: seq<Label>, s: State)
    requires Reachable(n, p, 0, labels, s)
    ensures s.ring.removed == [] && s.consumers == []
  {
    Invariance(Machine(n), (s: State) => s.ring.removed == [] && s.consumers == [], Init(n, p, 0), labels);
  }

  /** Without consumers every run is short, so the producers end up asleep. */
  lemma FillUp(n: nat, p: nat, labels: seq<Label>, s: State) returns (longer: seq<Label>, t: State)
    requires Reachable(n, p, 0, labels, s) && Strays(s) == 0
    ensures Reachable(n, p, 0, longer, t) && Strays(t) == 0 && AllAsleep(t)
    decreases Patience(n, p, 0, 0) - |labels|
  {
    NothingRemoved(n, p, labels, s);
    if |labels| > Patience(n, p, 0, 0) {
      EveryScheduleMakesProgress(n, p, 0, [], Init(n, p, 0), labels, s);
      assert false;
    }
    if AllAsleep(s) {
      longer, t := labels, s;
    } else {
      I.ReachableInv(n, p, 0, labels, s);
      var l := AwakeMoves(n, p, 0, s);
      longer, t := Extend(n, p, 0, labels, s, l);
      longer, t := FillUp(n, p, longer, t);
    }
  }

  /** Then the ring is full, and the next slot to write holds the oldest item. */
  lemma AsleepIsFull(n: nat, p: nat, labels: seq<Label>, s: State)
    requires Reachable(n, p, 0, labels, s) && Strays(s) == 0 && AllAsleep(s) && p > 0
    ensures Live(s.ring) == n && s.holder == W.Nobody && |s.producers| == p
    ensures InBounds(s.ring) && s.ring.slots[s.ring.producerIdx].Taken?
  {
    I.ReachableInv(n, p, 0, labels, s);
    I.SleepersBounded(n, p, 0, labels, s);
    AsleepTokens(n, p, 0, s);
    RefinesCountingWarehouse(n, p, 0, labels, s);
    Safety.ReachableInv(Cfg(n), p, 0, CountingRun(n, p, 0, labels), Abs(s));
    ReadsOldest(s.ring);
    WrapAround(n, |s.ring.removed|);
  }

  lemma ProducerReachesStore(n: nat, p: nat) returns (labels: seq<Label>, s: State)
    requires n > 0 && p > 0
    ensures Reachable(n, p, 0, labels, s) && Strays(s) == 1 && Live(s.ring) == n
    ensures |s.producers| == p && s.producers[0].nap == S.Awake && s.producers[0].thread.pc == W.Store
    ensures InBounds(s.ring) && s.ring.slots[s.ring.producerIdx].Taken?
  {
    labels, s := FillUp(n, p, [], Init(n, p, 0));
    AsleepIsFull(n, p, labels, s);
    labels, s := Extend(n, p, 0, labels, s, SpuriousProducer(0));
    labels, s := Extend(n, p, 0, labels, s, ProducerMoves(0, 0, 0));
    labels, s := Extend(n, p, 0, labels, s, ProducerMoves(0, 0, 0));
    labels, s := Extend(n, p, 0, labels, s, ProducerMoves(0, 0, 0));
  }

  lemma ProducerOverfills(n: nat, p: nat) returns (labels: seq<Label>, s: State)
    requires n > 0 && p > 0
    ensures Reachable(n, p, 0, labels, s) && Strays(s) == 1 && Live(s.ring) == n + 1
  {
    labels, s := ProducerReachesStore(n, p);
    labels, s := Extend(n, p, 0, labels, s, ProducerMoves(0, 0, 0));
    labels, s := Extend(n, p, 0, labels, s, ProducerMoves(0, 0, 0));
  }

  // ----- the exact conditions -----

  lemma NobodyMoves(n: nat, labels: seq<Label>, s: State)
    requires Reachable(n, 0, 0, labels, s)
    ensures labels == []
  {
  }

  /** In every run with at most k spurious wake-ups all accesses are safe. */
  ghost predicate AlwaysSafe(n: nat, p: nat, c: nat, k: nat) {
    forall labels :: Exec(Machine(n), Init(n, p, c), labels).Some? ==>
      var s := Exec(Machine(n), Init(n, p, c), labels).value;
      Strays(s) <= k ==> SafeAccess(s)
  }

  /** In every run with at most k spurious wake-ups the ring is a bounded FIFO queue. */
  ghost predicate AlwaysQueue(n: nat, p: nat, c: nat, k: nat) {
    forall labels :: Exec(Machine(n), Init(n, p, c), labels).Some? ==>
      var s := Exec(Machine(n), Init(n, p, c), labels).value;
      Strays(s) <= k ==> QueueOrder(n, s)
  }

  lemma StaysSafe(n: nat, p: nat, c: nat, k: nat, labels: seq<Label>, s: State)
    requires Reachable(n, p, c, labels, s) && Strays(s) <= k && (k == 0 || p + c == 0)
    ensures SafeAccess(s) && QueueOrder(n, s)
  {
    if k > 0 {
      NobodyMoves(n, labels, s);
    }
    AccessesAreSafe(n, p, c, labels, s);
    RefinesCountingWarehouse(n, p, c, labels, s);
    Safety.RingFollowsLog(Cfg(n), p, c, CountingRun(n, p, c, labels), Abs(s));
  }

  lemma UnsafeRun(n: nat, p: nat, c: nat) returns (labels: seq<Label>, s: State)
    requires n > 0 && p + c > 0
    ensures Reachable(n, p, c, labels, s) && Strays(s) == 1 && !SafeAccess(s)
  {
    if c > 0 {
      labels, s := ConsumerReachesTake(n, p, c);
      assert s.consumers[0].thread.pc.Take?;
    } else {
      labels, s := ProducerReachesStore(n, p);
      assert s.producers[0].thread.pc.Store?;
    }
  }

  lemma DisorderlyRun(n: nat, p: nat, c: nat) returns (labels: seq<Label>, s: State)
    requires n > 0 && p + c > 0
    ensures Reachable(n, p, c, labels, s) && Strays(s) == 1 && !QueueOrder(n, s)
  {
    if c > 0 {
      labels, s := ConsumerTakesOther(n, p, c);
    } else {
      labels, s := ProducerOverfills(n, p);
    }
  }

  /** `remove` never takes Item::Other and `add` never overwrites an item in all runs with at most k
      spurious wake-ups if and only if k is 0 or there is no thread at all. */
  lemma WhenAlwaysSafe(n: nat, p: nat, c: nat, k: nat)
    requires n > 0
    ensures AlwaysSafe(n, p, c, k) <==> k == 0 || p + c == 0
  {
    if k > 0 && p + c > 0 {
      var labels, s := UnsafeRun(n, p, c);
      assert Exec(Machine(n), Init(n, p, c), labels).Some?;
    } else {
      forall labels | Exec(Machine(n), Init(n, p, c), labels).Some? && Strays(Exec(Machine(n), Init(n, p, c), labels).value) <= k
        ensures SafeAccess(Exec(Machine(n), Init(n, p, c), labels).value)
      {
        StaysSafe(n, p, c, k, labels, Exec(Machine(n), Init(n, p, c), labels).value);
      }
    }
  }

  /** And the same condition decides whether the ring is a bounded FIFO queue. */
  lemma WhenAlwaysQueue(n: nat, p: nat, c: nat, k: nat)
    requires n > 0
    ensures AlwaysQueue(n, p, c, k) <==> k == 0 || p + c == 0
  {
    if k > 0 && p + c > 0 {
      var labels, s := DisorderlyRun(n, p, c);
      assert Exec(Machine(n), Init(n, p, c), labels).Some?;
    } else {
      forall labels | Exec(Machine(n), Init(n, p, c), labels).Some? && Strays(Exec(Machine(n), Init(n, p, c), labels).value) <= k
        ensures QueueOrder(n, Exec(Machine(n), Init(n, p, c), labels).value)
      {
        StaysSafe(n, p, c, k, labels, Exec(Machine(n), Init(n, p, c), labels).value);
      }
    }
  }
}

/** Whole runs of the statement-level warehouse: they are runs of `RustWarehouse`, so what is proved there holds
    down to the statements of the semaphore; and no such run deadlocks. */
module FineWarehouseTheorems {
  import opened Transitions
  import opened FineSemaphore
  import opened FineWarehouse
  import Steps = FineWarehouseSteps
  import R = RustWarehouse
  import W = Warehouse
  import Fifo
  import Safety = WarehouseSafety
  import Theorems = RustWarehouseTheorems
  import Progress = RustWarehouseProgress
  import I = RustWarehouseInvariant

  lemma ExecOne(n: nat, r: R.State, l: R.Label)
    ensures Exec(R.Machine(n), r, [l]) == R.Step(n, r, l)
  {
    assert [l][1..] == [];
  }

  ghost predicate Reachable(n: nat, p: nat, c: nat, labels: seq<R.Label>, s: State) {
    n > 0 && Exec(Machine(n), Init(n, p, c), labels) == Some(s)
  }

  /** The run of the coarser machine that a run maps to. */
  function SectionRun(n: nat, p: nat, c: nat, labels: seq<R.Label>): seq<R.Label> {
    Image(Machine(n), SectionsOf, Init(n, p, c), labels)
  }

  lemma InitRefines(n: nat, p: nat, c: nat)
    ensures Inv(Init(n, p, c)) && Abs(Init(n, p, c)) == R.Init(n, p, c)
  {
    assert View(Init(n, p, c)).producers == R.Init(n, p, c).producers;
    assert View(Init(n, p, c)).consumers == R.Init(n, p, c).consumers;
  }

  lemma MachineSimulates(n: nat)
    ensures Simulates(Machine(n), R.Machine(n), Inv, Abs, SectionsOf)
  {
    forall s, l | Inv(s) && Machine(n)(s, l).Some?
      ensures Inv(Machine(n)(s, l).value)
      ensures Exec(R.Machine(n), Abs(s), SectionsOf(s, l)) == Some(Abs(Machine(n)(s, l).value))
    {
      Steps.StepRefinesSections(n, s, l);
      ExecOne(n, Abs(s), l);
    }
  }

  /** Every statement-level run of the warehouse, spurious wake-ups included, is a run of the machine in
      which each semaphore call takes effect at once. */
  lemma RefinesRustWarehouse(n: nat, p: nat, c: nat, labels: seq<R.Label>, s: State)
    requires Reachable(n, p, c, labels, s)
    ensures Inv(s) && R.Reachable(n, p, c, SectionRun(n, p, c, labels), Abs(s))
  {
    InitRefines(n, p, c);
    MachineSimulates(n);
    Simulation(Machine(n), R.Machine(n), Inv, Abs, SectionsOf, Init(n, p, c), labels);
  }

  /** As long as no wake-up is spurious, a statement-level run is a run of the atomic bounded queue. */
  lemma RefinesFifo(n: nat, p: nat, c: nat, labels: seq<R.Label>, s: State)
    requires Reachable(n, p, c, labels, s) && s.empty.spurious + s.full.spurious == 0
    ensures
      var run := R.CountingRun(n, p, c, SectionRun(n, p, c, labels));
      var ops := Image(W.Machine(R.Cfg(n)), Safety.QueueOps, W.Init(R.Cfg(n), p, c), run);
      Exec(Fifo.Step, Fifo.EmptyQueue(n), ops)
      == Some(Fifo.Queue(n, if |s.ring.removed| <= |s.ring.added| then s.ring.added[|s.ring.removed|..] else [],
                         s.ring.added, s.ring.removed))
  {
    RefinesRustWarehouse(n, p, c, labels, s);
    Theorems.RefinesFifo(n, p, c, SectionRun(n, p, c, labels), Abs(s));
  }

  // ----- no deadlock -----

  predicate Genuine(l: R.Label) {
    l.ProducerMoves? || l.ConsumerMoves?
  }

  /** The sleeper that a thread about to notify may pick. */
  lemma SomeSleeper(m: Fine, waiters: nat) returns (wake: nat)
    requires Roles(m, waiters)
    ensures AnySleeping(m.threads) ==> On(m, wake, Sleeping)
  {
    wake := 0;
    if AnySleeping(m.threads) {
      wake :| wake < |m.threads| && m.threads[wake] == Sleeping;
    }
  }

  /** Whoever is inside a semaphore's mutex can move. */
  lemma EmptyHolderMoves(n: nat, s: State) returns (l: R.Label)
    requires Inv(s) && s.empty.mutex.Some?
    ensures Genuine(l) && Step(n, s, l).Some?
    ensures HolderPc(s.empty) == Raised ==> l.ConsumerMoves? && s.empty.mutex.value == |s.producers| + l.j
  {
    var k := s.empty.mutex.value;
    if k < |s.producers| {
      assert ProducerPlaced(s, k);
      l := R.ProducerMoves(k, 0, 0);
    } else {
      var j := k - |s.producers|;
      assert ConsumerPlaced(s, j);
      var wake := SomeSleeper(s.empty, |s.producers|);
      l := R.ConsumerMoves(j, wake);
    }
  }

  lemma FullHolderMoves(n: nat, s: State) returns (l: R.Label)
    requires Inv(s) && s.full.mutex.Some?
    ensures Genuine(l) && Step(n, s, l).Some?
    ensures HolderPc(s.full) == Raised ==> l.ProducerMoves? && s.full.mutex.value == |s.consumers| + l.i
  {
    var k := s.full.mutex.value;
    if k < |s.consumers| {
      assert ConsumerPlaced(s, k);
      l := R.ConsumerMoves(k, 0);
    } else {
      var i := k - |s.consumers|;
      assert ProducerPlaced(s, i);
      var wake := SomeSleeper(s.full, |s.consumers|);
      l := R.ProducerMoves(i, 0, wake);
    }
  }

  /** With both mutexes free, whoever can move in the coarser machine can move here. */
  lemma FreeProducerMoves(n: nat, s: State, i: nat, random: nat, wake: nat)
    requires Inv(s) && s.empty.mutex == None && s.full.mutex == None
    requires R.GenuineStep(n, View(s), R.ProducerMoves(i, random, wake)).Some?
    ensures Step(n, s, R.ProducerMoves(i, random, wake)).Some?
  {
    assert ProducerPlaced(s, i);
    assert View(s).producers[i] == ProducerAt(s, i);
  }

  lemma FreeConsumerMoves(n: nat, s: State, j: nat, wake: nat)
    requires Inv(s) && s.empty.mutex == None && s.full.mutex == None
    requires R.GenuineStep(n, View(s), R.ConsumerMoves(j, wake)).Some?
    ensures Step(n, s, R.ConsumerMoves(j, wake)).Some?
  {
    assert ConsumerPlaced(s, j);
    assert View(s).consumers[j] == ConsumerAt(s, j);
  }

  /** In every reachable state some thread can execute its next statement, however many wake-ups were
      spurious and without waiting for another one. */
  lemma NeverStuck(n: nat, p: nat, c: nat, labels: seq<R.Label>, s: State) returns (l: R.Label)
    requires Reachable(n, p, c, labels, s) && p > 0 && c > 0
    ensures Genuine(l) && Step(n, s, l).Some?
  {
    RefinesRustWarehouse(n, p, c, labels, s);
    if s.empty.mutex.Some? {
      l := EmptyHolderMoves(n, s);
    } else if s.full.mutex.Some? {
      l := FullHolderMoves(n, s);
    } else {
      l := Progress.NeverStuck(n, p, c, SectionRun(n, p, c, labels), Abs(s));
      match l {
        case ProducerMoves(i, random, wake) => FreeProducerMoves(n, s, i, random, wake);
        case ConsumerMoves(j, wake) => FreeConsumerMoves(n, s, j, wake);
      }
    }
  }

  /** A statement of a wait can be executed unless the thread sleeps or wants a mutex that is taken. */
  lemma WhenWaiting(m: Fine, t: nat)
    requires t < |m.threads| && MayWait(m.threads[t])
    ensures Waiting(m, t).Some? <==>
      m.threads[t] != Sleeping && (m.threads[t] == EnterWait || m.threads[t] == Woken ==> m.mutex == None)
  {
  }

  lemma WhenPosting(m: Fine, t: nat, wake: nat)
    requires t < |m.threads| && MayPost(m.threads[t])
    ensures Posting(m, t, wake).Some? <==>
      && (m.threads[t] == EnterPost ==> m.mutex == None)
      && (m.threads[t] == Raised && m.value <= 0 && AnySleeping(m.threads) ==> On(m, wake, Sleeping))
  {
  }

  /** The ring and the loop counters are in bounds. */
  ghost predicate Fits(n: nat, s: State) {
    && n > 0 && |s.ring.slots| == n && s.ring.producerIdx < n && s.ring.consumerIdx < n
  }

  lemma ReachableFits(n: nat, p: nat, c: nat, labels: seq<R.Label>, s: State)
    requires Reachable(n, p, c, labels, s)
    ensures Inv(s) && Fits(n, s) && |s.producers| == p && |s.consumers| == c
  {
    RefinesRustWarehouse(n, p, c, labels, s);
    I.ReachableInv(n, p, c, SectionRun(n, p, c, labels), Abs(s));
  }

  ghost predicate ProducerFree(s: State, i: nat, wake: nat)
    requires Sized(s) && i < |s.producers|
  {
    && s.empty.threads[i] != Sleeping
    && (s.empty.threads[i] == EnterWait || s.empty.threads[i] == Woken ==> s.empty.mutex == None)
    && (s.full.threads[|s.consumers| + i] == EnterPost ==> s.full.mutex == None)
    && (s.producers[i].pc == W.WaitLock ==> s.holder == W.Nobody)
    && (s.full.threads[|s.consumers| + i] == Raised && s.full.value <= 0 && AnySleeping(s.full.threads) ==>
          On(s.full, wake, Sleeping))
  }

  /** At a semaphore a thread can go on when its call can. */
  lemma FreeInWait(n: nat, s: State, i: nat, random: nat, wake: nat)
    requires Sized(s) && i < |s.producers| && s.producers[i].pc == W.WaitEmpty
    requires ProducerPlaced(s, i) && MayWait(s.empty.threads[i])
    ensures ProducerStep(n, s, i, random, wake).Some? <==> ProducerFree(s, i, wake)
  {
    WhenWaiting(s.empty, i);
  }

  lemma FreeInPost(n: nat, s: State, i: nat, random: nat, wake: nat)
    requires Sized(s) && i < |s.producers| && s.producers[i].pc == W.PostFull
    requires ProducerPlaced(s, i) && MayPost(s.full.threads[|s.consumers| + i])
    ensures ProducerStep(n, s, i, random, wake).Some? <==> ProducerFree(s, i, wake)
  {
    WhenPosting(s.full, |s.consumers| + i, wake);
  }

  lemma FreeOutsideCalls(n: nat, s: State, i: nat, random: nat, wake: nat)
    requires Inv(s) && Fits(n, s) && i < |s.producers| && s.producers[i].pc != W.WaitEmpty && s.producers[i].pc != W.PostFull
    ensures ProducerStep(n, s, i, random, wake).Some? <==> ProducerFree(s, i, wake)
  {
    assert ProducerPlaced(s, i);
  }

  lemma FreeProducer(n: nat, s: State, i: nat, random: nat, wake: nat)
    requires Inv(s) && Fits(n, s) && i < |s.producers|
    ensures ProducerStep(n, s, i, random, wake).Some? <==> ProducerFree(s, i, wake)
  {
    assert ProducerPlaced(s, i);
    match s.producers[i].pc {
      case WaitEmpty => FreeInWait(n, s, i, random, wake);
      case PostFull => FreeInPost(n, s, i, random, wake);
      case _ => FreeOutsideCalls(n, s, i, random, wake);
    }
  }

  ghost predicate ConsumerFree(s: State, j: nat, wake: nat)
    requires Sized(s) && j < |s.consumers|
  {
    && s.full.threads[j] != Sleeping
    && (s.full.threads[j] == EnterWait || s.full.threads[j] == Woken ==> s.full.mutex == None)
    && (s.empty.threads[|s.producers| + j] == EnterPost ==> s.empty.mutex == None)
    && (s.consumers[j].pc == W.AwaitLock ==> s.holder == W.Nobody)
    && (s.empty.threads[|s.producers| + j] == Raised && s.empty.value <= 0 && AnySleeping(s.empty.threads) ==>
          On(s.empty, wake, Sleeping))
  }

  lemma FreeConsumerInWait(n: nat, s: State, j: nat, wake: nat)
    requires Sized(s) && j < |s.consumers| && s.consumers[j].pc == W.WaitFull
    requires ConsumerPlaced(s, j) && MayWait(s.full.threads[j])
    ensures ConsumerStep(n, s, j, wake).Some? <==> ConsumerFree(s, j, wake)
  {
    WhenWaiting(s.full, j);
  }

  lemma FreeConsumerInPost(n: nat, s: State, j: nat, wake: nat)
    requires Sized(s) && j < |s.consumers| && s.consumers[j].pc == W.PostEmpty
    requires ConsumerPlaced(s, j) && MayPost(s.empty.threads[|s.producers| + j])
    ensures ConsumerStep(n, s, j, wake).Some? <==> ConsumerFree(s, j, wake)
  {
    WhenPosting(s.empty, |s.producers| + j, wake);
  }

  lemma FreeConsumerOutsideCalls(n: nat, s: State, j: nat, wake: nat)
    requires Inv(s) && Fits(n, s) && j < |s.consumers| && s.consumers[j].pc != W.WaitFull && s.consumers[j].pc != W.PostEmpty
    ensures ConsumerStep(n, s, j, wake).Some? <==> ConsumerFree(s, j, wake)
  {
    assert ConsumerPlaced(s, j);
  }

  lemma FreeConsumer(n: nat, s: State, j: nat, wake: nat)
    requires Inv(s) && Fits(n, s) && j < |s.consumers|
    ensures ConsumerStep(n, s, j, wake).Some? <==> ConsumerFree(s, j, wake)
  {
    assert ConsumerPlaced(s, j);
    match s.consumers[j].pc {
      case WaitFull => FreeConsumerInWait(n, s, j, wake);
      case PostEmpty => FreeConsumerInPost(n, s, j, wake);
      case _ => FreeConsumerOutsideCalls(n, s, j, wake);
    }
  }

  /** A producer's next statement is held up only while it sleeps and while another thread has the mutex it
      wants: of a semaphore, to enter or to leave its wait, or of the ring. When it notifies, any
      sleeping consumer may be the one, and no other. */
  lemma WhenProducerMoves(n: nat, p: nat, c: nat, labels: seq<R.Label>, s: State, i: nat, random: nat, wake: nat)
    requires Reachable(n, p, c, labels, s)
    ensures Sized(s) && |s.producers| == p && |s.consumers| == c
    ensures Step(n, s, R.ProducerMoves(i, random, wake)).Some? <==> i < p && ProducerFree(s, i, wake)
    ensures Step(n, s, R.SpuriousProducer(i)).Some? <==> i < p && s.empty.threads[i] == Sleeping
  {
    ReachableFits(n, p, c, labels, s);
    if i < p {
      FreeProducer(n, s, i, random, wake);
    }
  }

  lemma WhenConsumerMoves(n: nat, p: nat, c: nat, labels: seq<R.Label>, s: State, j: nat, wake: nat)
    requires Reachable(n, p, c, labels, s)
    ensures Sized(s) && |s.producers| == p && |s.consumers| == c
    ensures Step(n, s, R.ConsumerMoves(j, wake)).Some? <==> j < c && ConsumerFree(s, j, wake)
    ensures Step(n, s, R.SpuriousConsumer(j)).Some? <==> j < c && s.full.threads[j] == Sleeping
  {
    ReachableFits(n, p, c, labels, s);
    if j < c {
      FreeConsumer(n, s, j, wake);
    }
  }

  // ----- the two counts -----

  lemma Extend(n: nat, p: nat, c: nat, labels: seq<R.Label>, s: State, l: R.Label) returns (longer: seq<R.Label>, t: State)
    requires Reachable(n, p, c, labels, s) && Step(n, s, l).Some?
    ensures Reachable(n, p, c, longer, t) && Some(t) == Step(n, s, l)
  {
    longer, t := labels + [l], Step(n, s, l).value;
    ExecSnoc(Machine(n), Init(n, p, c), labels, l);
  }

  lemma RaisedEmptyPosts(s: State, j: nat, wake: nat, t: State)
    requires Steps.ConsumerPosted(s, j, wake, t) && HolderPc(s.empty) == Raised && s.empty.mutex == Some(|s.producers| + j)
    ensures CountOf(t.empty) == s.empty.value && t.empty.spurious == s.empty.spurious && t.full.spurious == s.full.spurious
  {
  }

  lemma RaisedFullPosts(s: State, i: nat, wake: nat, t: State)
    requires Steps.ProducerPosted(s, i, wake, t) && HolderPc(s.full) == Raised && s.full.mutex == Some(|s.consumers| + i)
    ensures CountOf(t.full) == s.full.value && t.empty.spurious == s.empty.spurious && t.full.spurious == s.full.spurious
  {
  }

  lemma RaisedEmptyStep(n: nat, s: State, l: R.Label, t: State)
    requires Inv(s) && l.ConsumerMoves? && Step(n, s, l) == Some(t)
    requires HolderPc(s.empty) == Raised && s.empty.mutex == Some(|s.producers| + l.j)
    ensures CountOf(t.empty) == s.empty.value && t.empty.spurious == s.empty.spurious && t.full.spurious == s.full.spurious
  {
    assert ConsumerPlaced(s, l.j);
    Steps.ConsumerPostsShape(n, s, l.j, l.wake);
    RaisedEmptyPosts(s, l.j, l.wake, t);
  }

  lemma RaisedFullStep(n: nat, s: State, l: R.Label, t: State)
    requires Inv(s) && l.ProducerMoves? && Step(n, s, l) == Some(t)
    requires HolderPc(s.full) == Raised && s.full.mutex == Some(|s.consumers| + l.i)
    ensures CountOf(t.full) == s.full.value && t.empty.spurious == s.empty.spurious && t.full.spurious == s.full.spurious
  {
    assert ProducerPlaced(s, l.i);
    Steps.ProducerPostsShape(n, s, l.i, l.random, l.wake);
    RaisedFullPosts(s, l.i, l.wake, t);
  }

  /** A count that has been raised is the count of the coarser machine one step later. */
  lemma RaisedEmpty(n: nat, p: nat, c: nat, labels: seq<R.Label>, s: State) returns (longer: seq<R.Label>, t: State)
    requires Reachable(n, p, c, labels, s) && Inv(s) && HolderPc(s.empty) == Raised
    ensures Reachable(n, p, c, longer, t) && CountOf(t.empty) == s.empty.value
    ensures t.empty.spurious == s.empty.spurious && t.full.spurious == s.full.spurious
  {
    var l := EmptyHolderMoves(n, s);
    longer, t := Extend(n, p, c, labels, s, l);
    RaisedEmptyStep(n, s, l, t);
  }

  lemma RaisedFull(n: nat, p: nat, c: nat, labels: seq<R.Label>, s: State) returns (longer: seq<R.Label>, t: State)
    requires Reachable(n, p, c, labels, s) && Inv(s) && HolderPc(s.full) == Raised
    ensures Reachable(n, p, c, longer, t) && CountOf(t.full) == s.full.value
    ensures t.empty.spurious == s.empty.spurious && t.full.spurious == s.full.spurious
  {
    var l := FullHolderMoves(n, s);
    longer, t := Extend(n, p, c, labels, s, l);
    RaisedFullStep(n, s, l, t);
  }

  lemma CountsInRange(n: nat, p: nat, c: nat, labels: seq<R.Label>, s: State)
    requires Reachable(n, p, c, labels, s)
    ensures -((p + s.empty.spurious) as int) <= CountOf(s.empty) <= n + s.full.spurious
    ensures -((c + s.full.spurious) as int) <= CountOf(s.full) <= n + s.empty.spurious
  {
    RefinesRustWarehouse(n, p, c, labels, s);
    Theorems.CountsStayInRange(n, p, c, SectionRun(n, p, c, labels), Abs(s));
  }

  /** After every single statement the two i32 counts are within [-p - k, n + l] and [-c - l, n + k], with k
      producers and l consumers woken spuriously so far. */
  lemma CountsStayInRange(n: nat, p: nat, c: nat, labels: seq<R.Label>, s: State)
    requires Reachable(n, p, c, labels, s)
    ensures -((p + s.empty.spurious) as int) <= s.empty.value <= n + s.full.spurious
    ensures -((c + s.full.spurious) as int) <= s.full.value <= n + s.empty.spurious
  {
    RefinesRustWarehouse(n, p, c, labels, s);
    CountsInRange(n, p, c, labels, s);
    if HolderPc(s.empty) == Raised {
      var longer, t := RaisedEmpty(n, p, c, labels, s);
      CountsInRange(n, p, c, longer, t);
    }
    if HolderPc(s.full) == Raised {
      var longer, t := RaisedFull(n, p, c, labels, s);
      CountsInRange(n, p, c, longer, t);
    }
  }
}

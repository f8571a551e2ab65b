/** The Rust warehouse never deadlocks and always makes progress, however many wake-ups are spurious. */
module RustWarehouseProgress {
  import opened Transitions
  import opened Ring
  import opened Sums
  import opened RustWarehouse
  import opened RustWarehouseTheorems
  import I = RustWarehouseInvariant
  import S = Semaphore
  import W = Warehouse
  import Progress = WarehouseProgress

  // ----- no deadlock -----

  lemma PostingProducerMoves(n: nat, s: State, i: nat) returns (l: Label)
    requires ProducerPosts(s, i)
    ensures GenuineStep(n, s, l).Some?
  {
    if S.Notifies(s.semFull) && ConsumerSleeps(s) {
      var w :| 0 <= w < |s.consumers| && s.consumers[w].nap == S.Asleep;
      l := ProducerMoves(i, 0, w);
    } else {
      l := ProducerMoves(i, 0, 0);
    }
  }

  lemma PostingConsumerMoves(n: nat, s: State, j: nat) returns (l: Label)
    requires ConsumerPosts(s, j)
    ensures GenuineStep(n, s, l).Some?
  {
    if S.Notifies(s.semEmpty) && ProducerSleeps(s) {
      var w :| 0 <= w < |s.producers| && s.producers[w].nap == S.Asleep;
      l := ConsumerMoves(j, w);
    } else {
      l := ConsumerMoves(j, 0);
    }
  }

  /** A producer that holds the mutex, or does not sleep while nobody holds it, can move. */
  lemma ProducerCanMove(n: nat, p: nat, c: nat, s: State, i: nat) returns (l: Label)
    requires I.Inv(n, p, c, s) && i < |s.producers|
    requires s.holder == W.ByProducer(i) || (s.holder == W.Nobody && s.producers[i].nap != S.Asleep)
    ensures GenuineStep(n, s, l).Some?
  {
    InsideIsHolder(s);
    if ProducerPosts(s, i) {
      l := PostingProducerMoves(n, s, i);
    } else {
      l := ProducerMoves(i, 0, 0);
    }
  }

  lemma ConsumerCanMove(n: nat, p: nat, c: nat, s: State, j: nat) returns (l: Label)
    requires I.Inv(n, p, c, s) && j < |s.consumers|
    requires s.holder == W.ByConsumer(j) || (s.holder == W.Nobody && s.consumers[j].nap != S.Asleep)
    ensures GenuineStep(n, s, l).Some?
  {
    InsideIsHolder(s);
    if ConsumerPosts(s, j) {
      l := PostingConsumerMoves(n, s, j);
    } else {
      l := ConsumerMoves(j, 0);
    }
  }

  ghost predicate AllAsleep(s: State) {
    && (forall i :: 0 <= i < |s.producers| ==> s.producers[i].nap == S.Asleep)
    && (forall j :: 0 <= j < |s.consumers| ==> s.consumers[j].nap == S.Asleep)
  }

  /** As long as one thread does not sleep, some thread can move. */
  lemma AwakeMoves(n: nat, p: nat, c: nat, s: State) returns (l: Label)
    requires I.Inv(n, p, c, s) && !AllAsleep(s)
    ensures GenuineStep(n, s, l).Some?
  {
    match s.holder {
      case ByProducer(i) => l := ProducerCanMove(n, p, c, s, i);
      case ByConsumer(j) => l := ConsumerCanMove(n, p, c, s, j);
      case Nobody =>
        if i :| 0 <= i < |s.producers| && s.producers[i].nap != S.Asleep {
          l := ProducerCanMove(n, p, c, s, i);
        } else {
          var j :| 0 <= j < |s.consumers| && s.consumers[j].nap != S.Asleep;
          l := ConsumerCanMove(n, p, c, s, j);
        }
    }
  }

  /** With everybody asleep the ring holds what the counts owe. */
  lemma AsleepTokens(n: nat, p: nat, c: nat, s: State)
    requires I.Inv(n, p, c, s) && AllAsleep(s)
    ensures s.holder == W.Nobody
    ensures Sum(s.producers, ProducerAsleep) == p && Sum(s.consumers, ConsumerAsleep) == c
    ensures n == s.semEmpty + p + Live(s.ring) && Live(s.ring) == s.semFull + c
  {
    InsideIsHolder(s);
    SumConstant(s.producers, ProducerAsleep);
    SumConstant(s.producers, I.Owed);
    SumConstant(s.consumers, ConsumerAsleep);
    SumConstant(s.consumers, I.Claimed);
    SumZero(s.producers, I.Stored);
    SumZero(s.consumers, I.Freed);
  }

  /** In every reachable state some thread can move, however many wake-ups were spurious and without
      waiting for another one. */
  lemma NeverStuck(n: nat, p: nat, c: nat, labels: seq<Label>, s: State) returns (l: Label)
    requires Reachable(n, p, c, labels, s) && p > 0 && c > 0
    ensures GenuineStep(n, s, l).Some?
  {
    I.ReachableInv(n, p, c, labels, s);
    if AllAsleep(s) {
      I.SleepersBounded(n, p, c, labels, s);
      AsleepTokens(n, p, c, s);
      assert false;
    }
    l := AwakeMoves(n, p, c, s);
  }

  /** A producer is held up only while it sleeps and while another thread has the mutex; when its post
      notifies, any sleeping consumer may be the one, and no other. */
  lemma WhenProducerMoves(n: nat, p: nat, c: nat, labels: seq<Label>, s: State, i: nat, random: nat, wake: nat)
    requires Reachable(n, p, c, labels, s)
    ensures |s.producers| == p && |s.consumers| == c
    ensures Step(n, s, ProducerMoves(i, random, wake)).Some? <==>
      && i < p && s.producers[i].nap != S.Asleep
      && (s.producers[i].thread.pc == W.WaitLock ==> s.holder == W.Nobody)
      && (s.producers[i].thread.pc == W.PostFull && s.semFull < 0 && ConsumerSleeps(s) ==>
            wake < c && s.consumers[wake].nap == S.Asleep)
    ensures Step(n, s, SpuriousProducer(i)).Some? <==> i < p && s.producers[i].nap == S.Asleep
  {
    I.ReachableInv(n, p, c, labels, s);
  }

  lemma WhenConsumerMoves(n: nat, p: nat, c: nat, labels: seq<Label>, s: State, j: nat, wake: nat)
    requires Reachable(n, p, c, labels, s)
    ensures |s.producers| == p && |s.consumers| == c
    ensures Step(n, s, ConsumerMoves(j, wake)).Some? <==>
      && j < c && s.consumers[j].nap != S.Asleep
      && (s.consumers[j].thread.pc == W.AwaitLock ==> s.holder == W.Nobody)
      && (s.consumers[j].thread.pc == W.PostEmpty && s.semEmpty < 0 && ProducerSleeps(s) ==>
            wake < p && s.producers[wake].nap == S.Asleep)
    ensures Step(n, s, SpuriousConsumer(j)).Some? <==> j < c && s.consumers[j].nap == S.Asleep
  {
    I.ReachableInv(n, p, c, labels, s);
  }

  // ----- progress -----

  function ProducerRank(n: nat, p: Producer): nat {
    2 * Progress.ProducerLeft(n, AbsProducer(p))
    + if p.nap == S.Notified || (p.nap == S.Awake && p.thread.pc == W.WaitEmpty) then 1 else 0
  }

  function ConsumerRank(n: nat, c: Consumer): nat {
    2 * Progress.ConsumerLeft(n, AbsConsumer(c))
    + if c.nap == S.Notified || (c.nap == S.Awake && c.thread.pc == W.WaitFull) then 1 else 0
  }

  function RankOfProducer(n: nat): Producer -> nat {
    p => ProducerRank(n, p)
  }

  function RankOfConsumer(n: nat): Consumer -> nat {
    c => ConsumerRank(n, c)
  }

  ghost function Rank(n: nat, s: State): nat {
    Sum(s.producers, RankOfProducer(n)) + Sum(s.consumers, RankOfConsumer(n))
  }

  function Operations(s: State): nat {
    |s.ring.added| + |s.ring.removed|
  }

  lemma ProducerPaced(n: nat, p: nat, c: nat, s: State, i: nat, random: nat, wake: nat)
    requires I.Shape(n, p, c, s) && i < |s.producers| && ProducerStep(n, s, i, random, wake).Some? && !ProducerPosts(s, i)
    ensures
      var t := ProducerStep(n, s, i, random, wake).value;
      && Operations(s) <= Operations(t) <= Operations(s) + 1
      && ProducerRank(n, t.producers[i]) + 1
         <= ProducerRank(n, s.producers[i]) + (if Operations(t) == Operations(s) then 0 else 2 * n + 20)
  {
  }

  lemma ConsumerPaced(n: nat, p: nat, c: nat, s: State, j: nat, wake: nat)
    requires I.Shape(n, p, c, s) && j < |s.consumers| && ConsumerStep(n, s, j, wake).Some? && !ConsumerPosts(s, j)
    ensures
      var t := ConsumerStep(n, s, j, wake).value;
      && Operations(s) <= Operations(t) <= Operations(s) + 1
      && ConsumerRank(n, t.consumers[j]) + 1
         <= ConsumerRank(n, s.consumers[j]) + (if Operations(t) == Operations(s) then 0 else 2 * n + 20)
  {
  }

  /** A notified thread has less to do than a sleeping one. */
  lemma WakingConsumerPaced(n: nat, cs: seq<Consumer>, j: nat)
    requires j < |cs| && cs[j].nap == S.Asleep && cs[j].thread.pc == W.WaitFull
    ensures Sum(cs[j := Consumer(cs[j].thread.(pc := W.WaitFull), S.Notified)], RankOfConsumer(n)) + 1 <= Sum(cs, RankOfConsumer(n))
  {
    SumUpdate(cs, j, Consumer(cs[j].thread.(pc := W.WaitFull), S.Notified), RankOfConsumer(n));
  }

  lemma WakingProducerPaced(n: nat, ps: seq<Producer>, i: nat)
    requires i < |ps| && ps[i].nap == S.Asleep && ps[i].thread.pc == W.WaitEmpty
    ensures Sum(ps[i := Producer(ps[i].thread.(pc := W.WaitEmpty), S.Notified)], RankOfProducer(n)) + 1 <= Sum(ps, RankOfProducer(n))
  {
    SumUpdate(ps, i, Producer(ps[i].thread.(pc := W.WaitEmpty), S.Notified), RankOfProducer(n));
  }

  /** Every step, spurious wake-ups included, lowers the rank, unless it adds or removes. */
  predicate StepIsPaced(s: State, t: State, before: nat, after: nat, cost: nat) {
    && Operations(s) <= Operations(t) <= Operations(s) + 1
    && after + 1 <= before + (if Operations(t) == Operations(s) then 0 else cost)
  }

  lemma ProducerStepPaced(n: nat, p: nat, c: nat, s: State, i: nat, random: nat, wake: nat)
    requires I.Inv(n, p, c, s) && i < |s.producers| && ProducerStep(n, s, i, random, wake).Some?
    ensures StepIsPaced(s, ProducerStep(n, s, i, random, wake).value, Rank(n, s), Rank(n, ProducerStep(n, s, i, random, wake).value), 2 * n + 20)
  {
    var t := ProducerStep(n, s, i, random, wake).value;
    if ProducerPosts(s, i) {
      I.ProducerPostEffect(n, s, i, random, wake);
      if t.consumers != s.consumers {
        WakingConsumerPaced(n, s.consumers, wake);
      }
    } else {
      ProducerPaced(n, p, c, s, i, random, wake);
      ProducerMinds(n, s, i, random, wake);
    }
    SumUpdate(s.producers, i, t.producers[i], RankOfProducer(n));
  }

  lemma ConsumerStepPaced(n: nat, p: nat, c: nat, s: State, j: nat, wake: nat)
    requires I.Inv(n, p, c, s) && j < |s.consumers| && ConsumerStep(n, s, j, wake).Some?
    ensures StepIsPaced(s, ConsumerStep(n, s, j, wake).value, Rank(n, s), Rank(n, ConsumerStep(n, s, j, wake).value), 2 * n + 20)
  {
    var t := ConsumerStep(n, s, j, wake).value;
    if ConsumerPosts(s, j) {
      I.ConsumerPostEffect(n, s, j, wake);
      if t.producers != s.producers {
        WakingProducerPaced(n, s.producers, wake);
      }
    } else {
      ConsumerPaced(n, p, c, s, j, wake);
      ConsumerMinds(n, s, j, wake);
    }
    SumUpdate(s.consumers, j, t.consumers[j], RankOfConsumer(n));
  }

  lemma StepPaced(n: nat, p: nat, c: nat, s: State, l: Label)
    requires I.Inv(n, p, c, s) && Step(n, s, l).Some?
    ensures StepIsPaced(s, Step(n, s, l).value, Rank(n, s), Rank(n, Step(n, s, l).value), 2 * n + 20)
  {
    match l {
      case ProducerMoves(i, random, wake) => ProducerStepPaced(n, p, c, s, i, random, wake);
      case ConsumerMoves(j, wake) => ConsumerStepPaced(n, p, c, s, j, wake);
      case SpuriousProducer(i) => WakingProducerPaced(n, s.producers, i);
      case SpuriousConsumer(j) => WakingConsumerPaced(n, s.consumers, j);
    }
  }

  ghost function RankOf(n: nat): State -> nat {
    s => Rank(n, s)
  }

  lemma MachineIsPaced(n: nat, p: nat, c: nat, cost: nat)
    requires cost == 2 * n + 20
    ensures Paced(Machine(n), I.InvOf(n, p, c), RankOf(n), Operations, cost)
  {
    forall s, l | I.InvOf(n, p, c)(s) && Machine(n)(s, l).Some?
      ensures
        var t := Machine(n)(s, l).value;
        && I.InvOf(n, p, c)(t) && Operations(s) <= Operations(t) <= Operations(s) + 1
        && RankOf(n)(t) + 1 <= RankOf(n)(s) + (if Operations(t) == Operations(s) then 0 else cost)
    {
      I.StepKeepsInv(n, p, c, s, l);
      StepPaced(n, p, c, s, l);
    }
  }

  lemma RankBound(n: nat, s: State, each: nat)
    requires each == 2 * n + 19
    ensures Rank(n, s) <= Times(each, |s.producers| + |s.consumers|)
  {
    TimesIsProduct(each, |s.producers| + |s.consumers|);
    assert each * (|s.producers| + |s.consumers|) == each * |s.producers| + each * |s.consumers|;
    SumAtMost(s.producers, RankOfProducer(n), each);
    SumAtMost(s.consumers, RankOfConsumer(n), each);
  }

  lemma StepExtendsLogs(n: nat, s: State, l: Label)
    requires Step(n, s, l).Some?
    ensures LogsExtend(s.ring, Step(n, s, l).value.ring)
  {
  }

  /** Any n + 1 consecutive buffer operations contain an add and a remove, and with k spurious wake-ups
      any n + k + 1. */
  lemma AddsAndRemovesAlternate(n: nat, p: nat, c: nat, before: seq<Label>, s: State, after: seq<Label>, t: State)
    requires Reachable(n, p, c, before, s) && Exec(Machine(n), s, after) == Some(t)
    requires Operations(t) > Operations(s) + n + Strays(t)
    ensures s.ring.added < t.ring.added && s.ring.removed < t.ring.removed
  {
    ExecAppend(Machine(n), Init(n, p, c), before, after);
    LiveStaysInRange(n, p, c, before, s);
    LiveStaysInRange(n, p, c, before + after, t);
    StraysGrow(n, s, after, t);
    forall s, l | Machine(n)(s, l).Some?
      ensures LogsExtend(s.ring, Machine(n)(s, l).value.ring)
    {
      StepExtendsLogs(n, s, l);
    }
    Climbing(Machine(n), (s: State) => s.ring, LogsExtend, s, after);
  }

  lemma ManyOperations(n: nat, p: nat, c: nat, s: State, after: seq<Label>, t: State, bound: nat, cost: nat, m: nat)
    requires I.InvOf(n, p, c)(s) && Exec(Machine(n), s, after) == Some(t)
    requires RankOf(n)(s) <= bound && cost == 2 * n + 20 && |after| > bound + Times(cost, m)
    ensures Operations(t) > Operations(s) + m
  {
    MachineIsPaced(n, p, c, cost);
    PaceForcesWork(Machine(n), I.InvOf(n, p, c), RankOf(n), Operations, cost, bound, m, s, after);
  }

  /** Without an add or a remove a run is no longer than this, whatever wakes the threads. */
  function Idle(n: nat, p: nat, c: nat): nat {
    Times(2 * n + 19, p + c)
  }

  lemma EachIs(n: nat, p: nat, c: nat) returns (each: nat)
    ensures each == 2 * n + 19 && Idle(n, p, c) == Times(each, p + c)
  {
    each := 2 * n + 19;
  }

  lemma ReachableRank(n: nat, p: nat, c: nat, labels: seq<Label>, s: State, bound: nat)
    requires Reachable(n, p, c, labels, s) && bound == Idle(n, p, c)
    ensures I.InvOf(n, p, c)(s) && RankOf(n)(s) <= bound
  {
    I.ReachableInv(n, p, c, labels, s);
    var each := EachIs(n, p, c);
    RankBound(n, s, each);
  }

  /** Steps within which the warehouse must both add and remove, with k spurious wake-ups. */
  function Patience(n: nat, p: nat, c: nat, k: nat): nat {
    Idle(n, p, c) + Times(2 * n + 20, n + k)
  }

  lemma LongRunsOperate(
    n: nat, p: nat, c: nat, before: seq<Label>, s: State, after: seq<Label>, t: State, bound: nat, cost: nat, m: nat)
    requires Reachable(n, p, c, before, s) && Exec(Machine(n), s, after) == Some(t)
    requires bound == Idle(n, p, c) && cost == 2 * n + 20 && |after| > bound + Times(cost, m)
    ensures Operations(t) > Operations(s) + m
  {
    ReachableRank(n, p, c, before, s, bound);
    ManyOperations(n, p, c, s, after, t, bound, cost, m);
  }

  lemma PatienceIs(n: nat, p: nat, c: nat, k: nat) returns (bound: nat, cost: nat, m: nat)
    ensures bound == Idle(n, p, c) && cost == 2 * n + 20 && m == n + k
    ensures Patience(n, p, c, k) == bound + Times(cost, m)
  {
    bound, cost, m := Idle(n, p, c), 2 * n + 20, n + k;
  }

  lemma LongRunsAddAndRemove(
    n: nat, p: nat, c: nat, before: seq<Label>, s: State, after: seq<Label>, t: State, bound: nat, cost: nat, m: nat)
    requires Reachable(n, p, c, before, s) && Exec(Machine(n), s, after) == Some(t) && m == n + Strays(t)
    requires bound == Idle(n, p, c) && cost == 2 * n + 20 && |after| > bound + Times(cost, m)
    ensures s.ring.added < t.ring.added && s.ring.removed < t.ring.removed
  {
    LongRunsOperate(n, p, c, before, s, after, t, bound, cost, m);
    AddsAndRemovesAlternate(n, p, c, before, s, after, t);
  }

  /** From every reachable state, every schedule of this many steps has added an item and removed an
      item; no fairness is assumed of the scheduler or of notify_one. */
  lemma EveryScheduleMakesProgress(
    n: nat, p: nat, c: nat, before: seq<Label>, s: State, after: seq<Label>, t: State)
    requires Reachable(n, p, c, before, s) && Exec(Machine(n), s, after) == Some(t)
    requires |after| > Patience(n, p, c, Strays(t))
    ensures s.ring.added < t.ring.added && s.ring.removed < t.ring.removed
  {
    var bound, cost, m := PatienceIs(n, p, c, Strays(t));
    LongRunsAddAndRemove(n, p, c, before, s, after, t, bound, cost, m);
  }
}

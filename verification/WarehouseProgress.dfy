/** The warehouse never deadlocks and always gets work done, whatever the schedule. */
module WarehouseProgress {
  import opened Transitions
  import opened Ring
  import opened Sums
  import opened Warehouse
  import opened WarehouseSafety

  /** In every reachable state some thread can move. */
  lemma NeverStuck(cfg: Config, p: nat, c: nat, labels: seq<Label>, s: State) returns (l: Label)
    requires Reachable(cfg, p, c, labels, s) && p > 0 && c > 0
    ensures Step(cfg, s, l).Some?
  {
    ReachableInv(cfg, p, c, labels, s);
    l := SomeoneCanMove(cfg, s);
  }

  lemma SomeoneCanMove(cfg: Config, s: State) returns (l: Label)
    requires Inv(cfg, s) && |s.producers| > 0 && |s.consumers| > 0
    ensures Step(cfg, s, l).Some?
  {
    match s.holder {
      case ByProducer(i) => l := ProducerMoves(i, 0);
      case ByConsumer(j) => l := ConsumerMoves(j);
      case Nobody =>
        if i :| 0 <= i < |s.producers| && !s.producers[i].pc.WaitEmpty? {
          l := ProducerMoves(i, 0);
        } else if j :| 0 <= j < |s.consumers| && !s.consumers[j].pc.WaitFull? {
          l := ConsumerMoves(j);
        } else {
          SumZero(s.producers, Stored);
          SumZero(s.producers, Reserved);
          SumZero(s.consumers, Claimed);
          SumZero(s.consumers, Freed);
          assert s.empty + s.full == cfg.n;
          l := if s.empty > 0 then ProducerMoves(0, 0) else ConsumerMoves(0);
        }
    }
  }

  /** A producer is held up nowhere but at its two waits, and there only by the semaphore, whoever else
      is where; the number it draws is up to chance. */
  lemma WhenProducerMoves(cfg: Config, p: nat, c: nat, labels: seq<Label>, s: State, i: nat, random: nat)
    requires Reachable(cfg, p, c, labels, s)
    ensures |s.producers| == p
    ensures Step(cfg, s, ProducerMoves(i, random)).Some? <==>
      && i < p
      && (s.producers[i].pc == WaitEmpty ==> s.empty > 0)
      && (s.producers[i].pc == WaitLock ==> s.lock > 0)
  {
    ReachableInv(cfg, p, c, labels, s);
  }

  lemma WhenConsumerMoves(cfg: Config, p: nat, c: nat, labels: seq<Label>, s: State, j: nat)
    requires Reachable(cfg, p, c, labels, s)
    ensures |s.consumers| == c
    ensures Step(cfg, s, ConsumerMoves(j)).Some? <==>
      && j < c
      && (s.consumers[j].pc == WaitFull ==> s.full > 0)
      && (s.consumers[j].pc == AwaitLock ==> s.lock > 0)
  {
    ReachableInv(cfg, p, c, labels, s);
  }

  /** Steps a producer has left before its next index bump. */
  function ProducerLeft(n: nat, p: Producer): nat {
    match p.pc
    case Advance => 0
    case Store => 1
    case Pick => 2
    case WaitLock => 3
    case WaitEmpty => 4
    case Produce => 5
    case PostFull => 6
    case PostLock => 7
    case Show(i) => if i <= n then 8 + (n - i) else 8
  }

  function ConsumerLeft(n: nat, c: Consumer): nat {
    match c.pc
    case Retire => 0
    case Mark => 1
    case Take => 2
    case AwaitLock => 3
    case WaitFull => 4
    case Consume => 5
    case PostEmpty => 6
    case ReleaseLock => 7
    case ConsumeLocked => 8
    case Display(i) => if i <= n then 9 + (n - i) else 9
  }

  function LeftOfProducer(n: nat): Producer -> nat {
    p => ProducerLeft(n, p)
  }

  function LeftOfConsumer(n: nat): Consumer -> nat {
    c => ConsumerLeft(n, c)
  }

  ghost function Remaining(n: nat, s: State): nat {
    Sum(s.producers, LeftOfProducer(n)) + Sum(s.consumers, LeftOfConsumer(n))
  }

  function Operations(s: State): nat {
    |s.ring.added| + |s.ring.removed|
  }

  lemma ProducerPaced(cfg: Config, s: State, i: nat, random: nat)
    requires Locals(cfg, s) && i < |s.producers| && ProducerStep(cfg, s, i, random).Some?
    ensures
      var t := ProducerStep(cfg, s, i, random).value;
      && Operations(s) <= Operations(t) <= Operations(s) + 1
      && |t.producers| == |s.producers|
      && ProducerLeft(cfg.n, t.producers[i]) + 1
         <= ProducerLeft(cfg.n, s.producers[i]) + (if Operations(t) == Operations(s) then 0 else cfg.n + 10)
  {
  }

  lemma ConsumerPaced(cfg: Config, s: State, j: nat)
    requires Locals(cfg, s) && j < |s.consumers| && ConsumerStep(cfg, s, j).Some?
    ensures
      var t := ConsumerStep(cfg, s, j).value;
      && Operations(s) <= Operations(t) <= Operations(s) + 1
      && |t.consumers| == |s.consumers|
      && ConsumerLeft(cfg.n, t.consumers[j]) + 1
         <= ConsumerLeft(cfg.n, s.consumers[j]) + (if Operations(t) == Operations(s) then 0 else cfg.n + 10)
  {
  }

  lemma StepPaced(cfg: Config, s: State, l: Label)
    requires Locals(cfg, s) && Step(cfg, s, l).Some?
    ensures
      var t := Step(cfg, s, l).value;
      && Operations(s) <= Operations(t) <= Operations(s) + 1
      && Remaining(cfg.n, t) + 1 <= Remaining(cfg.n, s) + (if Operations(t) == Operations(s) then 0 else cfg.n + 10)
  {
    var t := Step(cfg, s, l).value;
    match l {
      case ProducerMoves(i, random) =>
        ProducerPaced(cfg, s, i, random);
        ProducerBalance(cfg, s, i, random);
        SumUpdate(s.producers, i, t.producers[i], LeftOfProducer(cfg.n));
      case ConsumerMoves(j) =>
        ConsumerPaced(cfg, s, j);
        ConsumerBalance(cfg, s, j);
        SumUpdate(s.consumers, j, t.consumers[j], LeftOfConsumer(cfg.n));
    }
  }

  lemma RemainingBound(n: nat, s: State)
    ensures Remaining(n, s) <= (n + 9) * (|s.producers| + |s.consumers|)
  {
    SumAtMost(s.producers, LeftOfProducer(n), n + 9);
    SumAtMost(s.consumers, LeftOfConsumer(n), n + 9);
    assert (n + 9) * |s.producers| + (n + 9) * |s.consumers| == (n + 9) * (|s.producers| + |s.consumers|);
  }

  ghost function InvOf(cfg: Config): State -> bool {
    s => Inv(cfg, s)
  }

  ghost function RemainingOf(n: nat): State -> nat {
    s => Remaining(n, s)
  }

  lemma MachineIsPaced(cfg: Config)
    ensures Paced(Machine(cfg), InvOf(cfg), RemainingOf(cfg.n), Operations, cfg.n + 10)
  {
    forall s, l | InvOf(cfg)(s) && Machine(cfg)(s, l).Some?
      ensures
        var t := Machine(cfg)(s, l).value;
        && InvOf(cfg)(t) && Operations(s) <= Operations(t) <= Operations(s) + 1
        && RemainingOf(cfg.n)(t) + 1 <= RemainingOf(cfg.n)(s) + (if Operations(t) == Operations(s) then 0 else cfg.n + 10)
    {
      StepKeepsInv(cfg, s, l);
      StepPaced(cfg, s, l);
    }
  }

  /** From any reachable state, a run in which nothing is added or removed is no longer than the
      steps the threads have left until their next index bumps. */
  lemma StepsWithoutOperation(cfg: Config, p: nat, c: nat, before: seq<Label>, s: State, after: seq<Label>, t: State)
    requires Reachable(cfg, p, c, before, s) && Exec(Machine(cfg), s, after) == Some(t)
    requires Operations(t) == Operations(s)
    ensures |after| <= Remaining(cfg.n, s)
  {
    ReachableInv(cfg, p, c, before, s);
    MachineIsPaced(cfg);
    PaceBounds(Machine(cfg), InvOf(cfg), RemainingOf(cfg.n), Operations, cfg.n + 10, Remaining(cfg.n, s), s, after);
  }

  lemma StepExtendsLogs(cfg: Config, s: State, l: Label)
    requires Step(cfg, s, l).Some?
    ensures LogsExtend(s.ring, Step(cfg, s, l).value.ring)
  {
  }

  /** Any n + 1 consecutive buffer operations contain an add and a remove. */
  lemma AddsAndRemovesAlternate(cfg: Config, p: nat, c: nat, before: seq<Label>, s: State, after: seq<Label>, t: State)
    requires Reachable(cfg, p, c, before, s) && Exec(Machine(cfg), s, after) == Some(t)
    requires Operations(t) > Operations(s) + cfg.n
    ensures s.ring.added < t.ring.added && s.ring.removed < t.ring.removed
  {
    ExecAppend(Machine(cfg), Init(cfg, p, c), before, after);
    RingFollowsLog(cfg, p, c, before, s);
    RingFollowsLog(cfg, p, c, before + after, t);
    forall s, l | Machine(cfg)(s, l).Some?
      ensures LogsExtend(s.ring, Machine(cfg)(s, l).value.ring)
    {
      StepExtendsLogs(cfg, s, l);
    }
    Climbing(Machine(cfg), (s: State) => s.ring, LogsExtend, s, after);
  }

  lemma ManyOperations(cfg: Config, s: State, after: seq<Label>, t: State, bound: nat)
    requires InvOf(cfg)(s) && Exec(Machine(cfg), s, after) == Some(t)
    requires Remaining(cfg.n, s) <= bound && |after| > bound + Times(cfg.n + 10, cfg.n)
    ensures Operations(t) > Operations(s) + cfg.n
  {
    MachineIsPaced(cfg);
    PaceForcesWork(Machine(cfg), InvOf(cfg), RemainingOf(cfg.n), Operations, cfg.n + 10, bound, cfg.n, s, after);
  }

  lemma ReachableRemaining(cfg: Config, p: nat, c: nat, labels: seq<Label>, s: State)
    requires Reachable(cfg, p, c, labels, s)
    ensures Remaining(cfg.n, s) <= (cfg.n + 9) * (p + c)
  {
    ReachableInv(cfg, p, c, labels, s);
    RemainingBound(cfg.n, s);
  }

  /** Steps within which the warehouse must both add and remove. */
  function Patience(n: nat, p: nat, c: nat): nat {
    (n + 9) * (p + c) + (n + 10) * n
  }

  lemma LongRunsOperate(cfg: Config, p: nat, c: nat, before: seq<Label>, s: State, after: seq<Label>, t: State)
    requires Reachable(cfg, p, c, before, s) && Exec(Machine(cfg), s, after) == Some(t)
    requires |after| > Patience(cfg.n, p, c)
    ensures Operations(t) > Operations(s) + cfg.n
  {
    ReachableRemaining(cfg, p, c, before, s);
    TimesIsProduct(cfg.n + 10, cfg.n);
    ReachableInv(cfg, p, c, before, s);
    ManyOperations(cfg, s, after, t, (cfg.n + 9) * (p + c));
  }

  /** Progress without any fairness assumption: from every reachable state, every schedule that
      runs this many steps has added an item and removed an item. */
  lemma EveryScheduleMakesProgress(
    cfg: Config, p: nat, c: nat, before: seq<Label>, s: State, after: seq<Label>, t: State)
    requires Reachable(cfg, p, c, before, s) && Exec(Machine(cfg), s, after) == Some(t)
    requires |after| > Patience(cfg.n, p, c)
    ensures s.ring.added < t.ring.added && s.ring.removed < t.ring.removed
  {
    LongRunsOperate(cfg, p, c, before, s, after, t);
    AddsAndRemovesAlternate(cfg, p, c, before, s, after, t);
  }
}

/** The C++ warehouse gets work done as long as `running` is set and never deadlocks then. Once the flag
    is cleared every schedule ends, either with all threads gone or with threads of one side blocked on a
    semaphore that nobody posts any more. */
module CppWarehouseProgress {
  import opened Transitions
  import opened Sums
  import opened CppWarehouse

  /** A step of a thread, as opposed to a signal. */
  function ThreadStep(s: State, l: Label): Option<State> {
    if l.Interrupt? then None else Step(s, l)
  }

  ghost predicate Stuck(s: State) {
    forall l :: ThreadStep(s, l).None?
  }

  // ----- no deadlock while running -----

  /** The lock holder can move, and with the lock free every thread that is not blocked or gone. */
  lemma UnblockedMoves(n: nat, s: State) returns (l: Label)
    requires Inv(n, s)
    requires
      || s.lock == 0
      || (exists i :: 0 <= i < |s.producers| && s.producers[i] != Stopped && (s.producers[i] == WaitEmpty ==> s.empty > 0))
      || (exists j :: 0 <= j < |s.consumers| && s.consumers[j] != Ended && (s.consumers[j] == WaitFull ==> s.full > 0))
    ensures ThreadStep(s, l).Some?
  {
    match s.holder {
      case ByProducer(i) => l := ProducerMoves(i);
      case ByConsumer(j) => l := ConsumerMoves(j);
      case Nobody =>
        if i :| 0 <= i < |s.producers| && s.producers[i] != Stopped && (s.producers[i] == WaitEmpty ==> s.empty > 0) {
          l := ProducerMoves(i);
        } else {
          var j :| 0 <= j < |s.consumers| && s.consumers[j] != Ended && (s.consumers[j] == WaitFull ==> s.full > 0);
          l := ConsumerMoves(j);
        }
    }
  }

  /** What a state without an enabled thread step looks like: the lock is free, every thread is gone or
      blocked at its first wait, all n tokens are in the two semaphores. */
  lemma StuckShape(n: nat, s: State)
    requires Inv(n, s) && Stuck(s)
    ensures s.lock == 1 && s.empty + s.full == n
    ensures forall i :: 0 <= i < |s.producers| ==> s.producers[i] == Stopped || (s.producers[i] == WaitEmpty && s.empty == 0)
    ensures forall j :: 0 <= j < |s.consumers| ==> s.consumers[j] == Ended || (s.consumers[j] == WaitFull && s.full == 0)
  {
    if s.lock == 0
      || (exists i :: 0 <= i < |s.producers| && s.producers[i] != Stopped && (s.producers[i] == WaitEmpty ==> s.empty > 0))
      || (exists j :: 0 <= j < |s.consumers| && s.consumers[j] != Ended && (s.consumers[j] == WaitFull ==> s.full > 0))
    {
      var l := UnblockedMoves(n, s);
      assert false;
    }
    SumZero(s.producers, Stored);
    SumZero(s.producers, Reserved);
    SumZero(s.consumers, Claimed);
    SumZero(s.consumers, Freed);
  }

  /** While the flag is set no thread leaves. */
  lemma NobodyLeaves(n: nat, p: nat, c: nat, labels: seq<Label>, s: State)
    requires Reachable(n, p, c, labels, s)
    ensures |s.producers| == p && |s.consumers| == c
    ensures s.running ==> Stopped !in s.producers && Ended !in s.consumers
  {
    Invariance(Step,
               (s: State) => && |s.producers| == p && |s.consumers| == c
                             && (s.running ==> Stopped !in s.producers && Ended !in s.consumers),
               Init(n, p, c), labels);
  }

  /** With a producer and a consumer, every reachable state with the flag set has an enabled thread step. */
  lemma NeverStuckWhileRunning(n: nat, p: nat, c: nat, labels: seq<Label>, s: State) returns (l: Label)
    requires Reachable(n, p, c, labels, s) && s.running && p > 0 && c > 0
    ensures ThreadStep(s, l).Some?
  {
    ReachableInv(n, p, c, labels, s);
    NobodyLeaves(n, p, c, labels, s);
    if Stuck(s) {
      StuckShape(n, s);
      assert false;
    }
    l :| ThreadStep(s, l).Some?;
  }

  /** A thread is held up nowhere but at its two waits, and by nothing but the semaphore, until it is gone; a
      signal can come at any moment. */
  lemma WhenThreadMoves(n: nat, p: nat, c: nat, labels: seq<Label>, s: State, k: nat)
    requires Reachable(n, p, c, labels, s)
    ensures |s.producers| == p && |s.consumers| == c && Step(s, Interrupt).Some?
    ensures Step(s, ProducerMoves(k)).Some? <==>
      && k < p && s.producers[k] != Stopped
      && (s.producers[k] == WaitEmpty ==> s.empty > 0) && (s.producers[k] == WaitLock ==> s.lock > 0)
    ensures Step(s, ConsumerMoves(k)).Some? <==>
      && k < c && s.consumers[k] != Ended
      && (s.consumers[k] == WaitFull ==> s.full > 0) && (s.consumers[k] == AwaitLock ==> s.lock > 0)
  {
    ReachableInv(n, p, c, labels, s);
    NobodyLeaves(n, p, c, labels, s);
  }

  predicate AllGone(s: State) {
    && (forall i :: 0 <= i < |s.producers| ==> s.producers[i] == Stopped)
    && (forall j :: 0 <= j < |s.consumers| ==> s.consumers[j] == Ended)
  }

  /** Some producers are blocked on the full ring and every consumer has gone. */
  predicate ProducersBlocked(n: nat, s: State) {
    && s.empty == 0 && s.full == n && WaitEmpty in s.producers
    && (forall i :: 0 <= i < |s.producers| ==> s.producers[i] == Stopped || s.producers[i] == WaitEmpty)
    && (forall j :: 0 <= j < |s.consumers| ==> s.consumers[j] == Ended)
  }

  /** Some consumers are blocked on the empty ring and every producer has gone. */
  predicate ConsumersBlocked(n: nat, s: State) {
    && s.empty == n && s.full == 0 && WaitFull in s.consumers
    && (forall i :: 0 <= i < |s.producers| ==> s.producers[i] == Stopped)
    && (forall j :: 0 <= j < |s.consumers| ==> s.consumers[j] == Ended || s.consumers[j] == WaitFull)
  }

  /** A stuck state has threads blocked on one side at most. */
  lemma StuckOnOneSide(n: nat, p: nat, c: nat, labels: seq<Label>, s: State)
    requires Reachable(n, p, c, labels, s) && Stuck(s)
    ensures AllGone(s) || ProducersBlocked(n, s) || ConsumersBlocked(n, s)
    ensures p > 0 && c > 0 ==> !s.running
  {
    ReachableInv(n, p, c, labels, s);
    StuckShape(n, s);
    if p > 0 && c > 0 && s.running {
      var l := NeverStuckWhileRunning(n, p, c, labels, s);
      assert false;
    }
  }

  // ----- progress -----

  /** Steps a producer has left up to its next index bump. */
  function ProducerLeft(pc: ProducerPc): nat {
    match pc
    case Stopped => 0
    case Advance => 1
    case Store => 2
    case WaitLock => 3
    case WaitEmpty => 4
    case TestRunning => 5
    case PostFull => 6
    case PostLock => 7
  }

  function ConsumerLeft(pc: ConsumerPc): nat {
    match pc
    case Ended => 0
    case Retire => 1
    case Mark => 2
    case AwaitLock => 3
    case WaitFull => 4
    case CheckRunning => 5
    case PostEmpty => 6
    case ReleaseLock => 7
    case Clear => 8
  }

  ghost function Remaining(s: State): nat {
    Sum(s.producers, ProducerLeft) + Sum(s.consumers, ConsumerLeft)
  }

  function Operations(s: State): nat {
    s.added + s.removed
  }

  lemma ProducerPaced(s: State, i: nat)
    requires i < |s.producers| && ProducerStep(s, i).Some?
    ensures
      var t := ProducerStep(s, i).value;
      && Operations(s) <= Operations(t) <= Operations(s) + 1 && |t.producers| == |s.producers|
      && ProducerLeft(t.producers[i]) + 1 <= ProducerLeft(s.producers[i]) + (if Operations(t) == Operations(s) then 0 else 8)
  {
  }

  lemma ConsumerPaced(s: State, j: nat)
    requires j < |s.consumers| && ConsumerStep(s, j).Some?
    ensures
      var t := ConsumerStep(s, j).value;
      && Operations(s) <= Operations(t) <= Operations(s) + 1 && |t.consumers| == |s.consumers|
      && ConsumerLeft(t.consumers[j]) + 1 <= ConsumerLeft(s.consumers[j]) + (if Operations(t) == Operations(s) then 0 else 8)
  {
  }

  lemma StepPaced(s: State, l: Label)
    requires ThreadStep(s, l).Some?
    ensures
      var t := Step(s, l).value;
      && Operations(s) <= Operations(t) <= Operations(s) + 1
      && Remaining(t) + 1 <= Remaining(s) + (if Operations(t) == Operations(s) then 0 else 8)
  {
    var t := Step(s, l).value;
    match l {
      case ProducerMoves(i) =>
        ProducerBalance(s, i);
        ProducerPaced(s, i);
        SumUpdate(s.producers, i, t.producers[i], ProducerLeft);
      case ConsumerMoves(j) =>
        ConsumerBalance(s, j);
        ConsumerPaced(s, j);
        SumUpdate(s.consumers, j, t.consumers[j], ConsumerLeft);
    }
  }

  ghost function InvOf(n: nat): State -> bool {
    s => Inv(n, s)
  }

  lemma ThreadsArePaced(n: nat)
    ensures Paced(ThreadStep, InvOf(n), Remaining, Operations, 8)
  {
    forall s, l | InvOf(n)(s) && ThreadStep(s, l).Some?
      ensures
        var t := ThreadStep(s, l).value;
        && InvOf(n)(t) && Operations(s) <= Operations(t) <= Operations(s) + 1
        && Remaining(t) + 1 <= Remaining(s) + (if Operations(t) == Operations(s) then 0 else 8)
    {
      StepKeepsInv(n, s, l);
      StepPaced(s, l);
    }
  }

  lemma RemainingBound(s: State)
    ensures Remaining(s) <= 7 * |s.producers| + 8 * |s.consumers|
  {
    SumAtMost(s.producers, ProducerLeft, 7);
    SumAtMost(s.consumers, ConsumerLeft, 8);
  }

  lemma CountsGrow(s: State, after: seq<Label>, t: State)
    requires Exec(ThreadStep, s, after) == Some(t)
    ensures s.added <= t.added && s.removed <= t.removed
  {
    Invariance(ThreadStep, (t: State) => s.added <= t.added && s.removed <= t.removed, s, after);
  }

  lemma StaysInRange(n: nat, s: State)
    requires Inv(n, s)
    ensures 0 <= s.added - s.removed <= n
  {
  }

  /** From every reachable state, every schedule of more than 7 p + 8 c + 8 n thread steps has added an item
      and removed an item. Once the flag is cleared there is no such schedule. */
  lemma EveryScheduleMakesProgress(n: nat, p: nat, c: nat, before: seq<Label>, s: State, after: seq<Label>, t: State)
    requires Reachable(n, p, c, before, s) && Exec(ThreadStep, s, after) == Some(t)
    requires |after| > 7 * p + 8 * c + 8 * n
    ensures s.added < t.added && s.removed < t.removed
  {
    ReachableInv(n, p, c, before, s);
    NobodyLeaves(n, p, c, before, s);
    RemainingBound(s);
    ThreadsArePaced(n);
    PaceBounds(ThreadStep, InvOf(n), Remaining, Operations, 8, 7 * p + 8 * c, s, after);
    CountsGrow(s, after, t);
    StaysInRange(n, s);
    StaysInRange(n, t);
  }

  // ----- after the flag is cleared -----

  /** Steps a thread has left once the flag is cleared. */
  function ProducerExit(pc: ProducerPc): nat {
    match pc
    case Stopped => 0
    case TestRunning => 1
    case PostFull => 2
    case PostLock => 3
    case Advance => 4
    case Store => 5
    case WaitLock => 6
    case WaitEmpty => 7
  }

  function ConsumerExit(pc: ConsumerPc): nat {
    match pc
    case Ended => 0
    case CheckRunning => 1
    case PostEmpty => 2
    case ReleaseLock => 3
    case Clear => 4
    case Retire => 5
    case Mark => 6
    case AwaitLock => 7
    case WaitFull => 8
  }

  ghost function ExitSteps(s: State): nat {
    Sum(s.producers, ProducerExit) + Sum(s.consumers, ConsumerExit)
  }

  predicate Cleared(s: State) {
    !s.running
  }

  lemma ExitDescends(s: State, l: Label)
    requires Cleared(s) && ThreadStep(s, l).Some?
    ensures Cleared(Step(s, l).value) && ExitSteps(Step(s, l).value) + 1 <= ExitSteps(s)
  {
    var t := Step(s, l).value;
    match l {
      case ProducerMoves(i) =>
        ProducerBalance(s, i);
        SumUpdate(s.producers, i, t.producers[i], ProducerExit);
      case ConsumerMoves(j) =>
        ConsumerBalance(s, j);
        SumUpdate(s.consumers, j, t.consumers[j], ConsumerExit);
    }
  }

  /** Every schedule ends: at most seven steps of each producer and eight of each consumer. */
  lemma InterruptEndsSchedules(s: State, after: seq<Label>, t: State)
    requires !s.running && Exec(ThreadStep, s, after) == Some(t)
    ensures |after| <= ExitSteps(s) <= 7 * |s.producers| + 8 * |s.consumers|
  {
    forall s, l | Cleared(s) && ThreadStep(s, l).Some?
      ensures Cleared(ThreadStep(s, l).value) && ExitSteps(ThreadStep(s, l).value) + 1 <= ExitSteps(s)
    {
      ExitDescends(s, l);
    }
    PaceBounds(ThreadStep, Cleared, ExitSteps, _ => 0, 0, ExitSteps(s), s, after);
    SumAtMost(s.producers, ProducerExit, 7);
    SumAtMost(s.consumers, ConsumerExit, 8);
  }

  /** So any run goes on to a stuck state. */
  lemma {:induction false} RunOut(s: State) returns (after: seq<Label>, t: State)
    requires !s.running
    ensures Exec(ThreadStep, s, after) == Some(t) && Stuck(t) && !t.running
    decreases ExitSteps(s)
  {
    after, t := [], s;
    if !Stuck(s) {
      var l :| ThreadStep(s, l).Some?;
      ExitDescends(s, l);
      after, t := RunOut(Step(s, l).value);
      after := [l] + after;
    }
  }

  // ----- who is left blocked -----

  lemma {:induction false} ThreadRun(s: State, after: seq<Label>, t: State)
    requires Exec(ThreadStep, s, after) == Some(t)
    ensures Exec(Step, s, after) == Some(t)
    decreases |after|
  {
    if after != [] {
      ThreadRun(Step(s, after[0]).value, after[1..], t);
    }
  }

  lemma RunsOn(n: nat, p: nat, c: nat, labels: seq<Label>, s: State, after: seq<Label>, t: State)
    requires Reachable(n, p, c, labels, s) && Exec(ThreadStep, s, after) == Some(t)
    ensures Reachable(n, p, c, labels + after, t)
  {
    ThreadRun(s, after, t);
    ExecAppend(Step, Init(n, p, c), labels, after);
  }

  /** The items the ring would hold if every thread that has passed its test finished its round. */
  ghost function Settled(s: State): int {
    s.added - s.removed + Sum(s.producers, MayAdd) - Sum(s.consumers, MayRemove)
  }

  lemma SettledIsKept(s: State, l: Label)
    requires Cleared(s) && ThreadStep(s, l).Some?
    ensures Cleared(Step(s, l).value) && Settled(Step(s, l).value) == Settled(s)
  {
    var t := Step(s, l).value;
    match l {
      case ProducerMoves(i) =>
        ProducerBalance(s, i);
        SumUpdate(s.producers, i, t.producers[i], MayAdd);
      case ConsumerMoves(j) =>
        ConsumerBalance(s, j);
        SumUpdate(s.consumers, j, t.consumers[j], MayRemove);
    }
  }

  lemma RunKeepsSettled(s: State, after: seq<Label>, t: State)
    requires !s.running && Exec(ThreadStep, s, after) == Some(t)
    ensures !t.running && Settled(t) == Settled(s)
  {
    var settled := Settled(s);
    forall u, l | Cleared(u) && Settled(u) == settled && ThreadStep(u, l).Some?
      ensures Cleared(ThreadStep(u, l).value) && Settled(ThreadStep(u, l).value) == settled
    {
      SettledIsKept(u, l);
    }
    Invariance(ThreadStep, u => Cleared(u) && Settled(u) == settled, s, after);
  }

  function Positive(x: int): nat {
    if x > 0 then x else 0
  }

  /** Threads that the two semaphores hold back in a stuck state. */
  ghost function BlockedProducers(s: State): nat { Sum(s.producers, MayAdd) }
  ghost function BlockedConsumers(s: State): nat { Sum(s.consumers, MayRemove) }

  lemma StuckIsSettled(n: nat, s: State)
    requires Inv(n, s) && Stuck(s)
    ensures BlockedProducers(s) == Positive(Settled(s) - n) && BlockedConsumers(s) == Positive(-Settled(s))
    ensures AllGone(s) <==> BlockedProducers(s) == 0 && BlockedConsumers(s) == 0
  {
    StuckShape(n, s);
    StaysInRange(n, s);
    SumZero(s.producers, Stored);
    SumZero(s.consumers, Claimed);
    if AllGone(s) || s.empty > 0 {
      SumZero(s.producers, MayAdd);
    }
    if AllGone(s) || s.full > 0 {
      SumZero(s.consumers, MayRemove);
    }
    if i :| 0 <= i < |s.producers| && s.producers[i] != Stopped {
      SumAtLeast(s.producers, i, MayAdd);
    }
    if j :| 0 <= j < |s.consumers| && s.consumers[j] != Ended {
      SumAtLeast(s.consumers, j, MayRemove);
    }
  }

  /** However the threads are scheduled after an interrupt, the same number of them stays blocked: the
      settled items above n in producers, the settled items below 0 in consumers. */
  lemma InterruptOutcome(n: nat, p: nat, c: nat, before: seq<Label>, s: State, after: seq<Label>, t: State)
    requires Reachable(n, p, c, before, s) && !s.running && Exec(ThreadStep, s, after) == Some(t) && Stuck(t)
    ensures BlockedProducers(t) == Positive(Settled(s) - n) && BlockedConsumers(t) == Positive(-Settled(s))
    ensures AllGone(t) <==> 0 <= Settled(s) <= n
  {
    RunsOn(n, p, c, before, s, after, t);
    ReachableInv(n, p, c, before + after, t);
    RunKeepsSettled(s, after, t);
    StuckIsSettled(n, t);
  }

  /** Every schedule of the threads from here ends them all. */
  ghost predicate AllWillGo(s: State) {
    forall after :: Exec(ThreadStep, s, after).Some? ==>
      var t := Exec(ThreadStep, s, after).value;
      Stuck(t) ==> AllGone(t)
  }

  /** Which is so exactly when the ring can hold the settled items. */
  lemma WhenAllWillGo(n: nat, p: nat, c: nat, before: seq<Label>, s: State)
    requires Reachable(n, p, c, before, s) && !s.running
    ensures AllWillGo(s) <==> 0 <= Settled(s) <= n
  {
    var after, t := RunOut(s);
    InterruptOutcome(n, p, c, before, s, after, t);
    if 0 <= Settled(s) <= n {
      forall other | Exec(ThreadStep, s, other).Some? && Stuck(Exec(ThreadStep, s, other).value)
        ensures AllGone(Exec(ThreadStep, s, other).value)
      {
        InterruptOutcome(n, p, c, before, s, other, Exec(ThreadStep, s, other).value);
      }
    } else {
      assert Exec(ThreadStep, s, after).Some?;
    }
  }

  /** Producer 0 fills k slots. */
  lemma {:induction false} Fill(n: nat, p: nat, k: nat) returns (labels: seq<Label>, s: State)
    requires n > 0 && p > 0 && k <= n
    ensures Reachable(n, p, 0, labels, s) && s.running && s.empty == n - k && s.lock == 1 && s.added - s.removed == k
    ensures s.producers == Init(n, p, 0).producers && s.consumers == []
  {
    labels, s := [], Init(n, p, 0);
    if k > 0 {
      labels, s := Fill(n, p, k - 1);
      labels, s := ProducerRound(n, p, 0, labels, s);
    }
  }

  /** For every size and every number of threads but none, an interrupt can leave a thread blocked: a
      consumer of the empty warehouse, or a producer that has filled it. */
  lemma InterruptCanBlock(n: nat, p: nat, c: nat) returns (labels: seq<Label>, s: State)
    requires n > 0 && p + c > 0
    ensures Reachable(n, p, c, labels, s) && !s.running && !AllWillGo(s)
  {
    if c > 0 {
      labels, s := Extend(n, p, c, [], Init(n, p, c), ConsumerMoves(0));
      SumZero(s.producers, MayAdd);
      SumSingle(s.consumers, 0, MayRemove);
    } else {
      labels, s := Fill(n, p, n);
      labels, s := Extend(n, p, c, labels, s, ProducerMoves(0));
      SumSingle(s.producers, 0, MayAdd);
      SumZero(s.consumers, MayRemove);
    }
    labels, s := Extend(n, p, c, labels, s, Interrupt);
    WhenAllWillGo(n, p, c, labels, s);
  }
}

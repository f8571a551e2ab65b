/** Progress of the warehouse statement by statement: every schedule of a stated length adds and removes an item,
    although each semaphore call is now a dozen statements and threads queue for the semaphores' mutexes. */
module FineWarehouseProgress {
  import opened Transitions
  import opened Sums
  import opened FineSemaphore
  import opened FineWarehouse
  import opened FineWarehouseTheorems
  import Steps = FineWarehouseSteps
  import R = RustWarehouse
  import W = Warehouse
  import I = RustWarehouseInvariant
  import P = RustWarehouseProgress

  // ----- statements left before a call next takes effect -----

  function Offset(pc: Pc): nat {
    match pc
    case Idle => 3
    case EnterWait => 2
    case WaitLocked => 1
    case Lowered => 4
    case Sleeping => 0
    case Woken => 2
    case Relocked => 1
    case EnterPost => 2
    case PostLocked => 1
    case Raised => 0
    case PostDone => 4
  }

  ghost function Offsets(m: Fine): nat {
    Sum(m.threads, Offset)
  }

  /** Where a call takes effect the offsets may rise a little, everywhere else they fall. */
  predicate OffsetsMove(before: nat, after: nat, visible: bool) {
    if visible then after <= before + 6 else after + 1 <= before
  }

  lemma WaitingOffsets(m: Fine, t: nat, m': Fine)
    requires Waited(m, t, m') && MayWait(m.threads[t])
    ensures OffsetsMove(Offsets(m), Offsets(m'), m.threads[t] == WaitLocked || m.threads[t] == Relocked)
  {
    assert m'.threads == m.threads[t := m'.threads[t]];
    SumUpdate(m.threads, t, m'.threads[t], Offset);
  }

  lemma PostingOffsets(m: Fine, t: nat, wake: nat, waiters: nat, m': Fine)
    requires Posted(m, t, wake, waiters, m') && MayPost(m.threads[t])
    ensures OffsetsMove(Offsets(m), Offsets(m'), m.threads[t] == Raised)
  {
    var moved := m.threads[t := m'.threads[t]];
    SumUpdate(m.threads, t, m'.threads[t], Offset);
    if Wakes(m, t) {
      assert m'.threads == moved[wake := Woken];
      SumUpdate(moved, wake, Woken, Offset);
    } else {
      assert m'.threads == moved;
    }
  }

  lemma StirOffsets(m: Fine, t: nat, waiters: nat)
    requires Roles(m, waiters) && FineStep(m, Stir(t)).Some?
    ensures Offsets(FineStep(m, Stir(t)).value) <= Offsets(m) + 6
  {
    SumUpdate(m.threads, t, Woken, Offset);
  }

  ghost function AllOffsets(s: State): nat {
    Offsets(s.empty) + Offsets(s.full)
  }

  lemma ProducerWaitOffsets(s: State, i: nat, random: nat, wake: nat, t: State)
    requires Steps.ProducerWaited(s, i, t) && MayWait(s.empty.threads[i])
    ensures OffsetsMove(AllOffsets(s), AllOffsets(t), Visible(s, R.ProducerMoves(i, random, wake)))
  {
    WaitingOffsets(s.empty, i, t.empty);
  }

  lemma ProducerPostOffsets(s: State, i: nat, random: nat, wake: nat, t: State)
    requires Steps.ProducerPosted(s, i, wake, t)
    requires var pc := s.full.threads[|s.consumers| + i]; MayPost(pc)
    ensures OffsetsMove(AllOffsets(s), AllOffsets(t), Visible(s, R.ProducerMoves(i, random, wake)))
  {
    PostingOffsets(s.full, |s.consumers| + i, wake, |s.consumers|, t.full);
  }

  lemma ProducerWorkKeepsSemaphores(n: nat, s: State, i: nat, random: nat, wake: nat)
    requires i < |s.producers| && ProducerStep(n, s, i, random, wake).Some?
    requires s.producers[i].pc != W.WaitEmpty && s.producers[i].pc != W.PostFull
    ensures
      var t := ProducerStep(n, s, i, random, wake).value;
      t.empty == s.empty && t.full == s.full
  {
  }

  lemma ProducerOffsets(n: nat, s: State, i: nat, random: nat, wake: nat, t: State)
    requires Inv(s) && i < |s.producers| && ProducerStep(n, s, i, random, wake) == Some(t)
    ensures OffsetsMove(AllOffsets(s), AllOffsets(t), Visible(s, R.ProducerMoves(i, random, wake)))
  {
    match s.producers[i].pc {
      case WaitEmpty =>
        Steps.ProducerWaitsShape(n, s, i, random, wake);
        ProducerWaitOffsets(s, i, random, wake, t);
      case PostFull =>
        Steps.ProducerPostsShape(n, s, i, random, wake);
        ProducerPostOffsets(s, i, random, wake, t);
      case _ => ProducerWorkKeepsSemaphores(n, s, i, random, wake);
    }
  }

  lemma ConsumerWaitOffsets(s: State, j: nat, wake: nat, t: State)
    requires Steps.ConsumerWaited(s, j, t) && MayWait(s.full.threads[j])
    ensures OffsetsMove(AllOffsets(s), AllOffsets(t), Visible(s, R.ConsumerMoves(j, wake)))
  {
    WaitingOffsets(s.full, j, t.full);
  }

  lemma ConsumerPostOffsets(s: State, j: nat, wake: nat, t: State)
    requires Steps.ConsumerPosted(s, j, wake, t)
    requires var pc := s.empty.threads[|s.producers| + j]; MayPost(pc)
    ensures OffsetsMove(AllOffsets(s), AllOffsets(t), Visible(s, R.ConsumerMoves(j, wake)))
  {
    PostingOffsets(s.empty, |s.producers| + j, wake, |s.producers|, t.empty);
  }

  lemma ConsumerWorkKeepsSemaphores(n: nat, s: State, j: nat, wake: nat)
    requires j < |s.consumers| && ConsumerStep(n, s, j, wake).Some?
    requires s.consumers[j].pc != W.WaitFull && s.consumers[j].pc != W.PostEmpty
    ensures
      var t := ConsumerStep(n, s, j, wake).value;
      t.empty == s.empty && t.full == s.full
  {
  }

  lemma ConsumerOffsets(n: nat, s: State, j: nat, wake: nat, t: State)
    requires Inv(s) && j < |s.consumers| && ConsumerStep(n, s, j, wake) == Some(t)
    ensures OffsetsMove(AllOffsets(s), AllOffsets(t), Visible(s, R.ConsumerMoves(j, wake)))
  {
    match s.consumers[j].pc {
      case WaitFull =>
        Steps.ConsumerWaitsShape(n, s, j, wake);
        ConsumerWaitOffsets(s, j, wake, t);
      case PostEmpty =>
        Steps.ConsumerPostsShape(n, s, j, wake);
        ConsumerPostOffsets(s, j, wake, t);
      case _ => ConsumerWorkKeepsSemaphores(n, s, j, wake);
    }
  }

  lemma StepOffsets(n: nat, s: State, l: R.Label)
    requires Inv(s) && Step(n, s, l).Some?
    ensures OffsetsMove(AllOffsets(s), AllOffsets(Step(n, s, l).value), Visible(s, l))
  {
    match l {
      case ProducerMoves(i, random, wake) => ProducerOffsets(n, s, i, random, wake, Step(n, s, l).value);
      case ConsumerMoves(j, wake) => ConsumerOffsets(n, s, j, wake, Step(n, s, l).value);
      case SpuriousProducer(i) => StirOffsets(s.empty, i, |s.producers|);
      case SpuriousConsumer(j) => StirOffsets(s.full, j, |s.consumers|);
    }
  }

  // ----- pace -----

  function Operations(s: State): nat {
    |s.ring.added| + |s.ring.removed|
  }

  /** What the coarser machine has left, eightfold, and the statements in between. */
  ghost function Rank(n: nat, s: State): nat {
    8 * P.Rank(n, Abs(s)) + AllOffsets(s)
  }

  ghost predicate FineInv(n: nat, p: nat, c: nat, s: State) {
    Inv(s) && I.Inv(n, p, c, Abs(s))
  }

  lemma StepKeepsFineInv(n: nat, p: nat, c: nat, s: State, l: R.Label)
    requires FineInv(n, p, c, s) && Step(n, s, l).Some?
    ensures FineInv(n, p, c, Step(n, s, l).value)
  {
    Steps.StepRefinesSections(n, s, l);
    if Visible(s, l) {
      I.StepKeepsInv(n, p, c, View(s), l);
    }
  }

  /** How the rank of the coarser machine moves. */
  lemma CoarsePaced(n: nat, p: nat, c: nat, s: State, l: R.Label, before: nat, after: nat, cost: nat)
    requires FineInv(n, p, c, s) && Step(n, s, l).Some? && cost == 2 * n + 20
    requires before == P.Rank(n, Abs(s)) && after == P.Rank(n, Abs(Step(n, s, l).value))
    ensures
      var t := Step(n, s, l).value;
      && Operations(s) <= Operations(t) <= Operations(s) + 1
      && (if Visible(s, l) then after + 1 <= before + (if Operations(t) == Operations(s) then 0 else cost)
          else after == before && Operations(t) == Operations(s))
  {
    Steps.StepRefinesSections(n, s, l);
    if Visible(s, l) {
      P.StepPaced(n, p, c, View(s), l);
    }
  }

  lemma StepPaced(n: nat, p: nat, c: nat, s: State, l: R.Label, cost: nat)
    requires FineInv(n, p, c, s) && Step(n, s, l).Some? && cost == 16 * n + 160
    ensures
      var t := Step(n, s, l).value;
      && Operations(s) <= Operations(t) <= Operations(s) + 1
      && Rank(n, t) + 1 <= Rank(n, s) + (if Operations(t) == Operations(s) then 0 else cost)
  {
    var t := Step(n, s, l).value;
    CoarsePaced(n, p, c, s, l, P.Rank(n, Abs(s)), P.Rank(n, Abs(t)), 2 * n + 20);
    StepOffsets(n, s, l);
  }

  ghost function InvOf(n: nat, p: nat, c: nat): State -> bool {
    s => FineInv(n, p, c, s)
  }

  ghost function RankOf(n: nat): State -> nat {
    s => Rank(n, s)
  }

  lemma MachineIsPaced(n: nat, p: nat, c: nat, cost: nat)
    requires cost == 16 * n + 160
    ensures Paced(Machine(n), InvOf(n, p, c), RankOf(n), Operations, cost)
  {
    forall s, l | InvOf(n, p, c)(s) && Machine(n)(s, l).Some?
      ensures
        var t := Machine(n)(s, l).value;
        && InvOf(n, p, c)(t) && Operations(s) <= Operations(t) <= Operations(s) + 1
        && RankOf(n)(t) + 1 <= RankOf(n)(s) + (if Operations(t) == Operations(s) then 0 else cost)
    {
      StepKeepsFineInv(n, p, c, s, l);
      StepPaced(n, p, c, s, l, cost);
    }
  }

  /** Without an add or a remove a run is no longer than this. */
  function Idleness(n: nat, p: nat, c: nat): nat {
    8 * P.Idle(n, p, c) + 8 * (p + c)
  }

  lemma OffsetsBound(s: State)
    requires Sized(s)
    ensures AllOffsets(s) <= 8 * (|s.producers| + |s.consumers|)
  {
    SumAtMost(s.empty.threads, Offset, 4);
    SumAtMost(s.full.threads, Offset, 4);
  }

  lemma ReachableRank(n: nat, p: nat, c: nat, labels: seq<R.Label>, s: State, idle: nat)
    requires Reachable(n, p, c, labels, s) && idle == P.Idle(n, p, c)
    ensures InvOf(n, p, c)(s) && RankOf(n)(s) <= 8 * idle + 8 * (p + c)
  {
    RefinesRustWarehouse(n, p, c, labels, s);
    I.ReachableInv(n, p, c, SectionRun(n, p, c, labels), Abs(s));
    P.ReachableRank(n, p, c, SectionRun(n, p, c, labels), Abs(s), idle);
    OffsetsBound(s);
  }

  lemma ManyOperations(n: nat, p: nat, c: nat, s: State, after: seq<R.Label>, t: State, bound: nat, cost: nat, m: nat)
    requires InvOf(n, p, c)(s) && Exec(Machine(n), s, after) == Some(t)
    requires RankOf(n)(s) <= bound && cost == 16 * n + 160 && |after| > bound + Times(cost, m)
    ensures Operations(t) > Operations(s) + m
  {
    MachineIsPaced(n, p, c, cost);
    PaceForcesWork(Machine(n), InvOf(n, p, c), RankOf(n), Operations, cost, bound, m, s, after);
  }

  // ----- both an add and a remove -----

  lemma RunRefines(n: nat, s: State, after: seq<R.Label>, t: State)
    requires Inv(s) && Exec(Machine(n), s, after) == Some(t)
    ensures Inv(t) && Exec(R.Machine(n), Abs(s), Image(Machine(n), SectionsOf, s, after)) == Some(Abs(t))
  {
    MachineSimulates(n);
    Simulation(Machine(n), R.Machine(n), Inv, Abs, SectionsOf, s, after);
  }

  function Strays(s: State): nat {
    s.empty.spurious + s.full.spurious
  }

  /** Any n + 1 consecutive buffer operations contain an add and a remove, and with k spurious wake-ups any
      n + k + 1. */
  lemma AddsAndRemovesAlternate(n: nat, p: nat, c: nat, before: seq<R.Label>, s: State, after: seq<R.Label>, t: State)
    requires Reachable(n, p, c, before, s) && Exec(Machine(n), s, after) == Some(t)
    requires Operations(t) > Operations(s) + n + Strays(t)
    ensures s.ring.added < t.ring.added && s.ring.removed < t.ring.removed
  {
    RefinesRustWarehouse(n, p, c, before, s);
    RunRefines(n, s, after, t);
    P.AddsAndRemovesAlternate(n, p, c, SectionRun(n, p, c, before), Abs(s), Image(Machine(n), SectionsOf, s, after), Abs(t));
  }

  /** Statements within which the warehouse must both add and remove, with k spurious wake-ups. */
  function Patience(n: nat, p: nat, c: nat, k: nat): nat {
    Idleness(n, p, c) + Times(16 * n + 160, n + k)
  }

  lemma PatienceIs(n: nat, p: nat, c: nat, k: nat) returns (idle: nat, bound: nat, cost: nat, m: nat)
    ensures idle == P.Idle(n, p, c) && bound == 8 * idle + 8 * (p + c) && cost == 16 * n + 160 && m == n + k
    ensures Patience(n, p, c, k) == bound + Times(cost, m)
  {
    idle, cost, m := P.Idle(n, p, c), 16 * n + 160, n + k;
    bound := 8 * idle + 8 * (p + c);
  }

  lemma LongRunsOperate(
    n: nat, p: nat, c: nat, before: seq<R.Label>, s: State, after: seq<R.Label>, t: State, idle: nat, bound: nat, cost: nat, m: nat)
    requires Reachable(n, p, c, before, s) && Exec(Machine(n), s, after) == Some(t) && idle == P.Idle(n, p, c)
    requires bound == 8 * idle + 8 * (p + c) && cost == 16 * n + 160 && |after| > bound + Times(cost, m)
    ensures Operations(t) > Operations(s) + m
  {
    ReachableRank(n, p, c, before, s, idle);
    ManyOperations(n, p, c, s, after, t, bound, cost, m);
  }

  lemma LongRunsAddAndRemove(
    n: nat, p: nat, c: nat, before: seq<R.Label>, s: State, after: seq<R.Label>, t: State, idle: nat, bound: nat, cost: nat, m: nat)
    requires Reachable(n, p, c, before, s) && Exec(Machine(n), s, after) == Some(t) && m == n + Strays(t)
    requires idle == P.Idle(n, p, c) && bound == 8 * idle + 8 * (p + c)
    requires cost == 16 * n + 160 && |after| > bound + Times(cost, m)
    ensures s.ring.added < t.ring.added && s.ring.removed < t.ring.removed
  {
    LongRunsOperate(n, p, c, before, s, after, t, idle, bound, cost, m);
    AddsAndRemovesAlternate(n, p, c, before, s, after, t);
  }

  /** From every reachable state, every schedule of this many statements has added an item and removed an item; no
      fairness is assumed of the scheduler, of the mutexes or of notify_one. */
  lemma EveryScheduleMakesProgress(
    n: nat, p: nat, c: nat, before: seq<R.Label>, s: State, after: seq<R.Label>, t: State)
    requires Reachable(n, p, c, before, s) && Exec(Machine(n), s, after) == Some(t)
    requires |after| > Patience(n, p, c, Strays(t))
    ensures s.ring.added < t.ring.added && s.ring.removed < t.ring.removed
  {
    var idle, bound, cost, m := PatienceIs(n, p, c, Strays(t));
    LongRunsAddAndRemove(n, p, c, before, s, after, t, idle, bound, cost, m);
  }
}

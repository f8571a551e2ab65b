/** The C++ warehouse (ProducerConsumer::Semaphore in cpp/include/buffer.hh): the same semaphores
    and indices, slots that carry no items, and a `running` flag that a signal may clear at any
    moment. The consumer clears the slot after the one it has consumed, so slots track occupancy only
    up to the oldest item; tokens, lock and indices are exact. */
module CppWarehouse {
  import opened Transitions
  import opened RingArith
  import opened Sums

  datatype Slot = EMPTY | TAKEN | RECENTLY

  datatype ProducerPc = TestRunning | WaitEmpty | WaitLock | Store | Advance | PostLock | PostFull | Stopped
  datatype ConsumerPc = CheckRunning | WaitFull | AwaitLock | Mark | Retire | Clear | ReleaseLock | PostEmpty | Ended

  datatype Holder = Nobody | ByProducer(i: nat) | ByConsumer(j: nat)

  /** `added` and `removed` count the index bumps; `seen` is the value of `added` at the last removal. */
  datatype State = State(
    running: bool, empty: nat, full: nat, lock: nat, holder: Holder,
    slots: seq<Slot>, producerIdx: nat, consumerIdx: nat, added: nat, removed: nat, seen: nat,
    producers: seq<ProducerPc>, consumers: seq<ConsumerPc>)

  datatype Label = ProducerMoves(i: nat) | ConsumerMoves(j: nat) | Interrupt

  function Init(n: nat, p: nat, c: nat): State {
    State(true, n, 0, 1, Nobody, seq(n, _ => EMPTY), 0, 0, 0, 0, 0, seq(p, _ => TestRunning), seq(c, _ => CheckRunning))
  }

  function ProducerStep(s: State, i: nat): Option<State>
    requires i < |s.producers|
  {
    match s.producers[i]
    case TestRunning => Some(s.(producers := s.producers[i := if s.running then WaitEmpty else Stopped]))
    case WaitEmpty =>
      if s.empty > 0 then Some(s.(empty := s.empty - 1, producers := s.producers[i := WaitLock])) else None
    case WaitLock =>
      if s.lock > 0
      then Some(s.(lock := s.lock - 1, holder := ByProducer(i), producers := s.producers[i := Store]))
      else None
    case Store =>
      if s.producerIdx < |s.slots|
      then Some(s.(slots := s.slots[s.producerIdx := TAKEN], producers := s.producers[i := Advance]))
      else None
    case Advance =>
      if |s.slots| > 0
      then Some(s.(producerIdx := (s.producerIdx + 1) % |s.slots|, added := s.added + 1,
                   producers := s.producers[i := PostLock]))
      else None
    case PostLock => Some(s.(lock := s.lock + 1, holder := Nobody, producers := s.producers[i := PostFull]))
    case PostFull => Some(s.(full := s.full + 1, producers := s.producers[i := TestRunning]))
    case Stopped => None
  }

  function ConsumerStep(s: State, j: nat): Option<State>
    requires j < |s.consumers|
  {
    match s.consumers[j]
    case CheckRunning => Some(s.(consumers := s.consumers[j := if s.running then WaitFull else Ended]))
    case WaitFull =>
      if s.full > 0 then Some(s.(full := s.full - 1, consumers := s.consumers[j := AwaitLock])) else None
    case AwaitLock =>
      if s.lock > 0
      then Some(s.(lock := s.lock - 1, holder := ByConsumer(j), consumers := s.consumers[j := Mark]))
      else None
    case Mark =>
      if s.consumerIdx < |s.slots|
      then Some(s.(slots := s.slots[s.consumerIdx := RECENTLY], consumers := s.consumers[j := Retire]))
      else None
    case Retire =>
      if |s.slots| > 0
      then Some(s.(consumerIdx := (s.consumerIdx + 1) % |s.slots|, removed := s.removed + 1, seen := s.added,
                   consumers := s.consumers[j := Clear]))
      else None
    case Clear =>
      if s.consumerIdx < |s.slots|
      then Some(s.(slots := s.slots[s.consumerIdx := EMPTY], consumers := s.consumers[j := ReleaseLock]))
      else None
    case ReleaseLock => Some(s.(lock := s.lock + 1, holder := Nobody, consumers := s.consumers[j := PostEmpty]))
    case PostEmpty => Some(s.(empty := s.empty + 1, consumers := s.consumers[j := CheckRunning]))
    case Ended => None
  }

  function Step(s: State, l: Label): Option<State> {
    match l
    case ProducerMoves(i) => if i < |s.producers| then ProducerStep(s, i) else None
    case ConsumerMoves(j) => if j < |s.consumers| then ConsumerStep(s, j) else None
    case Interrupt => Some(s.(running := false))
  }

  predicate ProducerInside(pc: ProducerPc) {
    pc.Store? || pc.Advance? || pc.PostLock?
  }

  predicate ConsumerInside(pc: ConsumerPc) {
    pc.Mark? || pc.Retire? || pc.Clear? || pc.ReleaseLock?
  }

  function ProducerIn(pc: ProducerPc): nat { if ProducerInside(pc) then 1 else 0 }
  function ConsumerIn(pc: ConsumerPc): nat { if ConsumerInside(pc) then 1 else 0 }
  function Reserved(pc: ProducerPc): nat { if pc.WaitLock? || pc.Store? || pc.Advance? then 1 else 0 }
  function Stored(pc: ProducerPc): nat { if pc.PostLock? || pc.PostFull? then 1 else 0 }
  function Claimed(pc: ConsumerPc): nat { if pc.AwaitLock? || pc.Mark? || pc.Retire? then 1 else 0 }
  function Freed(pc: ConsumerPc): nat { if pc.Clear? || pc.ReleaseLock? || pc.PostEmpty? then 1 else 0 }

  /** Between the first wait and the last post of a loop iteration. */
  function ProducerBusy(pc: ProducerPc): nat { if pc.TestRunning? || pc.WaitEmpty? || pc.Stopped? then 0 else 1 }
  function ConsumerBusy(pc: ConsumerPc): nat { if pc.CheckRunning? || pc.WaitFull? || pc.Ended? then 0 else 1 }

  ghost predicate Tokens(n: nat, s: State) {
    && s.added - s.removed == s.full + Sum(s.producers, Stored) + Sum(s.consumers, Claimed)
    && n == s.empty + Sum(s.producers, Reserved) + Sum(s.consumers, Freed) + s.added - s.removed
  }

  ghost predicate Locked(s: State) {
    && s.lock == (if s.holder == Nobody then 1 else 0)
    && (s.holder.ByProducer? ==> s.holder.i < |s.producers|)
    && (s.holder.ByConsumer? ==> s.holder.j < |s.consumers|)
    && (forall i :: 0 <= i < |s.producers| ==> (ProducerInside(s.producers[i]) <==> s.holder == ByProducer(i)))
    && (forall j :: 0 <= j < |s.consumers| ==> (ConsumerInside(s.consumers[j]) <==> s.holder == ByConsumer(j)))
  }

  ghost predicate Indices(n: nat, s: State) {
    n > 0 && |s.slots| == n && s.producerIdx == Wrap(n, s.added) && s.consumerIdx == Wrap(n, s.removed)
  }

  ghost predicate Inv(n: nat, s: State) {
    Tokens(n, s) && Locked(s) && Indices(n, s)
  }

  lemma ProducerBalance(s: State, i: nat)
    requires i < |s.producers| && ProducerStep(s, i).Some?
    ensures
      var t := ProducerStep(s, i).value;
      && |t.producers| == |s.producers| && t.consumers == s.consumers && t.producers == s.producers[i := t.producers[i]]
      && t.removed == s.removed
      && t.added - s.added == t.full - s.full + Stored(t.producers[i]) - Stored(s.producers[i])
      && t.empty + Reserved(t.producers[i]) + t.added == s.empty + Reserved(s.producers[i]) + s.added
  {
  }

  lemma ConsumerBalance(s: State, j: nat)
    requires j < |s.consumers| && ConsumerStep(s, j).Some?
    ensures
      var t := ConsumerStep(s, j).value;
      && |t.consumers| == |s.consumers| && t.producers == s.producers && t.consumers == s.consumers[j := t.consumers[j]]
      && t.added == s.added
      && s.removed - t.removed == t.full - s.full + Claimed(t.consumers[j]) - Claimed(s.consumers[j])
      && t.empty + Freed(t.consumers[j]) - t.removed == s.empty + Freed(s.consumers[j]) - s.removed
  {
  }

  lemma StepKeepsTokens(n: nat, s: State, l: Label)
    requires Tokens(n, s) && Step(s, l).Some?
    ensures Tokens(n, Step(s, l).value)
  {
    match l {
      case ProducerMoves(i) =>
        ProducerBalance(s, i);
        var pc := ProducerStep(s, i).value.producers[i];
        SumUpdate(s.producers, i, pc, Reserved);
        SumUpdate(s.producers, i, pc, Stored);
      case ConsumerMoves(j) =>
        ConsumerBalance(s, j);
        var pc := ConsumerStep(s, j).value.consumers[j];
        SumUpdate(s.consumers, j, pc, Claimed);
        SumUpdate(s.consumers, j, pc, Freed);
      case Interrupt =>
    }
  }

  lemma ProducerKeepsLocked(s: State, i: nat)
    requires Locked(s) && i < |s.producers| && ProducerStep(s, i).Some?
    ensures Locked(ProducerStep(s, i).value)
  {
  }

  lemma ConsumerKeepsLocked(s: State, j: nat)
    requires Locked(s) && j < |s.consumers| && ConsumerStep(s, j).Some?
    ensures Locked(ConsumerStep(s, j).value)
  {
  }

  lemma StepKeepsLocked(s: State, l: Label)
    requires Locked(s) && Step(s, l).Some?
    ensures Locked(Step(s, l).value)
  {
    match l {
      case ProducerMoves(i) => ProducerKeepsLocked(s, i);
      case ConsumerMoves(j) => ConsumerKeepsLocked(s, j);
      case Interrupt =>
    }
  }

  lemma StepKeepsIndices(n: nat, s: State, l: Label)
    requires Indices(n, s) && Step(s, l).Some?
    ensures Indices(n, Step(s, l).value)
  {
    WrapNext(n, s.added);
    WrapNext(n, s.removed);
  }

  lemma StepKeepsInv(n: nat, s: State, l: Label)
    requires Inv(n, s) && Step(s, l).Some?
    ensures Inv(n, Step(s, l).value)
  {
    StepKeepsTokens(n, s, l);
    StepKeepsLocked(s, l);
    StepKeepsIndices(n, s, l);
  }

  ghost predicate Reachable(n: nat, p: nat, c: nat, labels: seq<Label>, s: State) {
    n > 0 && Exec(Step, Init(n, p, c), labels) == Some(s)
  }

  lemma ReachableInv(n: nat, p: nat, c: nat, labels: seq<Label>, s: State)
    requires Reachable(n, p, c, labels, s)
    ensures Inv(n, s)
  {
    var s0 := Init(n, p, c);
    SumZero(s0.producers, Stored);
    SumZero(s0.producers, Reserved);
    SumZero(s0.consumers, Claimed);
    SumZero(s0.consumers, Freed);
    forall s, l | Inv(n, s) && Step(s, l).Some?
      ensures Inv(n, Step(s, l).value)
    {
      StepKeepsInv(n, s, l);
    }
    Invariance(Step, s => Inv(n, s), s0, labels);
  }

  /** Whenever `running` is cleared: tokens are conserved, the lock excludes, the indices are the
      operation counts modulo n, and the counts never differ by more than n. */
  lemma SafeAcrossInterrupts(n: nat, p: nat, c: nat, labels: seq<Label>, s: State)
    requires Reachable(n, p, c, labels, s)
    ensures s.empty + s.full + Sum(s.producers, ProducerBusy) + Sum(s.consumers, ConsumerBusy) == n
    ensures s.lock + Sum(s.producers, ProducerIn) + Sum(s.consumers, ConsumerIn) == 1
    ensures |s.slots| == n && s.producerIdx == s.added % n && s.consumerIdx == s.removed % n
    ensures 0 <= s.added - s.removed <= n
  {
    ReachableInv(n, p, c, labels, s);
    SumSplit(s.producers, ProducerBusy, Reserved, Stored);
    SumSplit(s.consumers, ConsumerBusy, Claimed, Freed);
    match s.holder {
      case Nobody => SumZero(s.producers, ProducerIn); SumZero(s.consumers, ConsumerIn);
      case ByProducer(i) => SumSingle(s.producers, i, ProducerIn); SumZero(s.consumers, ConsumerIn);
      case ByConsumer(j) => SumZero(s.producers, ProducerIn); SumSingle(s.consumers, j, ConsumerIn);
    }
  }

  // ----- what the slots say -----

  function SlotOf(s: State, k: nat): Slot
    requires |s.slots| > 0
  {
    s.slots[Wrap(|s.slots|, k)]
  }

  function HolderPc(s: State): ConsumerPc {
    if s.holder.ByConsumer? && s.holder.j < |s.consumers| then s.consumers[s.holder.j] else CheckRunning
  }

  /** The slot of the oldest position. */
  function Head(s: State): Slot {
    match HolderPc(s)
    case Retire => RECENTLY
    case Clear => TAKEN
    case _ => if s.removed < s.seen then EMPTY else TAKEN
  }

  ghost predicate Slots(s: State) {
    && |s.slots| > 0 && s.seen <= s.added && s.seen < s.removed + |s.slots|
    && (HolderPc(s) == Clear ==> s.seen == s.added)
    && (s.removed < s.added ==> SlotOf(s, s.removed) == Head(s))
    && (forall k :: s.removed < k < s.added ==> SlotOf(s, k) == TAKEN)
    && (s.holder.ByProducer? && s.holder.i < |s.producers| && s.producers[s.holder.i] == Advance ==> SlotOf(s, s.added) == TAKEN)
  }

  lemma Room(n: nat, s: State, i: nat)
    requires Inv(n, s) && i < |s.producers| && Reserved(s.producers[i]) == 1
    ensures s.added - s.removed < n
  {
    SumAtLeast(s.producers, i, Reserved);
  }

  lemma Stock(n: nat, s: State, j: nat)
    requires Inv(n, s) && j < |s.consumers| && Claimed(s.consumers[j]) == 1
    ensures s.removed < s.added <= s.removed + n
  {
    SumAtLeast(s.consumers, j, Claimed);
  }

  lemma StoreKeepsSlots(n: nat, s: State, i: nat)
    requires Inv(n, s) && Slots(s) && i < |s.producers| && s.producers[i] == Store && ProducerStep(s, i).Some?
    ensures Slots(ProducerStep(s, i).value)
  {
    Room(n, s, i);
    var t := ProducerStep(s, i).value;
    forall k | s.removed <= k < s.added
      ensures SlotOf(t, k) == SlotOf(s, k)
    {
      WrapDistinct(n, k, s.added);
    }
  }

  lemma MarkKeepsSlots(n: nat, s: State, j: nat)
    requires Inv(n, s) && Slots(s) && j < |s.consumers| && s.consumers[j] == Mark && ConsumerStep(s, j).Some?
    ensures Slots(ConsumerStep(s, j).value)
  {
    Stock(n, s, j);
    var t := ConsumerStep(s, j).value;
    forall k | s.removed < k < s.added
      ensures SlotOf(t, k) == SlotOf(s, k)
    {
      WrapDistinct(n, s.removed, k);
    }
  }

  lemma RetireKeepsSlots(n: nat, s: State, j: nat)
    requires Inv(n, s) && Slots(s) && j < |s.consumers| && s.consumers[j] == Retire && ConsumerStep(s, j).Some?
    ensures Slots(ConsumerStep(s, j).value)
  {
    Stock(n, s, j);
    var t := ConsumerStep(s, j).value;
    assert t.slots == s.slots && HolderPc(t) == Clear;
    assert forall k :: s.removed < k < s.added ==> SlotOf(t, k) == SlotOf(s, k);
  }

  lemma ClearKeepsSlots(n: nat, s: State, j: nat)
    requires Inv(n, s) && Slots(s) && j < |s.consumers| && s.consumers[j] == Clear && ConsumerStep(s, j).Some?
    ensures Slots(ConsumerStep(s, j).value)
  {
    var t := ConsumerStep(s, j).value;
    assert t.slots == s.slots[Wrap(n, s.removed) := EMPTY] && HolderPc(t) == ReleaseLock;
    SumAtLeast(s.consumers, j, Freed);
    forall k | s.removed < k < s.added
      ensures SlotOf(t, k) == SlotOf(s, k)
    {
      WrapDistinct(n, s.removed, k);
    }
  }

  lemma AdvanceKeepsSlots(n: nat, s: State, i: nat)
    requires Inv(n, s) && Slots(s) && i < |s.producers| && s.producers[i] == Advance && ProducerStep(s, i).Some?
    ensures Slots(ProducerStep(s, i).value)
  {
    var t := ProducerStep(s, i).value;
    assert t.slots == s.slots && t.added == s.added + 1;
    assert forall k: nat :: SlotOf(t, k) == SlotOf(s, k);
  }

  /** Steps that write no slot and move no index, by what they do to the lock. */
  lemma SameSlots(s: State, t: State)
    requires Slots(s) && t.slots == s.slots && t.added == s.added && t.removed == s.removed && t.seen == s.seen
    requires Head(t) == Head(s) && (HolderPc(t) == Clear ==> HolderPc(s) == Clear)
    requires t.holder.ByProducer? && t.holder.i < |t.producers| && t.producers[t.holder.i] == Advance ==>
               s.holder == t.holder && s.holder.i < |s.producers| && s.producers[s.holder.i] == Advance
    ensures Slots(t)
  {
    assert forall k: nat :: SlotOf(t, k) == SlotOf(s, k);
  }

  lemma ProducerKeepsSlots(n: nat, s: State, i: nat)
    requires Inv(n, s) && Slots(s) && i < |s.producers| && ProducerStep(s, i).Some?
    requires s.producers[i] != Store && s.producers[i] != Advance
    ensures Slots(ProducerStep(s, i).value)
  {
    SameSlots(s, ProducerStep(s, i).value);
  }

  lemma ConsumerKeepsSlots(n: nat, s: State, j: nat)
    requires Inv(n, s) && Slots(s) && j < |s.consumers| && ConsumerStep(s, j).Some?
    requires s.consumers[j] != Mark && s.consumers[j] != Retire && s.consumers[j] != Clear
    ensures Slots(ConsumerStep(s, j).value)
  {
    SameSlots(s, ConsumerStep(s, j).value);
  }

  lemma StepKeepsSlots(n: nat, s: State, l: Label)
    requires Inv(n, s) && Slots(s) && Step(s, l).Some?
    ensures Slots(Step(s, l).value)
  {
    match l {
      case ProducerMoves(i) =>
        match s.producers[i] {
          case Store => StoreKeepsSlots(n, s, i);
          case Advance => AdvanceKeepsSlots(n, s, i);
          case _ => ProducerKeepsSlots(n, s, i);
        }
      case ConsumerMoves(j) =>
        match s.consumers[j] {
          case Mark => MarkKeepsSlots(n, s, j);
          case Retire => RetireKeepsSlots(n, s, j);
          case Clear => ClearKeepsSlots(n, s, j);
          case _ => ConsumerKeepsSlots(n, s, j);
        }
      case Interrupt => SameSlots(s, Step(s, l).value);
    }
  }

  lemma ReachableSlots(n: nat, p: nat, c: nat, labels: seq<Label>, s: State)
    requires Reachable(n, p, c, labels, s)
    ensures Inv(n, s) && Slots(s)
  {
    ReachableInv(n, p, c, [], Init(n, p, c));
    forall s, l | Inv(n, s) && Slots(s) && Step(s, l).Some?
      ensures Inv(n, Step(s, l).value) && Slots(Step(s, l).value)
    {
      StepKeepsInv(n, s, l);
      StepKeepsSlots(n, s, l);
    }
    Invariance(Step, s => Inv(n, s) && Slots(s), Init(n, p, c), labels);
  }

  /** With the lock free every occupied slot but the oldest is TAKEN, and the oldest is not if and only
      if the last removal left items behind: then the clear has emptied it. */
  lemma OnlyHeadIsCleared(n: nat, p: nat, c: nat, labels: seq<Label>, s: State)
    requires Reachable(n, p, c, labels, s) && s.lock == 1
    ensures |s.slots| == n
    ensures forall k :: s.removed < k < s.added ==> SlotOf(s, k) == TAKEN
    ensures s.removed < s.added ==> SlotOf(s, s.removed) == (if s.removed < s.seen then EMPTY else TAKEN)
  {
    ReachableSlots(n, p, c, labels, s);
  }

  // ----- the counts and the operations -----

  datatype Op = Add | Remove

  /** The buffer operation a step completes. */
  function OpsOf(s: State, l: Label): seq<Op> {
    match l
    case ProducerMoves(i) => if i < |s.producers| && s.producers[i] == Advance then [Add] else []
    case ConsumerMoves(j) => if j < |s.consumers| && s.consumers[j] == Retire then [Remove] else []
    case Interrupt => []
  }

  function IsAdd(op: Op): bool { op.Add? }
  function IsRemove(op: Op): bool { op.Remove? }

  /** The operations up to and including the last removal. */
  function ThroughLastRemove(ops: seq<Op>): seq<Op> {
    if ops == [] then [] else if ops[|ops| - 1].Remove? then ops else ThroughLastRemove(ops[..|ops| - 1])
  }

  lemma {:induction false} OneMoreOp(ops: seq<Op>, op: Op, kind: Op -> bool)
    ensures HowMany(ops + [op], kind) == HowMany(ops, kind) + (if kind(op) then 1 else 0)
  {
    if ops == [] {
      assert ops + [op] == [op] && [op][1..] == [];
    } else {
      assert (ops + [op])[1..] == ops[1..] + [op];
      OneMoreOp(ops[1..], op, kind);
    }
  }

  ghost predicate CountsOps(s: State, ops: seq<Op>) {
    && s.added == HowMany(ops, IsAdd) && s.removed == HowMany(ops, IsRemove)
    && s.seen == HowMany(ThroughLastRemove(ops), IsAdd)
  }

  lemma OpsEffect(s: State, l: Label)
    requires Step(s, l).Some?
    ensures
      var t, now := Step(s, l).value, OpsOf(s, l);
      || (now == [] && t.added == s.added && t.removed == s.removed && t.seen == s.seen)
      || (now == [Add] && t.added == s.added + 1 && t.removed == s.removed && t.seen == s.seen)
      || (now == [Remove] && t.added == s.added && t.removed == s.removed + 1 && t.seen == s.added)
  {
  }

  lemma StepCountsOps(s: State, l: Label, ops: seq<Op>)
    requires CountsOps(s, ops) && Step(s, l).Some?
    ensures CountsOps(Step(s, l).value, ops + OpsOf(s, l))
  {
    var now := OpsOf(s, l);
    OpsEffect(s, l);
    if now == [] {
      assert ops + now == ops;
    } else {
      OneMoreOp(ops, now[0], IsAdd);
      OneMoreOp(ops, now[0], IsRemove);
      assert (ops + now)[..|ops + now| - 1] == ops;
    }
  }

  /** `added` and `removed` are the numbers of additions and removals of the run, `seen` the number of
      additions before its last removal; so the head slot shows as EMPTY, with the lock free, exactly when
      more was added before the last removal than has been removed. */
  lemma CountsAreOperations(n: nat, p: nat, c: nat, labels: seq<Label>, s: State)
    requires Reachable(n, p, c, labels, s)
    ensures
      var ops := Image(Step, OpsOf, Init(n, p, c), labels);
      && s.added == HowMany(ops, IsAdd) && s.removed == HowMany(ops, IsRemove)
      && s.seen == HowMany(ThroughLastRemove(ops), IsAdd)
  {
    forall s, l, ops | CountsOps(s, ops) && Step(s, l).Some?
      ensures CountsOps(Step(s, l).value, ops + OpsOf(s, l))
    {
      StepCountsOps(s, l, ops);
    }
    Recording(Step, CountsOps, OpsOf, Init(n, p, c), [], labels);
    var ops := Image(Step, OpsOf, Init(n, p, c), labels);
    assert [] + ops == ops;
  }

  // ----- when the slots track occupancy -----

  lemma Extend(n: nat, p: nat, c: nat, labels: seq<Label>, s: State, l: Label) returns (longer: seq<Label>, t: State)
    requires Reachable(n, p, c, labels, s) && Step(s, l).Some?
    ensures Reachable(n, p, c, longer, t) && Some(t) == Step(s, l)
  {
    longer, t := labels + [l], Step(s, l).value;
    ExecSnoc(Step, Init(n, p, c), labels, l);
  }

  lemma ProducerRound(n: nat, p: nat, c: nat, labels: seq<Label>, s: State) returns (longer: seq<Label>, t: State)
    requires Reachable(n, p, c, labels, s)
    requires s.running && s.empty > 0 && s.lock == 1 && |s.producers| > 0 && s.producers[0] == TestRunning
    ensures Reachable(n, p, c, longer, t)
    ensures
      && t.running && t.empty == s.empty - 1 && t.full == s.full + 1 && t.lock == 1
      && t.added == s.added + 1 && t.removed == s.removed && t.producers == s.producers && t.consumers == s.consumers
  {
    ReachableInv(n, p, c, labels, s);
    longer, t := Extend(n, p, c, labels, s, ProducerMoves(0));
    longer, t := Extend(n, p, c, longer, t, ProducerMoves(0));
    longer, t := Extend(n, p, c, longer, t, ProducerMoves(0));
    longer, t := Extend(n, p, c, longer, t, ProducerMoves(0));
    longer, t := Extend(n, p, c, longer, t, ProducerMoves(0));
    longer, t := Extend(n, p, c, longer, t, ProducerMoves(0));
    longer, t := Extend(n, p, c, longer, t, ProducerMoves(0));
    assert t.producers == s.producers;
  }

  lemma ConsumerSection(n: nat, p: nat, c: nat, labels: seq<Label>, s: State) returns (longer: seq<Label>, t: State)
    requires Reachable(n, p, c, labels, s)
    requires s.running && s.full > 0 && s.lock == 1 && |s.consumers| > 0 && s.consumers[0] == CheckRunning
    ensures Reachable(n, p, c, longer, t)
    ensures t.lock == 1 && t.added == s.added == t.seen && t.removed == s.removed + 1
  {
    ReachableInv(n, p, c, labels, s);
    longer, t := Extend(n, p, c, labels, s, ConsumerMoves(0));
    longer, t := Extend(n, p, c, longer, t, ConsumerMoves(0));
    longer, t := Extend(n, p, c, longer, t, ConsumerMoves(0));
    longer, t := Extend(n, p, c, longer, t, ConsumerMoves(0));
    longer, t := Extend(n, p, c, longer, t, ConsumerMoves(0));
    longer, t := Extend(n, p, c, longer, t, ConsumerMoves(0));
    longer, t := Extend(n, p, c, longer, t, ConsumerMoves(0));
  }

  /** Two additions and one removal: the item left behind shows as EMPTY. */
  lemma ClearHitsOccupiedSlot(n: nat, p: nat, c: nat) returns (labels: seq<Label>, s: State)
    requires n >= 2 && p > 0 && c > 0
    ensures Reachable(n, p, c, labels, s) && s.lock == 1 && s.removed < s.added
    ensures |s.slots| == n && SlotOf(s, s.removed) == EMPTY
  {
    labels, s := [], Init(n, p, c);
    labels, s := ProducerRound(n, p, c, labels, s);
    labels, s := ProducerRound(n, p, c, labels, s);
    labels, s := ConsumerSection(n, p, c, labels, s);
    OnlyHeadIsCleared(n, p, c, labels, s);
  }

  /** With the lock free every occupied slot is TAKEN, in all runs. */
  ghost predicate SlotsTrackOccupancy(n: nat, p: nat, c: nat) {
    forall labels :: Exec(Step, Init(n, p, c), labels).Some? ==>
      var s := Exec(Step, Init(n, p, c), labels).value;
      s.lock == 1 && |s.slots| > 0 ==> forall k :: s.removed <= k < s.added ==> SlotOf(s, k) == TAKEN
  }

  lemma OneSided(n: nat, p: nat, c: nat, labels: seq<Label>, s: State)
    requires Reachable(n, p, c, labels, s)
    ensures |s.producers| == p && |s.consumers| == c
    ensures p == 0 ==> s.added == 0
    ensures c == 0 ==> s.seen == 0
  {
    Invariance(Step, (s: State) => |s.producers| == p && |s.consumers| == c && (p == 0 ==> s.added == 0) && (c == 0 ==> s.seen == 0),
               Init(n, p, c), labels);
  }

  /** Which is so exactly with one slot, or with one side missing. */
  lemma WhenSlotsTrackOccupancy(n: nat, p: nat, c: nat)
    requires n > 0
    ensures SlotsTrackOccupancy(n, p, c) <==> n == 1 || p == 0 || c == 0
  {
    if n >= 2 && p > 0 && c > 0 {
      var labels, s := ClearHitsOccupiedSlot(n, p, c);
      assert Exec(Step, Init(n, p, c), labels).Some?;
      assert SlotOf(s, s.removed) != TAKEN;
    } else {
      forall labels | Exec(Step, Init(n, p, c), labels).Some?
        ensures
          var s := Exec(Step, Init(n, p, c), labels).value;
          s.lock == 1 && |s.slots| > 0 ==> forall k :: s.removed <= k < s.added ==> SlotOf(s, k) == TAKEN
      {
        var s := Exec(Step, Init(n, p, c), labels).value;
        if s.lock == 1 {
          OnlyHeadIsCleared(n, p, c, labels, s);
          ReachableSlots(n, p, c, labels, s);
          OneSided(n, p, c, labels, s);
        }
      }
    }
  }

  // ----- after an interrupt -----

  /** A thread that is past its test of `running` and before its index bump. */
  function MayAdd(pc: ProducerPc): nat { if pc.WaitEmpty? || pc.WaitLock? || pc.Store? || pc.Advance? then 1 else 0 }
  function MayRemove(pc: ConsumerPc): nat { if pc.WaitFull? || pc.AwaitLock? || pc.Mark? || pc.Retire? then 1 else 0 }

  /** How often producer i adds in a run. */
  function AddsBy(s: State, labels: seq<Label>, i: nat): nat
    decreases |labels|
  {
    if labels == [] || Step(s, labels[0]).None? then 0
    else
      (if labels[0] == ProducerMoves(i) && s.producers[i] == Advance then 1 else 0)
      + AddsBy(Step(s, labels[0]).value, labels[1..], i)
  }

  /** How often consumer j removes in a run. */
  function RemovesBy(s: State, labels: seq<Label>, j: nat): nat
    decreases |labels|
  {
    if labels == [] || Step(s, labels[0]).None? then 0
    else
      (if labels[0] == ConsumerMoves(j) && s.consumers[j] == Retire then 1 else 0)
      + RemovesBy(Step(s, labels[0]).value, labels[1..], j)
  }

  lemma StepKeepsSizes(s: State, l: Label)
    requires Step(s, l).Some?
    ensures |Step(s, l).value.producers| == |s.producers| && |Step(s, l).value.consumers| == |s.consumers|
  {
  }

  /** After `running` is cleared no thread begins another round: each producer adds at most once more,
      and only if it had already passed its test. */
  lemma {:induction false} InterruptedProducerFinishesOnce(s: State, labels: seq<Label>, t: State, i: nat)
    requires !s.running && Exec(Step, s, labels) == Some(t) && i < |s.producers|
    ensures |t.producers| == |s.producers|
    ensures AddsBy(s, labels, i) + MayAdd(t.producers[i]) <= MayAdd(s.producers[i])
    decreases |labels|
  {
    if labels != [] {
      StepKeepsSizes(s, labels[0]);
      InterruptedProducerFinishesOnce(Step(s, labels[0]).value, labels[1..], t, i);
    }
  }

  /** And each consumer removes at most once more. */
  lemma {:induction false} InterruptedConsumerFinishesOnce(s: State, labels: seq<Label>, t: State, j: nat)
    requires !s.running && Exec(Step, s, labels) == Some(t) && j < |s.consumers|
    ensures |t.consumers| == |s.consumers|
    ensures RemovesBy(s, labels, j) + MayRemove(t.consumers[j]) <= MayRemove(s.consumers[j])
    decreases |labels|
  {
    if labels != [] {
      StepKeepsSizes(s, labels[0]);
      InterruptedConsumerFinishesOnce(Step(s, labels[0]).value, labels[1..], t, j);
    }
  }
}

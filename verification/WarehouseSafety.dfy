/** What every step of the warehouse keeps, and so every run: tokens are conserved, the lock
    excludes, the ring refines an atomic bounded FIFO queue. */
module WarehouseSafety {
  import opened Transitions
  import opened Ring
  import opened Sums
  import opened Warehouse
  import Fifo

  // ----- who holds which token -----

  predicate ProducerInside(pc: ProducerPc) {
    pc.Pick? || pc.Store? || pc.Advance? || pc.Show? || pc.PostLock?
  }

  predicate ConsumerInside(pc: ConsumerPc) {
    pc.Take? || pc.Mark? || pc.Retire? || pc.Display? || pc.ConsumeLocked? || pc.ReleaseLock?
  }

  /** Has taken an empty slot and not yet added the item. */
  function Reserved(p: Producer): nat {
    if p.pc.WaitLock? || p.pc.Pick? || p.pc.Store? || p.pc.Advance? then 1 else 0
  }

  /** Has added the item and not yet posted `full`. */
  function Stored(p: Producer): nat {
    if p.pc.Show? || p.pc.PostLock? || p.pc.PostFull? then 1 else 0
  }

  /** Has been promised an item and not yet removed it. */
  function Claimed(c: Consumer): nat {
    if c.pc.AwaitLock? || c.pc.Take? || c.pc.Mark? || c.pc.Retire? then 1 else 0
  }

  /** Has removed the item and not yet posted `empty`. */
  function Freed(c: Consumer): nat {
    if c.pc.Display? || c.pc.ConsumeLocked? || c.pc.ReleaseLock? || c.pc.PostEmpty? then 1 else 0
  }

  ghost predicate Tokens(cfg: Config, s: State) {
    && Live(s.ring) == s.full + Sum(s.producers, Stored) + Sum(s.consumers, Claimed)
    && cfg.n == s.empty + Sum(s.producers, Reserved) + Sum(s.consumers, Freed) + Live(s.ring)
  }

  ghost predicate Locked(s: State) {
    && s.lock == (if s.holder == Nobody then 1 else 0)
    && (s.holder.ByProducer? ==> s.holder.i < |s.producers|)
    && (s.holder.ByConsumer? ==> s.holder.j < |s.consumers|)
    && (forall i :: 0 <= i < |s.producers| ==> (ProducerInside(s.producers[i].pc) <==> s.holder == ByProducer(i)))
    && (forall j :: 0 <= j < |s.consumers| ==> (ConsumerInside(s.consumers[j].pc) <==> s.holder == ByConsumer(j)))
  }

  // ----- thread-local facts -----

  ghost predicate ProducerOk(cfg: Config, p: Producer) {
    && (p.pc.Store? || p.pc.Advance? ==> ItemRange(p.item))
    && (cfg.style == CStyle && (p.pc.WaitEmpty? || p.pc.WaitLock?) ==> ItemRange(p.item))
    && (p.pc.Show? ==> p.pc.i <= cfg.n)
  }

  ghost predicate ConsumerOk(cfg: Config, r: Ring, c: Consumer) {
    && (c.pc.Mark? || c.pc.Retire? ==> |r.removed| < |r.added| && c.item == r.added[|r.removed|])
    && (c.pc.Display? || c.pc.ConsumeLocked? || c.pc.ReleaseLock? || c.pc.PostEmpty? || c.pc.Consume? ==> ItemRange(c.item))
    && (c.pc.Display? ==> c.pc.i <= cfg.n)
  }

  ghost predicate Locals(cfg: Config, s: State) {
    && (forall i :: 0 <= i < |s.producers| ==> ProducerOk(cfg, s.producers[i]))
    && (forall j :: 0 <= j < |s.consumers| ==> ConsumerOk(cfg, s.ring, s.consumers[j]))
  }

  function ProducerActivity(p: Producer): Activity {
    if p.pc.Advance? then Storing(p.item) else Quiet
  }

  function ConsumerActivity(c: Consumer): Activity {
    match c.pc
    case Retire => Marked
    case Display(i) => Sweeping(i)
    case _ => Quiet
  }

  function CurrentActivity(s: State): Activity {
    match s.holder
    case ByProducer(i) => if i < |s.producers| then ProducerActivity(s.producers[i]) else Quiet
    case ByConsumer(j) => if j < |s.consumers| then ConsumerActivity(s.consumers[j]) else Quiet
    case Nobody => Quiet
  }

  ghost predicate RingOk(cfg: Config, s: State) {
    |s.ring.slots| == cfg.n && RingInv(s.ring, CurrentActivity(s))
  }

  ghost predicate Inv(cfg: Config, s: State) {
    Tokens(cfg, s) && Locked(s) && Locals(cfg, s) && RingOk(cfg, s)
  }

  lemma InitInv(cfg: Config, p: nat, c: nat)
    requires cfg.n > 0
    ensures Inv(cfg, Init(cfg, p, c))
  {
    var s := Init(cfg, p, c);
    SumZero(s.producers, Stored);
    SumZero(s.producers, Reserved);
    SumZero(s.consumers, Claimed);
    SumZero(s.consumers, Freed);
    EmptyRingInv(cfg.n);
  }

  // ----- each step keeps each part -----

  /** A step of one thread moves tokens only between that thread, the semaphores and the ring. */
  lemma ProducerBalance(cfg: Config, s: State, i: nat, random: nat)
    requires i < |s.producers| && ProducerStep(cfg, s, i, random).Some?
    ensures
      var t := ProducerStep(cfg, s, i, random).value;
      && |t.producers| == |s.producers| && t.consumers == s.consumers
      && t.producers == s.producers[i := t.producers[i]]
      && Live(t.ring) - Live(s.ring) == t.full - s.full + Stored(t.producers[i]) - Stored(s.producers[i])
      && t.empty + Reserved(t.producers[i]) + Live(t.ring) == s.empty + Reserved(s.producers[i]) + Live(s.ring)
  {
  }

  lemma ConsumerBalance(cfg: Config, s: State, j: nat)
    requires j < |s.consumers| && ConsumerStep(cfg, s, j).Some?
    ensures
      var t := ConsumerStep(cfg, s, j).value;
      && |t.consumers| == |s.consumers| && t.producers == s.producers
      && t.consumers == s.consumers[j := t.consumers[j]]
      && Live(t.ring) - Live(s.ring) == t.full - s.full + Claimed(t.consumers[j]) - Claimed(s.consumers[j])
      && t.empty + Freed(t.consumers[j]) + Live(t.ring) == s.empty + Freed(s.consumers[j]) + Live(s.ring)
  {
  }

  lemma ProducerTokens(cfg: Config, s: State, i: nat, random: nat)
    requires Tokens(cfg, s) && i < |s.producers| && ProducerStep(cfg, s, i, random).Some?
    ensures Tokens(cfg, ProducerStep(cfg, s, i, random).value)
  {
    ProducerBalance(cfg, s, i, random);
    var q := ProducerStep(cfg, s, i, random).value.producers[i];
    SumUpdate(s.producers, i, q, Reserved);
    SumUpdate(s.producers, i, q, Stored);
  }

  lemma ConsumerTokens(cfg: Config, s: State, j: nat)
    requires Tokens(cfg, s) && j < |s.consumers| && ConsumerStep(cfg, s, j).Some?
    ensures Tokens(cfg, ConsumerStep(cfg, s, j).value)
  {
    ConsumerBalance(cfg, s, j);
    var d := ConsumerStep(cfg, s, j).value.consumers[j];
    SumUpdate(s.consumers, j, d, Claimed);
    SumUpdate(s.consumers, j, d, Freed);
  }

  lemma ProducerLocked(cfg: Config, s: State, i: nat, random: nat)
    requires Locked(s) && i < |s.producers| && ProducerStep(cfg, s, i, random).Some?
    ensures Locked(ProducerStep(cfg, s, i, random).value)
  {
  }

  lemma ConsumerLocked(cfg: Config, s: State, j: nat)
    requires Locked(s) && j < |s.consumers| && ConsumerStep(cfg, s, j).Some?
    ensures Locked(ConsumerStep(cfg, s, j).value)
  {
  }

  /** A producer that holds a reservation finds room; a consumer that holds a claim finds an item. */
  lemma Room(cfg: Config, s: State, i: nat)
    requires Inv(cfg, s) && i < |s.producers| && Reserved(s.producers[i]) == 1
    ensures Live(s.ring) < cfg.n
  {
    SumAtLeast(s.producers, i, Reserved);
  }

  lemma Stock(cfg: Config, s: State, j: nat)
    requires Inv(cfg, s) && j < |s.consumers| && Claimed(s.consumers[j]) == 1
    ensures Live(s.ring) > 0
  {
    SumAtLeast(s.consumers, j, Claimed);
  }

  lemma ProducerRing(cfg: Config, s: State, i: nat, random: nat)
    requires Inv(cfg, s) && i < |s.producers| && ProducerStep(cfg, s, i, random).Some?
    ensures RingOk(cfg, ProducerStep(cfg, s, i, random).value)
  {
    var p := s.producers[i];
    match p.pc {
      case Store => Room(cfg, s, i); StoreKeeps(s.ring, p.item);
      case Advance => AdvanceProducerKeeps(s.ring, p.item);
      case Show(k) => if k < cfg.n { SweepQuiet(s.ring, k); }
      case _ =>
    }
  }

  lemma ConsumerRing(cfg: Config, s: State, j: nat)
    requires Inv(cfg, s) && j < |s.consumers| && ConsumerStep(cfg, s, j).Some?
    ensures RingOk(cfg, ConsumerStep(cfg, s, j).value)
  {
    var c := s.consumers[j];
    match c.pc {
      case Mark => Stock(cfg, s, j); MarkKeeps(s.ring);
      case Retire => AdvanceConsumerKeeps(s.ring);
      case Display(k) => if k < cfg.n { SweepKeeps(s.ring, k); } else { SweepDone(s.ring); }
      case _ =>
    }
  }

  lemma ProducerLocals(cfg: Config, s: State, i: nat, random: nat)
    requires Inv(cfg, s) && i < |s.producers| && ProducerStep(cfg, s, i, random).Some?
    ensures Locals(cfg, ProducerStep(cfg, s, i, random).value)
  {
  }

  lemma ConsumerLocals(cfg: Config, s: State, j: nat)
    requires Inv(cfg, s) && j < |s.consumers| && ConsumerStep(cfg, s, j).Some?
    ensures Locals(cfg, ConsumerStep(cfg, s, j).value)
  {
    if s.consumers[j].pc.Take? {
      Stock(cfg, s, j);
      ReadsOldest(s.ring);
    }
  }

  lemma StepKeepsInv(cfg: Config, s: State, l: Label)
    requires Inv(cfg, s) && Step(cfg, s, l).Some?
    ensures Inv(cfg, Step(cfg, s, l).value)
  {
    match l {
      case ProducerMoves(i, random) =>
        ProducerTokens(cfg, s, i, random);
        ProducerLocked(cfg, s, i, random);
        ProducerRing(cfg, s, i, random);
        ProducerLocals(cfg, s, i, random);
      case ConsumerMoves(j) =>
        ConsumerTokens(cfg, s, j);
        ConsumerLocked(cfg, s, j);
        ConsumerRing(cfg, s, j);
        ConsumerLocals(cfg, s, j);
    }
  }

  // ----- whole runs -----

  /** The warehouse started with p producers and c consumers has reached s. */
  ghost predicate Reachable(cfg: Config, p: nat, c: nat, labels: seq<Label>, s: State) {
    cfg.n > 0 && Exec(Machine(cfg), Init(cfg, p, c), labels) == Some(s)
  }

  ghost predicate Sized(p: nat, c: nat, s: State) {
    |s.producers| == p && |s.consumers| == c
  }

  lemma StepKeepsSizes(cfg: Config, s: State, l: Label)
    requires Step(cfg, s, l).Some?
    ensures Sized(|s.producers|, |s.consumers|, Step(cfg, s, l).value)
  {
    match l {
      case ProducerMoves(i, random) => ProducerBalance(cfg, s, i, random);
      case ConsumerMoves(j) => ConsumerBalance(cfg, s, j);
    }
  }

  lemma ReachableInv(cfg: Config, p: nat, c: nat, labels: seq<Label>, s: State)
    requires Reachable(cfg, p, c, labels, s)
    ensures Inv(cfg, s) && Sized(p, c, s)
  {
    InitInv(cfg, p, c);
    forall s, l | Inv(cfg, s) && Sized(p, c, s) && Machine(cfg)(s, l).Some?
      ensures Inv(cfg, Machine(cfg)(s, l).value) && Sized(p, c, Machine(cfg)(s, l).value)
    {
      StepKeepsInv(cfg, s, l);
      StepKeepsSizes(cfg, s, l);
    }
    Invariance(Machine(cfg), s => Inv(cfg, s) && Sized(p, c, s), Init(cfg, p, c), labels);
  }

  // ----- refinement of the atomic queue -----

  function QueueOf(cfg: Config, s: State): Fifo.Queue {
    var r := s.ring;
    Fifo.Queue(cfg.n, if |r.removed| <= |r.added| then r.added[|r.removed|..] else [], r.added, r.removed)
  }

  /** The index bumps are the queue operations; every other step is invisible to the queue. */
  function QueueOps(s: State, l: Label): seq<Fifo.Op> {
    match l
    case ProducerMoves(i, _) =>
      if i < |s.producers| && s.producers[i].pc.Advance? then [Fifo.Enqueue(s.producers[i].item)] else []
    case ConsumerMoves(j) =>
      if j < |s.consumers| && s.consumers[j].pc.Retire? then [Fifo.Dequeue(s.consumers[j].item)] else []
  }

  lemma ProducerRefines(cfg: Config, s: State, i: nat, random: nat)
    requires Inv(cfg, s) && i < |s.producers| && ProducerStep(cfg, s, i, random).Some?
    ensures Exec(Fifo.Step, QueueOf(cfg, s), QueueOps(s, ProducerMoves(i, random)))
            == Some(QueueOf(cfg, ProducerStep(cfg, s, i, random).value))
  {
    var p, r := s.producers[i], s.ring;
    var t := ProducerStep(cfg, s, i, random).value;
    if p.pc.Advance? {
      Room(cfg, s, i);
      assert t.ring.added[|r.removed|..] == r.added[|r.removed|..] + [p.item];
      assert Fifo.Step(QueueOf(cfg, s), Fifo.Enqueue(p.item)) == Some(QueueOf(cfg, t));
    } else {
      assert t.ring.added == r.added && t.ring.removed == r.removed;
    }
  }

  lemma ConsumerRefines(cfg: Config, s: State, j: nat)
    requires Inv(cfg, s) && j < |s.consumers| && ConsumerStep(cfg, s, j).Some?
    ensures Exec(Fifo.Step, QueueOf(cfg, s), QueueOps(s, ConsumerMoves(j)))
            == Some(QueueOf(cfg, ConsumerStep(cfg, s, j).value))
  {
    var c, r := s.consumers[j], s.ring;
    var t := ConsumerStep(cfg, s, j).value;
    if c.pc.Retire? {
      assert r.added[|r.removed|..][1..] == r.added[|r.removed| + 1..];
      assert Fifo.Step(QueueOf(cfg, s), Fifo.Dequeue(c.item)) == Some(QueueOf(cfg, t));
    } else {
      assert t.ring.added == r.added && t.ring.removed == r.removed;
    }
  }

  /** Every run of the warehouse is, through QueueOf, a run of the atomic bounded queue. */
  lemma RefinesFifo(cfg: Config, p: nat, c: nat, labels: seq<Label>, s: State)
    requires Reachable(cfg, p, c, labels, s)
    ensures Exec(Fifo.Step, Fifo.EmptyQueue(cfg.n), Image(Machine(cfg), QueueOps, Init(cfg, p, c), labels))
            == Some(QueueOf(cfg, s))
  {
    InitInv(cfg, p, c);
    forall s, l | Inv(cfg, s) && Machine(cfg)(s, l).Some?
      ensures Inv(cfg, Machine(cfg)(s, l).value)
      ensures Exec(Fifo.Step, QueueOf(cfg, s), QueueOps(s, l)) == Some(QueueOf(cfg, Machine(cfg)(s, l).value))
    {
      StepKeepsInv(cfg, s, l);
      match l {
        case ProducerMoves(i, random) => ProducerRefines(cfg, s, i, random);
        case ConsumerMoves(j) => ConsumerRefines(cfg, s, j);
      }
    }
    Simulation(Machine(cfg), Fifo.Step, s => Inv(cfg, s), s => QueueOf(cfg, s), QueueOps, Init(cfg, p, c), labels);
    assert QueueOf(cfg, Init(cfg, p, c)) == Fifo.EmptyQueue(cfg.n);
  }

  /** What the queue promises, read off the ring: order, bounds and both indices. */
  lemma RingFollowsLog(cfg: Config, p: nat, c: nat, labels: seq<Label>, s: State)
    requires Reachable(cfg, p, c, labels, s)
    ensures s.ring.removed <= s.ring.added
    ensures 0 <= Live(s.ring) <= cfg.n
    ensures s.ring.producerIdx == |s.ring.added| % cfg.n && s.ring.consumerIdx == |s.ring.removed| % cfg.n
    ensures |s.ring.slots| == cfg.n
    ensures forall j :: |s.ring.removed| <= j < |s.ring.added| ==>
      SlotOf(s.ring, j) == Taken(s.ring.added[j]) || (j == |s.ring.removed| && CurrentActivity(s) == Marked)
    ensures s.lock == 1 ==>
      && |Window(s.ring)| == Live(s.ring)
      && forall k :: 0 <= k < Live(s.ring) ==> Window(s.ring)[k] == Taken(s.ring.added[|s.ring.removed| + k])
  {
    ReachableInv(cfg, p, c, labels, s);
    forall j | |s.ring.removed| <= j < |s.ring.added|
      ensures SlotOf(s.ring, j) == Taken(s.ring.added[j]) || (j == |s.ring.removed| && CurrentActivity(s) == Marked)
    {
      assert SlotOf(s.ring, j) == Expected(s.ring, CurrentActivity(s), j);
    }
    if s.lock == 1 {
      QuietWindow(s.ring);
    }
  }

  // ----- tokens and mutual exclusion -----

  function ProducerBusy(p: Producer): nat {
    if p.pc.Produce? || p.pc.WaitEmpty? then 0 else 1
  }

  function ConsumerBusy(c: Consumer): nat {
    if c.pc.WaitFull? || c.pc.Consume? then 0 else 1
  }

  function ProducerIn(p: Producer): nat {
    if ProducerInside(p.pc) then 1 else 0
  }

  function ConsumerIn(c: Consumer): nat {
    if ConsumerInside(c.pc) then 1 else 0
  }

  /** The two counting semaphores and the threads between first wait and last post share n tokens. */
  lemma TokensConserved(cfg: Config, p: nat, c: nat, labels: seq<Label>, s: State)
    requires Reachable(cfg, p, c, labels, s)
    ensures s.empty + s.full + Sum(s.producers, ProducerBusy) + Sum(s.consumers, ConsumerBusy) == cfg.n
  {
    ReachableInv(cfg, p, c, labels, s);
    SumSplit(s.producers, ProducerBusy, Reserved, Stored);
    SumSplit(s.consumers, ConsumerBusy, Claimed, Freed);
  }

  lemma MutualExclusion(cfg: Config, p: nat, c: nat, labels: seq<Label>, s: State)
    requires Reachable(cfg, p, c, labels, s)
    ensures s.lock + Sum(s.producers, ProducerIn) + Sum(s.consumers, ConsumerIn) == 1
  {
    ReachableInv(cfg, p, c, labels, s);
    match s.holder {
      case Nobody => SumZero(s.producers, ProducerIn); SumZero(s.consumers, ConsumerIn);
      case ByProducer(i) => SumSingle(s.producers, i, ProducerIn); SumZero(s.consumers, ConsumerIn);
      case ByConsumer(j) => SumZero(s.producers, ProducerIn); SumSingle(s.consumers, j, ConsumerIn);
    }
  }

  // ----- slots -----

  /** Slots agree with occupancy: never two deleted slots, and with the lock free a slot is taken
      exactly when it lies in the live window and none is deleted. */
  lemma SlotsMatchOccupancy(cfg: Config, p: nat, c: nat, labels: seq<Label>, s: State)
    requires Reachable(cfg, p, c, labels, s)
    ensures |s.ring.slots| == cfg.n
    ensures forall k, l :: 0 <= k < cfg.n && 0 <= l < cfg.n && s.ring.slots[k].Deleted? && s.ring.slots[l].Deleted? ==> k == l
    ensures s.lock == 1 ==>
      forall k :: 0 <= k < cfg.n ==> !s.ring.slots[k].Deleted? && (s.ring.slots[k].Taken? <==> Occupies(s.ring, k))
  {
    ReachableInv(cfg, p, c, labels, s);
    forall k, l | 0 <= k < cfg.n && 0 <= l < cfg.n && s.ring.slots[k].Deleted? && s.ring.slots[l].Deleted?
      ensures k == l
    {
      AtMostOneDeleted(s.ring, CurrentActivity(s), k, l);
    }
    if s.lock == 1 {
      forall k | 0 <= k < cfg.n
        ensures !s.ring.slots[k].Deleted? && (s.ring.slots[k].Taken? <==> Occupies(s.ring, k))
      {
        QuietOccupancy(s.ring, k);
      }
    }
  }

  /** add never overwrites a taken slot, and remove always finds one: C never reads 0 or -1,
      Rust never takes the Item::Other arm. */
  lemma AccessesAreSafe(cfg: Config, p: nat, c: nat, labels: seq<Label>, s: State)
    requires Reachable(cfg, p, c, labels, s)
    ensures InBounds(s.ring)
    ensures forall i :: 0 <= i < |s.producers| ==> s.producers[i].pc.Store? ==> s.ring.slots[s.ring.producerIdx] == Empty
    ensures forall j :: 0 <= j < |s.consumers| ==> s.consumers[j].pc.Take? ==>
              |s.ring.removed| < |s.ring.added| && s.ring.slots[s.ring.consumerIdx] == Taken(s.ring.added[|s.ring.removed|])
  {
    ReachableInv(cfg, p, c, labels, s);
    forall i | 0 <= i < |s.producers| && s.producers[i].pc.Store?
      ensures s.ring.slots[s.ring.producerIdx] == Empty
    {
      Room(cfg, s, i);
      StoreKeeps(s.ring, s.producers[i].item);
    }
    forall j | 0 <= j < |s.consumers| && s.consumers[j].pc.Take?
      ensures |s.ring.removed| < |s.ring.added| && s.ring.slots[s.ring.consumerIdx] == Taken(s.ring.added[|s.ring.removed|])
    {
      Stock(cfg, s, j);
      ReadsOldest(s.ring);
    }
  }

  lemma NamesAreKnown(x: int)
    ensures ItemName(x) != "other" <==> ItemRange(x)
  {
    assert "hat"[0] != "other"[0] && "phone"[0] != "other"[0] && "dress"[0] != "other"[0] && "pants"[0] != "other"[0];
    assert "shoes"[0] != "other"[0] && "burrito"[0] != "other"[0] && "sushi"[0] != "other"[0];
    assert "sandals"[0] != "other"[0] && "pc"[0] != "other"[0];
  }

  /** Every item added, removed or about to be printed by a consumer has a name. */
  lemma ItemsHaveNames(cfg: Config, p: nat, c: nat, labels: seq<Label>, s: State)
    requires Reachable(cfg, p, c, labels, s)
    ensures forall k :: 0 <= k < |s.ring.added| ==> ItemName(s.ring.added[k]) != "other"
    ensures forall k :: 0 <= k < |s.ring.removed| ==> ItemName(s.ring.removed[k]) != "other"
    ensures forall j :: 0 <= j < |s.consumers| ==>
              (s.consumers[j].pc.WaitFull? || s.consumers[j].pc.AwaitLock? || s.consumers[j].pc.Take? || ItemName(s.consumers[j].item) != "other")
  {
    ReachableInv(cfg, p, c, labels, s);
    forall x: int { NamesAreKnown(x); }
  }

  /** A step of print_buffer leaves every live item in its slot. */
  lemma PrintingKeepsLiveItems(cfg: Config, p: nat, c: nat, labels: seq<Label>, s: State, l: Label)
    requires Reachable(cfg, p, c, labels, s) && Step(cfg, s, l).Some?
    requires l.ProducerMoves? ==> s.producers[l.i].pc.Show?
    requires l.ConsumerMoves? ==> s.consumers[l.j].pc.Display?
    ensures
      var t := Step(cfg, s, l).value;
      && |t.ring.slots| == |s.ring.slots| == cfg.n
      && t.ring.added == s.ring.added && t.ring.removed == s.ring.removed
      && forall j :: |s.ring.removed| <= j < |s.ring.added| ==>
           SlotOf(t.ring, j) == SlotOf(s.ring, j) == Taken(s.ring.added[j])
  {
    ReachableInv(cfg, p, c, labels, s);
    StepKeepsInv(cfg, s, l);
    var t := Step(cfg, s, l).value;
    assert t.ring.added == s.ring.added && t.ring.removed == s.ring.removed;
    forall j | |s.ring.removed| <= j < |s.ring.added|
      ensures SlotOf(t.ring, j) == SlotOf(s.ring, j) == Taken(s.ring.added[j])
    {
      assert SlotOf(s.ring, j) == Expected(s.ring, CurrentActivity(s), j);
      assert SlotOf(t.ring, j) == Expected(t.ring, CurrentActivity(t), j);
    }
  }

  /** Only the thread that holds the lock changes the ring, so whatever the schedule a critical
      section acts on the ring as if it ran alone. */
  lemma OnlyHolderTouchesRing(cfg: Config, p: nat, c: nat, labels: seq<Label>, s: State, l: Label)
    requires Reachable(cfg, p, c, labels, s) && Step(cfg, s, l).Some?
    requires s.holder != (if l.ProducerMoves? then ByProducer(l.i) else ByConsumer(l.j))
    ensures Step(cfg, s, l).value.ring == s.ring
  {
    ReachableInv(cfg, p, c, labels, s);
  }
}

/** What every run of the Rust warehouse keeps, spurious wake-ups included: the lock excludes, tokens
    are conserved, both indices follow their logs, and each of the two counts with its sleepers is a
    run of the hand-written semaphore. */
module RustWarehouseInvariant {
  import opened Transitions
  import opened RingArith
  import opened Ring
  import opened Sums
  import opened RustWarehouse
  import S = Semaphore
  import W = Warehouse
  import Safety = WarehouseSafety

  // ----- the lock -----

  predicate ProducerOutside(p: Producer) {
    (p.nap == S.Awake || p.thread.pc == W.WaitEmpty) && !Safety.ProducerInside(AbsProducer(p).pc)
  }

  predicate ConsumerOutside(c: Consumer) {
    (c.nap == S.Awake || c.thread.pc == W.WaitFull) && !Safety.ConsumerInside(AbsConsumer(c).pc)
  }

  /** Threads that change outside the critical section do not disturb the order. */
  lemma OutsideKeepsOrder(s: State, t: State)
    requires Orderly(s) && t.holder == s.holder && |t.producers| == |s.producers| && |t.consumers| == |s.consumers|
    requires forall i :: 0 <= i < |t.producers| ==>
      t.producers[i] == s.producers[i] || (ProducerOutside(s.producers[i]) && ProducerOutside(t.producers[i]))
    requires forall j :: 0 <= j < |t.consumers| ==>
      t.consumers[j] == s.consumers[j] || (ConsumerOutside(s.consumers[j]) && ConsumerOutside(t.consumers[j]))
    ensures Orderly(t)
  {
    forall i | 0 <= i < |t.producers|
      ensures Safety.ProducerInside(Abs(t).producers[i].pc) <==> t.holder == W.ByProducer(i)
    {
      assert Safety.ProducerInside(Abs(s).producers[i].pc) <==> s.holder == W.ByProducer(i);
    }
    forall j | 0 <= j < |t.consumers|
      ensures Safety.ConsumerInside(Abs(t).consumers[j].pc) <==> t.holder == W.ByConsumer(j)
    {
      assert Safety.ConsumerInside(Abs(s).consumers[j].pc) <==> s.holder == W.ByConsumer(j);
    }
  }

  /** What a post changes: the count, the poster's own place, and perhaps one sleeper. */
  lemma ProducerPostEffect(n: nat, s: State, i: nat, random: nat, wake: nat)
    requires ProducerPosts(s, i) && ProducerStep(n, s, i, random, wake).Some?
    ensures
      var t := ProducerStep(n, s, i, random, wake).value;
      && t.ring == s.ring && t.holder == s.holder && t.semEmpty == s.semEmpty && t.semFull == s.semFull + 1
      && t.producers == s.producers[i := Producer(s.producers[i].thread.(pc := W.WaitEmpty), S.Awake)]
      && (|| t.consumers == s.consumers
          || (&& wake < |s.consumers| && s.consumers[wake].nap == S.Asleep
              && t.consumers == s.consumers[wake := Consumer(s.consumers[wake].thread.(pc := W.WaitFull), S.Notified)]))
  {
  }

  lemma ConsumerPostEffect(n: nat, s: State, j: nat, wake: nat)
    requires ConsumerPosts(s, j) && ConsumerStep(n, s, j, wake).Some?
    ensures
      var t := ConsumerStep(n, s, j, wake).value;
      && t.ring == s.ring && t.holder == s.holder && t.semFull == s.semFull && t.semEmpty == s.semEmpty + 1
      && t.consumers == s.consumers[j := Consumer(s.consumers[j].thread.(pc := W.WaitFull), S.Awake)]
      && (|| t.producers == s.producers
          || (&& wake < |s.producers| && s.producers[wake].nap == S.Asleep
              && t.producers == s.producers[wake := Producer(s.producers[wake].thread.(pc := W.WaitEmpty), S.Notified)]))
  {
  }

  lemma ProducerKeepsOrder(n: nat, s: State, i: nat, random: nat, wake: nat)
    requires Orderly(s) && i < |s.producers| && ProducerStep(n, s, i, random, wake).Some?
    ensures Orderly(ProducerStep(n, s, i, random, wake).value)
  {
    if ProducerPosts(s, i) {
      ProducerPostEffect(n, s, i, random, wake);
      OutsideKeepsOrder(s, ProducerStep(n, s, i, random, wake).value);
    } else {
      ProducerMinds(n, s, i, random, wake);
      ProducerSimulates(n, s, i, random, wake);
      ExecKeepsLocked(Cfg(n), Abs(s), CountingImage(s, ProducerMoves(i, random, wake)));
    }
  }

  lemma ConsumerKeepsOrder(n: nat, s: State, j: nat, wake: nat)
    requires Orderly(s) && j < |s.consumers| && ConsumerStep(n, s, j, wake).Some?
    ensures Orderly(ConsumerStep(n, s, j, wake).value)
  {
    if ConsumerPosts(s, j) {
      ConsumerPostEffect(n, s, j, wake);
      OutsideKeepsOrder(s, ConsumerStep(n, s, j, wake).value);
    } else {
      ConsumerMinds(n, s, j, wake);
      ConsumerSimulates(n, s, j, wake);
      ExecKeepsLocked(Cfg(n), Abs(s), CountingImage(s, ConsumerMoves(j, wake)));
    }
  }

  lemma StepKeepsOrder(n: nat, s: State, l: Label)
    requires Orderly(s) && Step(n, s, l).Some?
    ensures Orderly(Step(n, s, l).value)
  {
    match l {
      case ProducerMoves(i, random, wake) => ProducerKeepsOrder(n, s, i, random, wake);
      case ConsumerMoves(j, wake) => ConsumerKeepsOrder(n, s, j, wake);
      case SpuriousProducer(i) => OutsideKeepsOrder(s, Step(n, s, l).value);
      case SpuriousConsumer(j) => OutsideKeepsOrder(s, Step(n, s, l).value);
    }
  }

  // ----- the tokens -----

  /** Has taken from `sem_empty` and not yet added: asleep, let through, or at work. */
  function Owed(p: Producer): nat { ProducerAsleep(p) + Safety.Reserved(AbsProducer(p)) }
  function Stored(p: Producer): nat { Safety.Stored(AbsProducer(p)) }
  function Claimed(c: Consumer): nat { ConsumerAsleep(c) + Safety.Claimed(AbsConsumer(c)) }
  function Freed(c: Consumer): nat { Safety.Freed(AbsConsumer(c)) }

  ghost predicate Tokens(n: nat, s: State) {
    && Live(s.ring) == s.semFull + Sum(s.producers, Stored) + Sum(s.consumers, Claimed)
    && n == s.semEmpty + Sum(s.producers, Owed) + Sum(s.consumers, Freed) + Live(s.ring)
  }

  lemma ProducerBalance(n: nat, s: State, i: nat, random: nat, wake: nat)
    requires NapPlaces(s) && i < |s.producers| && ProducerStep(n, s, i, random, wake).Some? && !ProducerPosts(s, i)
    ensures
      var t := ProducerStep(n, s, i, random, wake).value;
      && |t.producers| == |s.producers|
      && Live(t.ring) - Live(s.ring) == Stored(t.producers[i]) - Stored(s.producers[i])
      && t.semEmpty + Owed(t.producers[i]) + Live(t.ring) == s.semEmpty + Owed(s.producers[i]) + Live(s.ring)
  {
  }

  lemma ConsumerBalance(n: nat, s: State, j: nat, wake: nat)
    requires NapPlaces(s) && j < |s.consumers| && ConsumerStep(n, s, j, wake).Some? && !ConsumerPosts(s, j)
    ensures
      var t := ConsumerStep(n, s, j, wake).value;
      && |t.consumers| == |s.consumers|
      && Live(t.ring) - Live(s.ring) == t.semFull - s.semFull + Claimed(t.consumers[j]) - Claimed(s.consumers[j])
      && Freed(t.consumers[j]) + Live(t.ring) == Freed(s.consumers[j]) + Live(s.ring)
  {
  }

  /** A notification only turns one claim into another. */
  lemma WakingConsumer(cs: seq<Consumer>, j: nat)
    requires j < |cs| && cs[j].nap == S.Asleep && cs[j].thread.pc == W.WaitFull
    ensures
      var after := cs[j := Consumer(cs[j].thread.(pc := W.WaitFull), S.Notified)];
      Sum(after, Claimed) == Sum(cs, Claimed) && Sum(after, Freed) == Sum(cs, Freed)
  {
    SumUpdate(cs, j, Consumer(cs[j].thread.(pc := W.WaitFull), S.Notified), Claimed);
    SumUpdate(cs, j, Consumer(cs[j].thread.(pc := W.WaitFull), S.Notified), Freed);
  }

  lemma WakingProducer(ps: seq<Producer>, i: nat)
    requires i < |ps| && ps[i].nap == S.Asleep && ps[i].thread.pc == W.WaitEmpty
    ensures
      var after := ps[i := Producer(ps[i].thread.(pc := W.WaitEmpty), S.Notified)];
      Sum(after, Owed) == Sum(ps, Owed) && Sum(after, Stored) == Sum(ps, Stored)
  {
    SumUpdate(ps, i, Producer(ps[i].thread.(pc := W.WaitEmpty), S.Notified), Owed);
    SumUpdate(ps, i, Producer(ps[i].thread.(pc := W.WaitEmpty), S.Notified), Stored);
  }

  lemma ProducerTokens(n: nat, s: State, i: nat, random: nat, wake: nat)
    requires Tokens(n, s) && NapPlaces(s) && i < |s.producers| && ProducerStep(n, s, i, random, wake).Some?
    ensures Tokens(n, ProducerStep(n, s, i, random, wake).value)
  {
    var t := ProducerStep(n, s, i, random, wake).value;
    if ProducerPosts(s, i) {
      ProducerPostEffect(n, s, i, random, wake);
      if t.consumers != s.consumers {
        WakingConsumer(s.consumers, wake);
      }
    } else {
      ProducerMinds(n, s, i, random, wake);
      ProducerBalance(n, s, i, random, wake);
    }
    SumUpdate(s.producers, i, t.producers[i], Stored);
    SumUpdate(s.producers, i, t.producers[i], Owed);
  }

  lemma ConsumerTokens(n: nat, s: State, j: nat, wake: nat)
    requires Tokens(n, s) && NapPlaces(s) && j < |s.consumers| && ConsumerStep(n, s, j, wake).Some?
    ensures Tokens(n, ConsumerStep(n, s, j, wake).value)
  {
    var t := ConsumerStep(n, s, j, wake).value;
    if ConsumerPosts(s, j) {
      ConsumerPostEffect(n, s, j, wake);
      if t.producers != s.producers {
        WakingProducer(s.producers, wake);
      }
    } else {
      ConsumerMinds(n, s, j, wake);
      ConsumerBalance(n, s, j, wake);
    }
    SumUpdate(s.consumers, j, t.consumers[j], Claimed);
    SumUpdate(s.consumers, j, t.consumers[j], Freed);
  }

  lemma StepKeepsTokens(n: nat, s: State, l: Label)
    requires Tokens(n, s) && NapPlaces(s) && Step(n, s, l).Some?
    ensures Tokens(n, Step(n, s, l).value)
  {
    match l {
      case ProducerMoves(i, random, wake) => ProducerTokens(n, s, i, random, wake);
      case ConsumerMoves(j, wake) => ConsumerTokens(n, s, j, wake);
      case SpuriousProducer(i) => WakingProducer(s.producers, i);
      case SpuriousConsumer(j) => WakingConsumer(s.consumers, j);
    }
  }

  // ----- indices and loop counters -----

  ghost predicate Shape(n: nat, p: nat, c: nat, s: State) {
    && n > 0 && |s.ring.slots| == n && |s.producers| == p && |s.consumers| == c
    && s.ring.producerIdx == Wrap(n, |s.ring.added|) && s.ring.consumerIdx == Wrap(n, |s.ring.removed|)
    && (forall i :: 0 <= i < p ==> s.producers[i].thread.pc.Show? ==> s.producers[i].thread.pc.i <= n)
    && (forall j :: 0 <= j < c ==> s.consumers[j].thread.pc.Display? ==> s.consumers[j].thread.pc.i <= n)
  }

  lemma ProducerKeepsShape(n: nat, s: State, i: nat, random: nat, wake: nat)
    requires i < |s.producers| && Shape(n, |s.producers|, |s.consumers|, s) && ProducerStep(n, s, i, random, wake).Some?
    ensures Shape(n, |s.producers|, |s.consumers|, ProducerStep(n, s, i, random, wake).value)
  {
    WrapNext(n, |s.ring.added|);
  }

  lemma ConsumerKeepsShape(n: nat, s: State, j: nat, wake: nat)
    requires j < |s.consumers| && Shape(n, |s.producers|, |s.consumers|, s) && ConsumerStep(n, s, j, wake).Some?
    ensures Shape(n, |s.producers|, |s.consumers|, ConsumerStep(n, s, j, wake).value)
  {
    WrapNext(n, |s.ring.removed|);
  }

  lemma StepKeepsShape(n: nat, p: nat, c: nat, s: State, l: Label)
    requires Shape(n, p, c, s) && Step(n, s, l).Some?
    ensures Shape(n, p, c, Step(n, s, l).value)
  {
    match l {
      case ProducerMoves(i, random, wake) => ProducerKeepsShape(n, s, i, random, wake);
      case ConsumerMoves(j, wake) => ConsumerKeepsShape(n, s, j, wake);
      case SpuriousProducer(i) =>
      case SpuriousConsumer(j) =>
    }
  }

  ghost predicate Inv(n: nat, p: nat, c: nat, s: State) {
    Orderly(s) && Tokens(n, s) && Shape(n, p, c, s)
  }

  ghost function InvOf(n: nat, p: nat, c: nat): State -> bool {
    s => Inv(n, p, c, s)
  }

  lemma InitInv(n: nat, p: nat, c: nat)
    requires n > 0
    ensures Inv(n, p, c, Init(n, p, c))
  {
    var s := Init(n, p, c);
    SumZero(s.producers, Stored);
    SumZero(s.producers, Owed);
    SumZero(s.consumers, Claimed);
    SumZero(s.consumers, Freed);
  }

  lemma StepKeepsInv(n: nat, p: nat, c: nat, s: State, l: Label)
    requires Inv(n, p, c, s) && Step(n, s, l).Some?
    ensures Inv(n, p, c, Step(n, s, l).value)
  {
    StepKeepsOrder(n, s, l);
    StepKeepsTokens(n, s, l);
    StepKeepsShape(n, p, c, s, l);
  }

  lemma MachineKeepsInv(n: nat, p: nat, c: nat)
    ensures Preserved(Machine(n), InvOf(n, p, c))
  {
    forall s, l | InvOf(n, p, c)(s) && Machine(n)(s, l).Some?
      ensures InvOf(n, p, c)(Machine(n)(s, l).value)
    {
      StepKeepsInv(n, p, c, s, l);
    }
  }

  lemma ReachableInv(n: nat, p: nat, c: nat, labels: seq<Label>, s: State)
    requires Reachable(n, p, c, labels, s)
    ensures Inv(n, p, c, s)
  {
    InitInv(n, p, c);
    MachineKeepsInv(n, p, c);
    Invariance(Machine(n), InvOf(n, p, c), Init(n, p, c), labels);
  }

  // ----- each count is a run of the hand-written semaphore -----

  /** The semaphore `sem_empty`: the producers wait on it, the consumers, numbered after them, post. */
  ghost predicate ShowsEmpty(s: State, m: S.Sem) {
    && m.value == s.semEmpty && m.spurious == s.strayProducers
    && |m.threads| == |s.producers| + |s.consumers|
    && (forall i :: 0 <= i < |s.producers| ==> m.threads[i] == s.producers[i].nap)
    && (forall i :: |s.producers| <= i < |m.threads| ==> m.threads[i] == S.Awake)
  }

  /** The semaphore `sem_full`, with the roles exchanged. */
  ghost predicate ShowsFull(s: State, m: S.Sem) {
    && m.value == s.semFull && m.spurious == s.strayConsumers
    && |m.threads| == |s.consumers| + |s.producers|
    && (forall j :: 0 <= j < |s.consumers| ==> m.threads[j] == s.consumers[j].nap)
    && (forall j :: |s.consumers| <= j < |m.threads| ==> m.threads[j] == S.Awake)
  }

  function EmptyCalls(s: State, l: Label): seq<S.Label> {
    match l
    case ProducerMoves(i, _, _) =>
      if !(i < |s.producers|) then []
      else if s.producers[i].nap == S.Notified then [S.Return(i)]
      else if s.producers[i].thread.pc == W.WaitEmpty then [S.Wait(i)]
      else []
    case ConsumerMoves(j, wake) => if ConsumerPosts(s, j) then [S.Post(|s.producers| + j, wake)] else []
    case SpuriousProducer(i) => [S.SpuriousWake(i)]
    case SpuriousConsumer(_) => []
  }

  function FullCalls(s: State, l: Label): seq<S.Label> {
    match l
    case ConsumerMoves(j, _) =>
      if !(j < |s.consumers|) then []
      else if s.consumers[j].nap == S.Notified then [S.Return(j)]
      else if s.consumers[j].thread.pc == W.WaitFull then [S.Wait(j)]
      else []
    case ProducerMoves(i, _, wake) => if ProducerPosts(s, i) then [S.Post(|s.consumers| + i, wake)] else []
    case SpuriousConsumer(j) => [S.SpuriousWake(j)]
    case SpuriousProducer(_) => []
  }

  lemma ExecOne(m: S.Sem, calls: seq<S.Label>)
    ensures calls == [] ==> Exec(S.Step, m, calls) == Some(m)
    ensures |calls| == 1 ==> Exec(S.Step, m, calls) == S.Step(m, calls[0])
  {
    if |calls| == 1 {
      assert calls[1..] == [];
    }
  }

  lemma ConsumerShowsEmpty(n: nat, s: State, l: Label, m: S.Sem)
    requires ShowsEmpty(s, m) && Step(n, s, l).Some? && l.ConsumerMoves?
    ensures Exec(S.Step, m, EmptyCalls(s, l)).Some?
    ensures ShowsEmpty(Step(n, s, l).value, Exec(S.Step, m, EmptyCalls(s, l)).value)
  {
    ExecOne(m, EmptyCalls(s, l));
    assert ProducerSleeps(s) <==> S.SomeoneSleeps(m.threads);
    if !ConsumerPosts(s, l.j) {
      ConsumerMinds(n, s, l.j, l.wake);
    }
  }

  lemma StepShowsEmpty(n: nat, s: State, l: Label, m: S.Sem)
    requires ShowsEmpty(s, m) && Step(n, s, l).Some?
    ensures Exec(S.Step, m, EmptyCalls(s, l)).Some?
    ensures ShowsEmpty(Step(n, s, l).value, Exec(S.Step, m, EmptyCalls(s, l)).value)
  {
    ExecOne(m, EmptyCalls(s, l));
    if l.ConsumerMoves? {
      ConsumerShowsEmpty(n, s, l, m);
    }
  }

  lemma ProducerShowsFull(n: nat, s: State, l: Label, m: S.Sem)
    requires ShowsFull(s, m) && Step(n, s, l).Some? && l.ProducerMoves?
    ensures Exec(S.Step, m, FullCalls(s, l)).Some?
    ensures ShowsFull(Step(n, s, l).value, Exec(S.Step, m, FullCalls(s, l)).value)
  {
    ExecOne(m, FullCalls(s, l));
    assert ConsumerSleeps(s) <==> S.SomeoneSleeps(m.threads);
    if !ProducerPosts(s, l.i) {
      ProducerMinds(n, s, l.i, l.random, l.wake);
    }
  }

  lemma StepShowsFull(n: nat, s: State, l: Label, m: S.Sem)
    requires ShowsFull(s, m) && Step(n, s, l).Some?
    ensures Exec(S.Step, m, FullCalls(s, l)).Some?
    ensures ShowsFull(Step(n, s, l).value, Exec(S.Step, m, FullCalls(s, l)).value)
  {
    ExecOne(m, FullCalls(s, l));
    if l.ProducerMoves? {
      ProducerShowsFull(n, s, l, m);
    }
  }

  /** In every run of the warehouse the calls made on `sem_empty` are a run of the hand-written
      semaphore that ends in the same count, with the same threads asleep. */
  lemma EmptyIsSemaphore(n: nat, p: nat, c: nat, labels: seq<Label>, s: State) returns (m: S.Sem)
    requires Reachable(n, p, c, labels, s)
    ensures Exec(S.Step, S.New(n, p + c), Image(Machine(n), EmptyCalls, Init(n, p, c), labels)) == Some(m)
    ensures ShowsEmpty(s, m)
  {
    forall s, l, m | ShowsEmpty(s, m) && Machine(n)(s, l).Some?
      ensures Exec(S.Step, m, EmptyCalls(s, l)).Some?
      ensures ShowsEmpty(Machine(n)(s, l).value, Exec(S.Step, m, EmptyCalls(s, l)).value)
    {
      StepShowsEmpty(n, s, l, m);
    }
    Tracking(Machine(n), S.Step, ShowsEmpty, EmptyCalls, Init(n, p, c), S.New(n, p + c), labels);
    m := Exec(S.Step, S.New(n, p + c), Image(Machine(n), EmptyCalls, Init(n, p, c), labels)).value;
  }

  lemma FullIsSemaphore(n: nat, p: nat, c: nat, labels: seq<Label>, s: State) returns (m: S.Sem)
    requires Reachable(n, p, c, labels, s)
    ensures Exec(S.Step, S.New(0, c + p), Image(Machine(n), FullCalls, Init(n, p, c), labels)) == Some(m)
    ensures ShowsFull(s, m)
  {
    forall s, l, m | ShowsFull(s, m) && Machine(n)(s, l).Some?
      ensures Exec(S.Step, m, FullCalls(s, l)).Some?
      ensures ShowsFull(Machine(n)(s, l).value, Exec(S.Step, m, FullCalls(s, l)).value)
    {
      StepShowsFull(n, s, l, m);
    }
    Tracking(Machine(n), S.Step, ShowsFull, FullCalls, Init(n, p, c), S.New(0, c + p), labels);
    m := Exec(S.Step, S.New(0, c + p), Image(Machine(n), FullCalls, Init(n, p, c), labels)).value;
  }

  lemma {:induction false} ProducersAsleep(ps: seq<Producer>, naps: seq<S.Nap>)
    requires |ps| <= |naps| && forall i :: 0 <= i < |ps| ==> naps[i] == ps[i].nap
    requires forall i :: |ps| <= i < |naps| ==> naps[i] == S.Awake
    ensures Sum(ps, ProducerAsleep) == Sum(naps, S.IsAsleep)
  {
    if ps == [] {
      SumZero(naps, S.IsAsleep);
    } else {
      ProducersAsleep(ps[1..], naps[1..]);
    }
  }

  lemma {:induction false} ConsumersAsleep(cs: seq<Consumer>, naps: seq<S.Nap>)
    requires |cs| <= |naps| && forall j :: 0 <= j < |cs| ==> naps[j] == cs[j].nap
    requires forall j :: |cs| <= j < |naps| ==> naps[j] == S.Awake
    ensures Sum(cs, ConsumerAsleep) == Sum(naps, S.IsAsleep)
  {
    if cs == [] {
      SumZero(naps, S.IsAsleep);
    } else {
      ConsumersAsleep(cs[1..], naps[1..]);
    }
  }

  /** So the semaphore's own theorem bounds the sleepers of the warehouse. */
  lemma SleepersBounded(n: nat, p: nat, c: nat, labels: seq<Label>, s: State)
    requires Reachable(n, p, c, labels, s)
    ensures S.Positive(-s.semEmpty - s.strayProducers) <= Sum(s.producers, ProducerAsleep) <= S.Positive(-s.semEmpty)
    ensures S.Positive(-s.semFull - s.strayConsumers) <= Sum(s.consumers, ConsumerAsleep) <= S.Positive(-s.semFull)
  {
    var empty := EmptyIsSemaphore(n, p, c, labels, s);
    S.SleepersBounded(n, p + c, Image(Machine(n), EmptyCalls, Init(n, p, c), labels), empty);
    ProducersAsleep(s.producers, empty.threads);
    var full := FullIsSemaphore(n, p, c, labels, s);
    S.SleepersBounded(0, c + p, Image(Machine(n), FullCalls, Init(n, p, c), labels), full);
    ConsumersAsleep(s.consumers, full.threads);
  }
}

/** The warehouse of rust/r_lab05_b.rs as it really runs: the thread bodies of `Warehouse` (Rust
    style) over the hand-written semaphore and a mutex. Spurious wake-ups are steps and are counted;
    as long as there are none the machine refines the warehouse over plain counting semaphores, so
    everything proved there carries over. */
module RustWarehouse {
  import opened Transitions
  import opened Ring
  import opened Sums
  import opened Semaphore
  import W = Warehouse
  import Safety = WarehouseSafety

  datatype Producer = Producer(thread: W.Producer, nap: Nap)
  datatype Consumer = Consumer(thread: W.Consumer, nap: Nap)

  /** `strayProducers` and `strayConsumers`, the spurious wake-ups so far, are history. */
  datatype State = State(
    semEmpty: int, semFull: int, holder: W.Holder,
    ring: Ring, producers: seq<Producer>, consumers: seq<Consumer>,
    strayProducers: nat, strayConsumers: nat)

  /** `wake` is the sleeper that notify_one picks when the step notifies. */
  datatype Label =
    | ProducerMoves(i: nat, random: nat, wake: nat)
    | ConsumerMoves(j: nat, wake: nat)
    | SpuriousProducer(i: nat)
    | SpuriousConsumer(j: nat)

  function Cfg(n: nat): W.Config {
    W.Config(n, W.RustStyle)
  }

  function Init(n: nat, p: nat, c: nat): State {
    State(n, 0, W.Nobody, EmptyRing(n),
          seq(p, _ => Producer(W.Producer(W.WaitEmpty, 0), Awake)),
          seq(c, _ => Consumer(W.Consumer(W.WaitFull, 0), Awake)), 0, 0)
  }

  function SetProducer(s: State, i: nat, pc: W.ProducerPc, nap: Nap): State
    requires i < |s.producers|
  {
    s.(producers := s.producers[i := Producer(s.producers[i].thread.(pc := pc), nap)])
  }

  function SetConsumer(s: State, j: nat, pc: W.ConsumerPc, nap: Nap): State
    requires j < |s.consumers|
  {
    s.(consumers := s.consumers[j := Consumer(s.consumers[j].thread.(pc := pc), nap)])
  }

  predicate ProducerSleeps(s: State) {
    exists i :: 0 <= i < |s.producers| && s.producers[i].nap == Asleep
  }

  predicate ConsumerSleeps(s: State) {
    exists j :: 0 <= j < |s.consumers| && s.consumers[j].nap == Asleep
  }

  /** sem_empty.post(). */
  function PostEmpty(s: State, wake: nat): Option<State> {
    var t := s.(semEmpty := s.semEmpty + 1);
    if Notifies(s.semEmpty) && ProducerSleeps(s) then
      if wake < |s.producers| && s.producers[wake].nap == Asleep
      then Some(SetProducer(t, wake, W.WaitEmpty, Notified))
      else None
    else Some(t)
  }

  /** sem_full.post(). */
  function PostFull(s: State, wake: nat): Option<State> {
    var t := s.(semFull := s.semFull + 1);
    if Notifies(s.semFull) && ConsumerSleeps(s) then
      if wake < |s.consumers| && s.consumers[wake].nap == Asleep
      then Some(SetConsumer(t, wake, W.WaitFull, Notified))
      else None
    else Some(t)
  }

  function ProducerStep(n: nat, s: State, i: nat, random: nat, wake: nat): Option<State>
    requires i < |s.producers|
  {
    var p := s.producers[i].thread;
    match s.producers[i].nap
    case Asleep => None
    case Notified => Some(SetProducer(s, i, W.WaitLock, Awake))
    case Awake =>
      match p.pc
      case WaitEmpty =>
        var t := s.(semEmpty := s.semEmpty - 1);
        Some(if Blocks(s.semEmpty) then SetProducer(t, i, W.WaitEmpty, Asleep) else SetProducer(t, i, W.WaitLock, Awake))
      case WaitLock =>
        if s.holder == W.Nobody
        then Some(SetProducer(s.(holder := W.ByProducer(i)), i, W.AfterLock(W.RustStyle), Awake))
        else None
      case PostLock => Some(SetProducer(s.(holder := W.Nobody), i, W.PostFull, Awake))
      case PostFull => PostFull(SetProducer(s, i, W.WaitEmpty, Awake), wake)
      case _ =>
        match W.ProducerLocal(Cfg(n), s.ring, p, random)
        case None => None
        case Some((r, q)) => Some(s.(ring := r, producers := s.producers[i := Producer(q, Awake)]))
  }

  function ConsumerStep(n: nat, s: State, j: nat, wake: nat): Option<State>
    requires j < |s.consumers|
  {
    var c := s.consumers[j].thread;
    match s.consumers[j].nap
    case Asleep => None
    case Notified => Some(SetConsumer(s, j, W.AwaitLock, Awake))
    case Awake =>
      match c.pc
      case WaitFull =>
        var t := s.(semFull := s.semFull - 1);
        Some(if Blocks(s.semFull) then SetConsumer(t, j, W.WaitFull, Asleep) else SetConsumer(t, j, W.AwaitLock, Awake))
      case AwaitLock =>
        if s.holder == W.Nobody
        then Some(SetConsumer(s.(holder := W.ByConsumer(j)), j, W.Take, Awake))
        else None
      case ReleaseLock => Some(SetConsumer(s.(holder := W.Nobody), j, W.PostEmpty, Awake))
      case PostEmpty => PostEmpty(SetConsumer(s, j, W.WaitFull, Awake), wake)
      case _ =>
        match W.ConsumerLocal(Cfg(n), s.ring, c)
        case None => None
        case Some((r, d)) => Some(s.(ring := r, consumers := s.consumers[j := Consumer(d, Awake)]))
  }

  function Step(n: nat, s: State, l: Label): Option<State> {
    match l
    case ProducerMoves(i, random, wake) => if i < |s.producers| then ProducerStep(n, s, i, random, wake) else None
    case ConsumerMoves(j, wake) => if j < |s.consumers| then ConsumerStep(n, s, j, wake) else None
    case SpuriousProducer(i) =>
      if i < |s.producers| && s.producers[i].nap == Asleep
      then Some(SetProducer(s, i, W.WaitEmpty, Notified).(strayProducers := s.strayProducers + 1))
      else None
    case SpuriousConsumer(j) =>
      if j < |s.consumers| && s.consumers[j].nap == Asleep
      then Some(SetConsumer(s, j, W.WaitFull, Notified).(strayConsumers := s.strayConsumers + 1))
      else None
  }

  function Strays(s: State): nat {
    s.strayProducers + s.strayConsumers
  }

  function Machine(n: nat): (State, Label) -> Option<State> {
    (s, l) => Step(n, s, l)
  }

  /** The machine without spurious wake-ups. */
  function GenuineStep(n: nat, s: State, l: Label): Option<State> {
    if l.SpuriousProducer? || l.SpuriousConsumer? then None else Step(n, s, l)
  }

  function GenuineMachine(n: nat): (State, Label) -> Option<State> {
    (s, l) => GenuineStep(n, s, l)
  }

  lemma StepCountsStrays(n: nat, s: State, l: Label)
    requires Step(n, s, l).Some?
    ensures
      var t := Step(n, s, l).value;
      && t.strayProducers == s.strayProducers + (if l.SpuriousProducer? then 1 else 0)
      && t.strayConsumers == s.strayConsumers + (if l.SpuriousConsumer? then 1 else 0)
  {
  }

  lemma {:induction false} StraysGrow(n: nat, s: State, labels: seq<Label>, t: State)
    requires Exec(Machine(n), s, labels) == Some(t)
    ensures s.strayProducers <= t.strayProducers && s.strayConsumers <= t.strayConsumers
    ensures Strays(t) == Strays(s) ==> Exec(GenuineMachine(n), s, labels) == Some(t)
    decreases |labels|
  {
    if labels != [] {
      StepCountsStrays(n, s, labels[0]);
      StraysGrow(n, Step(n, s, labels[0]).value, labels[1..], t);
    }
  }

  function WakesProducer(l: Label): bool { l.SpuriousProducer? }
  function WakesConsumer(l: Label): bool { l.SpuriousConsumer? }

  /** The stray counts are the numbers of spurious wake-ups of the run. */
  lemma StraysAreWakeUps(n: nat, p: nat, c: nat, labels: seq<Label>, s: State)
    requires Reachable(n, p, c, labels, s)
    ensures s.strayProducers == HowMany(labels, WakesProducer) && s.strayConsumers == HowMany(labels, WakesConsumer)
  {
    forall s, l | Machine(n)(s, l).Some?
      ensures
        var t := Machine(n)(s, l).value;
        && t.strayProducers == s.strayProducers + (if WakesProducer(l) then 1 else 0)
        && t.strayConsumers == s.strayConsumers + (if WakesConsumer(l) then 1 else 0)
    {
      StepCountsStrays(n, s, l);
    }
    Tallying(Machine(n), (s: State) => s.strayProducers, WakesProducer, Init(n, p, c), labels);
    Tallying(Machine(n), (s: State) => s.strayConsumers, WakesConsumer, Init(n, p, c), labels);
  }

  // ----- abstraction: a sleeper still waits, a notified thread has been let through -----

  function AbsProducer(p: Producer): W.Producer {
    if p.nap == Notified then p.thread.(pc := W.WaitLock) else p.thread
  }

  function AbsConsumer(c: Consumer): W.Consumer {
    if c.nap == Notified then c.thread.(pc := W.AwaitLock) else c.thread
  }

  function AbsProducers(ps: seq<Producer>): (r: seq<W.Producer>)
    ensures |r| == |ps|
  {
    seq(|ps|, i requires 0 <= i < |ps| => AbsProducer(ps[i]))
  }

  function AbsConsumers(cs: seq<Consumer>): (r: seq<W.Consumer>)
    ensures |r| == |cs|
  {
    seq(|cs|, j requires 0 <= j < |cs| => AbsConsumer(cs[j]))
  }

  function Abs(s: State): W.State {
    W.State(Positive(s.semEmpty), Positive(s.semFull), if s.holder == W.Nobody then 1 else 0, s.holder,
            s.ring, AbsProducers(s.producers), AbsConsumers(s.consumers))
  }

  function ProducerAsleep(p: Producer): nat {
    IsAsleep(p.nap)
  }

  function ConsumerAsleep(c: Consumer): nat {
    IsAsleep(c.nap)
  }

  /** A thread naps only at its wait. */
  ghost predicate NapPlaces(s: State) {
    && (forall i :: 0 <= i < |s.producers| ==> s.producers[i].nap == Awake || s.producers[i].thread.pc == W.WaitEmpty)
    && (forall j :: 0 <= j < |s.consumers| ==> s.consumers[j].nap == Awake || s.consumers[j].thread.pc == W.WaitFull)
  }

  /** And without spurious wake-ups the sleepers are exactly what the counts owe. */
  ghost predicate Naps(s: State) {
    && NapPlaces(s)
    && Sum(s.producers, ProducerAsleep) == Positive(-s.semEmpty)
    && Sum(s.consumers, ConsumerAsleep) == Positive(-s.semFull)
  }

  /** The steps of the counting-semaphore warehouse that a step stands for. */
  function CountingImage(s: State, l: Label): seq<W.Label> {
    match l
    case ProducerMoves(i, random, wake) =>
      if !(i < |s.producers|) || s.producers[i].nap != Awake then []
      else if s.producers[i].thread.pc == W.WaitEmpty && Blocks(s.semEmpty) then []
      else if s.producers[i].thread.pc == W.PostFull && Notifies(s.semFull)
      then [W.ProducerMoves(i, random), W.ConsumerMoves(wake)]
      else [W.ProducerMoves(i, random)]
    case ConsumerMoves(j, wake) =>
      if !(j < |s.consumers|) || s.consumers[j].nap != Awake then []
      else if s.consumers[j].thread.pc == W.WaitFull && Blocks(s.semFull) then []
      else if s.consumers[j].thread.pc == W.PostEmpty && Notifies(s.semEmpty)
      then [W.ConsumerMoves(j), W.ProducerMoves(wake, 0)]
      else [W.ConsumerMoves(j)]
    case _ => []
  }

  lemma AbsProducersUpdate(ps: seq<Producer>, i: nat, p: Producer)
    requires i < |ps|
    ensures AbsProducers(ps[i := p]) == AbsProducers(ps)[i := AbsProducer(p)]
  {
  }

  lemma AbsConsumersUpdate(cs: seq<Consumer>, j: nat, c: Consumer)
    requires j < |cs|
    ensures AbsConsumers(cs[j := c]) == AbsConsumers(cs)[j := AbsConsumer(c)]
  {
  }

  lemma PostFullKeepsNaps(s: State, wake: nat)
    requires Naps(s) && PostFull(s, wake).Some?
    ensures Naps(PostFull(s, wake).value)
  {
    if Notifies(s.semFull) && ConsumerSleeps(s) {
      SumUpdate(s.consumers, wake, PostFull(s, wake).value.consumers[wake], ConsumerAsleep);
    } else if Notifies(s.semFull) {
      SumZero(s.consumers, ConsumerAsleep);
    }
  }

  lemma PostEmptyKeepsNaps(s: State, wake: nat)
    requires Naps(s) && PostEmpty(s, wake).Some?
    ensures Naps(PostEmpty(s, wake).value)
  {
    if Notifies(s.semEmpty) && ProducerSleeps(s) {
      SumUpdate(s.producers, wake, PostEmpty(s, wake).value.producers[wake], ProducerAsleep);
    } else if Notifies(s.semEmpty) {
      SumZero(s.producers, ProducerAsleep);
    }
  }

  predicate ProducerPosts(s: State, i: nat) {
    i < |s.producers| && s.producers[i].nap == Awake && s.producers[i].thread.pc == W.PostFull
  }

  predicate ConsumerPosts(s: State, j: nat) {
    j < |s.consumers| && s.consumers[j].nap == Awake && s.consumers[j].thread.pc == W.PostEmpty
  }

  lemma ProducerMinds(n: nat, s: State, i: nat, random: nat, wake: nat)
    requires i < |s.producers| && ProducerStep(n, s, i, random, wake).Some? && !ProducerPosts(s, i)
    ensures
      var t := ProducerStep(n, s, i, random, wake).value;
      && t.consumers == s.consumers && t.semFull == s.semFull
      && |t.producers| == |s.producers| && t.producers == s.producers[i := t.producers[i]]
      && (t.producers[i].nap == Awake || t.producers[i].thread.pc == W.WaitEmpty)
      && ProducerAsleep(t.producers[i]) - ProducerAsleep(s.producers[i]) == Positive(-t.semEmpty) - Positive(-s.semEmpty)
  {
  }

  lemma ProducerKeepsNaps(n: nat, s: State, i: nat, random: nat, wake: nat)
    requires Naps(s) && i < |s.producers| && ProducerStep(n, s, i, random, wake).Some?
    ensures Naps(ProducerStep(n, s, i, random, wake).value)
  {
    if ProducerPosts(s, i) {
      var u := SetProducer(s, i, W.WaitEmpty, Awake);
      SumUpdate(s.producers, i, u.producers[i], ProducerAsleep);
      PostFullKeepsNaps(u, wake);
    } else {
      ProducerMinds(n, s, i, random, wake);
      SumUpdate(s.producers, i, ProducerStep(n, s, i, random, wake).value.producers[i], ProducerAsleep);
    }
  }

  lemma ConsumerMinds(n: nat, s: State, j: nat, wake: nat)
    requires j < |s.consumers| && ConsumerStep(n, s, j, wake).Some? && !ConsumerPosts(s, j)
    ensures
      var t := ConsumerStep(n, s, j, wake).value;
      && t.producers == s.producers && t.semEmpty == s.semEmpty
      && |t.consumers| == |s.consumers| && t.consumers == s.consumers[j := t.consumers[j]]
      && (t.consumers[j].nap == Awake || t.consumers[j].thread.pc == W.WaitFull)
      && ConsumerAsleep(t.consumers[j]) - ConsumerAsleep(s.consumers[j]) == Positive(-t.semFull) - Positive(-s.semFull)
  {
  }

  lemma ConsumerKeepsNaps(n: nat, s: State, j: nat, wake: nat)
    requires Naps(s) && j < |s.consumers| && ConsumerStep(n, s, j, wake).Some?
    ensures Naps(ConsumerStep(n, s, j, wake).value)
  {
    if ConsumerPosts(s, j) {
      var u := SetConsumer(s, j, W.WaitFull, Awake);
      SumUpdate(s.consumers, j, u.consumers[j], ConsumerAsleep);
      PostEmptyKeepsNaps(u, wake);
    } else {
      ConsumerMinds(n, s, j, wake);
      SumUpdate(s.consumers, j, ConsumerStep(n, s, j, wake).value.consumers[j], ConsumerAsleep);
    }
  }

  lemma ExecOne(cfg: W.Config, a: W.State, l: W.Label)
    ensures Exec(W.Machine(cfg), a, [l]) == W.Step(cfg, a, l)
  {
    assert [l][1..] == [];
  }

  lemma ExecTwo(cfg: W.Config, a: W.State, l: W.Label, m: W.Label)
    requires W.Step(cfg, a, l).Some?
    ensures Exec(W.Machine(cfg), a, [l, m]) == W.Step(cfg, W.Step(cfg, a, l).value, m)
  {
    assert [l, m][1..] == [m];
    ExecOne(cfg, W.Step(cfg, a, l).value, m);
  }

  ghost predicate Orderly(s: State) {
    NapPlaces(s) && Safety.Locked(Abs(s))
  }

  ghost predicate Coherent(s: State) {
    Naps(s) && Safety.Locked(Abs(s))
  }

  lemma ExecKeepsLocked(cfg: W.Config, a: W.State, labels: seq<W.Label>)
    requires Safety.Locked(a) && Exec(W.Machine(cfg), a, labels).Some?
    ensures Safety.Locked(Exec(W.Machine(cfg), a, labels).value)
  {
    forall a, l | Safety.Locked(a) && W.Machine(cfg)(a, l).Some?
      ensures Safety.Locked(W.Machine(cfg)(a, l).value)
    {
      match l {
        case ProducerMoves(i, random) => Safety.ProducerLocked(cfg, a, i, random);
        case ConsumerMoves(j) => Safety.ConsumerLocked(cfg, a, j);
      }
    }
    Invariance(W.Machine(cfg), Safety.Locked, a, labels);
  }

  lemma ProducerStutters(n: nat, s: State, i: nat, random: nat, wake: nat)
    requires NapPlaces(s) && i < |s.producers| && ProducerStep(n, s, i, random, wake).Some?
    requires CountingImage(s, ProducerMoves(i, random, wake)) == []
    ensures Abs(ProducerStep(n, s, i, random, wake).value) == Abs(s)
  {
    var t := ProducerStep(n, s, i, random, wake).value;
    AbsProducersUpdate(s.producers, i, t.producers[i]);
    assert AbsProducers(t.producers) == AbsProducers(s.producers);
  }

  predicate Synchronises(pc: W.ProducerPc) {
    pc.WaitEmpty? || pc.WaitLock? || pc.PostLock?
  }

  lemma ProducerMirrorsLocal(n: nat, s: State, i: nat, random: nat, wake: nat)
    requires i < |s.producers| && s.producers[i].nap == Awake && ProducerStep(n, s, i, random, wake).Some?
    requires !Synchronises(s.producers[i].thread.pc) && !ProducerPosts(s, i)
    ensures W.Step(Cfg(n), Abs(s), W.ProducerMoves(i, random)) == Some(Abs(ProducerStep(n, s, i, random, wake).value))
  {
    AbsProducersUpdate(s.producers, i, ProducerStep(n, s, i, random, wake).value.producers[i]);
  }

  lemma ProducerMirrors(n: nat, s: State, i: nat, random: nat, wake: nat)
    requires Orderly(s) && i < |s.producers| && ProducerStep(n, s, i, random, wake).Some? && !ProducerPosts(s, i)
    requires CountingImage(s, ProducerMoves(i, random, wake)) != []
    ensures W.Step(Cfg(n), Abs(s), W.ProducerMoves(i, random)) == Some(Abs(ProducerStep(n, s, i, random, wake).value))
  {
    if Synchronises(s.producers[i].thread.pc) {
      AbsProducersUpdate(s.producers, i, ProducerStep(n, s, i, random, wake).value.producers[i]);
    } else {
      ProducerMirrorsLocal(n, s, i, random, wake);
    }
  }

  lemma ProducerSimulates(n: nat, s: State, i: nat, random: nat, wake: nat)
    requires Orderly(s) && i < |s.producers| && ProducerStep(n, s, i, random, wake).Some? && !ProducerPosts(s, i)
    ensures Exec(W.Machine(Cfg(n)), Abs(s), CountingImage(s, ProducerMoves(i, random, wake)))
            == Some(Abs(ProducerStep(n, s, i, random, wake).value))
  {
    if CountingImage(s, ProducerMoves(i, random, wake)) == [] {
      ProducerStutters(n, s, i, random, wake);
    } else {
      ProducerMirrors(n, s, i, random, wake);
      ExecOne(Cfg(n), Abs(s), W.ProducerMoves(i, random));
    }
  }

  lemma ProducerPostSimulates(n: nat, s: State, i: nat, random: nat, wake: nat)
    requires Naps(s) && ProducerPosts(s, i) && ProducerStep(n, s, i, random, wake).Some?
    ensures Exec(W.Machine(Cfg(n)), Abs(s), CountingImage(s, ProducerMoves(i, random, wake)))
            == Some(Abs(ProducerStep(n, s, i, random, wake).value))
  {
    var t := ProducerStep(n, s, i, random, wake).value;
    AbsProducersUpdate(s.producers, i, t.producers[i]);
    ExecOne(Cfg(n), Abs(s), W.ProducerMoves(i, random));
    if Notifies(s.semFull) {
      var w := SumWitness(s.consumers, ConsumerAsleep);
      assert ConsumerSleeps(s);
      AbsConsumersUpdate(s.consumers, wake, t.consumers[wake]);
      ExecTwo(Cfg(n), Abs(s), W.ProducerMoves(i, random), W.ConsumerMoves(wake));
    }
  }

  lemma ConsumerStutters(n: nat, s: State, j: nat, wake: nat)
    requires NapPlaces(s) && j < |s.consumers| && ConsumerStep(n, s, j, wake).Some?
    requires CountingImage(s, ConsumerMoves(j, wake)) == []
    ensures Abs(ConsumerStep(n, s, j, wake).value) == Abs(s)
  {
    var t := ConsumerStep(n, s, j, wake).value;
    AbsConsumersUpdate(s.consumers, j, t.consumers[j]);
    assert AbsConsumers(t.consumers) == AbsConsumers(s.consumers);
  }

  predicate ConsumerSynchronises(pc: W.ConsumerPc) {
    pc.WaitFull? || pc.AwaitLock? || pc.ReleaseLock?
  }

  lemma ConsumerMirrorsLocal(n: nat, s: State, j: nat, wake: nat)
    requires j < |s.consumers| && s.consumers[j].nap == Awake && ConsumerStep(n, s, j, wake).Some?
    requires !ConsumerSynchronises(s.consumers[j].thread.pc) && !ConsumerPosts(s, j)
    ensures W.Step(Cfg(n), Abs(s), W.ConsumerMoves(j)) == Some(Abs(ConsumerStep(n, s, j, wake).value))
  {
    AbsConsumersUpdate(s.consumers, j, ConsumerStep(n, s, j, wake).value.consumers[j]);
  }

  lemma ConsumerMirrors(n: nat, s: State, j: nat, wake: nat)
    requires Orderly(s) && j < |s.consumers| && ConsumerStep(n, s, j, wake).Some? && !ConsumerPosts(s, j)
    requires CountingImage(s, ConsumerMoves(j, wake)) != []
    ensures W.Step(Cfg(n), Abs(s), W.ConsumerMoves(j)) == Some(Abs(ConsumerStep(n, s, j, wake).value))
  {
    if ConsumerSynchronises(s.consumers[j].thread.pc) {
      AbsConsumersUpdate(s.consumers, j, ConsumerStep(n, s, j, wake).value.consumers[j]);
    } else {
      ConsumerMirrorsLocal(n, s, j, wake);
    }
  }

  lemma ConsumerSimulates(n: nat, s: State, j: nat, wake: nat)
    requires Orderly(s) && j < |s.consumers| && ConsumerStep(n, s, j, wake).Some? && !ConsumerPosts(s, j)
    ensures Exec(W.Machine(Cfg(n)), Abs(s), CountingImage(s, ConsumerMoves(j, wake)))
            == Some(Abs(ConsumerStep(n, s, j, wake).value))
  {
    if CountingImage(s, ConsumerMoves(j, wake)) == [] {
      ConsumerStutters(n, s, j, wake);
    } else {
      ConsumerMirrors(n, s, j, wake);
      ExecOne(Cfg(n), Abs(s), W.ConsumerMoves(j));
    }
  }

  lemma ConsumerPostSimulates(n: nat, s: State, j: nat, wake: nat)
    requires Naps(s) && ConsumerPosts(s, j) && ConsumerStep(n, s, j, wake).Some?
    ensures Exec(W.Machine(Cfg(n)), Abs(s), CountingImage(s, ConsumerMoves(j, wake)))
            == Some(Abs(ConsumerStep(n, s, j, wake).value))
  {
    var t := ConsumerStep(n, s, j, wake).value;
    AbsConsumersUpdate(s.consumers, j, t.consumers[j]);
    ExecOne(Cfg(n), Abs(s), W.ConsumerMoves(j));
    if Notifies(s.semEmpty) {
      var w := SumWitness(s.producers, ProducerAsleep);
      assert ProducerSleeps(s);
      AbsProducersUpdate(s.producers, wake, t.producers[wake]);
      ExecTwo(Cfg(n), Abs(s), W.ConsumerMoves(j), W.ProducerMoves(wake, 0));
    }
  }

  lemma StepSimulates(n: nat, s: State, l: Label)
    requires Coherent(s) && GenuineStep(n, s, l).Some?
    ensures Coherent(GenuineStep(n, s, l).value)
    ensures Exec(W.Machine(Cfg(n)), Abs(s), CountingImage(s, l)) == Some(Abs(GenuineStep(n, s, l).value))
  {
    match l {
      case ProducerMoves(i, random, wake) =>
        ProducerKeepsNaps(n, s, i, random, wake);
        if ProducerPosts(s, i) {
          ProducerPostSimulates(n, s, i, random, wake);
        } else {
          ProducerSimulates(n, s, i, random, wake);
        }
      case ConsumerMoves(j, wake) =>
        ConsumerKeepsNaps(n, s, j, wake);
        if ConsumerPosts(s, j) {
          ConsumerPostSimulates(n, s, j, wake);
        } else {
          ConsumerSimulates(n, s, j, wake);
        }
    }
    ExecKeepsLocked(Cfg(n), Abs(s), CountingImage(s, l));
  }

  ghost predicate Reachable(n: nat, p: nat, c: nat, labels: seq<Label>, s: State) {
    n > 0 && Exec(Machine(n), Init(n, p, c), labels) == Some(s)
  }

  /** The counting-semaphore run that a Rust run maps to. */
  function CountingRun(n: nat, p: nat, c: nat, labels: seq<Label>): seq<W.Label> {
    Image(GenuineMachine(n), CountingImage, Init(n, p, c), labels)
  }

  /** Every run of the Rust warehouse without spurious wake-ups is a run of the warehouse over counting
      semaphores. */
  lemma RefinesCountingWarehouse(n: nat, p: nat, c: nat, labels: seq<Label>, s: State)
    requires Reachable(n, p, c, labels, s) && Strays(s) == 0
    ensures Safety.Reachable(Cfg(n), p, c, CountingRun(n, p, c, labels), Abs(s))
    ensures Naps(s)
  {
    var s0 := Init(n, p, c);
    StraysGrow(n, s0, labels, s);
    SumZero(s0.producers, ProducerAsleep);
    SumZero(s0.consumers, ConsumerAsleep);
    assert Abs(s0) == W.Init(Cfg(n), p, c);
    forall s, l | Coherent(s) && GenuineMachine(n)(s, l).Some?
      ensures Coherent(GenuineMachine(n)(s, l).value)
      ensures Exec(W.Machine(Cfg(n)), Abs(s), CountingImage(s, l)) == Some(Abs(GenuineMachine(n)(s, l).value))
    {
      StepSimulates(n, s, l);
    }
    Simulation(GenuineMachine(n), W.Machine(Cfg(n)), Coherent, Abs, CountingImage, s0, labels);
  }
}

/** The warehouse of rust/r_lab05_b.rs statement by statement down to the inside of its two semaphores:
    the thread bodies of `Warehouse` (Rust style) over the machine of `FineSemaphore`, in which taking the
    semaphore's mutex, changing the count, testing it, sleeping and notifying are steps of their own.
    Every run of it is a run of `RustWarehouse`, in which each call takes effect at once. */
module FineWarehouse {
  import opened Transitions
  import opened Ring
  import opened FineSemaphore
  import Sem = Semaphore
  import R = RustWarehouse
  import W = Warehouse

  /** On `empty` the producers wait and the consumers, numbered after them, post; on `full` the roles are
      exchanged. */
  datatype State = State(
    empty: Fine, full: Fine, holder: W.Holder,
    ring: Ring, producers: seq<W.Producer>, consumers: seq<W.Consumer>)

  function Init(n: nat, p: nat, c: nat): State {
    State(Fresh(n, p + c), Fresh(0, c + p), W.Nobody, EmptyRing(n),
          seq(p, _ => W.Producer(W.WaitEmpty, 0)), seq(c, _ => W.Consumer(W.WaitFull, 0)))
  }

  function PutProducer(s: State, i: nat, pc: W.ProducerPc): State
    requires i < |s.producers|
  {
    s.(producers := s.producers[i := s.producers[i].(pc := pc)])
  }

  function PutConsumer(s: State, j: nat, pc: W.ConsumerPc): State
    requires j < |s.consumers|
  {
    s.(consumers := s.consumers[j := s.consumers[j].(pc := pc)])
  }

  /** The next statement of a call that thread t is in, or the call itself. */
  function Waiting(m: Fine, t: nat): Option<Fine> {
    FineStep(m, if On(m, t, Idle) then CallWait(t) else Move(t, 0))
  }

  function Posting(m: Fine, t: nat, wake: nat): Option<Fine> {
    FineStep(m, if On(m, t, Idle) then CallPost(t) else Move(t, wake))
  }

  /** A thread goes on when its call has returned. */
  function AfterPostFull(s: State, i: nat, m: Fine): State
    requires i < |s.producers|
  {
    if On(m, |s.consumers| + i, Idle) then PutProducer(s.(full := m), i, W.WaitEmpty) else s.(full := m)
  }

  function AfterPostEmpty(s: State, j: nat, m: Fine): State
    requires j < |s.consumers|
  {
    if On(m, |s.producers| + j, Idle) then PutConsumer(s.(empty := m), j, W.WaitFull) else s.(empty := m)
  }

  function ProducerStep(n: nat, s: State, i: nat, random: nat, wake: nat): Option<State>
    requires i < |s.producers|
  {
    match s.producers[i].pc
    case WaitEmpty =>
      (match Waiting(s.empty, i)
       case None => None
       case Some(m) => Some(if On(m, i, Idle) then PutProducer(s.(empty := m), i, W.WaitLock) else s.(empty := m)))
    case PostFull =>
      (match Posting(s.full, |s.consumers| + i, wake)
       case None => None
       case Some(m) => Some(AfterPostFull(s, i, m)))
    case WaitLock =>
      if s.holder == W.Nobody
      then Some(PutProducer(s.(holder := W.ByProducer(i)), i, W.AfterLock(W.RustStyle)))
      else None
    case PostLock => Some(PutProducer(s.(holder := W.Nobody), i, W.PostFull))
    case _ =>
      match W.ProducerLocal(R.Cfg(n), s.ring, s.producers[i], random)
      case None => None
      case Some((r, q)) => Some(s.(ring := r, producers := s.producers[i := q]))
  }

  function ConsumerStep(n: nat, s: State, j: nat, wake: nat): Option<State>
    requires j < |s.consumers|
  {
    match s.consumers[j].pc
    case WaitFull =>
      (match Waiting(s.full, j)
       case None => None
       case Some(m) => Some(if On(m, j, Idle) then PutConsumer(s.(full := m), j, W.AwaitLock) else s.(full := m)))
    case PostEmpty =>
      (match Posting(s.empty, |s.producers| + j, wake)
       case None => None
       case Some(m) => Some(AfterPostEmpty(s, j, m)))
    case AwaitLock =>
      if s.holder == W.Nobody
      then Some(PutConsumer(s.(holder := W.ByConsumer(j)), j, W.Take))
      else None
    case ReleaseLock => Some(PutConsumer(s.(holder := W.Nobody), j, W.PostEmpty))
    case _ =>
      match W.ConsumerLocal(R.Cfg(n), s.ring, s.consumers[j])
      case None => None
      case Some((r, d)) => Some(s.(ring := r, consumers := s.consumers[j := d]))
  }

  function Step(n: nat, s: State, l: R.Label): Option<State> {
    match l
    case ProducerMoves(i, random, wake) => if i < |s.producers| then ProducerStep(n, s, i, random, wake) else None
    case ConsumerMoves(j, wake) => if j < |s.consumers| then ConsumerStep(n, s, j, wake) else None
    case SpuriousProducer(i) =>
      if !(i < |s.producers|) then None
      else (match FineStep(s.empty, Stir(i)) case None => None case Some(m) => Some(s.(empty := m)))
    case SpuriousConsumer(j) =>
      if !(j < |s.consumers|) then None
      else (match FineStep(s.full, Stir(j)) case None => None case Some(m) => Some(s.(full := m)))
  }

  function Machine(n: nat): (State, R.Label) -> Option<State> {
    (s, l) => Step(n, s, l)
  }

  // ----- invariant: who is where in which semaphore -----

  predicate MayWait(pc: Pc) {
    pc == Idle || pc == EnterWait || pc == WaitLocked || pc == Lowered || pc == Sleeping || pc == Woken || pc == Relocked
  }

  predicate MayPost(pc: Pc) {
    pc == Idle || pc == EnterPost || pc == PostLocked || pc == Raised || pc == PostDone
  }

  /** The first `waiters` threads of a semaphore wait on it, the others post it. */
  ghost predicate Roles(m: Fine, waiters: nat) {
    && Exclusive(m)
    && (forall t :: 0 <= t < |m.threads| && t < waiters ==> MayWait(m.threads[t]))
    && (forall t :: waiters <= t < |m.threads| ==> MayPost(m.threads[t]))
  }

  predicate Sized(s: State) {
    |s.empty.threads| == |s.full.threads| == |s.producers| + |s.consumers|
  }

  predicate ProducerPlaced(s: State, i: nat)
    requires Sized(s) && i < |s.producers|
  {
    && (s.empty.threads[i] != Idle ==> s.producers[i].pc == W.WaitEmpty)
    && (s.full.threads[|s.consumers| + i] != Idle ==> s.producers[i].pc == W.PostFull)
  }

  predicate ConsumerPlaced(s: State, j: nat)
    requires Sized(s) && j < |s.consumers|
  {
    && (s.full.threads[j] != Idle ==> s.consumers[j].pc == W.WaitFull)
    && (s.empty.threads[|s.producers| + j] != Idle ==> s.consumers[j].pc == W.PostEmpty)
  }

  ghost predicate Places(s: State) {
    && Sized(s)
    && (forall i :: 0 <= i < |s.producers| ==> ProducerPlaced(s, i))
    && (forall j :: 0 <= j < |s.consumers| ==> ConsumerPlaced(s, j))
  }

  ghost predicate Inv(s: State) {
    Places(s) && Roles(s.empty, |s.producers|) && Roles(s.full, |s.consumers|)
  }

  /** A step changes the place of its own thread and of the sleeper it wakes, and the count only while
      nobody else is about to test it. */
  lemma Frame(m: Fine, l: Turn)
    requires Exclusive(m) && FineStep(m, l).Some?
    ensures
      var m' := FineStep(m, l).value;
      && |m'.threads| == |m.threads| && l.t < |m.threads|
      && (forall t :: 0 <= t < |m.threads| && t != l.t ==>
            || (m'.threads[t] == m.threads[t] && (m.threads[t] == Lowered ==> m'.value == m.value))
            || (l.Move? && t == l.chosen && m.threads[l.t] == Raised && m.threads[t] == Sleeping && m'.threads[t] == Woken))
  {
  }

  lemma WaitingKeepsRoles(m: Fine, t: nat, waiters: nat)
    requires Roles(m, waiters) && t < waiters && Waiting(m, t).Some?
    ensures Roles(Waiting(m, t).value, waiters)
  {
    var l := if On(m, t, Idle) then CallWait(t) else Move(t, 0);
    StepKeepsExclusive(m, l);
    Frame(m, l);
  }

  lemma PostingKeepsRoles(m: Fine, t: nat, wake: nat, waiters: nat)
    requires Roles(m, waiters) && waiters <= t && Posting(m, t, wake).Some?
    ensures Roles(Posting(m, t, wake).value, waiters)
  {
    var l := if On(m, t, Idle) then CallPost(t) else Move(t, wake);
    StepKeepsExclusive(m, l);
    Frame(m, l);
  }

  // ----- what the statements of a call do -----

  function CountOf(m: Fine): int {
    m.value - (if HolderPc(m) == Raised then 1 else 0)
  }

  /** Nothing about the other threads of a semaphore shows. */
  ghost predicate SameElsewhere(m: Fine, m': Fine, t: nat) {
    && |m'.threads| == |m.threads|
    && (forall u :: 0 <= u < |m.threads| && u != t ==> m'.threads[u] == m.threads[u])
    && (m'.value == m.value || forall u :: 0 <= u < |m.threads| && u != t ==> m.threads[u] != Lowered)
  }

  function AfterWaiting(value: int, pc: Pc): Pc {
    match pc
    case Idle => EnterWait
    case EnterWait => WaitLocked
    case WaitLocked => Lowered
    case Lowered => if value < 0 then Sleeping else Idle
    case Woken => Relocked
    case _ => Idle
  }

  ghost predicate Waited(m: Fine, t: nat, m': Fine) {
    && t < |m.threads| && SameElsewhere(m, m', t) && m'.spurious == m.spurious
    && m.threads[t] != Sleeping && m'.threads[t] == AfterWaiting(m.value, m.threads[t])
    && CountOf(m') == CountOf(m) - (if m.threads[t] == WaitLocked then 1 else 0)
    && m'.value == m.value - (if m.threads[t] == WaitLocked then 1 else 0)
    && (m.threads[t] == WaitLocked ==> m'.value == CountOf(m'))
  }

  lemma WaitingEffect(m: Fine, t: nat, waiters: nat)
    requires Roles(m, waiters) && t < waiters && Waiting(m, t).Some?
    ensures Waited(m, t, Waiting(m, t).value)
    ensures Roles(Waiting(m, t).value, waiters)
  {
    var l := if On(m, t, Idle) then CallWait(t) else Move(t, 0);
    Frame(m, l);
    WaitingKeepsRoles(m, t, waiters);
  }

  lemma StirEffect(m: Fine, t: nat, waiters: nat)
    requires Roles(m, waiters) && FineStep(m, Stir(t)).Some?
    ensures
      var m' := FineStep(m, Stir(t)).value;
      && Roles(m', waiters) && t < |m.threads| && SameElsewhere(m, m', t) && m.threads[t] == Sleeping && m'.threads[t] == Woken
      && m'.value == m.value && CountOf(m') == CountOf(m) && m'.spurious == m.spurious + 1
  {
    Frame(m, Stir(t));
    StepKeepsExclusive(m, Stir(t));
  }

  function AfterPosting(pc: Pc): Pc {
    match pc
    case Idle => EnterPost
    case EnterPost => PostLocked
    case PostLocked => Raised
    case Raised => PostDone
    case _ => Idle
  }

  /** The post wakes somebody. */
  predicate Wakes(m: Fine, t: nat)
    requires t < |m.threads|
  {
    m.threads[t] == Raised && Sem.Notifies(CountOf(m)) && AnySleeping(m.threads)
  }

  ghost predicate Posted(m: Fine, t: nat, wake: nat, waiters: nat, m': Fine) {
    && t < |m.threads| == |m'.threads| && m'.spurious == m.spurious
    && m'.threads[t] == AfterPosting(m.threads[t])
    && CountOf(m') == CountOf(m) + (if m.threads[t] == Raised then 1 else 0)
    && (Wakes(m, t) ==> wake < waiters && wake < |m.threads| && m.threads[wake] == Sleeping && m'.threads[wake] == Woken)
    && PostedElsewhere(m, t, wake, m')
  }

  ghost predicate PostedElsewhere(m: Fine, t: nat, wake: nat, m': Fine) {
    && t < |m.threads| == |m'.threads|
    && (m'.value == m.value || forall u :: 0 <= u < |m.threads| && u != t ==> m.threads[u] != Lowered)
    && (forall u :: 0 <= u < |m.threads| && u != t && !(Wakes(m, t) && u == wake) ==> m'.threads[u] == m.threads[u])
  }

  lemma PostingEffect(m: Fine, t: nat, wake: nat, waiters: nat)
    requires Roles(m, waiters) && waiters <= t && Posting(m, t, wake).Some?
    ensures Posted(m, t, wake, waiters, Posting(m, t, wake).value)
    ensures Roles(Posting(m, t, wake).value, waiters)
  {
    var l := if On(m, t, Idle) then CallPost(t) else Move(t, wake);
    Frame(m, l);
    PostingKeepsRoles(m, t, wake, waiters);
  }

  // ----- abstraction: wait takes effect when it lowers the count, post when it has notified -----

  function ViewProducer(p: W.Producer, value: int, waitPc: Pc, postPc: Pc): R.Producer {
    R.Producer(
      p.(pc := if p.pc == W.WaitEmpty && waitPc == Lowered && value >= 0 then W.WaitLock
               else if p.pc == W.PostFull && postPc == PostDone then W.WaitEmpty
               else p.pc),
      AbsNap(value, waitPc))
  }

  function ViewConsumer(c: W.Consumer, value: int, waitPc: Pc, postPc: Pc): R.Consumer {
    R.Consumer(
      c.(pc := if c.pc == W.WaitFull && waitPc == Lowered && value >= 0 then W.AwaitLock
               else if c.pc == W.PostEmpty && postPc == PostDone then W.WaitFull
               else c.pc),
      AbsNap(value, waitPc))
  }

  function ProducerAt(s: State, i: nat): R.Producer
    requires Sized(s) && i < |s.producers|
  {
    ViewProducer(s.producers[i], s.empty.value, s.empty.threads[i], s.full.threads[|s.consumers| + i])
  }

  function ConsumerAt(s: State, j: nat): R.Consumer
    requires Sized(s) && j < |s.consumers|
  {
    ViewConsumer(s.consumers[j], s.full.value, s.full.threads[j], s.empty.threads[|s.producers| + j])
  }

  function View(s: State): (r: R.State)
    requires Sized(s)
    ensures |r.producers| == |s.producers| && |r.consumers| == |s.consumers|
  {
    R.State(CountOf(s.empty), CountOf(s.full), s.holder, s.ring,
            seq(|s.producers|, i requires 0 <= i < |s.producers| => ProducerAt(s, i)),
            seq(|s.consumers|, j requires 0 <= j < |s.consumers| => ConsumerAt(s, j)),
            s.empty.spurious, s.full.spurious)
  }

  function Abs(s: State): R.State {
    if Sized(s) then View(s) else R.Init(0, 0, 0)
  }

  /** The steps of calls in which they take effect, and all steps outside calls. */
  predicate Visible(s: State, l: R.Label)
    requires Sized(s)
  {
    match l
    case ProducerMoves(i, _, _) =>
      i < |s.producers| &&
      (match s.producers[i].pc
       case WaitEmpty => s.empty.threads[i] == WaitLocked || s.empty.threads[i] == Relocked
       case PostFull => s.full.threads[|s.consumers| + i] == Raised
       case _ => true)
    case ConsumerMoves(j, _) =>
      j < |s.consumers| &&
      (match s.consumers[j].pc
       case WaitFull => s.full.threads[j] == WaitLocked || s.full.threads[j] == Relocked
       case PostEmpty => s.empty.threads[|s.producers| + j] == Raised
       case _ => true)
    case _ => true
  }

  function SectionsOf(s: State, l: R.Label): seq<R.Label> {
    if Sized(s) && Visible(s, l) then [l] else []
  }

  /** That step, or none, of the coarser machine. */
  ghost predicate Shows(n: nat, s: State, l: R.Label, t: State)
    requires Sized(s) && Sized(t)
  {
    if Visible(s, l) then R.Step(n, View(s), l) == Some(View(t)) else View(t) == View(s)
  }

  /** A step refines: it keeps the invariant and is that step, or none, of the coarser machine. */
  ghost predicate Refines(n: nat, s: State, l: R.Label, t: State) {
    Inv(s) && Inv(t) && Shows(n, s, l, t)
  }

  // ----- what a step leaves alone -----

  predicate ProducerAgrees(s: State, t: State, i: nat)
    requires Sized(s) && Sized(t) && i < |s.producers| == |t.producers| && |s.consumers| == |t.consumers|
  {
    ProducerAt(t, i) == ProducerAt(s, i) && (ProducerPlaced(s, i) ==> ProducerPlaced(t, i))
  }

  predicate ConsumerAgrees(s: State, t: State, j: nat)
    requires Sized(s) && Sized(t) && j < |s.consumers| == |t.consumers| && |s.producers| == |t.producers|
  {
    ConsumerAt(t, j) == ConsumerAt(s, j) && (ConsumerPlaced(s, j) ==> ConsumerPlaced(t, j))
  }

  /** All threads look the same but producer i and consumer j; -1 stands for none. */
  ghost predicate Agree(s: State, t: State, i: int, j: int) {
    && Sized(s) && Sized(t) && |s.producers| == |t.producers| && |s.consumers| == |t.consumers|
    && -1 <= i < |s.producers| && -1 <= j < |s.consumers|
    && (forall u :: 0 <= u < |s.producers| && u != i ==> ProducerAgrees(s, t, u))
    && (forall u :: 0 <= u < |s.consumers| && u != j ==> ConsumerAgrees(s, t, u))
  }

  lemma AgreeKeepsPlaces(s: State, t: State, i: int, j: int)
    requires Agree(s, t, i, j) && Places(s)
    requires (i >= 0 ==> ProducerPlaced(t, i)) && (j >= 0 ==> ConsumerPlaced(t, j))
    ensures Places(t)
  {
    forall u | 0 <= u < |t.producers|
      ensures ProducerPlaced(t, u)
    {
      assert ProducerPlaced(s, u);
      assert u != i ==> ProducerAgrees(s, t, u);
    }
    forall u | 0 <= u < |t.consumers|
      ensures ConsumerPlaced(t, u)
    {
      assert ConsumerPlaced(s, u);
      assert u != j ==> ConsumerAgrees(s, t, u);
    }
  }

  lemma AgreeViews(s: State, t: State, i: int, j: int)
    requires Agree(s, t, i, j)
    ensures View(t).producers == (if i >= 0 then View(s).producers[i := ProducerAt(t, i)] else View(s).producers)
    ensures View(t).consumers == (if j >= 0 then View(s).consumers[j := ConsumerAt(t, j)] else View(s).consumers)
  {
    var ps := if i >= 0 then View(s).producers[i := ProducerAt(t, i)] else View(s).producers;
    var cs := if j >= 0 then View(s).consumers[j := ConsumerAt(t, j)] else View(s).consumers;
    forall u | 0 <= u < |s.producers|
      ensures View(t).producers[u] == ps[u]
    {
      assert u != i ==> ProducerAgrees(s, t, u);
    }
    forall u | 0 <= u < |s.consumers|
      ensures View(t).consumers[u] == cs[u]
    {
      assert u != j ==> ConsumerAgrees(s, t, u);
    }
    assert View(t).producers == ps && View(t).consumers == cs;
  }

  /** A thread looks the same if its places are, and the count if it is about to test it. */
  predicate Undisturbed(m: Fine, m': Fine, t: nat) {
    && t < |m.threads| == |m'.threads| && m'.threads[t] == m.threads[t] && (m'.value == m.value || m.threads[t] != Lowered)
  }

  lemma PostedUndisturbed(m: Fine, t: nat, wake: nat, m': Fine, u: nat)
    requires PostedElsewhere(m, t, wake, m') && u < |m.threads| && u != t && !(Wakes(m, t) && u == wake)
    ensures Undisturbed(m, m', u)
  {
  }

  lemma ProducerUndisturbed(s: State, t: State, i: nat)
    requires Sized(s) && Sized(t) && i < |s.producers| == |t.producers| && |s.consumers| == |t.consumers|
    requires t.producers[i] == s.producers[i] && Undisturbed(s.empty, t.empty, i) && Undisturbed(s.full, t.full, |s.consumers| + i)
    ensures ProducerAgrees(s, t, i)
  {
  }

  lemma ConsumerUndisturbed(s: State, t: State, j: nat)
    requires Sized(s) && Sized(t) && j < |s.consumers| == |t.consumers| && |s.producers| == |t.producers|
    requires t.consumers[j] == s.consumers[j] && Undisturbed(s.full, t.full, j) && Undisturbed(s.empty, t.empty, |s.producers| + j)
    ensures ConsumerAgrees(s, t, j)
  {
  }
}

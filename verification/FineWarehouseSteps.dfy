/** Each step of the statement-level warehouse is a step of `RustWarehouse`, or does not show there. The two
    halves are mirror images: producers wait on `empty` and post `full`, consumers the other way round. */
module FineWarehouseSteps {
  import opened Transitions
  import opened FineSemaphore
  import opened FineWarehouse
  import Sem = Semaphore
  import R = RustWarehouse
  import W = Warehouse

  // ----- producers -----

  /** The producer after the next statement of its wait. */
  function WaitedProducer(value: int, p: W.Producer, pc: Pc): W.Producer {
    if AfterWaiting(value, pc) == Idle then p.(pc := W.WaitLock) else p
  }

  ghost predicate ProducerWaited(s: State, i: nat, t: State) {
    && Sized(s) && i < |s.producers| && s.producers[i].pc == W.WaitEmpty
    && t == s.(empty := t.empty, producers := s.producers[i := WaitedProducer(s.empty.value, s.producers[i], s.empty.threads[i])])
    && Waited(s.empty, i, t.empty)
  }

  lemma ProducerWaitsShape(n: nat, s: State, i: nat, random: nat, wake: nat)
    requires Sized(s) && Roles(s.empty, |s.producers|)
    requires i < |s.producers| && s.producers[i].pc == W.WaitEmpty && ProducerStep(n, s, i, random, wake).Some?
    ensures ProducerWaited(s, i, ProducerStep(n, s, i, random, wake).value)
    ensures Roles(ProducerStep(n, s, i, random, wake).value.empty, |s.producers|)
  {
    WaitingEffect(s.empty, i, |s.producers|);
    assert s.producers == s.producers[i := s.producers[i]];
  }

  /** Nothing changes but producer i and its place in the semaphore it waits on. */
  ghost predicate OnlyProducer(s: State, i: nat, t: State) {
    && Sized(s) && Sized(t) && i < |s.producers| == |t.producers| && t.consumers == s.consumers && t.full == s.full
    && (forall u :: 0 <= u < |s.producers| && u != i ==> t.producers[u] == s.producers[u])
    && SameElsewhere(s.empty, t.empty, i)
  }

  lemma OnlyProducerAgrees(s: State, i: nat, t: State)
    requires OnlyProducer(s, i, t)
    ensures Agree(s, t, i, -1)
  {
    forall u | 0 <= u < |s.producers| && u != i
      ensures ProducerAgrees(s, t, u)
    {
      ProducerUndisturbed(s, t, u);
    }
    forall u | 0 <= u < |s.consumers|
      ensures ConsumerAgrees(s, t, u)
    {
      ConsumerUndisturbed(s, t, u);
    }
  }

  lemma ProducerWaitsAlone(s: State, i: nat, t: State)
    requires ProducerWaited(s, i, t) && ProducerPlaced(s, i)
    ensures OnlyProducer(s, i, t) && ProducerPlaced(t, i)
  {
  }

  /** Where the wait stands in the coarser machine: lowering the count decides between sleep and the next
      statement, getting the mutex back ends the nap, nothing else shows. */
  lemma WaitingProducerView(value: int, p: W.Producer, pc: Pc, postPc: Pc, value': int)
    requires p.pc == W.WaitEmpty && MayWait(pc) && pc != Sleeping
    requires value' == value - (if pc == WaitLocked then 1 else 0)
    ensures
      var before := ViewProducer(p, value, pc, postPc);
      var after := ViewProducer(WaitedProducer(value, p, pc), value', AfterWaiting(value, pc), postPc);
      match pc
      case WaitLocked =>
        && before == R.Producer(p, Sem.Awake)
        && after == (if value' < 0 then R.Producer(p, Sem.Asleep) else R.Producer(p.(pc := W.WaitLock), Sem.Awake))
      case Relocked => before == R.Producer(p, Sem.Notified) && after == R.Producer(p.(pc := W.WaitLock), Sem.Awake)
      case _ => after == before
  {
  }

  lemma ProducerWaits(n: nat, s: State, i: nat, random: nat, wake: nat)
    requires Inv(s) && i < |s.producers| && s.producers[i].pc == W.WaitEmpty && ProducerStep(n, s, i, random, wake).Some?
    ensures Refines(n, s, R.ProducerMoves(i, random, wake), ProducerStep(n, s, i, random, wake).value)
  {
    ProducerWaitsShape(n, s, i, random, wake);
    ProducerWaitedRefines(n, s, i, random, wake, ProducerStep(n, s, i, random, wake).value);
  }

  lemma ProducerWaitedRefines(n: nat, s: State, i: nat, random: nat, wake: nat, t: State)
    requires Inv(s) && ProducerWaited(s, i, t) && Roles(t.empty, |s.producers|)
    ensures Refines(n, s, R.ProducerMoves(i, random, wake), t)
  {
    assert ProducerPlaced(s, i);
    assert MayWait(s.empty.threads[i]);
    ProducerWaitsAlone(s, i, t);
    OnlyProducerAgrees(s, i, t);
    AgreeKeepsPlaces(s, t, i, -1);
    ProducerWaitedShows(n, s, i, random, wake, t);
  }

  lemma ProducerWaitedShows(n: nat, s: State, i: nat, random: nat, wake: nat, t: State)
    requires ProducerWaited(s, i, t) && Agree(s, t, i, -1) && MayWait(s.empty.threads[i])
    ensures Shows(n, s, R.ProducerMoves(i, random, wake), t)
  {
    AgreeViews(s, t, i, -1);
    WaitingProducerView(s.empty.value, s.producers[i], s.empty.threads[i], s.full.threads[|s.consumers| + i], t.empty.value);
    if !Visible(s, R.ProducerMoves(i, random, wake)) {
      assert View(s).producers[i := ProducerAt(t, i)] == View(s).producers;
    }
  }

  /** The producer after the next statement of its post. */
  function PostedProducer(p: W.Producer, pc: Pc): W.Producer {
    if AfterPosting(pc) == Idle then p.(pc := W.WaitEmpty) else p
  }

  ghost predicate ProducerPosted(s: State, i: nat, wake: nat, t: State) {
    && Sized(s) && i < |s.producers| && s.producers[i].pc == W.PostFull
    && t == s.(full := t.full, producers := s.producers[i := PostedProducer(s.producers[i], s.full.threads[|s.consumers| + i])])
    && Posted(s.full, |s.consumers| + i, wake, |s.consumers|, t.full)
  }

  lemma ProducerPostsShape(n: nat, s: State, i: nat, random: nat, wake: nat)
    requires Sized(s) && Roles(s.full, |s.consumers|)
    requires i < |s.producers| && s.producers[i].pc == W.PostFull && ProducerStep(n, s, i, random, wake).Some?
    ensures ProducerPosted(s, i, wake, ProducerStep(n, s, i, random, wake).value)
    ensures Roles(ProducerStep(n, s, i, random, wake).value.full, |s.consumers|)
  {
    PostingEffect(s.full, |s.consumers| + i, wake, |s.consumers|);
    ProducerPostsOn(s, i, wake, Posting(s.full, |s.consumers| + i, wake).value);
  }

  lemma ProducerPostsOn(s: State, i: nat, wake: nat, m: Fine)
    requires Sized(s) && i < |s.producers| && s.producers[i].pc == W.PostFull
    requires Posted(s.full, |s.consumers| + i, wake, |s.consumers|, m)
    ensures ProducerPosted(s, i, wake, AfterPostFull(s, i, m))
  {
    assert s.producers == s.producers[i := s.producers[i]];
  }

  /** The consumer that the post wakes, if any. */
  function WokenConsumer(s: State, i: nat, wake: nat): int
    requires Sized(s) && i < |s.producers|
  {
    if Wakes(s.full, |s.consumers| + i) then wake else -1
  }

  /** Nothing changes but producer i, its place in the semaphore it posts, and the thread woken. */
  ghost predicate ProducerAndWoken(s: State, i: nat, wake: nat, t: State) {
    && Sized(s) && Sized(t) && i < |s.producers| == |t.producers| && t.consumers == s.consumers && t.empty == s.empty
    && (forall u :: 0 <= u < |s.producers| && u != i ==> t.producers[u] == s.producers[u])
    && PostedElsewhere(s.full, |s.consumers| + i, wake, t.full) && WokenConsumer(s, i, wake) < |s.consumers|
  }

  lemma ProducerAndWokenAgree(s: State, i: nat, wake: nat, t: State)
    requires ProducerAndWoken(s, i, wake, t)
    ensures Agree(s, t, i, WokenConsumer(s, i, wake))
  {
    forall u | 0 <= u < |s.producers| && u != i
      ensures ProducerAgrees(s, t, u)
    {
      PostedUndisturbed(s.full, |s.consumers| + i, wake, t.full, |s.consumers| + u);
      ProducerUndisturbed(s, t, u);
    }
    forall u | 0 <= u < |s.consumers| && u != WokenConsumer(s, i, wake)
      ensures ConsumerAgrees(s, t, u)
    {
      PostedUndisturbed(s.full, |s.consumers| + i, wake, t.full, u);
      ConsumerUndisturbed(s, t, u);
    }
  }

  lemma ProducerPostsPlaced(s: State, i: nat, wake: nat, t: State)
    requires ProducerPosted(s, i, wake, t) && ProducerPlaced(s, i)
    requires WokenConsumer(s, i, wake) >= 0 ==> ConsumerPlaced(s, wake)
    ensures ProducerAndWoken(s, i, wake, t) && ProducerPlaced(t, i)
    ensures WokenConsumer(s, i, wake) >= 0 ==> ConsumerPlaced(t, wake)
  {
  }

  /** While somebody is about to notify nobody is about to test the count, so whoever seems to sleep does. */
  lemma ConsumerSleepsIn(s: State, i: nat)
    requires Sized(s) && Roles(s.full, |s.consumers|)
    requires i < |s.producers| && s.full.threads[|s.consumers| + i] == Raised
    ensures R.ConsumerSleeps(View(s)) <==> AnySleeping(s.full.threads)
  {
    if AnySleeping(s.full.threads) {
      var u :| 0 <= u < |s.full.threads| && s.full.threads[u] == Sleeping;
      assert u < |s.consumers|;
      assert View(s).consumers[u].nap == Sem.Asleep;
    }
    if R.ConsumerSleeps(View(s)) {
      var u :| 0 <= u < |s.consumers| && View(s).consumers[u].nap == Sem.Asleep;
      assert s.full.threads[u] == Sleeping;
    }
  }

  lemma PostingProducerView(s: State, i: nat, wake: nat, t: State)
    requires ProducerPosted(s, i, wake, t) && Sized(t) && ProducerPlaced(s, i)
    requires MayPost(s.full.threads[|s.consumers| + i])
    ensures
      var (pc, p) := (s.full.threads[|s.consumers| + i], s.producers[i]);
      && ProducerAt(s, i) == R.Producer(if pc == PostDone then p.(pc := W.WaitEmpty) else p, Sem.Awake)
      && ProducerAt(t, i) == R.Producer(if pc == Raised || pc == PostDone then p.(pc := W.WaitEmpty) else p, Sem.Awake)
  {
  }

  lemma WokenConsumerView(s: State, i: nat, wake: nat, t: State)
    requires ProducerPosted(s, i, wake, t) && Sized(t) && WokenConsumer(s, i, wake) >= 0
    requires wake < |s.consumers| && ConsumerPlaced(s, wake)
    ensures ConsumerAt(s, wake) == R.Consumer(s.consumers[wake], Sem.Asleep) && s.consumers[wake].pc == W.WaitFull
    ensures ConsumerAt(t, wake) == R.Consumer(s.consumers[wake], Sem.Notified)
  {
  }

  /** The post of the coarser machine, by what it does to the producer and to the consumer it wakes. */
  lemma ProducerPostStep(n: nat, r: R.State, i: nat, random: nat, wake: nat, p: W.Producer, woken: bool)
    requires i < |r.producers| && r.producers[i] == R.Producer(p, Sem.Awake) && p.pc == W.PostFull
    requires woken <==> Sem.Notifies(r.semFull) && R.ConsumerSleeps(r)
    requires woken ==> wake < |r.consumers| && r.consumers[wake].nap == Sem.Asleep && r.consumers[wake].thread.pc == W.WaitFull
    ensures R.Step(n, r, R.ProducerMoves(i, random, wake))
            == Some(r.(semFull := r.semFull + 1,
                       producers := r.producers[i := R.Producer(p.(pc := W.WaitEmpty), Sem.Awake)],
                       consumers := if woken then r.consumers[wake := r.consumers[wake].(nap := Sem.Notified)] else r.consumers))
  {
    assert R.ConsumerSleeps(R.SetProducer(r, i, W.WaitEmpty, Sem.Awake)) <==> R.ConsumerSleeps(r);
  }

  lemma ProducerNotifiesView(s: State, i: nat, wake: nat, t: State, woken: bool)
    requires ProducerPosted(s, i, wake, t) && s.full.threads[|s.consumers| + i] == Raised
    requires Agree(s, t, i, WokenConsumer(s, i, wake)) && woken == (WokenConsumer(s, i, wake) >= 0)
    requires ProducerPlaced(s, i) && (woken ==> ConsumerPlaced(s, wake))
    ensures View(s).producers[i] == R.Producer(s.producers[i], Sem.Awake)
    ensures woken ==> View(s).consumers[wake].nap == Sem.Asleep && View(s).consumers[wake].thread.pc == W.WaitFull
    ensures View(t) == View(s).(
              semFull := View(s).semFull + 1,
              producers := View(s).producers[i := R.Producer(s.producers[i].(pc := W.WaitEmpty), Sem.Awake)],
              consumers := if woken then View(s).consumers[wake := View(s).consumers[wake].(nap := Sem.Notified)]
                         else View(s).consumers)
  {
    AgreeViews(s, t, i, WokenConsumer(s, i, wake));
    PostingProducerView(s, i, wake, t);
    if woken {
      WokenConsumerView(s, i, wake, t);
    }
  }

  /** The notification of the statement level is that post. */
  lemma ProducerNotifies(n: nat, s: State, i: nat, random: nat, wake: nat, t: State)
    requires ProducerPosted(s, i, wake, t) && s.full.threads[|s.consumers| + i] == Raised && Agree(s, t, i, WokenConsumer(s, i, wake))
    requires ProducerPlaced(s, i) && (WokenConsumer(s, i, wake) >= 0 ==> ConsumerPlaced(s, wake))
    requires R.ConsumerSleeps(View(s)) <==> AnySleeping(s.full.threads)
    ensures R.Step(n, View(s), R.ProducerMoves(i, random, wake)) == Some(View(t))
  {
    var woken := WokenConsumer(s, i, wake) >= 0;
    ProducerNotifiesView(s, i, wake, t, woken);
    ProducerPostStep(n, View(s), i, random, wake, s.producers[i], woken);
  }

  /** The other statements of the post do not show. */
  lemma ProducerPostsUnseen(s: State, i: nat, wake: nat, t: State)
    requires ProducerPosted(s, i, wake, t) && s.full.threads[|s.consumers| + i] != Raised && Agree(s, t, i, WokenConsumer(s, i, wake))
    requires ProducerPlaced(s, i) && MayPost(s.full.threads[|s.consumers| + i])
    ensures View(t) == View(s)
  {
    AgreeViews(s, t, i, WokenConsumer(s, i, wake));
    PostingProducerView(s, i, wake, t);
    assert View(s).producers[i := ProducerAt(t, i)] == View(s).producers;
  }

  lemma ProducerPostedShows(n: nat, s: State, i: nat, random: nat, wake: nat, t: State)
    requires ProducerPosted(s, i, wake, t) && Agree(s, t, i, WokenConsumer(s, i, wake)) && MayPost(s.full.threads[|s.consumers| + i])
    requires s.full.threads[|s.consumers| + i] == Raised ==> (R.ConsumerSleeps(View(s)) <==> AnySleeping(s.full.threads))
    requires ProducerPlaced(s, i) && (WokenConsumer(s, i, wake) >= 0 ==> ConsumerPlaced(s, wake))
    ensures Shows(n, s, R.ProducerMoves(i, random, wake), t)
  {
    if s.full.threads[|s.consumers| + i] == Raised {
      ProducerNotifies(n, s, i, random, wake, t);
    } else {
      ProducerPostsUnseen(s, i, wake, t);
    }
  }

  lemma ProducerPostedRefines(n: nat, s: State, i: nat, random: nat, wake: nat, t: State)
    requires Inv(s) && ProducerPosted(s, i, wake, t) && Roles(t.full, |s.consumers|)
    ensures Refines(n, s, R.ProducerMoves(i, random, wake), t)
  {
    assert ProducerPlaced(s, i);
    if WokenConsumer(s, i, wake) >= 0 {
      assert ConsumerPlaced(s, wake);
    }
    ProducerPostsPlaced(s, i, wake, t);
    ProducerAndWokenAgree(s, i, wake, t);
    AgreeKeepsPlaces(s, t, i, WokenConsumer(s, i, wake));
    assert MayPost(s.full.threads[|s.consumers| + i]);
    if s.full.threads[|s.consumers| + i] == Raised {
      ConsumerSleepsIn(s, i);
    }
    ProducerPostedShows(n, s, i, random, wake, t);
  }

  lemma ProducerPosts(n: nat, s: State, i: nat, random: nat, wake: nat)
    requires Inv(s) && i < |s.producers| && s.producers[i].pc == W.PostFull && ProducerStep(n, s, i, random, wake).Some?
    ensures Refines(n, s, R.ProducerMoves(i, random, wake), ProducerStep(n, s, i, random, wake).value)
  {
    ProducerPostsShape(n, s, i, random, wake);
    ProducerPostedRefines(n, s, i, random, wake, ProducerStep(n, s, i, random, wake).value);
  }

  lemma ProducerWorksAlone(n: nat, s: State, i: nat, random: nat, wake: nat)
    requires Inv(s) && i < |s.producers| && ProducerStep(n, s, i, random, wake).Some?
    requires s.producers[i].pc != W.WaitEmpty && s.producers[i].pc != W.PostFull
    ensures
      var t := ProducerStep(n, s, i, random, wake).value;
      && OnlyProducer(s, i, t) && t == s.(ring := t.ring, holder := t.holder, producers := t.producers)
      && s.empty.threads[i] == s.full.threads[|s.consumers| + i] == Idle
  {
    assert ProducerPlaced(s, i);
  }

  /** Outside the semaphores the two machines do the same. */
  lemma ProducerMirrors(n: nat, s: State, i: nat, random: nat, wake: nat, t: State)
    requires Sized(s) && i < |s.producers| && ProducerStep(n, s, i, random, wake) == Some(t)
    requires Sized(t) && |t.producers| == |s.producers|
    requires s.producers[i].pc != W.WaitEmpty && s.producers[i].pc != W.PostFull
    requires t == s.(ring := t.ring, holder := t.holder, producers := t.producers)
    requires s.empty.threads[i] == s.full.threads[|s.consumers| + i] == Idle
    requires Agree(s, t, i, -1)
    ensures R.Step(n, View(s), R.ProducerMoves(i, random, wake)) == Some(View(t))
  {
    AgreeViews(s, t, i, -1);
    assert View(s).producers[i] == R.Producer(s.producers[i], Sem.Awake);
    assert ProducerAt(t, i) == R.Producer(t.producers[i], Sem.Awake);
  }

  lemma ProducerWorkKeepsInv(s: State, i: nat, t: State)
    requires Inv(s) && i < |s.producers| && Agree(s, t, i, -1) && t.empty == s.empty && t.full == s.full
    requires s.empty.threads[i] == s.full.threads[|s.consumers| + i] == Idle
    ensures Inv(t)
  {
    AgreeKeepsPlaces(s, t, i, -1);
  }

  lemma ProducerWorks(n: nat, s: State, i: nat, random: nat, wake: nat)
    requires Inv(s) && i < |s.producers| && ProducerStep(n, s, i, random, wake).Some?
    requires s.producers[i].pc != W.WaitEmpty && s.producers[i].pc != W.PostFull
    ensures Refines(n, s, R.ProducerMoves(i, random, wake), ProducerStep(n, s, i, random, wake).value)
  {
    var t := ProducerStep(n, s, i, random, wake).value;
    ProducerWorksAlone(n, s, i, random, wake);
    OnlyProducerAgrees(s, i, t);
    ProducerMirrors(n, s, i, random, wake, t);
    ProducerWorkKeepsInv(s, i, t);
  }

  lemma ProducerStirsAlone(n: nat, s: State, i: nat)
    requires Inv(s) && Step(n, s, R.SpuriousProducer(i)).Some?
    ensures
      var t := Step(n, s, R.SpuriousProducer(i)).value;
      && OnlyProducer(s, i, t) && Roles(t.empty, |s.producers|) && ProducerPlaced(t, i) && t == s.(empty := t.empty)
      && CountOf(t.empty) == CountOf(s.empty) && t.empty.spurious == s.empty.spurious + 1
      && ProducerAt(s, i) == R.Producer(s.producers[i].(pc := W.WaitEmpty), Sem.Asleep)
      && ProducerAt(t, i) == R.Producer(s.producers[i].(pc := W.WaitEmpty), Sem.Notified)
  {
    assert ProducerPlaced(s, i);
    StirEffect(s.empty, i, |s.producers|);
  }

  lemma ProducerStirShows(n: nat, s: State, i: nat, t: State)
    requires i < |s.producers| && Agree(s, t, i, -1) && t == s.(empty := t.empty)
    requires CountOf(t.empty) == CountOf(s.empty) && t.empty.spurious == s.empty.spurious + 1
    requires ProducerAt(s, i) == R.Producer(s.producers[i].(pc := W.WaitEmpty), Sem.Asleep)
    requires ProducerAt(t, i) == R.Producer(s.producers[i].(pc := W.WaitEmpty), Sem.Notified)
    ensures Shows(n, s, R.SpuriousProducer(i), t)
  {
    AgreeViews(s, t, i, -1);
  }

  lemma ProducerStirs(n: nat, s: State, i: nat)
    requires Inv(s) && Step(n, s, R.SpuriousProducer(i)).Some?
    ensures Refines(n, s, R.SpuriousProducer(i), Step(n, s, R.SpuriousProducer(i)).value)
  {
    var t := Step(n, s, R.SpuriousProducer(i)).value;
    ProducerStirsAlone(n, s, i);
    OnlyProducerAgrees(s, i, t);
    AgreeKeepsPlaces(s, t, i, -1);
    ProducerStirShows(n, s, i, t);
  }

  // ----- consumers -----

  /** The consumer after the next statement of its wait. */
  function WaitedConsumer(value: int, c: W.Consumer, pc: Pc): W.Consumer {
    if AfterWaiting(value, pc) == Idle then c.(pc := W.AwaitLock) else c
  }

  ghost predicate ConsumerWaited(s: State, j: nat, t: State) {
    && Sized(s) && j < |s.consumers| && s.consumers[j].pc == W.WaitFull
    && t == s.(full := t.full, consumers := s.consumers[j := WaitedConsumer(s.full.value, s.consumers[j], s.full.threads[j])])
    && Waited(s.full, j, t.full)
  }

  lemma ConsumerWaitsShape(n: nat, s: State, j: nat, wake: nat)
    requires Sized(s) && Roles(s.full, |s.consumers|)
    requires j < |s.consumers| && s.consumers[j].pc == W.WaitFull && ConsumerStep(n, s, j, wake).Some?
    ensures ConsumerWaited(s, j, ConsumerStep(n, s, j, wake).value)
    ensures Roles(ConsumerStep(n, s, j, wake).value.full, |s.consumers|)
  {
    WaitingEffect(s.full, j, |s.consumers|);
    assert s.consumers == s.consumers[j := s.consumers[j]];
  }

  /** Nothing changes but consumer j and its place in the semaphore it waits on. */
  ghost predicate OnlyConsumer(s: State, j: nat, t: State) {
    && Sized(s) && Sized(t) && j < |s.consumers| == |t.consumers| && t.producers == s.producers && t.empty == s.empty
    && (forall u :: 0 <= u < |s.consumers| && u != j ==> t.consumers[u] == s.consumers[u])
    && SameElsewhere(s.full, t.full, j)
  }

  lemma OnlyConsumerAgrees(s: State, j: nat, t: State)
    requires OnlyConsumer(s, j, t)
    ensures Agree(s, t, -1, j)
  {
    forall u | 0 <= u < |s.consumers| && u != j
      ensures ConsumerAgrees(s, t, u)
    {
      ConsumerUndisturbed(s, t, u);
    }
    forall u | 0 <= u < |s.producers|
      ensures ProducerAgrees(s, t, u)
    {
      ProducerUndisturbed(s, t, u);
    }
  }

  lemma ConsumerWaitsAlone(s: State, j: nat, t: State)
    requires ConsumerWaited(s, j, t) && ConsumerPlaced(s, j)
    ensures OnlyConsumer(s, j, t) && ConsumerPlaced(t, j)
  {
  }

  /** Where the wait stands in the coarser machine: lowering the count decides between sleep and the next
      statement, getting the mutex back ends the nap, nothing else shows. */
  lemma WaitingConsumerView(value: int, c: W.Consumer, pc: Pc, postPc: Pc, value': int)
    requires c.pc == W.WaitFull && MayWait(pc) && pc != Sleeping
    requires value' == value - (if pc == WaitLocked then 1 else 0)
    ensures
      var before := ViewConsumer(c, value, pc, postPc);
      var after := ViewConsumer(WaitedConsumer(value, c, pc), value', AfterWaiting(value, pc), postPc);
      match pc
      case WaitLocked =>
        && before == R.Consumer(c, Sem.Awake)
        && after == (if value' < 0 then R.Consumer(c, Sem.Asleep) else R.Consumer(c.(pc := W.AwaitLock), Sem.Awake))
      case Relocked => before == R.Consumer(c, Sem.Notified) && after == R.Consumer(c.(pc := W.AwaitLock), Sem.Awake)
      case _ => after == before
  {
  }

  lemma ConsumerWaits(n: nat, s: State, j: nat, wake: nat)
    requires Inv(s) && j < |s.consumers| && s.consumers[j].pc == W.WaitFull && ConsumerStep(n, s, j, wake).Some?
    ensures Refines(n, s, R.ConsumerMoves(j, wake), ConsumerStep(n, s, j, wake).value)
  {
    ConsumerWaitsShape(n, s, j, wake);
    ConsumerWaitedRefines(n, s, j, wake, ConsumerStep(n, s, j, wake).value);
  }

  lemma ConsumerWaitedRefines(n: nat, s: State, j: nat, wake: nat, t: State)
    requires Inv(s) && ConsumerWaited(s, j, t) && Roles(t.full, |s.consumers|)
    ensures Refines(n, s, R.ConsumerMoves(j, wake), t)
  {
    assert ConsumerPlaced(s, j);
    assert MayWait(s.full.threads[j]);
    ConsumerWaitsAlone(s, j, t);
    OnlyConsumerAgrees(s, j, t);
    AgreeKeepsPlaces(s, t, -1, j);
    ConsumerWaitedShows(n, s, j, wake, t);
  }

  lemma ConsumerWaitedShows(n: nat, s: State, j: nat, wake: nat, t: State)
    requires ConsumerWaited(s, j, t) && Agree(s, t, -1, j) && MayWait(s.full.threads[j])
    ensures Shows(n, s, R.ConsumerMoves(j, wake), t)
  {
    AgreeViews(s, t, -1, j);
    WaitingConsumerView(s.full.value, s.consumers[j], s.full.threads[j], s.empty.threads[|s.producers| + j], t.full.value);
    if !Visible(s, R.ConsumerMoves(j, wake)) {
      assert View(s).consumers[j := ConsumerAt(t, j)] == View(s).consumers;
    }
  }

  /** The consumer after the next statement of its post. */
  function PostedConsumer(c: W.Consumer, pc: Pc): W.Consumer {
    if AfterPosting(pc) == Idle then c.(pc := W.WaitFull) else c
  }

  ghost predicate ConsumerPosted(s: State, j: nat, wake: nat, t: State) {
    && Sized(s) && j < |s.consumers| && s.consumers[j].pc == W.PostEmpty
    && t == s.(empty := t.empty, consumers := s.consumers[j := PostedConsumer(s.consumers[j], s.empty.threads[|s.producers| + j])])
    && Posted(s.empty, |s.producers| + j, wake, |s.producers|, t.empty)
  }

  lemma ConsumerPostsShape(n: nat, s: State, j: nat, wake: nat)
    requires Sized(s) && Roles(s.empty, |s.producers|)
    requires j < |s.consumers| && s.consumers[j].pc == W.PostEmpty && ConsumerStep(n, s, j, wake).Some?
    ensures ConsumerPosted(s, j, wake, ConsumerStep(n, s, j, wake).value)
    ensures Roles(ConsumerStep(n, s, j, wake).value.empty, |s.producers|)
  {
    PostingEffect(s.empty, |s.producers| + j, wake, |s.producers|);
    ConsumerPostsOn(s, j, wake, Posting(s.empty, |s.producers| + j, wake).value);
  }

  lemma ConsumerPostsOn(s: State, j: nat, wake: nat, m: Fine)
    requires Sized(s) && j < |s.consumers| && s.consumers[j].pc == W.PostEmpty
    requires Posted(s.empty, |s.producers| + j, wake, |s.producers|, m)
    ensures ConsumerPosted(s, j, wake, AfterPostEmpty(s, j, m))
  {
    assert s.consumers == s.consumers[j := s.consumers[j]];
  }

  /** The producer that the post wakes, if any. */
  function WokenProducer(s: State, j: nat, wake: nat): int
    requires Sized(s) && j < |s.consumers|
  {
    if Wakes(s.empty, |s.producers| + j) then wake else -1
  }

  /** Nothing changes but consumer j, its place in the semaphore it posts, and the thread woken. */
  ghost predicate ConsumerAndWoken(s: State, j: nat, wake: nat, t: State) {
    && Sized(s) && Sized(t) && j < |s.consumers| == |t.consumers| && t.producers == s.producers && t.full == s.full
    && (forall u :: 0 <= u < |s.consumers| && u != j ==> t.consumers[u] == s.consumers[u])
    && PostedElsewhere(s.empty, |s.producers| + j, wake, t.empty) && WokenProducer(s, j, wake) < |s.producers|
  }

  lemma ConsumerAndWokenAgree(s: State, j: nat, wake: nat, t: State)
    requires ConsumerAndWoken(s, j, wake, t)
    ensures Agree(s, t, WokenProducer(s, j, wake), j)
  {
    forall u | 0 <= u < |s.consumers| && u != j
      ensures ConsumerAgrees(s, t, u)
    {
      PostedUndisturbed(s.empty, |s.producers| + j, wake, t.empty, |s.producers| + u);
      ConsumerUndisturbed(s, t, u);
    }
    forall u | 0 <= u < |s.producers| && u != WokenProducer(s, j, wake)
      ensures ProducerAgrees(s, t, u)
    {
      PostedUndisturbed(s.empty, |s.producers| + j, wake, t.empty, u);
      ProducerUndisturbed(s, t, u);
    }
  }

  lemma ConsumerPostsPlaced(s: State, j: nat, wake: nat, t: State)
    requires ConsumerPosted(s, j, wake, t) && ConsumerPlaced(s, j)
    requires WokenProducer(s, j, wake) >= 0 ==> ProducerPlaced(s, wake)
    ensures ConsumerAndWoken(s, j, wake, t) && ConsumerPlaced(t, j)
    ensures WokenProducer(s, j, wake) >= 0 ==> ProducerPlaced(t, wake)
  {
  }

  /** While somebody is about to notify nobody is about to test the count, so whoever seems to sleep does. */
  lemma ProducerSleepsIn(s: State, j: nat)
    requires Sized(s) && Roles(s.empty, |s.producers|)
    requires j < |s.consumers| && s.empty.threads[|s.producers| + j] == Raised
    ensures R.ProducerSleeps(View(s)) <==> AnySleeping(s.empty.threads)
  {
    if AnySleeping(s.empty.threads) {
      var u :| 0 <= u < |s.empty.threads| && s.empty.threads[u] == Sleeping;
      assert u < |s.producers|;
      assert View(s).producers[u].nap == Sem.Asleep;
    }
    if R.ProducerSleeps(View(s)) {
      var u :| 0 <= u < |s.producers| && View(s).producers[u].nap == Sem.Asleep;
      assert s.empty.threads[u] == Sleeping;
    }
  }

  lemma PostingConsumerView(s: State, j: nat, wake: nat, t: State)
    requires ConsumerPosted(s, j, wake, t) && Sized(t) && ConsumerPlaced(s, j)
    requires MayPost(s.empty.threads[|s.producers| + j])
    ensures
      var (pc, c) := (s.empty.threads[|s.producers| + j], s.consumers[j]);
      && ConsumerAt(s, j) == R.Consumer(if pc == PostDone then c.(pc := W.WaitFull) else c, Sem.Awake)
      && ConsumerAt(t, j) == R.Consumer(if pc == Raised || pc == PostDone then c.(pc := W.WaitFull) else c, Sem.Awake)
  {
  }

  lemma WokenProducerView(s: State, j: nat, wake: nat, t: State)
    requires ConsumerPosted(s, j, wake, t) && Sized(t) && WokenProducer(s, j, wake) >= 0
    requires wake < |s.producers| && ProducerPlaced(s, wake)
    ensures ProducerAt(s, wake) == R.Producer(s.producers[wake], Sem.Asleep) && s.producers[wake].pc == W.WaitEmpty
    ensures ProducerAt(t, wake) == R.Producer(s.producers[wake], Sem.Notified)
  {
  }

  /** The post of the coarser machine, by what it does to the consumer and to the producer it wakes. */
  lemma ConsumerPostStep(n: nat, r: R.State, j: nat, wake: nat, c: W.Consumer, woken: bool)
    requires j < |r.consumers| && r.consumers[j] == R.Consumer(c, Sem.Awake) && c.pc == W.PostEmpty
    requires woken <==> Sem.Notifies(r.semEmpty) && R.ProducerSleeps(r)
    requires woken ==> wake < |r.producers| && r.producers[wake].nap == Sem.Asleep && r.producers[wake].thread.pc == W.WaitEmpty
    ensures R.Step(n, r, R.ConsumerMoves(j, wake))
            == Some(r.(semEmpty := r.semEmpty + 1,
                       consumers := r.consumers[j := R.Consumer(c.(pc := W.WaitFull), Sem.Awake)],
                       producers := if woken then r.producers[wake := r.producers[wake].(nap := Sem.Notified)] else r.producers))
  {
    assert R.ProducerSleeps(R.SetConsumer(r, j, W.WaitFull, Sem.Awake)) <==> R.ProducerSleeps(r);
  }

  lemma ConsumerNotifiesView(s: State, j: nat, wake: nat, t: State, woken: bool)
    requires ConsumerPosted(s, j, wake, t) && s.empty.threads[|s.producers| + j] == Raised
    requires Agree(s, t, WokenProducer(s, j, wake), j) && woken == (WokenProducer(s, j, wake) >= 0)
    requires ConsumerPlaced(s, j) && (woken ==> ProducerPlaced(s, wake))
    ensures View(s).consumers[j] == R.Consumer(s.consumers[j], Sem.Awake)
    ensures woken ==> View(s).producers[wake].nap == Sem.Asleep && View(s).producers[wake].thread.pc == W.WaitEmpty
    ensures View(t) == View(s).(
              semEmpty := View(s).semEmpty + 1,
              consumers := View(s).consumers[j := R.Consumer(s.consumers[j].(pc := W.WaitFull), Sem.Awake)],
              producers := if woken then View(s).producers[wake := View(s).producers[wake].(nap := Sem.Notified)]
                         else View(s).producers)
  {
    AgreeViews(s, t, WokenProducer(s, j, wake), j);
    PostingConsumerView(s, j, wake, t);
    if woken {
      WokenProducerView(s, j, wake, t);
    }
  }

  /** The notification of the statement level is that post. */
  lemma ConsumerNotifies(n: nat, s: State, j: nat, wake: nat, t: State)
    requires ConsumerPosted(s, j, wake, t) && s.empty.threads[|s.producers| + j] == Raised && Agree(s, t, WokenProducer(s, j, wake), j)
    requires ConsumerPlaced(s, j) && (WokenProducer(s, j, wake) >= 0 ==> ProducerPlaced(s, wake))
    requires R.ProducerSleeps(View(s)) <==> AnySleeping(s.empty.threads)
    ensures R.Step(n, View(s), R.ConsumerMoves(j, wake)) == Some(View(t))
  {
    var woken := WokenProducer(s, j, wake) >= 0;
    ConsumerNotifiesView(s, j, wake, t, woken);
    ConsumerPostStep(n, View(s), j, wake, s.consumers[j], woken);
  }

  /** The other statements of the post do not show. */
  lemma ConsumerPostsUnseen(s: State, j: nat, wake: nat, t: State)
    requires ConsumerPosted(s, j, wake, t) && s.empty.threads[|s.producers| + j] != Raised && Agree(s, t, WokenProducer(s, j, wake), j)
    requires ConsumerPlaced(s, j) && MayPost(s.empty.threads[|s.producers| + j])
    ensures View(t) == View(s)
  {
    AgreeViews(s, t, WokenProducer(s, j, wake), j);
    PostingConsumerView(s, j, wake, t);
    assert View(s).consumers[j := ConsumerAt(t, j)] == View(s).consumers;
  }

  lemma ConsumerPostedShows(n: nat, s: State, j: nat, wake: nat, t: State)
    requires ConsumerPosted(s, j, wake, t) && Agree(s, t, WokenProducer(s, j, wake), j) && MayPost(s.empty.threads[|s.producers| + j])
    requires s.empty.threads[|s.producers| + j] == Raised ==> (R.ProducerSleeps(View(s)) <==> AnySleeping(s.empty.threads))
    requires ConsumerPlaced(s, j) && (WokenProducer(s, j, wake) >= 0 ==> ProducerPlaced(s, wake))
    ensures Shows(n, s, R.ConsumerMoves(j, wake), t)
  {
    if s.empty.threads[|s.producers| + j] == Raised {
      ConsumerNotifies(n, s, j, wake, t);
    } else {
      ConsumerPostsUnseen(s, j, wake, t);
    }
  }

  lemma ConsumerPostedRefines(n: nat, s: State, j: nat, wake: nat, t: State)
    requires Inv(s) && ConsumerPosted(s, j, wake, t) && Roles(t.empty, |s.producers|)
    ensures Refines(n, s, R.ConsumerMoves(j, wake), t)
  {
    assert ConsumerPlaced(s, j);
    if WokenProducer(s, j, wake) >= 0 {
      assert ProducerPlaced(s, wake);
    }
    ConsumerPostsPlaced(s, j, wake, t);
    ConsumerAndWokenAgree(s, j, wake, t);
    AgreeKeepsPlaces(s, t, WokenProducer(s, j, wake), j);
    assert MayPost(s.empty.threads[|s.producers| + j]);
    if s.empty.threads[|s.producers| + j] == Raised {
      ProducerSleepsIn(s, j);
    }
    ConsumerPostedShows(n, s, j, wake, t);
  }

  lemma ConsumerPosts(n: nat, s: State, j: nat, wake: nat)
    requires Inv(s) && j < |s.consumers| && s.consumers[j].pc == W.PostEmpty && ConsumerStep(n, s, j, wake).Some?
    ensures Refines(n, s, R.ConsumerMoves(j, wake), ConsumerStep(n, s, j, wake).value)
  {
    ConsumerPostsShape(n, s, j, wake);
    ConsumerPostedRefines(n, s, j, wake, ConsumerStep(n, s, j, wake).value);
  }

  lemma ConsumerWorksAlone(n: nat, s: State, j: nat, wake: nat)
    requires Inv(s) && j < |s.consumers| && ConsumerStep(n, s, j, wake).Some?
    requires s.consumers[j].pc != W.WaitFull && s.consumers[j].pc != W.PostEmpty
    ensures
      var t := ConsumerStep(n, s, j, wake).value;
      && OnlyConsumer(s, j, t) && t == s.(ring := t.ring, holder := t.holder, consumers := t.consumers)
      && s.full.threads[j] == s.empty.threads[|s.producers| + j] == Idle
  {
    assert ConsumerPlaced(s, j);
  }

  /** Outside the semaphores the two machines do the same. */
  lemma ConsumerMirrors(n: nat, s: State, j: nat, wake: nat, t: State)
    requires Sized(s) && j < |s.consumers| && ConsumerStep(n, s, j, wake) == Some(t)
    requires Sized(t) && |t.consumers| == |s.consumers|
    requires s.consumers[j].pc != W.WaitFull && s.consumers[j].pc != W.PostEmpty
    requires t == s.(ring := t.ring, holder := t.holder, consumers := t.consumers)
    requires s.full.threads[j] == s.empty.threads[|s.producers| + j] == Idle
    requires Agree(s, t, -1, j)
    ensures R.Step(n, View(s), R.ConsumerMoves(j, wake)) == Some(View(t))
  {
    AgreeViews(s, t, -1, j);
    assert View(s).consumers[j] == R.Consumer(s.consumers[j], Sem.Awake);
    assert ConsumerAt(t, j) == R.Consumer(t.consumers[j], Sem.Awake);
  }

  lemma ConsumerWorkKeepsInv(s: State, j: nat, t: State)
    requires Inv(s) && j < |s.consumers| && Agree(s, t, -1, j) && t.empty == s.empty && t.full == s.full
    requires s.full.threads[j] == s.empty.threads[|s.producers| + j] == Idle
    ensures Inv(t)
  {
    AgreeKeepsPlaces(s, t, -1, j);
  }

  lemma ConsumerWorks(n: nat, s: State, j: nat, wake: nat)
    requires Inv(s) && j < |s.consumers| && ConsumerStep(n, s, j, wake).Some?
    requires s.consumers[j].pc != W.WaitFull && s.consumers[j].pc != W.PostEmpty
    ensures Refines(n, s, R.ConsumerMoves(j, wake), ConsumerStep(n, s, j, wake).value)
  {
    var t := ConsumerStep(n, s, j, wake).value;
    ConsumerWorksAlone(n, s, j, wake);
    OnlyConsumerAgrees(s, j, t);
    ConsumerMirrors(n, s, j, wake, t);
    ConsumerWorkKeepsInv(s, j, t);
  }

  lemma ConsumerStirsAlone(n: nat, s: State, j: nat)
    requires Inv(s) && Step(n, s, R.SpuriousConsumer(j)).Some?
    ensures
      var t := Step(n, s, R.SpuriousConsumer(j)).value;
      && OnlyConsumer(s, j, t) && Roles(t.full, |s.consumers|) && ConsumerPlaced(t, j) && t == s.(full := t.full)
      && CountOf(t.full) == CountOf(s.full) && t.full.spurious == s.full.spurious + 1
      && ConsumerAt(s, j) == R.Consumer(s.consumers[j].(pc := W.WaitFull), Sem.Asleep)
      && ConsumerAt(t, j) == R.Consumer(s.consumers[j].(pc := W.WaitFull), Sem.Notified)
  {
    assert ConsumerPlaced(s, j);
    StirEffect(s.full, j, |s.consumers|);
  }

  lemma ConsumerStirShows(n: nat, s: State, j: nat, t: State)
    requires j < |s.consumers| && Agree(s, t, -1, j) && t == s.(full := t.full)
    requires CountOf(t.full) == CountOf(s.full) && t.full.spurious == s.full.spurious + 1
    requires ConsumerAt(s, j) == R.Consumer(s.consumers[j].(pc := W.WaitFull), Sem.Asleep)
    requires ConsumerAt(t, j) == R.Consumer(s.consumers[j].(pc := W.WaitFull), Sem.Notified)
    ensures Shows(n, s, R.SpuriousConsumer(j), t)
  {
    AgreeViews(s, t, -1, j);
  }

  lemma ConsumerStirs(n: nat, s: State, j: nat)
    requires Inv(s) && Step(n, s, R.SpuriousConsumer(j)).Some?
    ensures Refines(n, s, R.SpuriousConsumer(j), Step(n, s, R.SpuriousConsumer(j)).value)
  {
    var t := Step(n, s, R.SpuriousConsumer(j)).value;
    ConsumerStirsAlone(n, s, j);
    OnlyConsumerAgrees(s, j, t);
    AgreeKeepsPlaces(s, t, -1, j);
    ConsumerStirShows(n, s, j, t);
  }

  lemma StepRefinesSections(n: nat, s: State, l: R.Label)
    requires Inv(s) && Step(n, s, l).Some?
    ensures Refines(n, s, l, Step(n, s, l).value)
  {
    match l {
      case ProducerMoves(i, random, wake) =>
        match s.producers[i].pc {
          case WaitEmpty => ProducerWaits(n, s, i, random, wake);
          case PostFull => ProducerPosts(n, s, i, random, wake);
          case _ => ProducerWorks(n, s, i, random, wake);
        }
      case ConsumerMoves(j, wake) =>
        match s.consumers[j].pc {
          case WaitFull => ConsumerWaits(n, s, j, wake);
          case PostEmpty => ConsumerPosts(n, s, j, wake);
          case _ => ConsumerWorks(n, s, j, wake);
        }
      case SpuriousProducer(i) => ProducerStirs(n, s, i);
      case SpuriousConsumer(j) => ConsumerStirs(n, s, j);
    }
  }
}

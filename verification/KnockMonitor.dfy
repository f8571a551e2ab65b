/** The knock monitor of c/include/simple_monitor.h: a thread that waits is let go after MAX_NUM
    counted knocks; knocks count only while `somebody_waits` is set. Each section that runs under the
    mutex is one step; threads waiting and the calls to knock are unlimited. */
module KnockMonitor {
  import opened Transitions
  import opened Sums
  import opened Semaphore
  import RingArith

  /** `knocks` counts the knocks that were counted; `knocks`, `signals`, `returned`, `spurious` are history. */
  datatype Monitor = Monitor(
    max: nat, cnt: nat, somebodyWaits: bool, threads: seq<Nap>,
    knocks: nat, signals: nat, returned: nat, spurious: nat)

  datatype Move =
    | Enter(t: nat)          // monitor_wait up to the sleep
    | Leave(t: nat)          // a notified thread gets the mutex back and leaves monitor_wait
    | Knock(chosen: nat)     // monitor_knock; `chosen` is the sleeper a signal picks
    | Stir(t: nat)           // spurious wake-up

  function Start(max: nat, waiters: nat): Monitor {
    Monitor(max, 0, false, seq(waiters, _ => Awake), 0, 0, 0, 0)
  }

  predicate Naps(m: Monitor, t: nat, nap: Nap) {
    t < |m.threads| && m.threads[t] == nap
  }

  function Act(m: Monitor, l: Move): Option<Monitor> {
    match l
    case Enter(t) =>
      if Naps(m, t, Awake) then Some(m.(somebodyWaits := true, threads := m.threads[t := Asleep])) else None
    case Leave(t) =>
      if Naps(m, t, Notified)
      then Some(m.(somebodyWaits := false, threads := m.threads[t := Awake], returned := m.returned + 1))
      else None
    case Knock(chosen) =>
      if !m.somebodyWaits then Some(m)
      else if m.cnt + 1 != m.max then Some(m.(cnt := m.cnt + 1, knocks := m.knocks + 1))
      else
        var signalled := m.(cnt := 0, knocks := m.knocks + 1, signals := m.signals + 1);
        if !SomeoneSleeps(m.threads) then Some(signalled)
        else if Naps(m, chosen, Asleep) then Some(signalled.(threads := m.threads[chosen := Notified]))
        else None
    case Stir(t) =>
      if Naps(m, t, Asleep) then Some(m.(threads := m.threads[t := Notified], spurious := m.spurious + 1)) else None
  }

  ghost predicate Tally(m: Monitor) {
    && m.cnt < m.max
    && m.knocks == Times(m.max, m.signals) + m.cnt
    && m.returned + Sum(m.threads, IsNotified) <= m.signals + m.spurious
  }

  lemma ActKeepsTally(m: Monitor, l: Move)
    requires Tally(m) && Act(m, l).Some?
    ensures Tally(Act(m, l).value) && Act(m, l).value.max == m.max
  {
    match l {
      case Enter(t) => SumUpdate(m.threads, t, Asleep, IsNotified);
      case Leave(t) => SumUpdate(m.threads, t, Awake, IsNotified);
      case Knock(u) =>
        if u < |m.threads| {
          SumUpdate(m.threads, u, Notified, IsNotified);
        }
      case Stir(t) => SumUpdate(m.threads, t, Notified, IsNotified);
    }
  }

  lemma ReachableTally(max: nat, waiters: nat, labels: seq<Move>, m: Monitor)
    requires max > 0 && Exec(Act, Start(max, waiters), labels) == Some(m)
    ensures Tally(m) && m.max == max
  {
    SumZero(Start(max, waiters).threads, IsNotified);
    forall m, l | Tally(m) && m.max == max && Act(m, l).Some?
      ensures Tally(Act(m, l).value) && Act(m, l).value.max == max
    {
      ActKeepsTally(m, l);
    }
    Invariance(Act, m => Tally(m) && m.max == max, Start(max, waiters), labels);
  }

  /** In every run: the counter stays below the maximum, signals and counter account for every
      counted knock, and every return but the spurious ones was paid for by that many knocks. */
  lemma KnocksPayForReturns(max: nat, waiters: nat, labels: seq<Move>, m: Monitor)
    requires max > 0 && Exec(Act, Start(max, waiters), labels) == Some(m)
    ensures 0 <= m.cnt < max
    ensures max * m.signals + m.cnt == m.knocks
    ensures m.returned <= m.signals + m.spurious
    ensures max * (m.returned - m.spurious) <= m.knocks
  {
    ReachableTally(max, waiters, labels, m);
    TimesIsProduct(max, m.signals);
    Monotone(max, m.returned - m.spurious, m.signals);
  }

  // ----- what the calls alone say -----

  /** The mark as the calls set it: the last of them to enter or leave was to enter. */
  function Marked(labels: seq<Move>): bool {
    if labels == [] then false
    else
      match labels[|labels| - 1]
      case Enter(_) => true
      case Leave(_) => false
      case _ => Marked(labels[..|labels| - 1])
  }

  /** Thread t is in monitor_wait: it has entered and not left since. */
  function Inside(labels: seq<Move>, t: nat): bool {
    if labels == [] then false
    else
      var l := labels[|labels| - 1];
      if l == Enter(t) then true else if l == Leave(t) then false else Inside(labels[..|labels| - 1], t)
  }

  /** The knocks that came while the mark was set. */
  function MarkedKnocks(labels: seq<Move>): nat {
    if labels == [] then 0
    else
      var before := labels[..|labels| - 1];
      MarkedKnocks(before) + (if labels[|labels| - 1].Knock? && Marked(before) then 1 else 0)
  }

  /** Every fact of the monitor but which sleeper a signal wakes is a function of the calls made. */
  ghost predicate Told(max: nat, labels: seq<Move>, m: Monitor) {
    && m.max == max
    && m.somebodyWaits == Marked(labels)
    && m.knocks == MarkedKnocks(labels)
    && forall t :: 0 <= t < |m.threads| ==> (m.threads[t] != Awake <==> Inside(labels, t))
  }

  lemma LastCallTold(max: nat, before: seq<Move>, m: Monitor, l: Move)
    requires Told(max, before, m) && Act(m, l).Some?
    ensures Told(max, before + [l], Act(m, l).value)
  {
    var labels := before + [l];
    assert labels[..|labels| - 1] == before;
    var next := Act(m, l).value;
    forall t | 0 <= t < |next.threads|
      ensures next.threads[t] != Awake <==> Inside(labels, t)
    {
      assert Inside(before, t) <==> m.threads[t] != Awake;
    }
  }

  lemma CallsTell(max: nat, waiters: nat, labels: seq<Move>, m: Monitor)
    requires Exec(Act, Start(max, waiters), labels) == Some(m)
    ensures Told(max, labels, m)
  {
    var image := (m: Monitor, l: Move) => [l];
    var rel := (m: Monitor, past: seq<Move>) => Told(max, past, m);
    forall m, l, past | rel(m, past) && Act(m, l).Some?
      ensures rel(Act(m, l).value, past + image(m, l))
    {
      LastCallTold(max, past, m, l);
    }
    Recording(Act, rel, image, Start(max, waiters), [], labels);
    ImageOfLabels(Start(max, waiters), labels);
    assert [] + labels == labels;
  }

  lemma {:induction false} ImageOfLabels(m: Monitor, labels: seq<Move>)
    requires Exec(Act, m, labels).Some?
    ensures Image(Act, (m, l) => [l], m, labels) == labels
    decreases |labels|
  {
    if labels != [] {
      ImageOfLabels(Act(m, labels[0]).value, labels[1..]);
    }
  }

  function IsLeave(l: Move): bool { l.Leave? }
  function IsStir(l: Move): bool { l.Stir? }

  /** The count is what the counted knocks leave over. */
  lemma KnocksFillCount(max: nat, waiters: nat, labels: seq<Move>, m: Monitor)
    requires max > 0 && Exec(Act, Start(max, waiters), labels) == Some(m)
    ensures m.cnt == m.knocks % max && m.signals == m.knocks / max
  {
    KnocksPayForReturns(max, waiters, labels, m);
    RingArith.RemaindersAgree(max, m.signals, m.cnt, m.knocks / max, m.knocks % max);
  }

  lemma HistoriesTold(max: nat, waiters: nat, labels: seq<Move>, m: Monitor)
    requires Exec(Act, Start(max, waiters), labels) == Some(m)
    ensures m.returned == HowMany(labels, IsLeave) && m.spurious == HowMany(labels, IsStir)
  {
    Tallying(Act, (m: Monitor) => m.returned, IsLeave, Start(max, waiters), labels);
    Tallying(Act, (m: Monitor) => m.spurious, IsStir, Start(max, waiters), labels);
  }

  /** In every run the calls made decide the monitor's state: the mark is set exactly when a thread has entered
      after the last one left; the knocks made while it was set, and no others, fill the count, which
      starts again after each signal; a thread waits exactly when it has entered and not left since. */
  lemma CallsDecideState(max: nat, waiters: nat, labels: seq<Move>, m: Monitor)
    requires max > 0 && Exec(Act, Start(max, waiters), labels) == Some(m)
    ensures m.somebodyWaits <==> Marked(labels)
    ensures m.knocks == MarkedKnocks(labels)
    ensures m.cnt == MarkedKnocks(labels) % max && m.signals == MarkedKnocks(labels) / max
    ensures |m.threads| == waiters && forall t :: 0 <= t < waiters ==> (m.threads[t] != Awake <==> Inside(labels, t))
    ensures m.returned == HowMany(labels, IsLeave) && m.spurious == HowMany(labels, IsStir)
  {
    CallsTell(max, waiters, labels, m);
    ReachableSize(max, waiters, labels, m);
    KnocksFillCount(max, waiters, labels, m);
    HistoriesTold(max, waiters, labels, m);
  }

  // ----- one waiting thread -----

  function Genuine(m: Monitor, l: Move): Option<Monitor> {
    if l.Stir? then None else Act(m, l)
  }

  ghost predicate LoneWaiter(m: Monitor) {
    && Tally(m) && |m.threads| == 1
    && (m.somebodyWaits <==> m.threads[0] != Awake)
  }

  lemma ReachableLoneWaiter(max: nat, labels: seq<Move>, m: Monitor)
    requires max > 0 && Exec(Act, Start(max, 1), labels) == Some(m)
    ensures LoneWaiter(m) && m.max == max
  {
    SumZero(Start(max, 1).threads, IsNotified);
    forall m, l | LoneWaiter(m) && m.max == max && Act(m, l).Some?
      ensures LoneWaiter(Act(m, l).value) && Act(m, l).value.max == max
    {
      ActKeepsTally(m, l);
    }
    Invariance(Act, m => LoneWaiter(m) && m.max == max, Start(max, 1), labels);
  }

  lemma {:induction false} SleeperNeedsKnocks(m: Monitor, labels: seq<Move>)
    requires LoneWaiter(m) && m.threads[0] == Asleep && Exec(Genuine, m, labels).Some?
    requires |labels| <= m.max - m.cnt
    ensures
      var end := Exec(Genuine, m, labels).value;
      && |end.threads| == 1
      && end.threads[0] == (if |labels| == m.max - m.cnt then Notified else Asleep)
    decreases |labels|
  {
    if labels != [] {
      var l := labels[0];
      var next := Genuine(m, l).value;
      ActKeepsTally(m, l);
      if m.cnt + 1 == m.max {
        assert SomeoneSleeps(m.threads);
        assert labels[1..] == [];
      } else {
        SleeperNeedsKnocks(next, labels[1..]);
      }
    }
  }

  /** With a single waiting thread a sleeper that is not woken spuriously is woken by exactly max - cnt
      further steps, all of them necessarily knocks, not one earlier, not one later; and these knocks
      are possible. */
  lemma SleeperIsWokenExactly(max: nat, before: seq<Move>, m: Monitor, after: seq<Move>)
    requires max > 0 && Exec(Act, Start(max, 1), before) == Some(m)
    requires |m.threads| == 1 && m.threads[0] == Asleep
    requires Exec(Genuine, m, after).Some? && |after| <= max - m.cnt
    ensures |Exec(Genuine, m, after).value.threads| == 1
    ensures Exec(Genuine, m, after).value.threads[0] == (if |after| == max - m.cnt then Notified else Asleep)
    ensures AllKnocks(after)
    ensures Exec(Genuine, m, Knocks(max - m.cnt, 0)).Some?
  {
    ReachableLoneWaiter(max, before, m);
    SleeperNeedsKnocks(m, after);
    OnlyKnocks(m, after);
    KnocksWake(m, max - m.cnt, 0);
  }

  lemma {:induction false} OnlyKnocks(m: Monitor, labels: seq<Move>)
    requires LoneWaiter(m) && m.threads[0] == Asleep && Exec(Genuine, m, labels).Some?
    requires |labels| <= m.max - m.cnt
    ensures AllKnocks(labels)
    decreases |labels|
  {
    if labels != [] && m.cnt + 1 != m.max {
      ActKeepsTally(m, labels[0]);
      OnlyKnocks(Genuine(m, labels[0]).value, labels[1..]);
      forall k | 0 <= k < |labels| ensures labels[k].Knock? {
        if k > 0 {
          assert labels[k] == labels[1..][k - 1];
        }
      }
    }
  }

  // ----- several waiting threads -----

  function Knocks(k: nat, chosen: nat): seq<Move> {
    seq(k, _ => Knock(chosen))
  }

  predicate AllKnocks(labels: seq<Move>) {
    forall k :: 0 <= k < |labels| ==> labels[k].Knock?
  }

  /** While nobody is marked as waiting, no number of knocks changes anything. */
  lemma {:induction false} KnocksAreIgnored(m: Monitor, labels: seq<Move>)
    requires !m.somebodyWaits && AllKnocks(labels)
    ensures Exec(Act, m, labels) == Some(m)
    decreases |labels|
  {
    if labels != [] {
      assert labels[0].Knock?;
      KnocksAreIgnored(m, labels[1..]);
    }
  }

  /** While somebody is, knocks that a signal passes on to the sleeper u are always possible, and
      the one that fills the count wakes it. */
  lemma {:induction false} KnocksWake(m: Monitor, k: nat, u: nat)
    requires Naps(m, u, Asleep) && m.somebodyWaits && m.cnt < m.max && k <= m.max - m.cnt
    ensures Exec(Genuine, m, Knocks(k, u)) == Exec(Act, m, Knocks(k, u))
    ensures Exec(Act, m, Knocks(k, u)) == Some(
      if k < m.max - m.cnt then m.(cnt := m.cnt + k, knocks := m.knocks + k)
      else m.(cnt := 0, knocks := m.knocks + k, signals := m.signals + 1, threads := m.threads[u := Notified]))
    decreases k
  {
    if k > 0 {
      assert Knocks(k, u)[1..] == Knocks(k - 1, u);
      assert SomeoneSleeps(m.threads);
      if m.cnt + 1 < m.max {
        KnocksWake(Act(m, Knock(u)).value, k - 1, u);
      }
    }
  }

  /** Whichever sleepers the signals pick: max - cnt knocks wake one thread, fewer wake none. */
  lemma {:induction false} KnocksNotify(m: Monitor, labels: seq<Move>)
    requires m.somebodyWaits && SomeoneSleeps(m.threads) && m.cnt < m.max
    requires AllKnocks(labels) && |labels| <= m.max - m.cnt && Exec(Act, m, labels).Some?
    ensures Sum(Exec(Act, m, labels).value.threads, IsNotified)
            == Sum(m.threads, IsNotified) + (if |labels| == m.max - m.cnt then 1 else 0)
    decreases |labels|
  {
    if labels != [] {
      var l := labels[0];
      assert l.Knock?;
      if m.cnt + 1 < m.max {
        KnocksNotify(Act(m, l).value, labels[1..]);
      } else {
        SumUpdate(m.threads, l.chosen, Notified, IsNotified);
      }
    }
  }

  /** The thread can be woken by knocks alone. */
  ghost predicate Wakeable(m: Monitor, u: nat) {
    exists labels :: AllKnocks(labels) && Exec(Act, m, labels).Some? && Naps(Exec(Act, m, labels).value, u, Notified)
  }

  /** For any number of waiting threads, in every reachable state with a sleeper: max - cnt knocks wake
      a thread if and only if the mark is set. */
  lemma WokenExactlyWhenMarked(max: nat, waiters: nat, before: seq<Move>, m: Monitor, knocks: seq<Move>)
    requires max > 0 && Exec(Act, Start(max, waiters), before) == Some(m) && SomeoneSleeps(m.threads)
    requires AllKnocks(knocks) && |knocks| == max - m.cnt && Exec(Act, m, knocks).Some?
    ensures Sum(Exec(Act, m, knocks).value.threads, IsNotified) == Sum(m.threads, IsNotified) + (if m.somebodyWaits then 1 else 0)
  {
    ReachableTally(max, waiters, before, m);
    if m.somebodyWaits {
      KnocksNotify(m, knocks);
    } else {
      KnocksAreIgnored(m, knocks);
    }
  }

  /** And a given sleeper can be woken by knocks if and only if the mark is set. */
  lemma WakeableExactlyWhenMarked(max: nat, waiters: nat, before: seq<Move>, m: Monitor, u: nat)
    requires max > 0 && Exec(Act, Start(max, waiters), before) == Some(m) && Naps(m, u, Asleep)
    ensures Wakeable(m, u) <==> m.somebodyWaits
  {
    ReachableTally(max, waiters, before, m);
    if m.somebodyWaits {
      MarkedIsWakeable(m, u);
    } else {
      UnmarkedIsLost(m, u);
    }
  }

  lemma MarkedIsWakeable(m: Monitor, u: nat)
    requires Naps(m, u, Asleep) && m.somebodyWaits && m.cnt < m.max
    ensures Wakeable(m, u)
  {
    KnocksWake(m, m.max - m.cnt, u);
    assert AllKnocks(Knocks(m.max - m.cnt, u));
  }

  lemma UnmarkedIsLost(m: Monitor, u: nat)
    requires Naps(m, u, Asleep) && !m.somebodyWaits
    ensures !Wakeable(m, u)
  {
    forall labels | AllKnocks(labels)
      ensures Exec(Act, m, labels) == Some(m)
    {
      KnocksAreIgnored(m, labels);
    }
  }

  lemma Extend(max: nat, waiters: nat, labels: seq<Move>, m: Monitor, l: Move) returns (longer: seq<Move>, m': Monitor)
    requires Exec(Act, Start(max, waiters), labels) == Some(m) && Act(m, l).Some?
    ensures Exec(Act, Start(max, waiters), longer) == Some(m') && Some(m') == Act(m, l)
  {
    longer, m' := labels + [l], Act(m, l).value;
    ExecSnoc(Act, Start(max, waiters), labels, l);
  }

  /** With two or more waiting threads the promise fails for every maximum: the first to leave clears
      the mark, and the second sleeps on however often somebody knocks. */
  lemma SecondWaiterIsLost(max: nat, waiters: nat) returns (labels: seq<Move>, m: Monitor)
    requires max > 0 && waiters >= 2
    ensures Exec(Act, Start(max, waiters), labels) == Some(m)
    ensures Naps(m, 1, Asleep) && !m.somebodyWaits && m.spurious == 0
    ensures forall knocks :: AllKnocks(knocks) ==> Exec(Act, m, knocks) == Some(m)
  {
    labels, m := [], Start(max, waiters);
    labels, m := Extend(max, waiters, labels, m, Enter(0));
    labels, m := Extend(max, waiters, labels, m, Enter(1));
    KnocksWake(m, max, 0);
    ExecAppend(Act, Start(max, waiters), labels, Knocks(max, 0));
    labels, m := labels + Knocks(max, 0), Exec(Act, m, Knocks(max, 0)).value;
    labels, m := Extend(max, waiters, labels, m, Leave(0));
    forall knocks | AllKnocks(knocks)
      ensures Exec(Act, m, knocks) == Some(m)
    {
      KnocksAreIgnored(m, knocks);
    }
  }

  /** Every sleeper of every run can be woken by knocks. */
  ghost predicate NobodyIsLost(max: nat, waiters: nat) {
    forall labels, u :: Exec(Act, Start(max, waiters), labels).Some? ==>
      var m := Exec(Act, Start(max, waiters), labels).value;
      Naps(m, u, Asleep) ==> Wakeable(m, u)
  }

  /** Which is so exactly when at most one thread waits. */
  lemma WhenNobodyIsLost(max: nat, waiters: nat)
    requires max > 0
    ensures NobodyIsLost(max, waiters) <==> waiters <= 1
  {
    if waiters >= 2 {
      var labels, m := SecondWaiterIsLost(max, waiters);
      UnmarkedIsLost(m, 1);
    } else {
      forall labels, u | Exec(Act, Start(max, waiters), labels).Some? && Naps(Exec(Act, Start(max, waiters), labels).value, u, Asleep)
        ensures Wakeable(Exec(Act, Start(max, waiters), labels).value, u)
      {
        var m := Exec(Act, Start(max, waiters), labels).value;
        ReachableSize(max, waiters, labels, m);
        ReachableLoneWaiter(max, labels, m);
        MarkedIsWakeable(m, u);
      }
    }
  }

  lemma ReachableSize(max: nat, waiters: nat, labels: seq<Move>, m: Monitor)
    requires Exec(Act, Start(max, waiters), labels) == Some(m)
    ensures |m.threads| == waiters
  {
    Invariance(Act, (m: Monitor) => |m.threads| == waiters, Start(max, waiters), labels);
  }

  // ----- what can happen when -----

  /** At any time a thread outside can enter, a thread inside can be woken or leave, anybody can knock, and
      a signal may pick any sleeper. */
  lemma WhenCallsArePossible(max: nat, waiters: nat, labels: seq<Move>, m: Monitor, t: nat)
    requires max > 0 && Exec(Act, Start(max, waiters), labels) == Some(m)
    ensures Act(m, Enter(t)).Some? <==> t < waiters && !Inside(labels, t)
    ensures Act(m, Stir(t)).Some? || Act(m, Leave(t)).Some? <==> t < waiters && Inside(labels, t)
    ensures Naps(m, t, Asleep) || !SomeoneSleeps(m.threads) ==> Act(m, Knock(t)).Some?
  {
    CallsDecideState(max, waiters, labels, m);
  }

  /** In all runs with at most k spurious wake-ups each return was paid for by max knocks. */
  ghost predicate ReturnsArePaid(max: nat, waiters: nat, k: nat) {
    forall labels :: Exec(Act, Start(max, waiters), labels).Some? ==>
      var m := Exec(Act, Start(max, waiters), labels).value;
      m.spurious <= k ==> max * m.returned <= m.knocks
  }

  lemma NobodyReturns(max: nat, labels: seq<Move>, m: Monitor)
    requires Exec(Act, Start(max, 0), labels) == Some(m)
    ensures m.returned == 0
  {
    Invariance(Act, (m: Monitor) => m.threads == [] && m.returned == 0, Start(max, 0), labels);
  }

  /** Which is so exactly when no wake-up is spurious or nobody waits. */
  lemma WhenReturnsArePaid(max: nat, waiters: nat, k: nat)
    requires max > 0
    ensures ReturnsArePaid(max, waiters, k) <==> k == 0 || waiters == 0
  {
    if k > 0 && waiters > 0 {
      var labels, m := [], Start(max, waiters);
      labels, m := Extend(max, waiters, labels, m, Enter(0));
      labels, m := Extend(max, waiters, labels, m, Stir(0));
      labels, m := Extend(max, waiters, labels, m, Leave(0));
      assert Exec(Act, Start(max, waiters), labels).Some? && m.knocks == 0 && m.returned == 1;
    } else {
      forall labels | Exec(Act, Start(max, waiters), labels).Some?
        ensures
          var m := Exec(Act, Start(max, waiters), labels).value;
          m.spurious <= k ==> max * m.returned <= m.knocks
      {
        var m := Exec(Act, Start(max, waiters), labels).value;
        KnocksPayForReturns(max, waiters, labels, m);
        if waiters == 0 {
          NobodyReturns(max, labels, m);
        }
      }
    }
  }
}

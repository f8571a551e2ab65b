/** The hand-written semaphore of rust/semaphore.rs: a count that may go negative, guarded by a
    mutex, and a condition variable on which `wait` sleeps once, without testing again. Each
    section that runs under the mutex is one step. */
module Semaphore {
  import opened Transitions
  import opened Sums

  /** Where a thread is with respect to the condition variable. */
  datatype Nap = Awake | Asleep | Notified

  /** `waits`, `posts`, `returned` and `spurious` are history. */
  datatype Sem = Sem(value: int, threads: seq<Nap>, waits: nat, posts: nat, returned: nat, spurious: nat)

  datatype Label =
    | Wait(t: nat)                 // take one off the count; sleep if it is negative
    | Post(t: nat, chosen: nat)    // add one to the count; notify_one if it is not positive
    | Return(t: nat)               // a notified thread gets the mutex back and leaves wait
    | SpuriousWake(t: nat)

  /** wait: after the decrement the count is negative. */
  predicate Blocks(value: int) {
    value - 1 < 0
  }

  /** post: after the increment the count is not positive. */
  predicate Notifies(value: int) {
    value + 1 <= 0
  }

  function New(value: int, n: nat): Sem {
    Sem(value, seq(n, _ => Awake), 0, 0, 0, 0)
  }

  predicate At(s: Sem, t: nat, nap: Nap) {
    t < |s.threads| && s.threads[t] == nap
  }

  predicate SomeoneSleeps(threads: seq<Nap>) {
    exists u :: 0 <= u < |threads| && threads[u] == Asleep
  }

  function Step(s: Sem, l: Label): Option<Sem> {
    match l
    case Wait(t) =>
      if !At(s, t, Awake) then None
      else if Blocks(s.value)
      then Some(s.(value := s.value - 1, waits := s.waits + 1, threads := s.threads[t := Asleep]))
      else Some(s.(value := s.value - 1, waits := s.waits + 1, returned := s.returned + 1))
    case Post(t, chosen) =>
      if !At(s, t, Awake) then None
      else if Notifies(s.value) && SomeoneSleeps(s.threads) then
        if At(s, chosen, Asleep)
        then Some(s.(value := s.value + 1, posts := s.posts + 1, threads := s.threads[chosen := Notified]))
        else None
      else Some(s.(value := s.value + 1, posts := s.posts + 1))
    case Return(t) =>
      if At(s, t, Notified)
      then Some(s.(threads := s.threads[t := Awake], returned := s.returned + 1))
      else None
    case SpuriousWake(t) =>
      if At(s, t, Asleep)
      then Some(s.(threads := s.threads[t := Notified], spurious := s.spurious + 1))
      else None
  }

  function IsAsleep(nap: Nap): nat {
    if nap == Asleep then 1 else 0
  }

  function IsNotified(nap: Nap): nat {
    if nap == Notified then 1 else 0
  }

  ghost function Sleepers(s: Sem): nat {
    Sum(s.threads, IsAsleep)
  }

  /** Waits the semaphore has let through: returned, or on their way out. */
  ghost function Admitted(s: Sem): nat {
    s.returned + Sum(s.threads, IsNotified)
  }

  function Positive(x: int): nat {
    if x > 0 then x else 0
  }

  ghost predicate Inv(start: int, s: Sem) {
    && s.value == start - s.waits + s.posts
    && s.waits == Admitted(s) + Sleepers(s)
    && -s.value - s.spurious - Positive(-start) <= Sleepers(s) <= Positive(-s.value)
  }

  lemma PostKeepsInv(start: int, s: Sem, t: nat, u: nat)
    requires Inv(start, s) && Step(s, Post(t, u)).Some?
    ensures Inv(start, Step(s, Post(t, u)).value)
  {
    if Notifies(s.value) && SomeoneSleeps(s.threads) {
      SumUpdate(s.threads, u, Notified, IsAsleep);
      SumUpdate(s.threads, u, Notified, IsNotified);
    } else if Notifies(s.value) {
      SumZero(s.threads, IsAsleep);
    }
  }

  lemma NapKeepsInv(start: int, s: Sem, l: Label, nap: Nap)
    requires Inv(start, s) && Step(s, l).Some? && !l.Post?
    requires nap == (match l case Wait(_) => Asleep case Return(_) => Awake case _ => Notified)
    ensures Inv(start, Step(s, l).value)
  {
    SumUpdate(s.threads, l.t, nap, IsAsleep);
    SumUpdate(s.threads, l.t, nap, IsNotified);
  }

  lemma StepKeepsInv(start: int, s: Sem, l: Label)
    requires Inv(start, s) && Step(s, l).Some?
    ensures Inv(start, Step(s, l).value)
  {
    match l {
      case Wait(t) => NapKeepsInv(start, s, l, Asleep);
      case Post(t, u) => PostKeepsInv(start, s, t, u);
      case Return(t) => NapKeepsInv(start, s, l, Awake);
      case SpuriousWake(t) => NapKeepsInv(start, s, l, Notified);
    }
  }

  lemma RunInv(start: int, n: nat, labels: seq<Label>, s: Sem)
    requires Exec(Step, New(start, n), labels) == Some(s)
    ensures Inv(start, s)
  {
    SumZero(New(start, n).threads, IsAsleep);
    SumZero(New(start, n).threads, IsNotified);
    forall s, l | Inv(start, s) && Step(s, l).Some?
      ensures Inv(start, Step(s, l).value)
    {
      StepKeepsInv(start, s, l);
    }
    Invariance(Step, s => Inv(start, s), New(start, n), labels);
  }

  function IsWait(l: Label): bool { l.Wait? }
  function IsPost(l: Label): bool { l.Post? }
  function IsSpurious(l: Label): bool { l.SpuriousWake? }

  /** The calls made decide the count and the histories; only who sleeps depends on the rest. */
  lemma CallsDecideCount(start: int, n: nat, labels: seq<Label>, s: Sem)
    requires Exec(Step, New(start, n), labels) == Some(s)
    ensures s.waits == HowMany(labels, IsWait) && s.posts == HowMany(labels, IsPost)
    ensures s.spurious == HowMany(labels, IsSpurious)
    ensures s.value == start - HowMany(labels, IsWait) + HowMany(labels, IsPost)
    ensures Admitted(s) == HowMany(labels, IsWait) - Sleepers(s)
  {
    Tallying(Step, (s: Sem) => s.waits, IsWait, New(start, n), labels);
    Tallying(Step, (s: Sem) => s.posts, IsPost, New(start, n), labels);
    Tallying(Step, (s: Sem) => s.spurious, IsSpurious, New(start, n), labels);
    RunInv(start, n, labels, s);
  }

  /** With k spurious wake-ups so far, in every run: the sleepers are max(0, -v) up to k, nobody
      sleeps while the count is not negative, and at most k waits too many were let through. */
  lemma SleepersBounded(start: nat, n: nat, labels: seq<Label>, s: Sem)
    requires Exec(Step, New(start, n), labels) == Some(s)
    ensures Positive(-s.value - s.spurious) <= Sleepers(s) <= Positive(-s.value)
    ensures s.value >= 0 ==> forall t :: 0 <= t < |s.threads| ==> s.threads[t] != Asleep
    ensures Admitted(s) <= start + s.posts + s.spurious
  {
    RunInv(start, n, labels, s);
    if s.value >= 0 {
      forall t | 0 <= t < |s.threads|
        ensures s.threads[t] != Asleep
      {
        SumAtLeast(s.threads, t, IsAsleep);
      }
    }
  }

  // ----- exactly when every wait let through was paid for -----

  lemma Extend(start: int, n: nat, labels: seq<Label>, s: Sem, l: Label) returns (longer: seq<Label>, t: Sem)
    requires Exec(Step, New(start, n), labels) == Some(s) && Step(s, l).Some?
    ensures Exec(Step, New(start, n), longer) == Some(t) && Some(t) == Step(s, l)
  {
    longer, t := labels + [l], Step(s, l).value;
    ExecSnoc(Step, New(start, n), labels, l);
  }

  /** The initial units, taken one after the other by the same thread. */
  lemma {:induction false} TakeAll(start: nat, n: nat, k: nat) returns (labels: seq<Label>, s: Sem)
    requires n > 0 && k <= start
    ensures Exec(Step, New(start, n), labels) == Some(s) && s == New(start, n).(value := start - k, waits := k, returned := k)
  {
    labels, s := [], New(start, n);
    if k > 0 {
      labels, s := TakeAll(start, n, k - 1);
      labels, s := Extend(start, n, labels, s, Wait(0));
    }
  }

  /** The bound is tight for every number k of spurious wake-ups: with a single thread and no post
      at all, k waits too many are let through. */
  lemma {:induction false} SpuriousWakesOverAdmit(start: nat, n: nat, k: nat) returns (labels: seq<Label>, s: Sem)
    requires n > 0
    ensures Exec(Step, New(start, n), labels) == Some(s)
    ensures s.spurious == k && s.value + k == 0 && s.threads == New(start, n).threads
    ensures Admitted(s) == start + s.posts + k
  {
    if k == 0 {
      labels, s := TakeAll(start, n, start);
    } else {
      var before;
      labels, before := SpuriousWakesOverAdmit(start, n, k - 1);
      labels, s := Extend(start, n, labels, before, Wait(0));
      labels, s := Extend(start, n, labels, s, SpuriousWake(0));
      labels, s := Extend(start, n, labels, s, Return(0));
      assert s.threads == before.threads;
    }
    SumZero(s.threads, IsNotified);
  }

  /** No run with at most k spurious wake-ups lets more waits through than were paid for. */
  ghost predicate PaidFor(start: nat, n: nat, k: nat) {
    forall labels :: Exec(Step, New(start, n), labels).Some? ==>
      var s := Exec(Step, New(start, n), labels).value;
      s.spurious <= k ==> Admitted(s) <= start + s.posts
  }

  /** Which is so exactly when there are no spurious wake-ups, or no threads. */
  lemma WhenPaidFor(start: nat, n: nat, k: nat)
    ensures PaidFor(start, n, k) <==> k == 0 || n == 0
  {
    if k > 0 && n > 0 {
      var labels, s := SpuriousWakesOverAdmit(start, n, k);
      assert Exec(Step, New(start, n), labels).Some?;
    } else {
      forall labels | Exec(Step, New(start, n), labels).Some?
        ensures
          var s := Exec(Step, New(start, n), labels).value;
          s.spurious <= k ==> Admitted(s) <= start + s.posts
      {
        var s := Exec(Step, New(start, n), labels).value;
        SleepersBounded(start, n, labels, s);
        if n == 0 {
          assert labels == [];
        }
      }
    }
  }

  // ----- the counting semaphore it stands for -----

  /** sem_wait and sem_post of IEEE Std 1003.1-2017: a wait is requested and, when the value
      allows, admitted. */
  datatype Counting = Counting(value: nat, blocked: seq<bool>, posts: nat, admitted: nat)

  datatype CountingLabel = Request(t: nat) | Admit(t: nat) | Release(t: nat)

  function CountingStep(c: Counting, l: CountingLabel): Option<Counting> {
    match l
    case Request(t) =>
      if t < |c.blocked| && !c.blocked[t] then Some(c.(blocked := c.blocked[t := true])) else None
    case Admit(t) =>
      if t < |c.blocked| && c.blocked[t] && c.value > 0
      then Some(c.(blocked := c.blocked[t := false], value := c.value - 1, admitted := c.admitted + 1))
      else None
    case Release(t) =>
      if t < |c.blocked| && !c.blocked[t] then Some(c.(value := c.value + 1, posts := c.posts + 1)) else None
  }

  function CountingNew(value: nat, n: nat): Counting {
    Counting(value, seq(n, _ => false), 0, 0)
  }

  function IsAdmit(l: CountingLabel): bool { l.Admit? }
  function IsRelease(l: CountingLabel): bool { l.Release? }

  /** What the specification promises: in every run the value is the initial one plus the posts less the
      waits admitted, and so never are more admitted than that allows; a wait is admitted exactly when a
      thread asks for it and the value is positive. */
  lemma CountingConserves(start: nat, n: nat, labels: seq<CountingLabel>, c: Counting, t: nat)
    requires Exec(CountingStep, CountingNew(start, n), labels) == Some(c)
    ensures c.value == start + HowMany(labels, IsRelease) - HowMany(labels, IsAdmit)
    ensures HowMany(labels, IsAdmit) <= start + HowMany(labels, IsRelease)
    ensures c.posts == HowMany(labels, IsRelease) && c.admitted == HowMany(labels, IsAdmit)
    ensures CountingStep(c, Admit(t)).Some? <==> t < |c.blocked| && c.blocked[t] && c.value > 0
  {
    Tallying(CountingStep, (c: Counting) => c.posts, IsRelease, CountingNew(start, n), labels);
    Tallying(CountingStep, (c: Counting) => c.admitted, IsAdmit, CountingNew(start, n), labels);
    var conserved := (c: Counting) => c.value + c.admitted == start + c.posts;
    Invariance(CountingStep, conserved, CountingNew(start, n), labels);
  }

  function Blocked(threads: seq<Nap>): seq<bool> {
    seq(|threads|, t requires 0 <= t < |threads| => threads[t] == Asleep)
  }

  ghost function Abs(s: Sem): Counting {
    Counting(Positive(s.value), Blocked(s.threads), s.posts, Admitted(s))
  }

  /** A notifying post is a post and, with it, the admission of the thread it wakes. */
  function CountingImage(s: Sem, l: Label): seq<CountingLabel> {
    match l
    case Wait(t) => if Blocks(s.value) then [Request(t)] else [Request(t), Admit(t)]
    case Post(t, u) => if Notifies(s.value) then [Release(t), Admit(u)] else [Release(t)]
    case _ => []
  }

  function GenuineStep(s: Sem, l: Label): Option<Sem> {
    if l.SpuriousWake? then None else Step(s, l)
  }

  ghost predicate GenuineInv(start: nat, s: Sem) {
    Inv(start, s) && s.spurious == 0
  }

  lemma ExecTwo(c: Counting, l: CountingLabel, k: CountingLabel)
    requires CountingStep(c, l).Some?
    ensures Exec(CountingStep, c, [l, k]) == CountingStep(CountingStep(c, l).value, k)
  {
    ExecSnoc(CountingStep, c, [], l);
    assert [] + [l] == [l];
    ExecSnoc(CountingStep, c, [l], k);
    assert [l] + [k] == [l, k];
  }

  lemma WaitSimulates(s: Sem, t: nat)
    requires Step(s, Wait(t)).Some?
    ensures Exec(CountingStep, Abs(s), CountingImage(s, Wait(t))) == Some(Abs(Step(s, Wait(t)).value))
  {
    SumUpdate(s.threads, t, Asleep, IsNotified);
    assert Blocked(s.threads[t := Asleep]) == Blocked(s.threads)[t := true];
    assert Blocked(s.threads)[t := true][t := false] == Blocked(s.threads);
    ExecTwo(Abs(s), Request(t), Admit(t));
  }

  lemma PostSimulates(start: nat, s: Sem, t: nat, u: nat)
    requires GenuineInv(start, s) && Step(s, Post(t, u)).Some?
    ensures Exec(CountingStep, Abs(s), CountingImage(s, Post(t, u))) == Some(Abs(Step(s, Post(t, u)).value))
  {
    if Notifies(s.value) {
      var w := SumWitness(s.threads, IsAsleep);
      assert SomeoneSleeps(s.threads);
      SumUpdate(s.threads, u, Notified, IsNotified);
      assert Blocked(s.threads[u := Notified]) == Blocked(s.threads)[u := false];
      ExecTwo(Abs(s), Release(t), Admit(u));
    }
  }

  lemma StepSimulates(start: nat, s: Sem, l: Label)
    requires GenuineInv(start, s) && GenuineStep(s, l).Some?
    ensures Exec(CountingStep, Abs(s), CountingImage(s, l)) == Some(Abs(GenuineStep(s, l).value))
  {
    match l {
      case Wait(t) => WaitSimulates(s, t);
      case Post(t, u) => PostSimulates(start, s, t, u);
      case Return(t) =>
        SumUpdate(s.threads, t, Awake, IsNotified);
        assert Blocked(s.threads[t := Awake]) == Blocked(s.threads);
    }
  }

  /** Without spurious wake-ups every run of the hand-written semaphore is a run of the counting
      semaphore, whose value is max(0, v); so no wait is let through that was not paid for. */
  lemma RefinesCounting(start: nat, n: nat, labels: seq<Label>, s: Sem)
    requires Exec(GenuineStep, New(start, n), labels) == Some(s)
    ensures Exec(CountingStep, CountingNew(start, n), Image(GenuineStep, CountingImage, New(start, n), labels)) == Some(Abs(s))
    ensures Sleepers(s) == Positive(-s.value)
    ensures Admitted(s) + Positive(s.value) == start + s.posts
  {
    var s0 := New(start, n);
    SumZero(s0.threads, IsAsleep);
    SumZero(s0.threads, IsNotified);
    assert Blocked(s0.threads) == seq(n, _ => false);
    forall s, l | GenuineInv(start, s) && GenuineStep(s, l).Some?
      ensures GenuineInv(start, GenuineStep(s, l).value)
      ensures Exec(CountingStep, Abs(s), CountingImage(s, l)) == Some(Abs(GenuineStep(s, l).value))
    {
      StepKeepsInv(start, s, l);
      StepSimulates(start, s, l);
    }
    Simulation(GenuineStep, CountingStep, s => GenuineInv(start, s), Abs, CountingImage, s0, labels);
  }
}

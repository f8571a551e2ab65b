/** The hand-written semaphore of rust/semaphore.rs statement by statement: taking the mutex, changing
    the count, testing it, sleeping with the mutex released, notifying, getting the mutex back. Every
    run of it is a run of the machine of `Semaphore`, in which each section is one step. */
module FineSemaphore {
  import opened Transitions
  import opened Sums
  import opened Semaphore

  datatype Pc =
    | Idle
    | EnterWait      // wait: wants the mutex
    | WaitLocked     // has it, count not yet lowered
    | Lowered        // count lowered, not yet tested
    | Sleeping       // on the condition variable, mutex released
    | Woken          // notified, wants the mutex back
    | Relocked       // has it, about to return from wait
    | EnterPost      // post: wants the mutex
    | PostLocked     // has it, count not yet raised
    | Raised         // count raised, not yet tested
    | PostDone       // test and notification done, mutex still held

  datatype Fine = Fine(value: int, mutex: Option<nat>, threads: seq<Pc>, waits: nat, posts: nat, returned: nat, spurious: nat)

  datatype Turn =
    | CallWait(t: nat)
    | CallPost(t: nat)
    | Move(t: nat, chosen: nat)    // `chosen` is the sleeper that notify_one picks
    | Stir(t: nat)                 // spurious wake-up

  function Fresh(value: int, n: nat): Fine {
    Fine(value, None, seq(n, _ => Idle), 0, 0, 0, 0)
  }

  predicate On(s: Fine, t: nat, pc: Pc) {
    t < |s.threads| && s.threads[t] == pc
  }

  function Put(s: Fine, t: nat, pc: Pc): Fine
    requires t < |s.threads|
  {
    s.(threads := s.threads[t := pc])
  }

  function Lock(s: Fine, t: nat, pc: Pc): Option<Fine>
    requires t < |s.threads|
  {
    if s.mutex == None then Some(Put(s, t, pc).(mutex := Some(t))) else None
  }

  predicate AnySleeping(threads: seq<Pc>) {
    exists u :: 0 <= u < |threads| && threads[u] == Sleeping
  }

  function MoveOn(s: Fine, t: nat, chosen: nat): Option<Fine>
    requires t < |s.threads|
  {
    match s.threads[t]
    case EnterWait => Lock(s, t, WaitLocked)
    case WaitLocked => Some(Put(s, t, Lowered).(value := s.value - 1, waits := s.waits + 1))
    case Lowered =>
      if s.value < 0 then Some(Put(s, t, Sleeping).(mutex := None))
      else Some(Put(s, t, Idle).(mutex := None, returned := s.returned + 1))
    case Woken => Lock(s, t, Relocked)
    case Relocked => Some(Put(s, t, Idle).(mutex := None, returned := s.returned + 1))
    case EnterPost => Lock(s, t, PostLocked)
    case PostLocked => Some(Put(s, t, Raised).(value := s.value + 1))
    case Raised =>
      var done := Put(s, t, PostDone).(posts := s.posts + 1);
      if s.value <= 0 && AnySleeping(s.threads) then
        if On(s, chosen, Sleeping) then Some(Put(done, chosen, Woken)) else None
      else Some(done)
    case PostDone => Some(Put(s, t, Idle).(mutex := None))
    case _ => None
  }

  function FineStep(s: Fine, l: Turn): Option<Fine> {
    match l
    case CallWait(t) => if On(s, t, Idle) then Some(Put(s, t, EnterWait)) else None
    case CallPost(t) => if On(s, t, Idle) then Some(Put(s, t, EnterPost)) else None
    case Move(t, chosen) => if t < |s.threads| then MoveOn(s, t, chosen) else None
    case Stir(t) => if On(s, t, Sleeping) then Some(Put(s, t, Woken).(spurious := s.spurious + 1)) else None
  }

  // ----- the mutex -----

  predicate Holding(pc: Pc) {
    pc == WaitLocked || pc == Lowered || pc == Relocked || pc == PostLocked || pc == Raised || pc == PostDone
  }

  ghost predicate Exclusive(s: Fine) {
    && (s.mutex.Some? ==> s.mutex.value < |s.threads|)
    && forall t :: 0 <= t < |s.threads| ==> (Holding(s.threads[t]) <==> s.mutex == Some(t))
  }

  lemma StepKeepsExclusive(s: Fine, l: Turn)
    requires Exclusive(s) && FineStep(s, l).Some?
    ensures Exclusive(FineStep(s, l).value)
  {
  }

  /** The thread that holds the mutex can always move, so the mutex is always given back. */
  lemma HolderCanMove(value: int, n: nat, labels: seq<Turn>, s: Fine) returns (l: Turn)
    requires Exec(FineStep, Fresh(value, n), labels) == Some(s) && s.mutex.Some?
    ensures l.Move? && s.mutex == Some(l.t) && FineStep(s, l).Some?
  {
    RefinesSections(value, n, labels, s);
    var t := s.mutex.value;
    if s.threads[t] == Raised && AnySleeping(s.threads) {
      var u :| 0 <= u < |s.threads| && s.threads[u] == Sleeping;
      l := Move(t, u);
    } else {
      l := Move(t, 0);
    }
  }

  /** A thread outside can call, a thread asleep can be woken, and any other thread can go on unless it wants
      the mutex and another has it; a post that notifies may pick any sleeper. */
  lemma WhenThreadMoves(value: int, n: nat, labels: seq<Turn>, s: Fine, t: nat, chosen: nat)
    requires Exec(FineStep, Fresh(value, n), labels) == Some(s)
    ensures |s.threads| == n
    ensures FineStep(s, CallWait(t)).Some? <==> t < n && s.threads[t] == Idle
    ensures FineStep(s, CallPost(t)).Some? <==> t < n && s.threads[t] == Idle
    ensures FineStep(s, Stir(t)).Some? <==> t < n && s.threads[t] == Sleeping
    ensures FineStep(s, Move(t, chosen)).Some? <==>
      && t < n && s.threads[t] != Idle && s.threads[t] != Sleeping
      && (s.threads[t] == EnterWait || s.threads[t] == Woken || s.threads[t] == EnterPost ==> s.mutex == None)
      && (s.threads[t] == Raised && s.value <= 0 && AnySleeping(s.threads) ==> On(s, chosen, Sleeping))
  {
    Invariance(FineStep, (s: Fine) => |s.threads| == n, Fresh(value, n), labels);
  }

  // ----- abstraction: wait takes effect when it lowers the count, post when it has notified -----

  function AbsNap(value: int, pc: Pc): Nap {
    match pc
    case Lowered => if value < 0 then Asleep else Awake
    case Sleeping => Asleep
    case Woken => Notified
    case Relocked => Notified
    case _ => Awake
  }

  function AbsNaps(value: int, threads: seq<Pc>): (naps: seq<Nap>)
    ensures |naps| == |threads|
  {
    seq(|threads|, t requires 0 <= t < |threads| => AbsNap(value, threads[t]))
  }

  function HolderPc(s: Fine): Pc {
    if s.mutex.Some? && s.mutex.value < |s.threads| then s.threads[s.mutex.value] else Idle
  }

  function AsSections(s: Fine): Sem {
    Sem(s.value - (if HolderPc(s) == Raised then 1 else 0), AbsNaps(s.value, s.threads), s.waits, s.posts,
        s.returned + (if HolderPc(s) == Lowered && s.value >= 0 then 1 else 0), s.spurious)
  }

  function SectionOf(s: Fine, l: Turn): seq<Label> {
    match l
    case Move(t, chosen) =>
      if !(t < |s.threads|) then []
      else (match s.threads[t]
        case WaitLocked => [Wait(t)]
        case Relocked => [Return(t)]
        case Raised => [Post(t, chosen)]
        case _ => [])
    case Stir(t) => [SpuriousWake(t)]
    case _ => []
  }

  lemma ExecOne(s: Sem, l: Label)
    ensures Exec(Step, s, [l]) == Step(s, l)
  {
    ExecSnoc(Step, s, [], l);
    assert [] + [l] == [l];
  }

  /** Changing one thread that holds the mutex, or is not Lowered before and after, changes one nap. */
  lemma NapsUpdate(value: int, value': int, threads: seq<Pc>, t: nat, pc: Pc)
    requires t < |threads|
    requires value' == value || forall u :: 0 <= u < |threads| && u != t ==> threads[u] != Lowered
    ensures AbsNaps(value', threads[t := pc]) == AbsNaps(value, threads)[t := AbsNap(value', pc)]
  {
  }

  /** Calls, lock acquisitions and releases are invisible at the level of sections. */
  lemma Invisible(s: Fine, l: Turn)
    requires Exclusive(s) && FineStep(s, l).Some? && SectionOf(s, l) == []
    ensures AsSections(FineStep(s, l).value) == AsSections(s)
  {
    var s' := FineStep(s, l).value;
    NapsUpdate(s.value, s'.value, s.threads, l.t, s'.threads[l.t]);
    assert AbsNap(s'.value, s'.threads[l.t]) == AbsNap(s.value, s.threads[l.t]);
    assert AbsNaps(s'.value, s'.threads) == AbsNaps(s.value, s.threads);
  }

  lemma LowerIsWait(s: Fine, t: nat, chosen: nat)
    requires Exclusive(s) && On(s, t, WaitLocked) && FineStep(s, Move(t, chosen)).Some?
    ensures Step(AsSections(s), Wait(t)) == Some(AsSections(FineStep(s, Move(t, chosen)).value))
  {
    NapsUpdate(s.value, s.value - 1, s.threads, t, Lowered);
    assert AbsNaps(s.value, s.threads)[t := Awake] == AbsNaps(s.value, s.threads);
  }

  lemma RelockIsReturn(s: Fine, t: nat, chosen: nat)
    requires Exclusive(s) && On(s, t, Relocked) && FineStep(s, Move(t, chosen)).Some?
    ensures Step(AsSections(s), Return(t)) == Some(AsSections(FineStep(s, Move(t, chosen)).value))
  {
    NapsUpdate(s.value, s.value, s.threads, t, Idle);
  }

  lemma StirIsSpurious(s: Fine, t: nat)
    requires Exclusive(s) && FineStep(s, Stir(t)).Some?
    ensures Step(AsSections(s), SpuriousWake(t)) == Some(AsSections(FineStep(s, Stir(t)).value))
  {
    NapsUpdate(s.value, s.value, s.threads, t, Woken);
  }

  lemma SleepingIsAsleep(s: Fine)
    requires forall t :: 0 <= t < |s.threads| ==> s.threads[t] != Lowered
    ensures AnySleeping(s.threads) <==> SomeoneSleeps(AbsNaps(s.value, s.threads))
  {
    if AnySleeping(s.threads) {
      var w :| 0 <= w < |s.threads| && s.threads[w] == Sleeping;
      assert AbsNaps(s.value, s.threads)[w] == Asleep;
    }
  }

  lemma NotifyIsPost(s: Fine, t: nat, u: nat)
    requires Exclusive(s) && On(s, t, Raised) && FineStep(s, Move(t, u)).Some?
    ensures Step(AsSections(s), Post(t, u)) == Some(AsSections(FineStep(s, Move(t, u)).value))
  {
    NapsUpdate(s.value, s.value, s.threads, t, PostDone);
    assert AbsNaps(s.value, s.threads)[t := Awake] == AbsNaps(s.value, s.threads);
    SleepingIsAsleep(s);
    if s.value <= 0 && AnySleeping(s.threads) {
      NapsUpdate(s.value, s.value, s.threads[t := PostDone], u, Woken);
    }
  }

  lemma StepRefines(s: Fine, l: Turn)
    requires Exclusive(s) && FineStep(s, l).Some?
    ensures Exec(Step, AsSections(s), SectionOf(s, l)) == Some(AsSections(FineStep(s, l).value))
  {
    if SectionOf(s, l) == [] {
      Invisible(s, l);
    } else {
      ExecOne(AsSections(s), SectionOf(s, l)[0]);
      match l {
        case Move(t, u) =>
          match s.threads[t] {
            case WaitLocked => LowerIsWait(s, t, u);
            case Relocked => RelockIsReturn(s, t, u);
            case Raised => NotifyIsPost(s, t, u);
          }
        case Stir(t) => StirIsSpurious(s, t);
      }
    }
  }

  /** Every statement-level run is, through AsSections, a run of the section-level machine. */
  lemma RefinesSections(value: int, n: nat, labels: seq<Turn>, s: Fine)
    requires Exec(FineStep, Fresh(value, n), labels) == Some(s)
    ensures Exec(Step, New(value, n), Image(FineStep, SectionOf, Fresh(value, n), labels)) == Some(AsSections(s))
    ensures Exclusive(s)
  {
    assert AbsNaps(value, Fresh(value, n).threads) == New(value, n).threads;
    forall s, l | Exclusive(s) && FineStep(s, l).Some?
      ensures Exclusive(FineStep(s, l).value)
      ensures Exec(Step, AsSections(s), SectionOf(s, l)) == Some(AsSections(FineStep(s, l).value))
    {
      StepKeepsExclusive(s, l);
      StepRefines(s, l);
    }
    Simulation(FineStep, Step, Exclusive, AsSections, SectionOf, Fresh(value, n), labels);
  }

  function IsSleeping(pc: Pc): nat {
    if pc == Sleeping then 1 else 0
  }

  lemma {:induction false} SleepersAgree(value: int, threads: seq<Pc>)
    requires forall t :: 0 <= t < |threads| ==> threads[t] != Lowered
    ensures Sum(AbsNaps(value, threads), IsAsleep) == Sum(threads, IsSleeping)
  {
    if threads != [] {
      assert AbsNaps(value, threads)[1..] == AbsNaps(value, threads[1..]);
      SleepersAgree(value, threads[1..]);
    }
  }

  /** Whenever the mutex is free, with k spurious wake-ups so far: the sleepers are max(0, -v) up to
      k, and nobody sleeps while the count is not negative. */
  lemma SleepersBoundedWhenFree(start: nat, n: nat, labels: seq<Turn>, s: Fine)
    requires Exec(FineStep, Fresh(start, n), labels) == Some(s) && s.mutex == None
    ensures Positive(-s.value - s.spurious) <= Sum(s.threads, IsSleeping) <= Positive(-s.value)
    ensures s.returned <= start + s.posts + s.spurious
  {
    RefinesSections(start, n, labels, s);
    SleepersBounded(start, n, Image(FineStep, SectionOf, Fresh(start, n), labels), AsSections(s));
    SleepersAgree(s.value, s.threads);
  }
}

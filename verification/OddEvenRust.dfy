/** The Rust odd/even program over its hand-written semaphores, whose wake-ups may be spurious. In every
    run each number is printed at most once, each thread prints rising numbers, the schedule is bounded,
    and a deadlock comes one number short of the end. */
module OddEvenRust {
  import opened Transitions
  import opened OddEven
  import Sem = Semaphore

  /** `strays` counts the spurious wake-ups. */
  datatype Loose = Loose(s: State, strays: nat)

  datatype Label = Moves(w: nat) | Stray(w: nat)

  function LooseStep(limit: int, r: Loose, l: Label): Option<Loose> {
    match l
    case Moves(w) =>
      (match Step(RustLang, limit, r.s, w)
       case None => None
       case Some(t) => Some(Loose(t, r.strays)))
    case Stray(w) =>
      if w < |r.s.threads| && r.s.threads[w].pc == Asleep
      then Some(Loose(SetPc(r.s, w, Notified), r.strays + 1))
      else None
  }

  function LooseMachine(limit: int): (Loose, Label) -> Option<Loose> {
    (r, l) => LooseStep(limit, r, l)
  }

  function Start(): Loose {
    Loose(Init(), 0)
  }

  ghost predicate Reaches(limit: int, labels: seq<Label>, r: Loose) {
    Exec(LooseMachine(limit), Start(), labels) == Some(r)
  }

  function IsStray(l: Label): bool { l.Stray? }

  /** `strays` is the number of spurious wake-ups of the run. */
  lemma StraysAreWakeUps(limit: int, labels: seq<Label>, r: Loose)
    requires Reaches(limit, labels, r)
    ensures r.strays == HowMany(labels, IsStray)
  {
    Tallying(LooseMachine(limit), (r: Loose) => r.strays, IsStray, Start(), labels);
  }

  /** Each thread can move until it has left, unless it sleeps; then it can be woken spuriously. */
  lemma WhenThreadMoves(limit: int, labels: seq<Label>, r: Loose, w: nat)
    requires Reaches(limit, labels, r)
    ensures Shape(r.s)
    ensures LooseStep(limit, r, Stray(w)).Some? <==> w < 2 && r.s.threads[w].pc == Asleep
    ensures LooseStep(limit, r, Moves(w)).Some? <==> w < 2 && r.s.threads[w].pc != Asleep && r.s.threads[w].pc != Done
  {
    Invariance(LooseMachine(limit), (r: Loose) => Shape(r.s), Start(), labels);
  }

  // ----- each of the two counts is a run of the hand-written semaphore -----

  function NapOf(pc: Pc): Sem.Nap {
    match pc
    case Asleep => Sem.Asleep
    case Notified => Sem.Notified
    case _ => Sem.Awake
  }

  /** Thread w waits on semaphore w, the other thread posts it. */
  ghost predicate ShowsSemaphore(w: nat, r: Loose, m: Sem.Sem) {
    && Shape(r.s) && w < 2 && |m.threads| == 2 && m.value == r.s.sems[w] && m.spurious <= r.strays
    && m.threads[w] == NapOf(r.s.threads[w].pc) && m.threads[1 - w] == Sem.Awake
  }

  function Calls(w: nat): (Loose, Label) -> seq<Sem.Label> {
    (r: Loose, l: Label) =>
      if !Shape(r.s) || w > 1 || l.w > 1 then []
      else if l.Stray? then (if l.w == w then [Sem.SpuriousWake(w)] else [])
      else if l.w != w then (if r.s.threads[l.w].pc == Post then [Sem.Post(l.w, w)] else [])
      else if r.s.threads[w].pc == Wait then [Sem.Wait(w)]
      else if r.s.threads[w].pc == Notified then [Sem.Return(w)]
      else []
  }

  ghost function ShowsOf(w: nat): (Loose, Sem.Sem) -> bool {
    (r, m) => ShowsSemaphore(w, r, m)
  }

  lemma PeerShowsSemaphore(w: nat, limit: int, r: Loose, l: Label, m: Sem.Sem)
    requires ShowsSemaphore(w, r, m) && LooseStep(limit, r, l).Some? && l.w != w
    ensures Exec(Sem.Step, m, Calls(w)(r, l)).Some?
    ensures ShowsSemaphore(w, LooseStep(limit, r, l).value, Exec(Sem.Step, m, Calls(w)(r, l)).value)
  {
    if l.Moves? && r.s.threads[l.w].pc == Post {
      assert [Sem.Post(l.w, w)][1..] == [];
      assert Sem.SomeoneSleeps(m.threads) <==> m.threads[w] == Sem.Asleep;
    }
  }

  lemma StepShowsSemaphore(w: nat, limit: int, r: Loose, l: Label, m: Sem.Sem)
    requires ShowsSemaphore(w, r, m) && LooseStep(limit, r, l).Some?
    ensures Exec(Sem.Step, m, Calls(w)(r, l)).Some?
    ensures ShowsSemaphore(w, LooseStep(limit, r, l).value, Exec(Sem.Step, m, Calls(w)(r, l)).value)
  {
    if l.w != w {
      PeerShowsSemaphore(w, limit, r, l, m);
    } else if Calls(w)(r, l) != [] {
      assert Calls(w)(r, l)[1..] == [];
    }
  }

  /** In every run, spurious wake-ups included, the calls on either semaphore are a run of the
      hand-written semaphore with the same count and the same sleeper. */
  lemma IsSemaphore(w: nat, limit: int, labels: seq<Label>, r: Loose) returns (m: Sem.Sem)
    requires w < 2 && Reaches(limit, labels, r)
    ensures Exec(Sem.Step, Sem.New(1 - w, 2), Image(LooseMachine(limit), Calls(w), Start(), labels)) == Some(m)
    ensures ShowsSemaphore(w, r, m)
  {
    forall r, l, m | ShowsOf(w)(r, m) && LooseMachine(limit)(r, l).Some?
      ensures Exec(Sem.Step, m, Calls(w)(r, l)).Some?
      ensures ShowsOf(w)(LooseMachine(limit)(r, l).value, Exec(Sem.Step, m, Calls(w)(r, l)).value)
    {
      StepShowsSemaphore(w, limit, r, l, m);
    }
    Tracking(LooseMachine(limit), Sem.Step, ShowsOf(w), Calls(w), Start(), Sem.New(1 - w, 2), labels);
    m := Exec(Sem.Step, Sem.New(1 - w, 2), Image(LooseMachine(limit), Calls(w), Start(), labels)).value;
  }

  /** So a thread sleeps only while its semaphore's count is negative. */
  lemma SleepsOnDebt(w: nat, limit: int, labels: seq<Label>, r: Loose)
    requires w < 2 && Reaches(limit, labels, r)
    ensures Shape(r.s) && (r.s.threads[w].pc == Asleep ==> r.s.sems[w] < 0)
  {
    var m := IsSemaphore(w, limit, labels, r);
    Sem.SleepersBounded(1 - w, 2, Image(LooseMachine(limit), Calls(w), Start(), labels), m);
  }

  // ----- what every run keeps -----

  /** A thread leaves with the first number it takes that is at least this. */
  function Top(limit: int): int {
    Last(limit) - 1
  }

  predicate ThreadInv(limit: int, counter: int, th: Thread) {
    && th.pc != Check && th.n < counter
    && (Waiting(th.pc) ==> th.n < Top(limit))
    && (th.pc == Emit || th.pc == Post || th.pc == Loop || th.pc == Done ==> th.n >= 1)
    && (th.pc == Done ==> th.n >= Top(limit))
  }

  function High(limit: int, th: Thread): nat {
    if th.n >= Top(limit) then 1 else 0
  }

  /** No two threads take the same number, and none is taken beyond the last. */
  predicate Taken(limit: int, s: State) {
    && Shape(s)
    && ThreadInv(limit, s.counter, s.threads[0]) && ThreadInv(limit, s.counter, s.threads[1])
    && s.threads[0].n != s.threads[1].n
    && 1 <= s.counter <= Top(limit) + High(limit, s.threads[0]) + High(limit, s.threads[1])
  }

  lemma PeerEffect(limit: int, s: State, w: nat)
    requires Step(RustLang, limit, s, w).Some?
    ensures
      var t := Step(RustLang, limit, s, w).value;
      && Shape(s) && w < 2 && Shape(t)
      && (|| t.threads[1 - w] == s.threads[1 - w]
          || (s.threads[1 - w].pc == Asleep && t.threads[1 - w] == s.threads[1 - w].(pc := Notified)))
  {
  }

  lemma OwnEffect(limit: int, s: State, w: nat)
    requires Step(RustLang, limit, s, w).Some? && s.counter >= 1 && ThreadInv(limit, s.counter, s.threads[w])
    ensures
      var (th, t) := (s.threads[w], Step(RustLang, limit, s, w).value);
      && Shape(t) && ThreadInv(limit, t.counter, t.threads[w])
      && (if th.pc == Bump then t.counter == s.counter + 1 && t.threads[w].n == s.counter && th.n < Top(limit)
          else t.counter == s.counter && t.threads[w].n == th.n)
  {
  }

  lemma StepKeepsTaken(limit: int, s: State, w: nat)
    requires Taken(limit, s) && Step(RustLang, limit, s, w).Some?
    ensures Taken(limit, Step(RustLang, limit, s, w).value)
  {
    PeerEffect(limit, s, w);
    OwnEffect(limit, s, w);
  }

  lemma OwnDescends(limit: int, s: State, w: nat)
    requires Step(RustLang, limit, s, w).Some? && ThreadInv(limit, s.counter, s.threads[w]) && s.counter <= Last(limit) + 1
    requires s.threads[w].pc == Bump ==> s.counter <= Last(limit)
    ensures ThreadRank(limit, Step(RustLang, limit, s, w).value.threads[w]) + 1 <= ThreadRank(limit, s.threads[w])
  {
  }

  lemma StepDescends(limit: int, s: State, w: nat)
    requires Taken(limit, s) && Step(RustLang, limit, s, w).Some?
    ensures Rank(limit, Step(RustLang, limit, s, w).value) + 1 <= Rank(limit, s)
  {
    PeerEffect(limit, s, w);
    OwnDescends(limit, s, w);
  }

  // ----- the lines, counted -----

  function Values(out: seq<Line>): (r: seq<int>)
    ensures |r| == |out|
  {
    seq(|out|, i requires 0 <= i < |out| => out[i].value)
  }

  function Authors(out: seq<Line>): (r: seq<nat>)
    ensures |r| == |out|
  {
    seq(|out|, i requires 0 <= i < |out| => out[i].who)
  }

  /** How often a number was printed. */
  ghost function Occurs(out: seq<Line>, x: int): nat {
    multiset(Values(out))[x]
  }

  /** How many lines a thread has printed. */
  ghost function By(out: seq<Line>, w: nat): nat {
    multiset(Authors(out))[w]
  }

  lemma OneMoreLine(out: seq<Line>, l: Line)
    ensures forall x :: Occurs(out + [l], x) == Occurs(out, x) + (if x == l.value then 1 else 0)
    ensures forall w :: By(out + [l], w) == By(out, w) + (if w == l.who then 1 else 0)
  {
    assert Values(out + [l]) == Values(out) + [l.value];
    assert Authors(out + [l]) == Authors(out) + [l.who];
  }

  /** Number x is about to be printed. */
  function Pending(th: Thread, x: int): nat {
    if th.pc == Emit && th.n == x then 1 else 0
  }

  /** Every number taken is printed or about to be, once. */
  ghost predicate Printed(s: State)
    requires Shape(s)
  {
    forall x :: Occurs(s.out, x) + Pending(s.threads[0], x) + Pending(s.threads[1], x) == (if 1 <= x < s.counter then 1 else 0)
  }

  /** The numbers a thread prints rise. */
  ghost predicate Rising(s: State)
    requires Shape(s)
  {
    && (forall i :: 0 <= i < |s.out| ==>
          var l := s.out[i];
          l.who < 2 && 1 <= l.value <= s.threads[l.who].n && (s.threads[l.who].pc == Emit ==> l.value < s.threads[l.who].n))
    && (forall i, j :: 0 <= i < j < |s.out| && s.out[i].who == s.out[j].who ==> s.out[i].value < s.out[j].value)
  }

  /** Only the print changes the lines, and nothing else. */
  lemma LineEffect(limit: int, s: State, w: nat)
    requires Step(RustLang, limit, s, w).Some?
    ensures
      var t := Step(RustLang, limit, s, w).value;
      && Shape(s) && w < 2
      && (s.threads[w].pc != Emit ==> t.out == s.out)
      && (s.threads[w].pc == Emit ==> t == SetPc(s.(out := s.out + [Line(w, s.threads[w].n)]), w, Post))
      && (t.threads[w].pc == Emit ==> s.threads[w].pc == Bump)
  {
  }

  lemma StepKeepsPrinted(limit: int, s: State, w: nat)
    requires Taken(limit, s) && Printed(s) && Step(RustLang, limit, s, w).Some?
    ensures Shape(Step(RustLang, limit, s, w).value) && Printed(Step(RustLang, limit, s, w).value)
  {
    PeerEffect(limit, s, w);
    OwnEffect(limit, s, w);
    LineEffect(limit, s, w);
    if s.threads[w].pc == Emit {
      OneMoreLine(s.out, Line(w, s.threads[w].n));
    }
  }

  /** Between its lines a thread only takes greater numbers. */
  predicate MovesUp(th: Thread, th': Thread) {
    th'.n >= th.n && (th'.pc == Emit ==> th'.n > th.n || th.pc == Emit)
  }

  lemma QuietKeepsRising(s: State, t: State)
    requires Shape(s) && Shape(t) && Rising(s) && t.out == s.out
    requires MovesUp(s.threads[0], t.threads[0]) && MovesUp(s.threads[1], t.threads[1])
    ensures Rising(t)
  {
  }

  lemma LineKeepsRising(s: State, w: nat, t: State)
    requires Shape(s) && Shape(t) && Rising(s) && w < 2
    requires s.threads[w].pc == Emit && s.threads[w].n >= 1 && t.out == s.out + [Line(w, s.threads[w].n)]
    requires t.threads[w] == s.threads[w].(pc := Post) && t.threads[1 - w] == s.threads[1 - w]
    ensures Rising(t)
  {
  }

  lemma StepKeepsRising(limit: int, s: State, w: nat)
    requires Taken(limit, s) && Rising(s) && Step(RustLang, limit, s, w).Some?
    ensures Shape(Step(RustLang, limit, s, w).value) && Rising(Step(RustLang, limit, s, w).value)
  {
    var t := Step(RustLang, limit, s, w).value;
    PeerEffect(limit, s, w);
    OwnEffect(limit, s, w);
    LineEffect(limit, s, w);
    if s.threads[w].pc == Emit {
      LineKeepsRising(s, w, t);
    } else {
      QuietKeepsRising(s, t);
    }
  }

  // ----- the two counts -----

  function Busy(pc: Pc): nat {
    if pc == Asleep || Holds(pc) then 1 else 0
  }

  /** Rounds a thread has completed up to its post. */
  ghost function Posts(s: State, w: nat): int
    requires Shape(s) && w < 2
  {
    By(s.out, w) - (if s.threads[w].pc == Post then 1 else 0)
  }

  /** Each count is what was posted less what was asked for. */
  ghost predicate Balance(s: State)
    requires Shape(s)
  {
    && s.sems[0] == 1 + Posts(s, 1) - Posts(s, 0) - Busy(s.threads[0].pc)
    && s.sems[1] == Posts(s, 0) - Posts(s, 1) - Busy(s.threads[1].pc)
  }

  lemma CountEffect(limit: int, s: State, w: nat)
    requires Step(RustLang, limit, s, w).Some? && s.threads[w].pc != Check
    ensures
      var (pc, t) := (s.threads[w].pc, Step(RustLang, limit, s, w).value);
      && Shape(s) && w < 2 && Shape(t)
      && t.sems[w] + Busy(t.threads[w].pc) == s.sems[w] + Busy(pc) - (if pc == Post then 1 else 0)
      && t.sems[1 - w] == s.sems[1 - w] + (if pc == Post then 1 else 0)
      && (t.threads[w].pc == Post ==> pc == Emit)
  {
  }

  lemma StepKeepsBalance(limit: int, s: State, w: nat)
    requires Taken(limit, s) && Balance(s) && Step(RustLang, limit, s, w).Some?
    ensures Shape(Step(RustLang, limit, s, w).value) && Balance(Step(RustLang, limit, s, w).value)
  {
    LineEffect(limit, s, w);
    PeerEffect(limit, s, w);
    CountEffect(limit, s, w);
    if s.threads[w].pc == Emit {
      OneMoreLine(s.out, Line(w, s.threads[w].n));
    }
  }

  // ----- whole runs -----

  ghost predicate Sound(limit: int, r: Loose) {
    Taken(limit, r.s) && Printed(r.s) && Rising(r.s) && Balance(r.s)
  }

  function LooseRank(limit: int, r: Loose): nat {
    Rank(limit, r.s)
  }

  lemma StrayKeepsSound(limit: int, r: Loose, w: nat)
    requires Sound(limit, r) && LooseStep(limit, r, Stray(w)).Some?
    ensures Sound(limit, LooseStep(limit, r, Stray(w)).value)
    ensures LooseRank(limit, LooseStep(limit, r, Stray(w)).value) + 1 <= LooseRank(limit, r)
  {
    QuietKeepsRising(r.s, LooseStep(limit, r, Stray(w)).value.s);
  }

  lemma LooseKeepsSound(limit: int, r: Loose, l: Label)
    requires Sound(limit, r) && LooseStep(limit, r, l).Some?
    ensures Sound(limit, LooseStep(limit, r, l).value)
    ensures LooseRank(limit, LooseStep(limit, r, l).value) + 1 <= LooseRank(limit, r)
  {
    match l {
      case Moves(w) =>
        StepKeepsTaken(limit, r.s, w);
        StepKeepsPrinted(limit, r.s, w);
        StepKeepsRising(limit, r.s, w);
        StepKeepsBalance(limit, r.s, w);
        StepDescends(limit, r.s, w);
      case Stray(w) => StrayKeepsSound(limit, r, w);
    }
  }

  ghost function SoundOf(limit: int): Loose -> bool {
    r => Sound(limit, r)
  }

  function LooseRankOf(limit: int): Loose -> nat {
    r => LooseRank(limit, r)
  }

  lemma LooseIsPaced(limit: int)
    ensures Paced(LooseMachine(limit), SoundOf(limit), LooseRankOf(limit), _ => 0, 0)
  {
    forall r, l | SoundOf(limit)(r) && LooseMachine(limit)(r, l).Some?
      ensures SoundOf(limit)(LooseMachine(limit)(r, l).value)
      ensures LooseRankOf(limit)(LooseMachine(limit)(r, l).value) + 1 <= LooseRankOf(limit)(r)
    {
      LooseKeepsSound(limit, r, l);
    }
  }

  lemma StartIsSound(limit: int)
    ensures SoundOf(limit)(Start()) && LooseRankOf(limit)(Start()) <= 20 * Last(limit) + 18
  {
  }

  /** Every schedule of the Rust program ends after at most 20 * Last(limit) + 18 steps, spurious
      wake-ups included. */
  lemma SchedulesAreBounded(limit: int, labels: seq<Label>, r: Loose)
    requires Reaches(limit, labels, r)
    ensures |labels| <= 20 * Last(limit) + 18
    ensures Sound(limit, r)
  {
    StartIsSound(limit);
    LooseIsPaced(limit);
    PaceBounds(LooseMachine(limit), SoundOf(limit), LooseRankOf(limit), _ => 0, 0, 20 * Last(limit) + 18, Start(), labels);
  }

  /** In every run, spurious wake-ups included, no number is printed twice and none beyond the last, and
      the numbers that a thread prints rise. */
  lemma NoNumberTwice(limit: int, labels: seq<Label>, r: Loose)
    requires Reaches(limit, labels, r)
    ensures forall x :: Occurs(r.s.out, x) <= (if 1 <= x <= Last(limit) then 1 else 0)
    ensures forall i, j :: 0 <= i < j < |r.s.out| && r.s.out[i].who == r.s.out[j].who ==> r.s.out[i].value < r.s.out[j].value
  {
    SchedulesAreBounded(limit, labels, r);
  }

  /** Each of 1, ..., k was printed exactly once, and nothing else. */
  ghost predicate PrintedOnce(out: seq<Line>, k: int) {
    forall x :: Occurs(out, x) == (if 1 <= x <= k then 1 else 0)
  }

  /** In every finished run, spurious wake-ups included, each number up to the limit was printed once. */
  lemma FinishedPrintsAll(limit: int, labels: seq<Label>, r: Loose)
    requires Reaches(limit, labels, r) && Finished(r.s)
    ensures PrintedOnce(r.s.out, Last(limit))
  {
    SchedulesAreBounded(limit, labels, r);
  }

  // ----- what a deadlock looks like -----

  lemma {:induction false} WithoutStrays(limit: int, r: Loose, labels: seq<Label>, t: Loose) returns (schedule: seq<nat>)
    requires Exec(LooseMachine(limit), r, labels) == Some(t)
    ensures r.strays <= t.strays
    ensures t.strays == r.strays ==> Exec(Machine(RustLang, limit), r.s, schedule) == Some(t.s)
    decreases |labels|
  {
    schedule := [];
    if labels != [] {
      var l := labels[0];
      schedule := WithoutStrays(limit, LooseStep(limit, r, l).value, labels[1..], t);
      if l.Moves? {
        schedule := [l.w] + schedule;
      }
    }
  }

  /** Not both threads have left, and only a spurious wake-up could move one. */
  ghost predicate Stuck(limit: int, r: Loose) {
    !Finished(r.s) && forall w :: Step(RustLang, limit, r.s, w).None?
  }

  /** Thread w sleeps and the other has left. */
  predicate Stranded(s: State, w: nat) {
    Shape(s) && w < 2 && s.threads[w].pc == Asleep && s.threads[1 - w].pc == Done
  }

  lemma WhoIsStuck(limit: int, labels: seq<Label>, r: Loose) returns (w: nat)
    requires Reaches(limit, labels, r) && Stuck(limit, r)
    ensures Stranded(r.s, w)
  {
    SchedulesAreBounded(limit, labels, r);
    SleepsOnDebt(0, limit, labels, r);
    SleepsOnDebt(1, limit, labels, r);
    assert Step(RustLang, limit, r.s, 0).None? && Step(RustLang, limit, r.s, 1).None?;
    w := if r.s.threads[0].pc == Asleep then 0 else 1;
  }

  lemma PrintsNothing(s: State, w: nat)
    requires Shape(s) && Rising(s) && w < 2 && s.threads[w].n < 1
    ensures By(s.out, w) == 0
  {
    assert w !in Authors(s.out);
  }

  lemma PrintsSomething(s: State, w: nat)
    requires Shape(s) && Printed(s) && Rising(s) && w < 2 && s.threads[1 - w].n < 1
    requires 1 <= s.threads[w].n < s.counter && s.threads[w].pc == Done && s.threads[1 - w].pc == Asleep
    ensures By(s.out, w) >= 1
  {
    assert Occurs(s.out, s.threads[w].n) == 1;
    var i :| 0 <= i < |s.out| && Values(s.out)[i] == s.threads[w].n;
    assert Authors(s.out)[i] == w;
  }

  /** With a limit of at most 2 each thread makes one round, and the token it waits for comes. */
  lemma ShortRunsEnd(limit: int, labels: seq<Label>, r: Loose, w: nat)
    requires Reaches(limit, labels, r) && Stranded(r.s, w)
    ensures limit >= 3
  {
    SchedulesAreBounded(limit, labels, r);
    if limit <= 2 {
      SleepsOnDebt(w, limit, labels, r);
      PrintsNothing(r.s, w);
      PrintsSomething(r.s, 1 - w);
      assert false;
    }
  }

  /** What a deadlock looks like, in every run: a wake-up was spurious, one thread sleeps, the other has
      left, and each number but the last was printed once. */
  lemma StuckIsOneShort(limit: int, labels: seq<Label>, r: Loose) returns (w: nat)
    requires Reaches(limit, labels, r) && Stuck(limit, r)
    ensures Stranded(r.s, w)
    ensures r.strays > 0 && limit >= 3
    ensures PrintedOnce(r.s.out, limit - 1)
  {
    w := WhoIsStuck(limit, labels, r);
    ShortRunsEnd(limit, labels, r, w);
    SchedulesAreBounded(limit, labels, r);
    var schedule := WithoutStrays(limit, Start(), labels, r);
    if r.strays == 0 {
      var u := NeverStuck(RustLang, limit, schedule, r.s);
      assert false;
    }
  }
}

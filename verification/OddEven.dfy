/** Two threads that take turns printing 1, 2, 3, ... by handing a token back and forth:
    c/c_lab05_a.c, rust/r_lab05_a.rs (over the hand-written semaphore) and Binary::Semaphore in
    cpp/include/buffer.hh. They differ in where the value that ends a loop comes from: C tests the
    counter before handing over, Rust its own number afterwards, C++ the shared counter afterwards. No
    wake-up is spurious here; `OddEvenRust` adds those. */
module OddEven {
  import opened Transitions
  import Sem = Semaphore

  datatype Variant = CLang | RustLang | CppLang

  datatype Pc =
    | Wait
    | Asleep      // Rust: sleeping on the condition variable
    | Notified    // Rust: woken, about to leave wait
    | Bump        // take the counter's value and bump it
    | Emit        // print the value taken
    | Check       // C: note whether the counter has reached the limit
    | Post
    | Loop        // leave the loop or go round
    | Done

  datatype Thread = Thread(pc: Pc, n: int, end: bool)

  datatype Line = Line(who: nat, value: int)

  /** Thread and semaphore 0 are the odd ones. */
  datatype State = State(counter: int, sems: seq<int>, threads: seq<Thread>, out: seq<Line>)

  /** The local numbers start at what each thread would have printed one round earlier. */
  function Init(): State {
    State(1, [1, 0], [Thread(Wait, -1, false), Thread(Wait, 0, false)], [])
  }

  predicate Leaves(v: Variant, limit: int, s: State, th: Thread) {
    match v
    case CLang => th.end
    case RustLang => th.n >= limit - 1
    case CppLang => !(s.counter < limit)
  }

  function SetPc(s: State, w: nat, pc: Pc): State
    requires w < |s.threads|
  {
    s.(threads := s.threads[w := s.threads[w].(pc := pc)])
  }

  function WaitStep(v: Variant, s: State, w: nat): Option<State>
    requires w < |s.threads| && w < |s.sems|
  {
    var t := s.(sems := s.sems[w := s.sems[w] - 1]);
    if v == RustLang then Some(SetPc(t, w, if Sem.Blocks(s.sems[w]) then Asleep else Bump))
    else if s.sems[w] > 0 then Some(SetPc(t, w, Bump))
    else None
  }

  function PostStep(v: Variant, s: State, w: nat): Option<State>
    requires w < 2 && |s.threads| == 2 && |s.sems| == 2
  {
    var o := 1 - w;
    var t := SetPc(s.(sems := s.sems[o := s.sems[o] + 1]), w, Loop);
    if v == RustLang && Sem.Notifies(s.sems[o]) && s.threads[o].pc == Asleep
    then Some(SetPc(t, o, Notified))
    else Some(t)
  }

  function Step(v: Variant, limit: int, s: State, w: nat): Option<State> {
    if !(w < 2 && |s.threads| == 2 && |s.sems| == 2) then None
    else
      var th := s.threads[w];
      match th.pc
      case Wait => WaitStep(v, s, w)
      case Asleep => None
      case Notified => Some(SetPc(s, w, Bump))
      case Bump => Some(s.(counter := s.counter + 1, threads := s.threads[w := Thread(Emit, s.counter, th.end)]))
      case Emit => Some(SetPc(s.(out := s.out + [Line(w, th.n)]), w, if v == CLang then Check else Post))
      case Check => Some(s.(threads := s.threads[w := Thread(Post, th.n, th.end || s.counter >= limit)]))
      case Post => PostStep(v, s, w)
      case Loop => Some(SetPc(s, w, if Leaves(v, limit, s, th) then Done else Wait))
      case Done => None
  }

  function Machine(v: Variant, limit: int): (State, nat) -> Option<State> {
    (s: State, w: nat) => Step(v, limit, s, w)
  }

  // ----- invariant -----

  predicate Holds(pc: Pc) {
    pc == Notified || pc == Bump || pc == Emit || pc == Check || pc == Post
  }

  /** Has printed or is about to print the current number, token still in hand. */
  predicate Spent(pc: Pc) {
    pc == Emit || pc == Check || pc == Post
  }

  predicate Shape(s: State) {
    |s.threads| == 2 && |s.sems| == 2
  }

  /** Whose side the one token is on. */
  function Turn(s: State): nat
    requires Shape(s)
  {
    if Holds(s.threads[0].pc) || s.sems[0] > 0 then 0 else 1
  }

  function Last(limit: int): int {
    if limit > 2 then limit else 2
  }

  predicate Token(v: Variant, s: State)
    requires Shape(s)
  {
    var t := Turn(s);
    var mine, other := s.threads[t].pc, s.threads[1 - t].pc;
    && (Holds(mine) ==> s.sems[t] == 0)
    && (!Holds(mine) ==> s.sems[t] == 1 && mine != Asleep)
    && !Holds(other)
    && s.sems[1 - t] == (if other == Asleep then -1 else 0)
    && (v != RustLang ==> mine != Notified && other != Asleep)
    && (v != CLang ==> mine != Check)
  }

  /** The two local numbers straddle the counter. */
  predicate Numbers(limit: int, s: State)
    requires Shape(s)
  {
    var t := Turn(s);
    var mine, other := s.threads[t], s.threads[1 - t];
    && 1 <= s.counter <= Last(limit) + 1
    && (if Spent(mine.pc)
        then mine.n == s.counter - 1 && other.n == s.counter - 2 && s.counter % 2 == t && s.counter >= 2
        else mine.n == s.counter - 2 && other.n == s.counter - 1 && s.counter % 2 == 1 - t)
  }

  predicate Output(s: State)
    requires Shape(s)
  {
    && |s.out| == s.counter - 1 - (if s.threads[Turn(s)].pc == Emit then 1 else 0)
    && forall i :: 0 <= i < |s.out| ==> s.out[i] == Line(i % 2, i + 1)
  }

  predicate Waiting(pc: Pc) {
    pc == Wait || pc == Asleep || pc == Notified || pc == Bump
  }

  /** When a thread goes round and when it leaves. */
  predicate Exits(v: Variant, limit: int, th: Thread) {
    && (Waiting(th.pc) ==> th.n <= 0 || th.n < limit - 1)
    && (th.pc == Done ==> th.n >= 1 && th.n >= limit - (if v == CppLang then 2 else 1))
    && (v == CLang ==> (Waiting(th.pc) || th.pc == Emit || th.pc == Check ==> !th.end))
    && (v == CLang && (th.pc == Post || th.pc == Loop) ==> (th.end <==> th.n >= limit - 1))
    && (th.pc == Loop ==> th.n >= 1)
  }

  predicate Inv(v: Variant, limit: int, s: State) {
    && Shape(s)
    && Token(v, s)
    && Numbers(limit, s)
    && Output(s)
    && Exits(v, limit, s.threads[0]) && Exits(v, limit, s.threads[1])
  }

  // ----- each step keeps the invariant and uses up some of a finite budget -----

  function PcRank(pc: Pc): nat {
    match pc
    case Emit => 8
    case Check => 7
    case Post => 6
    case Loop => 5
    case Wait => 4
    case Asleep => 3
    case Notified => 2
    case Bump => 1
    case Done => 0
  }

  function ThreadRank(limit: int, th: Thread): nat {
    PcRank(th.pc) + (if th.n <= Last(limit) then 10 * (Last(limit) - th.n) else 0)
  }

  function Rank(limit: int, s: State): nat {
    if Shape(s) then ThreadRank(limit, s.threads[0]) + ThreadRank(limit, s.threads[1]) else 0
  }

  predicate Same(th: Thread, other: Thread) {
    th.n == other.n && th.end == other.end
  }

  lemma TakingKeepsInv(v: Variant, limit: int, s: State, w: nat)
    requires Inv(v, limit, s) && w < 2 && Step(v, limit, s, w).Some?
    requires s.threads[w].pc == Notified || (s.threads[w].pc == Wait && s.sems[w] > 0)
    ensures Inv(v, limit, Step(v, limit, s, w).value)
  {
    var s' := Step(v, limit, s, w).value;
    assert w == Turn(s) && Turn(s') == w;
    assert s'.out == s.out && s'.counter == s.counter;
    assert s'.threads[1 - w] == s.threads[1 - w] && Same(s'.threads[w], s.threads[w]);
  }

  lemma SleepingKeepsInv(v: Variant, limit: int, s: State, w: nat)
    requires Inv(v, limit, s) && w < 2 && Step(v, limit, s, w).Some?
    requires s.threads[w].pc == Wait && s.sems[w] <= 0
    ensures Inv(v, limit, Step(v, limit, s, w).value)
  {
    var s' := Step(v, limit, s, w).value;
    assert w == 1 - Turn(s) && Turn(s') == Turn(s) && s'.threads[w].pc == Asleep;
    assert s'.out == s.out && s'.counter == s.counter;
    assert s'.threads[1 - w] == s.threads[1 - w] && Same(s'.threads[w], s.threads[w]);
  }

  lemma EnteringKeepsInv(v: Variant, limit: int, s: State, w: nat)
    requires Inv(v, limit, s) && w < 2 && (s.threads[w].pc == Wait || s.threads[w].pc == Notified) && Step(v, limit, s, w).Some?
    ensures Inv(v, limit, Step(v, limit, s, w).value)
  {
    if s.threads[w].pc == Wait && s.sems[w] <= 0 {
      SleepingKeepsInv(v, limit, s, w);
    } else {
      TakingKeepsInv(v, limit, s, w);
    }
  }

  lemma EnteringDescends(v: Variant, limit: int, s: State, w: nat)
    requires Inv(v, limit, s) && w < 2 && (s.threads[w].pc == Wait || s.threads[w].pc == Notified) && Step(v, limit, s, w).Some?
    ensures Rank(limit, Step(v, limit, s, w).value) + 1 <= Rank(limit, s)
  {
  }

  lemma BumpingKeepsInv(v: Variant, limit: int, s: State, w: nat)
    requires Inv(v, limit, s) && w < 2 && s.threads[w].pc == Bump && Step(v, limit, s, w).Some?
    ensures Inv(v, limit, Step(v, limit, s, w).value)
  {
    var s' := Step(v, limit, s, w).value;
    assert w == Turn(s) && Turn(s') == w;
    assert s'.out == s.out && s'.counter == s.counter + 1;
  }

  lemma BumpingDescends(v: Variant, limit: int, s: State, w: nat)
    requires Inv(v, limit, s) && w < 2 && s.threads[w].pc == Bump && Step(v, limit, s, w).Some?
    ensures Rank(limit, Step(v, limit, s, w).value) + 1 <= Rank(limit, s)
  {
  }

  lemma EmittingKeepsInv(v: Variant, limit: int, s: State, w: nat)
    requires Inv(v, limit, s) && w < 2 && s.threads[w].pc == Emit && Step(v, limit, s, w).Some?
    ensures Inv(v, limit, Step(v, limit, s, w).value)
  {
    var s' := Step(v, limit, s, w).value;
    assert w == Turn(s) && Turn(s') == w;
    assert s'.counter == s.counter && |s.out| == s.counter - 2;
    assert s'.out == s.out + [Line(|s.out| % 2, |s.out| + 1)];
  }

  lemma EmittingDescends(v: Variant, limit: int, s: State, w: nat)
    requires Inv(v, limit, s) && w < 2 && s.threads[w].pc == Emit && Step(v, limit, s, w).Some?
    ensures Rank(limit, Step(v, limit, s, w).value) + 1 <= Rank(limit, s)
  {
  }

  lemma CheckingKeepsInv(v: Variant, limit: int, s: State, w: nat)
    requires Inv(v, limit, s) && w < 2 && s.threads[w].pc == Check && Step(v, limit, s, w).Some?
    ensures Inv(v, limit, Step(v, limit, s, w).value)
  {
    var s' := Step(v, limit, s, w).value;
    assert w == Turn(s) && Turn(s') == w;
    assert s'.out == s.out && s'.counter == s.counter;
  }

  lemma CheckingDescends(v: Variant, limit: int, s: State, w: nat)
    requires Inv(v, limit, s) && w < 2 && s.threads[w].pc == Check && Step(v, limit, s, w).Some?
    ensures Rank(limit, Step(v, limit, s, w).value) + 1 <= Rank(limit, s)
  {
  }

  lemma PostingKeepsInv(v: Variant, limit: int, s: State, w: nat)
    requires Inv(v, limit, s) && w < 2 && s.threads[w].pc == Post && Step(v, limit, s, w).Some?
    ensures Inv(v, limit, Step(v, limit, s, w).value)
  {
    var s' := Step(v, limit, s, w).value;
    var o := 1 - w;
    assert w == Turn(s) && Turn(s') == o;
    assert s'.out == s.out && s'.counter == s.counter;
    assert s'.threads[w] == s.threads[w].(pc := Loop) && s'.threads[o].n == s.threads[o].n;
  }

  lemma PostingDescends(v: Variant, limit: int, s: State, w: nat)
    requires Inv(v, limit, s) && w < 2 && s.threads[w].pc == Post && Step(v, limit, s, w).Some?
    ensures Rank(limit, Step(v, limit, s, w).value) + 1 <= Rank(limit, s)
  {
  }

  lemma LoopingKeepsExits(v: Variant, limit: int, s: State, w: nat)
    requires Inv(v, limit, s) && w < 2 && s.threads[w].pc == Loop
    ensures Exits(v, limit, s.threads[w].(pc := if Leaves(v, limit, s, s.threads[w]) then Done else Wait))
  {
  }

  lemma LoopingKeepsToken(v: Variant, limit: int, s: State, w: nat)
    requires Inv(v, limit, s) && w < 2 && s.threads[w].pc == Loop && Step(v, limit, s, w).Some?
    ensures
      var s' := Step(v, limit, s, w).value;
      && Shape(s') && Turn(s') == Turn(s) && Token(v, s')
      && !Spent(s'.threads[w].pc) && s'.threads[w].pc != Emit
  {
  }

  lemma LoopingKeepsInv(v: Variant, limit: int, s: State, w: nat)
    requires Inv(v, limit, s) && w < 2 && s.threads[w].pc == Loop && Step(v, limit, s, w).Some?
    ensures Inv(v, limit, Step(v, limit, s, w).value)
  {
    var s' := Step(v, limit, s, w).value;
    LoopingKeepsExits(v, limit, s, w);
    LoopingKeepsToken(v, limit, s, w);
    assert s'.out == s.out && s'.counter == s.counter;
    assert s'.threads[1 - w] == s.threads[1 - w] && Same(s'.threads[w], s.threads[w]);
  }

  lemma LoopingDescends(v: Variant, limit: int, s: State, w: nat)
    requires Inv(v, limit, s) && w < 2 && s.threads[w].pc == Loop && Step(v, limit, s, w).Some?
    ensures Rank(limit, Step(v, limit, s, w).value) + 1 <= Rank(limit, s)
  {
  }

  lemma StepKeepsInv(v: Variant, limit: int, s: State, w: nat)
    requires Inv(v, limit, s) && Step(v, limit, s, w).Some?
    ensures Inv(v, limit, Step(v, limit, s, w).value)
    ensures Rank(limit, Step(v, limit, s, w).value) + 1 <= Rank(limit, s)
  {
    match s.threads[w].pc {
      case Wait => EnteringKeepsInv(v, limit, s, w); EnteringDescends(v, limit, s, w);
      case Notified => EnteringKeepsInv(v, limit, s, w); EnteringDescends(v, limit, s, w);
      case Bump => BumpingKeepsInv(v, limit, s, w); BumpingDescends(v, limit, s, w);
      case Emit => EmittingKeepsInv(v, limit, s, w); EmittingDescends(v, limit, s, w);
      case Check => CheckingKeepsInv(v, limit, s, w); CheckingDescends(v, limit, s, w);
      case Post => PostingKeepsInv(v, limit, s, w); PostingDescends(v, limit, s, w);
      case Loop => LoopingKeepsInv(v, limit, s, w); LoopingDescends(v, limit, s, w);
    }
  }

  ghost predicate Reachable(v: Variant, limit: int, schedule: seq<nat>, s: State) {
    Exec(Machine(v, limit), Init(), schedule) == Some(s)
  }

  lemma ReachableInv(v: Variant, limit: int, schedule: seq<nat>, s: State)
    requires Reachable(v, limit, schedule, s)
    ensures Inv(v, limit, s)
  {
    forall s, w | Inv(v, limit, s) && Machine(v, limit)(s, w).Some?
      ensures Inv(v, limit, Machine(v, limit)(s, w).value)
    {
      StepKeepsInv(v, limit, s, w);
    }
    Invariance(Machine(v, limit), s => Inv(v, limit, s), Init(), schedule);
  }

  predicate Finished(s: State) {
    Shape(s) && s.threads[0].pc == Done && s.threads[1].pc == Done
  }

  lemma CanMove(v: Variant, limit: int, s: State) returns (w: nat)
    requires Inv(v, limit, s) && !Finished(s)
    ensures Step(v, limit, s, w).Some?
  {
    var t := Turn(s);
    w := if s.threads[t].pc == Done then 1 - t else t;
  }

  /** Every schedule ends after at most 20 * Last(limit) + 18 steps. */
  lemma SchedulesAreBounded(v: Variant, limit: int, schedule: seq<nat>, s: State)
    requires Reachable(v, limit, schedule, s)
    ensures |schedule| <= 20 * Last(limit) + 18
  {
    forall s, w | Inv(v, limit, s) && Machine(v, limit)(s, w).Some?
      ensures Inv(v, limit, Machine(v, limit)(s, w).value)
      ensures Rank(limit, Machine(v, limit)(s, w).value) + 1 <= Rank(limit, s)
    {
      StepKeepsInv(v, limit, s, w);
    }
    PaceBounds(Machine(v, limit), s => Inv(v, limit, s), s => Rank(limit, s), _ => 0, 0, 20 * Last(limit) + 18, Init(), schedule);
  }

  /** Until both threads have left, some thread can move. */
  lemma NeverStuck(v: Variant, limit: int, schedule: seq<nat>, s: State) returns (w: nat)
    requires Reachable(v, limit, schedule, s) && !Finished(s)
    ensures Step(v, limit, s, w).Some?
  {
    ReachableInv(v, limit, schedule, s);
    w := CanMove(v, limit, s);
  }

  /** Each thread can move until it has left, unless it sleeps or, in C and C++, waits on a semaphore at 0. */
  lemma WhenThreadMoves(v: Variant, limit: int, schedule: seq<nat>, s: State, w: nat)
    requires Reachable(v, limit, schedule, s)
    ensures Shape(s)
    ensures Step(v, limit, s, w).Some? <==>
      && w < 2 && s.threads[w].pc != Done && s.threads[w].pc != Asleep
      && (v != RustLang && s.threads[w].pc == Wait ==> s.sems[w] > 0)
  {
    ReachableInv(v, limit, schedule, s);
  }

  /** At any moment the lines printed are 1, 2, ..., k, the odd ones by thread 0 and the even ones
      by thread 1, and no number above the last is ever printed. */
  lemma PrintsInOrder(v: Variant, limit: int, schedule: seq<nat>, s: State)
    requires Reachable(v, limit, schedule, s)
    ensures |s.out| <= Last(limit)
    ensures forall i :: 0 <= i < |s.out| ==> s.out[i].value == i + 1 && s.out[i].who == (if (i + 1) % 2 == 1 then 0 else 1)
  {
    ReachableInv(v, limit, schedule, s);
  }

  /** C and Rust: a finished run has printed exactly 1..limit (1..2 for limits below 2). */
  lemma PrintsUpToLimit(v: Variant, limit: int, schedule: seq<nat>, s: State)
    requires v != CppLang && Reachable(v, limit, schedule, s) && Finished(s)
    ensures |s.out| == Last(limit)
  {
    ReachableInv(v, limit, schedule, s);
  }

  /** C++: a finished run may stop one short. */
  lemma PrintsUpToLimitOrOneLess(limit: int, schedule: seq<nat>, s: State)
    requires Reachable(CppLang, limit, schedule, s) && Finished(s)
    ensures limit <= 2 ==> |s.out| == 2
    ensures limit > 2 ==> |s.out| == limit || |s.out| == limit - 1
  {
    ReachableInv(CppLang, limit, schedule, s);
  }
}

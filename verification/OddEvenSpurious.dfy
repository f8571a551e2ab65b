/** What one spurious wake-up can do to the Rust odd/even program: leave a thread asleep for ever, and let the
    wrong thread print a number; with the exact conditions under which neither happens. */
module OddEvenSpurious {
  import opened Transitions
  import opened OddEven
  import opened OddEvenLaps
  import opened OddEvenRust

  // ----- deadlock -----

  lemma {:induction false} Lift(limit: int, s: State, schedule: seq<nat>, t: State) returns (labels: seq<Label>)
    requires Exec(Machine(RustLang, limit), s, schedule) == Some(t)
    ensures Exec(LooseMachine(limit), Loose(s, 0), labels) == Some(Loose(t, 0))
    decreases |schedule|
  {
    labels := [];
    if schedule != [] {
      labels := Lift(limit, Step(RustLang, limit, s, schedule[0]).value, schedule[1..], t);
      labels := [Moves(schedule[0])] + labels;
    }
  }

  lemma Extend(limit: int, labels: seq<Label>, r: Loose, l: Label) returns (longer: seq<Label>, t: Loose)
    requires Reaches(limit, labels, r) && LooseStep(limit, r, l).Some?
    ensures Reaches(limit, longer, t) && Some(t) == LooseStep(limit, r, l)
  {
    longer, t := labels + [l], LooseStep(limit, r, l).value;
    ExecSnoc(LooseMachine(limit), Start(), labels, l);
  }

  /** wait on a negative count. */
  lemma FallAsleep(limit: int, labels: seq<Label>, r: Loose, w: nat) returns (longer: seq<Label>, t: Loose)
    requires Reaches(limit, labels, r) && Shape(r.s) && w < 2 && r.s.threads[w].pc == Wait && r.s.sems[w] <= 0
    ensures Reaches(limit, longer, t)
    ensures t == Loose(SetPc(r.s.(sems := r.s.sems[w := r.s.sems[w] - 1]), w, Asleep), r.strays)
  {
    longer, t := Extend(limit, labels, r, Moves(w));
  }

  /** A sleeper is woken spuriously and takes a number. */
  lemma TakeEarly(limit: int, labels: seq<Label>, r: Loose, w: nat) returns (longer: seq<Label>, t: Loose)
    requires Reaches(limit, labels, r) && Shape(r.s) && w < 2 && r.s.threads[w].pc == Asleep
    ensures Reaches(limit, longer, t)
    ensures t == Loose(r.s.(counter := r.s.counter + 1,
                            threads := r.s.threads[w := Thread(Emit, r.s.counter, r.s.threads[w].end)]), r.strays + 1)
  {
    longer, t := Extend(limit, labels, r, Stray(w));
    longer, t := Extend(limit, longer, t, Moves(w));
    longer, t := Extend(limit, longer, t, Moves(w));
  }

  /** A thread whose count is positive takes a number. */
  lemma TakeNumber(limit: int, labels: seq<Label>, r: Loose, w: nat) returns (longer: seq<Label>, t: Loose)
    requires Reaches(limit, labels, r) && Shape(r.s) && w < 2 && r.s.threads[w].pc == Wait && r.s.sems[w] > 0
    ensures Reaches(limit, longer, t)
    ensures t == Loose(State(r.s.counter + 1, r.s.sems[w := r.s.sems[w] - 1],
                             r.s.threads[w := Thread(Emit, r.s.counter, r.s.threads[w].end)], r.s.out), r.strays)
  {
    longer, t := Extend(limit, labels, r, Moves(w));
    longer, t := Extend(limit, longer, t, Moves(w));
  }

  lemma Print(limit: int, labels: seq<Label>, r: Loose, w: nat) returns (longer: seq<Label>, t: Loose)
    requires Reaches(limit, labels, r) && Shape(r.s) && w < 2 && r.s.threads[w].pc == Emit
    ensures Reaches(limit, longer, t)
    ensures t == Loose(SetPc(r.s.(out := r.s.out + [Line(w, r.s.threads[w].n)]), w, Post), r.strays)
  {
    longer, t := Extend(limit, labels, r, Moves(w));
  }

  /** A post that finds nobody asleep, and the test of the loop. */
  lemma PostAndTest(limit: int, labels: seq<Label>, r: Loose, w: nat) returns (longer: seq<Label>, t: Loose)
    requires Reaches(limit, labels, r) && Shape(r.s) && w < 2
    requires r.s.threads[w].pc == Post && r.s.threads[1 - w].pc != Asleep
    ensures Reaches(limit, longer, t)
    ensures t == Loose(SetPc(r.s.(sems := r.s.sems[1 - w := r.s.sems[1 - w] + 1]), w,
                             if r.s.threads[w].n >= limit - 1 then Done else Wait), r.strays)
  {
    longer, t := Extend(limit, labels, r, Moves(w));
    longer, t := Extend(limit, longer, t, Moves(w));
  }

  /** The token holder takes limit - 1, posts while nobody sleeps, and leaves. */
  lemma HolderLeaves(limit: int, labels: seq<Label>, r: Loose, w: nat) returns (longer: seq<Label>, t: Loose)
    requires Reaches(limit, labels, r) && Shape(r.s) && w < 2 && r.s.counter == limit - 1
    requires r.s.sems[w] == 1 && r.s.threads[w].pc == Wait && r.s.threads[1 - w].pc == Emit
    ensures Reaches(limit, longer, t) && t.strays == r.strays && Shape(t.s) && t.s.threads[w].pc == Done
    ensures t.s.threads[1 - w] == r.s.threads[1 - w] && t.s.sems[1 - w] == r.s.sems[1 - w] + 1
  {
    longer, t := TakeNumber(limit, labels, r, w);
    longer, t := Print(limit, longer, t, w);
    longer, t := PostAndTest(limit, longer, t, w);
  }

  /** One spurious wake-up strands a thread: on the turn of limit - 2 the other thread is woken early and
      takes that number itself; the token holder takes limit - 1, posts while nobody sleeps, and leaves; the
      first prints, posts, waits again and sleeps for ever. */
  lemma OneStrayStrands(limit: int) returns (labels: seq<Label>, r: Loose)
    requires limit >= 3
    ensures Reaches(limit, labels, r) && r.strays == 1 && Stuck(limit, r)
  {
    var c: nat := limit - 2;
    var holder := 1 - c % 2;
    var early := 1 - holder;
    var schedule := Laps(RustLang, limit, c);
    labels := Lift(limit, Init(), schedule, Ready(c));
    labels, r := FallAsleep(limit, labels, Loose(Ready(c), 0), early);
    labels, r := TakeEarly(limit, labels, r, early);
    labels, r := HolderLeaves(limit, labels, r, holder);
    labels, r := Print(limit, labels, r, early);
    labels, r := PostAndTest(limit, labels, r, early);
    labels, r := FallAsleep(limit, labels, r, early);
  }

  /** No run with at most k spurious wake-ups deadlocks. */
  ghost predicate NeverDeadlocks(limit: int, k: nat) {
    forall labels :: Exec(LooseMachine(limit), Start(), labels).Some? ==>
      var r := Exec(LooseMachine(limit), Start(), labels).value;
      r.strays <= k ==> !Stuck(limit, r)
  }

  /** Which is so exactly without spurious wake-ups, or with a limit of at most 2. */
  lemma WhenNeverDeadlocks(limit: int, k: nat)
    ensures NeverDeadlocks(limit, k) <==> k == 0 || limit <= 2
  {
    if k > 0 && limit > 2 {
      var labels, r := OneStrayStrands(limit);
      assert Exec(LooseMachine(limit), Start(), labels).Some?;
    } else {
      forall labels | Exec(LooseMachine(limit), Start(), labels).Some?
        ensures
          var r := Exec(LooseMachine(limit), Start(), labels).value;
          r.strays <= k ==> !Stuck(limit, r)
      {
        var r := Exec(LooseMachine(limit), Start(), labels).value;
        if Stuck(limit, r) {
          var w := StuckIsOneShort(limit, labels, r);
        }
      }
    }
  }

  // ----- the order of the lines -----

  /** The lines printed so far are 1, 2, ..., k, odd ones by thread 0 and even ones by thread 1. */
  predicate InOrder(out: seq<Line>) {
    forall i :: 0 <= i < |out| ==> out[i].value == i + 1 && out[i].who == (if (i + 1) % 2 == 1 then 0 else 1)
  }

  /** In every run with at most k spurious wake-ups. */
  ghost predicate AlwaysInOrder(limit: int, k: nat) {
    forall labels :: Exec(LooseMachine(limit), Start(), labels).Some? ==>
      var r := Exec(LooseMachine(limit), Start(), labels).value;
      r.strays <= k ==> InOrder(r.s.out)
  }

  /** The even thread, woken before its turn, prints 1. */
  lemma EvenPrintsOne(limit: int) returns (labels: seq<Label>, r: Loose)
    ensures Exec(LooseMachine(limit), Start(), labels) == Some(r) && r.strays == 1 && r.s.out == [Line(1, 1)]
  {
    labels, r := FallAsleep(limit, [], Start(), 1);
    labels, r := TakeEarly(limit, labels, r, 1);
    labels, r := Print(limit, labels, r, 1);
  }

  lemma WhenAlwaysInOrder(limit: int, k: nat)
    ensures AlwaysInOrder(limit, k) <==> k == 0
  {
    if k > 0 {
      var labels, r := EvenPrintsOne(limit);
      assert Exec(LooseMachine(limit), Start(), labels).Some?;
      assert r.s.out[0].who == 1;
    } else {
      forall labels | Exec(LooseMachine(limit), Start(), labels).Some?
        ensures
          var r := Exec(LooseMachine(limit), Start(), labels).value;
          r.strays <= k ==> InOrder(r.s.out)
      {
        var r := Exec(LooseMachine(limit), Start(), labels).value;
        var schedule := WithoutStrays(limit, Start(), labels, r);
        if r.strays == 0 {
          PrintsInOrder(RustLang, limit, schedule, r.s);
        }
      }
    }
  }
}

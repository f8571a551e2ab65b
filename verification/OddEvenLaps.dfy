/** Rounds of the odd/even programs that test after handing the token over, Rust and C++, in which the
    two threads never wait for each other. */
module OddEvenLaps {
  import opened Transitions
  import opened OddEven

  function Lines(k: nat): seq<Line> {
    seq(k, i requires 0 <= i => Line(i % 2, i + 1))
  }

  /** Both threads wait, the token lies with the one that is to print c. */
  function Ready(c: nat): State
    requires c >= 1
  {
    var mine, other := Thread(Wait, c - 2, false), Thread(Wait, c - 1, false);
    if c % 2 == 1 then State(c, [1, 0], [mine, other], Lines(c - 1))
    else State(c, [0, 1], [other, mine], Lines(c - 1))
  }

  lemma Move(v: Variant, limit: int, schedule: seq<nat>, s: State, w: nat) returns (longer: seq<nat>, t: State)
    requires Reachable(v, limit, schedule, s) && Step(v, limit, s, w).Some?
    ensures Reachable(v, limit, longer, t) && Some(t) == Step(v, limit, s, w)
  {
    longer := schedule + [w];
    t := Step(v, limit, s, w).value;
    ExecSnoc(Machine(v, limit), Init(), schedule, w);
  }

  lemma TakeNumber(v: Variant, limit: int, schedule: seq<nat>, s: State, w: nat) returns (longer: seq<nat>, t: State)
    requires Reachable(v, limit, schedule, s) && Shape(s) && w < 2 && s.sems[w] == 1 && s.threads[w].pc == Wait
    ensures Reachable(v, limit, longer, t)
    ensures t == s.(counter := s.counter + 1, sems := s.sems[w := 0],
                    threads := s.threads[w := Thread(Emit, s.counter, s.threads[w].end)])
  {
    longer, t := Move(v, limit, schedule, s, w);
    longer, t := Move(v, limit, longer, t, w);
  }

  /** Wait, bump, print, post: the thread whose turn it is hands the token over. */
  lemma HandOver(v: Variant, limit: int, schedule: seq<nat>, s: State, w: nat) returns (longer: seq<nat>, t: State)
    requires v != CLang && Reachable(v, limit, schedule, s) && Shape(s)
    requires w < 2 && s.threads[1 - w].pc != Asleep && s.sems[w] == 1 && s.threads[w].pc == Wait
    ensures Reachable(v, limit, longer, t)
    ensures t == State(s.counter + 1, s.sems[w := 0][1 - w := s.sems[1 - w] + 1],
                       s.threads[w := Thread(Loop, s.counter, s.threads[w].end)], s.out + [Line(w, s.counter)])
  {
    longer, t := TakeNumber(v, limit, schedule, s, w);
    longer, t := Move(v, limit, longer, t, w);
    longer, t := Move(v, limit, longer, t, w);
  }

  lemma ReadyNext(c: nat, w: nat, t: State)
    requires c >= 1 && w == 1 - c % 2
    requires t == State(c + 1, Ready(c).sems[w := 0][1 - w := Ready(c).sems[1 - w] + 1],
                        Ready(c).threads[w := Thread(Wait, c, false)], Ready(c).out + [Line(w, c)])
    ensures t == Ready(c + 1)
  {
    assert Lines(c - 1) + [Line(w, c)] == Lines(c);
    assert t.sems == Ready(c + 1).sems;
    assert t.threads == Ready(c + 1).threads;
  }

  lemma Lap(v: Variant, limit: int, schedule: seq<nat>, c: nat) returns (longer: seq<nat>)
    requires v != CLang && 1 <= c && c + 1 < limit && Reachable(v, limit, schedule, Ready(c))
    ensures Reachable(v, limit, longer, Ready(c + 1))
  {
    var w := 1 - c % 2;
    var t;
    longer, t := HandOver(v, limit, schedule, Ready(c), w);
    longer, t := Move(v, limit, longer, t, w);
    assert t.threads == Ready(c).threads[w := Thread(Wait, c, false)];
    ReadyNext(c, w, t);
  }

  lemma {:induction false} Laps(v: Variant, limit: int, c: nat) returns (schedule: seq<nat>)
    requires v != CLang && 1 <= c < limit
    ensures Reachable(v, limit, schedule, Ready(c))
  {
    if c == 1 {
      schedule := [];
      assert Ready(1) == Init();
    } else {
      schedule := Laps(v, limit, c - 1);
      schedule := Lap(v, limit, schedule, c - 1);
    }
  }
}

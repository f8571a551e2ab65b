/** Labelled transition systems: deterministic steps chosen by a label (who moves, and every
    choice the environment makes), runs as label sequences, and the three arguments every
    protocol of this project uses: invariance, forward simulation and step counting. */
module Transitions {

  datatype Option<+T> = None | Some(value: T)

  /** The state a run ends in, or None when some label was not enabled. */
  function Exec<S, L>(step: (S, L) -> Option<S>, s: S, labels: seq<L>): Option<S>
    decreases |labels|
  {
    if labels == [] then Some(s)
    else
      match step(s, labels[0])
      case None => None
      case Some(t) => Exec(step, t, labels[1..])
  }

  lemma {:induction false} ExecAppend<S, L>(step: (S, L) -> Option<S>, s: S, first: seq<L>, second: seq<L>)
    ensures Exec(step, s, first + second) ==
            (match Exec(step, s, first) case None => None case Some(t) => Exec(step, t, second))
    decreases |first|
  {
    if first == [] {
      assert first + second == second;
    } else {
      assert (first + second)[1..] == first[1..] + second;
      match step(s, first[0]) {
        case None =>
        case Some(t) => ExecAppend(step, t, first[1..], second);
      }
    }
  }

  lemma ExecSnoc<S, L>(step: (S, L) -> Option<S>, s: S, labels: seq<L>, l: L)
    requires Exec(step, s, labels).Some?
    ensures Exec(step, s, labels + [l]) == step(Exec(step, s, labels).value, l)
  {
    ExecAppend(step, s, labels, [l]);
    assert [l][1..] == [];
  }

  ghost predicate Preserved<S(!new), L(!new)>(step: (S, L) -> Option<S>, inv: S -> bool) {
    forall s, l :: inv(s) && step(s, l).Some? ==> inv(step(s, l).value)
  }

  /** What every step keeps, every run keeps. */
  lemma {:induction false} Invariance<S(!new), L(!new)>(step: (S, L) -> Option<S>, inv: S -> bool, s: S, labels: seq<L>)
    requires inv(s) && Preserved(step, inv)
    requires Exec(step, s, labels).Some?
    ensures inv(Exec(step, s, labels).value)
    decreases |labels|
  {
    if labels != [] {
      Invariance(step, inv, step(s, labels[0]).value, labels[1..]);
    }
  }

  /** Each step goes up in a preorder on what `view` shows. */
  ghost predicate Climbs<S(!new), L(!new), T(!new)>(step: (S, L) -> Option<S>, view: S -> T, below: (T, T) -> bool) {
    && (forall s, l :: step(s, l).Some? ==> below(view(s), view(step(s, l).value)))
    && (forall x :: below(x, x))
    && (forall x, y, z :: below(x, y) && below(y, z) ==> below(x, z))
  }

  /** So every run does. */
  lemma {:induction false} Climbing<S(!new), L(!new), T(!new)>(
    step: (S, L) -> Option<S>, view: S -> T, below: (T, T) -> bool, s: S, labels: seq<L>)
    requires Climbs(step, view, below) && Exec(step, s, labels).Some?
    ensures below(view(s), view(Exec(step, s, labels).value))
    decreases |labels|
  {
    if labels != [] {
      Climbing(step, view, below, step(s, labels[0]).value, labels[1..]);
    }
  }

  /** `image` names, for each concrete step, the abstract steps that do the same. */
  ghost predicate Simulates<S(!new), L(!new), A, M>(
    step: (S, L) -> Option<S>, spec: (A, M) -> Option<A>,
    inv: S -> bool, abs: S -> A, image: (S, L) -> seq<M>)
  {
    forall s, l :: inv(s) && step(s, l).Some? ==>
      inv(step(s, l).value) && Exec(spec, abs(s), image(s, l)) == Some(abs(step(s, l).value))
  }

  /** The abstract run that a concrete run maps to. */
  function Image<S, L, M>(step: (S, L) -> Option<S>, image: (S, L) -> seq<M>, s: S, labels: seq<L>): seq<M>
    decreases |labels|
  {
    if labels == [] then []
    else
      match step(s, labels[0])
      case None => []
      case Some(t) => image(s, labels[0]) + Image(step, image, t, labels[1..])
  }

  lemma {:induction false} ImageSnoc<S, L, M>(step: (S, L) -> Option<S>, image: (S, L) -> seq<M>, s: S, labels: seq<L>, l: L)
    requires Exec(step, s, labels).Some? && step(Exec(step, s, labels).value, l).Some?
    ensures Image(step, image, s, labels + [l]) == Image(step, image, s, labels) + image(Exec(step, s, labels).value, l)
    decreases |labels|
  {
    if labels == [] {
      assert [l][1..] == [] && labels + [l] == [l];
      assert Image(step, image, step(s, l).value, []) == [];
    } else {
      assert (labels + [l])[1..] == labels[1..] + [l];
      ImageSnoc(step, image, step(s, labels[0]).value, labels[1..], l);
    }
  }

  /** Forward simulation lifts from steps to whole runs. */
  lemma {:induction false} Simulation<S(!new), L(!new), A, M>(
    step: (S, L) -> Option<S>, spec: (A, M) -> Option<A>,
    inv: S -> bool, abs: S -> A, image: (S, L) -> seq<M>, s: S, labels: seq<L>)
    requires inv(s) && Simulates(step, spec, inv, abs, image)
    requires Exec(step, s, labels).Some?
    ensures inv(Exec(step, s, labels).value)
    ensures Exec(spec, abs(s), Image(step, image, s, labels)) == Some(abs(Exec(step, s, labels).value))
    decreases |labels|
  {
    if labels != [] {
      var t := step(s, labels[0]).value;
      Simulation(step, spec, inv, abs, image, t, labels[1..]);
      ExecAppend(spec, abs(s), image(s, labels[0]), Image(step, image, t, labels[1..]));
    }
  }

  /** What the steps of a run record, and what it says about the state they lead to. */
  ghost predicate Records<S(!new), L(!new), M(!new)>(
    step: (S, L) -> Option<S>, rel: (S, seq<M>) -> bool, image: (S, L) -> seq<M>)
  {
    forall s, l, past :: rel(s, past) && step(s, l).Some? ==> rel(step(s, l).value, past + image(s, l))
  }

  lemma {:induction false} Recording<S(!new), L(!new), M(!new)>(
    step: (S, L) -> Option<S>, rel: (S, seq<M>) -> bool, image: (S, L) -> seq<M>, s: S, past: seq<M>, labels: seq<L>)
    requires rel(s, past) && Records(step, rel, image) && Exec(step, s, labels).Some?
    ensures rel(Exec(step, s, labels).value, past + Image(step, image, s, labels))
    decreases |labels|
  {
    if labels == [] {
      assert past + [] == past;
    } else {
      var t, now := step(s, labels[0]).value, image(s, labels[0]);
      Recording(step, rel, image, t, past + now, labels[1..]);
      assert past + now + Image(step, image, t, labels[1..]) == past + (now + Image(step, image, t, labels[1..]));
    }
  }

  /** How many labels of a run are of one kind. */
  function HowMany<L>(labels: seq<L>, kind: L -> bool): nat {
    if labels == [] then 0 else (if kind(labels[0]) then 1 else 0) + HowMany(labels[1..], kind)
  }

  ghost predicate Tallied<S(!new), L(!new)>(step: (S, L) -> Option<S>, count: S -> int, kind: L -> bool) {
    forall s, l :: step(s, l).Some? ==> count(step(s, l).value) == count(s) + (if kind(l) then 1 else 0)
  }

  /** A history count that each step keeps is that number. */
  lemma {:induction false} Tallying<S(!new), L(!new)>(
    step: (S, L) -> Option<S>, count: S -> int, kind: L -> bool, s: S, labels: seq<L>)
    requires Tallied(step, count, kind) && Exec(step, s, labels).Some?
    ensures count(Exec(step, s, labels).value) == count(s) + HowMany(labels, kind)
    decreases |labels|
  {
    if labels != [] {
      Tallying(step, count, kind, step(s, labels[0]).value, labels[1..]);
    }
  }

  /** The same when the abstract state is not a function of the concrete one but related to it. */
  ghost predicate Tracks<S(!new), L(!new), A(!new), M>(
    step: (S, L) -> Option<S>, spec: (A, M) -> Option<A>, rel: (S, A) -> bool, image: (S, L) -> seq<M>)
  {
    forall s, l, a :: rel(s, a) && step(s, l).Some? ==>
      Exec(spec, a, image(s, l)).Some? && rel(step(s, l).value, Exec(spec, a, image(s, l)).value)
  }

  lemma {:induction false} Tracking<S(!new), L(!new), A(!new), M>(
    step: (S, L) -> Option<S>, spec: (A, M) -> Option<A>, rel: (S, A) -> bool, image: (S, L) -> seq<M>,
    s: S, a: A, labels: seq<L>)
    requires rel(s, a) && Tracks(step, spec, rel, image) && Exec(step, s, labels).Some?
    ensures Exec(spec, a, Image(step, image, s, labels)).Some?
    ensures rel(Exec(step, s, labels).value, Exec(spec, a, Image(step, image, s, labels)).value)
    decreases |labels|
  {
    if labels != [] {
      var t, b := step(s, labels[0]).value, Exec(spec, a, image(s, labels[0])).value;
      Tracking(step, spec, rel, image, t, b, labels[1..]);
      ExecAppend(spec, a, image(s, labels[0]), Image(step, image, t, labels[1..]));
    }
  }

  /** Every step lowers `rank` by at least one, except that a step that does one unit of `work`
      may raise it by less than `cost`. */
  ghost predicate Paced<S(!new), L(!new)>(
    step: (S, L) -> Option<S>, inv: S -> bool, rank: S -> nat, work: S -> nat, cost: nat)
  {
    forall s, l :: inv(s) && step(s, l).Some? ==>
      var t := step(s, l).value;
      && inv(t)
      && work(s) <= work(t) <= work(s) + 1
      && rank(t) + 1 <= rank(s) + (if work(t) == work(s) then 0 else cost)
  }

  /** k times the cost c, by repeated addition. */
  function Times(c: nat, k: nat): nat {
    if k == 0 then 0 else c + Times(c, k - 1)
  }

  lemma {:induction false} TimesIsProduct(c: nat, k: nat)
    ensures Times(c, k) == c * k
  {
    if k > 0 {
      TimesIsProduct(c, k - 1);
      assert c * (k - 1) + c == c * k;
    }
  }

  /** So a run is never longer than its starting rank plus `cost` for each unit of work. */
  lemma {:induction false} Pace<S(!new), L(!new)>(
    step: (S, L) -> Option<S>, inv: S -> bool, rank: S -> nat, work: S -> nat, cost: nat, s: S, labels: seq<L>)
    requires inv(s) && Paced(step, inv, rank, work, cost)
    requires Exec(step, s, labels).Some?
    ensures
      var t := Exec(step, s, labels).value;
      inv(t) && work(s) <= work(t) && |labels| + rank(t) <= rank(s) + Times(cost, work(t) - work(s))
    decreases |labels|
  {
    if labels != [] {
      var m := step(s, labels[0]).value;
      Pace(step, inv, rank, work, cost, m, labels[1..]);
      var t := Exec(step, m, labels[1..]).value;
      assert work(m) == work(s) + 1 ==> Times(cost, work(t) - work(s)) == cost + Times(cost, work(t) - work(m));
    }
  }

  /** A run that does no work is no longer than its starting rank; a longer one has done work. */
  lemma PaceBounds<S(!new), L(!new)>(
    step: (S, L) -> Option<S>, inv: S -> bool, rank: S -> nat, work: S -> nat, cost: nat, bound: nat, s: S, labels: seq<L>)
    requires inv(s) && Paced(step, inv, rank, work, cost) && rank(s) <= bound
    requires Exec(step, s, labels).Some?
    ensures
      var t := Exec(step, s, labels).value;
      && inv(t)
      && work(s) <= work(t)
      && |labels| <= bound + cost * (work(t) - work(s))
      && (work(t) == work(s) ==> |labels| <= bound)
  {
    var t := Exec(step, s, labels).value;
    Pace(step, inv, rank, work, cost, s, labels);
    TimesIsProduct(cost, work(t) - work(s));
  }

  lemma PaceForcesWork<S(!new), L(!new)>(
    step: (S, L) -> Option<S>, inv: S -> bool, rank: S -> nat, work: S -> nat, cost: nat, bound: nat, k: nat, s: S, labels: seq<L>)
    requires inv(s) && Paced(step, inv, rank, work, cost) && rank(s) <= bound
    requires Exec(step, s, labels).Some? && |labels| > bound + Times(cost, k)
    ensures work(Exec(step, s, labels).value) > work(s) + k
  {
    PaceBounds(step, inv, rank, work, cost, bound, s, labels);
    TimesIsProduct(cost, k);
    Monotone(cost, work(Exec(step, s, labels).value) - work(s), k);
  }

  lemma Monotone(c: nat, x: int, y: int)
    ensures x <= y ==> c * x <= c * y
  {
  }
}

/** The two semaphore implementations in place: the retry loop of c/include/posix_semaphore.h and
    the mutex-guarded count of rust/semaphore.rs. */
module Semaphores {
  import opened Transitions
  import opened Semaphore

  /** What one call of sem_wait does: it takes a unit, it is interrupted by a signal, or it fails. */
  datatype Outcome = Taken | Interrupted | Failed

  /** One call and what the other threads add to the value, net, while it lasts: a call that finds 0
      blocks until they have posted. */
  datatype SemWait = SemWait(outcome: Outcome, others: int)

  /** The value after the calls, had this thread taken nothing. */
  function Supply(value: int, calls: seq<SemWait>): int {
    if calls == [] then value else Supply(value, calls[..|calls| - 1]) + calls[|calls| - 1].others
  }

  /** Supply adds up what the other threads did during each call, the interrupted ones included, and takes
      call sequences one after another. */
  lemma {:induction false} SupplyAddsUp(value: int, calls: seq<SemWait>, more: seq<SemWait>)
    ensures Supply(value, []) == value
    ensures forall c :: Supply(value, [c]) == value + c.others
    ensures Supply(value, calls + more) == Supply(Supply(value, calls), more)
    decreases |more|
  {
    forall c: SemWait ensures Supply(value, [c]) == value + c.others {
      assert [c][..0] == [];
    }
    if more == [] {
      assert calls + more == calls;
    } else {
      var last := |more| - 1;
      assert (calls + more)[..|calls| + last] == calls + more[..last];
      SupplyAddsUp(value, calls, more[..last]);
    }
  }

  /** It does not matter how the calls ended. */
  lemma {:induction false} SupplyIgnoresOutcomes(value: int, calls: seq<SemWait>, others: seq<SemWait>)
    requires |calls| == |others| && forall k :: 0 <= k < |calls| ==> calls[k].others == others[k].others
    ensures Supply(value, calls) == Supply(value, others)
  {
    if calls != [] {
      SupplyIgnoresOutcomes(value, calls[..|calls| - 1], others[..|calls| - 1]);
    }
  }

  /** What sem_wait guarantees of a call: it takes a unit only when there is one. */
  predicate Granted(value: int, calls: seq<SemWait>, k: nat)
    requires k < |calls|
  {
    Supply(value, calls[..k + 1]) >= (if calls[k].outcome == Taken then 1 else 0)
  }

  /** rk_sema_wait: calls sem_wait until it is not interrupted. Signals never cost or grant a unit:
      exactly one is taken, unless the last call fails for another reason. */
  method RkSemaWait(value: nat, world: seq<SemWait>) returns (calls: nat, after: int)
    requires exists k :: 0 <= k < |world| && world[k].outcome != Interrupted
    requires forall k :: 0 <= k < |world| ==> Granted(value, world, k)
    ensures 0 < calls <= |world| && world[calls - 1].outcome != Interrupted
    ensures forall k :: 0 <= k < calls - 1 ==> world[k].outcome == Interrupted
    ensures after == Supply(value, world[..calls]) - (if world[calls - 1].outcome == Taken then 1 else 0) && after >= 0
  {
    calls, after := 0, value;
    var r := Interrupted;
    while r == Interrupted
      invariant 0 <= calls <= |world|
      invariant r == Interrupted ==> after == Supply(value, world[..calls]) && forall k :: 0 <= k < calls ==> world[k].outcome == Interrupted
      invariant r != Interrupted ==>
        && calls > 0 && r == world[calls - 1].outcome && (forall k :: 0 <= k < calls - 1 ==> world[k].outcome == Interrupted)
        && after == Supply(value, world[..calls]) - (if r == Taken then 1 else 0)
      decreases |world| - calls, r == Interrupted
    {
      assert world[..calls + 1][..calls] == world[..calls];
      assert Granted(value, world, calls);
      r := world[calls].outcome;
      after := after + world[calls].others;
      if r == Taken {
        after := after - 1;
      }
      calls := calls + 1;
    }
    assert Granted(value, world, calls - 1);
  }

  /** rust/semaphore.rs: each method body is one section under the mutex, hence one step. */
  class CondvarSemaphore {
    var value: int
    var threads: seq<Nap>
    ghost var waits: nat
    ghost var posts: nat
    ghost var returned: nat
    ghost var spurious: nat

    ghost function View(): Sem
      reads this
    {
      Sem(value, threads, waits, posts, returned, spurious)
    }

    constructor (value: int, n: nat)
      ensures View() == New(value, n)
    {
      this.value := value;
      threads := seq(n, _ => Awake);
      waits, posts, returned, spurious := 0, 0, 0, 0;
    }

    /** wait, up to the point where the thread returns or sleeps. */
    method Wait(t: nat) returns (sleeps: bool)
      requires At(View(), t, Awake)
      modifies this
      ensures Some(View()) == Step(old(View()), Label.Wait(t))
      ensures sleeps <==> At(View(), t, Asleep)
    {
      value := value - 1;
      waits := waits + 1;
      sleeps := value < 0;
      if sleeps {
        threads := threads[t := Asleep];
      } else {
        returned := returned + 1;
      }
    }

    /** post; notify_one wakes some sleeper if there is one. */
    method Post(t: nat) returns (woken: Option<nat>)
      requires At(View(), t, Awake)
      modifies this
      ensures Some(View()) == Step(old(View()), Label.Post(t, if woken.Some? then woken.value else 0))
      ensures woken.Some? <==> Notifies(old(value)) && SomeoneSleeps(old(threads))
      ensures woken.Some? ==> At(View(), woken.value, Notified)
    {
      ghost var s := View();
      value := value + 1;
      posts := posts + 1;
      woken := None;
      if value <= 0 {
        for u := 0 to |threads|
          invariant forall k :: 0 <= k < u ==> threads[k] != Asleep
          invariant threads == s.threads && woken == None
        {
          if threads[u] == Asleep {
            threads := threads[u := Notified];
            woken := Some(u);
            assert Some(View()) == Step(s, Label.Post(t, u));
            return;
          }
        }
      }
      assert Some(View()) == Step(s, Label.Post(t, 0));
    }
  }
}

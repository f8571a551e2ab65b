/** The specification of the warehouse: an atomic first-in-first-out queue of bounded size,
    with the log of everything ever inserted and taken. */
module Fifo {
  import opened Transitions

  datatype Queue = Queue(capacity: nat, items: seq<int>, inserted: seq<int>, taken: seq<int>)

  datatype Op = Enqueue(item: int) | Dequeue(item: int)

  function Step(q: Queue, op: Op): Option<Queue> {
    match op
    case Enqueue(x) =>
      if |q.items| < q.capacity
      then Some(q.(items := q.items + [x], inserted := q.inserted + [x]))
      else None
    case Dequeue(x) =>
      if q.items != [] && q.items[0] == x
      then Some(q.(items := q.items[1..], taken := q.taken + [x]))
      else None
  }

  function EmptyQueue(capacity: nat): Queue {
    Queue(capacity, [], [], [])
  }

  ghost predicate Lawful(q: Queue) {
    q.inserted == q.taken + q.items && |q.items| <= q.capacity
  }

  /** Items leave in the order they came, none is lost or made up, and the bound holds. */
  lemma RunsAreFifo(capacity: nat, ops: seq<Op>)
    ensures
      var end := Exec(Step, EmptyQueue(capacity), ops);
      end.Some? ==>
        && end.value.inserted == end.value.taken + end.value.items
        && |end.value.items| <= capacity
  {
    if Exec(Step, EmptyQueue(capacity), ops).Some? {
      Invariance(Step, q => Lawful(q) && q.capacity == capacity, EmptyQueue(capacity), ops);
    }
  }
}

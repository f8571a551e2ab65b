/** The producer/consumer warehouse as a step machine: any number of producers (trucks) and
    consumers (workers), any ring size, any schedule. Every statement that touches shared data
    is a step of its own; the semaphores are plain counting semaphores. `style` selects between
    c/c_lab05_b.c (item produced before the first wait, consumed after the last post) and the
    thread bodies of rust/r_lab05_b.rs (both inside the critical section). */
module Warehouse {
  import opened Transitions
  import opened Ring

  datatype Style = CStyle | RustStyle

  datatype Config = Config(n: nat, style: Style)

  datatype ProducerPc =
    | Produce                // C: make the item before the first wait
    | WaitEmpty
    | WaitLock
    | Pick                   // Rust: make the item under the lock
    | Store                  // write the slot at the producer index
    | Advance                // move the producer index on
    | Show(i: nat)           // print_buffer, loop counter i
    | PostLock
    | PostFull

  datatype ConsumerPc =
    | WaitFull
    | AwaitLock
    | Take                   // read the slot at the consumer index
    | Mark                   // mark that slot as deleted
    | Retire                 // move the consumer index on
    | Display(i: nat)        // print_buffer, loop counter i
    | ConsumeLocked          // Rust: consume under the lock
    | ReleaseLock
    | PostEmpty
    | Consume                // C: consume after the last post

  datatype Producer = Producer(pc: ProducerPc, item: int)
  datatype Consumer = Consumer(pc: ConsumerPc, item: int)

  /** History: who decremented the lock last. In Rust it is the owner of the mutex. */
  datatype Holder = Nobody | ByProducer(i: nat) | ByConsumer(j: nat)

  datatype State = State(
    empty: nat, full: nat, lock: nat, holder: Holder,
    ring: Ring, producers: seq<Producer>, consumers: seq<Consumer>)

  /** Who moves; `random` is the number produce() draws. */
  datatype Label = ProducerMoves(i: nat, random: nat) | ConsumerMoves(j: nat)

  /** What produce makes of a random number. */
  function Produced(random: nat): (item: int)
    ensures ItemRange(item)
  {
    random % 9 + 1
  }

  /** The value remove_from_buffer finds in a slot. C reads the raw number; Rust falls back to
      Item::Other, numbered 10 here, when the slot is not taken. */
  function SlotValue(style: Style, s: Slot): int {
    match s
    case Taken(x) => x
    case Empty => if style == CStyle then 0 else OTHER
    case Deleted => if style == CStyle then -1 else OTHER
  }

  const OTHER := 10

  /** print_item, Item::fmt. */
  function ItemName(item: int): string {
    match item
    case 1 => "hat"
    case 2 => "phone"
    case 3 => "dress"
    case 4 => "pants"
    case 5 => "shoes"
    case 6 => "burrito"
    case 7 => "sushi"
    case 8 => "sandals"
    case 9 => "pc"
    case _ => "other"
  }

  function ProducerStart(style: Style): ProducerPc {
    if style == CStyle then Produce else WaitEmpty
  }

  function Init(cfg: Config, p: nat, c: nat): State {
    State(cfg.n, 0, 1, Nobody, EmptyRing(cfg.n),
          seq(p, _ => Producer(ProducerStart(cfg.style), 0)), seq(c, _ => Consumer(WaitFull, 0)))
  }

  /** A producer's steps that use no semaphore. None: not such a step, or an access out of bounds. */
  function ProducerLocal(cfg: Config, r: Ring, p: Producer, random: nat): Option<(Ring, Producer)> {
    match p.pc
    case Produce => Some((r, Producer(WaitEmpty, Produced(random))))
    case Pick => Some((r, Producer(Store, Produced(random))))
    case Store => if InBounds(r) then Some((StoreItem(r, p.item), p.(pc := Advance))) else None
    case Advance => if InBounds(r) then Some((AdvanceProducer(r, p.item), p.(pc := Show(0)))) else None
    case Show(i) =>
      if i < cfg.n then
        if i < |r.slots| then Some((SweepSlot(r, i), p.(pc := Show(i + 1)))) else None
      else Some((r, p.(pc := PostLock)))
    case _ => None
  }

  function ConsumerLocal(cfg: Config, r: Ring, c: Consumer): Option<(Ring, Consumer)> {
    match c.pc
    case Take => if InBounds(r) then Some((r, Consumer(Mark, SlotValue(cfg.style, r.slots[r.consumerIdx])))) else None
    case Mark => if InBounds(r) then Some((MarkDeleted(r), c.(pc := Retire))) else None
    case Retire => if InBounds(r) then Some((AdvanceConsumer(r, c.item), c.(pc := Display(0)))) else None
    case Display(i) =>
      if i < cfg.n then
        if i < |r.slots| then Some((SweepSlot(r, i), c.(pc := Display(i + 1)))) else None
      else Some((r, c.(pc := if cfg.style == CStyle then ReleaseLock else ConsumeLocked)))
    case ConsumeLocked => Some((r, c.(pc := ReleaseLock)))
    case Consume => Some((r, c.(pc := WaitFull)))
    case _ => None
  }

  function AfterLock(style: Style): ProducerPc {
    if style == CStyle then Store else Pick
  }

  function AfterPostEmpty(style: Style): ConsumerPc {
    if style == CStyle then Consume else WaitFull
  }

  function ProducerStep(cfg: Config, s: State, i: nat, random: nat): Option<State>
    requires i < |s.producers|
  {
    var p := s.producers[i];
    match p.pc
    case WaitEmpty =>
      if s.empty > 0
      then Some(s.(empty := s.empty - 1, producers := s.producers[i := p.(pc := WaitLock)]))
      else None
    case WaitLock =>
      if s.lock > 0
      then Some(s.(lock := s.lock - 1, holder := ByProducer(i),
                   producers := s.producers[i := p.(pc := AfterLock(cfg.style))]))
      else None
    case PostLock =>
      Some(s.(lock := s.lock + 1, holder := Nobody, producers := s.producers[i := p.(pc := PostFull)]))
    case PostFull =>
      Some(s.(full := s.full + 1, producers := s.producers[i := p.(pc := ProducerStart(cfg.style))]))
    case _ =>
      match ProducerLocal(cfg, s.ring, p, random)
      case None => None
      case Some((r, q)) => Some(s.(ring := r, producers := s.producers[i := q]))
  }

  function ConsumerStep(cfg: Config, s: State, j: nat): Option<State>
    requires j < |s.consumers|
  {
    var c := s.consumers[j];
    match c.pc
    case WaitFull =>
      if s.full > 0
      then Some(s.(full := s.full - 1, consumers := s.consumers[j := c.(pc := AwaitLock)]))
      else None
    case AwaitLock =>
      if s.lock > 0
      then Some(s.(lock := s.lock - 1, holder := ByConsumer(j), consumers := s.consumers[j := c.(pc := Take)]))
      else None
    case ReleaseLock =>
      Some(s.(lock := s.lock + 1, holder := Nobody, consumers := s.consumers[j := c.(pc := PostEmpty)]))
    case PostEmpty =>
      Some(s.(empty := s.empty + 1, consumers := s.consumers[j := c.(pc := AfterPostEmpty(cfg.style))]))
    case _ =>
      match ConsumerLocal(cfg, s.ring, c)
      case None => None
      case Some((r, d)) => Some(s.(ring := r, consumers := s.consumers[j := d]))
  }

  function Step(cfg: Config, s: State, l: Label): Option<State> {
    match l
    case ProducerMoves(i, random) => if i < |s.producers| then ProducerStep(cfg, s, i, random) else None
    case ConsumerMoves(j) => if j < |s.consumers| then ConsumerStep(cfg, s, j) else None
  }

  function Machine(cfg: Config): (State, Label) -> Option<State> {
    (s, l) => Step(cfg, s, l)
  }
}

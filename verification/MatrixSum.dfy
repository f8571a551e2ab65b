/** The sum of two matrices over flat storage, computed by many tasks at once: one task per column
    in cpp/cc_lab02_b.cc, which adds the column of a and then the column of b to a zero matrix; one
    thread per row in c/c_lab02_b.c, which stores the sums directly. Loads and stores are separate steps. */
module MatrixSum {
  import opened Transitions
  import opened Sums
  import opened RingArith

  // ----- flat indices -----

  /** Where Matrix::operator() finds the element in row x and column y. */
  function Index(m: nat, x: nat, y: nat): nat {
    x * m + y
  }

  /** (x, y) -> x * m + y maps [0, n) x [0, m) into [0, n * m) ... */
  lemma IndexInRange(n: nat, m: nat, x: nat, y: nat)
    requires x < n && y < m
    ensures Index(m, x, y) < n * m
  {
    Multiples(m, x, n);
  }

  /** ... without collisions: row and column can be read back ... */
  lemma IndexSplits(m: nat, x: nat, y: nat)
    requires y < m
    ensures Index(m, x, y) / m == x && Index(m, x, y) % m == y
  {
    var k := Index(m, x, y);
    if k / m < x {
      Multiples(m, k / m, x);
    } else if x < k / m {
      Multiples(m, x, k / m);
    }
  }

  /** ... and onto. */
  lemma IndexCovers(n: nat, m: nat, k: nat)
    requires k < n * m
    ensures m > 0 && k / m < n && k % m < m && Index(m, k / m, k % m) == k
  {
    assert m > 0;
    Monotone(m, n, k / m);
  }

  // ----- the tasks -----

  datatype Plan = ByColumn | ByRow

  datatype Config = Config(plan: Plan, n: nat, m: nat, a: seq<int>, b: seq<int>)

  ghost predicate Valid(cfg: Config) {
    cfg.n > 0 && cfg.m > 0 && |cfg.a| == |cfg.b| == cfg.n * cfg.m
  }

  /** A task is in pass `pass` at position `at` of its column or row; `loaded` holds the sum it is
      about to store. */
  datatype Task = Task(pass: nat, at: nat, loaded: Option<int>)

  datatype State = State(res: seq<int>, tasks: seq<Task>)

  function TaskCount(cfg: Config): nat {
    if cfg.plan == ByColumn then cfg.m else cfg.n
  }

  function Length(cfg: Config): nat {
    if cfg.plan == ByColumn then cfg.n else cfg.m
  }

  function Passes(cfg: Config): nat {
    if cfg.plan == ByColumn then 2 else 1
  }

  function Cell(cfg: Config, task: nat, at: nat): nat {
    if cfg.plan == ByColumn then Index(cfg.m, at, task) else Index(cfg.m, task, at)
  }

  function OwnerOf(cfg: Config, k: nat): nat
    requires cfg.m > 0
  {
    if cfg.plan == ByColumn then k % cfg.m else k / cfg.m
  }

  function PlaceOf(cfg: Config, k: nat): nat
    requires cfg.m > 0
  {
    if cfg.plan == ByColumn then k / cfg.m else k % cfg.m
  }

  function Init(cfg: Config): State {
    State(seq(cfg.n * cfg.m, _ => 0), seq(TaskCount(cfg), _ => Task(0, 0, None)))
  }

  /** What the task computes for cell k in its current pass, given the cell's present value. */
  function Sum1(cfg: Config, pass: nat, k: nat, present: int): int
    requires k < |cfg.a| && k < |cfg.b|
  {
    if cfg.plan == ByRow then cfg.a[k] + cfg.b[k]
    else present + (if pass == 0 then cfg.a[k] else cfg.b[k])
  }

  function Step(cfg: Config, s: State, c: nat): Option<State> {
    if !(c < |s.tasks|) then None
    else
      var t := s.tasks[c];
      var k := Cell(cfg, c, t.at);
      if t.pass >= Passes(cfg) || !(k < |s.res| && k < |cfg.a| && k < |cfg.b|) then None
      else
        match t.loaded
        case None => Some(s.(tasks := s.tasks[c := t.(loaded := Some(Sum1(cfg, t.pass, k, s.res[k])))]))
        case Some(v) =>
          var next := if t.at + 1 < Length(cfg) then Task(t.pass, t.at + 1, None) else Task(t.pass + 1, 0, None);
          Some(State(s.res[k := v], s.tasks[c := next]))
  }

  function Machine(cfg: Config): (State, nat) -> Option<State> {
    (s: State, c: nat) => Step(cfg, s, c)
  }

  // ----- invariant -----

  /** The value of cell k at place `place` when its owner is where t says. */
  function ValueAt(cfg: Config, t: Task, place: nat, k: nat): int
    requires k < |cfg.a| && k < |cfg.b|
  {
    var full := cfg.a[k] + cfg.b[k];
    if t.pass >= Passes(cfg) then full
    else if cfg.plan == ByRow then if place < t.at then full else 0
    else if t.pass == 0 then if place < t.at then cfg.a[k] else 0
    else if place < t.at then full else cfg.a[k]
  }

  ghost predicate TaskOk(cfg: Config, s: State, c: nat)
    requires c < |s.tasks|
  {
    var t := s.tasks[c];
    var k := Cell(cfg, c, t.at);
    && t.at < Length(cfg)
    && (t.pass >= Passes(cfg) ==> t.loaded == None)
    && (t.loaded.Some? ==> k < |s.res| && k < |cfg.a| && k < |cfg.b| && t.loaded.value == Sum1(cfg, t.pass, k, s.res[k]))
  }

  ghost predicate Inv(cfg: Config, s: State) {
    && Valid(cfg)
    && |s.res| == cfg.n * cfg.m && |s.tasks| == TaskCount(cfg)
    && (forall c :: 0 <= c < |s.tasks| ==> TaskOk(cfg, s, c))
    && (forall k :: 0 <= k < |s.res| ==> OwnerOf(cfg, k) < |s.tasks| && CellOk(cfg, s, k))
  }

  ghost predicate CellOk(cfg: Config, s: State, k: nat)
    requires Valid(cfg) && k < |s.res| == cfg.n * cfg.m && OwnerOf(cfg, k) < |s.tasks|
  {
    s.res[k] == ValueAt(cfg, s.tasks[OwnerOf(cfg, k)], PlaceOf(cfg, k), k)
  }

  /** The cells of one task are its column or row, and no other task's. */
  lemma CellsPartition(cfg: Config, c: nat, at: nat)
    requires Valid(cfg) && c < TaskCount(cfg) && at < Length(cfg)
    ensures Cell(cfg, c, at) < cfg.n * cfg.m
    ensures OwnerOf(cfg, Cell(cfg, c, at)) == c && PlaceOf(cfg, Cell(cfg, c, at)) == at
  {
    if cfg.plan == ByColumn {
      IndexInRange(cfg.n, cfg.m, at, c);
      IndexSplits(cfg.m, at, c);
    } else {
      IndexInRange(cfg.n, cfg.m, c, at);
      IndexSplits(cfg.m, c, at);
    }
  }

  lemma CellIsOwned(cfg: Config, k: nat)
    requires Valid(cfg) && k < cfg.n * cfg.m
    ensures OwnerOf(cfg, k) < TaskCount(cfg) && PlaceOf(cfg, k) < Length(cfg)
    ensures Cell(cfg, OwnerOf(cfg, k), PlaceOf(cfg, k)) == k
  {
    IndexCovers(cfg.n, cfg.m, k);
  }

  lemma InitInv(cfg: Config)
    requires Valid(cfg)
    ensures Inv(cfg, Init(cfg))
  {
    forall k | 0 <= k < cfg.n * cfg.m
      ensures OwnerOf(cfg, k) < TaskCount(cfg) && CellOk(cfg, Init(cfg), k)
    {
      CellIsOwned(cfg, k);
    }
  }

  lemma LoadKeepsInv(cfg: Config, s: State, c: nat)
    requires Inv(cfg, s) && Step(cfg, s, c).Some? && s.tasks[c].loaded == None
    ensures Inv(cfg, Step(cfg, s, c).value)
  {
    var s' := Step(cfg, s, c).value;
    forall k | 0 <= k < |s.res|
      ensures OwnerOf(cfg, k) < |s'.tasks| && CellOk(cfg, s', k)
    {
      assert CellOk(cfg, s, k);
    }
    forall d | 0 <= d < |s'.tasks|
      ensures TaskOk(cfg, s', d)
    {
      assert TaskOk(cfg, s, d);
    }
  }

  lemma StoreKeepsInv(cfg: Config, s: State, c: nat)
    requires Inv(cfg, s) && Step(cfg, s, c).Some? && s.tasks[c].loaded.Some?
    ensures Inv(cfg, Step(cfg, s, c).value)
  {
    var s' := Step(cfg, s, c).value;
    var at := s.tasks[c].at;
    assert TaskOk(cfg, s, c);
    CellsPartition(cfg, c, at);
    forall k | 0 <= k < |s.res|
      ensures OwnerOf(cfg, k) < |s'.tasks| && CellOk(cfg, s', k)
    {
      assert CellOk(cfg, s, k);
      CellIsOwned(cfg, k);
    }
    forall d | 0 <= d < |s'.tasks|
      ensures TaskOk(cfg, s', d)
    {
      assert TaskOk(cfg, s, d);
      if d != c && s.tasks[d].loaded.Some? {
        CellsPartition(cfg, d, s.tasks[d].at);
      }
    }
  }

  lemma StepKeepsInv(cfg: Config, s: State, c: nat)
    requires Inv(cfg, s) && Step(cfg, s, c).Some?
    ensures Inv(cfg, Step(cfg, s, c).value)
  {
    if s.tasks[c].loaded == None {
      LoadKeepsInv(cfg, s, c);
    } else {
      StoreKeepsInv(cfg, s, c);
    }
  }

  lemma ReachableInv(cfg: Config, schedule: seq<nat>, s: State)
    requires Valid(cfg) && Exec(Machine(cfg), Init(cfg), schedule) == Some(s)
    ensures Inv(cfg, s)
  {
    InitInv(cfg);
    forall s, c | Inv(cfg, s) && Machine(cfg)(s, c).Some?
      ensures Inv(cfg, Machine(cfg)(s, c).value)
    {
      StepKeepsInv(cfg, s, c);
    }
    Invariance(Machine(cfg), s => Inv(cfg, s), Init(cfg), schedule);
  }

  // ----- theorems -----

  predicate Finished(cfg: Config, s: State) {
    forall c :: 0 <= c < |s.tasks| ==> s.tasks[c].pass >= Passes(cfg)
  }

  /** Whatever the interleaving: when all tasks are done, every cell holds a + b; at any moment it
      holds 0, a or a + b, so a sum that fits the element type never overflows on the way. */
  lemma ScheduleDoesNotMatter(cfg: Config, schedule: seq<nat>, s: State)
    requires Valid(cfg) && Exec(Machine(cfg), Init(cfg), schedule) == Some(s)
    ensures |s.res| == cfg.n * cfg.m
    ensures forall k :: 0 <= k < |s.res| ==> s.res[k] == 0 || s.res[k] == cfg.a[k] || s.res[k] == cfg.a[k] + cfg.b[k]
    ensures Finished(cfg, s) ==> forall k :: 0 <= k < |s.res| ==> s.res[k] == cfg.a[k] + cfg.b[k]
  {
    ReachableInv(cfg, schedule, s);
    forall k | 0 <= k < |s.res|
      ensures s.res[k] == 0 || s.res[k] == cfg.a[k] || s.res[k] == cfg.a[k] + cfg.b[k]
      ensures Finished(cfg, s) ==> s.res[k] == cfg.a[k] + cfg.b[k]
    {
      assert CellOk(cfg, s, k);
    }
  }

  /** An unfinished task can always move: tasks never wait for each other. */
  lemma UnfinishedTaskMoves(cfg: Config, schedule: seq<nat>, s: State, c: nat)
    requires Valid(cfg) && Exec(Machine(cfg), Init(cfg), schedule) == Some(s)
    requires c < |s.tasks| && s.tasks[c].pass < Passes(cfg)
    ensures Step(cfg, s, c).Some?
  {
    ReachableInv(cfg, schedule, s);
    assert TaskOk(cfg, s, c);
    CellsPartition(cfg, c, s.tasks[c].at);
  }

  function TaskLeft(cfg: Config, t: Task): nat {
    if t.pass >= Passes(cfg) then 0
    else
      (if t.pass + 1 < Passes(cfg) then 2 * Length(cfg) else 0)
      + (if t.at < Length(cfg) then 2 * (Length(cfg) - t.at) else 0)
      + (if t.loaded == None then 1 else 0)
  }

  function LeftOf(cfg: Config): Task -> nat {
    t => TaskLeft(cfg, t)
  }

  ghost function RankOf(cfg: Config): State -> nat {
    (s: State) => Sum(s.tasks, LeftOf(cfg))
  }

  ghost function InvOf(cfg: Config): State -> bool {
    s => Inv(cfg, s)
  }

  lemma StepDescends(cfg: Config, s: State, c: nat)
    requires Inv(cfg, s) && Step(cfg, s, c).Some?
    ensures RankOf(cfg)(Step(cfg, s, c).value) + 1 <= RankOf(cfg)(s)
  {
    assert TaskOk(cfg, s, c);
    SumUpdate(s.tasks, c, Step(cfg, s, c).value.tasks[c], LeftOf(cfg));
  }

  lemma MachineIsPaced(cfg: Config)
    ensures Paced(Machine(cfg), InvOf(cfg), RankOf(cfg), _ => 0, 0)
  {
    forall s, c | InvOf(cfg)(s) && Machine(cfg)(s, c).Some?
      ensures InvOf(cfg)(Machine(cfg)(s, c).value)
      ensures RankOf(cfg)(Machine(cfg)(s, c).value) + 1 <= RankOf(cfg)(s)
    {
      StepKeepsInv(cfg, s, c);
      StepDescends(cfg, s, c);
    }
  }

  lemma InitialWork(cfg: Config)
    ensures RankOf(cfg)(Init(cfg)) <= (2 * Passes(cfg) * Length(cfg) + 1) * TaskCount(cfg)
  {
    SumAtMost(Init(cfg).tasks, LeftOf(cfg), 2 * Passes(cfg) * Length(cfg) + 1);
  }

  /** Every schedule is finite: a load and a store for each cell and pass, and one step to spare. */
  lemma SchedulesAreBounded(cfg: Config, schedule: seq<nat>, s: State)
    requires Valid(cfg) && Exec(Machine(cfg), Init(cfg), schedule) == Some(s)
    ensures |schedule| <= (2 * Passes(cfg) * Length(cfg) + 1) * TaskCount(cfg)
  {
    RunIsBounded(cfg, schedule, s);
    InitialWork(cfg);
  }

  lemma RunIsBounded(cfg: Config, schedule: seq<nat>, s: State)
    requires Valid(cfg) && Exec(Machine(cfg), Init(cfg), schedule) == Some(s)
    ensures |schedule| <= RankOf(cfg)(Init(cfg))
  {
    assert InvOf(cfg)(Init(cfg)) by {
      InitInv(cfg);
    }
    MachineIsPaced(cfg);
    PaceBounds(Machine(cfg), InvOf(cfg), RankOf(cfg), _ => 0, 0, RankOf(cfg)(Init(cfg)), Init(cfg), schedule);
  }
}

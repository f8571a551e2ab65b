/** The shared-memory hand-off: a writer stores one byte after another into a mapped window and a
    reader prints them, in step through two semaphores that start at 0 (c/ipc/include/shm_type.h with
    write.c and read.c; cpp/ipc/memory_based/shared_memory/shm.hh). The C writer first waits for the
    reader, replaces its input by '0' once a signal has cleared `running`, and calls sem_wait without
    a retry, so a signal can end a wait early; that step is counted. */
module SharedMemory {
  import opened Transitions

  datatype Writer = CWriter | CppWriter

  /** `input` is what the writer reads; its first '0' lies inside the mapped window. */
  datatype Config = Config(writer: Writer, window: nat, input: seq<char>)

  datatype WriterPc =
    | Handshake     // C: wait for the reader to announce itself
    | Repost        // C: give that unit back
    | AwaitOne      // wait on one
    | Store         // store the next input byte at the cursor
    | Override      // C: replace it by the end mark once a signal came
    | PostTwo       // post two
    | WriterTest    // loop test: read the cell back, move the cursor
    | WriterDone

  datatype ReaderPc =
    | Announce      // post one
    | AwaitTwo      // wait on two
    | Print         // print the cell at the cursor
    | PostOne       // post one
    | ReaderTest    // loop test: read the cell back, move the cursor
    | ReaderDone

  /** `w` and `r` are the two cursors; `posted` and `answered` count the loop posts on two and one;
      `interrupted` counts the waits that a signal ended. */
  datatype State = State(
    one: nat, two: nat, running: bool, cells: seq<char>, out: seq<char>,
    writer: WriterPc, w: nat, posted: nat, reader: ReaderPc, r: nat, answered: nat, interrupted: nat)

  datatype Label =
    | WriterMoves
    | ReaderMoves
    | Signal              // SIGINT while the writer computes: running = false
    | SignalDuringWait    // SIGINT while the writer is blocked in sem_wait: running = false, the wait fails

  const EOF_BYTE: char := '\U{ff}'

  function Input(cfg: Config, k: nat): char {
    if k < |cfg.input| then cfg.input[k] else EOF_BYTE
  }

  function Init(cfg: Config, cells: seq<char>): State {
    State(0, 0, true, cells, [], if cfg.writer == CWriter then Handshake else AwaitOne, 0, 0, Announce, 0, 0, 0)
  }

  function WriterStep(cfg: Config, s: State): Option<State> {
    match s.writer
    case Handshake => if s.one > 0 then Some(s.(one := s.one - 1, writer := Repost)) else None
    case Repost => Some(s.(one := s.one + 1, writer := AwaitOne))
    case AwaitOne => if s.one > 0 then Some(s.(one := s.one - 1, writer := Store)) else None
    case Store =>
      if s.w < |s.cells|
      then Some(s.(cells := s.cells[s.w := Input(cfg, s.w)], writer := if cfg.writer == CWriter then Override else PostTwo))
      else None
    case Override =>
      if s.running then Some(s.(writer := PostTwo))
      else if s.w < |s.cells| then Some(s.(cells := s.cells[s.w := '0'], writer := PostTwo))
      else None
    case PostTwo => Some(s.(two := s.two + 1, posted := s.posted + 1, writer := WriterTest))
    case WriterTest =>
      if s.w < |s.cells|
      then Some(s.(w := s.w + 1, writer := if s.cells[s.w] != '0' then AwaitOne else WriterDone))
      else None
    case WriterDone => None
  }

  function ReaderStep(s: State): Option<State> {
    match s.reader
    case Announce => Some(s.(one := s.one + 1, reader := AwaitTwo))
    case AwaitTwo => if s.two > 0 then Some(s.(two := s.two - 1, reader := Print)) else None
    case Print => if s.r < |s.cells| then Some(s.(out := s.out + [s.cells[s.r]], reader := PostOne)) else None
    case PostOne => Some(s.(one := s.one + 1, answered := s.answered + 1, reader := ReaderTest))
    case ReaderTest =>
      if s.r < |s.cells|
      then Some(s.(r := s.r + 1, reader := if s.cells[s.r] != '0' then AwaitTwo else ReaderDone))
      else None
    case ReaderDone => None
  }

  function Step(cfg: Config, s: State, l: Label): Option<State> {
    match l
    case WriterMoves => WriterStep(cfg, s)
    case ReaderMoves => ReaderStep(s)
    case Signal => if cfg.writer == CWriter && s.running then Some(s.(running := false)) else None
    case SignalDuringWait =>
      if cfg.writer == CWriter && (s.writer == Handshake || s.writer == AwaitOne) && s.one == 0
      then Some(s.(running := false, interrupted := s.interrupted + 1,
                   writer := if s.writer == Handshake then Repost else Store))
      else None
  }

  function Machine(cfg: Config): (State, Label) -> Option<State> {
    (s, l) => Step(cfg, s, l)
  }

  /** The first '0' of the input is at z, inside the window. */
  predicate FirstEnd(cfg: Config, z: nat) {
    z < |cfg.input| && z < cfg.window && cfg.input[z] == '0' && forall k :: 0 <= k < z ==> cfg.input[k] != '0'
  }

  // ----- invariant -----

  predicate WriterHolds(pc: WriterPc) {
    pc == Store || pc == Override || pc == PostTwo
  }

  predicate ReaderHolds(pc: ReaderPc) {
    pc == Print || pc == PostOne
  }

  function Bit(b: bool): nat {
    if b then 1 else 0
  }

  /** Every post on a semaphore is still there or was taken; an interrupted wait took nothing. */
  predicate Tokens(s: State) {
    && s.one + Bit(s.writer == Repost) + s.posted + Bit(WriterHolds(s.writer))
       == Bit(s.reader != Announce) + s.answered + s.interrupted
    && s.two + s.answered + Bit(ReaderHolds(s.reader)) == s.posted
  }

  predicate Cursors(s: State) {
    && s.posted == s.w + Bit(s.writer == WriterTest)
    && s.answered == s.r + Bit(s.reader == ReaderTest)
    && (s.writer == Handshake || s.writer == Repost ==> s.posted == 0)
    && (s.reader == Announce ==> s.answered == 0)
  }

  predicate Counts(s: State) {
    Tokens(s) && Cursors(s)
  }

  /** All accesses fall inside the window, at or before the end mark of the input. */
  predicate Bounds(cfg: Config, z: nat, s: State) {
    && |s.cells| == cfg.window && z < cfg.window && z < |cfg.input|
    && s.w <= s.posted <= z + 1
    && s.r <= s.answered <= s.posted
    && (s.writer != WriterDone ==> s.w <= z)
    && (s.writer == WriterDone ==> s.w >= 1)
    && (s.reader == ReaderDone ==> s.r >= 1)
  }

  /** Only the last byte posted may be '0', and then the loop that sees it ends. */
  predicate Contents(cfg: Config, z: nat, s: State)
    requires Bounds(cfg, z, s)
  {
    && (forall k :: 0 <= k < s.w && (k < s.w - 1 || s.writer != WriterDone) ==> s.cells[k] != '0')
    && (forall k :: 0 <= k < s.posted && s.cells[k] != '0' ==> s.cells[k] == cfg.input[k])
    && (s.writer == WriterDone ==> s.cells[s.w - 1] == '0' && (cfg.input[s.w - 1] == '0' || !s.running))
    && (s.writer == Override ==> s.cells[s.w] == cfg.input[s.w])
    && (s.writer == PostTwo || s.writer == WriterTest ==>
          s.cells[s.w] == cfg.input[s.w] || (s.cells[s.w] == '0' && !s.running))
  }

  predicate Languages(cfg: Config, s: State) {
    cfg.writer == CppWriter ==>
      s.running && s.interrupted == 0 && s.writer != Override && s.writer != Handshake && s.writer != Repost
  }

  predicate Printed(cfg: Config, z: nat, s: State)
    requires Bounds(cfg, z, s)
  {
    && |s.out| == s.answered + Bit(s.reader == PostOne)
    && |s.out| <= s.posted
    && (forall k :: 0 <= k < |s.out| ==> s.out[k] == s.cells[k])
    && (forall k :: 0 <= k < s.r && (k < s.r - 1 || s.reader != ReaderDone) ==> s.cells[k] != '0')
    && (s.reader == ReaderDone ==> s.cells[s.r - 1] == '0')
  }

  predicate Inv(cfg: Config, z: nat, s: State) {
    && FirstEnd(cfg, z) && Counts(s) && Languages(cfg, s)
    && Bounds(cfg, z, s) && Contents(cfg, z, s) && Printed(cfg, z, s)
  }

  lemma WriterKeepsTokens(cfg: Config, s: State)
    requires Tokens(s) && WriterStep(cfg, s).Some?
    ensures Tokens(WriterStep(cfg, s).value)
  {
  }

  lemma WriterKeepsCursors(cfg: Config, s: State)
    requires Cursors(s) && WriterStep(cfg, s).Some?
    ensures Cursors(WriterStep(cfg, s).value)
  {
  }

  lemma ReaderKeepsTokens(s: State)
    requires Tokens(s) && ReaderStep(s).Some?
    ensures Tokens(ReaderStep(s).value)
  {
  }

  lemma ReaderKeepsCursors(s: State)
    requires Cursors(s) && ReaderStep(s).Some?
    ensures Cursors(ReaderStep(s).value)
  {
  }

  lemma StepKeepsCounts(cfg: Config, s: State, l: Label)
    requires Counts(s) && Languages(cfg, s) && Step(cfg, s, l).Some?
    ensures Counts(Step(cfg, s, l).value) && Languages(cfg, Step(cfg, s, l).value)
  {
    match l {
      case WriterMoves => WriterKeepsTokens(cfg, s); WriterKeepsCursors(cfg, s);
      case ReaderMoves => ReaderKeepsTokens(s); ReaderKeepsCursors(s);
      case Signal =>
      case SignalDuringWait =>
    }
  }

  lemma WaitingKeepsContents(cfg: Config, z: nat, s: State)
    requires s.writer == Handshake || s.writer == Repost || s.writer == AwaitOne
    requires WriterStep(cfg, s).Some? && Bounds(cfg, z, s) && Contents(cfg, z, s) && Printed(cfg, z, s)
    ensures
      var t := WriterStep(cfg, s).value;
      Bounds(cfg, z, t) && Contents(cfg, z, t) && Printed(cfg, z, t)
  {
  }

  lemma StoringKeepsContents(cfg: Config, z: nat, s: State)
    requires Cursors(s) && (s.writer == Store || s.writer == Override)
    requires WriterStep(cfg, s).Some? && Bounds(cfg, z, s) && Contents(cfg, z, s) && Printed(cfg, z, s)
    ensures
      var t := WriterStep(cfg, s).value;
      Bounds(cfg, z, t) && Contents(cfg, z, t) && Printed(cfg, z, t)
  {
  }

  lemma PostingKeepsContents(cfg: Config, z: nat, s: State)
    requires Cursors(s) && s.writer == PostTwo
    requires WriterStep(cfg, s).Some? && Bounds(cfg, z, s) && Contents(cfg, z, s) && Printed(cfg, z, s)
    ensures
      var t := WriterStep(cfg, s).value;
      Bounds(cfg, z, t) && Contents(cfg, z, t) && Printed(cfg, z, t)
  {
  }

  lemma TestingKeepsContents(cfg: Config, z: nat, s: State)
    requires FirstEnd(cfg, z) && Cursors(s) && s.writer == WriterTest
    requires WriterStep(cfg, s).Some? && Bounds(cfg, z, s) && Contents(cfg, z, s) && Printed(cfg, z, s)
    ensures
      var t := WriterStep(cfg, s).value;
      Bounds(cfg, z, t) && Contents(cfg, z, t) && Printed(cfg, z, t)
  {
  }

  lemma WriterKeepsContents(cfg: Config, z: nat, s: State)
    requires Inv(cfg, z, s) && WriterStep(cfg, s).Some?
    ensures
      var t := WriterStep(cfg, s).value;
      Bounds(cfg, z, t) && Contents(cfg, z, t) && Printed(cfg, z, t)
  {
    match s.writer {
      case Store => StoringKeepsContents(cfg, z, s);
      case Override => StoringKeepsContents(cfg, z, s);
      case PostTwo => PostingKeepsContents(cfg, z, s);
      case WriterTest => TestingKeepsContents(cfg, z, s);
      case _ => WaitingKeepsContents(cfg, z, s);
    }
  }

  /** What the reader has been let through to read has been posted. */
  lemma ReadsPosted(s: State)
    requires Counts(s) && ReaderHolds(s.reader)
    ensures s.r == s.answered < s.posted
  {
  }

  lemma ReaderKeepsBounds(cfg: Config, z: nat, s: State)
    requires ReaderStep(s).Some? && Cursors(s) && Bounds(cfg, z, s) && (ReaderHolds(s.reader) ==> s.answered < s.posted)
    ensures Bounds(cfg, z, ReaderStep(s).value)
  {
  }

  lemma ReaderKeepsContents(cfg: Config, z: nat, s: State)
    requires ReaderStep(s).Some? && Bounds(cfg, z, s) && Bounds(cfg, z, ReaderStep(s).value) && Contents(cfg, z, s)
    ensures Contents(cfg, z, ReaderStep(s).value)
  {
    var t := ReaderStep(s).value;
    assert t.cells == s.cells && t.w == s.w && t.posted == s.posted && t.writer == s.writer && t.running == s.running;
  }

  lemma ReaderKeepsAll(cfg: Config, z: nat, s: State)
    requires Inv(cfg, z, s) && ReaderStep(s).Some?
    ensures
      var t := ReaderStep(s).value;
      Bounds(cfg, z, t) && Contents(cfg, z, t) && Printed(cfg, z, t)
  {
    if ReaderHolds(s.reader) {
      ReadsPosted(s);
    }
    ReaderKeepsBounds(cfg, z, s);
    ReaderKeepsContents(cfg, z, s);
    ReaderKeepsPrinted(cfg, z, s);
  }

  lemma ReaderKeepsPrinted(cfg: Config, z: nat, s: State)
    requires ReaderStep(s).Some? && Bounds(cfg, z, s) && Bounds(cfg, z, ReaderStep(s).value)
    requires Cursors(s) && Printed(cfg, z, s) && (ReaderHolds(s.reader) ==> s.r < s.posted)
    ensures Printed(cfg, z, ReaderStep(s).value)
  {
  }

  lemma SignalKeepsAll(cfg: Config, z: nat, s: State, l: Label)
    requires Bounds(cfg, z, s) && Contents(cfg, z, s) && Printed(cfg, z, s) && Step(cfg, s, l).Some?
    requires l == Signal || l == SignalDuringWait
    ensures
      var t := Step(cfg, s, l).value;
      Bounds(cfg, z, t) && Contents(cfg, z, t) && Printed(cfg, z, t)
  {
  }

  lemma StepKeepsInv(cfg: Config, z: nat, s: State, l: Label)
    requires Inv(cfg, z, s) && Step(cfg, s, l).Some?
    ensures Inv(cfg, z, Step(cfg, s, l).value)
  {
    StepKeepsCounts(cfg, s, l);
    match l {
      case WriterMoves => WriterKeepsContents(cfg, z, s);
      case ReaderMoves => ReaderKeepsAll(cfg, z, s);
      case _ => SignalKeepsAll(cfg, z, s, l);
    }
  }

  ghost predicate Reachable(cfg: Config, z: nat, cells: seq<char>, labels: seq<Label>, s: State) {
    FirstEnd(cfg, z) && |cells| == cfg.window && Exec(Machine(cfg), Init(cfg, cells), labels) == Some(s)
  }

  lemma ReachableInv(cfg: Config, z: nat, cells: seq<char>, labels: seq<Label>, s: State)
    requires Reachable(cfg, z, cells, labels, s)
    ensures Inv(cfg, z, s)
  {
    forall s, l | Inv(cfg, z, s) && Machine(cfg)(s, l).Some?
      ensures Inv(cfg, z, Machine(cfg)(s, l).value)
    {
      StepKeepsInv(cfg, z, s, l);
    }
    Invariance(Machine(cfg), s => Inv(cfg, z, s), Init(cfg, cells), labels);
  }

  function IsInterrupt(l: Label): bool { l.SignalDuringWait? }
  function IsSignal(l: Label): bool { l.Signal? || l.SignalDuringWait? }

  lemma {:induction false} SignalStops(cfg: Config, s: State, labels: seq<Label>, t: State)
    requires Exec(Machine(cfg), s, labels) == Some(t)
    ensures t.running <==> s.running && HowMany(labels, IsSignal) == 0
    decreases |labels|
  {
    if labels != [] {
      SignalStops(cfg, Step(cfg, s, labels[0]).value, labels[1..], t);
    }
  }

  /** The waits counted as interrupted are those that a signal has ended, and `running` is cleared by
      signals alone. */
  lemma SignalsDecide(cfg: Config, z: nat, cells: seq<char>, labels: seq<Label>, s: State)
    requires Reachable(cfg, z, cells, labels, s)
    ensures s.interrupted == HowMany(labels, IsInterrupt)
    ensures s.running <==> HowMany(labels, IsSignal) == 0
  {
    SignalStops(cfg, Init(cfg, cells), labels, s);
    Tallying(Machine(cfg), (s: State) => s.interrupted, IsInterrupt, Init(cfg, cells), labels);
  }

  // ----- theorems -----

  /** The writer is never more than one post ahead of the reader for each interrupted wait; with no
      wait interrupted they alternate strictly. The C++ writer's waits are never interrupted. */
  lemma InStep(cfg: Config, z: nat, cells: seq<char>, labels: seq<Label>, s: State)
    requires Reachable(cfg, z, cells, labels, s)
    ensures 0 <= s.posted - s.answered <= 1 + s.interrupted
    ensures s.interrupted == 0 ==> s.posted - s.answered == 0 || s.posted - s.answered == 1
    ensures cfg.writer == CppWriter ==> s.interrupted == 0
  {
    ReachableInv(cfg, z, cells, labels, s);
  }

  lemma Move(cfg: Config, z: nat, cells: seq<char>, labels: seq<Label>, s: State, l: Label) returns (longer: seq<Label>, t: State)
    requires Reachable(cfg, z, cells, labels, s) && Step(cfg, s, l).Some?
    ensures Reachable(cfg, z, cells, longer, t) && Some(t) == Step(cfg, s, l)
  {
    longer := labels + [l];
    t := Step(cfg, s, l).value;
    ExecSnoc(Machine(cfg), Init(cfg, cells), labels, l);
  }

  /** Await, store, override, post. */
  lemma PostsOne(cfg: Config, z: nat, cells: seq<char>, labels: seq<Label>, s: State) returns (longer: seq<Label>, t: State)
    requires Reachable(cfg, z, cells, labels, s) && cfg.writer == CWriter && s.writer == Store && s.w < |s.cells|
    ensures Reachable(cfg, z, cells, longer, t)
    ensures t.writer == WriterTest && t.posted == s.posted + 1 && t.one == s.one && t.w == s.w && |t.cells| == |s.cells|
    ensures t.answered == s.answered && t.interrupted == s.interrupted
    ensures s.running ==> t.cells[s.w] == Input(cfg, s.w)
  {
    longer, t := Move(cfg, z, cells, labels, s, WriterMoves);
    longer, t := Move(cfg, z, cells, longer, t, WriterMoves);
    longer, t := Move(cfg, z, cells, longer, t, WriterMoves);
  }

  /** If any byte precedes the end mark, a signal during the C writer's second wait puts it two
      posts ahead. */
  lemma InterruptBreaksStep(cfg: Config, z: nat, cells: seq<char>) returns (labels: seq<Label>, s: State)
    requires FirstEnd(cfg, z) && |cells| == cfg.window && cfg.writer == CWriter && z >= 1
    ensures Reachable(cfg, z, cells, labels, s) && s.interrupted == 1 && s.posted - s.answered == 2
  {
    labels, s := [], Init(cfg, cells);
    labels, s := Move(cfg, z, cells, labels, s, ReaderMoves);
    labels, s := Move(cfg, z, cells, labels, s, WriterMoves);
    labels, s := Move(cfg, z, cells, labels, s, WriterMoves);
    labels, s := Move(cfg, z, cells, labels, s, WriterMoves);
    labels, s := PostsOne(cfg, z, cells, labels, s);
    labels, s := Move(cfg, z, cells, labels, s, WriterMoves);
    labels, s := Move(cfg, z, cells, labels, s, SignalDuringWait);
    labels, s := PostsOne(cfg, z, cells, labels, s);
  }

  ghost predicate AlwaysInStep(cfg: Config, z: nat, cells: seq<char>) {
    forall labels, s :: Reachable(cfg, z, cells, labels, s) ==> 0 <= s.posted - s.answered <= 1
  }

  /** Exactly when every run, signals included, keeps writer and reader in step: with the C++ writer,
      or when the input starts with its end mark. */
  lemma WhenAlwaysInStep(cfg: Config, z: nat, cells: seq<char>)
    requires FirstEnd(cfg, z) && |cells| == cfg.window
    ensures AlwaysInStep(cfg, z, cells) <==> (cfg.writer == CppWriter || z == 0)
  {
    if cfg.writer == CppWriter || z == 0 {
      forall labels, s | Reachable(cfg, z, cells, labels, s)
        ensures 0 <= s.posted - s.answered <= 1
      {
        ReachableInv(cfg, z, cells, labels, s);
      }
    } else {
      var labels, s := InterruptBreaksStep(cfg, z, cells);
    }
  }

  /** A byte that has been posted never changes again, so both loop tests that read it after the
      post see what was posted. */
  lemma PostedBytesAreStable(cfg: Config, z: nat, cells: seq<char>, labels: seq<Label>, s: State, l: Label)
    requires Reachable(cfg, z, cells, labels, s) && Step(cfg, s, l).Some?
    ensures
      var t := Step(cfg, s, l).value;
      |t.cells| == |s.cells| && s.posted <= |s.cells| && t.cells[..s.posted] == s.cells[..s.posted]
  {
    ReachableInv(cfg, z, cells, labels, s);
  }

  /** The reader has printed a prefix of what was posted. When both are done it has printed all of
      it: the input up to its end mark, cut short by a '0' only if a signal cleared `running`. */
  lemma ReaderPrintsWhatWasStored(cfg: Config, z: nat, cells: seq<char>, labels: seq<Label>, s: State)
    requires Reachable(cfg, z, cells, labels, s)
    ensures |s.out| <= s.posted <= |s.cells| && s.out == s.cells[..|s.out|]
    ensures s.writer == WriterDone && s.reader == ReaderDone ==>
      && 1 <= |s.out| == s.posted <= z + 1
      && s.out == cfg.input[..|s.out| - 1] + ['0']
      && (s.running ==> s.out == cfg.input[..z + 1])
  {
    ReachableInv(cfg, z, cells, labels, s);
    if s.writer == WriterDone && s.reader == ReaderDone {
      assert s.r == s.w;
    }
  }

  /** How many more bytes the writer may post once `running` is cleared. */
  function Quota(s: State): nat {
    match s.writer
    case PostTwo => if s.w < |s.cells| && s.cells[s.w] == '0' then 1 else 2
    case WriterTest => if s.w < |s.cells| && s.cells[s.w] == '0' then 0 else 1
    case WriterDone => 0
    case _ => 1
  }

  lemma StepKeepsQuota(cfg: Config, s: State, l: Label)
    requires cfg.writer == CWriter && !s.running && (s.writer != WriterDone ==> s.w < |s.cells|) && Step(cfg, s, l).Some?
    ensures
      var t := Step(cfg, s, l).value;
      !t.running && |t.cells| == |s.cells| && t.posted + Quota(t) <= s.posted + Quota(s)
  {
  }

  lemma {:induction false} QuotaBounds(cfg: Config, z: nat, s: State, labels: seq<Label>, t: State)
    requires Inv(cfg, z, s) && !s.running && Exec(Machine(cfg), s, labels) == Some(t)
    ensures t.posted + Quota(t) <= s.posted + Quota(s)
    decreases |labels|
  {
    if labels != [] {
      StepKeepsInv(cfg, z, s, labels[0]);
      StepKeepsQuota(cfg, s, labels[0]);
      QuotaBounds(cfg, z, Step(cfg, s, labels[0]).value, labels[1..], t);
    }
  }

  /** Once a signal has cleared `running`, the C writer posts at most one more byte after the one it
      may already be committed to, and with it the end mark. */
  lemma SignalEndsWriting(cfg: Config, z: nat, cells: seq<char>, before: seq<Label>, s: State, after: seq<Label>, t: State)
    requires Reachable(cfg, z, cells, before, s) && !s.running && Exec(Machine(cfg), s, after) == Some(t)
    ensures t.posted <= s.posted + (if s.writer == PostTwo then 2 else 1)
  {
    ReachableInv(cfg, z, cells, before, s);
    QuotaBounds(cfg, z, s, after, t);
  }

  predicate Finished(s: State) {
    s.writer == WriterDone && s.reader == ReaderDone
  }

  /** Until both are done one of them can move, signals aside. */
  lemma NeverStuck(cfg: Config, z: nat, cells: seq<char>, labels: seq<Label>, s: State) returns (l: Label)
    requires Reachable(cfg, z, cells, labels, s) && !Finished(s)
    ensures l == WriterMoves || l == ReaderMoves
    ensures Step(cfg, s, l).Some?
  {
    ReachableInv(cfg, z, cells, labels, s);
    if WriterStep(cfg, s).Some? {
      l := WriterMoves;
    } else {
      l := ReaderMoves;
    }
  }

  /** Each side is held up only by its waits, the window is large enough for every access; a first signal can
      reach the C writer at any time and the C++ writer never, and a signal can end exactly a wait that blocks. */
  lemma WhenStepsArePossible(cfg: Config, z: nat, cells: seq<char>, labels: seq<Label>, s: State)
    requires Reachable(cfg, z, cells, labels, s)
    ensures Step(cfg, s, WriterMoves).Some? <==>
      s.writer != WriterDone && (s.writer == Handshake || s.writer == AwaitOne ==> s.one > 0)
    ensures Step(cfg, s, ReaderMoves).Some? <==> s.reader != ReaderDone && (s.reader == AwaitTwo ==> s.two > 0)
    ensures Step(cfg, s, Signal).Some? <==> cfg.writer == CWriter && HowMany(labels, IsSignal) == 0
    ensures Step(cfg, s, SignalDuringWait).Some? <==>
      && cfg.writer == CWriter && s.writer != WriterDone
      && Step(cfg, s, WriterMoves).None?
  {
    ReachableInv(cfg, z, cells, labels, s);
    SignalsDecide(cfg, z, cells, labels, s);
  }

  function WriterRank(pc: WriterPc): nat {
    match pc
    case Handshake => 6
    case Repost => 5
    case AwaitOne => 4
    case Store => 3
    case Override => 2
    case PostTwo => 1
    case WriterTest => 5
    case WriterDone => 0
  }

  function ReaderRank(pc: ReaderPc): nat {
    match pc
    case Announce => 4
    case AwaitTwo => 3
    case Print => 2
    case PostOne => 1
    case ReaderTest => 4
    case ReaderDone => 0
  }

  function Rank(z: nat, s: State): nat {
    if s.posted <= z + 1 && s.answered <= z + 1
    then 6 * (z + 1 - s.posted) + WriterRank(s.writer) + 6 * (z + 1 - s.answered) + ReaderRank(s.reader) + Bit(s.running)
    else 0
  }

  lemma StepDescends(cfg: Config, z: nat, s: State, l: Label)
    requires Step(cfg, s, l).Some?
    requires s.posted <= z + 1 && s.answered <= z + 1
    requires Step(cfg, s, l).value.posted <= z + 1 && Step(cfg, s, l).value.answered <= z + 1
    ensures Rank(z, Step(cfg, s, l).value) + 1 <= Rank(z, s)
  {
  }

  /** Every schedule is finite. */
  lemma SchedulesAreBounded(cfg: Config, z: nat, cells: seq<char>, labels: seq<Label>, s: State)
    requires Reachable(cfg, z, cells, labels, s)
    ensures |labels| <= 12 * z + 23
  {
    forall s, l | Inv(cfg, z, s) && Machine(cfg)(s, l).Some?
      ensures Inv(cfg, z, Machine(cfg)(s, l).value)
      ensures Rank(z, Machine(cfg)(s, l).value) + 1 <= Rank(z, s)
    {
      StepKeepsInv(cfg, z, s, l);
      StepDescends(cfg, z, s, l);
    }
    PaceBounds(Machine(cfg), s => Inv(cfg, z, s), s => Rank(z, s), _ => 0, 0, 12 * z + 23, Init(cfg, cells), labels);
  }

  // ----- what can be printed -----

  /** Both sides have dealt with the first k bytes and are about to go on to the next. */
  predicate AtByte(cfg: Config, k: nat, s: State) {
    && s.writer == AwaitOne && s.reader == AwaitTwo && s.one == 1 && s.two == 0 && s.running
    && s.w == s.r == k && k <= |cfg.input| && s.out == cfg.input[..k] && |s.cells| == cfg.window && s.interrupted == 0
  }

  lemma Meet(cfg: Config, z: nat, cells: seq<char>) returns (labels: seq<Label>, s: State)
    requires FirstEnd(cfg, z) && |cells| == cfg.window
    ensures Reachable(cfg, z, cells, labels, s) && AtByte(cfg, 0, s)
  {
    labels, s := [], Init(cfg, cells);
    labels, s := Move(cfg, z, cells, labels, s, ReaderMoves);
    if cfg.writer == CWriter {
      labels, s := Move(cfg, z, cells, labels, s, WriterMoves);
      labels, s := Move(cfg, z, cells, labels, s, WriterMoves);
    }
  }

  /** The writer stores and posts the next byte, or the end mark when a signal has come, and tests it. */
  lemma WritesByte(cfg: Config, z: nat, cells: seq<char>, labels: seq<Label>, s: State, x: char)
    returns (longer: seq<Label>, t: State)
    requires Reachable(cfg, z, cells, labels, s) && s.writer == AwaitOne && s.one == 1 && s.w < |s.cells|
    requires x == (if cfg.writer == CWriter && !s.running then '0' else Input(cfg, s.w))
    ensures Reachable(cfg, z, cells, longer, t)
    ensures t == s.(one := 0, cells := s.cells[s.w := x], two := s.two + 1, posted := s.posted + 1, w := s.w + 1,
                    writer := if x != '0' then AwaitOne else WriterDone)
  {
    longer, t := Move(cfg, z, cells, labels, s, WriterMoves);
    longer, t := Move(cfg, z, cells, longer, t, WriterMoves);
    if cfg.writer == CWriter {
      longer, t := Move(cfg, z, cells, longer, t, WriterMoves);
    }
    assert t == s.(one := 0, cells := s.cells[s.w := x], writer := PostTwo);
    longer, t := Move(cfg, z, cells, longer, t, WriterMoves);
    longer, t := Move(cfg, z, cells, longer, t, WriterMoves);
  }

  /** The reader prints it, answers and tests it. */
  lemma ReadsByte(cfg: Config, z: nat, cells: seq<char>, labels: seq<Label>, s: State)
    returns (longer: seq<Label>, t: State)
    requires Reachable(cfg, z, cells, labels, s) && s.reader == AwaitTwo && s.two > 0 && s.r < |s.cells|
    ensures Reachable(cfg, z, cells, longer, t)
    ensures t == s.(two := s.two - 1, out := s.out + [s.cells[s.r]], one := s.one + 1, answered := s.answered + 1,
                    r := s.r + 1, reader := if s.cells[s.r] != '0' then AwaitTwo else ReaderDone)
  {
    longer, t := Move(cfg, z, cells, labels, s, ReaderMoves);
    longer, t := Move(cfg, z, cells, longer, t, ReaderMoves);
    longer, t := Move(cfg, z, cells, longer, t, ReaderMoves);
    longer, t := Move(cfg, z, cells, longer, t, ReaderMoves);
  }

  lemma {:induction false} PrintsPrefix(cfg: Config, z: nat, cells: seq<char>, k: nat) returns (labels: seq<Label>, s: State)
    requires FirstEnd(cfg, z) && |cells| == cfg.window && k <= z
    ensures Reachable(cfg, z, cells, labels, s) && AtByte(cfg, k, s)
    decreases k
  {
    if k == 0 {
      labels, s := Meet(cfg, z, cells);
    } else {
      labels, s := PrintsPrefix(cfg, z, cells, k - 1);
      labels, s := WritesByte(cfg, z, cells, labels, s, cfg.input[k - 1]);
      labels, s := ReadsByte(cfg, z, cells, labels, s);
    }
  }

  /** The output with which a run ends: the first k bytes and an end mark. */
  function Output(cfg: Config, k: nat): seq<char>
    requires k <= |cfg.input|
  {
    cfg.input[..k] + ['0']
  }

  /** A signal at any byte before the end mark, without ending a wait, ends the output there. */
  lemma SignalCutsShort(cfg: Config, z: nat, cells: seq<char>, k: nat) returns (labels: seq<Label>, s: State)
    requires FirstEnd(cfg, z) && |cells| == cfg.window && k <= z && (cfg.writer == CppWriter ==> k == z)
    ensures Reachable(cfg, z, cells, labels, s) && Finished(s) && s.out == Output(cfg, k) && s.interrupted == 0
  {
    labels, s := PrintsPrefix(cfg, z, cells, k);
    if k < z {
      labels, s := Move(cfg, z, cells, labels, s, Signal);
    }
    labels, s := WritesByte(cfg, z, cells, labels, s, '0');
    labels, s := ReadsByte(cfg, z, cells, labels, s);
  }

  /** Some finished run prints exactly this. */
  ghost predicate CanPrint(cfg: Config, cells: seq<char>, out: seq<char>) {
    exists labels ::
      && Exec(Machine(cfg), Init(cfg, cells), labels).Some?
      && Finished(Exec(Machine(cfg), Init(cfg, cells), labels).value)
      && Exec(Machine(cfg), Init(cfg, cells), labels).value.out == out
  }

  /** The outputs of finished runs are exactly these: with the C++ writer the input up to its end mark; with
      the C writer, whom a signal can reach at any byte, also every shorter prefix with an end mark. */
  lemma WhatCanBePrinted(cfg: Config, z: nat, cells: seq<char>, out: seq<char>)
    requires FirstEnd(cfg, z) && |cells| == cfg.window
    ensures CanPrint(cfg, cells, out) <==>
      exists k :: 0 <= k <= z && out == Output(cfg, k) && (cfg.writer == CppWriter ==> k == z)
  {
    if CanPrint(cfg, cells, out) {
      var labels :| Exec(Machine(cfg), Init(cfg, cells), labels).Some?
        && Finished(Exec(Machine(cfg), Init(cfg, cells), labels).value)
        && Exec(Machine(cfg), Init(cfg, cells), labels).value.out == out;
      var s := Exec(Machine(cfg), Init(cfg, cells), labels).value;
      ReaderPrintsWhatWasStored(cfg, z, cells, labels, s);
      ReachableInv(cfg, z, cells, labels, s);
      assert out == Output(cfg, |out| - 1);
    }
    if k :| 0 <= k <= z && out == Output(cfg, k) && (cfg.writer == CppWriter ==> k == z) {
      var labels, s := SignalCutsShort(cfg, z, cells, k);
      assert Exec(Machine(cfg), Init(cfg, cells), labels) == Some(s);
    }
  }
}

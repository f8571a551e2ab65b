/** Two processes that talk in turns over two pipes until a message starting with '0' passes
    (c/ipc/message_passing/pipe/twowaypipe.c, cpp/ipc/message_passing/pipe/twowaypipe.cc). Both run the
    same loop: the parent enters it where it types, the child where it reads. Typed input is
    arbitrary, and so are the message buffers at the start. The C program installs a signal handler
    without restart and never looks at the result of `read`: a signal clears `running`, after which
    the process types '0', and a signal that meets a process blocked in `read`, on an empty pipe, ends
    that read with the message unchanged. The C++ program has no handler. A write whose reader has left is taken to be
    harmless: the message stays in the pipe. */
module TwoWayPipe {
  import opened Transitions

  type Msg = string

  datatype Lang = CLang | CppLang

  /** The end test of both loops: the first character is '0'. */
  predicate Ends(m: Msg) {
    |m| > 0 && m[0] == '0'
  }

  /** What a process with `running` cleared sends: its old message with the first character, and only
      that, replaced. */
  function EndMark(m: Msg): (e: Msg)
    ensures Ends(e) && |e| == (if m == [] then 1 else |m|)
    ensures forall k :: 1 <= k < |m| ==> e[k] == m[k]
  {
    if m == [] then "0" else ['0'] + m[1..]
  }

  datatype Pc = Type | Send | Read | Test | Echo | Done

  /** `inbox` is the pipe this process reads; `sent`, `got` and `cut`, the number of its reads that a
      signal has ended, are history. */
  datatype Side = Side(pc: Pc, msg: Msg, running: bool, inbox: seq<Msg>, sent: seq<Msg>, got: seq<Msg>, cut: nat)

  datatype State = State(parent: Side, child: Side)

  datatype Who = Parent | Child

  datatype Label =
    | Moves(who: Who, typed: Msg)
    | Signal(who: Who)        // meets the process outside read, or just before it blocks there
    | CutRead(who: Who)       // ends the read the process is blocked in

  function Init(parentBuffer: Msg, childBuffer: Msg): State {
    State(Side(Type, parentBuffer, true, [], [], [], 0), Side(Read, childBuffer, true, [], [], [], 0))
  }

  /** One statement of the loop; the second component is the peer, whose inbox a write fills. */
  function Turn(me: Side, peer: Side, typed: Msg): Option<(Side, Side)> {
    match me.pc
    case Type => Some((me.(msg := if me.running then typed else EndMark(me.msg), pc := Send), peer))
    case Send => Some((me.(sent := me.sent + [me.msg], pc := Read), peer.(inbox := peer.inbox + [me.msg])))
    case Read =>
      if me.inbox == [] then None
      else Some((me.(msg := me.inbox[0], inbox := me.inbox[1..], got := me.got + [me.inbox[0]], pc := Test), peer))
    case Test => Some((me.(pc := if Ends(me.msg) then Echo else Type), peer))
    case Echo => Some((me.(sent := me.sent + [me.msg], pc := Done), peer.(inbox := peer.inbox + [me.msg])))
    case Done => None
  }

  function Event(me: Side, peer: Side, l: Label): Option<(Side, Side)> {
    match l
    case Moves(_, typed) => Turn(me, peer, typed)
    case Signal(_) => if me.running then Some((me.(running := false), peer)) else None
    case CutRead(_) =>
      if me.pc == Read && me.inbox == []
      then Some((me.(running := false, cut := me.cut + 1, pc := Test), peer))
      else None
  }

  function Step(lang: Lang, s: State, l: Label): Option<State> {
    if lang == CppLang && !l.Moves? then None
    else if l.who == Parent then
      match Event(s.parent, s.child, l)
      case None => None
      case Some((me, peer)) => Some(State(me, peer))
    else
      match Event(s.child, s.parent, l)
      case None => None
      case Some((me, peer)) => Some(State(peer, me))
  }

  function Machine(lang: Lang): (State, Label) -> Option<State> {
    (s, l) => Step(lang, s, l)
  }

  ghost predicate Reachable(lang: Lang, buffers: (Msg, Msg), labels: seq<Label>, s: State) {
    Exec(Machine(lang), Init(buffers.0, buffers.1), labels) == Some(s)
  }

  /** Reads that a signal has ended. */
  function Cuts(s: State): nat {
    s.parent.cut + s.child.cut
  }

  function InFlight(s: State): nat {
    |s.parent.inbox| + |s.child.inbox|
  }

  // ----- end marks in a sequence of messages -----

  predicate SomeEnd(ms: seq<Msg>) {
    exists i :: 0 <= i < |ms| && Ends(ms[i])
  }

  lemma SomeEndJoins(first: seq<Msg>, second: seq<Msg>)
    ensures SomeEnd(first + second) <==> SomeEnd(first) || SomeEnd(second)
  {
    var all := first + second;
    if SomeEnd(first) {
      var i :| 0 <= i < |first| && Ends(first[i]);
      assert Ends(all[i]);
    }
    if SomeEnd(second) {
      var i :| 0 <= i < |second| && Ends(second[i]);
      assert Ends(all[|first| + i]);
    }
  }

  lemma SomeEndOne(ms: seq<Msg>, m: Msg)
    ensures SomeEnd(ms + [m]) <==> SomeEnd(ms) || Ends(m)
  {
    SomeEndJoins(ms, [m]);
    assert Ends(m) ==> Ends([m][0]);
  }

  lemma SomeEndFirst(ms: seq<Msg>)
    requires ms != []
    ensures SomeEnd(ms) <==> Ends(ms[0]) || SomeEnd(ms[1..])
  {
    assert ms == [ms[0]] + ms[1..];
    SomeEndJoins([ms[0]], ms[1..]);
    assert Ends(ms[0]) ==> Ends([ms[0]][0]);
  }

  /** How many messages a reader takes up to and including the first end mark. */
  function UpToEnd(ms: seq<Msg>): (k: nat)
    ensures k <= |ms|
  {
    if ms == [] then 0 else if Ends(ms[0]) then 1 else 1 + UpToEnd(ms[1..])
  }

  lemma {:induction false} UpToEndGrows(ms: seq<Msg>, m: Msg)
    ensures SomeEnd(ms) ==> UpToEnd(ms + [m]) == UpToEnd(ms)
    ensures !SomeEnd(ms) ==> UpToEnd(ms + [m]) == |ms| + 1
    decreases |ms|
  {
    if ms != [] {
      assert (ms + [m])[1..] == ms[1..] + [m];
      SomeEndFirst(ms);
      UpToEndGrows(ms[1..], m);
    }
  }

  // ----- invariant -----

  /** Between a read, finished or cut short, and the write that answers it. */
  function Hand(me: Side): nat {
    if me.pc == Read || me.pc == Done then 0 else 1
  }

  /** On its way out of the loop. */
  predicate Leaving(me: Side) {
    (me.pc == Test && Ends(me.msg)) || me.pc == Echo || me.pc == Done
  }

  predicate SideInv(me: Side) {
    && (me.pc == Echo ==> Ends(me.msg))
    && (me.pc == Done ==> me.sent != [] && Ends(me.sent[|me.sent| - 1]))
    && (SomeEnd(me.got) ==> Leaving(me))
    && (me.cut > 0 ==> !me.running)
    && (me.cut == 1 && (me.pc == Send || me.pc == Read) ==> Ends(me.msg))
    && (me.cut == 1 && me.pc == Read ==> SomeEnd(me.sent))
    && (me.cut > 1 ==> me.cut == 2 && Leaving(me) && SomeEnd(me.sent))
  }

  predicate Mail(me: Side, peer: Side) {
    me.sent == peer.got + peer.inbox
  }

  predicate PairInv(me: Side, peer: Side) {
    && SideInv(me) && SideInv(peer) && Mail(me, peer) && Mail(peer, me)
    && Hand(me) + Hand(peer) + |me.inbox| + |peer.inbox| == 1 + me.cut + peer.cut
    && me.cut + peer.cut <= 3
  }

  predicate Inv(s: State) {
    PairInv(s.parent, s.child)
  }

  lemma EventKeepsSide(me: Side, peer: Side, l: Label)
    requires SideInv(me) && Event(me, peer, l).Some?
    ensures SideInv(Event(me, peer, l).value.0)
  {
    if l.Moves? && me.pc == Read {
      SomeEndOne(me.got, me.inbox[0]);
    }
    SomeEndOne(me.sent, me.msg);
  }

  lemma EventKeepsMail(me: Side, peer: Side, l: Label)
    requires Mail(me, peer) && Mail(peer, me) && Event(me, peer, l).Some?
    ensures
      var (me', peer') := Event(me, peer, l).value;
      && Mail(me', peer') && Mail(peer', me') && peer' == peer.(inbox := peer'.inbox)
      && Hand(me') + |me'.inbox| + |peer'.inbox| - me'.cut == Hand(me) + |me.inbox| + |peer.inbox| - me.cut
  {
  }

  /** A process that was cut twice has sent an end mark, so its peer is never blocked again. */
  lemma CutsAreFew(me: Side, peer: Side)
    requires PairInv(me, peer) && me.pc == Read && me.inbox == []
    ensures me.cut <= 1 && peer.cut <= 1
  {
    assert peer.sent == me.got;
  }

  lemma EventKeepsInv(me: Side, peer: Side, l: Label)
    requires PairInv(me, peer) && Event(me, peer, l).Some?
    ensures PairInv(Event(me, peer, l).value.0, Event(me, peer, l).value.1)
  {
    EventKeepsSide(me, peer, l);
    EventKeepsMail(me, peer, l);
    if l.CutRead? {
      CutsAreFew(me, peer);
    }
  }

  lemma StepKeepsInv(lang: Lang, s: State, l: Label)
    requires Inv(s) && Step(lang, s, l).Some?
    ensures Inv(Step(lang, s, l).value)
  {
    if l.who == Parent {
      EventKeepsInv(s.parent, s.child, l);
    } else {
      EventKeepsInv(s.child, s.parent, l);
    }
  }

  lemma ReachableInv(lang: Lang, buffers: (Msg, Msg), labels: seq<Label>, s: State)
    requires Reachable(lang, buffers, labels, s)
    ensures Inv(s)
  {
    forall s, l | Inv(s) && Machine(lang)(s, l).Some?
      ensures Inv(Machine(lang)(s, l).value)
    {
      StepKeepsInv(lang, s, l);
    }
    Invariance(Machine(lang), Inv, Init(buffers.0, buffers.1), labels);
  }

  /** Messages in flight and in hand are one more than the reads cut short, of which there are at most
      two for a process and three in all, and each side receives the other's messages in order, none lost, none made up. */
  lemma InFlightInOrder(lang: Lang, buffers: (Msg, Msg), labels: seq<Label>, s: State)
    requires Reachable(lang, buffers, labels, s)
    ensures InFlight(s) + Hand(s.parent) + Hand(s.child) == 1 + Cuts(s)
    ensures s.parent.cut <= 2 && s.child.cut <= 2 && Cuts(s) <= 3
    ensures s.parent.sent == s.child.got + s.child.inbox
    ensures s.child.sent == s.parent.got + s.parent.inbox
  {
    ReachableInv(lang, buffers, labels, s);
  }

  function IsCut(l: Label): bool { l.CutRead? }

  function Signals(who: Who): Label -> bool {
    (l: Label) => !l.Moves? && l.who == who
  }

  lemma {:induction false} SignalsStop(lang: Lang, s: State, labels: seq<Label>, t: State)
    requires Exec(Machine(lang), s, labels) == Some(t)
    ensures t.parent.running <==> s.parent.running && HowMany(labels, Signals(Parent)) == 0
    ensures t.child.running <==> s.child.running && HowMany(labels, Signals(Child)) == 0
    decreases |labels|
  {
    if labels != [] {
      SignalsStop(lang, Step(lang, s, labels[0]).value, labels[1..], t);
    }
  }

  /** The reads cut are those that a signal has ended, and a process runs on until a signal reaches it. */
  lemma SignalsDecide(lang: Lang, buffers: (Msg, Msg), labels: seq<Label>, s: State)
    requires Reachable(lang, buffers, labels, s)
    ensures Cuts(s) == HowMany(labels, IsCut)
    ensures s.parent.running <==> HowMany(labels, Signals(Parent)) == 0
    ensures s.child.running <==> HowMany(labels, Signals(Child)) == 0
  {
    SignalsStop(lang, Init(buffers.0, buffers.1), labels, s);
    forall s, l | Machine(lang)(s, l).Some?
      ensures Cuts(Machine(lang)(s, l).value) == Cuts(s) + (if IsCut(l) then 1 else 0)
    {
    }
    Tallying(Machine(lang), (s: State) => Cuts(s), IsCut, Init(buffers.0, buffers.1), labels);
  }

  predicate Finished(s: State) {
    s.parent.pc == Done && s.child.pc == Done
  }

  lemma WaitsForMail(me: Side, peer: Side)
    requires PairInv(me, peer) && me.pc == Read && peer.pc == Done
    ensures SomeEnd(me.inbox)
  {
    assert SomeEnd(peer.sent);
    SomeEndJoins(me.got, me.inbox);
  }

  /** Until both have left, a process can move without the help of a signal: nobody waits for a
      message that cannot come. */
  lemma NeverStuck(lang: Lang, buffers: (Msg, Msg), labels: seq<Label>, s: State) returns (l: Label)
    requires Reachable(lang, buffers, labels, s) && !Finished(s)
    ensures l.Moves? && Step(lang, s, l).Some?
  {
    ReachableInv(lang, buffers, labels, s);
    if s.parent.pc == Read && s.child.pc == Done {
      WaitsForMail(s.parent, s.child);
    }
    if s.child.pc == Read && s.parent.pc == Done {
      WaitsForMail(s.child, s.parent);
    }
    l := if Turn(s.parent, s.child, []).Some? then Moves(Parent, []) else Moves(Child, []);
  }

  /** A process is held up only by an empty pipe; in the C program a first signal can reach either at any
      time, and a signal can end exactly a read that blocks; in the C++ program there are none. */
  lemma WhenEventsArePossible(lang: Lang, buffers: (Msg, Msg), labels: seq<Label>, s: State, who: Who, typed: Msg)
    requires Reachable(lang, buffers, labels, s)
    ensures
      var me := if who == Parent then s.parent else s.child;
      && (Step(lang, s, Moves(who, typed)).Some? <==> me.pc != Done && (me.pc == Read ==> me.inbox != []))
      && (Step(lang, s, CutRead(who)).Some? <==>
            lang == CLang && me.pc != Done && Step(lang, s, Moves(who, typed)).None?)
      && (Step(lang, s, Signal(who)).Some? <==> lang == CLang && HowMany(labels, Signals(who)) == 0)
  {
    SignalsDecide(lang, buffers, labels, s);
  }

  // ----- ending -----

  /** Some message starting with '0' has been sent. */
  predicate EndSent(s: State) {
    SomeEnd(s.parent.sent) || SomeEnd(s.child.sent)
  }

  /** This process leaves the loop by what it has, or will find in its pipe. */
  predicate Bound(me: Side) {
    Leaving(me) || SomeEnd(me.inbox)
  }

  function OwnReads(me: Side): nat {
    if Leaving(me) then 0 else UpToEnd(me.inbox)
  }

  /** How often this process can still read a message, when at least one of the two is bound to leave:
      up to the end mark in its pipe, or else all that is in its pipe and still comes. */
  function Reads(me: Side, peer: Side): nat {
    if Bound(me) then OwnReads(me) else |me.inbox| + Hand(peer) + OwnReads(peer)
  }

  /** Steps of the loop left, with r reads to come: four for each, but three for the last. */
  function SideLeft(me: Side, r: nat): int {
    if Leaving(me) then (match me.pc case Test => 2 case Echo => 1 case _ => 0)
    else 4 * r + (match me.pc case Test => 2 case Type => 1 case Send => 0 case _ => -1)
  }

  function Flag(me: Side): nat {
    if me.running then 1 else 0
  }

  function PairLeft(me: Side, peer: Side): int {
    SideLeft(me, Reads(me, peer)) + SideLeft(peer, Reads(peer, me)) + Flag(me) + Flag(peer)
  }

  predicate Closing(me: Side, peer: Side) {
    Bound(me) || Bound(peer)
  }

  lemma LeftIsBounded(me: Side, peer: Side)
    requires PairInv(me, peer) && Closing(me, peer)
    ensures 0 <= PairLeft(me, peer) <= 8 * (1 + me.cut + peer.cut)
  {
  }

  lemma ReadCloses(me: Side, peer: Side)
    requires PairInv(me, peer) && Closing(me, peer) && me.pc == Read && me.inbox != []
    ensures
      var (me', peer') := Turn(me, peer, []).value;
      Closing(me', peer') && PairLeft(me', peer') + 1 <= PairLeft(me, peer)
  {
    SomeEndFirst(me.inbox);
  }

  lemma WriteCloses(me: Side, peer: Side)
    requires PairInv(me, peer) && Closing(me, peer) && (me.pc == Send || me.pc == Echo)
    ensures
      var (me', peer') := Turn(me, peer, []).value;
      Closing(me', peer') && PairLeft(me', peer') + 1 <= PairLeft(me, peer)
  {
    SomeEndOne(peer.inbox, me.msg);
    UpToEndGrows(peer.inbox, me.msg);
  }

  lemma LocalCloses(me: Side, peer: Side, typed: Msg)
    requires Closing(me, peer) && (me.pc == Type || me.pc == Test)
    ensures
      var (me', peer') := Turn(me, peer, typed).value;
      Closing(me', peer') && PairLeft(me', peer') + 1 <= PairLeft(me, peer)
  {
  }

  lemma SignalCloses(me: Side, peer: Side, l: Label)
    requires Closing(me, peer) && !l.Moves? && Event(me, peer, l).Some?
    ensures
      var (me', peer') := Event(me, peer, l).value;
      && Closing(me', peer')
      && PairLeft(me', peer') + 1 <= PairLeft(me, peer) + (if l.CutRead? then 8 else 0)
  {
  }

  lemma EventCloses(me: Side, peer: Side, l: Label)
    requires PairInv(me, peer) && Closing(me, peer) && Event(me, peer, l).Some?
    ensures
      var (me', peer') := Event(me, peer, l).value;
      && Closing(me', peer')
      && PairLeft(me', peer') + 1 <= PairLeft(me, peer) + (if l.CutRead? then 8 else 0)
  {
    if !l.Moves? {
      SignalCloses(me, peer, l);
    } else {
      match me.pc {
        case Read => ReadCloses(me, peer);
        case Send => WriteCloses(me, peer);
        case Echo => WriteCloses(me, peer);
        case Type => LocalCloses(me, peer, l.typed);
        case Test => LocalCloses(me, peer, l.typed);
      }
    }
  }

  // ----- a signal ends the conversation -----

  /** Steps before the end mark that `me`, who has been signalled, is bound to send. */
  function UntilClosing(me: Side, peer: Side): nat {
    (match me.pc
     case Read => 4
     case Test => 3
     case Type => 2
     case Send => if Ends(me.msg) then 1 else 9
     case _ => 0)
    + 4 * |peer.inbox|
    + (match peer.pc
       case Test => 3
       case Type => 2
       case Send => 1
       case _ => 0)
  }

  function QuietLeft(me: Side, peer: Side): int {
    if Closing(me, peer) then PairLeft(me, peer)
    else 8 * (1 + me.cut + peer.cut) + UntilClosing(me, peer) + Flag(peer)
  }

  lemma QuietIsBounded(me: Side, peer: Side)
    requires PairInv(me, peer) && !me.running
    ensures 0 <= QuietLeft(me, peer) <= 18 + 12 * (me.cut + peer.cut)
  {
    if Closing(me, peer) {
      LeftIsBounded(me, peer);
    }
  }

  /** Before the end mark is sent, each step of the signalled process and of its peer brings it nearer. */
  lemma OwnNearer(me: Side, peer: Side, l: Label)
    requires !me.running && !Closing(me, peer) && Event(me, peer, l).Some?
    ensures
      var (me', peer') := Event(me, peer, l).value;
      || Closing(me', peer')
      || UntilClosing(me', peer') + 1 <= UntilClosing(me, peer)
  {
    SomeEndOne(peer.inbox, me.msg);
  }

  lemma PeerNearer(me: Side, peer: Side, l: Label)
    requires !me.running && !Closing(me, peer) && Event(peer, me, l).Some?
    ensures
      var (peer', me') := Event(peer, me, l).value;
      || Closing(me', peer')
      || UntilClosing(me', peer') + Flag(peer') + 1 <= UntilClosing(me, peer) + Flag(peer) + (if l.CutRead? then 4 else 0)
  {
  }

  lemma QuietNearer(me: Side, peer: Side, me': Side, peer': Side, cut: bool)
    requires PairInv(me', peer') && !Closing(me, peer)
    requires me'.cut + peer'.cut == me.cut + peer.cut + (if cut then 1 else 0)
    requires
      || Closing(me', peer')
      || UntilClosing(me', peer') + Flag(peer') + 1 <= UntilClosing(me, peer) + Flag(peer) + (if cut then 4 else 0)
    ensures QuietLeft(me', peer') + 1 <= QuietLeft(me, peer) + (if cut then 12 else 0)
  {
    if Closing(me', peer') {
      LeftIsBounded(me', peer');
      StillToCome(me, peer);
    }
  }

  lemma StillToCome(me: Side, peer: Side)
    requires !Closing(me, peer)
    ensures UntilClosing(me, peer) >= 1
  {
  }

  lemma EventKeepsCuts(me: Side, peer: Side, l: Label)
    requires Event(me, peer, l).Some?
    ensures
      var (me', peer') := Event(me, peer, l).value;
      && me'.cut == me.cut + (if l.CutRead? then 1 else 0) && (!me.running ==> !me'.running)
      && peer' == peer.(inbox := peer'.inbox)
  {
  }

  lemma OwnQuiet(me: Side, peer: Side, l: Label)
    requires PairInv(me, peer) && !me.running && Event(me, peer, l).Some?
    ensures
      var (me', peer') := Event(me, peer, l).value;
      QuietLeft(me', peer') + 1 <= QuietLeft(me, peer) + (if l.CutRead? then 12 else 0)
  {
    var (me', peer') := Event(me, peer, l).value;
    EventKeepsInv(me, peer, l);
    EventKeepsCuts(me, peer, l);
    if Closing(me, peer) {
      EventCloses(me, peer, l);
    } else {
      OwnNearer(me, peer, l);
      QuietNearer(me, peer, me', peer', l.CutRead?);
    }
  }

  lemma PeerQuiet(me: Side, peer: Side, l: Label)
    requires PairInv(me, peer) && !me.running && Event(peer, me, l).Some?
    ensures
      var (peer', me') := Event(peer, me, l).value;
      QuietLeft(me', peer') + 1 <= QuietLeft(me, peer) + (if l.CutRead? then 12 else 0)
  {
    var (peer', me') := Event(peer, me, l).value;
    EventKeepsInv(peer, me, l);
    EventKeepsCuts(peer, me, l);
    if Closing(me, peer) {
      EventCloses(peer, me, l);
    } else {
      PeerNearer(me, peer, l);
      QuietNearer(me, peer, me', peer', l.CutRead?);
    }
  }

  // ----- whole runs -----

  predicate ClosingState(s: State) {
    Inv(s) && Closing(s.parent, s.child)
  }

  function Left(s: State): nat {
    if ClosingState(s) then (LeftIsBounded(s.parent, s.child); PairLeft(s.parent, s.child)) else 0
  }

  lemma StepCloses(lang: Lang, s: State, l: Label)
    requires ClosingState(s) && Step(lang, s, l).Some?
    ensures
      var t := Step(lang, s, l).value;
      && ClosingState(t) && Cuts(s) <= Cuts(t) <= Cuts(s) + 1
      && Left(t) + 1 <= Left(s) + (if Cuts(t) == Cuts(s) then 0 else 8)
  {
    StepKeepsInv(lang, s, l);
    if l.who == Parent {
      EventKeepsCuts(s.parent, s.child, l);
      EventCloses(s.parent, s.child, l);
    } else {
      EventKeepsCuts(s.child, s.parent, l);
      EventCloses(s.child, s.parent, l);
    }
  }

  lemma EndSentCloses(s: State)
    requires Inv(s) && EndSent(s)
    ensures ClosingState(s)
  {
    SomeEndJoins(s.child.got, s.child.inbox);
    SomeEndJoins(s.parent.got, s.parent.inbox);
  }

  /** Once a message starting with '0' has been sent, at most eight more steps are possible, signals
      included, and eight for each read cut short, of which there are at most three; since some
      process can always move until both have left, both leave. */
  lemma EndingIsBounded(lang: Lang, buffers: (Msg, Msg), before: seq<Label>, s: State, after: seq<Label>, t: State)
    requires Reachable(lang, buffers, before, s) && EndSent(s) && Exec(Machine(lang), s, after) == Some(t)
    ensures |after| <= 8 * (1 + Cuts(t)) <= 32
  {
    ReachableInv(lang, buffers, before, s);
    EndSentCloses(s);
    LeftIsBounded(s.parent, s.child);
    forall s, l | ClosingState(s) && Machine(lang)(s, l).Some?
      ensures
        var t := Machine(lang)(s, l).value;
        && ClosingState(t) && Cuts(s) <= Cuts(t) <= Cuts(s) + 1
        && Left(t) + 1 <= Left(s) + (if Cuts(t) == Cuts(s) then 0 else 8)
    {
      StepCloses(lang, s, l);
    }
    PaceBounds(Machine(lang), ClosingState, Left, Cuts, 8, 8 * (1 + Cuts(s)), s, after);
  }

  /** Both leave only after an end mark was sent. What is then unread is one message and one more for
      each read cut short, and each pipe that is not empty ends in an end mark. */
  lemma UnreadAtEnd(lang: Lang, buffers: (Msg, Msg), labels: seq<Label>, s: State)
    requires Reachable(lang, buffers, labels, s) && Finished(s)
    ensures EndSent(s)
    ensures InFlight(s) == 1 + Cuts(s) <= 4
    ensures s.parent.inbox != [] ==> Ends(s.parent.inbox[|s.parent.inbox| - 1])
    ensures s.child.inbox != [] ==> Ends(s.child.inbox[|s.child.inbox| - 1])
  {
    ReachableInv(lang, buffers, labels, s);
  }

  predicate Quiet(who: Who, s: State) {
    Inv(s) && (if who == Parent then !s.parent.running else !s.child.running)
  }

  function QuietSteps(who: Who, s: State): nat {
    if !Quiet(who, s) then 0
    else if who == Parent then (QuietIsBounded(s.parent, s.child); QuietLeft(s.parent, s.child))
    else (QuietIsBounded(s.child, s.parent); QuietLeft(s.child, s.parent))
  }

  lemma QuietPaced(who: Who, lang: Lang, s: State, l: Label)
    requires Quiet(who, s) && Step(lang, s, l).Some?
    ensures
      var t := Step(lang, s, l).value;
      && Quiet(who, t) && Cuts(s) <= Cuts(t) <= Cuts(s) + 1
      && QuietSteps(who, t) + 1 <= QuietSteps(who, s) + (if Cuts(t) == Cuts(s) then 0 else 12)
  {
    StepKeepsInv(lang, s, l);
    var (me, peer) := if who == Parent then (s.parent, s.child) else (s.child, s.parent);
    if l.who == who {
      EventKeepsCuts(me, peer, l);
      OwnQuiet(me, peer, l);
    } else {
      EventKeepsCuts(peer, me, l);
      PeerQuiet(me, peer, l);
    }
  }

  function QuietOf(who: Who): State -> bool {
    s => Quiet(who, s)
  }

  function QuietStepsOf(who: Who): State -> nat {
    s => QuietSteps(who, s)
  }

  lemma QuietMachine(who: Who, lang: Lang)
    ensures Paced(Machine(lang), QuietOf(who), QuietStepsOf(who), Cuts, 12)
  {
    forall s, l | QuietOf(who)(s) && Machine(lang)(s, l).Some?
      ensures
        var t := Machine(lang)(s, l).value;
        && QuietOf(who)(t) && Cuts(s) <= Cuts(t) <= Cuts(s) + 1
        && QuietStepsOf(who)(t) + 1 <= QuietStepsOf(who)(s) + (if Cuts(t) == Cuts(s) then 0 else 12)
    {
      QuietPaced(who, lang, s, l);
    }
  }

  lemma QuietStepsBound(who: Who, s: State)
    requires Quiet(who, s)
    ensures QuietSteps(who, s) <= 18 + 12 * Cuts(s)
  {
    if who == Parent {
      QuietIsBounded(s.parent, s.child);
    } else {
      QuietIsBounded(s.child, s.parent);
    }
  }

  lemma QuietEnds(who: Who, lang: Lang, s: State, after: seq<Label>, t: State)
    requires QuietOf(who)(s) && Exec(Machine(lang), s, after) == Some(t)
    ensures QuietOf(who)(t) && |after| <= 18 + 12 * Cuts(t)
  {
    QuietMachine(who, lang);
    QuietStepsBound(who, s);
    PaceBounds(Machine(lang), QuietOf(who), QuietStepsOf(who), Cuts, 12, 18 + 12 * Cuts(s), s, after);
  }

  /** From the moment a signal has reached either process, every schedule is bounded, whatever the
      other process types and however many reads are cut short; so both loops end. */
  lemma SignalEndsConversation(lang: Lang, buffers: (Msg, Msg), before: seq<Label>, s: State, after: seq<Label>, t: State)
    requires Reachable(lang, buffers, before, s) && Exec(Machine(lang), s, after) == Some(t)
    requires !s.parent.running || !s.child.running
    ensures |after| <= 18 + 12 * Cuts(t) <= 54
  {
    ReachableInv(lang, buffers, before, s);
    QuietEnds(if s.parent.running then Child else Parent, lang, s, after, t);
  }

  // ----- when at most one message is in flight -----

  ghost predicate OneInFlight(lang: Lang, buffers: (Msg, Msg), cuts: nat) {
    forall labels :: Exec(Machine(lang), Init(buffers.0, buffers.1), labels).Some? ==>
      var s := Exec(Machine(lang), Init(buffers.0, buffers.1), labels).value;
      Cuts(s) <= cuts ==> InFlight(s) <= 1
  }

  lemma CppNeverCuts(buffers: (Msg, Msg), labels: seq<Label>, s: State)
    requires Reachable(CppLang, buffers, labels, s)
    ensures Cuts(s) == 0 && s.parent.running && s.child.running
  {
    Invariance(Machine(CppLang), (s: State) => Cuts(s) == 0 && s.parent.running && s.child.running,
               Init(buffers.0, buffers.1), labels);
  }

  /** A signal cuts the parent's read; its '0' and the child's answer to the first message are in
      flight together. */
  lemma CutReadDoubles(buffers: (Msg, Msg)) returns (labels: seq<Label>, s: State)
    ensures Reachable(CLang, buffers, labels, s) && Cuts(s) == 1 && InFlight(s) == 2
  {
    labels := [];
    s := Init(buffers.0, buffers.1);
    labels, s := Extend(buffers, labels, s, Moves(Parent, "a"));
    labels, s := Extend(buffers, labels, s, Moves(Parent, ""));
    labels, s := Extend(buffers, labels, s, CutRead(Parent));
    labels, s := Extend(buffers, labels, s, Moves(Parent, ""));
    labels, s := Extend(buffers, labels, s, Moves(Parent, ""));
    labels, s := Extend(buffers, labels, s, Moves(Parent, ""));
  }

  lemma Extend(buffers: (Msg, Msg), labels: seq<Label>, s: State, l: Label) returns (longer: seq<Label>, t: State)
    requires Reachable(CLang, buffers, labels, s) && Step(CLang, s, l).Some?
    ensures Reachable(CLang, buffers, longer, t) && Some(t) == Step(CLang, s, l)
  {
    longer := labels + [l];
    t := Step(CLang, s, l).value;
    ExecSnoc(Machine(CLang), Init(buffers.0, buffers.1), labels, l);
  }

  /** All runs in which signals cut at most `cuts` reads have at most one message in flight if and
      only if the program installs no handler, as the C++ one, or no read is cut. */
  lemma WhenOneInFlight(lang: Lang, buffers: (Msg, Msg), cuts: nat)
    ensures OneInFlight(lang, buffers, cuts) <==> lang == CppLang || cuts == 0
  {
    if lang == CLang && cuts > 0 {
      var labels, s := CutReadDoubles(buffers);
      assert Exec(Machine(lang), Init(buffers.0, buffers.1), labels).Some?;
    } else {
      forall labels | Exec(Machine(lang), Init(buffers.0, buffers.1), labels).Some?
        ensures
          var s := Exec(Machine(lang), Init(buffers.0, buffers.1), labels).value;
          Cuts(s) <= cuts ==> InFlight(s) <= 1
      {
        var s := Exec(Machine(lang), Init(buffers.0, buffers.1), labels).value;
        ReachableInv(lang, buffers, labels, s);
        if lang == CppLang {
          CppNeverCuts(buffers, labels, s);
        }
      }
    }
  }

  // ----- three reads cut -----

  /** The parent's read is cut, and it stops with its end mark in hand. */
  lemma ParentCut(buffers: (Msg, Msg)) returns (labels: seq<Label>, s: State)
    ensures Reachable(CLang, buffers, labels, s)
    ensures
      && s.parent.pc == Send && s.parent.msg == "0" && !s.parent.running && s.parent.inbox == []
      && s.child.pc == Read && s.child.running && s.child.inbox == ["a"]
  {
    labels := [];
    s := Init(buffers.0, buffers.1);
    labels, s := Extend(buffers, labels, s, Moves(Parent, "a"));
    labels, s := Extend(buffers, labels, s, Moves(Parent, ""));
    labels, s := Extend(buffers, labels, s, CutRead(Parent));
    labels, s := Extend(buffers, labels, s, Moves(Parent, ""));
    labels, s := Extend(buffers, labels, s, Moves(Parent, ""));
  }

  /** A process whose reads are cut twice in a row sends two end marks and leaves. */
  lemma ChildCutTwice(buffers: (Msg, Msg), labels: seq<Label>, s: State) returns (longer: seq<Label>, t: State)
    requires Reachable(CLang, buffers, labels, s) && s.child.pc == Read && s.child.inbox == [] && s.child.msg == "b"
    ensures Reachable(CLang, buffers, longer, t)
    ensures t.parent == s.parent.(inbox := s.parent.inbox + ["0", "0"]) && t.child.pc == Done && t.child.inbox == []
  {
    longer, t := Extend(buffers, labels, s, CutRead(Child));
    longer, t := Extend(buffers, longer, t, Moves(Child, ""));
    longer, t := Extend(buffers, longer, t, Moves(Child, ""));
    longer, t := Extend(buffers, longer, t, Moves(Child, ""));
    assert t.child.msg == "0" && t.parent.inbox == s.parent.inbox + ["0"];
    longer, t := Extend(buffers, longer, t, CutRead(Child));
    longer, t := Extend(buffers, longer, t, Moves(Child, ""));
    longer, t := Extend(buffers, longer, t, Moves(Child, ""));
    assert t.parent.inbox == s.parent.inbox + ["0", "0"];
  }

  /** The child reads "a" and answers "b". */
  lemma ChildAnswers(buffers: (Msg, Msg), labels: seq<Label>, s: State) returns (longer: seq<Label>, t: State)
    requires Reachable(CLang, buffers, labels, s) && s.child.pc == Read && s.child.running && s.child.inbox == ["a"]
    ensures Reachable(CLang, buffers, longer, t)
    ensures t.parent == s.parent.(inbox := s.parent.inbox + ["b"])
    ensures t.child.pc == Read && t.child.inbox == [] && t.child.msg == "b"
  {
    longer, t := Extend(buffers, labels, s, Moves(Child, ""));
    longer, t := Extend(buffers, longer, t, Moves(Child, ""));
    longer, t := Extend(buffers, longer, t, Moves(Child, "b"));
    longer, t := Extend(buffers, longer, t, Moves(Child, ""));
  }

  /** The parent sends its end mark, reads "b", sends another and leaves on the first "0" it reads. */
  lemma ParentLeaves(buffers: (Msg, Msg), labels: seq<Label>, s: State) returns (longer: seq<Label>, t: State)
    requires Reachable(CLang, buffers, labels, s) && s.child.pc == Done && s.child.inbox == []
    requires s.parent.pc == Send && !s.parent.running && s.parent.inbox == ["b", "0", "0"]
    ensures Reachable(CLang, buffers, longer, t) && Finished(t) && InFlight(t) == 4
  {
    longer, t := Extend(buffers, labels, s, Moves(Parent, ""));
    longer, t := Extend(buffers, longer, t, Moves(Parent, ""));
    longer, t := Extend(buffers, longer, t, Moves(Parent, ""));
    longer, t := Extend(buffers, longer, t, Moves(Parent, ""));
    longer, t := Extend(buffers, longer, t, Moves(Parent, ""));
    longer, t := Extend(buffers, longer, t, Moves(Parent, ""));
    longer, t := Extend(buffers, longer, t, Moves(Parent, ""));
    longer, t := Extend(buffers, longer, t, Moves(Parent, ""));
  }

  /** Three reads can be cut, whatever the message buffers hold at the start, so four unread messages
      do occur: the bounds are met. */
  lemma FourUnread(buffers: (Msg, Msg)) returns (labels: seq<Label>, s: State)
    ensures Reachable(CLang, buffers, labels, s) && Finished(s) && Cuts(s) == 3 && InFlight(s) == 4
  {
    labels, s := ParentCut(buffers);
    labels, s := ChildAnswers(buffers, labels, s);
    labels, s := ChildCutTwice(buffers, labels, s);
    labels, s := ParentLeaves(buffers, labels, s);
    UnreadAtEnd(CLang, buffers, labels, s);
  }
}

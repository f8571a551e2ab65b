/** What the two processes of `TwoWayPipe` say: the texts typed, in order, and after them only end marks;
    together with the order kept by the pipes, each reads exactly what the other was given to type. */
module TwoWayPipeTexts {
  import opened Transitions
  import opened TwoWayPipe

  function SideOf(s: State, who: Who): Side {
    if who == Parent then s.parent else s.child
  }

  function PeerOf(s: State, who: Who): Side {
    if who == Parent then s.child else s.parent
  }

  function BufferOf(buffers: (Msg, Msg), who: Who): Msg {
    if who == Parent then buffers.0 else buffers.1
  }

  /** A turn of `who` at the keyboard that no signal has preceded. */
  function TypedBy(who: Who): (State, Label) -> seq<Msg> {
    (s: State, l: Label) =>
      if l.Moves? && l.who == who && SideOf(s, who).pc == Type && SideOf(s, who).running then [l.typed] else []
  }

  /** Every turn of `who` at the keyboard. */
  function TurnsOf(who: Who): (State, Label) -> seq<()> {
    (s: State, l: Label) => if l.Moves? && l.who == who && SideOf(s, who).pc == Type then [()] else []
  }

  /** The texts that a run gives `who` to type. */
  function Typed(lang: Lang, buffers: (Msg, Msg), who: Who, labels: seq<Label>): seq<Msg> {
    Image(Machine(lang), TypedBy(who), Init(buffers.0, buffers.1), labels)
  }

  function Turns(lang: Lang, buffers: (Msg, Msg), who: Who, labels: seq<Label>): nat {
    |Image(Machine(lang), TurnsOf(who), Init(buffers.0, buffers.1), labels)|
  }

  /** What a process has sent, and what it is about to. */
  function Said(me: Side): seq<Msg> {
    if me.pc == Send then me.sent + [me.msg] else me.sent
  }

  function Echoes(me: Side): nat {
    if me.pc == Done then 1 else 0
  }

  // ----- typed and said -----

  ghost predicate SaysTyped(me: Side, typed: seq<Msg>) {
    && typed <= Said(me)
    && (forall k :: |typed| <= k < |Said(me)| ==> Ends(Said(me)[k]))
    && (me.running ==> |Said(me)| == |typed| + Echoes(me))
    && (me.pc == Echo ==> Ends(me.msg))
  }

  lemma OwnSays(me: Side, peer: Side, l: Label, typed: seq<Msg>)
    requires SaysTyped(me, typed) && Event(me, peer, l).Some?
    ensures
      var (me', peer') := Event(me, peer, l).value;
      && SaysTyped(me', if l.Moves? && me.pc == Type && me.running then typed + [l.typed] else typed)
      && |Said(me')| - Echoes(me') == |Said(me)| - Echoes(me) + (if l.Moves? && me.pc == Type then 1 else 0)
  {
  }

  /** A step of the peer shows only in the inbox. */
  lemma PeerSays(lang: Lang, s: State, l: Label, who: Who)
    requires Step(lang, s, l).Some? && l.who != who
    ensures
      var t := Step(lang, s, l).value;
      SideOf(t, who) == SideOf(s, who).(inbox := SideOf(t, who).inbox)
  {
  }

  ghost function Says(who: Who): (State, seq<Msg>) -> bool {
    (s: State, typed: seq<Msg>) => SaysTyped(SideOf(s, who), typed)
  }

  lemma StepSays(lang: Lang, who: Who, s: State, l: Label, typed: seq<Msg>)
    requires Says(who)(s, typed) && Step(lang, s, l).Some?
    ensures Says(who)(Step(lang, s, l).value, typed + TypedBy(who)(s, l))
  {
    assert typed + [] == typed;
    if l.who == who {
      OwnSays(SideOf(s, who), PeerOf(s, who), l, typed);
      assert SideOf(Step(lang, s, l).value, who) == Event(SideOf(s, who), PeerOf(s, who), l).value.0;
    } else {
      PeerSays(lang, s, l, who);
    }
  }

  lemma RunSays(lang: Lang, buffers: (Msg, Msg), who: Who, labels: seq<Label>, s: State)
    requires Reachable(lang, buffers, labels, s)
    ensures SaysTyped(SideOf(s, who), Typed(lang, buffers, who, labels))
  {
    forall s, l, typed | Says(who)(s, typed) && Machine(lang)(s, l).Some?
      ensures Says(who)(Machine(lang)(s, l).value, typed + TypedBy(who)(s, l))
    {
      StepSays(lang, who, s, l, typed);
    }
    assert SaysTyped(SideOf(Init(buffers.0, buffers.1), who), []);
    assert Records(Machine(lang), Says(who), TypedBy(who));
    Recording(Machine(lang), Says(who), TypedBy(who), Init(buffers.0, buffers.1), [], labels);
    assert [] + Typed(lang, buffers, who, labels) == Typed(lang, buffers, who, labels);
  }

  ghost function HasSaid(who: Who): (State, seq<()>) -> bool {
    (s: State, turns: seq<()>) => |Said(SideOf(s, who))| == |turns| + Echoes(SideOf(s, who))
  }

  lemma RunHasSaid(lang: Lang, buffers: (Msg, Msg), who: Who, labels: seq<Label>, s: State)
    requires Reachable(lang, buffers, labels, s)
    ensures |Said(SideOf(s, who))| == Turns(lang, buffers, who, labels) + Echoes(SideOf(s, who))
  {
    forall s, l, turns | HasSaid(who)(s, turns) && Machine(lang)(s, l).Some?
      ensures HasSaid(who)(Machine(lang)(s, l).value, turns + TurnsOf(who)(s, l))
    {
      if l.who != who {
        PeerSays(lang, s, l, who);
      }
    }
    Recording(Machine(lang), HasSaid(who), TurnsOf(who), Init(buffers.0, buffers.1), [], labels);
  }

  // ----- what is in hand -----

  function Latest(messages: seq<Msg>, first: Msg): Msg {
    if messages == [] then first else messages[|messages| - 1]
  }

  /** Before it types or echoes, a process holds the message it read last, unless a signal has cut that
      read short: then it still holds what it sent last. */
  ghost predicate HoldsLatest(me: Side, first: Msg) {
    && (me.pc == Read ==> me.msg == Latest(me.sent, first))
    && (me.pc == Test || me.pc == Type || me.pc == Echo ==>
          me.msg == Latest(me.got, first) || (me.cut > 0 && me.msg == Latest(me.sent, first)))
    && (me.pc == Done ==>
          && me.sent != [] && Ends(Latest(me.sent, first))
          && (me.cut == 0 ==> Latest(me.sent, first) == Latest(me.got, first)))
    && (me.pc == Echo ==> Ends(me.msg))
  }

  lemma RunHoldsLatest(lang: Lang, buffers: (Msg, Msg), who: Who, labels: seq<Label>, s: State)
    requires Reachable(lang, buffers, labels, s)
    ensures HoldsLatest(SideOf(s, who), BufferOf(buffers, who))
  {
    var first := BufferOf(buffers, who);
    forall s, l | HoldsLatest(SideOf(s, who), first) && Machine(lang)(s, l).Some?
      ensures HoldsLatest(SideOf(Machine(lang)(s, l).value, who), first)
    {
      if l.who != who {
        PeerSays(lang, s, l, who);
      }
    }
    Invariance(Machine(lang), (s: State) => HoldsLatest(SideOf(s, who), first), Init(buffers.0, buffers.1), labels);
  }

  // ----- theorems -----

  /** In every run a process says the texts it was given to type before any signal, in order and whole, one
      for each of its turns; whatever else it says is an end mark. As long as no signal has reached it
      the one thing else is the echo of the message it left on. */
  lemma SaysWhatIsTyped(lang: Lang, buffers: (Msg, Msg), who: Who, labels: seq<Label>, s: State)
    requires Reachable(lang, buffers, labels, s)
    ensures
      var me, typed := SideOf(s, who), Typed(lang, buffers, who, labels);
      && typed <= Said(me)
      && |Said(me)| == Turns(lang, buffers, who, labels) + Echoes(me)
      && (forall k :: |typed| <= k < |Said(me)| ==> Ends(Said(me)[k]))
      && (me.running && me.pc != Done ==> Said(me) == typed)
      && (me.running && me.pc == Done ==> me.got != [] && me.sent == typed + [me.got[|me.got| - 1]])
  {
    RunSays(lang, buffers, who, labels, s);
    RunHasSaid(lang, buffers, who, labels, s);
    EchoIsLastRead(lang, buffers, who, labels, s);
    var me, typed := SideOf(s, who), Typed(lang, buffers, who, labels);
    if me.running && me.pc == Done {
      assert me.sent == me.sent[..|typed|] + [me.sent[|typed|]];
    }
  }

  /** A process that no signal has reached and that has left sent back what it read last. */
  lemma EchoIsLastRead(lang: Lang, buffers: (Msg, Msg), who: Who, labels: seq<Label>, s: State)
    requires Reachable(lang, buffers, labels, s)
    ensures
      var me := SideOf(s, who);
      me.running && me.pc == Done ==> me.got != [] && me.sent != [] && me.sent[|me.sent| - 1] == me.got[|me.got| - 1]
  {
    RunHoldsLatest(lang, buffers, who, labels, s);
    LeftAfterReading(lang, buffers, who, labels, s);
    ReachableInv(lang, buffers, labels, s);
  }

  /** A process leaves only with a message read, or on a read cut short. */
  lemma LeftAfterReading(lang: Lang, buffers: (Msg, Msg), who: Who, labels: seq<Label>, s: State)
    requires Reachable(lang, buffers, labels, s)
    ensures
      var me := SideOf(s, who);
      me.pc == Test || me.pc == Echo || me.pc == Done ==> me.got != [] || me.cut > 0
  {
    forall s, l | Engaged(SideOf(s, who)) && Machine(lang)(s, l).Some?
      ensures Engaged(SideOf(Machine(lang)(s, l).value, who))
    {
      if l.who != who {
        PeerSays(lang, s, l, who);
      }
    }
    Invariance(Machine(lang), (s: State) => Engaged(SideOf(s, who)), Init(buffers.0, buffers.1), labels);
  }

  predicate Engaged(me: Side) {
    me.pc == Test || me.pc == Echo || me.pc == Done ==> me.got != [] || me.cut > 0
  }

  /** So in a conversation that no signal has disturbed, each process reads what the other was given to
      type, in order, none lost and none cut; only the end mark that is sent back comes on top. */
  lemma ReadsWhatPeerTyped(lang: Lang, buffers: (Msg, Msg), who: Who, labels: seq<Label>, s: State)
    requires Reachable(lang, buffers, labels, s) && PeerOf(s, who).running
    ensures
      var me, peer := SideOf(s, who), PeerOf(s, who);
      var typed := Typed(lang, buffers, if who == Parent then Child else Parent, labels);
      && (peer.pc != Done && peer.pc != Send ==> me.got + me.inbox == typed)
      && (peer.pc == Send ==> me.got + me.inbox + [peer.msg] == typed)
      && (peer.pc == Done ==> peer.got != [] && me.got + me.inbox == typed + [peer.got[|peer.got| - 1]])
  {
    SaysWhatIsTyped(lang, buffers, if who == Parent then Child else Parent, labels, s);
    InFlightInOrder(lang, buffers, labels, s);
  }

  /** A turn after a signal says the message in hand with its first character replaced by '0', and that is
      the message read last, unless a signal cut that read short: then it is the message sent last. */
  lemma SignalledSaysMark(lang: Lang, buffers: (Msg, Msg), who: Who, labels: seq<Label>, s: State, l: Label)
    requires Reachable(lang, buffers, labels, s) && l.Moves? && l.who == who && Step(lang, s, l).Some?
    requires SideOf(s, who).pc == Type && !SideOf(s, who).running
    ensures
      var me, after, first := SideOf(s, who), SideOf(Step(lang, s, l).value, who), BufferOf(buffers, who);
      && Said(after) == Said(me) + [after.msg]
      && (MarkOf(Latest(me.got, first), after.msg) || (me.cut > 0 && MarkOf(Latest(me.sent, first), after.msg)))
  {
    RunHoldsLatest(lang, buffers, who, labels, s);
  }

  /** The same message but for the first character, which is '0'. */
  predicate MarkOf(m: Msg, e: Msg) {
    && |e| == (if m == [] then 1 else |m|) && e[0] == '0'
    && forall k :: 1 <= k < |m| ==> e[k] == m[k]
  }

  // ----- when only typed texts are said -----

  /** In all runs in which no read is cut, what the process has said while in its loop was typed. */
  ghost predicate OnlyTyped(lang: Lang, buffers: (Msg, Msg), who: Who) {
    forall labels :: Exec(Machine(lang), Init(buffers.0, buffers.1), labels).Some? ==>
      var s := Exec(Machine(lang), Init(buffers.0, buffers.1), labels).value;
      Cuts(s) == 0 && SideOf(s, who).pc != Done ==> Said(SideOf(s, who)) == Typed(lang, buffers, who, labels)
  }

  lemma Extended(buffers: (Msg, Msg), who: Who, labels: seq<Label>, s: State, l: Label)
    returns (longer: seq<Label>, t: State)
    requires Reachable(CLang, buffers, labels, s) && Step(CLang, s, l).Some?
    ensures Reachable(CLang, buffers, longer, t) && Some(t) == Step(CLang, s, l)
    ensures Typed(CLang, buffers, who, longer) == Typed(CLang, buffers, who, labels) + TypedBy(who)(s, l)
  {
    longer, t := labels + [l], Step(CLang, s, l).value;
    ExecSnoc(Machine(CLang), Init(buffers.0, buffers.1), labels, l);
    ImageSnoc(Machine(CLang), TypedBy(who), Init(buffers.0, buffers.1), labels, l);
  }

  /** Each process comes to its first turn. */
  lemma FirstTurn(buffers: (Msg, Msg), who: Who) returns (labels: seq<Label>, s: State)
    ensures Reachable(CLang, buffers, labels, s) && Typed(CLang, buffers, who, labels) == [] && Cuts(s) == 0
    ensures SideOf(s, who).pc == Type && SideOf(s, who).running && SideOf(s, who).sent == []
  {
    labels, s := [], Init(buffers.0, buffers.1);
    if who == Child {
      labels, s := Extended(buffers, who, labels, s, Moves(Parent, "a"));
      labels, s := Extended(buffers, who, labels, s, Moves(Parent, ""));
      assert s.child.inbox == ["a"];
      labels, s := Extended(buffers, who, labels, s, Moves(Child, ""));
      labels, s := Extended(buffers, who, labels, s, Moves(Child, ""));
    }
  }

  /** A signal before its first turn makes either process say something it was not given to type. */
  lemma SignalSpeaks(buffers: (Msg, Msg), who: Who) returns (labels: seq<Label>, s: State)
    ensures Reachable(CLang, buffers, labels, s) && Cuts(s) == 0 && SideOf(s, who).pc == Send
    ensures Typed(CLang, buffers, who, labels) == [] && |Said(SideOf(s, who))| == 1
  {
    labels, s := FirstTurn(buffers, who);
    labels, s := Extended(buffers, who, labels, s, Signal(who));
    labels, s := Extended(buffers, who, labels, s, Moves(who, ""));
  }

  /** Which is so exactly for the program without a signal handler. */
  lemma WhenOnlyTyped(lang: Lang, buffers: (Msg, Msg), who: Who)
    ensures OnlyTyped(lang, buffers, who) <==> lang == CppLang
  {
    if lang == CLang {
      var labels, s := SignalSpeaks(buffers, who);
      assert Exec(Machine(lang), Init(buffers.0, buffers.1), labels).Some?;
    } else {
      forall labels | Exec(Machine(lang), Init(buffers.0, buffers.1), labels).Some?
        ensures
          var s := Exec(Machine(lang), Init(buffers.0, buffers.1), labels).value;
          SideOf(s, who).pc != Done ==> Said(SideOf(s, who)) == Typed(lang, buffers, who, labels)
      {
        var s := Exec(Machine(lang), Init(buffers.0, buffers.1), labels).value;
        CppNeverCuts(buffers, labels, s);
        SaysWhatIsTyped(lang, buffers, who, labels, s);
      }
    }
  }
}

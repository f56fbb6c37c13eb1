/**
 What the chat server promises, proved of the reference semantics in
 ChatModel: the effect of each event on every client's received lines, that
 the registry only grows, that shutdown is idempotent, and that a connection
 once shut down never receives another line.
 */
module ChatProperties {
  import opened Protocol
  import opened ChatModel

  /** A handler inside its read loop whose connection is still open. */
  predicate InReadLoop(w: World, i: nat)
  {
    i < |w.sessions| && w.sessions[i].phase == Active && !w.sessions[i].closed
  }

  // ---------------------------------------------------------------- registry

  /** Accepting appends one handler at the end of the registry, showing the
      new client the prompt and no one else anything; once done is set the
      loop accepts nothing. */
  lemma AcceptAppendsOne(w: World)
    ensures w.done ==> Accept(w) == w
    ensures !w.done && !w.listenerClosed ==>
              && Accept(w).sessions == w.sessions + [Session(None, [Prompt], false, AwaitingNick)]
              && Accept(w).done == w.done && Accept(w).listenerClosed == w.listenerClosed
  {
    assert [] + [Prompt] == [Prompt];
  }

  /** Over any run, even through `/quit` and shutdown, the registry never
      gets shorter, and every accepted connection lengthens it by one. */
  lemma {:induction false} RegistryNeverShrinks(w: World, es: seq<Event>)
    ensures |Run(w, es).sessions| >= |w.sessions|
    decreases |es|
  {
    if es != [] {
      RegistryNeverShrinks(Step(w, es[0]), es[1..]);
    }
  }

  // ------------------------------------------- what one event broadcasts

  /** The one line an event makes the server broadcast, if any. */
  function Broadcasts(w: World, e: Event): Option<string>
  {
    match e
    case LineReceived(i, line) =>
      if i >= |w.sessions| || w.sessions[i].phase == Ended || w.sessions[i].closed then None
      else if w.sessions[i].phase == AwaitingNick then Some(JoinNotice(line))
      else
        var nick := Shown(w.sessions[i].nickname);
        (match Classify(line)
         case Rename(newNick) => Some(RenameNotice(nick, newNick))
         case NickMissing => None
         case Quit => Some(LeaveNotice(nick))
         case Chat(text) => Some(ChatLine(nick, text)))
    case StreamEnded(i) =>
      if i < |w.sessions| && w.sessions[i].phase == AwaitingNick && !w.sessions[i].closed
      then Some(JoinNotice(Shown(w.sessions[i].nickname)))
      else None
    case _ => None
  }

  /** A session after it has been sent `m`, or nothing. */
  function Heard(s: Session, m: Option<string>): Session
  {
    match m
    case None => s
    case Some(line) => Deliver(s, line)
  }

  lemma RegisterAt(w: World, i: nat, nick: string)
    requires i < |w.sessions|
    ensures var r := Register(w, i, nick);
      && r.sessions[i] == Deliver(w.sessions[i].(nickname := Some(nick)), JoinNotice(nick)).(phase := Active)
      && forall k :: 0 <= k < |w.sessions| && k != i ==> r.sessions[k] == Deliver(w.sessions[k], JoinNotice(nick))
  {
  }

  lemma RenamedAt(w: World, i: nat, newNick: string)
    requires i < |w.sessions|
    ensures var r := Renamed(w, i, newNick);
      var notice := RenameNotice(Shown(w.sessions[i].nickname), newNick);
      && r.sessions[i] == Deliver(Deliver(w.sessions[i], notice).(nickname := Some(newNick)), RenameConfirmation(newNick))
      && forall k :: 0 <= k < |w.sessions| && k != i ==> r.sessions[k] == Deliver(w.sessions[k], notice)
  {
  }

  lemma LeftAt(w: World, i: nat)
    requires i < |w.sessions|
    ensures var r := Left(w, i);
      var notice := LeaveNotice(Shown(w.sessions[i].nickname));
      && r.sessions[i] == Deliver(w.sessions[i], notice).(closed := true, phase := Ended)
      && forall k :: 0 <= k < |w.sessions| && k != i ==> r.sessions[k] == Deliver(w.sessions[k], notice)
  {
  }

  /** Every handler other than the one an event is about is sent exactly
      the line Broadcasts names, once, or nothing; its nickname, connection
      and place in `run` stay as they were. */
  lemma {:induction false} OthersHearTheBroadcast(w: World, e: Event, k: nat)
    requires !e.Connected? && !e.ServerShutdown?
    requires k < |w.sessions| && k != e.who
    ensures Step(w, e).sessions[k] == Heard(w.sessions[k], Broadcasts(w, e))
  {
    var i := e.who;
    if i < |w.sessions| && w.sessions[i].phase != Ended && !w.sessions[i].closed {
      match e
      case LineReceived(_, line) =>
        if w.sessions[i].phase == AwaitingNick {
          RegisterAt(w, i, line);
        } else {
          match Classify(line)
          case Rename(newNick) => RenamedAt(w, i, newNick);
          case NickMissing =>
          case Quit => LeftAt(w, i);
          case Chat(text) =>
        }
      case StreamEnded(_) =>
      case ReadFailed(_) =>
    }
  }

  // ------------------------------------------------ reachable states

  /** What holds of every state the server can reach: a handler waiting for
      its first line has no nickname yet, one in the read loop has one, and
      done is set exactly when the listener has been closed. */
  predicate WellFormed(w: World)
  {
    && w.done == w.listenerClosed
    && forall k :: 0 <= k < |w.sessions| ==>
         && (w.sessions[k].phase == AwaitingNick ==> w.sessions[k].nickname == None)
         && (w.sessions[k].phase == Active ==> w.sessions[k].nickname.Some?)
  }

  lemma {:induction false} StepPreservesWellFormed(w: World, e: Event)
    requires WellFormed(w)
    ensures WellFormed(Step(w, e))
  {
    var r := Step(w, e);
    if e.Connected? || e.ServerShutdown? {
      ShutdownEffect(w);
      AcceptAppendsOne(w);
    } else {
      forall k | 0 <= k < |r.sessions|
        ensures r.sessions[k].phase == AwaitingNick ==> r.sessions[k].nickname == None
        ensures r.sessions[k].phase == Active ==> r.sessions[k].nickname.Some?
      {
        if k != e.who {
          OthersHearTheBroadcast(w, e, k);
        } else if e.LineReceived? && !w.sessions[k].closed && w.sessions[k].phase == Active {
          match Classify(e.text)
          case Rename(newNick) => RenamedAt(w, k, newNick);
          case NickMissing =>
          case Quit => LeftAt(w, k);
          case Chat(text) =>
        } else if e.LineReceived? && !w.sessions[k].closed && w.sessions[k].phase == AwaitingNick {
          RegisterAt(w, k, e.text);
        }
      }
    }
  }

  /** Every state reached from the freshly bound server is well formed. */
  lemma {:induction false} RunPreservesWellFormed(w: World, es: seq<Event>)
    requires WellFormed(w)
    ensures WellFormed(Run(w, es))
    decreases |es|
  {
    if es != [] {
      StepPreservesWellFormed(w, es[0]);
      RunPreservesWellFormed(Step(w, es[0]), es[1..]);
    }
  }

  lemma ReachableIsWellFormed(es: seq<Event>)
    ensures WellFormed(Run(Initial, es))
  {
    RunPreservesWellFormed(Initial, es);
  }

  // ------------------------------------------------------------ registration

  /** The first line becomes the nickname unchanged and every handler whose
      connection is open, the new one included, is sent the join notice. */
  lemma RegisterEffect(w: World, i: nat, nick: string)
    requires i < |w.sessions| && w.sessions[i].phase == AwaitingNick && !w.sessions[i].closed
    ensures var r := Step(w, LineReceived(i, nick));
      && |r.sessions| == |w.sessions| && r.done == w.done && r.listenerClosed == w.listenerClosed
      && r.sessions[i] == Session(Some(nick), w.sessions[i].outbox + [JoinNotice(nick)], false, Active)
      && forall k :: 0 <= k < |w.sessions| && k != i ==> r.sessions[k] == Deliver(w.sessions[k], JoinNotice(nick))
  {
  }

  /** The client goes away before naming itself: the nickname is still
      null, so "null joined the chat!" is broadcast, and `run` ends without
      shutting the connection down. */
  lemma EndBeforeNickEffect(w: World, i: nat)
    requires WellFormed(w)
    requires i < |w.sessions| && w.sessions[i].phase == AwaitingNick && !w.sessions[i].closed
    ensures var r := Step(w, StreamEnded(i));
      && |r.sessions| == |w.sessions|
      && r.sessions[i] == Session(w.sessions[i].nickname, w.sessions[i].outbox + ["null joined the chat!"], false, Ended)
      && forall k :: 0 <= k < |w.sessions| && k != i ==> r.sessions[k] == Deliver(w.sessions[k], "null joined the chat!")
  {
    assert w.sessions[i].nickname == None;
    assert JoinNotice(Shown(None)) == "null joined the chat!";
  }

  // --------------------------------------------------------------- read loop

  /** A `/nick...` word, a space and a name, read in the loop, is a rename. */
  lemma RenameLineRenames(w: World, i: nat, head: string, newNick: string)
    requires InReadLoop(w, i)
    requires NickCommand <= head && ' ' !in head
    ensures Step(w, LineReceived(i, head + " " + newNick)) == Renamed(w, i, newNick)
  {
    var line := head + " " + newNick;
    ClassifyRename(head, newNick);
    assert Step(w, LineReceived(i, line)) == Receive(w, i, line);
    assert Receive(w, i, line) == Dispatch(w, i, line);
  }

  /** `/nick` followed by a space renames to everything after that space
      (possibly empty): the rename notice, under the old nickname, goes to
      every open handler, then the sender alone gets the confirmation. */
  lemma {:induction false} RenameEffect(w: World, i: nat, head: string, newNick: string)
    requires InReadLoop(w, i)
    requires NickCommand <= head && ' ' !in head
    ensures var r := Step(w, LineReceived(i, head + " " + newNick));
      var notice := RenameNotice(Shown(w.sessions[i].nickname), newNick);
      && |r.sessions| == |w.sessions| && r.done == w.done && r.listenerClosed == w.listenerClosed
      && r.sessions[i] == Session(Some(newNick), w.sessions[i].outbox + [notice, RenameConfirmation(newNick)], false, Active)
      && forall k :: 0 <= k < |w.sessions| && k != i ==> r.sessions[k] == Deliver(w.sessions[k], notice)
  {
    var s := w.sessions[i];
    var notice := RenameNotice(Shown(s.nickname), newNick);
    var r := Step(w, LineReceived(i, head + " " + newNick));
    RenameLineRenames(w, i, head, newNick);
    RenamedAt(w, i, newNick);
    assert r.sessions[i] == Deliver(Deliver(s, notice).(nickname := Some(newNick)), RenameConfirmation(newNick));
    assert s.outbox + [notice] + [RenameConfirmation(newNick)] == s.outbox + [notice, RenameConfirmation(newNick)];
  }

  /** `/nick` with no space: only the sender hears "No nickname provided";
      nothing else changes. */
  lemma NickMissingEffect(w: World, i: nat, line: string)
    requires InReadLoop(w, i)
    requires NickCommand <= line && ' ' !in line
    ensures Step(w, LineReceived(i, line))
         == w.(sessions := w.sessions[i := w.sessions[i].(outbox := w.sessions[i].outbox + [NoNickname])])
  {
  }

  /** A line starting with `/quit` (and not with `/nick`): every open
      handler, the sender included, hears the leave notice; then the
      sender's connection is shut down and its `run` ends. */
  lemma QuitEffect(w: World, i: nat, line: string)
    requires InReadLoop(w, i)
    requires !(NickCommand <= line) && QuitCommand <= line
    ensures var r := Step(w, LineReceived(i, line));
      var s := w.sessions[i];
      && |r.sessions| == |w.sessions| && r.done == w.done && r.listenerClosed == w.listenerClosed
      && r.sessions[i] == Session(s.nickname, s.outbox + [LeaveNotice(Shown(s.nickname))], true, Ended)
      && forall k :: 0 <= k < |w.sessions| && k != i ==> r.sessions[k] == Deliver(w.sessions[k], LeaveNotice(Shown(s.nickname)))
  {
  }

  /** Any other line is relayed to every open handler, the sender included,
      under the nickname the sender has at that moment. */
  lemma ChatEffect(w: World, i: nat, line: string)
    requires InReadLoop(w, i)
    requires !(NickCommand <= line) && !(QuitCommand <= line)
    ensures var r := Step(w, LineReceived(i, line));
      && |r.sessions| == |w.sessions| && r.done == w.done && r.listenerClosed == w.listenerClosed
      && forall k :: 0 <= k < |w.sessions| ==>
           r.sessions[k] == Deliver(w.sessions[k], ChatLine(Shown(w.sessions[i].nickname), line))
  {
  }

  /** The client closes its side inside the read loop: `run` ends, but the
      connection is not shut down and nothing is announced, unlike `/quit`. */
  lemma EndOfStreamEffect(w: World, i: nat)
    requires InReadLoop(w, i)
    ensures Step(w, StreamEnded(i)) == w.(sessions := w.sessions[i := w.sessions[i].(phase := Ended)])
  {
  }

  /** A read that throws, or any read on a connection already shut down:
      the handler is shut down, `run` ends, no one is told. */
  lemma ReadFailureEffect(w: World, i: nat, e: Event)
    requires i < |w.sessions| && w.sessions[i].phase != Ended
    requires e == ReadFailed(i) || (w.sessions[i].closed && !e.Connected? && !e.ServerShutdown? && e.who == i)
    ensures Step(w, e) == w.(sessions := w.sessions[i := w.sessions[i].(closed := true, phase := Ended)])
  {
  }

  /** A rename shows in the very next relayed line from that client. */
  lemma {:induction false} RenameThenChat(w: World, i: nat, head: string, newNick: string, text: string)
    requires InReadLoop(w, i)
    requires NickCommand <= head && ' ' !in head
    requires !(NickCommand <= text) && !(QuitCommand <= text)
    ensures var r := Run(w, [LineReceived(i, head + " " + newNick), LineReceived(i, text)]);
      && |r.sessions| == |w.sessions|
      && r.sessions[i].nickname == Some(newNick)
      && r.sessions[i].outbox == w.sessions[i].outbox
           + [RenameNotice(Shown(w.sessions[i].nickname), newNick), RenameConfirmation(newNick), ChatLine(newNick, text)]
  {
    var w1 := Step(w, LineReceived(i, head + " " + newNick));
    RenameEffect(w, i, head, newNick);
    assert InReadLoop(w1, i);
    ChatEffect(w1, i, text);
    var es := [LineReceived(i, head + " " + newNick), LineReceived(i, text)];
    assert Run(w, es) == Run(w1, es[1..]);
    assert Run(w1, es[1..]) == Run(Step(w1, LineReceived(i, text)), []);
  }

  // ---------------------------------------------------------------- shutdown

  /** Handler shutdown a second time changes nothing further. */
  lemma HandlerShutdownIdempotent(s: Session)
    ensures Close(Close(s)) == Close(s)
    ensures Close(s).outbox == s.outbox && Close(s).nickname == s.nickname && Close(s).closed
  {
  }

  /** Server shutdown sets done, leaves the listener closed, and shuts every
      registered handler down, keeping them all in the registry. */
  lemma ShutdownEffect(w: World)
    ensures var r := Shutdown(w);
      && r.done && r.listenerClosed && |r.sessions| == |w.sessions|
      && forall k :: 0 <= k < |w.sessions| ==> r.sessions[k] == w.sessions[k].(closed := true)
  {
  }

  /** Server shutdown a second time changes nothing further. */
  lemma {:induction false} ShutdownIdempotent(w: World)
    ensures Shutdown(Shutdown(w)) == Shutdown(w)
  {
    var once := Shutdown(w).sessions;
    var twice := Shutdown(Shutdown(w)).sessions;
    assert |twice| == |once|;
    forall k | 0 <= k < |once|
      ensures twice[k] == once[k]
    {
    }
  }

  /** One event leaves a shut-down connection shut down and silent. */
  lemma {:induction false} StepKeepsClosedSilent(w: World, e: Event, k: nat)
    requires k < |w.sessions| && w.sessions[k].closed
    ensures k < |Step(w, e).sessions|
    ensures var s := Step(w, e).sessions[k];
      s.closed && s.outbox == w.sessions[k].outbox && s.nickname == w.sessions[k].nickname
  {
    if e.Connected? || e.ServerShutdown? {
      ShutdownEffect(w);
    } else if k != e.who {
      OthersHearTheBroadcast(w, e, k);
    }
  }

  /** Once a connection is shut down, by `/quit`, a failed read or server
      shutdown, no later event prints anything to it: it is still in the
      registry, but broadcasts no longer reach it. */
  lemma {:induction false} ClosedStaysSilent(w: World, es: seq<Event>, k: nat)
    requires k < |w.sessions| && w.sessions[k].closed
    ensures k < |Run(w, es).sessions|
    ensures var s := Run(w, es).sessions[k];
      s.closed && s.outbox == w.sessions[k].outbox && s.nickname == w.sessions[k].nickname
    decreases |es|
  {
    if es != [] {
      StepKeepsClosedSilent(w, es[0], k);
      ClosedStaysSilent(Step(w, es[0]), es[1..], k);
    }
  }

  /** A handler whose `run` has returned stays returned over any run of
      events: no event restarts it. */
  lemma {:induction false} EndedStaysEnded(w: World, es: seq<Event>, k: nat)
    requires k < |w.sessions| && w.sessions[k].phase == Ended
    ensures k < |Run(w, es).sessions| && Run(w, es).sessions[k].phase == Ended
    decreases |es|
  {
    if es != [] {
      var e := es[0];
      if e.Connected? || e.ServerShutdown? {
        ShutdownEffect(w);
      } else if k != e.who {
        OthersHearTheBroadcast(w, e, k);
      }
      EndedStaysEnded(Step(w, e), es[1..], k);
    }
  }

  /** After `/quit` no later line from that client is processed, whatever
      happened in between, and the leave notice stays the last line it
      received. */
  lemma QuitIsFinal(w: World, i: nat, line: string, es: seq<Event>)
    requires InReadLoop(w, i)
    requires !(NickCommand <= line) && QuitCommand <= line
    ensures var r := Run(Step(w, LineReceived(i, line)), es);
      && i < |r.sessions| && r.sessions[i].closed && r.sessions[i].phase == Ended
      && r.sessions[i].outbox == w.sessions[i].outbox + [LeaveNotice(Shown(w.sessions[i].nickname))]
      && forall later :: Step(r, LineReceived(i, later)) == r
  {
    var quit := Step(w, LineReceived(i, line));
    QuitEffect(w, i, line);
    ClosedStaysSilent(quit, es, i);
    EndedStaysEnded(quit, es, i);
  }

  /** The state server shutdown leaves: done, listener closed, every
      handler shut down. */
  predicate Stopped(w: World)
  {
    w.done && w.listenerClosed && forall k :: 0 <= k < |w.sessions| ==> w.sessions[k].closed
  }

  /** After server shutdown no event accepts a connection or prints a line
      to anyone. */
  lemma {:induction false} StoppedIsQuiet(w: World, es: seq<Event>)
    requires Stopped(w)
    ensures Stopped(Run(w, es)) && |Run(w, es).sessions| == |w.sessions|
    ensures forall k :: 0 <= k < |w.sessions| ==> Run(w, es).sessions[k].outbox == w.sessions[k].outbox
    decreases |es|
  {
    if es != [] {
      var w1 := Step(w, es[0]);
      forall k | 0 <= k < |w.sessions|
        ensures w1.sessions[k].closed && w1.sessions[k].outbox == w.sessions[k].outbox
      {
        StepKeepsClosedSilent(w, es[0], k);
      }
      assert w1.done && w1.listenerClosed;
      StoppedIsQuiet(w1, es[1..]);
    }
  }

  lemma ShutdownIsFinal(w: World, es: seq<Event>)
    ensures var r := Run(Shutdown(w), es);
      && r.done && |r.sessions| == |w.sessions|
      && forall k :: 0 <= k < |w.sessions| ==> r.sessions[k].closed && r.sessions[k].outbox == w.sessions[k].outbox
  {
    ShutdownEffect(w);
    StoppedIsQuiet(Shutdown(w), es);
  }

  // ---------------------------------------------------------------- examples

  /** `/nick` is a prefix test: a longer word renames too. */
  lemma NicknameWordRenames()
    ensures Classify("/nickname bob") == Rename("bob")
  {
    assert "/nickname bob" == "/nickname" + " " + "bob";
    ClassifyRename("/nickname", "bob");
  }

  /** A bare `/nick ` renames to the empty name. */
  lemma EmptyNewNickname()
    ensures Classify("/nick ") == Rename("")
  {
    assert "/nick " == "/nick" + " " + "";
    ClassifyRename("/nick", "");
  }

  /** Everything after the first space is the new name, spaces and all. */
  lemma NewNicknameKeepsSpaces()
    ensures Classify("/nick a b") == Rename("a b")
  {
    assert "/nick a b" == "/nick" + " " + "a b";
    ClassifyRename("/nick", "a b");
  }

  /** Without a space, even `/nick/quit` only gets "No nickname provided". */
  lemma NickWithoutSpace()
    ensures Classify("/nick") == NickMissing
    ensures Classify("/nick/quit") == NickMissing
  {
    assert NickCommand <= "/nick/quit";
  }

  /** `/quit` is a prefix test too; a command elsewhere in a line is chat. */
  lemma QuitIsPrefixMatched()
    ensures Classify("/quitter") == Quit
    ensures Classify("hello /quit") == Chat("hello /quit")
  {
    assert "/quitter"[2] != NickCommand[2];
    assert "hello /quit"[0] != NickCommand[0] && "hello /quit"[0] != QuitCommand[0];
  }

  /** Running one list of events and then another is running them joined. */
  lemma {:induction false} RunAppend(w: World, first: seq<Event>, rest: seq<Event>)
    ensures Run(w, first + rest) == Run(Run(w, first), rest)
    decreases |first|
  {
    if first == [] {
      assert first + rest == rest;
    } else {
      assert (first + rest)[0] == first[0];
      assert (first + rest)[1..] == first[1..] + rest;
      RunAppend(Step(w, first[0]), first[1..], rest);
    }
  }

  // Two clients connect and name themselves "a" and "b", then "a" says
  // "hi". The worlds between the events, written out:

  const Waiting: Session := Session(None, [Prompt], false, AwaitingNick)
  const BothWaiting: World := World([Waiting, Waiting], false, false)
  const AJoined: World :=
    World([Session(Some("a"), [Prompt, JoinNotice("a")], false, Active),
           Session(None, [Prompt, JoinNotice("a")], false, AwaitingNick)], false, false)
  const BothJoined: World :=
    World([Session(Some("a"), [Prompt, JoinNotice("a"), JoinNotice("b")], false, Active),
           Session(Some("b"), [Prompt, JoinNotice("a"), JoinNotice("b")], false, Active)], false, false)
  const ASaidHi: World :=
    World([Session(Some("a"), [Prompt, JoinNotice("a"), JoinNotice("b"), ChatLine("a", "hi")], false, Active),
           Session(Some("b"), [Prompt, JoinNotice("a"), JoinNotice("b"), ChatLine("a", "hi")], false, Active)], false, false)

  lemma TwoConnect()
    ensures Run(Initial, [Connected, Connected]) == BothWaiting
  {
    AcceptAppendsOne(Initial);
    AcceptAppendsOne(Step(Initial, Connected));
    assert Run(Initial, [Connected, Connected]) == Run(Step(Step(Initial, Connected), Connected), []);
  }

  lemma FirstNamesItself()
    ensures Step(BothWaiting, LineReceived(0, "a")) == AJoined
  {
    var w := BothWaiting;
    RegisterAt(w, 0, "a");
    var r := Step(w, LineReceived(0, "a"));
    assert r == Register(w, 0, "a");
    assert r.sessions[0] == AJoined.sessions[0];
    assert r.sessions[1] == AJoined.sessions[1];
  }

  lemma SecondNamesItself()
    ensures Step(AJoined, LineReceived(1, "b")) == BothJoined
  {
    var w := AJoined;
    RegisterAt(w, 1, "b");
    var r := Step(w, LineReceived(1, "b"));
    assert r == Register(w, 1, "b");
    assert r.sessions[0] == BothJoined.sessions[0];
    assert r.sessions[1] == BothJoined.sessions[1];
  }

  lemma FirstSaysHi()
    ensures Step(BothJoined, LineReceived(0, "hi")) == ASaidHi
  {
    var w := BothJoined;
    assert !(NickCommand <= "hi") && !(QuitCommand <= "hi");
    var r := Step(w, LineReceived(0, "hi"));
    assert r == Dispatch(w, 0, "hi");
    assert r.sessions == BroadcastAll(w.sessions, ChatLine("a", "hi"));
    assert r.sessions[0] == ASaidHi.sessions[0];
    assert r.sessions[1] == ASaidHi.sessions[1];
  }

  /** The whole exchange: both clients see the two join notices in
      connection order, then "a : hi" — the sender hears its own line. */
  lemma TwoClients()
    ensures var r := Run(Initial, [Connected, Connected, LineReceived(0, "a"), LineReceived(1, "b"), LineReceived(0, "hi")]);
      && |r.sessions| == 2
      && r.sessions[0].outbox == [Prompt, "a joined the chat!", "b joined the chat!", "a : hi"]
      && r.sessions[1].outbox == [Prompt, "a joined the chat!", "b joined the chat!", "a : hi"]
  {
    var lines := [LineReceived(0, "a"), LineReceived(1, "b"), LineReceived(0, "hi")];
    assert [Connected, Connected, LineReceived(0, "a"), LineReceived(1, "b"), LineReceived(0, "hi")]
        == [Connected, Connected] + lines;
    RunAppend(Initial, [Connected, Connected], lines);
    TwoConnect();
    FirstNamesItself();
    SecondNamesItself();
    FirstSaysHi();
    assert Run(BothWaiting, lines) == Run(AJoined, lines[1..]);
    assert Run(AJoined, lines[1..]) == Run(BothJoined, lines[2..]);
    assert Run(BothJoined, lines[2..]) == Run(ASaidHi, []);
    NoticeTexts();
  }

  lemma NoticeTexts()
    ensures JoinNotice("a") == "a joined the chat!"
    ensures JoinNotice("b") == "b joined the chat!"
    ensures ChatLine("a", "hi") == "a : hi"
  {
    assert "a" + " joined the chat!" == "a joined the chat!";
    assert "b" + " joined the chat!" == "b joined the chat!";
    assert "a" + " : " + "hi" == "a : hi";
  }
}

/**
 The server as objects: a Server owns the registry of ConnectionHandlers and
 the broadcast, and each handler's `run` is driven one event at a time. Every
 method is proved to change the state exactly as the matching Model function
 says, through Server.Model().
 */
module ChatServer {
  import opened Protocol
  import opened ChatModel

  class ConnectionHandler {
    var nickname: Option<string>
    /** Every line printed to this client, oldest first. */
    var outbox: seq<string>
    /** Set by shutdown: reader, writer and socket are closed. */
    var closed: bool
    /** How far `run` has got. */
    var phase: Phase

    function View(): Session
      reads this
    {
      Session(nickname, outbox, closed, phase)
    }

    constructor ()
      ensures View() == Accepted
    {
      nickname := None;
      outbox := [];
      closed := false;
      phase := AwaitingNick;
    }

    method SendMessage(message: string)
      modifies this
      ensures View() == Deliver(old(View()), message)
    {
      if !closed {
        outbox := outbox + [message];
      }
    }

    method Shutdown()
      modifies this
      ensures View() == Close(old(View()))
    {
      closed := true;
    }
  }

  /** The sessions of a registry, in registry order. */
  ghost function Views(hs: seq<ConnectionHandler>): (r: seq<Session>)
    reads hs
    ensures |r| == |hs|
    ensures forall k :: 0 <= k < |hs| ==> r[k] == hs[k].View()
  {
    seq(|hs|, k requires 0 <= k < |hs| reads hs => hs[k].View())
  }

  /** Distinct handlers: writing to one leaves the others alone. */
  ghost predicate Distinct(hs: seq<ConnectionHandler>)
  {
    forall j, k :: 0 <= j < k < |hs| ==> hs[j] != hs[k]
  }

  /** A registry view in which only entry i differs is an update at i. */
  lemma UpdatedAt(before: seq<Session>, after: seq<Session>, i: nat)
    requires i < |before| == |after|
    requires forall k :: 0 <= k < |before| && k != i ==> after[k] == before[k]
    ensures after == before[i := after[i]]
  {
  }

  class Server {
    var connections: seq<ConnectionHandler>
    var done: bool
    var listenerClosed: bool

    /** No handler is registered twice: each comes from its own accept. */
    ghost predicate Valid()
      reads this
    {
      Distinct(connections)
    }

    /** Every other registered handler is a different object from
        handler i. */
    lemma Untouched(i: nat)
      requires Valid() && i < |connections|
      ensures forall k :: 0 <= k < |connections| && k != i ==> connections[k] != connections[i]
    {
    }

    ghost function Model(): World
      reads this, connections
    {
      World(Views(connections), done, listenerClosed)
    }

    /** `new Server()` followed by binding the listening socket. */
    constructor ()
      ensures Valid() && Model() == Initial
    {
      connections := [];
      done := false;
      listenerClosed := false;
    }

    method Broadcast(message: string)
      requires Valid()
      modifies connections
      ensures unchanged(this)
      ensures Views(connections) == BroadcastAll(old(Views(connections)), message)
    {
      for k := 0 to |connections|
        invariant forall j :: 0 <= j < k ==> connections[j].View() == Deliver(old(connections[j].View()), message)
        invariant forall j :: k <= j < |connections| ==> connections[j].View() == old(connections[j].View())
      {
        connections[k].SendMessage(message);
      }
    }

    method Shutdown()
      requires Valid()
      modifies this, connections
      ensures Valid() && connections == old(connections)
      ensures Model() == ChatModel.Shutdown(old(Model()))
    {
      done := true;
      if !listenerClosed {
        listenerClosed := true;
      }
      for k := 0 to |connections|
        modifies connections
        invariant forall j :: 0 <= j < k ==> connections[j].View() == Close(old(connections[j].View()))
        invariant forall j :: k <= j < |connections| ==> connections[j].View() == old(connections[j].View())
      {
        connections[k].Shutdown();
      }
    }

    /** One turn of the accept loop, and the start of the new handler's
        `run` up to the prompt. Returns the new handler, or null when no
        connection was taken. */
    method Accept() returns (h: ConnectionHandler?)
      requires Valid()
      modifies this, connections
      ensures Valid()
      ensures Model() == ChatModel.Accept(old(Model()))
      ensures h == null <==> old(done) || old(listenerClosed)
      ensures h != null ==> fresh(h) && connections == old(connections) + [h]
      ensures h == null ==> connections == old(connections)
    {
      if done {
        return null;
      }
      if listenerClosed {
        Shutdown();
        return null;
      }
      h := new ConnectionHandler();
      connections := connections + [h];
      h.SendMessage(Prompt);
    }

    /** Handler i takes the nickname `n`; no other handler changes. */
    method SetNickname(i: nat, n: Option<string>)
      requires Valid() && i < |connections|
      modifies connections[i]
      ensures Views(connections) == old(Views(connections))[i := old(Views(connections))[i].(nickname := n)]
    {
      ghost var before := Views(connections);
      connections[i].nickname := n;
      Untouched(i);
      UpdatedAt(before, Views(connections), i);
    }

    /** Handler i's `run` moves to phase `p`; no other handler changes. */
    method SetPhase(i: nat, p: Phase)
      requires Valid() && i < |connections|
      modifies connections[i]
      ensures Views(connections) == old(Views(connections))[i := old(Views(connections))[i].(phase := p)]
    {
      ghost var before := Views(connections);
      connections[i].phase := p;
      Untouched(i);
      UpdatedAt(before, Views(connections), i);
    }

    /** `sendMessage` on handler i alone. */
    method Tell(i: nat, m: string)
      requires Valid() && i < |connections|
      modifies connections[i]
      ensures Views(connections) == old(Views(connections))[i := Deliver(old(Views(connections))[i], m)]
    {
      ghost var before := Views(connections);
      connections[i].SendMessage(m);
      Untouched(i);
      UpdatedAt(before, Views(connections), i);
    }

    /** `shutdown` on handler i alone. */
    method CloseHandler(i: nat)
      requires Valid() && i < |connections|
      modifies connections[i]
      ensures Views(connections) == old(Views(connections))[i := Close(old(Views(connections))[i])]
    {
      ghost var before := Views(connections);
      connections[i].Shutdown();
      Untouched(i);
      UpdatedAt(before, Views(connections), i);
    }

    /** The catch in `run`: shut the handler down; `run` returns. */
    method AbortRun(i: nat)
      requires Valid() && i < |connections|
      modifies connections
      ensures Model() == ChatModel.Abort(old(Model()), i)
    {
      ghost var w0 := Views(connections);
      CloseHandler(i);
      ghost var closed := Views(connections);
      SetPhase(i, Ended);
      assert Views(connections) == closed[i := closed[i].(phase := Ended)];
      assert old(Model()) == World(w0, done, listenerClosed);
      assert Model() == World(Views(connections), done, listenerClosed);
    }

    /** Lines 127-129: the first line becomes the nickname, then the join
        notice goes to everyone. */
    method Register(i: nat, nick: string)
      requires Valid() && i < |connections|
      modifies connections
      ensures Model() == ChatModel.Register(old(Model()), i, nick)
    {
      ghost var w0 := Views(connections);
      SetNickname(i, Some(nick));
      ghost var named := Views(connections);
      assert connections[i].nickname == Some(nick);
      Broadcast(JoinNotice(Shown(connections[i].nickname)));
      ghost var joined := Views(connections);
      SetPhase(i, Active);
      assert Views(connections) == joined[i := joined[i].(phase := Active)];
      assert old(Model()) == World(w0, done, listenerClosed);
      assert Model() == World(Views(connections), done, listenerClosed);
    }

    /** Lines 135-139: a `/nick` line that carries a new name. */
    method ChangeNickname(i: nat, newNick: string)
      requires Valid() && i < |connections|
      modifies connections
      ensures Model() == Renamed(old(Model()), i, newNick)
    {
      ghost var w0 := Views(connections);
      Broadcast(RenameNotice(Shown(connections[i].nickname), newNick));
      ghost var told := Views(connections);
      SetNickname(i, Some(newNick));
      ghost var renamed := Views(connections);
      assert connections[i].nickname == Some(newNick);
      Tell(i, RenameConfirmation(Shown(connections[i].nickname)));
      assert Views(connections) == renamed[i := Deliver(renamed[i], RenameConfirmation(newNick))];
      assert old(Model()) == World(w0, done, listenerClosed);
      assert Model() == World(Views(connections), done, listenerClosed);
    }

    /** Lines 144-145 and the failing read that follows them. */
    method Leave(i: nat)
      requires Valid() && i < |connections|
      modifies connections
      ensures Model() == Left(old(Model()), i)
    {
      ghost var w0 := Views(connections);
      Broadcast(LeaveNotice(Shown(connections[i].nickname)));
      ghost var told := Views(connections);
      CloseHandler(i);
      assert Views(connections) == told[i := Close(told[i])];
      assert old(Model()) == World(w0, done, listenerClosed);
      assert Model() == World(Views(connections), done, listenerClosed);
      AbortRun(i);
    }

    /** One pass of the read loop (lines 133-148) for an open handler. */
    method Dispatch(i: nat, line: string)
      requires Valid() && i < |connections|
      modifies connections
      ensures Model() == ChatModel.Dispatch(old(Model()), i, line)
    {
      var h := connections[i];
      var command := Classify(line);
      if command.Rename? {
        ChangeNickname(i, command.newNick);
      } else if command.NickMissing? {
        Tell(i, NoNickname);
      } else if command.Quit? {
        Leave(i);
      } else {
        Broadcast(ChatLine(Shown(h.nickname), command.text));
      }
    }

    /** A line from connection i reaches its handler's `readLine`. */
    method Receive(i: nat, line: string)
      requires Valid()
      modifies connections
      ensures Model() == ChatModel.Receive(old(Model()), i, line)
    {
      if i >= |connections| {
        return;
      }
      var h := connections[i];
      if h.phase == Ended {
        return;
      }
      if h.closed {
        AbortRun(i);
      } else if h.phase == AwaitingNick {
        Register(i, line);
      } else {
        Dispatch(i, line);
      }
    }

    /** `readLine` on connection i returns null. */
    method EndOfStream(i: nat)
      requires Valid()
      modifies connections
      ensures Model() == ChatModel.EndStream(old(Model()), i)
    {
      if i >= |connections| {
        return;
      }
      var h := connections[i];
      if h.phase == Ended {
        return;
      }
      if h.closed {
        AbortRun(i);
        return;
      }
      ghost var w0 := Views(connections);
      assert old(Model()) == World(w0, done, listenerClosed);
      if h.phase == AwaitingNick {
        Broadcast(JoinNotice(Shown(h.nickname)));
      }
      ghost var read := Views(connections);
      SetPhase(i, Ended);
      assert Views(connections) == read[i := read[i].(phase := Ended)];
      assert Model() == World(Views(connections), done, listenerClosed);
    }

    /** `readLine` on connection i throws. */
    method ReadFailure(i: nat)
      requires Valid()
      modifies connections
      ensures Model() == ChatModel.FailRead(old(Model()), i)
    {
      if i < |connections| && connections[i].phase != Ended {
        AbortRun(i);
      }
    }

    /** Process one event. */
    method Handle(e: Event)
      requires Valid()
      modifies this, connections
      ensures Valid()
      ensures old(connections) <= connections
      ensures Model() == Step(old(Model()), e)
    {
      match e
      case Connected =>
        var _ := Accept();
      case LineReceived(i, line) =>
        Receive(i, line);
      case StreamEnded(i) =>
        EndOfStream(i);
      case ReadFailed(i) =>
        ReadFailure(i);
      case ServerShutdown =>
        Shutdown();
    }
  }
}

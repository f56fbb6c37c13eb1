/**
 Reference semantics of the chat server as plain values. A World is the
 server's registry (in accept order), its done flag and whether its listening
 socket is closed; a Session is what one connection handler holds: its
 nickname, every line written to its client, whether its connection has been
 shut down, and how far its `run` has got. Socket and thread activity is
 reduced to events, processed one at a time.
 */
module ChatModel {
  import opened Protocol

  datatype Option<T> = None | Some(value: T)

  /** Java's string conversion of a String reference that may be null. */
  function Shown(nick: Option<string>): string
  {
    match nick
    case None => "null"
    case Some(n) => n
  }

  /** Where a handler's `run` is: waiting for the nickname line, inside the
      read loop, or returned. */
  datatype Phase = AwaitingNick | Active | Ended

  datatype Session = Session(nickname: Option<string>, outbox: seq<string>, closed: bool, phase: Phase)

  datatype World = World(sessions: seq<Session>, done: bool, listenerClosed: bool)

  /** A freshly constructed handler: nickname still null, nothing written. */
  const Accepted: Session := Session(None, [], false, AwaitingNick)

  /** The server once its listening socket is bound and before any client. */
  const Initial: World := World([], false, false)

  /** What the outside world can do to the server. `who` is the position of
      a connection in the registry. */
  datatype Event =
    | Connected
    | LineReceived(who: nat, text: string)
    | StreamEnded(who: nat)
    | ReadFailed(who: nat)
    | ServerShutdown

  /** `out.println(m)`: a PrintWriter that has been closed discards the line
      without raising anything. */
  function Deliver(s: Session, m: string): (r: Session)
    ensures r.nickname == s.nickname && r.closed == s.closed && r.phase == s.phase
    ensures s.closed ==> r.outbox == s.outbox
    ensures !s.closed ==> r.outbox == s.outbox + [m]
  {
    if s.closed then s else s.(outbox := s.outbox + [m])
  }

  /** Handler shutdown: closes reader, writer and socket; closing what is
      already closed has no further effect. */
  function Close(s: Session): (r: Session)
    ensures r.closed
    ensures r.nickname == s.nickname && r.outbox == s.outbox && r.phase == s.phase
  {
    s.(closed := true)
  }

  /** `broadcast(m)`: walk the registry in order and print `m` to each
      handler, the sender included. */
  function BroadcastAll(ss: seq<Session>, m: string): (r: seq<Session>)
    ensures |r| == |ss|
    ensures forall k :: 0 <= k < |ss| ==> r[k] == Deliver(ss[k], m)
  {
    if ss == [] then [] else [Deliver(ss[0], m)] + BroadcastAll(ss[1..], m)
  }

  /** The handler loop of server shutdown. */
  function CloseAll(ss: seq<Session>): (r: seq<Session>)
    ensures |r| == |ss|
    ensures forall k :: 0 <= k < |ss| ==> r[k] == Close(ss[k])
  {
    if ss == [] then [] else [Close(ss[0])] + CloseAll(ss[1..])
  }

  /** Server shutdown: set done, close the listener if it is still open,
      shut every registered handler down. Nothing leaves the registry. */
  function Shutdown(w: World): (r: World)
    ensures r.done && r.listenerClosed
    ensures |r.sessions| == |w.sessions|
    ensures forall k :: 0 <= k < |w.sessions| ==> r.sessions[k] == Close(w.sessions[k])
  {
    World(CloseAll(w.sessions), true, true)
  }

  /** One turn of the accept loop together with the start of the new
      handler's `run`, which writes the prompt. With done set the loop has
      stopped; with the listener closed `accept` throws and the catch
      shuts the server down. */
  function Accept(w: World): (r: World)
    ensures |r.sessions| == |w.sessions| + (if w.done || w.listenerClosed then 0 else 1)
    ensures r.done == (w.done || w.listenerClosed)
  {
    if w.done then w
    else if w.listenerClosed then Shutdown(w)
    else w.(sessions := w.sessions + [Deliver(Accepted, Prompt)])
  }

  /** A read that throws (including any read on a closed reader): the catch
      in `run` shuts the handler down and `run` returns. */
  function Abort(w: World, i: nat): (r: World)
    requires i < |w.sessions|
    ensures |r.sessions| == |w.sessions| && r.done == w.done && r.listenerClosed == w.listenerClosed
  {
    w.(sessions := w.sessions[i := Close(w.sessions[i]).(phase := Ended)])
  }

  /** Registration: the first line becomes the nickname unchanged, then the
      join notice is broadcast. */
  function Register(w: World, i: nat, nick: string): (r: World)
    requires i < |w.sessions|
    ensures |r.sessions| == |w.sessions| && r.done == w.done && r.listenerClosed == w.listenerClosed
  {
    var named := w.sessions[i := w.sessions[i].(nickname := Some(nick))];
    var joined := BroadcastAll(named, JoinNotice(nick));
    w.(sessions := joined[i := joined[i].(phase := Active)])
  }

  /** `/nick` with a new name: announce under the old name, take the new
      one, confirm to the sender alone. */
  function Renamed(w: World, i: nat, newNick: string): (r: World)
    requires i < |w.sessions|
    ensures |r.sessions| == |w.sessions| && r.done == w.done && r.listenerClosed == w.listenerClosed
  {
    var told := BroadcastAll(w.sessions, RenameNotice(Shown(w.sessions[i].nickname), newNick));
    var renamed := told[i := told[i].(nickname := Some(newNick))];
    w.(sessions := renamed[i := Deliver(renamed[i], RenameConfirmation(newNick))])
  }

  /** `/quit`: announce, shut down; the next `readLine` on the closed reader
      throws and the catch shuts down a second time before `run` returns. */
  function Left(w: World, i: nat): (r: World)
    requires i < |w.sessions|
    ensures |r.sessions| == |w.sessions| && r.done == w.done && r.listenerClosed == w.listenerClosed
  {
    var told := BroadcastAll(w.sessions, LeaveNotice(Shown(w.sessions[i].nickname)));
    Abort(w.(sessions := told[i := Close(told[i])]), i)
  }

  /** One line of the read loop, from an open handler. */
  function Dispatch(w: World, i: nat, line: string): (r: World)
    requires i < |w.sessions|
    ensures |r.sessions| == |w.sessions| && r.done == w.done && r.listenerClosed == w.listenerClosed
  {
    var s := w.sessions[i];
    match Classify(line)
    case Rename(newNick) => Renamed(w, i, newNick)
    case NickMissing => w.(sessions := w.sessions[i := Deliver(s, NoNickname)])
    case Quit => Left(w, i)
    case Chat(text) => w.(sessions := BroadcastAll(w.sessions, ChatLine(Shown(s.nickname), text)))
  }

  /** A line arrives for connection i. */
  function Receive(w: World, i: nat, line: string): (r: World)
    ensures |r.sessions| == |w.sessions| && r.done == w.done && r.listenerClosed == w.listenerClosed
  {
    if i >= |w.sessions| then w
    else
      var s := w.sessions[i];
      if s.phase == Ended then w
      else if s.closed then Abort(w, i)
      else if s.phase == AwaitingNick then Register(w, i, line)
      else Dispatch(w, i, line)
  }

  /** The client closes its side: `readLine` returns null. At registration
      the nickname stays null, "null joined the chat!" goes out and the
      loop's first read sees the end again; in the loop, `run` just returns.
      Neither path shuts the handler down. */
  function EndStream(w: World, i: nat): (r: World)
    ensures |r.sessions| == |w.sessions| && r.done == w.done && r.listenerClosed == w.listenerClosed
  {
    if i >= |w.sessions| then w
    else
      var s := w.sessions[i];
      if s.phase == Ended then w
      else if s.closed then Abort(w, i)
      else if s.phase == AwaitingNick then
        var joined := BroadcastAll(w.sessions, JoinNotice(Shown(s.nickname)));
        w.(sessions := joined[i := joined[i].(phase := Ended)])
      else w.(sessions := w.sessions[i := s.(phase := Ended)])
  }

  /** A read on connection i throws an IOException. */
  function FailRead(w: World, i: nat): (r: World)
    ensures |r.sessions| == |w.sessions| && r.done == w.done && r.listenerClosed == w.listenerClosed
  {
    if i >= |w.sessions| || w.sessions[i].phase == Ended then w
    else Abort(w, i)
  }

  function Step(w: World, e: Event): (r: World)
    ensures |r.sessions| == |w.sessions| + (if e.Connected? && !w.done && !w.listenerClosed then 1 else 0)
    ensures w.done ==> r.done
  {
    match e
    case Connected => Accept(w)
    case LineReceived(i, line) => Receive(w, i, line)
    case StreamEnded(i) => EndStream(w, i)
    case ReadFailed(i) => FailRead(w, i)
    case ServerShutdown => Shutdown(w)
  }

  /** The events in order, each applied to the world the previous left.
      Once done is set it stays set, and the registry stops growing. */
  function Run(w: World, es: seq<Event>): (r: World)
    ensures w.done ==> r.done && |r.sessions| == |w.sessions|
    decreases |es|
  {
    if es == [] then w else Run(Step(w, es[0]), es[1..])
  }
}

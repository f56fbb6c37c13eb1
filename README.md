# Chat server session logic, modelled and proved in Dafny

This project models the session logic of a small multi-client TCP chat relay
(`Server.java`). The server accepts connections and keeps every connection
handler in a registry, in accept order. Each handler prompts its client for a
nickname, takes the first line as that nickname, and announces the join. After
that it reads lines until the stream ends:

- a line starting with `/nick` renames the client, or replies "No nickname
  provided" when it has no space;
- a line starting with `/quit` announces the departure and shuts the
  connection down;
- any other line is relayed to everybody as `nick : line`.

Server shutdown sets `done`, closes the listening socket if it is still open,
and shuts every handler down.

The model is in four modules:

- `Protocol` (`protocol.dfy`): the texts the server writes, the `split(" ", 2)`
  step (`SplitFirstSpace`) and the prefix classification of a line
  (`Classify`).
- `ChatModel` (`model.dfy`): the reference semantics as values.
  - A `Session` is what one handler holds: its nickname (`None` is Java
    `null`), every line printed to its client (`outbox`), whether it has been
    shut down, and how far its `run` has got.
  - A `World` is the registry plus the `done` flag and the listener's state.
  - Socket and thread activity becomes `Event`s: a connection accepted, a line
    read, the stream ended, a read failed, the server shut down. `Step` applies
    one event and `Run` applies a list of them.
- `ChatServer` (`server.dfy`): the imperative form, with classes
  `ConnectionHandler` and `Server`.
  - `Server` keeps a `seq<ConnectionHandler>` registry.
  - Each method that handles a whole event, or one step of `run` (accept,
    broadcast, shutdown, registration, rename, quit, dispatch, end of
    stream, failed read), is proved to change `Server.Model()` exactly as
    the matching `ChatModel` function says. `Handle(e)` is proved to refine
    `Step`.
  - The single-handler helpers `SetNickname`, `SetPhase`, `Tell` and
    `CloseHandler` state their effect on the registry's sessions directly:
    handler i changes as stated, and every other handler is left alone.
- `ChatProperties` (`properties.dfy`): what the server promises, proved about
  the reference semantics. These are the effect of each kind of line on every
  client's outbox, that the registry never shrinks, that shutdown is
  idempotent, and that a connection once shut down never receives another
  line. The module ends with an end-to-end two-client exchange.

Java behaviour the model captures explicitly:

- `PrintWriter.println` on a closed writer discards the line silently. So a
  broadcast reaches only handlers that have not been shut down (`Deliver`).
- A read on a closed reader throws `IOException`. The catch shuts the handler
  down (again) and `run` returns (`Abort`).
- After `/quit`, the next read therefore fails: the handler is shut down a
  second time, with no further effect.
- Nickname `null` prints as `"null"` (`Shown`).
  - If the client's stream ends before it sends a nickname, `nickname` stays
    null and `"null joined the chat!"` is broadcast.
  - The read loop then sees the end of stream again and `run` returns
    (`ChatProperties.EndBeforeNickEffect`).
- The rename notice is spelled as the server spells it: no space before
  "renamed", and "themselved".

The model follows the code, including where one might expect otherwise:

- Nothing is ever removed from the registry, although the field's comment
  (`Server.java:56`) calls it the list of active connections. A handler that
  quit or failed stays registered, and broadcasts to it are dropped by its
  closed writer
  (`ChatProperties.RegistryNeverShrinks`, `ChatProperties.ClosedStaysSilent`).
- An end of stream inside the read loop ends `run` without shutting the
  connection down and without any notice (`ChatProperties.EndOfStreamEffect`).
- Nicknames are not validated. Empty names (`/nick `) and names with spaces
  are accepted (`ChatProperties.EmptyNewNickname`,
  `ChatProperties.NewNicknameKeepsSpaces`).
- The sender receives its own broadcasts.

## Model

| member | source | states |
|---|---|---|
| Protocol.Prompt | src/main/java/com/chat/Server.java:126 | the prompt each new client is sent first, "Please enter a nick name: " with its trailing space |
| Protocol.NoNickname | src/main/java/com/chat/Server.java:141 | the reply to a `/nick` line without a space, "No nickname provided" |
| Protocol.JoinNotice | src/main/java/com/chat/Server.java:129 | the nickname followed by exactly " joined the chat!" |
| Protocol.RenameNotice | src/main/java/com/chat/Server.java:136 | the old nickname, then "renamed themselved to " with no space before it, then the new nickname |
| Protocol.RenameConfirmation | src/main/java/com/chat/Server.java:139 | "Successfully changed nickname to " followed by the new nickname |
| Protocol.LeaveNotice | src/main/java/com/chat/Server.java:144 | the nickname followed by exactly " left the chat!" |
| Protocol.ChatLine | src/main/java/com/chat/Server.java:147 | the nickname, " : ", then the line unchanged |
| Protocol.SplitFirstSpace | src/main/java/com/chat/Server.java:134 | one part exactly when the line has no space, and then it is the whole line; otherwise two parts, the first space-free, that rejoin with one space into the line |
| Protocol.SplitFirstSpaceOfJoin | src/main/java/com/chat/Server.java:134 | splitting a space-free head, a space and any tail gives exactly head and tail, so everything after the first space (empty, or with more spaces) is the second part |
| Protocol.Classify | src/main/java/com/chat/Server.java:133-148 | rename iff the line starts with `/nick` and holds a space; no-nickname iff it starts with `/nick` and holds none; quit iff it starts with `/quit` but not `/nick`; chat otherwise, carrying the line unchanged; a rename's name follows the first space after a `/nick...` word |
| Protocol.ClassifyRename | src/main/java/com/chat/Server.java:133-135 | any `/nick...` word, a space and any text renames to exactly that text |
| ChatModel.Deliver | src/main/java/com/chat/Server.java:155-157 | an open handler's outbox gains the line at its end; a shut-down handler's closed writer drops it; nickname, closed flag and phase unchanged |
| ChatModel.Close | src/main/java/com/chat/Server.java:159-169 | the handler is shut down; nickname, outbox and phase unchanged |
| ChatModel.BroadcastAll | src/main/java/com/chat/Server.java:85-92 | same length and order; each handler is ChatModel.Deliver of the message to the old one: sent once if its connection is open, nothing if it is shut down, nothing else about it changed |
| ChatModel.CloseAll | src/main/java/com/chat/Server.java:101-103 | same length and order; each handler is ChatModel.Close of the old one: shut down, with nickname, outbox and phase unchanged |
| ChatModel.Shutdown | src/main/java/com/chat/Server.java:94-107 | done set, listener closed, same registry length, every handler shut down with nothing else about it changed |
| ChatModel.Accept | src/main/java/com/chat/Server.java:73-82 | one handler is added when the loop is running and the listener open, none otherwise; done is set afterwards exactly when it was set or the listener was closed |
| ChatModel.Abort | src/main/java/com/chat/Server.java:150-152 | registry length and server flags unchanged (effect: ChatProperties.ReadFailureEffect) |
| ChatModel.Register | src/main/java/com/chat/Server.java:127-129 | registry length and server flags unchanged (effect: ChatProperties.RegisterEffect) |
| ChatModel.Renamed | src/main/java/com/chat/Server.java:135-139 | registry length and server flags unchanged (effect: ChatProperties.RenameEffect) |
| ChatModel.Left | src/main/java/com/chat/Server.java:143-145 | registry length and server flags unchanged (effect: ChatProperties.QuitEffect) |
| ChatModel.Dispatch | src/main/java/com/chat/Server.java:133-148 | registry length and server flags unchanged |
| ChatModel.Receive | src/main/java/com/chat/Server.java:127-148 | registry length and server flags unchanged |
| ChatModel.EndStream | src/main/java/com/chat/Server.java:132 | registry length and server flags unchanged (effect: ChatProperties.EndOfStreamEffect, ChatProperties.EndBeforeNickEffect) |
| ChatModel.FailRead | src/main/java/com/chat/Server.java:150-152 | registry length and server flags unchanged |
| ChatModel.Step | src/main/java/com/chat/Server.java:73-77 | the registry grows by one on an accepted connection while the server runs, and keeps its length on every other event; done, once set, stays set |
| ChatModel.Run | src/main/java/com/chat/Server.java:73 | once done is set, any run of events leaves it set and the registry never grows again |
| ChatServer.ConnectionHandler.constructor | src/main/java/com/chat/Server.java:116-118 | a new handler has a null nickname, has printed nothing and is open |
| ChatServer.ConnectionHandler.SendMessage | src/main/java/com/chat/Server.java:155-157 | the message is appended to the outbox if the handler is open; a shut-down handler is unchanged |
| ChatServer.ConnectionHandler.Shutdown | src/main/java/com/chat/Server.java:159-169 | the handler is closed; nickname, outbox and phase unchanged |
| ChatServer.Server.constructor | src/main/java/com/chat/Server.java:61-64 | empty registry, done unset, listener open |
| ChatServer.Server.Broadcast | src/main/java/com/chat/Server.java:85-92 | the registry list and the server flags are unchanged, and the handlers' states become ChatModel.BroadcastAll of the old ones |
| ChatServer.Server.Shutdown | src/main/java/com/chat/Server.java:94-107 | same registry list; the state becomes ChatModel.Shutdown of the old one |
| ChatServer.Server.Accept | src/main/java/com/chat/Server.java:73-82 | the state becomes ChatModel.Accept of the old one; a fresh handler is appended at the end and returned exactly when done was unset and the listener open |
| ChatServer.Server.SetNickname | src/main/java/com/chat/Server.java:138 | only handler i changes, and only its nickname |
| ChatServer.Server.SetPhase | src/main/java/com/chat/Server.java:121-153 | only handler i changes, and only where its `run` is |
| ChatServer.Server.Tell | src/main/java/com/chat/Server.java:141 | only handler i changes, as by ChatModel.Deliver |
| ChatServer.Server.CloseHandler | src/main/java/com/chat/Server.java:145 | only handler i changes: it is shut down |
| ChatServer.Server.AbortRun | src/main/java/com/chat/Server.java:150-152 | the state becomes ChatModel.Abort of the old one |
| ChatServer.Server.Register | src/main/java/com/chat/Server.java:127-129 | the state becomes ChatModel.Register of the old one |
| ChatServer.Server.ChangeNickname | src/main/java/com/chat/Server.java:135-139 | the state becomes ChatModel.Renamed of the old one |
| ChatServer.Server.Leave | src/main/java/com/chat/Server.java:143-145 | the state becomes ChatModel.Left of the old one |
| ChatServer.Server.Dispatch | src/main/java/com/chat/Server.java:133-148 | the state becomes ChatModel.Dispatch of the old one |
| ChatServer.Server.Receive | src/main/java/com/chat/Server.java:127-148 | the state becomes ChatModel.Receive of the old one |
| ChatServer.Server.EndOfStream | src/main/java/com/chat/Server.java:132 | the state becomes ChatModel.EndStream of the old one |
| ChatServer.Server.ReadFailure | src/main/java/com/chat/Server.java:150-152 | the state becomes ChatModel.FailRead of the old one |
| ChatServer.Server.Handle | src/main/java/com/chat/Server.java:73-152 | the registry stays free of duplicate handlers and only grows at its end, and the state becomes ChatModel.Step of the old state and the event |
| ChatProperties.AcceptAppendsOne | src/main/java/com/chat/Server.java:74-77 | accepting appends exactly one session at the end, with a null nickname and the prompt as its only line, changing no other session; once done is set nothing is accepted |
| ChatProperties.RegistryNeverShrinks | src/main/java/com/chat/Server.java:76 | over any run of events, including `/quit` and shutdown, the registry is never shorter than at the start |
| ChatProperties.RegisterAt | src/main/java/com/chat/Server.java:127-129 | after registration the new handler holds the nickname, has been sent the join notice and is in the read loop; every other handler has been sent the join notice |
| ChatProperties.RenamedAt | src/main/java/com/chat/Server.java:136-139 | the renaming handler is sent the notice, takes the new name and is sent the confirmation; every other handler is sent the notice |
| ChatProperties.LeftAt | src/main/java/com/chat/Server.java:144-145 | the quitting handler is sent the leave notice, then is shut down and ends; every other handler is sent the notice |
| ChatProperties.OthersHearTheBroadcast | src/main/java/com/chat/Server.java:85-92 | for any line, end of stream or read failure, every handler other than the one it concerns is sent exactly the one line the event broadcasts, or nothing |
| ChatProperties.StepPreservesWellFormed | src/main/java/com/chat/Server.java:127-138 | every event keeps these true: a handler waiting for its first line has no nickname, one in the read loop has one, done is set exactly when the listener is closed |
| ChatProperties.RunPreservesWellFormed | src/main/java/com/chat/Server.java:127-138 | any run of events starting from a well-formed state keeps it well formed |
| ChatProperties.ReachableIsWellFormed | src/main/java/com/chat/Server.java:61-64 | every state reachable from the freshly started server is well formed |
| ChatProperties.RegisterEffect | src/main/java/com/chat/Server.java:126-129 | the first line becomes the nickname unchanged; the new handler's outbox gains the join notice and it enters the read loop; every other handler is sent the join notice |
| ChatProperties.EndBeforeNickEffect | src/main/java/com/chat/Server.java:127-132 | a stream that ends before any nickname makes everyone open, the handler included, receive "null joined the chat!"; `run` ends without shutting the connection down |
| ChatProperties.RenameEffect | src/main/java/com/chat/Server.java:133-139 | `/nick...`, a space and a name: the notice under the old nickname goes to every open handler, then the nickname is set, then the sender alone gets the confirmation |
| ChatProperties.NickMissingEffect | src/main/java/com/chat/Server.java:140-142 | a `/nick...` line without a space only appends "No nickname provided" to the sender; nothing else in the state changes |
| ChatProperties.QuitEffect | src/main/java/com/chat/Server.java:143-145 | every open handler, the sender included, receives the leave notice; then the sender is shut down and its `run` ends |
| ChatProperties.ChatEffect | src/main/java/com/chat/Server.java:146-148 | any other line goes to every open handler, the sender included, as `nick : line` under the sender's current nickname |
| ChatProperties.EndOfStreamEffect | src/main/java/com/chat/Server.java:132 | end of stream in the read loop only ends `run`; no one is told and the connection is not shut down |
| ChatProperties.ReadFailureEffect | src/main/java/com/chat/Server.java:150-152 | a read that throws, or any read on a shut-down connection, shuts the handler down and ends `run`, telling no one |
| ChatProperties.RenameThenChat | src/main/java/com/chat/Server.java:136-147 | after a rename, the sender's next chat line goes out under the new nickname |
| ChatProperties.HandlerShutdownIdempotent | src/main/java/com/chat/Server.java:159-169 | handler shutdown twice equals shutdown once; it keeps the nickname and the outbox |
| ChatProperties.ShutdownEffect | src/main/java/com/chat/Server.java:94-107 | server shutdown sets done, leaves the listener closed, keeps every handler in the registry and shuts every one down, changing nothing else about it |
| ChatProperties.ShutdownIdempotent | src/main/java/com/chat/Server.java:94-107 | server shutdown twice equals server shutdown once |
| ChatProperties.StepKeepsClosedSilent | src/main/java/com/chat/Server.java:155-157 | one event leaves a shut-down handler shut down, with the same outbox and nickname |
| ChatProperties.ClosedStaysSilent | src/main/java/com/chat/Server.java:155-157 | once shut down, a handler stays registered and shut down, and receives no further line over any run of events |
| ChatProperties.EndedStaysEnded | src/main/java/com/chat/Server.java:132-152 | once a handler's `run` has returned, no run of events restarts it |
| ChatProperties.QuitIsFinal | src/main/java/com/chat/Server.java:143-145 | after `/quit` and any further run of events, the client's handler is shut down and ended, a line from it changes nothing, and the leave notice is still the last line it received |
| ChatProperties.StoppedIsQuiet | src/main/java/com/chat/Server.java:73 | from a stopped server no event accepts a connection or prints anything to anyone |
| ChatProperties.ShutdownIsFinal | src/main/java/com/chat/Server.java:94-107 | after server shutdown, over any run of events, the server stays done, the registry keeps its length, and every handler is shut down and receives nothing more |
| ChatProperties.NicknameWordRenames | src/main/java/com/chat/Server.java:133-135 | `/nickname bob` renames to `bob`: the command is a prefix test |
| ChatProperties.EmptyNewNickname | src/main/java/com/chat/Server.java:134-135 | `/nick ` renames to the empty name |
| ChatProperties.NewNicknameKeepsSpaces | src/main/java/com/chat/Server.java:134 | `/nick a b` renames to `a b` |
| ChatProperties.NickWithoutSpace | src/main/java/com/chat/Server.java:140-142 | `/nick` and `/nick/quit` both get "No nickname provided" |
| ChatProperties.QuitIsPrefixMatched | src/main/java/com/chat/Server.java:143 | `/quitter` quits; `hello /quit` is relayed as chat |
| ChatProperties.TwoClients | src/main/java/com/chat/Server.java:126-147 | two clients connect and name themselves `a` and `b`, then `a` says `hi`: both receive the prompt, the two join notices in that order, then `a : hi` |

## Left out

- Sockets and streams (`ServerSocket`, `Socket`, `BufferedReader`,
  `PrintWriter`). Reads are the events of `ChatModel.Event`. A write is an
  append to the handler's `outbox`. Binding port 9999 is assumed to succeed:
  `ChatModel.Initial` is the bound server.
- The thread pool and all concurrency. Events are processed one at a time, so
  the model does not capture any of these:
  - unsynchronised `ArrayList` access;
  - the non-volatile `done` flag;
  - a broadcast reaching a handler whose `run` has not yet opened its writer.
  The model takes the start of each handler's `run` (opening the streams and
  printing the prompt) as part of the accept.
- `pool.shutdown()`, and console logging through `System.out` and
  `System.err`.
- Close-time `IOException`s. They are not modelled, so neither is the case in
  which a failing `server.close()` skips the loop that shuts the handlers down.
- The `ch != null` test in `broadcast`: the registry holds only handlers made
  by the accept loop, so the test always passes.
- The order of deliveries across different clients. Each outbox records what
  one client received, in order, but no global interleaving is kept.
- `ServerShutdown` stands for any failure of `accept` that sends the accept
  loop into its catch.
- The `main` method, which only constructs and runs the server.
- `Client.java` and `Main.java` are not part of this model.

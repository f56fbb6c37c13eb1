/**
 The line protocol of the chat server: the fixed texts it writes to clients,
 the prefix commands it recognises, and the `split(" ", 2)` step that takes a
 `/nick` line apart.
 */
module Protocol {

  /** Written to a client as soon as its connection handler starts. */
  const Prompt: string := "Please enter a nick name: "

  /** Unicast reply to a `/nick` line that has no space in it. */
  const NoNickname: string := "No nickname provided"

  const NickCommand: string := "/nick"
  const QuitCommand: string := "/quit"

  /** Broadcast once a client has sent its nickname. */
  function JoinNotice(nick: string): (r: string)
    ensures |r| == |nick| + 17
    ensures r[..|nick|] == nick && r[|nick|..] == " joined the chat!"
  {
    nick + " joined the chat!"
  }

  /** The rename broadcast, spelled as the server spells it: no space before
      "renamed", and "themselved". */
  function RenameNotice(oldNick: string, newNick: string): (r: string)
    ensures |r| == |oldNick| + 22 + |newNick|
    ensures r[..|oldNick|] == oldNick
    ensures r[|oldNick|..|oldNick| + 22] == "renamed themselved to "
    ensures r[|oldNick| + 22..] == newNick
  {
    oldNick + "renamed themselved to " + newNick
  }

  /** Sent to the renamed client alone. */
  function RenameConfirmation(newNick: string): (r: string)
    ensures |r| == 33 + |newNick|
    ensures r[..33] == "Successfully changed nickname to " && r[33..] == newNick
  {
    "Successfully changed nickname to " + newNick
  }

  /** Broadcast on `/quit`. */
  function LeaveNotice(nick: string): (r: string)
    ensures |r| == |nick| + 15
    ensures r[..|nick|] == nick && r[|nick|..] == " left the chat!"
  {
    nick + " left the chat!"
  }

  /** A relayed line: the sender's nickname, " : ", the line unchanged. */
  function ChatLine(nick: string, message: string): (r: string)
    ensures |r| == |nick| + 3 + |message|
    ensures r[..|nick|] == nick && r[|nick|..|nick| + 3] == " : " && r[|nick| + 3..] == message
  {
    nick + " : " + message
  }

  /** Position of the first space in `s`, or |s| when there is none. */
  function IndexOfSpace(s: string): (k: nat)
    ensures k <= |s|
    ensures k < |s| ==> s[k] == ' '
    ensures forall j :: 0 <= j < k ==> s[j] != ' '
  {
    if s == [] then 0
    else if s[0] == ' ' then 0
    else 1 + IndexOfSpace(s[1..])
  }

  /** Java's `s.split(" ", 2)`: the whole string when it holds no space,
      otherwise the text before the first space and everything after it
      (which may be empty, or hold further spaces). */
  function SplitFirstSpace(s: string): (parts: seq<string>)
    ensures 1 <= |parts| <= 2
    ensures |parts| == 1 <==> ' ' !in s
    ensures |parts| == 1 ==> parts[0] == s
    ensures |parts| == 2 ==> s == parts[0] + " " + parts[1] && ' ' !in parts[0]
  {
    var k := IndexOfSpace(s);
    if k == |s| then [s]
    else
      assert s == s[..k] + " " + s[k + 1..];
      [s[..k], s[k + 1..]]
  }

  /** Splitting undoes joining at a first space: the converse of the last
      postcondition of SplitFirstSpace. */
  lemma {:induction false} SplitFirstSpaceOfJoin(head: string, tail: string)
    requires ' ' !in head
    ensures SplitFirstSpace(head + " " + tail) == [head, tail]
  {
    var s := head + " " + tail;
    var k := IndexOfSpace(s);
    assert s[|head|] == ' ';
    assert k == |head|;
    assert s[..k] == head;
    assert s[k + 1..] == tail;
  }

  /** What the read loop does with one line, decided by prefix alone. */
  datatype Command =
    | Rename(newNick: string)
    | NickMissing
    | Quit
    | Chat(text: string)

  /** The if / else-if chain of the read loop: `/nick` is tested before
      `/quit`, and both are `startsWith` tests, so `/nickname x` renames and
      `/quitter` quits. */
  function Classify(line: string): (c: Command)
    ensures c.Rename? <==> NickCommand <= line && ' ' in line
    ensures c.NickMissing? <==> NickCommand <= line && ' ' !in line
    ensures c.Quit? <==> !(NickCommand <= line) && QuitCommand <= line
    ensures c.Chat? <==> !(NickCommand <= line) && !(QuitCommand <= line)
    ensures c.Chat? ==> c.text == line
    ensures c.Rename? ==> exists head :: line == head + " " + c.newNick && ' ' !in head && NickCommand <= head
  {
    if NickCommand <= line then
      var parts := SplitFirstSpace(line);
      if |parts| == 2 then
        assert NickCommand <= parts[0] by {
          assert ' ' !in NickCommand;
          assert line[..|NickCommand|] == NickCommand;
          assert IndexOfSpace(line) >= |NickCommand|;
        }
        Rename(parts[1])
      else NickMissing
    else if QuitCommand <= line then Quit
    else Chat(line)
  }

  /** The converse of Classify's rename case: a `/nick...` word, a space and
      any text renames to exactly that text. */
  lemma ClassifyRename(head: string, newNick: string)
    requires NickCommand <= head && ' ' !in head
    ensures Classify(head + " " + newNick) == Rename(newNick)
  {
    var line := head + " " + newNick;
    assert line[..|head|] == head;
    assert NickCommand <= line;
    SplitFirstSpaceOfJoin(head, newNick);
  }
}

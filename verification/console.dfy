/**
 The simulated console of the server control page: a log of lines and an input
 field. Submitting a non-blank input appends an echo of it and exactly one
 canned reply, then clears the input.
 */
module Console {
  import opened Wrappers
  import opened Text

  datatype Console = Console(log: seq<string>, command: string)

  const ServerTag: string := "[Server] "
  const EchoTag: string := "> "

  /** A line the simulated server writes. */
  function ServerLine(text: string): (line: string)
    ensures StartsWith(line, ServerTag)
  {
    assert (ServerTag + text)[..|ServerTag|] == ServerTag;
    ServerTag + text
  }

  const InitialLog: seq<string> := [
    ServerLine("Starting Minecraft server..."),
    ServerLine("Loading world..."),
    ServerLine("Server started successfully!"),
    ServerLine("Ready for players")
  ]

  const InitialConsole: Console := Console(InitialLog, "")

  const HelpReply: string := ServerLine("Available commands: stop, list, say, tp, gamemode")
  const ListPrefix: string := "Online players: "
  const BroadcastPrefix: string := "Broadcast: "
  const DefaultReply: string := ServerLine("Command executed")

  /** The line that records a submitted command: the echo tag, then the
      command exactly as typed. */
  function Echo(command: string): (line: string)
    ensures StartsWith(line, EchoTag) && line[|EchoTag|..] == command
  {
    assert (EchoTag + command)[..|EchoTag|] == EchoTag;
    EchoTag + command
  }

  /** The `list` reply: players online (the page's player list length) over
      the server's maximum. */
  function ListReply(online: nat, maxPlayers: nat): (line: string)
    ensures StartsWith(line, ServerTag + ListPrefix)
  {
    var shown := NatToString(online) + "/" + NatToString(maxPlayers);
    assert (ServerTag + ListPrefix + shown)[..|ServerTag + ListPrefix|] == ServerTag + ListPrefix;
    assert ServerLine(ListPrefix + shown) == ServerTag + ListPrefix + shown;
    ServerLine(ListPrefix + shown)
  }

  /** The reply to a submitted command, chosen on the command as typed (not
      trimmed): exact `help`, then exact `list`, then the prefix `say `, then
      the generic reply. Every reply is a server line. */
  function Reply(command: string, online: nat, maxPlayers: nat): (r: string)
    ensures command == "help" ==> r == HelpReply
    ensures command == "list" ==> r == ListReply(online, maxPlayers)
    ensures StartsWith(command, "say ") ==> r == ServerLine(BroadcastPrefix + command[4..])
    ensures command != "help" && command != "list" && !StartsWith(command, "say ")
            ==> r == DefaultReply
    ensures StartsWith(r, ServerTag)
  {
    if command == "help" then HelpReply
    else if command == "list" then ListReply(online, maxPlayers)
    else if StartsWith(command, "say ") then ServerLine(BroadcastPrefix + command[4..])
    else DefaultReply
  }

  /** `executeCommand`: a blank input changes nothing (the input keeps what was
      typed); otherwise the log grows by the echo and the reply, and the input
      is cleared. */
  function ExecuteCommand(c: Console, online: nat, maxPlayers: nat): (d: Console)
    ensures IsBlank(c.command) ==> d == c
    ensures !IsBlank(c.command) ==>
      && |d.log| == |c.log| + 2
      && d.log[..|c.log|] == c.log
      && d.log[|c.log|] == Echo(c.command)
      && d.log[|c.log| + 1] == Reply(c.command, online, maxPlayers)
      && d.command == []
  {
    if IsBlank(c.command) then c
    else Console(c.log + [Echo(c.command), Reply(c.command, online, maxPlayers)], "")
  }

  /** The command an echo line records, if the line is an echo. */
  function EchoedCommand(line: string): (r: Option<string>)
    ensures r.Some? ==> Echo(r.value) == line
  {
    if StartsWith(line, EchoTag) then Some(line[|EchoTag|..]) else None
  }

  /** An echo gives back exactly the command typed. */
  lemma EchoRoundTrip(command: string)
    ensures EchoedCommand(Echo(command)) == Some(command)
  {
  }

  /** No server line is mistaken for an echo. */
  lemma ServerLineIsNoEcho(line: string)
    requires StartsWith(line, ServerTag)
    ensures EchoedCommand(line) == None
  {
    assert line[0] == ServerTag[0];
  }

  /** The command one line records: its command if it is an echo, else none. */
  function Recorded(line: string): seq<string> {
    match EchoedCommand(line)
    case Some(cmd) => [cmd]
    case None => []
  }

  /** The commands a log records, in order. */
  function Commands(log: seq<string>): seq<string> {
    if log == [] then []
    else Commands(log[..|log| - 1]) + Recorded(log[|log| - 1])
  }

  lemma CommandsAppend(log: seq<string>, line: string)
    ensures Commands(log + [line]) == Commands(log) + Recorded(line)
  {
  }

  /** The inputs that pass the blank guard, in order. */
  function NonBlank(inputs: seq<string>): seq<string> {
    if inputs == [] then []
    else NonBlank(inputs[..|inputs| - 1])
         + (if IsBlank(inputs[|inputs| - 1]) then [] else [inputs[|inputs| - 1]])
  }

  /** Typing each input in turn and pressing Enter. */
  function Session(c: Console, inputs: seq<string>, online: nat, maxPlayers: nat): Console {
    if inputs == [] then c
    else
      var before := Session(c, inputs[..|inputs| - 1], online, maxPlayers);
      ExecuteCommand(before.(command := inputs[|inputs| - 1]), online, maxPlayers)
  }

  /** One submission adds its command to the recorded history, or nothing if
      it was blank. */
  lemma ExecuteRecordsCommand(c: Console, online: nat, maxPlayers: nat)
    ensures Commands(ExecuteCommand(c, online, maxPlayers).log)
         == Commands(c.log) + (if IsBlank(c.command) then [] else [c.command])
  {
    if !IsBlank(c.command) {
      EchoThenServerLine(c.log, c.command, Reply(c.command, online, maxPlayers));
    }
  }

  /** An echo followed by a server line records exactly the echoed command. */
  lemma EchoThenServerLine(log: seq<string>, command: string, reply: string)
    requires StartsWith(reply, ServerTag)
    ensures Commands(log + [Echo(command), reply]) == Commands(log) + [command]
  {
    var echo := Echo(command);
    ServerLineIsNoEcho(reply);
    EchoRoundTrip(command);
    CommandsAppend(log, echo);
    CommandsAppend(log + [echo], reply);
    assert log + [echo, reply] == log + [echo] + [reply];
  }

  /** A log of server lines only records no command. */
  lemma {:induction false} ServerLinesRecordNoCommands(log: seq<string>)
    requires forall i :: 0 <= i < |log| ==> StartsWith(log[i], ServerTag)
    ensures Commands(log) == []
  {
    if log != [] {
      ServerLinesRecordNoCommands(log[..|log| - 1]);
      ServerLineIsNoEcho(log[|log| - 1]);
      assert Recorded(log[|log| - 1]) == [];
    }
  }

  /** The opening log records no command. */
  lemma InitialLogHasNoCommands()
    ensures Commands(InitialLog) == []
  {
    ServerLinesRecordNoCommands(InitialLog);
  }

  /** After any session the log's echo lines are exactly the non-blank inputs,
      in the order they were submitted, and every submission added two lines. */
  lemma {:induction false} SessionHistory(inputs: seq<string>, online: nat, maxPlayers: nat)
    ensures var c := Session(InitialConsole, inputs, online, maxPlayers);
            && Commands(c.log) == NonBlank(inputs)
            && |c.log| == |InitialLog| + 2 * |NonBlank(inputs)|
    decreases |inputs|
  {
    if inputs == [] {
      InitialLogHasNoCommands();
    } else {
      var init := inputs[..|inputs| - 1];
      SessionHistory(init, online, maxPlayers);
      var before := Session(InitialConsole, init, online, maxPlayers);
      ExecuteRecordsCommand(before.(command := inputs[|inputs| - 1]), online, maxPlayers);
    }
  }

  /** The message a broadcast line carries, if it is one. */
  function BroadcastMessage(line: string): (r: Option<string>)
    ensures r.Some? ==> ServerLine(BroadcastPrefix + r.value) == line
  {
    var tag := ServerTag + BroadcastPrefix;
    if StartsWith(line, tag) then Some(line[|tag|..]) else None
  }

  /** `say <text>` broadcasts exactly `<text>`, everything after the first four
      characters, spaces included. */
  lemma SayBroadcastsText(text: string, online: nat, maxPlayers: nat)
    ensures BroadcastMessage(Reply("say " + text, online, maxPlayers)) == Some(text)
  {
    var cmd := "say " + text;
    assert cmd[..4] == "say ";
    assert cmd[4..] == text;
    var tag := ServerTag + BroadcastPrefix;
    var r := ServerLine(BroadcastPrefix + text);
    assert r == tag + text;
    assert r[..|tag|] == tag;
    assert r[|tag|..] == text;
  }

  /** What follows `[Server] Online players: ` in the `list` reply is the
      online count in decimal, then the first '/', then the maximum in decimal. */
  lemma ListReplyShowsCounts(online: nat, maxPlayers: nat)
    ensures var shown := ListReply(online, maxPlayers)[|ServerTag + ListPrefix|..];
            var k := |NatToString(online)|;
            && k < |shown| && shown[k] == '/' && '/' !in shown[..k]
            && IsDigits(shown[..k]) && DigitsValue(shown[..k]) == online
            && IsDigits(shown[k + 1..]) && DigitsValue(shown[k + 1..]) == maxPlayers
  {
    ListReplyShown(online, maxPlayers);
    NatToStringHasNoSlash(online);
    NatToStringRoundTrip(online);
    NatToStringRoundTrip(maxPlayers);
    NumeralsAroundSlash(ListReply(online, maxPlayers)[|ServerTag + ListPrefix|..],
                        NatToString(online), NatToString(maxPlayers), online, maxPlayers);
  }

  /** The `list` reply after its tag is the two numerals around a '/'. */
  lemma ListReplyShown(online: nat, maxPlayers: nat)
    ensures ListReply(online, maxPlayers)[|ServerTag + ListPrefix|..]
         == NatToString(online) + "/" + NatToString(maxPlayers)
  {
    var shown := NatToString(online) + "/" + NatToString(maxPlayers);
    assert ListReply(online, maxPlayers) == ServerTag + ListPrefix + shown;
    assert (ServerTag + ListPrefix + shown)[|ServerTag + ListPrefix|..] == shown;
  }

  /** In "x/y" with `x` and `y` numerals and no '/' in `x`, the part before
      the first '/' reads as `x` and the part after it as `y`. */
  lemma NumeralsAroundSlash(shown: string, a: string, b: string, x: nat, y: nat)
    requires shown == a + "/" + b && '/' !in a
    requires IsDigits(a) && DigitsValue(a) == x && IsDigits(b) && DigitsValue(b) == y
    ensures var k := |a|;
            && k < |shown| && shown[k] == '/' && '/' !in shown[..k]
            && IsDigits(shown[..k]) && DigitsValue(shown[..k]) == x
            && IsDigits(shown[k + 1..]) && DigitsValue(shown[k + 1..]) == y
  {
    SlashedParts(a, b);
  }

  /** The parts of "x/y" around the '/' after `x`. */
  lemma SlashedParts(a: string, b: string)
    ensures var s := a + "/" + b;
            && |a| < |s| && s[..|a|] == a && s[|a|] == '/' && s[|a| + 1..] == b
  {
    var s := a + "/" + b;
    assert s[..|a|] == a;
    assert s[|a| + 1..] == b;
  }

  /** The `list` reply determines both counts it shows. */
  lemma ListReplyDeterminesCounts(o1: nat, m1: nat, o2: nat, m2: nat)
    requires ListReply(o1, m1) == ListReply(o2, m2)
    ensures o1 == o2 && m1 == m2
  {
    var a, b := NatToString(o1), NatToString(m1);
    var c, d := NatToString(o2), NatToString(m2);
    var l := a + "/" + b;
    var r := c + "/" + d;
    var tag := ServerTag + ListPrefix;
    assert ListReply(o1, m1) == tag + l;
    assert ListReply(o2, m2) == tag + r;
    assert l == (tag + l)[|tag|..];
    assert r == (tag + r)[|tag|..];
    NatToStringHasNoSlash(o1);
    NatToStringHasNoSlash(o2);
    SplitAtFirstSlash(a, b, c, d);
    NatToStringInjective(o1, o2);
    NatToStringInjective(m1, m2);
  }

  /** Splitting "x/y" at its first '/' is unambiguous when `x` has no '/'. */
  lemma SplitAtFirstSlash(a: string, b: string, c: string, d: string)
    requires '/' !in a && '/' !in c
    requires a + "/" + b == c + "/" + d
    ensures a == c && b == d
  {
    var s := a + "/" + b;
    assert s[|a|] == '/' && s[|c|] == '/';
    assert forall i :: 0 <= i < |a| ==> s[i] == a[i];
    assert forall i :: 0 <= i < |c| ==> s[i] == c[i];
    assert |a| == |c|;
    assert a == s[..|a|] == c;
    assert b == s[|a| + 1..] == d;
  }

  /** Matching is on the raw input: any `help` padded with white space is not
      recognised and gets the generic reply. */
  lemma UntrimmedHelpIsGeneric(command: string, online: nat, maxPlayers: nat)
    requires Trim(command) == "help" && command != "help"
    ensures Reply(command, online, maxPlayers) == DefaultReply
  {
    TrimIsInnerSlice(command);
    var a, b :| 0 <= a <= b <= |command| && Trim(command) == command[a..b]
                && AllWhitespace(command[..a]) && AllWhitespace(command[b..]);
    if a == 0 {
      assert command[0] == Trim(command)[0];
    } else {
      assert command[0] == command[..a][0];
    }
    assert command != "list" && !StartsWith(command, "say ") by {
      assert command[0] == 'h' || IsJsWhitespace(command[0]);
    }
  }
}

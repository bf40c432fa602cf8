/**
 * The agent's turn logic and its read-eval loop.
 * A turn reads one line. `exit` (any case, surrounding white space ignored) ends the loop.
 * A line starting with `tool:` is run directly against the registry. Any other line becomes a
 * prompt for the completion service, and the reply is searched for a `TOOL_CALL:` directive.
 * The completion service is the stream `replies`: its k-th element is the text of the k-th
 * completion, and the prompts sent are recorded. The tools' bodies are opaque functions.
 */
module Agent {
  import opened Optional
  import opened JsString
  import opened ToolClient
  import opened ToolCallPattern
  import PlaywrightTool

  const Welcome := "Welcome to the Tiny Agent! Type 'exit' to quit."
  const Farewell := "Goodbye!"
  const DirectPrefix := "tool:"

  /** `userInput.trim().toLowerCase() === "exit"` */
  predicate IsExit(input: string) {
    LowerCase(Trim(input)) == "exit"
  }

  /** `userInput.startsWith("tool:")`: case-sensitive, on the untrimmed line. */
  predicate IsDirectCommand(input: string) {
    StartsWith(input, DirectPrefix)
  }

  /** Any case of `exit` between white space ends the loop. */
  lemma ExitWord(a: string, w: string, b: string)
    requires AllWhiteSpace(a) && AllWhiteSpace(b)
    requires LowerCase(w) == "exit"
    ensures IsExit(a + w + b)
  {
    assert LowerChar(w[0]) == 'e' && LowerChar(w[3]) == 't';
    TrimOfPadded(a, w, b);
  }

  /** Nothing else ends it: an exit line is white space, a case of `exit`, and white space. */
  lemma ExitIsPaddedWord(input: string)
    requires IsExit(input)
    ensures exists a, b :: AllWhiteSpace(a) && AllWhiteSpace(b) && input == a + Trim(input) + b
    ensures |Trim(input)| == 4 && LowerCase(Trim(input)) == "exit"
  {
    TrimSplitsInput(input);
  }

  /** The exit test and the `tool:` test never both hold, so their order does not matter. */
  lemma DirectCommandIsNotExit(input: string)
    requires IsDirectCommand(input)
    ensures !IsExit(input)
  {
    var a := input[..LeadingWhiteSpace(input)];
    assert input[0] == 't';
    if LeadingWhiteSpace(input) == 0 {
      var t := Trim(input);
      if |t| == 4 {
        assert input == t + input[4..] by { assert input[..4] == t; }
        assert LowerChar(input[4]) == ':' || IsWhiteSpace(input[4]);
      }
    }
  }

  /** The direct command `[_, toolName, ...args]`; `toolName` is `undefined` for a line without a space. */
  datatype DirectCommand = DirectCommand(name: Option<string>, argument: string)

  /** `const [_, toolName, ...args] = userInput.split(" ")` with the argument `args.join(" ")`. */
  function ParseDirectCommand(input: string): DirectCommand {
    var pieces := Split(input, ' ');
    DirectCommand(if |pieces| >= 2 then Some(pieces[1]) else None,
                  Join(if |pieces| >= 3 then pieces[2..] else [], " "))
  }

  /** A line without a space names no tool and has an empty argument. */
  lemma DirectCommandWithoutSpace(input: string)
    requires ' ' !in input
    ensures ParseDirectCommand(input) == DirectCommand(None, "")
  {
    SplitWithoutSeparator(input, ' ');
  }

  /** A line with one space names the text after it, with an empty argument. */
  lemma DirectCommandOneSpace(head: string, name: string)
    requires ' ' !in head && ' ' !in name
    ensures ParseDirectCommand(head + " " + name) == DirectCommand(Some(name), "")
  {
    SplitAtSeparator(head, ' ', name);
    SplitWithoutSeparator(head, ' ');
    SplitWithoutSeparator(name, ' ');
  }

  /** The name is the text between the first two spaces, the argument everything after the second. */
  lemma DirectCommandTwoSpaces(head: string, name: string, argument: string)
    requires ' ' !in head && ' ' !in name
    ensures ParseDirectCommand(head + " " + name + " " + argument) == DirectCommand(Some(name), argument)
  {
    var tail := name + [' '] + argument;
    assert head + " " + name + " " + argument == head + [' '] + tail;
    SplitAtSeparator(head, ' ', tail);
    SplitAtSeparator(name, ' ', argument);
    SplitWithoutSeparator(head, ' ');
    SplitWithoutSeparator(name, ' ');
    var pieces := Split(head + [' '] + tail, ' ');
    assert pieces == [head, name] + Split(argument, ' ');
    assert pieces[2..] == Split(argument, ' ');
    JoinSplit(argument, ' ');
  }

  /** The example in the comment on the `tool:` branch of `run` names the file-system tool and the file. */
  lemma DirectCommandExample()
    ensures ParseDirectCommand("tool: filesystem_read ./README.md") == DirectCommand(Some("filesystem_read"), "./README.md")
  {
    assert "tool: filesystem_read ./README.md" == "tool:" + " " + "filesystem_read" + " " + "./README.md";
    DirectCommandTwoSpaces("tool:", "filesystem_read", "./README.md");
  }

  /** One tool invocation: the tool's name and the text passed to `run`. */
  datatype Invocation = Invocation(tool: string, input: string)

  /** What a turn prints, and the tool it ran, if any. */
  datatype Outcome = Outcome(line: string, ran: Option<Invocation>)

  /** `Tool result: ${await tool.run(input)}` for the tool found under `name`. */
  function Invoke(name: string, t: Tool, input: string): (o: Outcome)
    ensures o.ran == Some(Invocation(name, input))
    ensures StartsWith(o.line, "Tool result: ") && o.line[|"Tool result: "|..] == t.run(input)
  {
    Outcome("Tool result: " + t.run(input), Some(Invocation(name, input)))
  }

  /** The text a template literal gives an optional name: `undefined` when absent. */
  function NameText(name: Option<string>): (r: string)
    ensures name.Some? ==> r == name.value
    ensures name.None? ==> r == "undefined"
  {
    match name
    case Some(n) => n
    case None => "undefined"
  }

  /** The direct path: the tool under the parsed name, or `No such tool: <name>`. */
  function DirectOutcome(tools: ToolMap, cmd: DirectCommand): Outcome {
    var tool := if cmd.name.Some? then Lookup(tools, cmd.name.value) else None;
    match tool
    case Some(t) => Invoke(cmd.name.value, t, cmd.argument)
    case None => Outcome("No such tool: " + NameText(cmd.name), None)
  }

  /** The reply path: the directive's tool, an unknown-tool notice, or the trimmed reply. */
  function ReplyOutcome(tools: ToolMap, response: string): Outcome {
    match ParseToolCall(response)
    case Some(d) =>
      (match Lookup(tools, d.name)
       case Some(t) => Invoke(d.name, t, d.argument)
       case None => Outcome("Agent: Tried to call unknown tool '" + d.name + "'.", None))
    case None => Outcome("Agent: " + Trim(response), None)
  }

  /** A direct command runs a tool exactly when it names a registered one, with the parsed argument. */
  lemma DirectOutcomeRuns(tools: ToolMap, cmd: DirectCommand)
    ensures var o := DirectOutcome(tools, cmd);
      && (o.ran.Some? <==> cmd.name.Some? && cmd.name.value in tools.entries)
      && (o.ran.Some? ==> o.ran.value == Invocation(cmd.name.value, cmd.argument))
  {
  }

  /** A command with no name is never run, even when a tool is registered under the text `undefined`:
      `Map.get` looks up the value `undefined`, which no string key equals. */
  lemma NoNameIsUnknown(tools: ToolMap, input: string)
    requires ' ' !in input
    ensures DirectOutcome(tools, ParseDirectCommand(input)) == Outcome("No such tool: undefined", None)
  {
    DirectCommandWithoutSpace(input);
  }

  /** A reply runs a tool exactly when its directive names a registered one, with the directive's argument. */
  lemma ReplyOutcomeRuns(tools: ToolMap, response: string)
    ensures var o := ReplyOutcome(tools, response); var d := ParseToolCall(response);
      && (o.ran.Some? <==> d.Some? && d.value.name in tools.entries)
      && (o.ran.Some? ==> o.ran.value == Invocation(d.value.name, d.value.argument))
  {
  }

  /** A line can be told apart by its first word: only a tool run prints `Tool result: `. */
  lemma OutcomeLines(tools: ToolMap, cmd: DirectCommand, response: string)
    ensures var o := DirectOutcome(tools, cmd);
      o.ran.Some? <==> StartsWith(o.line, "Tool result: ")
    ensures var o := ReplyOutcome(tools, response);
      o.ran.Some? <==> StartsWith(o.line, "Tool result: ")
    ensures DirectOutcome(tools, cmd).line != Farewell && ReplyOutcome(tools, response).line != Farewell
  {
    var o := DirectOutcome(tools, cmd);
    if o.ran.None? { assert o.line[0] == 'N'; }
    var p := ReplyOutcome(tools, response);
    if p.ran.None? { assert p.line[0] == 'A'; }
  }

  /** The bullet line of one tool in the prompt. */
  function ToolLine(t: Tool): (r: string)
    ensures |r| == |t.name| + |t.description| + 4
    ensures StartsWith(r, "- ") && r[2..2 + |t.name|] == t.name
    ensures r[2 + |t.name|..] == ": " + t.description
    ensures '\n' !in t.name && '\n' !in t.description ==> '\n' !in r
  {
    "- " + t.name + ": " + t.description
  }

  function ToolLines(listing: seq<Tool>): (r: seq<string>)
    ensures |r| == |listing| && forall i :: 0 <= i < |listing| ==> r[i] == ToolLine(listing[i])
  {
    seq(|listing|, i requires 0 <= i < |listing| => ToolLine(listing[i]))
  }

  const IntroLine := "You are an agent that can use tools."
  const ListHeading := "Available tools:"
  const FormatLine := "If you want to use a tool, reply only with:"
  const CallFormat := "TOOL_CALL: <tool_name> <arguments>"
  const OtherwiseLine := "Otherwise, reply as usual."

  /** `line`, a line break, then `rest`. */
  function Line(line: string, rest: string): string {
    line + "\n" + rest
  }

  /** Each of `lines` followed by a line break, then `rest`. */
  function Lines(lines: seq<string>, rest: string): string {
    if lines == [] then rest else Line(lines[0], Lines(lines[1..], rest))
  }

  const Header := [IntroLine, ListHeading]
  const Instructions := ["", FormatLine, CallFormat, OtherwiseLine, ""]

  /** `buildPrompt`: the template literal, line by line: the header, the tool listing in its slot,
      the instructions, then the user's input in the last slot. */
  function BuildPrompt(listing: seq<Tool>, userInput: string): string {
    Lines(Header, Line(Join(ToolLines(listing), "\n"), Lines(Instructions, userInput)))
  }

  // Each fixed line of the template is a single line.
  lemma IntroIsOneLine() ensures '\n' !in IntroLine {}
  lemma HeadingIsOneLine() ensures '\n' !in ListHeading {}
  lemma FormatIsOneLine() ensures '\n' !in FormatLine {}
  lemma CallFormatIsOneLine() ensures '\n' !in CallFormat {}
  lemma OtherwiseIsOneLine() ensures '\n' !in OtherwiseLine {}

  lemma HeaderIsOneLinePerLine() ensures forall k :: 0 <= k < |Header| ==> '\n' !in Header[k] {
    IntroIsOneLine();
    HeadingIsOneLine();
  }

  lemma InstructionsAreOneLinePerLine() ensures forall k :: 0 <= k < |Instructions| ==> '\n' !in Instructions[k] {
    FormatIsOneLine();
    CallFormatIsOneLine();
    OtherwiseIsOneLine();
  }

  lemma SplitLine(x: string, rest: string)
    ensures Split(Line(x, rest), '\n') == Split(x, '\n') + Split(rest, '\n')
  {
    SplitAtSeparator(x, '\n', rest);
  }

  /** Lines without a line break in them come back one by one from the split. */
  lemma {:induction false} SplitLines(lines: seq<string>, rest: string)
    requires forall k :: 0 <= k < |lines| ==> '\n' !in lines[k]
    ensures Split(Lines(lines, rest), '\n') == lines + Split(rest, '\n')
  {
    if lines != [] {
      SplitLines(lines[1..], rest);
      SplitLine(lines[0], Lines(lines[1..], rest));
      SplitWithoutSeparator(lines[0], '\n');
      assert [lines[0]] + lines[1..] == lines;
    }
  }

  /** The prompt line by line: two intro lines, one line per tool in `list()` order (a single
      empty line when there is no tool), the instruction block, then the lines of the user's input. */
  lemma PromptLines(listing: seq<Tool>, userInput: string)
    requires forall i :: 0 <= i < |listing| ==> '\n' !in ToolLine(listing[i])
    ensures Split(BuildPrompt(listing, userInput), '\n') ==
      Header + ((if listing == [] then [""] else ToolLines(listing)) + (Instructions + Split(userInput, '\n')))
  {
    var tail := Lines(Instructions, userInput);
    InstructionsAreOneLinePerLine();
    SplitLines(Instructions, userInput);
    if listing != [] {
      SplitJoin(ToolLines(listing), '\n');
    }
    SplitLine(Join(ToolLines(listing), "\n"), tail);
    HeaderIsOneLinePerLine();
    SplitLines(Header, Line(Join(ToolLines(listing), "\n"), tail));
  }

  /** `s` ends with `u`. */
  ghost predicate EndsWith(s: string, u: string) {
    |s| >= |u| && s[|s| - |u|..] == u
  }

  lemma LineEndsWith(x: string, rest: string, u: string)
    requires EndsWith(rest, u)
    ensures EndsWith(Line(x, rest), u)
  {
    var l := Line(x, rest);
    assert l == (x + "\n") + rest;
    assert l[|l| - |u|..] == rest[|rest| - |u|..];
  }

  lemma {:induction false} LinesEndWith(lines: seq<string>, rest: string, u: string)
    requires EndsWith(rest, u)
    ensures EndsWith(Lines(lines, rest), u)
  {
    if lines != [] {
      LinesEndWith(lines[1..], rest, u);
      LineEndsWith(lines[0], Lines(lines[1..], rest), u);
    }
  }

  /** The user's input is the end of the prompt, verbatim, after the fixed instruction block. */
  lemma PromptEndsWithInput(listing: seq<Tool>, userInput: string)
    ensures EndsWith(BuildPrompt(listing, userInput), userInput)
  {
    var u := userInput;
    assert u[|u| - |u|..] == u;
    var tail := Lines(Instructions, u);
    LinesEndWith(Instructions, u, u);
    LineEndsWith(Join(ToolLines(listing), "\n"), tail, u);
    LinesEndWith(Header, Line(Join(ToolLines(listing), "\n"), tail), u);
  }

  /** What one input line leads to. */
  datatype Turn = Quit | Direct(outcome: Outcome) | Consulted(outcome: Outcome)

  /** One turn of the loop; `reply` is what the completion service answers if it is consulted. */
  function React(tools: ToolMap, input: string, reply: string): Turn {
    if IsExit(input) then Quit
    else if IsDirectCommand(input) then Direct(DirectOutcome(tools, ParseDirectCommand(input)))
    else Consulted(ReplyOutcome(tools, reply))
  }

  /** Everything a session shows: the lines printed, the input lines the completion service was
      asked about (each sent as `buildPrompt` of the line), and the tools run. */
  datatype Transcript = Transcript(printed: seq<string>, consulted: seq<string>, calls: seq<Invocation>)

  function Calls(o: Outcome): seq<Invocation> {
    if o.ran.Some? then [o.ran.value] else []
  }

  /** The session after the welcome line, over `inputs`, when `asked` completions were requested before. */
  function Session(tools: ToolMap, inputs: seq<string>, replies: nat -> string, asked: nat): Transcript
    decreases |inputs|
  {
    if inputs == [] then Transcript([], [], [])
    else
      match React(tools, inputs[0], replies(asked))
      case Quit => Transcript([Farewell], [], [])
      case Direct(o) =>
        var rest := Session(tools, inputs[1..], replies, asked);
        Transcript([o.line] + rest.printed, rest.consulted, Calls(o) + rest.calls)
      case Consulted(o) =>
        var rest := Session(tools, inputs[1..], replies, asked + 1);
        Transcript([o.line] + rest.printed, [inputs[0]] + rest.consulted, Calls(o) + rest.calls)
  }

  /** The turns before the first exit line. */
  function TurnsBeforeExit(inputs: seq<string>): (n: nat)
    ensures n <= |inputs|
  {
    if inputs == [] || IsExit(inputs[0]) then 0 else 1 + TurnsBeforeExit(inputs[1..])
  }

  /** The count stops at the first exit line: none before it, and it is one. */
  lemma {:induction false} TurnsStopAtFirstExit(inputs: seq<string>)
    ensures var n := TurnsBeforeExit(inputs);
      && (forall k :: 0 <= k < n ==> !IsExit(inputs[k]))
      && (n < |inputs| ==> IsExit(inputs[n]))
  {
    if inputs != [] && !IsExit(inputs[0]) {
      TurnsStopAtFirstExit(inputs[1..]);
      var n := TurnsBeforeExit(inputs);
      forall k | 0 < k < n ensures !IsExit(inputs[k]) {
        assert inputs[k] == inputs[1..][k - 1];
      }
      if n < |inputs| {
        assert inputs[n] == inputs[1..][n - 1];
      }
    }
  }

  /** The part of a transcript the turn on `input` contributes. */
  function TurnTranscript(turn: Turn, input: string): Transcript
    requires !turn.Quit?
  {
    Transcript([turn.outcome.line], if turn.Consulted? then [input] else [], Calls(turn.outcome))
  }

  function Append(a: Transcript, b: Transcript): Transcript {
    Transcript(a.printed + b.printed, a.consulted + b.consulted, a.calls + b.calls)
  }

  lemma AppendAssoc(a: Transcript, b: Transcript, c: Transcript)
    ensures Append(Append(a, b), c) == Append(a, Append(b, c))
  {
  }

  lemma TurnLineIsNotFarewell(tools: ToolMap, input: string, reply: string)
    requires !IsExit(input)
    ensures React(tools, input, reply).outcome.line != Farewell
  {
    OutcomeLines(tools, ParseDirectCommand(input), reply);
  }

  lemma SessionQuit(tools: ToolMap, inputs: seq<string>, replies: nat -> string, asked: nat)
    requires inputs != [] && IsExit(inputs[0])
    ensures Session(tools, inputs, replies, asked) == Transcript([Farewell], [], [])
  {
  }

  lemma SessionStep(tools: ToolMap, inputs: seq<string>, replies: nat -> string, asked: nat)
    requires inputs != [] && !IsExit(inputs[0])
    ensures var turn := React(tools, inputs[0], replies(asked));
      Session(tools, inputs, replies, asked) ==
        Append(TurnTranscript(turn, inputs[0]), Session(tools, inputs[1..], replies, if turn.Consulted? then asked + 1 else asked))
  {
  }

  /** Prepending a turn's line to the lines of the rest of a session. */
  lemma PrependLine(line: string, rest: seq<string>, more: seq<string>, n: nat, total: nat)
    requires line != Farewell
    requires |rest| == (if n < total then n + 1 else n)
    requires forall k :: 0 <= k < n ==> rest[k] != Farewell
    requires n < total ==> rest[n] == Farewell
    ensures var p := [line] + rest;
      && |p| == (if n + 1 < total + 1 then n + 2 else n + 1)
      && (forall k :: 0 <= k < n + 1 ==> p[k] != Farewell)
      && (n + 1 < total + 1 ==> p[n + 1] == Farewell)
  {
    var p := [line] + rest;
    forall k | 0 < k < n + 1 ensures p[k] != Farewell {
      assert p[k] == rest[k - 1];
    }
  }

  /** One line per turn before the exit line, and `Goodbye!` exactly when an exit line came, as the last line. */
  lemma {:induction false} SessionLines(tools: ToolMap, inputs: seq<string>, replies: nat -> string, asked: nat)
    ensures var t := Session(tools, inputs, replies, asked);
      var n := TurnsBeforeExit(inputs);
      && |t.printed| == (if n < |inputs| then n + 1 else n)
      && (forall k :: 0 <= k < n ==> t.printed[k] != Farewell)
      && (n < |inputs| ==> t.printed[n] == Farewell)
    decreases |inputs|
  {
    if inputs != [] && !IsExit(inputs[0]) {
      var turn := React(tools, inputs[0], replies(asked));
      var next := if turn.Consulted? then asked + 1 else asked;
      var rt := Session(tools, inputs[1..], replies, next);
      assert Session(tools, inputs, replies, asked).printed == [turn.outcome.line] + rt.printed by {
        SessionStep(tools, inputs, replies, asked);
      }
      assert turn.outcome.line != Farewell by {
        TurnLineIsNotFarewell(tools, inputs[0], replies(asked));
      }
      SessionLines(tools, inputs[1..], replies, next);
      PrependLine(turn.outcome.line, rt.printed, [], TurnsBeforeExit(inputs[1..]), |inputs[1..]|);
    }
  }

  /** The lines the completion service is asked about: before the exit, those that are not direct commands. */
  function ConsultedLines(inputs: seq<string>): seq<string> {
    if inputs == [] || IsExit(inputs[0]) then []
    else if IsDirectCommand(inputs[0]) then ConsultedLines(inputs[1..])
    else [inputs[0]] + ConsultedLines(inputs[1..])
  }

  /** The completion service is asked about exactly those lines, whatever it replies. */
  lemma {:induction false} SessionConsults(tools: ToolMap, inputs: seq<string>, replies: nat -> string, asked: nat)
    ensures Session(tools, inputs, replies, asked).consulted == ConsultedLines(inputs)
    decreases |inputs|
  {
    if inputs != [] && !IsExit(inputs[0]) {
      if IsDirectCommand(inputs[0]) {
        SessionConsults(tools, inputs[1..], replies, asked);
      } else {
        SessionConsults(tools, inputs[1..], replies, asked + 1);
      }
    }
  }

  lemma TurnRunsRegistered(tools: ToolMap, input: string, reply: string)
    requires !IsExit(input)
    ensures forall c :: c in Calls(React(tools, input, reply).outcome) ==> c.tool in tools.entries
  {
  }

  /** Only registered tools run. */
  lemma {:induction false} SessionCallsRegistered(tools: ToolMap, inputs: seq<string>, replies: nat -> string, asked: nat)
    ensures forall c :: c in Session(tools, inputs, replies, asked).calls ==> c.tool in tools.entries
    decreases |inputs|
  {
    if inputs != [] && !IsExit(inputs[0]) {
      var turn := React(tools, inputs[0], replies(asked));
      var next := if turn.Consulted? then asked + 1 else asked;
      SessionStep(tools, inputs, replies, asked);
      SessionCallsRegistered(tools, inputs[1..], replies, next);
      TurnRunsRegistered(tools, inputs[0], replies(asked));
    }
  }

  /** The prompts built for the consulted lines, in order. */
  function Prompts(listing: seq<Tool>, lines: seq<string>): seq<string> {
    seq(|lines|, k requires 0 <= k < |lines| => BuildPrompt(listing, lines[k]))
  }

  lemma PromptsSnoc(listing: seq<Tool>, lines: seq<string>, line: string)
    ensures Prompts(listing, lines + [line]) == Prompts(listing, lines) + [BuildPrompt(listing, line)]
  {
  }

  /** The loop invariant of `run`: what is shown so far, followed by the session over the rest. */
  ghost predicate SessionSoFar(tools: ToolMap, inputs: seq<string>, replies: nat -> string, i: nat, done: Transcript)
    requires i <= |inputs|
  {
    Session(tools, inputs, replies, 0) == Append(done, Session(tools, inputs[i..], replies, |done.consulted|))
  }

  lemma DirectAdvance(tools: ToolMap, inputs: seq<string>, replies: nat -> string, i: nat, done: Transcript, o: Outcome)
    requires i < |inputs| && !IsExit(inputs[i]) && IsDirectCommand(inputs[i])
    requires o == DirectOutcome(tools, ParseDirectCommand(inputs[i]))
    requires SessionSoFar(tools, inputs, replies, i, done)
    ensures SessionSoFar(tools, inputs, replies, i + 1, Transcript(done.printed + [o.line], done.consulted, done.calls + Calls(o)))
  {
    var rest := inputs[i..];
    assert rest[0] == inputs[i] && rest[1..] == inputs[i + 1..];
    SessionStep(tools, rest, replies, |done.consulted|);
    AppendAssoc(done, Transcript([o.line], [], Calls(o)), Session(tools, inputs[i + 1..], replies, |done.consulted|));
  }

  lemma ConsultAdvance(tools: ToolMap, inputs: seq<string>, replies: nat -> string, i: nat, done: Transcript, o: Outcome)
    requires i < |inputs| && !IsExit(inputs[i]) && !IsDirectCommand(inputs[i])
    requires o == ReplyOutcome(tools, replies(|done.consulted|))
    requires SessionSoFar(tools, inputs, replies, i, done)
    ensures SessionSoFar(tools, inputs, replies, i + 1,
      Transcript(done.printed + [o.line], done.consulted + [inputs[i]], done.calls + Calls(o)))
  {
    var rest := inputs[i..];
    assert rest[0] == inputs[i] && rest[1..] == inputs[i + 1..];
    SessionStep(tools, rest, replies, |done.consulted|);
    var step := Transcript([o.line], [inputs[i]], Calls(o));
    AppendAssoc(done, step, Session(tools, inputs[i + 1..], replies, |done.consulted| + 1));
  }

  lemma QuitFinishes(tools: ToolMap, inputs: seq<string>, replies: nat -> string, i: nat, done: Transcript)
    requires i < |inputs| && IsExit(inputs[i])
    requires SessionSoFar(tools, inputs, replies, i, done)
    ensures Session(tools, inputs, replies, 0) == Append(done, Transcript([Farewell], [], []))
  {
    var rest := inputs[i..];
    assert rest[0] == inputs[i];
    SessionQuit(tools, rest, replies, |done.consulted|);
  }

  lemma InputsFinish(tools: ToolMap, inputs: seq<string>, replies: nat -> string, done: Transcript)
    requires SessionSoFar(tools, inputs, replies, |inputs|, done)
    ensures Session(tools, inputs, replies, 0) == done
  {
    assert inputs[|inputs|..] == [];
  }

  lemma SessionStarts(tools: ToolMap, inputs: seq<string>, replies: nat -> string)
    ensures SessionSoFar(tools, inputs, replies, 0, Transcript([], [], []))
  {
    assert inputs[0..] == inputs;
  }

  /** Registering two differently named tools into an empty map keeps both, in that order. */
  lemma TwoRegistrations(a: Tool, b: Tool)
    requires a.name != b.name
    ensures var m := EmptyMap.Set(a.name, a).Set(b.name, b);
      && m.keys == [a.name, b.name]
      && Lookup(m, a.name) == Some(a) && Lookup(m, b.name) == Some(b)
  {
  }

  /** `Agent`: owns the tool registry; the completion client is the `replies` stream of `Run`. */
  class Agent {
    const registry: ToolRegistry

    /** Registers the file-system tool, then the browser tool. */
    constructor (read: string -> string, browse: string -> string)
      ensures fresh(registry) && registry.Valid()
      ensures registry.tools.keys == ["filesystem_read", "playwright_browse"]
      ensures Lookup(registry.tools, "filesystem_read") == Some(FilesystemTool(read))
      ensures Lookup(registry.tools, "playwright_browse") == Some(PlaywrightTool.PlaywrightTool(browse))
    {
      var fs, pw := FilesystemTool(read), PlaywrightTool.PlaywrightTool(browse);
      assert fs.name != pw.name by { assert fs.name[0] != pw.name[0]; }
      var tools := new ToolRegistry();
      tools.Register(fs);
      tools.Register(pw);
      TwoRegistrations(fs, pw);
      registry := tools;
    }

    /** The `tool:` branch of `run`: look the name up and run the tool, or report it missing. */
    method RunDirectCommand(input: string) returns (o: Outcome)
      requires registry.Valid()
      ensures o == DirectOutcome(registry.tools, ParseDirectCommand(input))
    {
      var cmd := ParseDirectCommand(input);
      var tool: Option<Tool> := None;
      if cmd.name.Some? {
        tool := registry.Get(cmd.name.value);
      }
      match tool {
        case None =>
          o := Outcome("No such tool: " + NameText(cmd.name), None);
        case Some(t) =>
          var result := t.run(cmd.argument);
          o := Outcome("Tool result: " + result, Some(Invocation(cmd.name.value, cmd.argument)));
      }
    }

    /** The reply branch of `run`: follow a `TOOL_CALL:` directive, or pass the reply on. */
    method Answer(response: string) returns (o: Outcome)
      requires registry.Valid()
      ensures o == ReplyOutcome(registry.tools, response)
    {
      match ParseToolCall(response) {
        case Some(d) =>
          var tool := registry.Get(d.name);
          match tool {
            case None =>
              o := Outcome("Agent: Tried to call unknown tool '" + d.name + "'.", None);
            case Some(t) =>
              var result := t.run(d.argument);
              o := Outcome("Tool result: " + result, Some(Invocation(d.name, d.argument)));
          }
        case None =>
          o := Outcome("Agent: " + Trim(response), None);
      }
    }

    /** The loop body of `run` for a line that is not `exit`: the printed line, and the prompt
        sent if the completion service was consulted, whose `asked`-th completion is the reply. */
    method Respond(input: string, replies: nat -> string, asked: nat) returns (o: Outcome, prompt: Option<string>)
      requires registry.Valid() && !IsExit(input)
      ensures prompt.None? <==> IsDirectCommand(input)
      ensures prompt.None? ==> o == DirectOutcome(registry.tools, ParseDirectCommand(input))
      ensures prompt.Some? ==> o == ReplyOutcome(registry.tools, replies(asked))
      ensures prompt.Some? ==> prompt.value == BuildPrompt(Values(registry.tools), input)
    {
      if IsDirectCommand(input) {
        o := RunDirectCommand(input);
        prompt := None;
      } else {
        var listing := registry.List();
        var p := BuildPrompt(listing, input);
        var response := replies(asked);
        o := Answer(response);
        prompt := Some(p);
      }
    }

    /** `run`: the loop over the input lines, printing one line per turn. */
    method Run(inputs: seq<string>, replies: nat -> string)
      returns (printed: seq<string>, prompts: seq<string>, calls: seq<Invocation>)
      requires registry.Valid()
      ensures var t := Session(registry.tools, inputs, replies, 0);
        && printed == [Welcome] + t.printed
        && prompts == Prompts(Values(registry.tools), t.consulted)
        && calls == t.calls
    {
      var lines: seq<string> := [];
      ghost var consulted: seq<string> := [];
      prompts, calls := [], [];
      var quit := false;
      var i := 0;
      SessionStarts(registry.tools, inputs, replies);
      while i < |inputs|
        invariant i <= |inputs|
        invariant prompts == Prompts(Values(registry.tools), consulted)
        invariant SessionSoFar(registry.tools, inputs, replies, i, Transcript(lines, consulted, calls))
      {
        var input := inputs[i];
        if IsExit(input) {
          assert Session(registry.tools, inputs, replies, 0) == Append(Transcript(lines, consulted, calls), Transcript([Farewell], [], [])) by {
            QuitFinishes(registry.tools, inputs, replies, i, Transcript(lines, consulted, calls));
          }
          quit := true;
          break;
        }
        var o, prompt := Respond(input, replies, |prompts|);
        ghost var done := Transcript(lines, consulted, calls);
        if prompt.None? {
          assert SessionSoFar(registry.tools, inputs, replies, i + 1, Transcript(lines + [o.line], consulted, calls + Calls(o))) by {
            DirectAdvance(registry.tools, inputs, replies, i, done, o);
          }
        } else {
          assert SessionSoFar(registry.tools, inputs, replies, i + 1, Transcript(lines + [o.line], consulted + [input], calls + Calls(o))) by {
            ConsultAdvance(registry.tools, inputs, replies, i, done, o);
          }
          PromptsSnoc(Values(registry.tools), consulted, input);
          prompts := prompts + [prompt.value];
          consulted := consulted + [input];
        }
        lines := lines + [o.line];
        calls := calls + Calls(o);
        i := i + 1;
      }
      if quit {
        lines := lines + [Farewell];
      } else {
        InputsFinish(registry.tools, inputs, replies, Transcript(lines, consulted, calls));
      }
      printed := [Welcome] + lines;
    }
  }
}

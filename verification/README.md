# Tiny Agents tool dispatch, modelled in Dafny

This project models the tool-dispatch core of the Tiny Agents command-line agent:

- **the tool registry** (`ToolRegistry` in `src/agent/ToolClient.ts`): a name-keyed table of tools backed by a
  JavaScript `Map`. Registering a name again replaces the tool in place. `list()` returns the tools in the order
  their names were first registered;
- **the per-turn dispatch of `Agent.run`** (`src/agent/Agent.ts`):
  - the `exit` test;
  - the direct `tool: <name> <args>` command;
  - the `TOOL_CALL: <name> <args>` directive searched for in a completion reply;
  - the line printed on each branch;
- **`Agent.buildPrompt`**: the prompt template, with one `- name: description` line per tool and the user's input
  at the end.

Files:

- `Optional.dfy`: the `Option` type.
- `JsString.dfy`: the JavaScript string built-ins the agent relies on. These are `trim`, `toLowerCase`,
  `startsWith`, `split` on one character and `join`, plus the character classes `\s` and `\w`. `\s` and `trim`
  use the exact ECMAScript white-space set.
- `ToolClient.dfy`:
  - the `Tool` record;
  - `ToolMap`, the value of a JavaScript `Map` with its key order, following section 24.1.3.9 of ECMA-262
    (`Map.prototype.set`);
  - the class `ToolRegistry`. It holds the map and a ghost history of every registration. Its invariant ties
    the map to that history.
- `PlaywrightTool.dfy`: the browser tool's name and description, with its body opaque.
- `ToolCallPattern.dfy`: the regular expression `/TOOL_CALL:\s*(\w+)\s+([\s\S]*)/i`, written two ways:
  - as an explicit scanner (`MatchAt`, `LocateFrom`, `ParseToolCall`);
  - as a declarative description of a match (`DirectiveAt`).

  Lemmas connect the two: the scanner finds the leftmost match, and only that.
- `Agent.dfy`:
  - the turn logic as functions;
  - the prompt template;
  - the reference description of a whole session (`Session`);
  - the class `Agent`, whose method `Run` is the read–dispatch loop. `Run` is proved to print exactly what
    `Session` describes, to send exactly the prompts built for the consulted lines, and to run exactly the tools
    `Session` lists.

Two details of the code the model keeps:

- A `tool:` line is split on single spaces (`split(" ")`), so two spaces right after `tool:` give an empty name and a tab is not a separator.
- The directive may start anywhere in the reply, not only at a line start, and needs only optional white space (`\s*`) between `TOOL_CALL:` and the name.

The completion service is the stream `replies`: its k-th element is the text of the k-th completion. The input lines are a sequence. Each tool's body is an opaque function from its input text to its output text.

## Model

| member | source | states |
|---|---|---|
| JsString.IsWhiteSpace | src/agent/Agent.ts:33 | the white space of `trim` and `\s` (WhiteSpace and LineTerminator of ECMA-262): among ASCII characters exactly tab, line feed, vertical tab, form feed, carriage return and space; no C1 control character, not even U+0085, is white space |
| JsString.IsWordChar | src/agent/Agent.ts:50 | `\w` without the `u` flag: only ASCII characters, and never a white-space character |
| JsString.UpperChar | src/agent/Agent.ts:50 | the case folding of a case-insensitive match raises an ASCII lower-case letter by 32 and keeps every other character; it never moves a character into or out of `\s` or `\w`, so the `i` flag leaves both classes as they are |
| JsString.UpperCase | src/agent/Agent.ts:50 | the folded form a case-insensitive match compares: the same length, each character folded as `JsString.UpperChar` folds it |
| JsString.UpperCaseMatches | src/agent/Agent.ts:50 | comparing case-insensitively with a text that has no lower-case letter accepts exactly the texts whose every character is that text's own or its lower-case form |
| JsString.Trim | src/agent/Agent.ts:33 | `trim`: characterised by `JsString.TrimEnds`, `JsString.TrimSplitsInput` and the reference description `JsString.TrimOfPadded` |
| JsString.StartsWith | src/agent/Agent.ts:35 | `startsWith`: the prefix is exactly the first characters of the text; used by `Agent.IsDirectCommand` and characterised through `Agent.DirectCommandIsNotExit` |
| JsString.Split | src/agent/Agent.ts:36 | `split` on one character: characterised by `JsString.SplitWithoutSeparator`, `JsString.SplitAtSeparator` and `JsString.SplitPiecesLackSeparator` |
| JsString.Join | src/agent/Agent.ts:41 | `join`: characterised by the round trips `JsString.JoinSplit` and `JsString.SplitJoin` |
| JsString.LowerCase | src/agent/Agent.ts:33 | lower-casing keeps the length and lowers each ASCII capital, leaving every other character as it is |
| JsString.TrimEnds | src/agent/Agent.ts:33 | `trim` never lengthens a text and leaves no white space at either end of it |
| JsString.TrimSplitsInput | src/agent/Agent.ts:33 | every text is white space, then its trimmed form, then white space |
| JsString.TrimOfPadded | src/agent/Agent.ts:33 | reference description of `trim`: a text with no white space at either end, padded with any white space, trims back to itself |
| JsString.SplitPiecesLackSeparator | src/agent/Agent.ts:36 | no piece of `split(" ")` contains the separator |
| JsString.SplitWithoutSeparator | src/agent/Agent.ts:36 | a text without the separator splits into itself alone |
| JsString.SplitAtSeparator | src/agent/Agent.ts:36 | splitting `x + sep + y` gives the pieces of `x` followed by the pieces of `y` |
| JsString.JoinSplit | src/agent/Agent.ts:36-41 | joining the pieces of a split with the same separator gives back the original text |
| JsString.SplitJoin | src/agent/Agent.ts:74-76 | splitting a join of separator-free pieces gives back the pieces |
| ToolClient.ToolMap.Set | src/agent/ToolClient.ts:42 | `Map.prototype.set`: characterised by `ToolClient.SetEffect` and `ToolClient.TracksRegister` |
| ToolClient.Lookup | src/agent/ToolClient.ts:49 | `Map.prototype.get`: characterised by `ToolClient.SetEffect` and, through the registry invariant, by `ToolClient.ToolRegistry.Get` and `ToolClient.LatestNamedIsLast` |
| ToolClient.Values | src/agent/ToolClient.ts:56 | `Array.from(map.values())`: characterised by `ToolClient.ToolRegistry.List` |
| ToolClient.FilesystemTool | src/agent/ToolClient.ts:68-72 | the file-system tool is named `filesystem_read` and runs its reading body |
| ToolClient.FirstOccurrences | src/agent/ToolClient.ts:36-42 | the names with repeats dropped: the same set of names, with no name twice |
| ToolClient.FirstIndex | src/agent/ToolClient.ts:42 | the position where a name first occurs: it holds the name, and no earlier position does |
| ToolClient.LatestNamed | src/agent/ToolClient.ts:42 | a tool found for a name carries that name and was registered |
| ToolClient.FirstOccurrencesOrder | src/agent/ToolClient.ts:41-57 | the key order is first-registration order: one name precedes another exactly when it was first registered earlier |
| ToolClient.FirstOccurrencesCount | src/agent/ToolClient.ts:55-57 | there are as many keys as distinct registered names |
| ToolClient.LatestNamedIsLast | src/agent/ToolClient.ts:41-50 | reference description: the tool for a name is the one registered last under that name, so a re-registration overwrites |
| ToolClient.LatestNamedAbsent | src/agent/ToolClient.ts:48-50 | a name has no tool exactly when it was never registered |
| ToolClient.SetEffect | src/agent/ToolClient.ts:42 | `Map.set` stores the tool under its key and leaves every other key's entry unchanged. An existing key keeps its position. The key count grows by one exactly when the key is new |
| ToolClient.TracksRegister | src/agent/ToolClient.ts:41-43 | `set` under the tool's own name preserves the registry invariant over the extended registration history |
| ToolClient.ToolRegistry.constructor | src/agent/ToolClient.ts:36 | a new registry is empty and satisfies its invariant |
| ToolClient.ToolRegistry.Register | src/agent/ToolClient.ts:41-43 | `register` is `Map.set` under the tool's name, appends the tool to the history and keeps the invariant: each name maps to its latest tool, and the keys are the names in first-registration order |
| ToolClient.ToolRegistry.Get | src/agent/ToolClient.ts:48-50 | `get` returns the tool registered last under exactly that name, or nothing when the name is not a key; it never fails |
| ToolClient.ToolRegistry.List | src/agent/ToolClient.ts:55-57 | `list` returns one tool per distinct registered name, in first-registration order, each the latest registered under its name, with no name twice |
| ToolCallPattern.MarkerAt | src/agent/Agent.ts:50 | the literal `TOOL_CALL:` under the `i` flag: it fits in the text, and each of its ten characters is the marker's own or its lower-case form |
| ToolCallPattern.DirectiveAt | src/agent/Agent.ts:50 | the declarative description of a match of the pattern at a position, which `ToolCallPattern.MatchAt`, `ToolCallPattern.MatchAtFinds` and `ToolCallPattern.LocateFrom` are proved against |
| ToolCallPattern.ParseToolCall | src/agent/Agent.ts:50-53 | `response.match(...)` and its two groups: characterised by `ToolCallPattern.ParseToolCallSpec` and `ToolCallPattern.ParseToolCallLeftmost` |
| ToolCallPattern.WhiteSpaceEnd | src/agent/Agent.ts:50 | the end of a maximal white-space run (`\s*`) |
| ToolCallPattern.WordEnd | src/agent/Agent.ts:50 | the end of a maximal word-character run (`\w+`) |
| ToolCallPattern.MatchAt | src/agent/Agent.ts:50 | what the scanner reports at a start position is a match of the pattern there |
| ToolCallPattern.MatchAtFinds | src/agent/Agent.ts:50 | every match of the pattern at a position is the one the scanner reports there, so the match at a position is unique |
| ToolCallPattern.NoMatchAt | src/agent/Agent.ts:50 | when the scanner reports nothing at a position, no match starts there |
| ToolCallPattern.LocateFrom | src/agent/Agent.ts:50 | the search returns a match at or after the start, no match starts before the one it returns, and it returns nothing only when no match exists |
| ToolCallPattern.ParseToolCallSpec | src/agent/Agent.ts:50-53 | a directive is found exactly when the pattern matches somewhere. Its name is a non-empty word-character run. Its argument has no leading white space and is a proper suffix of the reply |
| ToolCallPattern.ParseToolCallLeftmost | src/agent/Agent.ts:50-53 | the leftmost match decides the name and argument (the two captured groups) |
| ToolCallPattern.InstructedFormatMatches | src/agent/Agent.ts:50 | the format the prompt instructs, `TOOL_CALL: <name> <args>`, matches at its start with the name and the arguments in the two groups |
| ToolCallPattern.ParseInstructedFormat | src/agent/Agent.ts:49-53 | a reply in the instructed format yields exactly that name and those arguments |
| Agent.IsExit | src/agent/Agent.ts:33 | the exit test: characterised by `Agent.ExitWord` and its converse `Agent.ExitIsPaddedWord` |
| Agent.IsDirectCommand | src/agent/Agent.ts:35 | the `tool:` test on the untrimmed line: exclusive with the exit test by `Agent.DirectCommandIsNotExit` |
| Agent.ParseDirectCommand | src/agent/Agent.ts:36-41 | the name and argument of a `tool:` line: characterised by `Agent.DirectCommandWithoutSpace`, `Agent.DirectCommandOneSpace` and `Agent.DirectCommandTwoSpaces` |
| Agent.DirectOutcome | src/agent/Agent.ts:37-43 | the line and tool run of the direct path: characterised by `Agent.DirectOutcomeRuns` and `Agent.OutcomeLines` |
| Agent.ReplyOutcome | src/agent/Agent.ts:50-62 | the line and tool run of the reply path: characterised by `Agent.ReplyOutcomeRuns` and `Agent.OutcomeLines` |
| Agent.BuildPrompt | src/agent/Agent.ts:73-79 | the prompt template: characterised by `Agent.PromptLines` and `Agent.PromptEndsWithInput` |
| Agent.React | src/agent/Agent.ts:31-64 | one turn of the loop: exit, the direct path, or a consultation; its line is never the farewell (`Agent.OutcomeLines`) and it runs only registered tools (`Agent.TurnRunsRegistered`) |
| Agent.Session | src/agent/Agent.ts:31-66 | the reference description of the whole loop, which `Agent.Agent.Run` is proved to follow; characterised by `Agent.SessionLines`, `Agent.SessionConsults` and `Agent.SessionCallsRegistered` |
| Agent.ExitWord | src/agent/Agent.ts:33 | any letter case of `exit` between any white space ends the loop |
| Agent.ExitIsPaddedWord | src/agent/Agent.ts:33 | only such lines end it: an exit line is white space, a four-letter case of `exit`, and white space |
| Agent.DirectCommandIsNotExit | src/agent/Agent.ts:33-35 | a line starting with `tool:` is never an exit line, so the two tests are exclusive |
| Agent.DirectCommandWithoutSpace | src/agent/Agent.ts:36-39 | a `tool:` line without a space names no tool (`undefined`) and has an empty argument |
| Agent.DirectCommandOneSpace | src/agent/Agent.ts:36-41 | with one space the name is the text after it and the argument is empty |
| Agent.DirectCommandTwoSpaces | src/agent/Agent.ts:36-41 | the name is the text between the first two spaces, and the argument is exactly the text after the second space |
| Agent.DirectCommandExample | src/agent/Agent.ts:34-36 | the example command `tool: filesystem_read ./README.md` names the file-system tool with argument `./README.md` |
| Agent.NameText | src/agent/Agent.ts:39 | a template literal renders a present name as itself and a missing one as `undefined` |
| Agent.NoNameIsUnknown | src/agent/Agent.ts:36-39 | a `tool:` line without a space prints `No such tool: undefined` and runs nothing, even when a tool is registered under the name `undefined` |
| Agent.Invoke | src/agent/Agent.ts:41-42 | a tool run prints `Tool result: ` followed by exactly the tool's output for the input, and records that name and that input as the invocation |
| Agent.DirectOutcomeRuns | src/agent/Agent.ts:37-43 | the direct path runs a tool exactly when the parsed name is registered, passing the parsed argument |
| Agent.ReplyOutcomeRuns | src/agent/Agent.ts:50-62 | the reply path runs a tool exactly when the directive's name is registered, passing the directive's argument |
| Agent.OutcomeLines | src/agent/Agent.ts:39-62 | a turn printed `Tool result: ` exactly when it ran a tool; no turn prints the farewell line |
| Agent.ToolLine | src/agent/Agent.ts:75 | a tool's prompt line is `- `, its name, `: ` and its description, and holds no line break unless the name or the description does |
| Agent.ToolLines | src/agent/Agent.ts:74-76 | one `- name: description` line per listed tool, in listing order |
| Agent.SplitLines | src/agent/Agent.ts:78 | single lines of a template, each followed by a line break, come back one by one when the text is split at line breaks |
| Agent.PromptLines | src/agent/Agent.ts:73-79 | line by line, the prompt is the two header lines, one line per tool in `list()` order (a single empty line when no tool is registered), the instruction block, then the user's lines |
| Agent.PromptEndsWithInput | src/agent/Agent.ts:78 | the prompt ends with the user's input verbatim |
| PlaywrightTool.PlaywrightTool | src/agent/PlaywrightTool.ts:15-17 | the browser tool is named `playwright_browse` and runs its browsing body |
| Agent.TurnsStopAtFirstExit | src/agent/Agent.ts:31-33 | the loop's turns are the lines before the first exit line, which ends it |
| Agent.SessionLines | src/agent/Agent.ts:31-66 | one printed line per turn before the exit line, and `Goodbye!` exactly when an exit line came, as the last line |
| Agent.SessionConsults | src/agent/Agent.ts:35-48 | the completion service is consulted exactly for the lines before the exit that are not `tool:` commands, in order, whatever it replies |
| Agent.SessionCallsRegistered | src/agent/Agent.ts:37-60 | only registered tools are ever run |
| Agent.TwoRegistrations | src/agent/Agent.ts:15-19 | registering two differently named tools into an empty map keeps both, in registration order |
| Agent.Agent.constructor | src/agent/Agent.ts:13-20 | a new agent's registry holds the file-system tool and then the browser tool, and satisfies its invariant |
| Agent.Agent.RunDirectCommand | src/agent/Agent.ts:35-45 | the `tool:` branch prints and runs what the direct-path outcome describes |
| Agent.Agent.Answer | src/agent/Agent.ts:50-63 | the reply branch prints and runs what the reply outcome describes for the completion text |
| Agent.Agent.Respond | src/agent/Agent.ts:35-62 | for a non-exit line: no prompt is built exactly for a `tool:` line. Otherwise the prompt is `buildPrompt` over `list()` and the outcome follows the next completion |
| Agent.Agent.Run | src/agent/Agent.ts:26-67 | the loop prints the welcome line followed by exactly the session's lines. It sends one prompt per consulted line, in order, and runs exactly the session's tool calls |

## Left out

- I/O: the model does not capture the `readline` interface, `console.log`, `rl.close()`, or the `async`/`await` sequencing.
  - The input lines are a sequence.
  - The printed lines are returned as a sequence.
  - The two-argument `console.log("Agent:", text)` is modelled as the joined line `Agent: <text>`.
- Agent.Agent.Run: at the end of the input, when the lines run out without an `exit` line, the model ends the session with no `Goodbye!`. The program itself would also print no `Goodbye!`: at end of input Node's `readline` closes, the pending question never resolves, and the process exits silently.
- The completion client:
  - `src/aws/BedrockClaudeClient.ts` is not part of this model;
  - its replies are the stream `replies`, and the prompts sent are returned;
  - its own output is not modelled: on every call it logs `DEBUG - Prompt sent to Bedrock:` with the prompt (`src/aws/BedrockClaudeClient.ts:27`), so the program's real output has those lines before each consulted turn's line, while `printed` holds only the lines `Agent.run` logs itself;
  - a failure of `llm.complete` (an exception at `src/agent/Agent.ts:48`, which nothing handles) is not modelled.
- Tool bodies:
  - the file read of `FilesystemTool.run` and the browser automation of `PlaywrightTool.run` are opaque, deterministic functions from text to text;
  - their failures and their output formats are not modelled.
- `src/config/env.ts` and `scripts/list-bedrock-models.ts` are not part of this model.
- JsString.LowerCase: lowers only ASCII letters, not full Unicode `toLowerCase`. The only use is the comparison with `exit`, and no other character lower-cases to `e`, `x`, `i` or `t`.
- JsString.UpperCase: folds ASCII letters only, not the full Unicode upper-casing of a case-insensitive match; it is compared only with `TOOL_CALL:`, as the next line explains.
- ToolCallPattern.ParseToolCall: the case-insensitive marker comparison folds ASCII letters only. A case-insensitive match without the `u` flag never folds a non-ASCII character onto an ASCII one.
- Strings are sequences of characters rather than UTF-16 code units. Every separator and character class used lies in the Basic Multilingual Plane.
- Tools are values, so aliasing is not modelled: a tool object whose `name` changes after registration.

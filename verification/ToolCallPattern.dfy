/**
 * The tool-call directive the agent looks for in a model reply: the regular expression
 * `/TOOL_CALL:\s*(\w+)\s+([\s\S]*)/i`, written as an explicit scanner.
 *
 * The expression is searched for, not anchored: the first start position where the whole
 * pattern matches wins. At a start position the greedy quantifiers leave no choice:
 * `\s*` takes the whole white-space run (a word character never is white space),
 * `(\w+)` the whole word run (it must be followed by white space), `\s+` the whole
 * white-space run after it, and `([\s\S]*)` the rest of the text, line breaks included.
 */
module ToolCallPattern {
  import opened Optional
  import opened JsString

  const Marker := "TOOL_CALL:"

  /** The parsed directive: the tool name and its argument text. */
  datatype Directive = Directive(name: string, argument: string)

  /** Where a match lies: the marker at `at`, the name in `[nameStart, nameEnd)`, the argument from `argStart` on. */
  datatype Span = Span(at: nat, nameStart: nat, nameEnd: nat, argStart: nat)

  /** The marker occurs at `p`, letters compared without regard to case. */
  predicate MarkerAt(s: string, p: nat): (b: bool)
    ensures b <==> (p + |Marker| <= |s| &&
                    forall k :: 0 <= k < |Marker| ==> s[p + k] == Marker[k] || s[p + k] == LowerChar(Marker[k]))
  {
    p + |Marker| <= |s| &&
      var w := s[p..p + |Marker|];
      UpperCaseMatches(w, Marker);
      UpperCase(w) == Marker
  }

  /** The reference description of a match of the pattern at `m.at`. */
  ghost predicate DirectiveAt(s: string, m: Span) {
    && MarkerAt(s, m.at)
    && m.at + |Marker| <= m.nameStart < m.nameEnd < m.argStart <= |s|
    && (forall k :: m.at + |Marker| <= k < m.nameStart ==> IsWhiteSpace(s[k]))
    && (forall k :: m.nameStart <= k < m.nameEnd ==> IsWordChar(s[k]))
    && (forall k :: m.nameEnd <= k < m.argStart ==> IsWhiteSpace(s[k]))
    && (m.argStart == |s| || !IsWhiteSpace(s[m.argStart]))
  }

  /** The end of the white-space run that starts at `i`. */
  function WhiteSpaceEnd(s: string, i: nat): (j: nat)
    requires i <= |s|
    ensures i <= j <= |s|
    ensures forall k :: i <= k < j ==> IsWhiteSpace(s[k])
    ensures j == |s| || !IsWhiteSpace(s[j])
    decreases |s| - i
  {
    if i < |s| && IsWhiteSpace(s[i]) then WhiteSpaceEnd(s, i + 1) else i
  }

  /** The end of the word-character run that starts at `i`. */
  function WordEnd(s: string, i: nat): (j: nat)
    requires i <= |s|
    ensures i <= j <= |s|
    ensures forall k :: i <= k < j ==> IsWordChar(s[k])
    ensures j == |s| || !IsWordChar(s[j])
    decreases |s| - i
  {
    if i < |s| && IsWordChar(s[i]) then WordEnd(s, i + 1) else i
  }

  /** An attempt to match the pattern at start position `p`. */
  function MatchAt(s: string, p: nat): (r: Option<Span>)
    requires p <= |s|
    ensures r.Some? ==> r.value.at == p && DirectiveAt(s, r.value)
  {
    if !MarkerAt(s, p) then None
    else
      var nameStart := WhiteSpaceEnd(s, p + |Marker|);
      var nameEnd := WordEnd(s, nameStart);
      if nameStart < nameEnd && nameEnd < |s| && IsWhiteSpace(s[nameEnd]) then
        Some(Span(p, nameStart, nameEnd, WhiteSpaceEnd(s, nameEnd)))
      else None
  }

  /** No character is both in `\s` and in `\w`. */
  lemma NotWordAndWhiteSpace(s: string, k: nat)
    ensures k < |s| ==> !(IsWhiteSpace(s[k]) && IsWordChar(s[k]))
  {
  }

  /** A match at a position is the one the scanner finds there: it is unique. */
  lemma MatchAtFinds(s: string, m: Span)
    requires DirectiveAt(s, m)
    ensures MatchAt(s, m.at) == Some(m)
  {
    var nameStart := WhiteSpaceEnd(s, m.at + |Marker|);
    if m.nameStart < nameStart {
      NotWordAndWhiteSpace(s, m.nameStart);
      assert false;
    }
    var nameEnd := WordEnd(s, nameStart);
    if m.nameEnd < nameEnd {
      NotWordAndWhiteSpace(s, m.nameEnd);
      assert false;
    }
  }

  lemma NoMatchAt(s: string, p: nat)
    requires p <= |s| && MatchAt(s, p).None?
    ensures forall m :: DirectiveAt(s, m) ==> m.at != p
  {
    forall m | DirectiveAt(s, m) ensures m.at != p {
      MatchAtFinds(s, m);
    }
  }

  /** The search: the leftmost start position from `p` on where the pattern matches. */
  function LocateFrom(s: string, p: nat): (r: Option<Span>)
    requires p <= |s|
    ensures r.Some? ==> p <= r.value.at && DirectiveAt(s, r.value)
    ensures r.Some? ==> forall m :: DirectiveAt(s, m) && p <= m.at ==> r.value.at <= m.at
    ensures r.None? ==> forall m :: DirectiveAt(s, m) ==> m.at < p
    decreases |s| - p
  {
    match MatchAt(s, p)
    case Some(m) => Some(m)
    case None =>
      NoMatchAt(s, p);
      if p == |s| then None else LocateFrom(s, p + 1)
  }

  /** `response.match(/TOOL_CALL:\s*(\w+)\s+([\s\S]*)/i)`: the two captured groups, or no match. */
  function ParseToolCall(response: string): Option<Directive> {
    match LocateFrom(response, 0)
    case None => None
    case Some(m) => Some(Directive(response[m.nameStart..m.nameEnd], response[m.argStart..]))
  }

  /** A directive is found exactly when the pattern matches somewhere; its name is a word-character
      run, its argument starts after the white space that follows the name and runs to the end. */
  lemma ParseToolCallSpec(response: string)
    ensures var r := ParseToolCall(response);
      && (r.None? <==> forall m :: !DirectiveAt(response, m))
      && (r.Some? ==> |r.value.name| > 0 && forall k :: 0 <= k < |r.value.name| ==> IsWordChar(r.value.name[k]))
      && (r.Some? ==> r.value.argument == [] || !IsWhiteSpace(r.value.argument[0]))
      && (r.Some? ==> |r.value.argument| < |response| && response[|response| - |r.value.argument|..] == r.value.argument)
  {
    match LocateFrom(response, 0)
    case None =>
      assert forall m :: !DirectiveAt(response, m);
    case Some(m) =>
      assert DirectiveAt(response, m);
      var name, argument := response[m.nameStart..m.nameEnd], response[m.argStart..];
      assert forall k :: 0 <= k < |name| ==> IsWordChar(name[k]);
      assert argument == [] || !IsWhiteSpace(argument[0]);
  }

  /** The leftmost match decides the directive. */
  lemma ParseToolCallLeftmost(s: string, m: Span)
    requires DirectiveAt(s, m)
    requires forall m' :: DirectiveAt(s, m') ==> m.at <= m'.at
    ensures ParseToolCall(s) == Some(Directive(s[m.nameStart..m.nameEnd], s[m.argStart..]))
  {
    var r := LocateFrom(s, 0);
    assert r.Some?;
    assert r.value.at == m.at;
    MatchAtFinds(s, m);
    MatchAtFinds(s, r.value);
  }

  /** The instructed format `TOOL_CALL: <tool_name> <arguments>` matches at its start, with the
      name and the arguments in the two groups. */
  lemma InstructedFormatMatches(name: string, argument: string)
    requires |name| > 0 && forall k :: 0 <= k < |name| ==> IsWordChar(name[k])
    requires argument == [] || !IsWhiteSpace(argument[0])
    ensures var s := Marker + " " + name + " " + argument; var e := |Marker| + 1 + |name|;
      && DirectiveAt(s, Span(0, |Marker| + 1, e, e + 1))
      && s[|Marker| + 1..e] == name && s[e + 1..] == argument
  {
    var s := Marker + " " + name + " " + argument;
    assert s == (Marker + " ") + (name + (" " + argument));
    assert s[..10] == Marker;
    assert UpperCase(Marker) == Marker;
  }

  /** A reply in the instructed format yields that name and those arguments. */
  lemma ParseInstructedFormat(name: string, argument: string)
    requires |name| > 0 && forall k :: 0 <= k < |name| ==> IsWordChar(name[k])
    requires argument == [] || !IsWhiteSpace(argument[0])
    ensures ParseToolCall(Marker + " " + name + " " + argument) == Some(Directive(name, argument))
  {
    var s := Marker + " " + name + " " + argument;
    var e := |Marker| + 1 + |name|;
    var m := Span(0, |Marker| + 1, e, e + 1);
    InstructedFormatMatches(name, argument);
    ParseToolCallLeftmost(s, m);
  }
}

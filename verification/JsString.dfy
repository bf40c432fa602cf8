/**
 * The few JavaScript string built-ins the agent relies on: `String.prototype.trim`,
 * `toLowerCase`, `startsWith`, `split` with a one-character separator, `Array.prototype.join`,
 * and the character classes `\s` and `\w` of regular expressions.
 * A JavaScript string is a sequence of UTF-16 code units; here it is a sequence of characters.
 * Every separator and class used below lies in the Basic Multilingual Plane, so the two views agree.
 */
module JsString {

  /** WhiteSpace or LineTerminator of ECMAScript (ECMA-262 sections 12.2 and 12.3):
      exactly what `\s` matches and what `trim` removes. */
  predicate IsWhiteSpace(c: char): (b: bool)
    ensures c as int < 0x80 ==> (b <==> c in "\t\n\U{000B}\U{000C}\r ")
    ensures 0x80 <= c as int < 0xA0 ==> !b
  {
    || c == '\t' || c == '\n' || c == '\U{000B}' || c == '\U{000C}' || c == '\r' || c == ' '
    || c == '\U{00A0}' || c == '\U{1680}' || ('\U{2000}' <= c <= '\U{200A}')
    || c == '\U{2028}' || c == '\U{2029}' || c == '\U{202F}' || c == '\U{205F}'
    || c == '\U{3000}' || c == '\U{FEFF}'
  }

  /** The class `\w` of a regular expression without the `u` flag: `[A-Za-z0-9_]`. */
  predicate IsWordChar(c: char): (b: bool)
    ensures b ==> c as int < 0x80 && !IsWhiteSpace(c)
  {
    ('a' <= c <= 'z') || ('A' <= c <= 'Z') || ('0' <= c <= '9') || c == '_'
  }

  ghost predicate AllWhiteSpace(s: string) {
    forall k :: 0 <= k < |s| ==> IsWhiteSpace(s[k])
  }

  function LowerChar(c: char): (d: char)
    ensures 'A' <= c <= 'Z' ==> 'a' <= d <= 'z' && d as int - c as int == 32
    ensures !('A' <= c <= 'Z') ==> d == c
    ensures IsWhiteSpace(d) == IsWhiteSpace(c) && IsWordChar(d) == IsWordChar(c)
  {
    if 'A' <= c <= 'Z' then (c as int + 32) as char else c
  }

  function UpperChar(c: char): (d: char)
    ensures 'a' <= c <= 'z' ==> 'A' <= d <= 'Z' && c as int - d as int == 32
    ensures !('a' <= c <= 'z') ==> d == c
    ensures IsWhiteSpace(d) == IsWhiteSpace(c) && IsWordChar(d) == IsWordChar(c)
  {
    if 'a' <= c <= 'z' then (c as int - 32) as char else c
  }

  /** `toLowerCase`, restricted to the ASCII letters. */
  function LowerCase(s: string): (r: string)
    ensures |r| == |s|
    ensures forall k :: 0 <= k < |s| ==> r[k] == LowerChar(s[k])
  {
    seq(|s|, k requires 0 <= k < |s| => LowerChar(s[k]))
  }

  /** The canonical form the case-insensitive matcher compares, restricted to the ASCII letters. */
  function UpperCase(s: string): (r: string)
    ensures |r| == |s|
    ensures forall k :: 0 <= k < |s| ==> r[k] == UpperChar(s[k])
  {
    seq(|s|, k requires 0 <= k < |s| => UpperChar(s[k]))
  }

  /** Case-insensitive comparison with a text that has no lower-case letter: each character is
      either the text's own or its lower-case form. */
  lemma UpperCaseMatches(w: string, m: string)
    requires |w| == |m| && forall k :: 0 <= k < |m| ==> !('a' <= m[k] <= 'z')
    ensures UpperCase(w) == m <==> forall k :: 0 <= k < |m| ==> w[k] == m[k] || w[k] == LowerChar(m[k])
  {
    if UpperCase(w) == m {
      forall k | 0 <= k < |m| ensures w[k] == m[k] || w[k] == LowerChar(m[k]) {
        assert UpperChar(w[k]) == m[k];
      }
    }
    if forall k :: 0 <= k < |m| ==> w[k] == m[k] || w[k] == LowerChar(m[k]) {
      forall k | 0 <= k < |m| ensures UpperCase(w)[k] == m[k] {
        assert UpperCase(w)[k] == UpperChar(w[k]);
      }
    }
  }

  /** Number of white-space characters at the start of `s`. */
  function LeadingWhiteSpace(s: string): (n: nat)
    ensures n <= |s|
    ensures AllWhiteSpace(s[..n])
    ensures n == |s| || !IsWhiteSpace(s[n])
  {
    if s == [] || !IsWhiteSpace(s[0]) then 0
    else
      var n := 1 + LeadingWhiteSpace(s[1..]);
      assert s[..n] == [s[0]] + s[1..][..n - 1];
      n
  }

  /** Number of white-space characters at the end of `s`. */
  function TrailingWhiteSpace(s: string): (n: nat)
    ensures n <= |s|
    ensures AllWhiteSpace(s[|s| - n..])
    ensures n == |s| || !IsWhiteSpace(s[|s| - n - 1])
  {
    if s == [] || !IsWhiteSpace(s[|s| - 1]) then 0
    else
      var init := s[..|s| - 1];
      var n := 1 + TrailingWhiteSpace(init);
      assert s[|s| - n..] == init[|init| - (n - 1)..] + [s[|s| - 1]];
      n
  }

  /** `trim`: `s` without its leading and trailing white space. */
  function Trim(s: string): string {
    var t := s[LeadingWhiteSpace(s)..];
    t[..|t| - TrailingWhiteSpace(t)]
  }

  /** `trim` leaves no white space at either end. */
  lemma TrimEnds(s: string)
    ensures var r := Trim(s); |r| <= |s| && (r == [] || (!IsWhiteSpace(r[0]) && !IsWhiteSpace(r[|r| - 1])))
  {
  }

  /** Cutting `s` at `i`, and its remainder at `j`, loses nothing. */
  lemma CutTwice(s: string, i: nat, j: nat)
    requires i <= |s| && j <= |s| - i
    ensures s == s[..i] + s[i..][..j] + s[i..][j..]
  {
    var t := s[i..];
    assert t == t[..j] + t[j..];
    assert s == s[..i] + t;
  }

  /** `trim` cuts `s` into white space, the result, and white space. */
  lemma TrimSplitsInput(s: string)
    ensures exists a, b :: AllWhiteSpace(a) && AllWhiteSpace(b) && s == a + Trim(s) + b
  {
    var i := LeadingWhiteSpace(s);
    var t := s[i..];
    var j := |t| - TrailingWhiteSpace(t);
    CutTwice(s, i, j);
    var a, m, b := s[..i], t[..j], t[j..];
    assert Trim(s) == m;
    assert AllWhiteSpace(a) && AllWhiteSpace(b) && s == a + m + b;
  }

  lemma LeadingOfPadded(a: string, m: string)
    requires AllWhiteSpace(a)
    requires m == [] || !IsWhiteSpace(m[0])
    ensures LeadingWhiteSpace(a + m) == |a|
  {
    var s := a + m;
    var n := LeadingWhiteSpace(s);
    assert forall k :: 0 <= k < |a| ==> s[k] == a[k];
    assert m != [] ==> s[|a|] == m[0];
  }

  lemma TrailingOfPadded(m: string, b: string)
    requires AllWhiteSpace(b)
    requires m == [] || !IsWhiteSpace(m[|m| - 1])
    ensures TrailingWhiteSpace(m + b) == |b|
  {
    var s := m + b;
    var n := TrailingWhiteSpace(s);
    assert forall k :: 0 <= k < |b| ==> s[|m| + k] == b[k];
    assert m != [] ==> s[|m| - 1] == m[|m| - 1];
  }

  /** The reference description of `trim`: a text without white space at either end,
      padded on both sides with white space, trims back to that text. */
  lemma {:induction false} TrimOfPadded(a: string, m: string, b: string)
    requires AllWhiteSpace(a) && AllWhiteSpace(b)
    requires m == [] || (!IsWhiteSpace(m[0]) && !IsWhiteSpace(m[|m| - 1]))
    ensures Trim(a + m + b) == m
  {
    var s := a + m + b;
    if m == [] {
      assert AllWhiteSpace(s) by {
        forall k | 0 <= k < |s| ensures IsWhiteSpace(s[k]) {
          if k < |a| { assert s[k] == a[k]; } else { assert s[k] == b[k - |a|]; }
        }
      }
      var i := LeadingWhiteSpace(s);
      assert i == |s|;
    } else {
      assert s == a + (m + b);
      LeadingOfPadded(a, m + b);
      var t := s[|a|..];
      assert t == m + b;
      TrailingOfPadded(m, b);
    }
  }

  predicate StartsWith(s: string, prefix: string) {
    |prefix| <= |s| && s[..|prefix|] == prefix
  }

  /** `s.split(sep)` for a one-character separator: the maximal separator-free pieces, in order. */
  function Split(s: string, sep: char): (r: seq<string>)
    ensures |r| >= 1
  {
    if s == [] then [""]
    else
      var rest := Split(s[1..], sep);
      if s[0] == sep then [""] + rest
      else [[s[0]] + rest[0]] + rest[1..]
  }

  /** No piece of a split contains the separator. */
  lemma {:induction false} SplitPiecesLackSeparator(s: string, sep: char)
    ensures forall k :: 0 <= k < |Split(s, sep)| ==> sep !in Split(s, sep)[k]
  {
    if s != [] {
      SplitPiecesLackSeparator(s[1..], sep);
      var rest := Split(s[1..], sep);
      if s[0] != sep {
        assert sep !in [s[0]] + rest[0];
      }
    }
  }

  /** `pieces.join(sep)`; the join of no pieces is the empty string. */
  function Join(pieces: seq<string>, sep: string): string {
    if pieces == [] then ""
    else if |pieces| == 1 then pieces[0]
    else pieces[0] + sep + Join(pieces[1..], sep)
  }

  lemma {:induction false} SplitWithoutSeparator(s: string, sep: char)
    requires sep !in s
    ensures Split(s, sep) == [s]
  {
    if s != [] {
      SplitWithoutSeparator(s[1..], sep);
      assert [s[0]] + s[1..] == s;
    }
  }

  /** One step of `Split`: the first character either starts a new piece or joins the first one. */
  lemma SplitCons(c: char, t: string, sep: char)
    ensures var rest := Split(t, sep);
      Split([c] + t, sep) == if c == sep then [""] + rest else [[c] + rest[0]] + rest[1..]
  {
    assert ([c] + t)[1..] == t;
  }

  lemma ConsPieceAppend(c: char, rx: seq<string>, ry: seq<string>)
    requires |rx| >= 1
    ensures var rs := rx + ry; [[c] + rs[0]] + rs[1..] == ([[c] + rx[0]] + rx[1..]) + ry
  {
    var rs := rx + ry;
    assert rs[0] == rx[0] && rs[1..] == rx[1..] + ry;
  }

  /** Cutting at a separator: the pieces of `x` followed by the pieces of `y`. */
  lemma {:induction false} SplitAtSeparator(x: string, sep: char, y: string)
    ensures Split(x + [sep] + y, sep) == Split(x, sep) + Split(y, sep)
  {
    if x == [] {
      assert x + [sep] + y == [sep] + y;
      SplitCons(sep, y, sep);
    } else {
      var c, t := x[0], x[1..];
      var rx, ry := Split(t, sep), Split(y, sep);
      assert x + [sep] + y == [c] + (t + [sep] + y) by { assert x == [c] + t; }
      SplitAtSeparator(t, sep, y);
      if c == sep {
        calc {
          Split([c] + (t + [sep] + y), sep);
          == { SplitCons(c, t + [sep] + y, sep); }
          [""] + (rx + ry);
          ==
          ([""] + rx) + ry;
          == { SplitCons(c, t, sep); assert x == [c] + t; }
          Split(x, sep) + ry;
        }
      } else {
        calc {
          Split([c] + (t + [sep] + y), sep);
          == { SplitCons(c, t + [sep] + y, sep); }
          [[c] + (rx + ry)[0]] + (rx + ry)[1..];
          == { ConsPieceAppend(c, rx, ry); }
          ([[c] + rx[0]] + rx[1..]) + ry;
          == { SplitCons(c, t, sep); assert x == [c] + t; }
          Split(x, sep) + ry;
        }
      }
    }
  }

  /** Joining the pieces of a split with the same separator gives back the text. */
  lemma {:induction false} JoinSplit(s: string, sep: char)
    ensures Join(Split(s, sep), [sep]) == s
  {
    if s != [] {
      JoinSplit(s[1..], sep);
      var rest := Split(s[1..], sep);
      if s[0] == sep {
        assert Split(s, sep)[1..] == rest;
        assert [s[0]] + s[1..] == s;
      } else {
        var r := Split(s, sep);
        if |rest| == 1 {
          assert [s[0]] + s[1..] == s;
        } else {
          assert r[1..] == rest[1..];
          assert Join(rest, [sep]) == rest[0] + [sep] + Join(rest[1..], [sep]);
          assert s == [s[0]] + s[1..];
        }
      }
    }
  }

  /** Splitting a join of separator-free pieces gives back the pieces. */
  lemma {:induction false} SplitJoin(pieces: seq<string>, sep: char)
    requires |pieces| >= 1
    requires forall k :: 0 <= k < |pieces| ==> sep !in pieces[k]
    ensures Split(Join(pieces, [sep]), sep) == pieces
  {
    if |pieces| == 1 {
      SplitWithoutSeparator(pieces[0], sep);
    } else {
      SplitJoin(pieces[1..], sep);
      SplitAtSeparator(pieces[0], sep, Join(pieces[1..], [sep]));
      SplitWithoutSeparator(pieces[0], sep);
      assert [pieces[0]] + pieces[1..] == pieces;
    }
  }
}

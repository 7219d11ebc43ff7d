/**
 String helpers shared by the model: JavaScript's `\s` character class, ASCII
 case mapping, and `String.prototype.split` / `Array.prototype.join` with a
 one-character separator.
 */
module Text {
  import opened Options

  /** The characters matched by `\s` in a JavaScript regular expression. */
  predicate IsWhitespace(c: char) {
    || c == ' ' || c == '\t' || c == '\n' || c == '\U{000B}' || c == '\U{000C}' || c == '\r'
    || c == '\U{00A0}' || c == '\U{1680}' || ('\U{2000}' <= c <= '\U{200A}')
    || c == '\U{2028}' || c == '\U{2029}' || c == '\U{202F}' || c == '\U{205F}'
    || c == '\U{3000}' || c == '\U{FEFF}'
  }

  predicate IsAsciiUpper(c: char) { 'A' <= c <= 'Z' }

  predicate IsAsciiLower(c: char) { 'a' <= c <= 'z' }

  /** `toLowerCase` restricted to ASCII letters. */
  function LowerChar(c: char): (r: char)
    ensures !IsAsciiUpper(r)
    ensures IsAsciiUpper(c) ==> r as int == c as int + 32
    ensures !IsAsciiUpper(c) ==> r == c
  {
    if IsAsciiUpper(c) then (c as int + 32) as char else c
  }

  /** `toUpperCase` restricted to ASCII letters. */
  function UpperChar(c: char): (r: char)
    ensures !IsAsciiLower(r)
    ensures IsAsciiLower(c) ==> r as int == c as int - 32
    ensures !IsAsciiLower(c) ==> r == c
  {
    if IsAsciiLower(c) then (c as int - 32) as char else c
  }

  function Lower(s: string): (r: string)
    ensures |r| == |s|
    ensures forall i :: 0 <= i < |s| ==> r[i] == LowerChar(s[i])
  {
    seq(|s|, i requires 0 <= i < |s| => LowerChar(s[i]))
  }

  function Upper(s: string): (r: string)
    ensures |r| == |s|
    ensures forall i :: 0 <= i < |s| ==> r[i] == UpperChar(s[i])
  {
    seq(|s|, i requires 0 <= i < |s| => UpperChar(s[i]))
  }

  /** Position of the first `c` in `s`, if any (`indexOf`). */
  function IndexOf(s: string, c: char): (r: Option<nat>)
    ensures r.None? <==> c !in s
    ensures r.Some? ==> r.value < |s| && s[r.value] == c && c !in s[..r.value]
  {
    if |s| == 0 then None
    else if s[0] == c then Some(0)
    else
      match IndexOf(s[1..], c)
      case None => None
      case Some(i) =>
        assert s[1..][..i] == s[1..i + 1];
        Some(i + 1)
  }

  /** `s.split(c)`: the pieces between occurrences of `c`; never empty. */
  function Split(s: string, c: char): (r: seq<string>)
    ensures |r| >= 1
    decreases |s|
  {
    match IndexOf(s, c)
    case None => [s]
    case Some(i) => [s[..i]] + Split(s[i + 1..], c)
  }

  /** `s.split(c, limit)`: the first `limit` pieces of the unlimited split. */
  function SplitLimit(s: string, c: char, limit: nat): (r: seq<string>)
    ensures |r| <= limit && |r| <= |Split(s, c)|
    ensures r == Split(s, c)[..|r|]
    ensures limit >= 1 ==> |r| >= 1
  {
    var all := Split(s, c);
    if limit < |all| then all[..limit] else all
  }

  /** `parts.join(sep)`. */
  function Join(sep: string, parts: seq<string>): string
  {
    if |parts| == 0 then ""
    else if |parts| == 1 then parts[0]
    else parts[0] + sep + Join(sep, parts[1..])
  }

  /** No piece of a split contains the separator. */
  lemma {:induction false} SplitPiecesExcludeSeparator(s: string, c: char)
    ensures forall k :: 0 <= k < |Split(s, c)| ==> c !in Split(s, c)[k]
    decreases |s|
  {
    match IndexOf(s, c)
    case None =>
    case Some(i) =>
      SplitPiecesExcludeSeparator(s[i + 1..], c);
  }

  /** The first piece of a split is the text before the first separator. */
  lemma SplitHead(s: string, c: char)
    ensures Split(s, c)[0] == (match IndexOf(s, c) case None => s case Some(i) => s[..i])
  {
  }

  /** Joining the pieces of a split with the separator gives back the text. */
  lemma {:induction false} JoinSplit(s: string, c: char)
    ensures Join([c], Split(s, c)) == s
    decreases |s|
  {
    match IndexOf(s, c)
    case None =>
    case Some(i) =>
      var rest := s[i + 1..];
      var pieces := Split(s, c);
      assert pieces == [s[..i]] + Split(rest, c);
      assert pieces[1..] == Split(rest, c);
      JoinSplit(rest, c);
      assert Join([c], pieces) == s[..i] + [c] + Join([c], Split(rest, c));
      assert s == s[..i] + [c] + rest;
  }

  /** Splitting a join of separator-free pieces gives back the pieces. */
  lemma {:induction false} SplitJoin(parts: seq<string>, c: char)
    requires |parts| >= 1
    requires forall k :: 0 <= k < |parts| ==> c !in parts[k]
    ensures Split(Join([c], parts), c) == parts
    decreases |parts|
  {
    if |parts| == 1 {
      assert IndexOf(parts[0], c).None?;
    } else {
      var s := Join([c], parts);
      var p := parts[0];
      var rest := Join([c], parts[1..]);
      assert s == p + [c] + rest;
      var i := IndexOf(s, c);
      assert s[|p|] == c;
      assert s[..|p|] == p;
      assert i == Some(|p|);
      assert s[|p| + 1..] == rest;
      SplitJoin(parts[1..], c);
      assert parts == [p] + parts[1..];
    }
  }

  /** Joining one more part adds the separator and the part at the end. */
  lemma {:induction false} JoinAppend(sep: string, parts: seq<string>, p: string)
    ensures Join(sep, parts + [p]) == if |parts| == 0 then p else Join(sep, parts) + sep + p
    decreases |parts|
  {
    if |parts| > 1 {
      JoinAppend(sep, parts[1..], p);
      assert (parts + [p])[1..] == parts[1..] + [p];
    } else if |parts| == 1 {
      assert (parts + [p])[1..] == [p];
    }
  }
}

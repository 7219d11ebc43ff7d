/**
 The text command parser: turns a chat message into `{Tag, Command, Args,
 RawContent}` when it starts with the `!` prefix.
 */
module InputParser {
  import opened Options
  import opened Text
  import opened CommandApi

  datatype ParsedCommandInfo = ParsedCommandInfo(tag: Tag, command: Command, args: string, rawContent: string)

  /** `pieces[k]` when the split produced that many pieces, else the empty string. */
  function PieceOrEmpty(pieces: seq<string>, k: nat): string
  {
    if k < |pieces| then pieces[k] else ""
  }

  /**
   The parser as written. Because `split(' ', 1)` yields at most one piece, the
   "rest of the string" branches never fire: the tag is everything between `!`
   and the first space, and the other three fields always stay empty.
   */
  function ParseTextForCommandInfo(text: string): (r: Option<ParsedCommandInfo>)
    ensures r.None? <==> !(|text| > 0 && text[0] == '!')
    ensures r.Some? ==> "!" + r.value.tag <= text
    ensures r.Some? ==> ' ' !in r.value.tag
    ensures r.Some? ==> |text| == |r.value.tag| + 1 || text[|r.value.tag| + 1] == ' '
    ensures r.Some? ==> r.value.rawContent == "" && r.value.command == "" && r.value.args == ""
  {
    if |text| > 0 && text[0] == '!' then
      var temp := SplitLimit(text, ' ', 1);
      SplitHead(text, ' ');
      SplitPiecesExcludeSeparator(text, ' ');
      var tag := temp[0][1..];
      var rawContent := PieceOrEmpty(temp, 1);
      var rest := SplitLimit(rawContent, ' ', 1);
      var command := rest[0];
      var args := PieceOrEmpty(rest, 1);
      SplitHead(rawContent, ' ');
      Some(ParsedCommandInfo(tag, command, args, rawContent))
    else
      None
  }

  /** The bare prefix parses to an empty tag and empty fields. */
  lemma BarePrefix()
    ensures ParseTextForCommandInfo("!") == Some(ParsedCommandInfo("", "", "", ""))
  {
    assert IndexOf("!", ' ') == None;
  }

  /**
   A command followed by a space and more text loses everything after the tag:
   `!music play x` parses with tag `music` and empty raw content.
   */
  lemma RestOfLineDropped(tag: string, rest: string)
    requires ' ' !in tag
    ensures ParseTextForCommandInfo("!" + tag + " " + rest) == Some(ParsedCommandInfo(tag, "", "", ""))
  {
    var text := "!" + tag + " " + rest;
    assert text[|tag| + 1] == ' ';
    assert text[..|tag| + 1] == "!" + tag;
    var i := IndexOf(text, ' ').value;
    assert i == |tag| + 1;
    SplitHead(text, ' ');
    SplitHead("", ' ');
  }

  /** The text before the first `c`, and the text after it when there is one. */
  function SplitOnce(s: string, c: char): (r: (string, string))
    ensures c in s ==> s == r.0 + [c] + r.1
    ensures c !in s ==> r.0 == s && r.1 == ""
    ensures c !in r.0
  {
    match IndexOf(s, c)
    case None => (s, "")
    case Some(i) => (assert s == s[..i] + [c] + s[i + 1..]; (s[..i], s[i + 1..]))
  }

  /**
   The parser as its comments describe it: the text after the first space is
   the raw content, whose first space-separated word is the command and whose
   remainder is the argument text.
   */
  function ParseTextSplitOnce(text: string): (r: Option<ParsedCommandInfo>)
    ensures r.None? <==> !(|text| > 0 && text[0] == '!')
    ensures r.Some? && ' ' in text ==> text == "!" + r.value.tag + " " + r.value.rawContent
    ensures r.Some? && ' ' !in text ==> text == "!" + r.value.tag && r.value.rawContent == ""
    ensures r.Some? && ' ' in r.value.rawContent ==> r.value.rawContent == r.value.command + " " + r.value.args
    ensures r.Some? && ' ' !in r.value.rawContent ==> r.value.command == r.value.rawContent && r.value.args == ""
    ensures r.Some? ==> ' ' !in r.value.tag && ' ' !in r.value.command
  {
    if |text| > 0 && text[0] == '!' then
      var (head, rawContent) := SplitOnce(text, ' ');
      var (command, args) := SplitOnce(rawContent, ' ');
      assert head == "!" + head[1..];
      Some(ParsedCommandInfo(head[1..], command, args, rawContent))
    else
      None
  }

  /** Both parsers agree on whether the text is a command and on its tag. */
  lemma {:induction false} ParsersAgreeOnTag(text: string)
    ensures ParseTextForCommandInfo(text).None? <==> ParseTextSplitOnce(text).None?
    ensures ParseTextForCommandInfo(text).Some? ==> ParseTextForCommandInfo(text).value.tag == ParseTextSplitOnce(text).value.tag
  {
    SplitHead(text, ' ');
  }
}

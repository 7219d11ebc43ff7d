/**
 Logging: a logger's dotted context path, the once-only creation of the shared
 logging backend, and the layout of a log line.
 */
module LoggerUtils {
  import opened Options
  import Text

  /** A logger is known by its context path. */
  datatype Logger = Logger(context: string)

  /** The optional parent passed to the `Logger` constructor. */
  datatype Parent = NoParent | ParentName(name: string) | ParentLogger(logger: Logger)

  /**
   The shared backend behind every logger (`LoggerUtils.m_Logger`): not yet
   created, or created with some identity.
   */
  datatype Backend = Backend(instance: Option<nat>)

  /**
   `CreateLoggerInstance`: builds the backend (given the identity a new one
   would get) unless one exists already, in which case nothing changes.
   */
  function CreateLoggerInstance(b: Backend, newId: nat): (r: Backend)
    ensures b.instance.Some? ==> r == b
    ensures b.instance.None? ==> r.instance == Some(newId)
  {
    if b.instance.Some? then b else Backend(Some(newId))
  }

  /** Any number of creation calls leave the backend as the first call made it. */
  lemma {:induction false} CreateLoggerInstanceOnce(b: Backend, newIds: seq<nat>)
    requires |newIds| >= 1
    ensures CreateAll(b, newIds) == CreateLoggerInstance(b, newIds[0])
    decreases |newIds|
  {
    if |newIds| > 1 {
      CreateLoggerInstanceOnce(CreateLoggerInstance(b, newIds[0]), newIds[1..]);
    }
  }

  /** Calling `CreateLoggerInstance` once per identity, in order. */
  function CreateAll(b: Backend, newIds: seq<nat>): Backend
    decreases |newIds|
  {
    if |newIds| == 0 then b else CreateAll(CreateLoggerInstance(b, newIds[0]), newIds[1..])
  }

  /**
   The `Logger` constructor: the context is the parent's context (or the
   parent string) followed by "." and the logger's own name, or just the name
   without a parent; constructing a logger also ensures the backend exists.
   */
  function NewLogger(name: string, parent: Parent, b: Backend, newId: nat): (r: (Logger, Backend))
    ensures parent.NoParent? ==> r.0.context == name
    ensures parent.ParentName? ==> r.0.context == parent.name + "." + name
    ensures parent.ParentLogger? ==> r.0.context == parent.logger.context + "." + name
    ensures r.1 == CreateLoggerInstance(b, newId)
  {
    var prefix := match parent
      case NoParent => ""
      case ParentName(p) => p + "."
      case ParentLogger(l) => l.context + ".";
    (Logger(prefix + name), CreateLoggerInstance(b, newId))
  }

  /** The logger for a chain of names, each one the child of the logger before it. */
  function NestedLogger(names: seq<string>, b: Backend): Logger
    requires |names| >= 1
    decreases |names|
  {
    if |names| == 1 then NewLogger(names[0], NoParent, b, 0).0
    else NewLogger(names[|names| - 1], ParentLogger(NestedLogger(names[..|names| - 1], b)), b, 0).0
  }

  /** Nested loggers have the dotted path of their names as context. */
  lemma {:induction false} NestedLoggerContext(names: seq<string>, b: Backend)
    requires |names| >= 1
    ensures NestedLogger(names, b).context == Text.Join(".", names)
    decreases |names|
  {
    if |names| > 1 {
      var init := names[..|names| - 1];
      NestedLoggerContext(init, b);
      Text.JoinAppend(".", init, names[|names| - 1]);
      assert init + [names[|names| - 1]] == names;
    }
  }

  /** When no name contains ".", the names can be read back from the context path. */
  lemma NestedLoggerContextSplits(names: seq<string>, b: Backend)
    requires |names| >= 1
    requires forall k :: 0 <= k < |names| ==> '.' !in names[k]
    ensures Text.Split(NestedLogger(names, b).context, '.') == names
  {
    NestedLoggerContext(names, b);
    Text.SplitJoin(names, '.');
  }

  /** The custom levels, most severe first. */
  datatype Level = Error | Warning | Debug

  function LevelName(l: Level): string {
    match l
    case Error => "Error"
    case Warning => "Warning"
    case Debug => "Debug"
  }

  /** A message handed to the backend with its logger's context. */
  datatype Entry = Entry(level: Level, message: string, context: string)

  /** `Debug`, `Warning` and `Error`: the arguments joined with single spaces, tagged with the context. */
  function Log(logger: Logger, level: Level, args: seq<string>): (r: Entry)
    ensures r.level == level && r.context == logger.context
    ensures r.message == Text.Join(" ", args)
    ensures |args| == 0 ==> r.message == ""
    ensures |args| == 1 ==> r.message == args[0]
  {
    Entry(level, Text.Join(" ", args), logger.context)
  }

  /** When no argument contains a space, the arguments can be read back from the message. */
  lemma LogMessageSplits(logger: Logger, level: Level, args: seq<string>)
    requires |args| >= 1
    requires forall k :: 0 <= k < |args| ==> ' ' !in args[k]
    ensures Text.Split(Log(logger, level, args).message, ' ') == args
  {
    Text.SplitJoin(args, ' ');
  }

  /** `LogFormatter`: `[time] [LEVEL] [context]: message`, the level upper-cased. */
  function LogFormatter(time: string, level: string, context: string, message: string): (r: string)
    ensures |r| == |time| + |level| + |context| + |message| + 10
    ensures r[..|time| + 4] == "[" + time + "] ["
    ensures r[|r| - |message|..] == message
    ensures forall i :: |time| + 4 <= i < |time| + 4 + |level| ==> !Text.IsAsciiLower(r[i])
  {
    "[" + time + "] [" + Text.Upper(level) + "] [" + context + "]: " + message
  }

  /** The text between a leading "[" and the first "]", and what follows that "]". */
  function Bracketed(s: string): (r: Option<(string, string)>)
    ensures r.Some? ==> "[" + r.value.0 + "]" + r.value.1 == s && ']' !in r.value.0
  {
    if |s| == 0 || s[0] != '[' then None
    else match Text.IndexOf(s[1..], ']')
      case None => None
      case Some(i) =>
        assert s == "[" + s[1..1 + i] + "]" + s[2 + i..];
        Some((s[1..1 + i], s[2 + i..]))
  }

  /** `Bracketed` after a single leading space. */
  function SpacedBracketed(s: string): (r: Option<(string, string)>)
    ensures r.Some? ==> " " + ("[" + r.value.0 + "]" + r.value.1) == s && ']' !in r.value.0
  {
    if |s| == 0 || s[0] != ' ' then None
    else match Bracketed(s[1..])
      case None => None
      case Some(inner) =>
        assert s == " " + s[1..];
        Some(inner)
  }

  /** What follows ": " at the start of `s`. */
  function AfterColon(s: string): (r: Option<string>)
    ensures r.Some? ==> ": " + r.value == s
  {
    if |s| < 2 || s[..2] != ": " then None
    else
      assert s == s[..2] + s[2..];
      Some(s[2..])
  }

  /** The line layout with the level already in its final form. */
  function LogLine(time: string, level: string, context: string, message: string): string {
    "[" + time + "]" + (" " + ("[" + level + "]" + (" " + ("[" + context + "]" + (": " + message)))))
  }

  /** Reads a formatted line back into its time, level, context and message. */
  function ParseLogLine(line: string): (r: Option<(string, string, string, string)>)
    ensures r.Some? ==> LogLine(r.value.0, r.value.1, r.value.2, r.value.3) == line
  {
    match Bracketed(line)
    case None => None
    case Some((time, rest1)) =>
      match SpacedBracketed(rest1)
      case None => None
      case Some((level, rest2)) =>
        match SpacedBracketed(rest2)
        case None => None
        case Some((context, rest3)) =>
          match AfterColon(rest3)
          case None => None
          case Some(message) => Some((time, level, context, message))
  }

  /** The first "]" after an unbracketed prefix is the one that closes it. */
  lemma BracketedOf(x: string, rest: string)
    requires ']' !in x
    ensures Bracketed("[" + x + "]" + rest) == Some((x, rest))
  {
    var s := "[" + x + "]" + rest;
    assert s[1..] == x + "]" + rest;
    assert s[1..][|x|] == ']';
    assert s[1..][..|x|] == x;
    assert s[1..1 + |x|] == x;
    assert s[2 + |x|..] == rest;
  }

  lemma SpacedBracketedOf(x: string, rest: string)
    requires ']' !in x
    ensures SpacedBracketed(" " + ("[" + x + "]" + rest)) == Some((x, rest))
  {
    var s := " " + ("[" + x + "]" + rest);
    assert s[1..] == "[" + x + "]" + rest;
    BracketedOf(x, rest);
  }

  lemma AfterColonOf(message: string)
    ensures AfterColon(": " + message) == Some(message)
  {
    var s := ": " + message;
    assert s[..2] == ": " && s[2..] == message;
  }

  /** Parsing inverts the line layout when no bracketed part contains "]". */
  lemma ParseLogLineOf(time: string, level: string, context: string, message: string)
    requires ']' !in time && ']' !in level && ']' !in context
    ensures ParseLogLine(LogLine(time, level, context, message)) == Some((time, level, context, message))
  {
    var rest3 := ": " + message;
    var rest2 := " " + ("[" + context + "]" + rest3);
    var rest1 := " " + ("[" + level + "]" + rest2);
    BracketedOf(time, rest1);
    SpacedBracketedOf(level, rest2);
    SpacedBracketedOf(context, rest3);
    AfterColonOf(message);
  }

  /** The formatter lays a line out with the upper-cased level, which has a "]" only if the level had. */
  lemma LogFormatterIsLogLine(time: string, level: string, context: string, message: string)
    ensures LogFormatter(time, level, context, message) == LogLine(time, Text.Upper(level), context, message)
    ensures ']' !in level ==> ']' !in Text.Upper(level)
  {
    var up := Text.Upper(level);
    if ']' !in level {
      forall i | 0 <= i < |up| ensures up[i] != ']' {
        assert up[i] == Text.UpperChar(level[i]);
      }
    }
  }

  /** The printed name of each custom level: its name in capitals. */
  function PrintedLevel(l: Level): string {
    match l
    case Error => "ERROR"
    case Warning => "WARNING"
    case Debug => "DEBUG"
  }

  lemma UpperLevelName(l: Level)
    ensures Text.Upper(LevelName(l)) == PrintedLevel(l)
  {
    var name := LevelName(l);
    var up := Text.Upper(name);
    assert |up| == |PrintedLevel(l)|;
    forall i | 0 <= i < |up| ensures up[i] == PrintedLevel(l)[i] {
      assert up[i] == Text.UpperChar(name[i]);
    }
  }

  /** Each custom level prints upper-cased in its bracket. */
  lemma LogFormatterLevels(time: string, l: Level, context: string, message: string)
    ensures LogFormatter(time, LevelName(l), context, message) == LogLine(time, PrintedLevel(l), context, message)
  {
    LogFormatterIsLogLine(time, LevelName(l), context, message);
    UpperLevelName(l);
  }

  /**
   A formatted line reads back as its time, upper-cased level, context and
   message when none of the bracketed parts contains "]".
   */
  lemma ParseLogFormatter(time: string, level: string, context: string, message: string)
    requires ']' !in time && ']' !in level && ']' !in context
    ensures ParseLogLine(LogFormatter(time, level, context, message)) == Some((time, Text.Upper(level), context, message))
  {
    LogFormatterIsLogLine(time, level, context, message);
    ParseLogLineOf(time, Text.Upper(level), context, message);
  }
}

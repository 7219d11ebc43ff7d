/**
 The `PluginCommand`, `BotCommand` and `Usage` method decorators. A decorator
 receives the class's descriptor list explicitly and returns the new list
 together with the property descriptor it was given.
 */
module CommandDecorator {
  import opened Options
  import opened Text
  import opened CommandApi
  import opened CommandUtils

  /** The property descriptor of the decorated method; decorators hand it back untouched. */
  datatype PropertyDescriptor = PropertyDescriptor(id: nat)

  /** What a registering decorator leaves behind. */
  datatype Decorated = Decorated(registry: seq<CommandMetaData>, descriptor: PropertyDescriptor)

  function PluginCommand(
    registry: Option<seq<CommandMetaData>>, description: string, args: Option<CommandInfo>,
    key: string, params: seq<string>, descriptor: PropertyDescriptor): (r: Decorated)
    ensures r.descriptor == descriptor
    ensures r.registry == RegisterCommandMetaData(registry, description, key, params, args)
  {
    Decorated(RegisterCommandMetaData(registry, description, key, params, args), descriptor)
  }

  /** Identical to `PluginCommand`; only the name differs, for readability at the use site. */
  function BotCommand(
    registry: Option<seq<CommandMetaData>>, description: string, args: Option<CommandInfo>,
    key: string, params: seq<string>, descriptor: PropertyDescriptor): (r: Decorated)
    ensures r.descriptor == descriptor
    ensures r.registry == RegisterCommandMetaData(registry, description, key, params, args)
  {
    Decorated(RegisterCommandMetaData(registry, description, key, params, args), descriptor)
  }

  /** The two decorators register the same descriptor and return the descriptor unchanged. */
  lemma BotCommandIsPluginCommand(
    registry: Option<seq<CommandMetaData>>, description: string, args: Option<CommandInfo>,
    key: string, params: seq<string>, descriptor: PropertyDescriptor)
    ensures BotCommand(registry, description, args, key, params, descriptor)
         == PluginCommand(registry, description, args, key, params, descriptor)
    ensures PluginCommand(registry, description, args, key, params, descriptor).descriptor == descriptor
  {
  }

  // ---------------------------------------------------------------------------
  // Usage text normalisation: `usage.replace(/\s\s+/g, '\n')`
  // ---------------------------------------------------------------------------

  /** The number of leading whitespace characters of `s`. */
  function LeadingWhitespace(s: string): (n: nat)
    ensures n <= |s|
    ensures forall i :: 0 <= i < n ==> IsWhitespace(s[i])
    ensures n == |s| || !IsWhitespace(s[n])
  {
    if |s| == 0 || !IsWhitespace(s[0]) then 0 else 1 + LeadingWhitespace(s[1..])
  }

  /**
   Every maximal run of two or more whitespace characters becomes one `'\n'`;
   everything else is copied. Scanning left to right and consuming the longest
   run is how a global, greedy `\s\s+` match proceeds.
   */
  function CollapseWhitespaceRuns(s: string): string
    decreases |s|
  {
    if |s| == 0 then ""
    else if |s| >= 2 && IsWhitespace(s[0]) && IsWhitespace(s[1]) then
      "\n" + CollapseWhitespaceRuns(s[LeadingWhitespace(s)..])
    else
      [s[0]] + CollapseWhitespaceRuns(s[1..])
  }

  /** No two neighbouring characters are both whitespace. */
  predicate NoAdjacentWhitespace(s: string) {
    forall i :: 0 <= i < |s| - 1 ==> !(IsWhitespace(s[i]) && IsWhitespace(s[i + 1]))
  }

  /** The non-whitespace characters of `s`, in order. */
  function NonWhitespace(s: string): string
  {
    if |s| == 0 then "" else (if IsWhitespace(s[0]) then "" else [s[0]]) + NonWhitespace(s[1..])
  }

  /** The collapsed text is empty exactly when the input is, and starts with whitespace exactly when the input does. */
  lemma CollapseFirstChar(s: string)
    ensures |CollapseWhitespaceRuns(s)| == 0 <==> |s| == 0
    ensures |s| > 0 ==> (IsWhitespace(CollapseWhitespaceRuns(s)[0]) <==> IsWhitespace(s[0]))
  {
  }

  /** The stored usage never has two whitespace characters side by side. */
  lemma {:induction false} CollapseLeavesNoAdjacentWhitespace(s: string)
    ensures NoAdjacentWhitespace(CollapseWhitespaceRuns(s))
    decreases |s|
  {
    if |s| == 0 {
    } else if |s| >= 2 && IsWhitespace(s[0]) && IsWhitespace(s[1]) {
      var rest := s[LeadingWhitespace(s)..];
      CollapseLeavesNoAdjacentWhitespace(rest);
      CollapseFirstChar(rest);
    } else {
      var rest := s[1..];
      CollapseLeavesNoAdjacentWhitespace(rest);
      CollapseFirstChar(rest);
    }
  }

  /** Text without adjacent whitespace is left as it is. */
  lemma {:induction false} CollapseKeepsSettledText(s: string)
    requires NoAdjacentWhitespace(s)
    ensures CollapseWhitespaceRuns(s) == s
    decreases |s|
  {
    if |s| > 0 {
      assert NoAdjacentWhitespace(s[1..]);
      CollapseKeepsSettledText(s[1..]);
    }
  }

  /** Every character of `s` is whitespace. */
  predicate AllWhitespace(s: string) {
    forall i :: 0 <= i < |s| ==> IsWhitespace(s[i])
  }

  /** A maximal run of two or more whitespace characters becomes exactly one `'\n'`. */
  lemma RunBecomesNewline(run: string, post: string)
    requires |run| >= 2 && AllWhitespace(run)
    requires post == [] || !IsWhitespace(post[0])
    ensures CollapseWhitespaceRuns(run + post) == "\n" + CollapseWhitespaceRuns(post)
  {
    var s := run + post;
    RunLength(s, |run|);
    assert s[|run|..] == post;
  }

  /** The leading whitespace of a run followed by text is the run. */
  lemma {:induction false} RunLength(s: string, n: nat)
    requires n <= |s|
    requires forall i :: 0 <= i < n ==> IsWhitespace(s[i])
    requires n == |s| || !IsWhitespace(s[n])
    ensures LeadingWhitespace(s) == n
    decreases n
  {
    if n > 0 {
      RunLength(s[1..], n - 1);
    }
  }

  /** One step of the collapse at a run of two or more whitespace characters. */
  lemma CollapseRunStep(s: string)
    requires |s| >= 2 && IsWhitespace(s[0]) && IsWhitespace(s[1])
    ensures CollapseWhitespaceRuns(s) == "\n" + CollapseWhitespaceRuns(s[LeadingWhitespace(s)..])
  {
  }

  /** One step of the collapse at a character that does not start such a run. */
  lemma CollapseCharStep(s: string)
    requires |s| > 0 && !(|s| >= 2 && IsWhitespace(s[0]) && IsWhitespace(s[1]))
    ensures CollapseWhitespaceRuns(s) == [s[0]] + CollapseWhitespaceRuns(s[1..])
  {
  }

  /** Text that does not end in whitespace is collapsed on its own, apart from what follows it. */
  lemma {:induction false} CollapseAfterText(pre: string, x: string)
    requires pre == [] || !IsWhitespace(pre[|pre| - 1])
    ensures CollapseWhitespaceRuns(pre + x) == CollapseWhitespaceRuns(pre) + CollapseWhitespaceRuns(x)
    decreases |pre|
  {
    if |pre| == 0 {
      assert pre + x == x;
    } else if |pre| >= 2 && IsWhitespace(pre[0]) && IsWhitespace(pre[1]) {
      CollapseAfterRun(pre, x);
    } else {
      CollapseAfterChar(pre, x);
    }
  }

  /** The run case of `CollapseAfterText`. */
  lemma {:induction false} CollapseAfterRun(pre: string, x: string)
    requires |pre| >= 2 && IsWhitespace(pre[0]) && IsWhitespace(pre[1])
    requires !IsWhitespace(pre[|pre| - 1])
    ensures CollapseWhitespaceRuns(pre + x) == CollapseWhitespaceRuns(pre) + CollapseWhitespaceRuns(x)
    decreases |pre|, 0
  {
    var s := pre + x;
    var n := LeadingWhitespace(pre);
    RunLength(s, n);
    var rest := pre[n..];
    assert s[n..] == rest + x;
    CollapseRunStep(pre);
    CollapseRunStep(s);
    CollapseAfterText(rest, x);
    Associative("\n", CollapseWhitespaceRuns(rest), CollapseWhitespaceRuns(x));
  }

  /** The single-character case of `CollapseAfterText`. */
  lemma {:induction false} CollapseAfterChar(pre: string, x: string)
    requires |pre| > 0 && !(|pre| >= 2 && IsWhitespace(pre[0]) && IsWhitespace(pre[1]))
    requires !IsWhitespace(pre[|pre| - 1])
    ensures CollapseWhitespaceRuns(pre + x) == CollapseWhitespaceRuns(pre) + CollapseWhitespaceRuns(x)
    decreases |pre|, 0
  {
    var s := pre + x;
    var rest := pre[1..];
    assert s[1..] == rest + x;
    CollapseCharStep(pre);
    CollapseCharStep(s);
    if |pre| == 1 {
      assert rest + x == x;
      assert CollapseWhitespaceRuns(rest) == "";
    } else {
      CollapseAfterText(rest, x);
      Associative([pre[0]], CollapseWhitespaceRuns(rest), CollapseWhitespaceRuns(x));
    }
  }

  /** A maximal run of two or more whitespace characters anywhere in the text becomes exactly one `'\n'`. */
  lemma RunAnywhere(pre: string, run: string, post: string)
    requires pre == [] || !IsWhitespace(pre[|pre| - 1])
    requires |run| >= 2 && AllWhitespace(run)
    requires post == [] || !IsWhitespace(post[0])
    ensures CollapseWhitespaceRuns(pre + run + post) == CollapseWhitespaceRuns(pre) + "\n" + CollapseWhitespaceRuns(post)
  {
    Associative(pre, run, post);
    CollapseAfterText(pre, run + post);
    RunBecomesNewline(run, post);
    Associative(CollapseWhitespaceRuns(pre), "\n", CollapseWhitespaceRuns(post));
  }

  /** Concatenation regroups. */
  lemma Associative(a: string, b: string, c: string)
    ensures a + (b + c) == a + b + c
  {
  }

  /** Collapsing twice is collapsing once. */
  lemma CollapseIdempotent(s: string)
    ensures CollapseWhitespaceRuns(CollapseWhitespaceRuns(s)) == CollapseWhitespaceRuns(s)
  {
    CollapseLeavesNoAdjacentWhitespace(s);
    CollapseKeepsSettledText(CollapseWhitespaceRuns(s));
  }

  lemma {:induction false} WhitespacePrefixHasNoText(s: string, n: nat)
    requires n <= |s|
    requires forall i :: 0 <= i < n ==> IsWhitespace(s[i])
    ensures NonWhitespace(s) == NonWhitespace(s[n..])
    decreases n
  {
    if n > 0 {
      WhitespacePrefixHasNoText(s[1..], n - 1);
      assert s[1..][n - 1..] == s[n..];
    }
  }

  /** Collapsing keeps every non-whitespace character, in order. */
  lemma {:induction false} CollapsePreservesText(s: string)
    ensures NonWhitespace(CollapseWhitespaceRuns(s)) == NonWhitespace(s)
    decreases |s|
  {
    if |s| == 0 {
    } else if |s| >= 2 && IsWhitespace(s[0]) && IsWhitespace(s[1]) {
      var n := LeadingWhitespace(s);
      CollapsePreservesText(s[n..]);
      WhitespacePrefixHasNoText(s, n);
      var c := CollapseWhitespaceRuns(s[n..]);
      assert ("\n" + c)[1..] == c;
    } else {
      CollapsePreservesText(s[1..]);
      var c := CollapseWhitespaceRuns(s[1..]);
      assert ([s[0]] + c)[1..] == c;
    }
  }

  // ---------------------------------------------------------------------------
  // The Usage decorator
  // ---------------------------------------------------------------------------

  /** The position of the first descriptor whose handler is `key`. */
  function FindFunction(registry: seq<CommandMetaData>, key: string): (r: Option<nat>)
    ensures r.None? <==> forall j :: 0 <= j < |registry| ==> registry[j].functionName != key
    ensures r.Some? ==> r.value < |registry| && registry[r.value].functionName == key
    ensures r.Some? ==> forall j :: 0 <= j < r.value ==> registry[j].functionName != key
  {
    if |registry| == 0 then None
    else if registry[0].functionName == key then Some(0)
    else match FindFunction(registry[1..], key)
      case None => None
      case Some(i) => Some(i + 1)
  }

  /** The decorator either stores the usage or throws for improper use. */
  datatype UsageOutcome = Attached(registry: seq<CommandMetaData>, descriptor: PropertyDescriptor) | ImproperUsage(key: string)

  /**
   `@Usage(text)` on handler `key`: fails when the class has no descriptor
   list or none of its descriptors belongs to `key`; otherwise stores the
   collapsed text in the FIRST such descriptor and changes nothing else.
   */
  function Usage(registry: Option<seq<CommandMetaData>>, usage: string, key: string, descriptor: PropertyDescriptor): (r: UsageOutcome)
    ensures r.ImproperUsage? <==> registry.None? || forall j :: 0 <= j < |registry.value| ==> registry.value[j].functionName != key
    ensures r.ImproperUsage? ==> r.key == key
    ensures r.Attached? ==> r.descriptor == descriptor && |r.registry| == |registry.value|
    ensures r.Attached? ==> exists i :: (
      && 0 <= i < |registry.value| && registry.value[i].functionName == key
      && (forall j :: 0 <= j < i ==> registry.value[j].functionName != key)
      && r.registry[i] == registry.value[i].(usage := CollapseWhitespaceRuns(usage))
      && (forall j :: 0 <= j < |r.registry| && j != i ==> r.registry[j] == registry.value[j]))
  {
    if registry.None? then ImproperUsage(key)
    else match FindFunction(registry.value, key)
      case None => ImproperUsage(key)
      case Some(i) =>
        var reg := registry.value;
        Attached(reg[i := reg[i].(usage := CollapseWhitespaceRuns(usage))], descriptor)
  }
}

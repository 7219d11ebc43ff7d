/** `!usage [<command>]`: the usage text of a bot command, from its descriptors. */
module UsageCommand {
  import opened Options
  import opened Text
  import opened CommandApi
  import OrderedMap

  const UsageHowToText: string :=
    "__**How to use usage:**__\n"
    + "Usage is a command designed to help you understand how to use commands. When you provide a command, it will display the command's structure and examples for how to use it.\n\n"

  const NoUsageText: string := "This command does not have any usage documentation."

  function UsageHeader(command: Command): string {
    "__**Usage for " + command + ":**__\n"
  }

  /** Each overload's usage followed by a newline, in registry order. */
  function UsageLines(descriptors: seq<CommandMetaData>): (r: seq<string>)
    ensures |r| == |descriptors|
    ensures forall i :: 0 <= i < |descriptors| ==> r[i] == descriptors[i].usage + "\n"
  {
    seq(|descriptors|, i requires 0 <= i < |descriptors| => descriptors[i].usage + "\n")
  }

  /** The usage block of a command: the usage lines separated by a blank line. */
  function UsageBlock(descriptors: seq<CommandMetaData>): string {
    Join("\n", UsageLines(descriptors))
  }

  /**
   The `forEach` that builds the block: before every entry but the first a
   `'\n'`, then the entry's usage and `'\n'`. It produces the joined block.
   */
  method AccumulateUsage(descriptors: seq<CommandMetaData>) returns (commandsStr: string)
    ensures commandsStr == UsageBlock(descriptors)
  {
    commandsStr := "";
    var index := 0;
    while index < |descriptors|
      invariant 0 <= index <= |descriptors|
      invariant commandsStr == UsageBlock(descriptors[..index])
    {
      if index != 0 {
        commandsStr := commandsStr + "\n";
      }
      commandsStr := commandsStr + (descriptors[index].usage + "\n");
      assert UsageLines(descriptors[..index + 1]) == UsageLines(descriptors[..index]) + [descriptors[index].usage + "\n"];
      JoinAppend("\n", UsageLines(descriptors[..index]), descriptors[index].usage + "\n");
      index := index + 1;
    }
    assert descriptors[..index] == descriptors;
  }

  /**
   Every descriptor contributes at least a newline, so the block is empty
   exactly when the command has no descriptors at all.
   */
  lemma {:induction false} UsageBlockEmptyIffNoDescriptors(descriptors: seq<CommandMetaData>)
    ensures UsageBlock(descriptors) == "" <==> |descriptors| == 0
    ensures |descriptors| > 0 ==> |UsageBlock(descriptors)| >= 2 * |descriptors| - 1 + |descriptors[0].usage|
    decreases |descriptors|
  {
    if |descriptors| > 1 {
      UsageBlockEmptyIffNoDescriptors(descriptors[1..]);
      assert UsageLines(descriptors)[1..] == UsageLines(descriptors[1..]);
    }
  }

  datatype UsageReply = UsageReply(messages: seq<string>, code: CommandErrorCode)

  /**
   `GetUsage` for the bot surface. With a plugin tag nothing is sent yet. With
   neither tag nor command the how-to text goes first and the command `usage`
   is documented. An unknown command is UNRECOGNIZED_BOT_COMMAND; a known one
   sends its header and usage block, or the no-documentation notice when the
   block is empty.
   */
  function GetUsage(registry: CommandRegistry, tag: Option<Tag>, command: Option<Command>): (r: UsageReply)
    ensures tag.Some? ==> r == UsageReply([], SUCCESS)
    ensures tag.None? ==>
      var cmd := command.GetOr("usage");
      var lead := if command.None? then [UsageHowToText] else [];
      && (!OrderedMap.Has(registry, cmd) ==> r == UsageReply(lead, UNRECOGNIZED_BOT_COMMAND))
      && (OrderedMap.Has(registry, cmd) ==> (
            var descriptors := OrderedMap.Get(registry, cmd).value;
            && r.code == SUCCESS
            && r.messages == lead + [if |descriptors| == 0 then NoUsageText else UsageHeader(cmd) + UsageBlock(descriptors)]))
  {
    if tag.Some? then UsageReply([], SUCCESS)
    else
      var lead := if command.None? then [UsageHowToText] else [];
      var cmd := if command.None? then "usage" else command.value;
      if OrderedMap.Has(registry, cmd) then
        var descriptors := OrderedMap.Get(registry, cmd).value;
        var commandsStr := UsageBlock(descriptors);
        UsageBlockEmptyIffNoDescriptors(descriptors);
        UsageReply(lead + [if commandsStr == "" then NoUsageText else UsageHeader(cmd) + commandsStr], SUCCESS)
      else
        UsageReply(lead, UNRECOGNIZED_BOT_COMMAND)
  }
}

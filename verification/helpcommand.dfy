/** `!help [<page>]`: page selection and the text of each page. */
module HelpCommand {
  import opened Options
  import opened Text

  const HelpHowToText: string :=
    "__**How to use commands:**__\n"
    + "The command structure is like this: `!<tag> <command> <arguments>`\n\n"
    + "You must always start with an `!` and this is immediately followed with a `tag`. Each plugin has its own specific tag which you have to use to execute one of its commands. These tags are *unique* and no two plugins will have the same one.\n\n"
    + "Since these tags can get long and tedious, each plugin also has an `alias`. You can use this instead of the tag to reduce typing. If two plugins have the same alias, you will have to use the tag.\n\n"
    + "Plugins might also have commands. This is what follows the tag, separated with a space. See the help page for a Plugin to know what commands it has.\n\n"
    + "Some commands don't require any additional arguments, to learn more about how commands are used, type `!usage`\n\n"
    + "The bot also has special commands which follow a slightly different command structure than plugins. They are just `!<command>`. These are unique to the bot itself and a plugin will never do this.\n\n"
    + "**Example plugin command 1:** `!music play`\n"
    + "**Example plugin command 2:** `!m queue throughthefireandflames`\n"
    + "**Example bot command:** `!hello`\n\n"
    + "__**More help:**__\n"
    + "To see which commands the bot has, type `!help bot`\n"
    + "To see which plugins the bot has, type `!help plugins` or `!help tags`\n"
    + "To see which commands a plugin has, type `!help <tag>` or `!help <alias>`\n"
    + "To see all commands available for the bot and all plugins, type `!help all`\n\n"

  const BotPageTitle: string := "__**Basic Commands:**__"

  /** The plugin-tag page, which has no content yet. */
  const HelpPluginTagsText: string := ""

  /** Each entry followed by a newline. */
  function EntryLines(entries: seq<string>): string
  {
    if |entries| == 0 then "" else entries[0] + "\n" + EntryLines(entries[1..])
  }

  /**
   The bot page: the title line, then one line per help entry. The entries are
   what `CommandUtils.GetCommandHelp` (not part of this model) makes of the
   bot's registry.
   */
  function GetHelpBot(entries: seq<string>): string
  {
    BotPageTitle + "\n" + EntryLines(entries)
  }

  lemma {:induction false} EntryLinesIsJoin(entries: seq<string>)
    ensures EntryLines(entries) == Join("\n", entries + [""])
    decreases |entries|
  {
    if |entries| > 0 {
      EntryLinesIsJoin(entries[1..]);
      assert (entries + [""])[1..] == entries[1..] + [""];
    }
  }

  /**
   When no entry spans several lines, the bot page splits into exactly the
   title, the entries in order, and the empty text after the final newline.
   */
  lemma BotPageLines(entries: seq<string>)
    requires forall k :: 0 <= k < |entries| ==> '\n' !in entries[k]
    ensures Split(GetHelpBot(entries), '\n') == [BotPageTitle] + entries + [""]
  {
    EntryLinesIsJoin(entries);
    var parts := [BotPageTitle] + entries + [""];
    assert parts[1..] == entries + [""];
    assert Join("\n", parts) == GetHelpBot(entries);
    SplitJoin(parts, '\n');
  }

  /** The optional modifier every sent message goes through. */
  function ApplyModifier(modifier: Option<string -> string>, message: string): (r: string)
    ensures modifier.None? ==> r == message
    ensures modifier.Some? ==> r == modifier.value(message)
  {
    match modifier
    case None => message
    case Some(f) => f(message)
  }

  /** `GetHelp`: the messages sent for a page, in order. */
  function GetHelp(entries: seq<string>, page: string, modifier: Option<string -> string>): (r: seq<string>)
    ensures |r| <= 1
    ensures page == "" ==> r == [ApplyModifier(modifier, HelpHowToText)]
    ensures page == "all" || page == "bot" ==> r == [ApplyModifier(modifier, GetHelpBot(entries))]
    ensures page == "plugin" || page == "plugins" || page == "tags" ==> r == [ApplyModifier(modifier, HelpPluginTagsText)]
    ensures r == [] <==> page !in {"", "all", "bot", "plugin", "plugins", "tags"}
  {
    if page == "" then [ApplyModifier(modifier, HelpHowToText)]
    else if page == "all" then [ApplyModifier(modifier, GetHelpBot(entries))]
    else if page == "bot" then [ApplyModifier(modifier, GetHelpBot(entries))]
    else if page == "plugin" || page == "plugins" || page == "tags" then [ApplyModifier(modifier, HelpPluginTagsText)]
    else []
  }

  /** The `all` and `bot` pages are the same message. */
  lemma AllPageIsBotPage(entries: seq<string>, modifier: Option<string -> string>)
    ensures GetHelp(entries, "all", modifier) == GetHelp(entries, "bot", modifier)
  {
  }
}

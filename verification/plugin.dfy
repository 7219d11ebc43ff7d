/** The base plugin: a tagged command surface whose registry is loaded at initialisation. */
module Plugin {
  import opened Options
  import opened Discord
  import opened CommandApi
  import opened InputParser
  import OrderedMap
  import CommandSurface

  datatype PluginState = PluginState(
    tag: Tag,
    tagAlias: TagAlias,
    registry: CommandRegistry,
    defaultParser: ParamParser,
    defaultParserType: ParamParserType)

  /** A command belongs to the plugin exactly when it is a key of the registry. */
  function IsCommand(p: PluginState, command: Command): (r: bool)
    ensures r <==> exists i :: OrderedMap.HasKeyAt(p.registry, command, i)
  {
    OrderedMap.Has(p.registry, command)
  }

  /** Plugins do not read ordinary messages. */
  function IsReadingMessages(p: PluginState): (r: bool)
    ensures !r
  {
    false
  }

  /**
   `Initialize`, up to the point where the concrete plugin's `InitPlugin`
   runs: tag and alias reset to empty, the SPACES parser as default, and the
   registry the class declared (`CommandUtils.LoadCommandRegistry`, not part
   of this model, supplies it).
   */
  function Initialize(loadedRegistry: CommandRegistry): (p: PluginState)
    ensures p.tag == "" && p.tagAlias == ""
    ensures p.defaultParser == ParamParserSpaces && p.defaultParserType == SPACES
    ensures p.registry == loadedRegistry
  {
    PluginState("", "", loadedRegistry, ParamParserSpaces, SPACES)
  }

  /**
   What a plugin's `TryExecuteCommand` hands back as its second value. The
   declared type is a bare code, which is what a parse failure returns; a
   handler is reached through an untyped lookup and returns a whole
   `CommandError`, which is passed on as it is.
   */
  datatype PluginResult = Code(code: CommandErrorCode) | HandlerError(error: CommandError)

  /**
   A plugin's `TryExecuteCommand`: always STOP; a failed argument parse gives
   the bot-usage code (not the plugin one) and calls no handler.
   */
  function TryExecuteCommand(
    p: PluginState, info: MessageInfo, parsedCommand: ParsedCommandInfo,
    parseArgs: CommandSurface.ArgParser, handler: CommandSurface.Invocation -> CommandError): (r: CommandSurface.Execution<PluginResult>)
    ensures r.result == STOP
    ensures r.invoked.None? ==> r.error == Code(INCORRECT_BOT_COMMAND_USAGE)
    ensures r.invoked.Some? ==> |r.invoked.value.args| > 0 && r.invoked.value.args[0] == CommandSurface.MessageArg(info) && r.error == HandlerError(handler(r.invoked.value))
    ensures var parsed := parseArgs(p.registry, parsedCommand.tag, parsedCommand.rawContent, p.defaultParser, p.defaultParserType);
      && (r.invoked.Some? <==> parsed.Some?)
      && (parsed.Some? ==> r.invoked == Some(CommandSurface.Invocation(parsed.value.0, CommandSurface.HandlerArgs(info, parsed.value.1))))
  {
    CommandSurface.TryExecuteCommand(p.registry, p.defaultParser, p.defaultParserType, info, parsedCommand,
                                     parseArgs, inv => HandlerError(handler(inv)), Code(INCORRECT_BOT_COMMAND_USAGE))
  }
}

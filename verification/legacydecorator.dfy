/**
 The older `PluginCommand` decorator, which builds its descriptor inline
 instead of calling the shared builder. Written out independently here and
 then shown to register exactly what the shared builder registers.
 */
module LegacyCommandDecorator {
  import opened Options
  import opened CommandApi
  import CommandUtils
  import CommandDecorator

  function PluginCommand(
    registry: Option<seq<CommandMetaData>>, description: string, args: Option<CommandUtils.CommandInfo>,
    key: string, params: seq<string>, descriptor: CommandDecorator.PropertyDescriptor): (r: CommandDecorator.Decorated)
    ensures r.descriptor == descriptor
    ensures |r.registry| == |registry.GetOr([])| + 1 && r.registry[..|registry.GetOr([])|] == registry.GetOr([])
    ensures var d := r.registry[|r.registry| - 1];
      && d.functionName == key && d.numParams == |params| && d.paramNames == params && d.usage == ""
      && d.commandName == (if args.Some? && args.value.name.Some? then args.value.name.value else key)
  {
    var commandRegistry := match registry case Some(list) => list case None => [];
    var commandName := key;
    var overrideDefaultParser := false;
    var paramParser := ParamParserSpaces;
    var paramParserType := SPACES;
    var (commandName, paramParser, paramParserType, overrideDefaultParser) :=
      if args.Some? then
        var info := args.value;
        var commandName := if info.name.Some? then info.name.value else commandName;
        if info.paramParser.Some? then
          (commandName, info.paramParser.value, CUSTOM, true)
        else if info.paramParserType.Some? then
          var chosen := match info.paramParserType.value
            case ALL => ParamParserAll
            case SPACES => ParamParserSpaces
            case CUSTOM => paramParser;
          (commandName, chosen, info.paramParserType.value, true)
        else
          (commandName, paramParser, paramParserType, overrideDefaultParser)
      else
        (commandName, paramParser, paramParserType, overrideDefaultParser);
    var temp := CommandMetaData(|params|, params, description, commandName, key,
                                overrideDefaultParser, paramParser, paramParserType, "");
    CommandDecorator.Decorated(commandRegistry + [temp], descriptor)
  }

  /**
   The older decorator and the shared builder agree on every input: same name
   rule, same parser precedence (supplied parser, then parser type, then the
   SPACES default), same arity, empty usage, appended at the end.
   */
  lemma AgreesWithSharedBuilder(
    registry: Option<seq<CommandMetaData>>, description: string, args: Option<CommandUtils.CommandInfo>,
    key: string, params: seq<string>, descriptor: CommandDecorator.PropertyDescriptor)
    ensures PluginCommand(registry, description, args, key, params, descriptor)
         == CommandDecorator.PluginCommand(registry, description, args, key, params, descriptor)
  {
  }
}

/**
 Construction of one command descriptor from a decorated handler, shared by
 the `PluginCommand` and `BotCommand` decorators.
 */
module CommandUtils {
  import opened Options
  import opened CommandApi

  /** The metadata key under which a class keeps its descriptor list. */
  const COMMAND_REGISTRY_KEY: string := "commandregistry"

  /** The options a command decorator accepts: `{ name?, paramParser?, paramParserType? }`. */
  datatype CommandInfo = CommandInfo(
    name: Option<string>,
    paramParser: Option<ParamParser>,
    paramParserType: Option<ParamParserType>)

  /** The built-in space parser: currently returns its arguments as given. */
  function ParamParserSpacesApply(args: seq<string>): (r: seq<string>)
    ensures |r| == |args| && forall i :: 0 <= i < |args| ==> r[i] == args[i]
  {
    args
  }

  /** The built-in whole-line parser: returns its arguments as given. */
  function ParamParserAllApply(args: seq<string>): (r: seq<string>)
    ensures |r| == |args| && forall i :: 0 <= i < |args| ==> r[i] == args[i]
  {
    args
  }

  /**
   The parser fields of a descriptor agree with each other: the SPACES and ALL
   types carry their built-in parser, and a supplied parser carries type CUSTOM.
   */
  predicate ParserFieldsAgree(d: CommandMetaData) {
    && (d.paramParserType == SPACES ==> d.paramParser == ParamParserSpaces)
    && (d.paramParserType == ALL ==> d.paramParser == ParamParserAll)
    && (d.paramParser.SuppliedParser? ==> d.paramParserType == CUSTOM)
  }

  /**
   The descriptor for handler `key` whose declared parameter names (the
   message-info parameter included) are `params`.
   */
  function NewCommandMetaData(description: string, key: string, params: seq<string>, args: Option<CommandInfo>): (d: CommandMetaData)
    ensures d.functionName == key && d.description == description
    ensures d.commandName == (if args.Some? && args.value.name.Some? then args.value.name.value else key)
    ensures d.paramNames == params && d.numParams == |params|
    ensures d.usage == ""
    // A supplied parser wins and any parser type is ignored.
    ensures args.Some? && args.value.paramParser.Some? ==>
      d.paramParser == args.value.paramParser.value && d.paramParserType == CUSTOM && d.overrideDefaultParser
    // Otherwise a parser type is stored as given; CUSTOM keeps the space parser.
    ensures args.Some? && args.value.paramParser.None? && args.value.paramParserType.Some? ==>
      && d.paramParserType == args.value.paramParserType.value
      && d.overrideDefaultParser
      && d.paramParser == (if d.paramParserType == ALL then ParamParserAll else ParamParserSpaces)
    // With neither, the SPACES default and no override.
    ensures args.None? || (args.value.paramParser.None? && args.value.paramParserType.None?) ==>
      d.paramParserType == SPACES && d.paramParser == ParamParserSpaces && !d.overrideDefaultParser
    ensures d.overrideDefaultParser <==> args.Some? && (args.value.paramParser.Some? || args.value.paramParserType.Some?)
  {
    var commandName := if args.Some? && args.value.name.Some? then args.value.name.value else key;
    var (parser, parserType, overrides) :=
      if args.None? then (ParamParserSpaces, SPACES, false)
      else if args.value.paramParser.Some? then (args.value.paramParser.value, CUSTOM, true)
      else if args.value.paramParserType.Some? then
        match args.value.paramParserType.value
        case ALL => (ParamParserAll, ALL, true)
        case SPACES => (ParamParserSpaces, SPACES, true)
        case CUSTOM => (ParamParserSpaces, CUSTOM, true)
      else (ParamParserSpaces, SPACES, false);
    CommandMetaData(|params|, params, description, commandName, key, overrides, parser, parserType, "")
  }

  /** Whenever no parser is supplied, or the one supplied is not a built-in, the parser fields agree. */
  lemma NewDescriptorParserFieldsAgree(description: string, key: string, params: seq<string>, args: Option<CommandInfo>)
    requires args.Some? && args.value.paramParser.Some? ==> args.value.paramParser.value.SuppliedParser?
    ensures ParserFieldsAgree(NewCommandMetaData(description, key, params, args))
  {
  }

  /**
   `RegisterCommandMetaData`: append the handler's descriptor to the class's
   descriptor list (an absent list counts as empty).
   */
  function RegisterCommandMetaData(
    registry: Option<seq<CommandMetaData>>, description: string, key: string,
    params: seq<string>, args: Option<CommandInfo>): (r: seq<CommandMetaData>)
    ensures |r| == |registry.GetOr([])| + 1
    ensures r[..|r| - 1] == registry.GetOr([])
    ensures r[|r| - 1] == NewCommandMetaData(description, key, params, args)
  {
    registry.GetOr([]) + [NewCommandMetaData(description, key, params, args)]
  }
}

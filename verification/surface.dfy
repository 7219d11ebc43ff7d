/**
 The execution envelope shared by the bot's command surface and every
 plugin's: parse the argument text against the registry, then call the
 handler with the message info followed by the parsed arguments.
 */
module CommandSurface {
  import opened Options
  import opened Discord
  import opened CommandApi
  import opened InputParser

  /** A value passed to a command handler. */
  datatype HandlerArg = MessageArg(info: MessageInfo) | TextArg(text: string)

  /** The handler call a dispatch makes: which method, with which arguments. */
  datatype Invocation = Invocation(functionName: string, args: seq<HandlerArg>)

  /**
   The argument parser the surfaces delegate to (`InputParserUtils.ParseCommandArgs`,
   whose body is not part of this model): registry, command name, raw argument
   text and the default parser give the chosen handler and its arguments, or
   nothing when no overload fits.
   */
  type ArgParser = (CommandRegistry, Command, string, ParamParser, ParamParserType) -> Option<(string, seq<string>)>

  /** The outcome of `TryExecuteCommand`: continue/stop, the error value, and the handler call made, if any. */
  datatype Execution<E> = Execution(result: ExecuteCommandResult, error: E, invoked: Option<Invocation>)

  /** `[messageInfo].concat(parsedArgs)`. */
  function HandlerArgs(info: MessageInfo, parsed: seq<string>): (r: seq<HandlerArg>)
    ensures |r| == |parsed| + 1
    ensures r[0] == MessageArg(info)
    ensures forall i :: 0 <= i < |parsed| ==> r[i + 1] == TextArg(parsed[i])
  {
    [MessageArg(info)] + seq(|parsed|, i requires 0 <= i < |parsed| => TextArg(parsed[i]))
  }

  /**
   `TryExecuteCommand`. The parser is asked about the parsed tag and raw
   content, exactly as the surfaces pass them. Dispatch always stops; a parse
   failure yields `usageError` and calls nothing; otherwise the handler's
   result is returned.
   */
  function TryExecuteCommand<E>(
    registry: CommandRegistry, defaultParser: ParamParser, defaultParserType: ParamParserType,
    info: MessageInfo, parsedCommand: ParsedCommandInfo,
    parseArgs: ArgParser, handler: Invocation -> E, usageError: E): (r: Execution<E>)
    ensures r.result == STOP
    ensures var parsed := parseArgs(registry, parsedCommand.tag, parsedCommand.rawContent, defaultParser, defaultParserType);
      && (parsed.None? <==> r.invoked.None?)
      && (parsed.None? ==> r.error == usageError)
      && (parsed.Some? ==> (
            && r.invoked.value.functionName == parsed.value.0
            && r.invoked.value.args == HandlerArgs(info, parsed.value.1)
            && r.error == handler(r.invoked.value)))
  {
    match parseArgs(registry, parsedCommand.tag, parsedCommand.rawContent, defaultParser, defaultParserType)
    case None => Execution(STOP, usageError, None)
    case Some((functionName, args)) =>
      var call := Invocation(functionName, HandlerArgs(info, args));
      Execution(STOP, handler(call), Some(call))
  }
}

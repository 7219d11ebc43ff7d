/**
 The shared vocabulary of the command layer: command descriptors, the
 registry that groups them by command name, and the result enumerations.
 */
module CommandApi {
  import opened Options
  import OrderedMap

  type Tag = string
  type TagAlias = string
  type Command = string

  /** How a command's raw argument text is split into arguments. */
  datatype ParamParserType = SPACES | ALL | CUSTOM

  /** Whether dispatch should try further command surfaces. */
  datatype ExecuteCommandResult = CONTINUE | STOP

  /** Result codes of command dispatch, in declaration order. */
  datatype CommandErrorCode =
    | SUCCESS
    | INCORRECT_BOT_COMMAND_USAGE
    | UNRECOGNIZED_BOT_COMMAND
    | INCORRECT_PLUGIN_COMMAND_USAGE
    | UNRECOGNIZED_PLUGIN_COMMAND
    | PLUGIN_DISABLED
    | NOT_A_COMMAND
    | INSUFFICIENT_BOT_PERMISSIONS
    | INSUFFICIENT_USER_PERMISSIONS
    | GUILD_ONLY_COMMAND

  /**
   The result envelope a handler returns, after its three factories:
   `CommandError.Success()`, `CommandError.New(code)` and `CommandError.Custom(text)`.
   */
  datatype CommandError = Success | New(code: CommandErrorCode) | Custom(message: string)

  /**
   A parameter parser. The two built-in parsers are told apart from a parser a
   command supplies itself, which is known only by an identity.
   */
  datatype ParamParser = ParamParserSpaces | ParamParserAll | SuppliedParser(id: nat)

  /** One declared command handler overload. */
  datatype CommandMetaData = CommandMetaData(
    numParams: nat,
    paramNames: seq<string>,
    description: string,
    commandName: Command,
    functionName: string,
    overrideDefaultParser: bool,
    paramParser: ParamParser,
    paramParserType: ParamParserType,
    usage: string)

  /** Command name to its overloads, in insertion order. */
  type CommandRegistry = OrderedMap.OrderedMap<Command, seq<CommandMetaData>>

  /** The numeric value of a `ParamParserType` member. */
  function ParserTypeValue(t: ParamParserType): (n: nat)
    ensures n < 3
  {
    match t
    case SPACES => 0
    case ALL => 1
    case CUSTOM => 2
  }

  function ParserTypeOfValue(n: int): Option<ParamParserType>
  {
    if n == 0 then Some(SPACES)
    else if n == 1 then Some(ALL)
    else if n == 2 then Some(CUSTOM)
    else None
  }

  /** `ParamParserType` is exactly the values 0, 1, 2, one member each. */
  lemma ParserTypeValues()
    ensures forall t :: ParserTypeOfValue(ParserTypeValue(t)) == Some(t)
    ensures forall n: int :: ParserTypeOfValue(n).Some? <==> 0 <= n < 3
    ensures forall n: int :: ParserTypeOfValue(n).Some? ==> ParserTypeValue(ParserTypeOfValue(n).value) == n
    ensures ParserTypeValue(SPACES) == 0 && ParserTypeValue(ALL) == 1 && ParserTypeValue(CUSTOM) == 2
  {
  }

  function ExecuteResultValue(r: ExecuteCommandResult): (n: nat)
    ensures n < 2
  {
    match r
    case CONTINUE => 0
    case STOP => 1
  }

  /** `ExecuteCommandResult` is exactly CONTINUE = 0 and STOP = 1. */
  lemma ExecuteResultValues()
    ensures ExecuteResultValue(CONTINUE) == 0 && ExecuteResultValue(STOP) == 1
    ensures forall a, b :: ExecuteResultValue(a) == ExecuteResultValue(b) ==> a == b
  {
  }

  /** The numeric value of a `CommandErrorCode` member (declaration order from 0). */
  function ErrorCodeValue(c: CommandErrorCode): (n: nat)
    ensures n < 10
    ensures n == 0 <==> c == SUCCESS
  {
    match c
    case SUCCESS => 0
    case INCORRECT_BOT_COMMAND_USAGE => 1
    case UNRECOGNIZED_BOT_COMMAND => 2
    case INCORRECT_PLUGIN_COMMAND_USAGE => 3
    case UNRECOGNIZED_PLUGIN_COMMAND => 4
    case PLUGIN_DISABLED => 5
    case NOT_A_COMMAND => 6
    case INSUFFICIENT_BOT_PERMISSIONS => 7
    case INSUFFICIENT_USER_PERMISSIONS => 8
    case GUILD_ONLY_COMMAND => 9
  }

  /** The codes in declaration order. */
  const AllErrorCodes: seq<CommandErrorCode> := [
    SUCCESS, INCORRECT_BOT_COMMAND_USAGE, UNRECOGNIZED_BOT_COMMAND,
    INCORRECT_PLUGIN_COMMAND_USAGE, UNRECOGNIZED_PLUGIN_COMMAND, PLUGIN_DISABLED,
    NOT_A_COMMAND, INSUFFICIENT_BOT_PERMISSIONS, INSUFFICIENT_USER_PERMISSIONS,
    GUILD_ONLY_COMMAND]

  /**
   SUCCESS is 0 and the nine failure codes follow with distinct values in
   declaration order; every code is listed once.
   */
  lemma ErrorCodeValues()
    ensures |AllErrorCodes| == 10
    ensures forall i :: 0 <= i < 10 ==> ErrorCodeValue(AllErrorCodes[i]) == i
    ensures forall c :: c in AllErrorCodes
    ensures forall a, b :: ErrorCodeValue(a) == ErrorCodeValue(b) ==> a == b
  {
    forall c ensures c in AllErrorCodes {
      assert AllErrorCodes[ErrorCodeValue(c)] == c;
    }
  }
}

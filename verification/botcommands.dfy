/**
 The bot's own command surface (tag `bot`, alias `b`) and the handlers whose
 logic is more than a forwarding call: joining and leaving voice channels,
 with the "voice starter" who owns the connection, and renaming the bot.
 */
module BotCommands {
  import opened Options
  import opened Text
  import opened Discord
  import opened CommandApi
  import opened InputParser
  import OrderedMap
  import CommandSurface

  datatype BotState = BotState(
    tag: Tag,
    tagAlias: TagAlias,
    registry: CommandRegistry,
    defaultParser: ParamParser,
    defaultParserType: ParamParserType,
    voiceStarter: Option<UserId>)

  /** What a handler leaves behind: the new state, the platform calls in order, the result. */
  datatype Outcome = Outcome(state: BotState, effects: seq<Effect>, error: CommandError)

  function IsCommand(b: BotState, command: Command): (r: bool)
    ensures r <==> exists i :: OrderedMap.HasKeyAt(b.registry, command, i)
  {
    OrderedMap.Has(b.registry, command)
  }

  function IsReadingMessages(b: BotState): (r: bool)
    ensures !r
  {
    false
  }

  /** `Initialize`: tag `bot`, alias `b`, SPACES by default, nobody owns a voice connection. */
  function Initialize(loadedRegistry: CommandRegistry): (b: BotState)
    ensures b.tag == "bot" && b.tagAlias == "b"
    ensures b.defaultParser == ParamParserSpaces && b.defaultParserType == SPACES
    ensures b.voiceStarter.None? && b.registry == loadedRegistry
  {
    BotState("bot", "b", loadedRegistry, ParamParserSpaces, SPACES, None)
  }

  /** The bot's `TryExecuteCommand`: STOP, with `New(INCORRECT_BOT_COMMAND_USAGE)` on a parse failure. */
  function TryExecuteCommand(
    b: BotState, info: MessageInfo, parsedCommand: ParsedCommandInfo,
    parseArgs: CommandSurface.ArgParser, handler: CommandSurface.Invocation -> CommandError): (r: CommandSurface.Execution<CommandError>)
    ensures r.result == STOP
    ensures var parsed := parseArgs(b.registry, parsedCommand.tag, parsedCommand.rawContent, b.defaultParser, b.defaultParserType);
      && (parsed.None? <==> r.invoked.None?)
      && (parsed.None? ==> r.error == New(INCORRECT_BOT_COMMAND_USAGE))
      && (parsed.Some? ==> r.invoked == Some(CommandSurface.Invocation(parsed.value.0, CommandSurface.HandlerArgs(info, parsed.value.1))))
      && (parsed.Some? ==> r.error == handler(r.invoked.value))
  {
    CommandSurface.TryExecuteCommand(b.registry, b.defaultParser, b.defaultParserType, info, parsedCommand,
                                     parseArgs, handler, New(INCORRECT_BOT_COMMAND_USAGE))
  }

  // ---------------------------------------------------------------------------
  // !hello, !changebotname
  // ---------------------------------------------------------------------------

  function Hello(b: BotState, info: MessageInfo): (r: Outcome)
    ensures r.state == b && r.error == Success
    ensures r.effects == [SendMessage(info.channel, "Hello <@" + info.author + ">")]
  {
    Outcome(b, [SendMessage(info.channel, "Hello <@" + info.author + ">")], Success)
  }

  /**
   `!changebotname <name>`: asks the platform to set the bot's nickname;
   `nicknameAccepted` is whether that call succeeded. A refusal maps to
   INSUFFICIENT_BOT_PERMISSIONS.
   */
  function ChangeBotName(b: BotState, info: MessageInfo, name: string, nicknameAccepted: bool): (r: Outcome)
    ensures r.state == b && r.effects == [SetNickname(name)]
    ensures r.error == Success <==> nicknameAccepted
    ensures !nicknameAccepted ==> r.error == New(INSUFFICIENT_BOT_PERMISSIONS)
  {
    Outcome(b, [SetNickname(name)], if nicknameAccepted then Success else New(INSUFFICIENT_BOT_PERMISSIONS))
  }

  // ---------------------------------------------------------------------------
  // !join, !join <channel>, !leave
  // ---------------------------------------------------------------------------

  const NotInVoiceText: string := "You are not currently in a voice channel."
  const AmbiguousChannelText: string := "There is more than one channel with this name. Please use the correct capitalization to join a specific one."
  const NotConnectedText: string := "I am not connected to any voice channel!"

  function NoSuchChannelText(channel: string): string {
    "There is no voice channel called `" + channel + "`."
  }

  /** `!join`: join the caller's own voice channel. */
  function JoinMe(b: BotState, info: MessageInfo): (r: Outcome)
    ensures info.member.None? ==> r == Outcome(b, [], New(GUILD_ONLY_COMMAND))
    ensures info.member.Some? ==> r.error == Success
    ensures info.member.Some? && info.member.value.voiceChannel.Some? ==>
      r.state == b.(voiceStarter := Some(info.author)) && r.effects == [JoinVoiceChannel(info.member.value.voiceChannel.value)]
    ensures info.member.Some? && info.member.value.voiceChannel.None? ==>
      r.state == b && r.effects == [SendMessage(info.channel, NotInVoiceText)]
  {
    match info.member
    case None => Outcome(b, [], New(GUILD_ONLY_COMMAND))
    case Some(member) =>
      match member.voiceChannel
      case Some(channel) => Outcome(b.(voiceStarter := Some(info.author)), [JoinVoiceChannel(channel)], Success)
      case None => Outcome(b, [SendMessage(info.channel, NotInVoiceText)], Success)
  }

  /** A voice channel whose name equals `requested` up to letter case. */
  predicate NameMatches(c: GuildChannel, requested: string) {
    c.kind == "voice" && Lower(c.name) == Lower(requested)
  }

  /** The matching voice channels, in collection order. */
  function Candidates(channels: seq<GuildChannel>, requested: string): (r: seq<GuildChannel>)
    ensures |r| <= |channels|
    ensures forall c :: c in r ==> c in channels && NameMatches(c, requested)
    ensures forall c :: c in channels && NameMatches(c, requested) ==> c in r
  {
    if |channels| == 0 then []
    else (if NameMatches(channels[0], requested) then [channels[0]] else []) + Candidates(channels[1..], requested)
  }

  /** Candidates are taken piecewise: the matches of a concatenation are the matches of each part, in order. */
  lemma {:induction false} CandidatesAppend(a: seq<GuildChannel>, b: seq<GuildChannel>, requested: string)
    ensures Candidates(a + b, requested) == Candidates(a, requested) + Candidates(b, requested)
    decreases |a|
  {
    if |a| > 0 {
      assert (a + b)[1..] == a[1..] + b;
      CandidatesAppend(a[1..], b, requested);
    } else {
      assert a + b == b;
    }
  }

  /** A single channel is a candidate exactly when its name matches. */
  lemma CandidatesOne(c: GuildChannel, requested: string)
    ensures Candidates([c], requested) == if NameMatches(c, requested) then [c] else []
  {
    assert [c][1..] == [];
  }

  /** `channels[i]` is the first channel named exactly `requested`. */
  predicate FirstNamedAt(channels: seq<GuildChannel>, requested: string, i: int) {
    && 0 <= i < |channels| && channels[i].name == requested
    && forall j :: 0 <= j < i ==> channels[j].name != requested
  }

  /** The first channel of `channels` whose name is exactly `requested`. */
  function FirstExactName(channels: seq<GuildChannel>, requested: string): (r: Option<GuildChannel>)
    ensures r.None? <==> forall i :: 0 <= i < |channels| ==> channels[i].name != requested
    ensures r.Some? ==> exists i :: FirstNamedAt(channels, requested, i) && channels[i] == r.value
  {
    if |channels| == 0 then None
    else if channels[0].name == requested then (assert FirstNamedAt(channels, requested, 0); Some(channels[0]))
    else
      var r := FirstExactName(channels[1..], requested);
      assert r.Some? ==> exists i :: FirstNamedAt(channels, requested, i) && channels[i] == r.value by {
        if r.Some? {
          var i :| FirstNamedAt(channels[1..], requested, i) && channels[1..][i] == r.value;
          assert FirstNamedAt(channels, requested, i + 1);
        }
      }
      r
  }

  /** How `!join <channel>` resolves the name. */
  datatype ChannelChoice = NoSuchChannel | Chosen(channel: GuildChannel) | AmbiguousName

  /**
   Case-insensitive match among voice channels; a single match is taken as
   is; among several, the first with exactly the requested capitalisation.
   */
  function SelectVoiceChannel(channels: seq<GuildChannel>, requested: string): ChannelChoice
  {
    var matches := Candidates(channels, requested);
    if |matches| == 0 then NoSuchChannel
    else if |matches| == 1 then Chosen(matches[0])
    else match FirstExactName(matches, requested)
      case Some(c) => Chosen(c)
      case None => AmbiguousName
  }

  /** The first voice channel of the collection whose name is exactly `requested`. */
  function FirstExactVoice(channels: seq<GuildChannel>, requested: string): Option<GuildChannel>
  {
    if |channels| == 0 then None
    else if channels[0].kind == "voice" && channels[0].name == requested then Some(channels[0])
    else FirstExactVoice(channels[1..], requested)
  }

  /** Among the case-insensitive matches, the first exact one is the first exact voice channel overall. */
  lemma {:induction false} ExactAmongCandidates(channels: seq<GuildChannel>, requested: string)
    ensures FirstExactName(Candidates(channels, requested), requested) == FirstExactVoice(channels, requested)
  {
    if |channels| > 0 {
      ExactAmongCandidates(channels[1..], requested);
      var c := channels[0];
      if NameMatches(c, requested) {
        assert Candidates(channels, requested) == [c] + Candidates(channels[1..], requested);
        assert ([c] + Candidates(channels[1..], requested))[1..] == Candidates(channels[1..], requested);
      } else {
        assert Candidates(channels, requested) == Candidates(channels[1..], requested);
        assert !(c.kind == "voice" && c.name == requested);
      }
    }
  }

  /**
   The name resolution of `!join <channel>`, stated against the channel
   collection: nothing is chosen exactly when no voice channel matches up to
   case; a chosen channel always matches; with several matches the choice is
   the first voice channel with the exact name, and the request is ambiguous
   exactly when there is none.
   */
  lemma SelectVoiceChannelSpec(channels: seq<GuildChannel>, requested: string)
    ensures SelectVoiceChannel(channels, requested).NoSuchChannel? <==>
      forall c :: c in channels ==> !NameMatches(c, requested)
    ensures SelectVoiceChannel(channels, requested).Chosen? ==>
      SelectVoiceChannel(channels, requested).channel in channels && NameMatches(SelectVoiceChannel(channels, requested).channel, requested)
    ensures |Candidates(channels, requested)| >= 2 ==>
      SelectVoiceChannel(channels, requested) == (match FirstExactVoice(channels, requested)
        case Some(c) => Chosen(c)
        case None => AmbiguousName)
    ensures SelectVoiceChannel(channels, requested).AmbiguousName? ==>
      |Candidates(channels, requested)| >= 2 && FirstExactVoice(channels, requested).None?
  {
    var matches := Candidates(channels, requested);
    if |matches| > 0 {
      assert matches[0] in matches;
    }
    ExactAmongCandidates(channels, requested);
    var r := FirstExactName(matches, requested);
    if r.Some? {
      assert r.value in matches;
    }
  }

  /** `!join <channel>`: join a voice channel of the guild by name. */
  function JoinChannel(b: BotState, info: MessageInfo, channel: string): (r: Outcome)
    ensures info.member.None? ==> r == Outcome(b, [], New(GUILD_ONLY_COMMAND))
    ensures info.member.Some? ==> r.error == Success
    ensures info.member.Some? ==> match SelectVoiceChannel(info.guildChannels, channel)
      case NoSuchChannel => r.state == b && r.effects == [SendMessage(info.channel, NoSuchChannelText(channel))]
      case Chosen(c) => r.state == b.(voiceStarter := Some(info.author)) && r.effects == [JoinVoiceChannel(c.id)]
      case AmbiguousName => r.state == b && r.effects == [SendMessage(info.channel, AmbiguousChannelText)]
  {
    if info.member.None? then Outcome(b, [], New(GUILD_ONLY_COMMAND))
    else match SelectVoiceChannel(info.guildChannels, channel)
      case NoSuchChannel => Outcome(b, [SendMessage(info.channel, NoSuchChannelText(channel))], Success)
      case Chosen(c) => Outcome(b.(voiceStarter := Some(info.author)), [JoinVoiceChannel(c.id)], Success)
      case AmbiguousName => Outcome(b, [SendMessage(info.channel, AmbiguousChannelText)], Success)
  }

  /** `!leave`: only the voice starter may make the bot leave. */
  function Leave(b: BotState, info: MessageInfo): (r: Outcome)
    ensures b.voiceStarter.None? ==> r == Outcome(b, [SendMessage(info.channel, NotConnectedText)], Success)
    ensures b.voiceStarter == Some(info.author) ==> r == Outcome(b.(voiceStarter := None), [LeaveVoiceChannel], Success)
    ensures b.voiceStarter.Some? && b.voiceStarter != Some(info.author) ==>
      r == Outcome(b, [], New(INSUFFICIENT_USER_PERMISSIONS))
  {
    if b.voiceStarter.None? then Outcome(b, [SendMessage(info.channel, NotConnectedText)], Success)
    else if info.author == b.voiceStarter.value then Outcome(b.(voiceStarter := None), [LeaveVoiceChannel], Success)
    else Outcome(b, [], New(INSUFFICIENT_USER_PERMISSIONS))
  }

  /**
   Ownership across join and leave: the voice starter only ever becomes the
   author of a join that actually joined, and only the starter can clear it.
   */
  lemma VoiceStarterOwnership(b: BotState, info: MessageInfo, channel: string)
    ensures JoinMe(b, info).state.voiceStarter != b.voiceStarter ==>
      JoinMe(b, info).state.voiceStarter == Some(info.author) && JoinMe(b, info).effects[0].JoinVoiceChannel?
    ensures JoinChannel(b, info, channel).state.voiceStarter != b.voiceStarter ==>
      JoinChannel(b, info, channel).state.voiceStarter == Some(info.author) && JoinChannel(b, info, channel).effects[0].JoinVoiceChannel?
    ensures Leave(b, info).state.voiceStarter != b.voiceStarter ==>
      b.voiceStarter == Some(info.author) && Leave(b, info).state.voiceStarter.None?
  {
  }

  /** The user who brought the bot in can take it out; anyone else is refused and changes nothing. */
  lemma JoinThenLeave(b: BotState, joiner: MessageInfo, leaver: MessageInfo)
    requires joiner.member.Some? && joiner.member.value.voiceChannel.Some?
    ensures var joined := JoinMe(b, joiner).state;
      && (leaver.author == joiner.author ==> Leave(joined, leaver).state.voiceStarter.None?)
      && (leaver.author != joiner.author ==>
            Leave(joined, leaver) == Outcome(joined, [], New(INSUFFICIENT_USER_PERMISSIONS)))
  {
  }
}

/**
 The music plugin (tag `music`, alias `m`). The voice queue belongs to the
 bot; the plugin only reads four flags of it and issues queue operations,
 which appear here as effects. The plugin's own state is whether the queue was
 stopped on purpose, and the channel of the last song that started.
 */
module MusicPlugin {
  import opened Options
  import opened Discord
  import opened CommandApi
  import Plugin

  /** What the plugin can observe of the bot's voice queue. */
  datatype VoiceQueue = VoiceQueue(playing: bool, paused: bool, hasRequest: bool, inVoice: bool)

  datatype MusicState = MusicState(plugin: Plugin.PluginState, wasStopped: bool, lastUsedChannel: Option<ChannelId>)

  /** What a handler leaves behind: the new state, the platform calls in order, the result. */
  datatype Outcome = Outcome(state: MusicState, effects: seq<Effect>, error: CommandError)

  /** Stand-in for the channel reference before any song has started (JavaScript `undefined`). */
  const UnsetChannel: ChannelId := ""

  const QueueFinishedText: string := "**Song queue finished**"
  const AlreadyPlayingText: string := "There is already a song queue playing."
  const EmptyQueueText: string := "There aren't any songs in the queue."
  const NotInVoiceText: string := "The bot needs to be in a voice channel to play the song queue."
  const PlayingQueueText: string := "**Playing song queue** :notes:"
  const NothingQueuedText: string := "There is no song queue playing."
  const StoppingText: string := "**Stopping song queue** :octagonal_sign:"
  const NothingPlayingText: string := "There is no song currently playing."
  const AlreadyPausedText: string := "The current song is already paused."
  const PausingText: string := "**Pausing** :pause_button:"
  const NotPausedText: string := "The current song isn't paused."
  const ResumingText: string := "**Resuming** :arrow_forward:"
  const SkippingText: string := "**Skipping** :next_track:"
  const VideoUrlPrefix: string := "https://www.youtube.com/watch?v="

  function QueuedText(link: string): string { "**Queued** :soon: `" + link + "`" }
  function NowPlayingText(url: string): string { "**Playing :notes:** `" + url + "`" }

  /** `InitPlugin`, run after the base plugin's `Initialize`. */
  function InitPlugin(p: Plugin.PluginState, lastUsedChannel: Option<ChannelId>): (s: MusicState)
    ensures s.plugin == p.(tag := "music", tagAlias := "m")
    ensures !s.wasStopped && s.lastUsedChannel == lastUsedChannel
  {
    MusicState(p.(tag := "music", tagAlias := "m"), false, lastUsedChannel)
  }

  /** The whole start-up of the plugin: base reset, then `InitPlugin`. */
  function Initialize(loadedRegistry: CommandRegistry): (s: MusicState)
    ensures s.plugin.tag == "music" && s.plugin.tagAlias == "m"
    ensures s.plugin.defaultParser == ParamParserSpaces && s.plugin.defaultParserType == SPACES
    ensures s.plugin.registry == loadedRegistry
    ensures !s.wasStopped && s.lastUsedChannel.None?
  {
    InitPlugin(Plugin.Initialize(loadedRegistry), None)
  }

  /** A song started: remember its channel and announce it there. */
  function OnVoiceRequestStarted(s: MusicState, request: VoiceRequest): (r: (MusicState, seq<Effect>))
    ensures r.0 == s.(lastUsedChannel := Some(request.requestedChannel))
    ensures r.1 == [SendMessage(request.requestedChannel, NowPlayingText(request.url))]
  {
    (s.(lastUsedChannel := Some(request.requestedChannel)),
     [SendMessage(request.requestedChannel, NowPlayingText(request.url))])
  }

  /** The queue ran out: announce it unless it was stopped on purpose; either way forget the stop. */
  function OnVoiceRequestQueueFinished(s: MusicState): (r: (MusicState, seq<Effect>))
    ensures r.0 == s.(wasStopped := false)
    ensures |r.1| <= 1
    ensures |r.1| == 1 <==> !s.wasStopped
    ensures !s.wasStopped ==> r.1 == [SendMessage(s.lastUsedChannel.GetOr(UnsetChannel), QueueFinishedText)]
  {
    (s.(wasStopped := false),
     if !s.wasStopped then [SendMessage(s.lastUsedChannel.GetOr(UnsetChannel), QueueFinishedText)] else [])
  }

  /** `!music play`: start the queue when it is idle, non-empty and the bot is in voice. */
  function Play(s: MusicState, q: VoiceQueue, info: MessageInfo): (r: Outcome)
    ensures r.state == s
    ensures r.error == Success <==> !q.playing && q.hasRequest && q.inVoice
    ensures q.playing ==> r.error == Custom(AlreadyPlayingText)
    ensures !q.playing && !q.hasRequest ==> r.error == Custom(EmptyQueueText)
    ensures !q.playing && q.hasRequest && !q.inVoice ==> r.error == Custom(NotInVoiceText)
    ensures r.error != Success ==> r.effects == []
    ensures r.error == Success ==> r.effects == [SendMessage(info.channel, PlayingQueueText), PlayVoiceRequests]
  {
    if q.playing then Outcome(s, [], Custom(AlreadyPlayingText))
    else if !q.hasRequest then Outcome(s, [], Custom(EmptyQueueText))
    else if !q.inVoice then Outcome(s, [], Custom(NotInVoiceText))
    else Outcome(s, [SendMessage(info.channel, PlayingQueueText), PlayVoiceRequests], Success)
  }

  /**
   `!music play <link>`. `validUrl` and `validId` are the video-site checks of
   the downloader library. A bare id becomes a watch URL; anything else fails.
   The request starts playing when the bot is in voice, and "Queued" is
   announced exactly when it does not start at once.
   */
  function PlaySong(s: MusicState, q: VoiceQueue, info: MessageInfo, link: string,
                    validUrl: string -> bool, validId: string -> bool): (r: Outcome)
    ensures r.state == s
    ensures r.error == Success <==> validUrl(link) || validId(link)
    ensures r.error != Success ==> r.error == New(INCORRECT_PLUGIN_COMMAND_USAGE) && r.effects == []
    ensures r.error == Success ==>
      var url := if validUrl(link) then link else VideoUrlPrefix + link;
      && 1 <= |r.effects| <= 2
      && r.effects[0] == AddVoiceRequest(VoiceRequest(info.author, info.channel, url, q.inVoice))
      && (|r.effects| == 2 <==> !q.inVoice || q.playing)
      && (|r.effects| == 2 ==> r.effects[1] == SendMessage(info.channel, QueuedText(url)))
  {
    if !validUrl(link) && !validId(link) then Outcome(s, [], New(INCORRECT_PLUGIN_COMMAND_USAGE))
    else
      var url := if validUrl(link) then link else VideoUrlPrefix + link;
      var request := VoiceRequest(info.author, info.channel, url, q.inVoice);
      var notice := if !q.inVoice || q.playing then [SendMessage(info.channel, QueuedText(url))] else [];
      Outcome(s, [AddVoiceRequest(request)] + notice, Success)
  }

  /** `!music stop`: clear the queue and remember that it was stopped on purpose. */
  function Stop(s: MusicState, q: VoiceQueue, info: MessageInfo): (r: Outcome)
    ensures r.error == Success <==> q.playing || q.hasRequest
    ensures r.error != Success ==> r == Outcome(s, [], Custom(NothingQueuedText))
    ensures r.error == Success ==> r.state == s.(wasStopped := true)
    ensures r.error == Success ==> r.effects == [SendMessage(info.channel, StoppingText), StopAndClearVoiceRequests]
  {
    if !q.playing && !q.hasRequest then Outcome(s, [], Custom(NothingQueuedText))
    else Outcome(s.(wasStopped := true), [SendMessage(info.channel, StoppingText), StopAndClearVoiceRequests], Success)
  }

  /** `!music pause`: only a playing, unpaused song can be paused. */
  function Pause(s: MusicState, q: VoiceQueue, info: MessageInfo): (r: Outcome)
    ensures r.state == s
    ensures r.error == Success <==> q.playing && !q.paused
    ensures !q.playing ==> r.error == Custom(NothingPlayingText)
    ensures q.playing && q.paused ==> r.error == Custom(AlreadyPausedText)
    ensures r.error != Success ==> r.effects == []
    ensures r.error == Success ==> r.effects == [SendMessage(info.channel, PausingText), PauseCurrentVoiceRequest]
  {
    if !q.playing then Outcome(s, [], Custom(NothingPlayingText))
    else if q.paused then Outcome(s, [], Custom(AlreadyPausedText))
    else Outcome(s, [SendMessage(info.channel, PausingText), PauseCurrentVoiceRequest], Success)
  }

  /** `!music resume`: only a playing, paused song can be resumed. */
  function Resume(s: MusicState, q: VoiceQueue, info: MessageInfo): (r: Outcome)
    ensures r.state == s
    ensures r.error == Success <==> q.playing && q.paused
    ensures !q.playing ==> r.error == Custom(NothingPlayingText)
    ensures q.playing && !q.paused ==> r.error == Custom(NotPausedText)
    ensures r.error != Success ==> r.effects == []
    ensures r.error == Success ==> r.effects == [SendMessage(info.channel, ResumingText), ResumeCurrentVoiceRequest]
  {
    if !q.playing then Outcome(s, [], Custom(NothingPlayingText))
    else if !q.paused then Outcome(s, [], Custom(NotPausedText))
    else Outcome(s, [SendMessage(info.channel, ResumingText), ResumeCurrentVoiceRequest], Success)
  }

  /** `!music skip`: only a playing song can be skipped. */
  function Skip(s: MusicState, q: VoiceQueue, info: MessageInfo): (r: Outcome)
    ensures r.state == s
    ensures r.error == Success <==> q.playing
    ensures r.error != Success ==> r.error == Custom(NothingPlayingText) && r.effects == []
    ensures r.error == Success ==> r.effects == [SendMessage(info.channel, SkippingText), RemoveCurrentVoiceRequest]
  {
    if !q.playing then Outcome(s, [], Custom(NothingPlayingText))
    else Outcome(s, [SendMessage(info.channel, SkippingText), RemoveCurrentVoiceRequest], Success)
  }

  /** Pause and resume can never both succeed in the same queue state. */
  lemma PauseResumeExclusive(s: MusicState, q: VoiceQueue, info: MessageInfo)
    ensures !(Pause(s, q, info).error == Success && Resume(s, q, info).error == Success)
  {
  }

  /**
   Pause then resume: once the queue has carried out an accepted pause, a
   resume is accepted, and once it has carried out an accepted resume, a
   pause is accepted again; the request that was refused before stays refused.
   */
  lemma PauseThenResume(s: MusicState, q: VoiceQueue, info: MessageInfo)
    ensures Pause(s, q, info).error == Success ==>
      && Resume(s, q.(paused := true), info).error == Success
      && Pause(s, q.(paused := true), info).error == Custom(AlreadyPausedText)
    ensures Resume(s, q, info).error == Success ==>
      && Pause(s, q.(paused := false), info).error == Success
      && Resume(s, q.(paused := false), info).error == Custom(NotPausedText)
  {
  }

  /**
   A deliberate stop silences exactly the next "queue finished" notice: the
   one after it is announced again.
   */
  lemma StopSilencesNextQueueFinished(s: MusicState, q: VoiceQueue, info: MessageInfo)
    requires q.playing || q.hasRequest
    ensures var stopped := Stop(s, q, info).state;
      var (afterFirst, firstNotice) := OnVoiceRequestQueueFinished(stopped);
      && firstNotice == []
      && !afterFirst.wasStopped
      && OnVoiceRequestQueueFinished(afterFirst).1 == [SendMessage(s.lastUsedChannel.GetOr(UnsetChannel), QueueFinishedText)]
  {
  }
}

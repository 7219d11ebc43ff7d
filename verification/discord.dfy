/**
 The part of the chat platform the command layer touches, as plain data. Every
 call the handlers make into the platform (sending a message, joining a voice
 channel, queueing a song, ...) is an `Effect` that a handler returns in order
 instead of performing.
 */
module Discord {
  import opened Options

  /** A user's snowflake. Users compare by identity, as the platform caches one object per user. */
  type UserId = string
  type ChannelId = string

  /** A guild channel; `kind` is the platform's `type` string (`"voice"`, `"text"`, ...). */
  datatype GuildChannel = GuildChannel(id: ChannelId, name: string, kind: string)

  /** The guild member behind a message, and the voice channel they sit in, if any. */
  datatype GuildMember = GuildMember(user: UserId, voiceChannel: Option<ChannelId>)

  /**
   The message wrapper handed to every command handler. `member` is absent for
   direct messages; `guildChannels` is the guild's channel collection in its
   iteration order.
   */
  datatype MessageInfo = MessageInfo(
    channel: ChannelId,
    author: UserId,
    member: Option<GuildMember>,
    guildChannels: seq<GuildChannel>,
    rawContent: string,
    cleanContent: string)

  /** One song request in the voice queue. */
  datatype VoiceRequest = VoiceRequest(requester: UserId, requestedChannel: ChannelId, url: string, startPlaying: bool)

  /** A call into the platform or into the voice queue. */
  datatype Effect =
    | SendMessage(channel: ChannelId, text: string)
    | JoinVoiceChannel(voiceChannel: ChannelId)
    | LeaveVoiceChannel
    | SetNickname(nickname: string)
    | AddVoiceRequest(request: VoiceRequest)
    | PlayVoiceRequests
    | StopAndClearVoiceRequests
    | PauseCurrentVoiceRequest
    | ResumeCurrentVoiceRequest
    | RemoveCurrentVoiceRequest
}

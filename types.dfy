/** Values the bot receives from the chat gateway and the voice backend, the
    outcomes of the external calls it makes, and the effects it has on the
    world. External calls (attachment download, scratch-file write, audio
    decoding, voice join) are not executed by the model: their outcomes are
    inputs, and what the bot does is recorded as a sequence of Effects. */
module Types {

  datatype Option<+T> = None | Some(value: T)

  datatype Result<+T, +E> = Ok(value: T) | Err(error: E)

  /** Discord snowflakes (u64 in the source); no arithmetic is done on them. */
  type GuildId = nat
  type ChannelId = nat

  type Bytes = seq<bv8>

  datatype User = User(bot: bool)

  datatype Member = Member(user: User)

  /** A member's voice state: the channel it is connected to (absent when it is
      in no channel) and, when the gateway sends it, the member itself. */
  datatype VoiceState = VoiceState(channelId: Option<ChannelId>, member: Option<Member>)

  datatype Attachment = Attachment(filename: string)

  /** An inbound message; `guildId` is absent for a direct message. */
  datatype Message = Message(guildId: Option<GuildId>, attachments: seq<Attachment>)

  /** A decoded sound cached in memory (songbird's `Memory`), kept abstract. */
  datatype Sound = Sound(id: nat)

  /** The two fallible steps of decoding: running ffmpeg on the scratch file,
      and caching its output in memory. */
  datatype AudioError = FfmpegFailed | CachingFailed

  /** Outcome of downloading an attachment. */
  datatype Download = Downloaded(content: Bytes) | DownloadFailed

  /** Outcome of `File::create` followed by `write_all` on the scratch path. */
  datatype FileOutcome = Written | WriteFailed | CreateFailed

  /** Outcome of decoding the scratch file of a given name into a cached sound. */
  datatype Decode = Decoded(sound: Sound) | DecodeFailed(error: AudioError)

  /** Outcome of the voice manager's `join(guild, channel)`. */
  datatype JoinResult = JoinOk | JoinErr

  /** The context a voice event handler is called with: a track event, or one
      of the backend's core events (connect, disconnect, speaking, ...). */
  datatype EventContext = Track | Core

  /** The track-end handler of the source: it holds the voice call of one guild. */
  datatype Disconnect = Disconnect(call: GuildId)

  /** Observable effects, in the order the bot causes them. */
  datatype Effect =
    | Reply(text: string)                        // a reply to the command message
    | WriteScratch(name: string, content: Bytes) // a write of the bytes to a temporary file, attempted
    | Join(guild: GuildId, channel: ChannelId)   // voice manager join call
    | PlayOnlySource(guild: GuildId, sound: Sound) // a fresh handle of `sound` played as the call's only source
    | AddTrackEnd(guild: GuildId)                // a Disconnect registered for the End of that track
    | Leave(guild: GuildId)                      // leave call on the guild's voice call
}

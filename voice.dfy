/** The voice side of the bot: when a member enters a voice channel of a
    guild that has a sound, join that channel, play the sound as the only
    source, and arrange to leave when the track ends. */
module Voice {
  import opened Types
  import opened Registry
  import opened Trigger

  /** What one voice-state update does: its effects, and the Disconnect
      handler it leaves waiting for the end of the track it started. */
  datatype Session = Session(effects: seq<Effect>, handler: Option<Disconnect>)

  /** `voice_state_update`. Bots and events without a guild are ignored; a
      join is attempted only for a member entering a channel of a guild with
      a registered sound, and targets exactly that guild and channel; a failed
      join ends there; a successful one plays the sound once and registers the
      guild's Disconnect for the end of that track. */
  function VoiceStateUpdate(store: SoundStore, gid: Option<GuildId>, before: Option<VoiceState>,
                            after: VoiceState, join: JoinResult): (s: Session)
    ensures s.effects != [] <==>
              !IsBot(after) && gid.Some? && JoinedChannel(before, after).Some? && gid.value in store
    ensures s.effects != [] ==> s.effects[0] == Join(gid.value, JoinedChannel(before, after).value)
    ensures s.handler.Some? <==> s.effects != [] && join.JoinOk?
    ensures s.handler.None? ==> |s.effects| <= 1
    ensures s.handler.Some? ==>
              s.handler == Some(Disconnect(gid.value)) &&
              s.effects[1..] == [PlayOnlySource(gid.value, store[gid.value]), AddTrackEnd(gid.value)]
  {
    if IsBot(after) then Session([], None)
    else match gid
      case None => Session([], None)
      case Some(g) =>
        match JoinedChannel(before, after)
        case None => Session([], None)
        case Some(c) =>
          match Lookup(store, g)
          case None => Session([], None)
          case Some(sound) =>
            if join.JoinErr? then Session([Join(g, c)], None)
            else Session([Join(g, c), PlayOnlySource(g, sound), AddTrackEnd(g)], Some(Disconnect(g)))
  }

  /** For a bot, or an event without a guild, the store is not consulted:
      the outcome is the same whatever sounds are registered. */
  lemma IgnoredUpdatesDoNotReadStore(s1: SoundStore, s2: SoundStore, gid: Option<GuildId>,
                                     before: Option<VoiceState>, after: VoiceState, join: JoinResult)
    requires IsBot(after) || gid.None?
    ensures VoiceStateUpdate(s1, gid, before, after, join) == VoiceStateUpdate(s2, gid, before, after, join)
    ensures VoiceStateUpdate(s1, gid, before, after, join) == Session([], None)
  {
  }

  /** Without a registered sound for the guild there is no join call. */
  lemma NoSoundNoJoin(store: SoundStore, g: GuildId, before: Option<VoiceState>,
                      after: VoiceState, join: JoinResult)
    requires g !in store
    ensures VoiceStateUpdate(store, Some(g), before, after, join) == Session([], None)
  {
  }

  /** A non-bot member entering channel `c` of guild `g`, which has a sound:
      the bot joins exactly (g, c); if that succeeds it plays the guild's
      sound once, as the only source, and registers one Disconnect. */
  lemma EntryStartsSession(store: SoundStore, g: GuildId, before: Option<VoiceState>,
                           after: VoiceState, join: JoinResult, c: ChannelId)
    requires !IsBot(after) && JoinedChannel(before, after) == Some(c) && g in store
    ensures join.JoinOk? ==>
              VoiceStateUpdate(store, Some(g), before, after, join)
              == Session([Join(g, c), PlayOnlySource(g, store[g]), AddTrackEnd(g)], Some(Disconnect(g)))
    ensures join.JoinErr? ==>
              VoiceStateUpdate(store, Some(g), before, after, join) == Session([Join(g, c)], None)
  {
  }

  /** `Disconnect::act`: on a track event, leave the call it holds; any other
      context does nothing. A leave error is only logged. */
  function Act(d: Disconnect, ctx: EventContext): (effects: seq<Effect>)
    ensures ctx.Track? ==> effects == [Leave(d.call)]
    ensures ctx.Core? ==> effects == []
  {
    match ctx
    case Track => [Leave(d.call)]
    case Core => []
  }
}

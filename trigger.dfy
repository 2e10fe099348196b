/** The join-trigger detector: pure decisions over a member's voice state
    before and after a change. */
module Trigger {
  import opened Types

  /** `is_bot`: a state whose member is absent counts as not a bot. */
  function IsBot(vs: VoiceState): (b: bool)
    ensures b ==> vs.member.Some? && vs.member.value.user.bot
    ensures vs.member.Some? && vs.member.value.user.bot ==> b
  {
    match vs.member
    case Some(m) => m.user.bot
    case None => false
  }

  /** The channel the member was in before the change; a missing old state
      means "in no channel". */
  function OldChannel(before: Option<VoiceState>): (c: Option<ChannelId>)
    ensures before.None? ==> c.None?
    ensures before.Some? ==> c == before.value.channelId
  {
    match before
    case Some(vs) => vs.channelId
    case None => None
  }

  /** `joined_channel`: the channel the member has just entered, if any. */
  function JoinedChannel(before: Option<VoiceState>, after: VoiceState): (r: Option<ChannelId>)
    ensures r.Some? <==> after.channelId.Some? && after.channelId != OldChannel(before)
    ensures r.Some? ==> r == after.channelId
  {
    if OldChannel(before) != after.channelId then after.channelId else None
  }

  /** A member enters channel `c` when it is in `c` afterwards and was not in
      `c` before. */
  ghost predicate Enters(before: Option<VoiceState>, after: VoiceState, c: ChannelId) {
    after.channelId == Some(c) && OldChannel(before) != Some(c)
  }

  /** JoinedChannel names exactly the channel the member enters. */
  lemma JoinedChannelIsEntry(before: Option<VoiceState>, after: VoiceState, c: ChannelId)
    ensures JoinedChannel(before, after) == Some(c) <==> Enters(before, after, c)
  {
  }

  /** No channel is reported when the channel did not change (both absent
      included, as in a mute or deafen toggle), or when the member left. */
  lemma NoEntryWithoutChannelChange(before: Option<VoiceState>, after: VoiceState)
    requires after.channelId == OldChannel(before) || after.channelId.None?
    ensures JoinedChannel(before, after).None?
  {
  }

  /** A first connection (no old state, or an old state with no channel)
      reports the new channel. */
  lemma FirstConnectReportsChannel(before: Option<VoiceState>, after: VoiceState, c: ChannelId)
    requires OldChannel(before).None? && after.channelId == Some(c)
    ensures JoinedChannel(before, after) == Some(c)
  {
  }
}

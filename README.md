# discord-bot, modelled in Dafny

A Discord bot that greets members entering a voice channel with a sound.
A member registers a sound for their guild with the `set` command, by
attaching an audio file. The bot downloads the file, writes it to a scratch
file named after the guild id and the attachment's file name, decodes it
with ffmpeg, caches it in memory and stores it in a per-guild sound store.
When a non-bot member then enters a voice channel of a guild that has a
sound, the bot joins that channel and plays the sound as the call's only
source. It registers a `Disconnect` handler on the track's end event, and
that handler makes the bot leave the call.

All of this lives in `src/main.rs`. The model has these modules:

- `Types`: the entities (ids, voice states, messages, attachments, sounds) and
  the outcomes of the external calls. The download, the scratch-file create,
  ffmpeg decoding and the voice join each become an input to the model. The
  bot's visible effects (replies, scratch writes, joins, plays, handler
  registrations, leaves) are recorded as `Effect` values.
- `Trigger`: `is_bot` and `joined_channel`.
- `Scratch`: the scratch-file name, the guild id in decimal followed by the
  file name.
- `Registry`: the sound store, a map from guild to sound (`get`, `insert`).
- `Commands`: `set`, `save_audio` and `track_from` as functions from the store
  and the external outcomes to the new store, the effects in order and the
  result.
- `Voice`: `Handler::voice_state_update` and `Disconnect::act` as functions.
- `Trace`: the whole bot as a state machine over events. The events are a
  `set` command, a voice-state update and the end of a watched track. It
  proves two invariants of every reachable state:
  - every registered Disconnect has either left its call or is still waiting
    for its track;
  - every play directly follows a join of the same guild, and every
    end-of-track registration directly follows that play.
- `Bot`: the running bot as a class. Its fields are the sound store, the
  Disconnect handlers still waiting, and the effect log. Each handler method
  is proved to perform exactly the state machine's step and to keep its
  invariants. `Dispatch` delivers one event, and `Serve` delivers a sequence
  of events and ends in the state `Trace.Run` reaches. A few closed scenarios
  call the handlers one after another.

Two behaviours of `src/main.rs` worth stating plainly:

- A failed download is only logged (src/main.rs:128-131). `save_audio` then
  returns `Ok`, so the member still gets the "Blz" reply. See
  `Commands.SetConfirmsFailedDownload`.
- A failure to create or write the scratch file is only logged
  (src/main.rs:140-147) and is never returned. The result of `track_from` is
  whatever ffmpeg makes of the scratch path. See
  `Commands.FileErrorsAreSwallowed`.

The scratch name is not unique across guilds. Guild 1 with "23.ogg" and
guild 12 with "3.ogg" share a name, so concurrent uploads could overwrite
each other's file. Within one guild the name determines the file name, and
when the file name does not start with a digit it also determines the guild.

## Model

| member | source | states |
|---|---|---|
| Trigger.IsBot | src/main.rs:220-226 | an update counts as a bot's exactly when it carries a member whose user is a bot; no member means not a bot |
| Trigger.JoinedChannel | src/main.rs:228-234 | a channel is reported exactly when the new state has a channel that differs from the old state's (absent if there is no old state), and it is the new channel |
| Trigger.JoinedChannelIsEntry | src/main.rs:228-234 | `joined_channel` reports `c` if and only if the member is now in `c` and was not in `c` before |
| Trigger.NoEntryWithoutChannelChange | src/main.rs:229-233 | leaving voice, or an update that keeps the channel (mute, deafen), reports no channel |
| Trigger.FirstConnectReportsChannel | src/main.rs:228-234 | a member with no previous channel who is now in `c` is reported as entering `c` |
| Scratch.Decimal | src/main.rs:138 | the guild id's text is a non-empty run of decimal digits without a leading zero |
| Scratch.DecimalRoundTrip | src/main.rs:138 | reading the guild id's text back as a decimal number gives the id |
| Scratch.ScratchName | src/main.rs:138 | the scratch name is the guild id's decimal text followed by the attachment's file name |
| Scratch.ScratchNameNamesGuild | src/main.rs:138 | for a file name not starting with a digit, the guild is recovered from the scratch name |
| Scratch.ScratchNameInjectiveInGuild | src/main.rs:138 | within one guild, two file names give the same scratch name if and only if they are equal |
| Scratch.ScratchNamesCollideAcrossGuilds | src/main.rs:138 | guild 1 with "23.ogg" and guild 12 with "3.ogg" get the same scratch name |
| Registry.Lookup | src/main.rs:193 | `get` finds a sound exactly for the guilds in the store, and it is the stored one |
| Registry.Insert | src/main.rs:122-124 | after `insert` the guild maps to the new sound, every other guild is unchanged, and the key set gains exactly that guild |
| Registry.LaterInsertWins | src/main.rs:124 | inserting twice for a guild is the same as inserting only the later sound |
| Registry.InsertsCommute | src/main.rs:124 | inserts for two different guilds can be done in either order |
| Commands.TrackFrom | src/main.rs:137-160 | the result is the decoder's verdict on the scratch path named for the guild and file name, success and error alike; a write of the content to that path is attempted unless the file could not be created |
| Commands.FileErrorsAreSwallowed | src/main.rs:139-148 | create and write failures are not returned: for a given decoder, the result of `track_from` is its verdict on the scratch path whatever the file outcome |
| Commands.SaveAudio | src/main.rs:116-133 | error exactly when the download succeeded and decoding failed; on a decoded download the guild's sound is replaced by the decoded one, otherwise the store is unchanged; a failed download writes nothing, and a downloaded one has exactly `track_from`'s write attempt as its effects |
| Commands.Set | src/main.rs:80-114 | a message outside a guild leaves the store alone; no guild other than the message's own ever changes its sound; no sound is removed; the effects are only replies and scratch writes |
| Commands.SetIgnoresDirectMessages | src/main.rs:81-85 | a message without a guild gets no reply and changes nothing |
| Commands.SetWithoutAttachment | src/main.rs:87-92 | a guild message without attachments gets exactly the "Cadê o áudio" reply and changes nothing |
| Commands.SetUsesFirstAttachmentOnly | src/main.rs:94-98 | with several attachments the bot first warns, then behaves exactly as for a message carrying only the first attachment |
| Commands.SetRegistersDecodedSound | src/main.rs:94-105 | a downloaded and decoded attachment becomes the guild's sound, replacing any earlier one; the effects are exactly the optional warning, the scratch write attempt and the "Blz" confirmation, in that order |
| Commands.SetConfirmsFailedDownload | src/main.rs:128-131 | a failed download changes nothing, writes no file, and replies with the optional warning followed by the "Blz" confirmation |
| Commands.SetReportsDecodeFailure | src/main.rs:94-111 | a failed decode leaves the store unchanged; the effects are exactly the optional warning, the scratch write attempt and "Deu pau", in that order |
| Voice.VoiceStateUpdate | src/main.rs:170-217 | a join happens exactly for a non-bot update in a guild with a sound in which a channel was entered, and it targets that guild and channel; a handler is registered exactly when that join succeeds, after the guild's sound is played and an end-of-track event is added, and it is that guild's Disconnect |
| Voice.IgnoredUpdatesDoNotReadStore | src/main.rs:177-185 | updates from bots or without a guild do nothing, whatever the store holds |
| Voice.NoSoundNoJoin | src/main.rs:193 | in a guild without a sound no update leads to a join |
| Voice.EntryStartsSession | src/main.rs:188-213 | a non-bot member entering `c` of a guild with a sound gives exactly join, play and handler registration when the join succeeds, and a lone join attempt when it fails |
| Voice.Act | src/main.rs:242-249 | a Disconnect leaves its call on a track event and does nothing on any other event |
| Trace.Initial | src/main.rs:44 | the bot starts with an empty store and no handler, and the invariants hold |
| Trace.SetKeepsValid | src/main.rs:80-133 | a `set` command keeps the session invariants, because it never joins, plays, registers or leaves |
| Trace.SessionStartKeepsValid | src/main.rs:199-213 | a successful join, logged as join, play and end-of-track registration of one guild with that guild's Disconnect left waiting, keeps the invariants |
| Trace.NoSessionKeepsValid | src/main.rs:177-201 | an update that registers no Disconnect logs at most a join attempt, and keeps the invariants |
| Trace.VoiceUpdateKeepsValid | src/main.rs:188-213 | a voice-state update keeps the invariants: a new Disconnect is registered only together with its join and play, and it is left waiting |
| Trace.TrackEndKeepsValid | src/main.rs:242-249 | the end of a watched track leaves the call once and retires its Disconnect, keeping the invariants |
| Trace.RunAppend | src/main.rs:165-249 | running one more event after a sequence is one more step of the state machine, as the gateway delivers events one at a time |
| Trace.StepKeepsValid | src/main.rs:80-249 | every event keeps the invariants |
| Trace.RunKeepsValid | src/main.rs:80-249 | every state reachable from a valid one by any sequence of events is valid |
| Trace.AllTracksEndedAllLeft | src/main.rs:211-213 | once every playing track has ended, no Disconnect is waiting and each registered Disconnect has left exactly once per guild |
| Trace.SoundStaysWithoutSet | src/main.rs:122-124 | a guild's sound stays the same across any events that contain no `set` from that guild |
| Trace.SoundsAreNeverRemoved | src/main.rs:122-124 | no sequence of events removes a registered sound |
| Bot.Bot.constructor | src/main.rs:44 | the client starts with an empty sound store, nothing waiting and no effects: the state machine's initial state, which is valid |
| Bot.Bot.Reply | src/main.rs:88-90 | a reply is appended to the effects; a failure to send it changes nothing else |
| Bot.Bot.TrackFrom | src/main.rs:137-160 | the method returns `Commands.TrackFrom`'s result and appends its scratch write |
| Bot.Bot.SaveAudio | src/main.rs:116-133 | the method's new store, effects and result are those of `Commands.SaveAudio` |
| Bot.Bot.Upload | src/main.rs:94-111 | for a guild message with an attachment: the new store is `Commands.SaveAudio`'s, and the effects are the optional warning, `save_audio`'s effects and exactly one of "Blz" or "Deu pau", chosen by `save_audio`'s result |
| Bot.Bot.Set | src/main.rs:80-114 | the method's new store and effects are those of `Commands.Set`, and the invariants are kept |
| Bot.Bot.VoiceStateUpdate | src/main.rs:170-217 | the method appends the effects of `Voice.VoiceStateUpdate` and the Disconnect it registers, and the invariants are kept |
| Bot.Bot.StartSession | src/main.rs:199-213 | a failed join logs only the join; a successful one logs join, play and handler registration and leaves the guild's Disconnect waiting |
| Bot.Bot.Act | src/main.rs:242-249 | the method appends the effects of `Voice.Act`; it is called only by `TrackEnd`, which retires the Disconnect whose leave it logs |
| Bot.Bot.TrackEnd | src/main.rs:242-249 | the end of the k-th watched track removes that Disconnect and logs its leave; an end nobody waits for changes nothing; the invariants are kept |
| Bot.Bot.Dispatch | src/main.rs:80-249 | delivering any event performs exactly one step of the state machine and keeps the invariants |
| Bot.Bot.Serve | src/main.rs:59 | stands in for the client's event delivery: delivering a sequence of events in order ends in the state the state machine reaches, and keeps the invariants |
| Bot.UploadScenario | src/main.rs:80-133 | one decoded "boo.ogg" sent in guild `g` becomes the sound of `g` only; the scratch write and the confirmation follow |
| Bot.NoAttachmentScenario | src/main.rs:87-92 | a message without attachment registers nothing and gets the "no audio" reply |
| Bot.GreetingScenario | src/main.rs:188-249 | in any valid state where guild `g` has a sound, a member entering `c` makes the bot join `c`, play that sound, register the end event and leave once the track ends; store and waiting handlers end as before |
| Bot.PlaybackScenario | src/main.rs:80-249 | after an upload, a member entering `c` makes the bot join `c`, play the sound, register the end event and leave once the track ends, with nothing left waiting |
| Bot.NoSoundScenario | src/main.rs:188-193 | a member changing channel in a guild without a sound causes no effect |

## Left out

- `main`, client construction, the ctrl-c shutdown task, the `ready` handler and all `tracing` output: runtime set-up and logging, not behaviour of the core.
- The read/write lock on the client's data and the mutex on a call: handlers run one at a time in the model, so interleavings are not captured.
- The network and the file system: the download result, whether the scratch file could be created, and what ffmpeg and the in-memory cache make of a file are inputs. The temp-directory prefix of the scratch path is dropped.
- The decoder is a function of the scratch path, not of the bytes in the file. The model therefore does not capture that a failed create or write leaves ffmpeg reading a missing, partial or stale file. A failed write is logged as a write attempt, the same as a successful one.
- Whether a reply or a leave reached Discord: both are only logged by the source, so the model records the effect either way.
- The `expect` calls on the sound store, the voice manager, the input conversion and the event registration are assumed never to fail, since they only fail on set-up mistakes.
- The voice backend's own behaviour for a second join in a guild already in a call. The source leaves a TODO there, and the model just records another join.
- Deleting the scratch file: it is commented out in the source, so it is not modelled.
- `Disconnect::act` returns no follow-up event, so the backend keeps the handler. The model retires a Disconnect once its single track has ended, because a track ends only once.
- Guild and channel ids are 64-bit in the source and unbounded naturals in the model. Decimal printing is the same for every id that fits.
- Commands.SaveAudio: requires at least one attachment. The source would panic otherwise, and its only caller has already checked this.

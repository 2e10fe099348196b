/** The running bot: the shared sound store, the Disconnect handlers waiting
    for their track to end, and the log of effects, updated step by step by
    the command and event handlers. Each handler is proved to perform exactly
    one step of the state machine in module Trace, and so to keep its
    invariants. */
module Bot {
  import opened Types
  import opened Registry
  import opened Trigger
  import opened Scratch
  import Commands
  import Voice
  import Trace

  class Bot {
    var store: SoundStore
    var pending: seq<Disconnect>
    var log: seq<Effect>

    ghost function Snapshot(): Trace.State
      reads this
    {
      Trace.State(store, pending, log)
    }

    ghost predicate Valid()
      reads this
    {
      Trace.Valid(Snapshot())
    }

    /** The client starts with an empty sound store. */
    constructor ()
      ensures Valid() && Snapshot() == Trace.Initial()
      ensures store == map[] && pending == [] && log == []
    {
      store, pending, log := map[], [], [];
    }

    /** `msg.reply`: the reply is sent; a failure to send it is only logged. */
    method Reply(text: string)
      modifies this`log
      ensures log == old(log) + [Effect.Reply(text)]
    {
      log := log + [Effect.Reply(text)];
    }

    /** `track_from`. */
    method TrackFrom(content: Bytes, gid: GuildId, filename: string, file: FileOutcome,
                     ffmpeg: Commands.Decoder) returns (r: Result<Sound, AudioError>)
      modifies this`log
      ensures var t := Commands.TrackFrom(content, gid, filename, file, ffmpeg);
              r == t.result && log == old(log) + t.writes
    {
      var name := ScratchName(gid, filename);
      if !file.CreateFailed? {
        // a failed write_all is only logged
        log := log + [WriteScratch(name, content)];
      }
      match ffmpeg(name)
      case Decoded(sound) => r := Ok(sound);
      case DecodeFailed(e) => r := Err(e);
    }

    /** `save_audio`: the only writer of the store. */
    method SaveAudio(msg: Message, gid: GuildId, download: Download, file: FileOutcome,
                     ffmpeg: Commands.Decoder) returns (r: Result<(), AudioError>)
      requires |msg.attachments| > 0
      modifies this`store, this`log
      ensures var s := Commands.SaveAudio(old(store), gid, msg, download, file, ffmpeg);
              store == s.store && log == old(log) + s.effects && r == s.result
    {
      var attach := msg.attachments[0];
      match download
      case Downloaded(content) =>
        var track := TrackFrom(content, gid, attach.filename, file, ffmpeg);
        match track {
          case Err(e) =>
            r := Err(e);
          case Ok(sound) =>
            store := store[gid := sound];
            r := Ok(());
        }
      case DownloadFailed =>
        // logged, and reported to the caller as success
        r := Ok(());
    }

    /** The `set` command for a guild message with at least one attachment:
      the optional warning, `save_audio`, then the confirmation or the failure
      reply. */
    method Upload(msg: Message, gid: GuildId, download: Download, file: FileOutcome,
                  ffmpeg: Commands.Decoder)
      requires |msg.attachments| > 0
      modifies this`store, this`log
      ensures var saved := Commands.SaveAudio(old(store), gid, msg, download, file, ffmpeg);
              store == saved.store &&
              log == old(log) +
                     (if |msg.attachments| > 1 then [Effect.Reply(Commands.TooMuchAttachMsg)] else []) +
                     saved.effects +
                     [Effect.Reply(if saved.result.Ok? then Commands.SavedMsg else Commands.FailedMsg)]
    {
      if |msg.attachments| > 1 {
        Reply(Commands.TooMuchAttachMsg);
      }
      var saved := SaveAudio(msg, gid, download, file, ffmpeg);
      var answer := if saved.Ok? then Commands.SavedMsg else Commands.FailedMsg;
      Reply(answer);
    }

    /** The `set` command; it always returns `Ok`. */
    method Set(msg: Message, download: Download, file: FileOutcome, ffmpeg: Commands.Decoder)
      requires Valid()
      modifies this`store, this`log
      ensures var r := Commands.Set(old(store), msg, download, file, ffmpeg);
              store == r.store && log == old(log) + r.effects
      ensures Valid()
    {
      ghost var s0 := Snapshot();
      ghost var r := Commands.Set(store, msg, download, file, ffmpeg);
      if msg.guildId.Some? {
        if |msg.attachments| == 0 {
          Reply(Commands.NoAudioMsg);
        } else {
          Upload(msg, msg.guildId.value, download, file, ffmpeg);
          assert log == s0.log + r.effects;
        }
      }
      assert Snapshot() == Trace.State(r.store, s0.pending, s0.log + r.effects);
      Trace.SetKeepsValid(s0, msg, download, file, ffmpeg);
    }

    /** `voice_state_update`: for a member entering a channel of a guild
      with a sound, join that channel and play the sound. */
    method VoiceStateUpdate(gid: Option<GuildId>, before: Option<VoiceState>, after: VoiceState,
                            join: JoinResult)
      requires Valid()
      modifies this`pending, this`log
      ensures var v := Voice.VoiceStateUpdate(store, gid, before, after, join);
              pending == old(pending) + Trace.HandlerOf(v) && log == old(log) + v.effects
      ensures Valid()
    {
      Trace.VoiceUpdateKeepsValid(Snapshot(), gid, before, after, join);
      if IsBot(after) || gid.None? {
        return;
      }
      var joined := JoinedChannel(before, after);
      if joined.None? {
        return;
      }
      var sound := Lookup(store, gid.value);
      if sound.None? {
        return;
      }
      StartSession(gid.value, joined.value, sound.value, join);
    }

    /** Join `c`, and if that succeeds play `sound` as the call's only source
      and register a Disconnect for the end of that track. */
    method StartSession(g: GuildId, c: ChannelId, sound: Sound, join: JoinResult)
      modifies this`pending, this`log
      ensures join.JoinErr? ==> pending == old(pending) && log == old(log) + [Join(g, c)]
      ensures join.JoinOk? ==>
                pending == old(pending) + [Disconnect(g)] &&
                log == old(log) + [Join(g, c), PlayOnlySource(g, sound), AddTrackEnd(g)]
    {
      log := log + [Join(g, c)];
      if join.JoinOk? {
        log := log + [PlayOnlySource(g, sound)];
        log := log + [AddTrackEnd(g)];
        pending := pending + [Disconnect(g)];
      }
      // a failed join is only logged
    }

    /** `Disconnect::act`: leave the call on a track event. The backend
      calls it only for a Disconnect whose track has ended, so its only
      caller is TrackEnd, which also retires that Disconnect; on its own it
      would log a leave that no waiting Disconnect accounts for. */
    method Act(d: Disconnect, ctx: EventContext)
      modifies this`log
      ensures log == old(log) + Voice.Act(d, ctx)
    {
      if ctx.Track? {
        // a failed leave is only logged
        log := log + [Leave(d.call)];
      }
    }

    /** The backend reports the end of the track watched by pending[k] and
      runs its Disconnect with a track context. */
    method TrackEnd(k: nat)
      requires Valid()
      modifies this`pending, this`log
      ensures k < old(|pending|) ==>
                pending == Trace.Remove(old(pending), k) && log == old(log) + [Leave(old(pending)[k].call)]
      ensures k >= old(|pending|) ==> pending == old(pending) && log == old(log)
      ensures Valid()
    {
      if k < |pending| {
        Trace.TrackEndKeepsValid(Snapshot(), k);
      }
      if k < |pending| {
        var d := pending[k];
        pending := pending[..k] + pending[k + 1..];
        Act(d, Track);
      }
    }

    /** Delivers one gateway or backend event to its handler: every handler
      performs one step of the state machine and keeps its invariants. */
    method Dispatch(e: Trace.Event)
      requires Valid()
      modifies this
      ensures Valid()
      ensures Snapshot() == Trace.Step(old(Snapshot()), e)
    {
      match e
      case SetCommand(msg, download, file, ffmpeg) =>
        Set(msg, download, file, ffmpeg);
      case VoiceUpdate(gid, before, after, join) =>
        VoiceStateUpdate(gid, before, after, join);
      case TrackEnd(k) =>
        TrackEnd(k);
    }

    /** The event loop: delivers `es` in order. The bot ends in the state the
      state machine reaches, and so keeps its invariants. */
    method Serve(es: seq<Trace.Event>)
      requires Valid()
      modifies this
      ensures Valid()
      ensures Snapshot() == Trace.Run(old(Snapshot()), es)
    {
      for i := 0 to |es|
        invariant Valid()
        invariant Snapshot() == Trace.Run(old(Snapshot()), es[..i])
      {
        Trace.RunAppend(old(Snapshot()), es[..i], es[i]);
        assert es[..i + 1] == es[..i] + [es[i]];
        Dispatch(es[i]);
      }
      assert es[..|es|] == es;
    }
  }

  /** A non-bot member whose voice state now shows `c`. */
  function Entering(c: ChannelId): (vs: VoiceState) {
    VoiceState(Some(c), Some(Member(User(false))))
  }

  /** One attachment "boo.ogg" sent in guild `g` becomes the sound of `g`,
      and only of `g`; the member gets the confirmation. */
  method UploadScenario(g: GuildId, content: Bytes, s: Sound)
    returns (store: SoundStore, log: seq<Effect>)
    ensures store == map[g := s]
    ensures log == [WriteScratch(ScratchName(g, "boo.ogg"), content), Effect.Reply(Commands.SavedMsg)]
  {
    var bot := new Bot();
    bot.Set(Message(Some(g), [Attachment("boo.ogg")]), Downloaded(content), Written,
            (name: string) => Decoded(s));
    store, log := bot.store, bot.log;
  }

  /** A message without attachment gets the "no audio" reply and registers
      nothing. */
  method NoAttachmentScenario(g: GuildId) returns (store: SoundStore, log: seq<Effect>)
    ensures store == map[] && log == [Effect.Reply(Commands.NoAudioMsg)]
  {
    var bot := new Bot();
    bot.Set(Message(Some(g), []), DownloadFailed, Written, (name: string) => Decoded(Sound(0)));
    store, log := bot.store, bot.log;
  }

  /** In any state where guild `g` has a sound, a member entering channel
      `c` of `g` makes the bot join `c` and play that sound; when the track
      ends the bot leaves, and the store and the waiting handlers are as
      before. */
  method GreetingScenario(bot: Bot, g: GuildId, c: ChannelId)
    requires bot.Valid() && g in bot.store
    modifies bot
    ensures bot.Valid()
    ensures bot.store == old(bot.store) && bot.pending == old(bot.pending)
    ensures bot.log == old(bot.log) + [Join(g, c), PlayOnlySource(g, old(bot.store)[g]), AddTrackEnd(g), Leave(g)]
  {
    var k := |bot.pending|;
    Voice.EntryStartsSession(bot.store, g, None, Entering(c), JoinOk, c);
    ghost var session := [Join(g, c), PlayOnlySource(g, old(bot.store)[g]), AddTrackEnd(g)];
    bot.VoiceStateUpdate(Some(g), None, Entering(c), JoinOk);
    assert bot.pending == old(bot.pending) + [Disconnect(g)] && bot.log == old(bot.log) + session;
    bot.TrackEnd(k);
    assert bot.pending == old(bot.pending);
    assert bot.log == old(bot.log) + session + [Leave(g)];
  }

  /** A member connecting to `c` right after "boo.ogg" was set in `g`: the
      bot joins `c`, plays the sound, and leaves exactly once when the track
      ends. */
  method PlaybackScenario(g: GuildId, c: ChannelId, content: Bytes, s: Sound)
    returns (pending: seq<Disconnect>, session: seq<Effect>)
    ensures pending == []
    ensures session == [Join(g, c), PlayOnlySource(g, s), AddTrackEnd(g), Leave(g)]
  {
    var bot := new Bot();
    bot.Set(Message(Some(g), [Attachment("boo.ogg")]), Downloaded(content), Written,
            (name: string) => Decoded(s));
    assert bot.store == map[g := s] && bot.pending == [];
    var uploaded := bot.log;
    GreetingScenario(bot, g, c);
    pending, session := bot.pending, bot.log[|uploaded|..];
  }

  /** A member changing channel in a guild without a sound: no join call. */
  method NoSoundScenario(g: GuildId, c1: ChannelId, c2: ChannelId)
    returns (pending: seq<Disconnect>, log: seq<Effect>)
    requires c1 != c2
    ensures pending == [] && log == []
  {
    var bot := new Bot();
    bot.VoiceStateUpdate(Some(g), Some(Entering(c1)), Entering(c2), JoinOk);
    pending, log := bot.pending, bot.log;
  }
}

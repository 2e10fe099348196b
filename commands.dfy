/** The `set` command: a member uploads an audio file and the bot registers
    it as the guild's sound. Each step is a function of the current store and
    of the outcomes of the external calls (download, scratch-file write,
    decoding); its result is the new store and the effects, in order. */
module Commands {
  import opened Types
  import opened Registry
  import opened Scratch

  const NoAudioMsg: string := "Cadê o áudio carai??"
  const TooMuchAttachMsg: string :=
    "Vou usar só o primeiro arquivo que tu mandou, o resto eu to ignorando!!"
  const SavedMsg: string := "Blz, vou tocar esse áudio aí!!"
  const FailedMsg: string := "Deu pau"

  /** What decoding the scratch file of a given name (ffmpeg, then caching
      in memory) yields. */
  type Decoder = string -> Decode

  datatype Tracked = Tracked(writes: seq<Effect>, result: Result<Sound, AudioError>)

  /** `track_from`: write the content to the scratch file, then decode that
      file. A failure to create or write the file is only logged: the result
      is whatever decoding the file yields. */
  function TrackFrom(content: Bytes, gid: GuildId, filename: string, file: FileOutcome,
                     ffmpeg: Decoder): (t: Tracked)
    ensures t.result.Ok? <==> ffmpeg(ScratchName(gid, filename)).Decoded?
    ensures t.result.Ok? ==> t.result.value == ffmpeg(ScratchName(gid, filename)).sound
    ensures t.result.Err? ==> t.result.error == ffmpeg(ScratchName(gid, filename)).error
    ensures file.CreateFailed? ==> t.writes == []
    ensures !file.CreateFailed? ==> t.writes == [WriteScratch(ScratchName(gid, filename), content)]
  {
    var name := ScratchName(gid, filename);
    var writes := if file.CreateFailed? then [] else [WriteScratch(name, content)];
    match ffmpeg(name)
    case Decoded(s) => Tracked(writes, Ok(s))
    case DecodeFailed(e) => Tracked(writes, Err(e))
  }

  /** The scratch-file outcome never reaches the caller of TrackFrom. */
  lemma FileErrorsAreSwallowed(content: Bytes, gid: GuildId, filename: string,
                               f1: FileOutcome, f2: FileOutcome, ffmpeg: Decoder)
    ensures TrackFrom(content, gid, filename, f1, ffmpeg).result
         == TrackFrom(content, gid, filename, f2, ffmpeg).result
  {
  }

  datatype Saved = Saved(store: SoundStore, effects: seq<Effect>, result: Result<(), AudioError>)

  /** `save_audio`: download the first attachment, decode it, register it for
      `gid`. A failed download is logged and reported as success; a failed
      decode is an error. The source panics on a message without attachments,
      which its only caller has already ruled out. */
  function SaveAudio(store: SoundStore, gid: GuildId, msg: Message, download: Download,
                     file: FileOutcome, ffmpeg: Decoder): (s: Saved)
    requires |msg.attachments| > 0
    ensures s.result.Err? <==>
              download.Downloaded? && ffmpeg(ScratchName(gid, msg.attachments[0].filename)).DecodeFailed?
    ensures s.result.Ok? && download.Downloaded? ==>
              s.store == Insert(store, gid, ffmpeg(ScratchName(gid, msg.attachments[0].filename)).sound)
    ensures !(s.result.Ok? && download.Downloaded?) ==> s.store == store
    ensures download.DownloadFailed? ==> s.effects == []
    ensures download.Downloaded? ==>
              s.effects == TrackFrom(download.content, gid, msg.attachments[0].filename, file, ffmpeg).writes
    ensures forall e :: e in s.effects ==> e.WriteScratch?
  {
    var attach := msg.attachments[0];
    match download
    case Downloaded(content) =>
      var t := TrackFrom(content, gid, attach.filename, file, ffmpeg);
      (match t.result
       case Err(e) => Saved(store, t.writes, Err(e))
       case Ok(sound) => Saved(Insert(store, gid, sound), t.writes, Ok(())))
    case DownloadFailed =>
      Saved(store, [], Ok(()))
  }

  datatype Reaction = Reaction(store: SoundStore, effects: seq<Effect>)

  /** The `set` command. It only ever writes the sound of the message's own
      guild, and its effects are replies and scratch-file writes. */
  function Set(store: SoundStore, msg: Message, download: Download, file: FileOutcome,
               ffmpeg: Decoder): (r: Reaction)
    ensures msg.guildId.None? ==> r.store == store
    ensures forall g: GuildId :: Some(g) != msg.guildId ==> Lookup(r.store, g) == Lookup(store, g)
    ensures store.Keys <= r.store.Keys
    ensures forall e :: e in r.effects ==> e.Reply? || e.WriteScratch?
  {
    match msg.guildId
    case None => Reaction(store, [])
    case Some(gid) =>
      if |msg.attachments| == 0 then
        Reaction(store, [Reply(NoAudioMsg)])
      else
        var warning := if |msg.attachments| > 1 then [Reply(TooMuchAttachMsg)] else [];
        var saved := SaveAudio(store, gid, msg, download, file, ffmpeg);
        var answer := if saved.result.Ok? then SavedMsg else FailedMsg;
        Reaction(saved.store, warning + saved.effects + [Reply(answer)])
  }

  /** A message outside a guild is ignored: no reply, store unchanged. */
  lemma SetIgnoresDirectMessages(store: SoundStore, msg: Message, download: Download,
                                 file: FileOutcome, ffmpeg: Decoder)
    requires msg.guildId.None?
    ensures Set(store, msg, download, file, ffmpeg) == Reaction(store, [])
  {
  }

  /** A message without attachment gets exactly the "no audio" reply. */
  lemma SetWithoutAttachment(store: SoundStore, msg: Message, download: Download,
                             file: FileOutcome, ffmpeg: Decoder)
    requires msg.guildId.Some? && msg.attachments == []
    ensures Set(store, msg, download, file, ffmpeg) == Reaction(store, [Reply(NoAudioMsg)])
  {
  }

  /** With several attachments the bot warns first, then does exactly what it
      does for a message carrying only the first attachment. */
  lemma SetUsesFirstAttachmentOnly(store: SoundStore, msg: Message, download: Download,
                                   file: FileOutcome, ffmpeg: Decoder)
    requires msg.guildId.Some? && |msg.attachments| > 1
    ensures var single := Set(store, msg.(attachments := [msg.attachments[0]]), download, file, ffmpeg);
            Set(store, msg, download, file, ffmpeg)
              == Reaction(single.store, [Reply(TooMuchAttachMsg)] + single.effects)
  {
    var single := msg.(attachments := [msg.attachments[0]]);
    var r1 := Set(store, single, download, file, ffmpeg);
    var s := SaveAudio(store, msg.guildId.value, msg, download, file, ffmpeg);
    assert s == SaveAudio(store, msg.guildId.value, single, download, file, ffmpeg);
    assert r1.effects == [] + s.effects + [Reply(if s.result.Ok? then SavedMsg else FailedMsg)];
  }

  /** A downloaded and decoded attachment becomes the guild's sound,
      replacing any earlier one; the effects are the optional warning, the
      scratch write attempt and the confirmation, in that order. */
  lemma SetRegistersDecodedSound(store: SoundStore, msg: Message, content: Bytes,
                                 file: FileOutcome, ffmpeg: Decoder, gid: GuildId, s: Sound)
    requires msg.guildId == Some(gid) && |msg.attachments| > 0
    requires ffmpeg(ScratchName(gid, msg.attachments[0].filename)) == Decoded(s)
    ensures var r := Set(store, msg, Downloaded(content), file, ffmpeg);
            r.store == Insert(store, gid, s) &&
            r.effects == (if |msg.attachments| > 1 then [Reply(TooMuchAttachMsg)] else []) +
                         TrackFrom(content, gid, msg.attachments[0].filename, file, ffmpeg).writes +
                         [Reply(SavedMsg)]
  {
  }

  /** A failed download changes nothing, writes nothing, and still gets the
      confirmation reply. */
  lemma SetConfirmsFailedDownload(store: SoundStore, msg: Message, file: FileOutcome, ffmpeg: Decoder)
    requires msg.guildId.Some? && |msg.attachments| > 0
    ensures var r := Set(store, msg, DownloadFailed, file, ffmpeg);
            r.store == store &&
            r.effects == (if |msg.attachments| > 1 then [Reply(TooMuchAttachMsg)] else []) + [Reply(SavedMsg)]
  {
  }

  /** A failed decode changes nothing; the effects are the optional warning,
      the scratch write attempt and the failure reply, in that order. */
  lemma SetReportsDecodeFailure(store: SoundStore, msg: Message, content: Bytes,
                                file: FileOutcome, ffmpeg: Decoder, gid: GuildId)
    requires msg.guildId == Some(gid) && |msg.attachments| > 0
    requires ffmpeg(ScratchName(gid, msg.attachments[0].filename)).DecodeFailed?
    ensures var r := Set(store, msg, Downloaded(content), file, ffmpeg);
            r.store == store &&
            r.effects == (if |msg.attachments| > 1 then [Reply(TooMuchAttachMsg)] else []) +
                         TrackFrom(content, gid, msg.attachments[0].filename, file, ffmpeg).writes +
                         [Reply(FailedMsg)]
  {
  }
}

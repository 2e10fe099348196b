/** The whole bot as a state machine over gateway and backend events: the
    sound store, the Disconnect handlers whose track has not ended yet, and
    the log of effects. Its invariants are that every registered Disconnect
    has either left or is still waiting for its track, and that every play
    and every handler registration follows the step that enables it. */
module Trace {
  import opened Types
  import opened Registry
  import Commands
  import Voice

  datatype State = State(store: SoundStore, pending: seq<Disconnect>, log: seq<Effect>)

  datatype Event =
    | SetCommand(msg: Message, download: Download, file: FileOutcome, ffmpeg: Commands.Decoder)
    | VoiceUpdate(gid: Option<GuildId>, before: Option<VoiceState>, after: VoiceState, join: JoinResult)
    | TrackEnd(k: nat)  // the track watched by pending[k] has ended

  function Remove<T>(s: seq<T>, k: nat): (r: seq<T>)
    requires k < |s|
    ensures |r| == |s| - 1
    ensures forall i :: 0 <= i < |r| ==> r[i] == if i < k then s[i] else s[i + 1]
  {
    s[..k] + s[k + 1..]
  }

  function HandlerOf(v: Voice.Session): (handlers: seq<Disconnect>) {
    match v.handler
    case Some(d) => [d]
    case None => []
  }

  /** One event. An end for which no handler waits dispatches nothing. */
  function Step(s: State, e: Event): (t: State) {
    match e
    case SetCommand(msg, download, file, ffmpeg) =>
      var r := Commands.Set(s.store, msg, download, file, ffmpeg);
      State(r.store, s.pending, s.log + r.effects)
    case VoiceUpdate(gid, before, after, join) =>
      var v := Voice.VoiceStateUpdate(s.store, gid, before, after, join);
      State(s.store, s.pending + HandlerOf(v), s.log + v.effects)
    case TrackEnd(k) =>
      if k < |s.pending| then
        State(s.store, Remove(s.pending, k), s.log + Voice.Act(s.pending[k], Track))
      else s
  }

  function Run(s: State, es: seq<Event>): (t: State)
    decreases |es|
  {
    if es == [] then s else Run(Step(s, es[0]), es[1..])
  }

  /** The Disconnects that `tag` reads off the entries of `log`, with
      multiplicity. */
  function Tagged(log: seq<Effect>, tag: Effect -> Option<Disconnect>): (ds: multiset<Disconnect>)
    decreases |log|
  {
    if log == [] then multiset{}
    else
      Tagged(log[..|log| - 1], tag) +
      (match tag(log[|log| - 1]) case Some(d) => multiset{d} case None => multiset{})
  }

  lemma {:induction false} TaggedConcat(a: seq<Effect>, b: seq<Effect>, tag: Effect -> Option<Disconnect>)
    ensures Tagged(a + b, tag) == Tagged(a, tag) + Tagged(b, tag)
    decreases |b|
  {
    if b != [] {
      TaggedConcat(a, b[..|b| - 1], tag);
      assert (a + b)[..|a + b| - 1] == a + b[..|b| - 1];
    } else {
      assert a + b == a;
    }
  }

  lemma TaggedSingle(e: Effect, tag: Effect -> Option<Disconnect>)
    ensures Tagged([e], tag) == match tag(e) case Some(d) => multiset{d} case None => multiset{}
  {
    assert [e][..0] == [];
  }

  lemma {:induction false} TaggedUntagged(log: seq<Effect>, tag: Effect -> Option<Disconnect>)
    requires forall i :: 0 <= i < |log| ==> tag(log[i]).None?
    ensures Tagged(log, tag) == multiset{}
    decreases |log|
  {
    if log != [] {
      TaggedUntagged(log[..|log| - 1], tag);
    }
  }

  /** The Disconnect that a handler registration registers, and the one
      whose leave a leave issues. */
  function Registered(e: Effect): (d: Option<Disconnect>) {
    if e.AddTrackEnd? then Some(Disconnect(e.guild)) else None
  }

  function Left(e: Effect): (d: Option<Disconnect>) {
    if e.Leave? then Some(Disconnect(e.guild)) else None
  }

  /** Per guild: Disconnects registered = leaves issued + Disconnects still
      waiting for their track. */
  ghost predicate Balanced(s: State) {
    Tagged(s.log, Registered) == Tagged(s.log, Left) + multiset(s.pending)
  }

  /** Entry i of the log is preceded by the step that enables it: a play by a
      join of the same guild, a handler registration by a play of the same
      guild. */
  predicate Enabled(log: seq<Effect>, i: nat)
    requires i < |log|
  {
    match log[i]
    case PlayOnlySource(g, _) => i > 0 && log[i - 1].Join? && log[i - 1].guild == g
    case AddTrackEnd(g) => i > 0 && log[i - 1].PlayOnlySource? && log[i - 1].guild == g
    case _ => true
  }

  ghost predicate Ordered(log: seq<Effect>) {
    forall i: nat :: i < |log| ==> Enabled(log, i)
  }

  ghost predicate Valid(s: State) {
    Balanced(s) && Ordered(s.log)
  }

  function Initial(): (s: State)
    ensures Valid(s)
  {
    State(map[], [], [])
  }

  lemma OrderedAppend(log: seq<Effect>, block: seq<Effect>)
    requires Ordered(log) && Ordered(block)
    requires block != [] ==> !block[0].PlayOnlySource? && !block[0].AddTrackEnd?
    ensures Ordered(log + block)
  {
    forall i: nat | i < |log + block|
      ensures Enabled(log + block, i)
    {
      if i < |log| {
        assert Enabled(log, i);
      } else {
        assert Enabled(block, i - |log|);
      }
    }
  }

  /** Effects that neither register nor fire a Disconnect keep the balance. */
  lemma QuietEffectsKeepBalance(s: State, store: SoundStore, effects: seq<Effect>)
    requires Balanced(s)
    requires forall i :: 0 <= i < |effects| ==> !effects[i].AddTrackEnd? && !effects[i].Leave?
    ensures Balanced(State(store, s.pending, s.log + effects))
  {
    TaggedConcat(s.log, effects, Registered);
    TaggedConcat(s.log, effects, Left);
    TaggedUntagged(effects, Registered);
    TaggedUntagged(effects, Left);
  }

  /** A `set` command keeps the invariants. */
  lemma SetKeepsValid(s: State, msg: Message, download: Download, file: FileOutcome,
                      ffmpeg: Commands.Decoder)
    requires Valid(s)
    ensures var r := Commands.Set(s.store, msg, download, file, ffmpeg);
            Valid(State(r.store, s.pending, s.log + r.effects))
  {
    var r := Commands.Set(s.store, msg, download, file, ffmpeg);
    assert forall i :: 0 <= i < |r.effects| ==> r.effects[i] in r.effects;
    QuietEffectsKeepBalance(s, r.store, r.effects);
    OrderedAppend(s.log, r.effects);
  }

  /** A join, a play and a handler registration for `g0`, with the new
      Disconnect waiting, keep the balance. */
  lemma SessionStartKeepsBalance(s: State, join: Effect, play: Effect, g0: GuildId)
    requires Balanced(s) && join.Join? && play.PlayOnlySource?
    ensures Balanced(State(s.store, s.pending + [Disconnect(g0)], s.log + [join, play, AddTrackEnd(g0)]))
  {
    var quiet := [join, play];
    QuietEffectsKeepBalance(s, s.store, quiet);
    assert s.log + [join, play, AddTrackEnd(g0)] == (s.log + quiet) + [AddTrackEnd(g0)];
    TaggedConcat(s.log + quiet, [AddTrackEnd(g0)], Registered);
    TaggedConcat(s.log + quiet, [AddTrackEnd(g0)], Left);
    TaggedSingle(AddTrackEnd(g0), Registered);
    TaggedSingle(AddTrackEnd(g0), Left);
  }

  /** A successful join: a join, a play and a handler registration of one
      guild, with that guild's Disconnect left waiting, keep the invariants. */
  lemma SessionStartKeepsValid(s: State, v: Voice.Session, g0: GuildId)
    requires Valid(s)
    requires v.handler == Some(Disconnect(g0)) && |v.effects| == 3
    requires v.effects[0].Join? && v.effects[0].guild == g0
    requires v.effects[1].PlayOnlySource? && v.effects[1].guild == g0
    requires v.effects[2] == AddTrackEnd(g0)
    ensures Valid(State(s.store, s.pending + HandlerOf(v), s.log + v.effects))
  {
    assert v.effects == [v.effects[0], v.effects[1], AddTrackEnd(g0)];
    assert Enabled(v.effects, 1) && Enabled(v.effects, 2);
    OrderedAppend(s.log, v.effects);
    SessionStartKeepsBalance(s, v.effects[0], v.effects[1], g0);
    assert HandlerOf(v) == [Disconnect(g0)];
  }

  /** An update that registers no handler logs at most a join, and keeps
      the invariants. */
  lemma NoSessionKeepsValid(s: State, v: Voice.Session)
    requires Valid(s)
    requires v.handler.None? && |v.effects| <= 1 && (v.effects != [] ==> v.effects[0].Join?)
    ensures Valid(State(s.store, s.pending + HandlerOf(v), s.log + v.effects))
  {
    OrderedAppend(s.log, v.effects);
    QuietEffectsKeepBalance(s, s.store, v.effects);
    assert s.pending + HandlerOf(v) == s.pending;
  }

  /** A voice-state update keeps the invariants. */
  lemma VoiceUpdateKeepsValid(s: State, gid: Option<GuildId>, before: Option<VoiceState>,
                              after: VoiceState, join: JoinResult)
    requires Valid(s)
    ensures var v := Voice.VoiceStateUpdate(s.store, gid, before, after, join);
            Valid(State(s.store, s.pending + HandlerOf(v), s.log + v.effects))
  {
    var v := Voice.VoiceStateUpdate(s.store, gid, before, after, join);
    if v.handler.Some? {
      SessionStartKeepsValid(s, v, gid.value);
    } else {
      NoSessionKeepsValid(s, v);
    }
  }

  /** Retiring pending[k] removes exactly that one waiting Disconnect. */
  lemma WaitingAfterRemove(pending: seq<Disconnect>, k: nat)
    requires k < |pending|
    ensures multiset(pending) == multiset(Remove(pending, k)) + multiset{pending[k]}
  {
    assert pending == pending[..k] + [pending[k]] + pending[k + 1..];
  }

  /** A logged leave counts once among the leaves and not among the
      registrations. */
  lemma LeaveTags(log: seq<Effect>, g: GuildId)
    ensures Tagged(log + [Leave(g)], Registered) == Tagged(log, Registered)
    ensures Tagged(log + [Leave(g)], Left) == Tagged(log, Left) + multiset{Disconnect(g)}
  {
    TaggedConcat(log, [Leave(g)], Registered);
    TaggedConcat(log, [Leave(g)], Left);
    TaggedSingle(Leave(g), Registered);
    TaggedSingle(Leave(g), Left);
  }

  /** A Disconnect leaving the waiting list with its leave logged keeps the
      balance. */
  lemma LeaveKeepsBalance(s: State, k: nat)
    requires Balanced(s) && k < |s.pending|
    ensures Balanced(State(s.store, Remove(s.pending, k), s.log + [Leave(s.pending[k].call)]))
  {
    WaitingAfterRemove(s.pending, k);
    LeaveTags(s.log, s.pending[k].call);
  }

  /** The end of the track watched by pending[k] keeps the invariants. */
  lemma TrackEndKeepsValid(s: State, k: nat)
    requires Valid(s) && k < |s.pending|
    ensures Valid(State(s.store, Remove(s.pending, k), s.log + [Leave(s.pending[k].call)]))
  {
    LeaveKeepsBalance(s, k);
    OrderedAppend(s.log, [Leave(s.pending[k].call)]);
  }

  lemma StepKeepsValid(s: State, e: Event)
    requires Valid(s)
    ensures Valid(Step(s, e))
  {
    match e
    case SetCommand(msg, download, file, ffmpeg) => SetKeepsValid(s, msg, download, file, ffmpeg);
    case VoiceUpdate(gid, before, after, join) => VoiceUpdateKeepsValid(s, gid, before, after, join);
    case TrackEnd(k) =>
      if k < |s.pending| {
        TrackEndKeepsValid(s, k);
      }
  }

  /** Running one more event is one more step. */
  lemma {:induction false} RunAppend(s: State, es: seq<Event>, e: Event)
    ensures Run(s, es + [e]) == Step(Run(s, es), e)
    decreases |es|
  {
    if es == [] {
      assert [] + [e] == [e];
    } else {
      assert (es + [e])[1..] == es[1..] + [e];
      RunAppend(Step(s, es[0]), es[1..], e);
    }
  }

  /** Every reachable state keeps the invariants. */
  lemma {:induction false} RunKeepsValid(s: State, es: seq<Event>)
    requires Valid(s)
    ensures Valid(Run(s, es))
    decreases |es|
  {
    if es != [] {
      StepKeepsValid(s, es[0]);
      RunKeepsValid(Step(s, es[0]), es[1..]);
    }
  }

  /** `n` track ends, each for the handler waiting longest. */
  function EndAll(n: nat): (es: seq<Event>)
    ensures |es| == n
  {
    seq(n, _ => TrackEnd(0))
  }

  /** Once every playing track has ended, every Disconnect ever registered
      has issued its leave, exactly once per registration and guild. (A
      failed join registers no Disconnect and is never left.) */
  lemma {:induction false} AllTracksEndedAllLeft(s: State)
    requires Valid(s)
    ensures Run(s, EndAll(|s.pending|)).pending == []
    ensures Tagged(Run(s, EndAll(|s.pending|)).log, Registered)
         == Tagged(Run(s, EndAll(|s.pending|)).log, Left)
    decreases |s.pending|
  {
    var es := EndAll(|s.pending|);
    if s.pending != [] {
      var t := State(s.store, Remove(s.pending, 0), s.log + [Leave(s.pending[0].call)]);
      assert Step(s, TrackEnd(0)) == t;
      TrackEndKeepsValid(s, 0);
      assert es[0] == TrackEnd(0) && es[1..] == EndAll(|t.pending|);
      AllTracksEndedAllLeft(t);
    } else {
      assert Run(s, es) == s;
    }
  }

  /** Only a `set` command from guild `g` can change the sound of `g`. */
  predicate SetFrom(e: Event, g: GuildId) {
    e.SetCommand? && e.msg.guildId == Some(g)
  }

  /** After a sound is registered for `g`, every later lookup returns it
      until the next `set` from `g`; and no sound is ever removed. */
  lemma {:induction false} SoundStaysWithoutSet(s: State, es: seq<Event>, g: GuildId)
    requires forall i :: 0 <= i < |es| ==> !SetFrom(es[i], g)
    ensures Lookup(Run(s, es).store, g) == Lookup(s.store, g)
    decreases |es|
  {
    if es != [] {
      SoundStaysWithoutSet(Step(s, es[0]), es[1..], g);
    }
  }

  lemma {:induction false} SoundsAreNeverRemoved(s: State, es: seq<Event>)
    ensures s.store.Keys <= Run(s, es).store.Keys
    decreases |es|
  {
    if es != [] {
      SoundsAreNeverRemoved(Step(s, es[0]), es[1..]);
    }
  }
}

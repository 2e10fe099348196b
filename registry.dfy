/** The sound store: a map from guild to the sound registered for it. The bot
    reads it with `get` and writes it with a replacing `insert`. */
module Registry {
  import opened Types

  type SoundStore = map<GuildId, Sound>

  /** `get`: the sound registered for `g`, if any. */
  function Lookup(store: SoundStore, g: GuildId): (r: Option<Sound>)
    ensures r.Some? <==> g in store
    ensures r.Some? ==> r.value == store[g]
  {
    if g in store then Some(store[g]) else None
  }

  /** `insert`: registers `s` for `g`, replacing what was there. */
  function Insert(store: SoundStore, g: GuildId, s: Sound): (r: SoundStore)
    ensures Lookup(r, g) == Some(s)
    ensures forall h :: h != g ==> Lookup(r, h) == Lookup(store, h)
    ensures r.Keys == store.Keys + {g}
  {
    store[g := s]
  }

  /** Registering twice for one guild: the later sound wins. */
  lemma LaterInsertWins(store: SoundStore, g: GuildId, a: Sound, b: Sound)
    ensures Lookup(Insert(Insert(store, g, a), g, b), g) == Some(b)
    ensures Insert(Insert(store, g, a), g, b) == Insert(store, g, b)
  {
  }

  /** Inserts for different guilds do not interfere. */
  lemma InsertsCommute(store: SoundStore, g: GuildId, a: Sound, h: GuildId, b: Sound)
    requires g != h
    ensures Insert(Insert(store, g, a), h, b) == Insert(Insert(store, h, b), g, a)
  {
  }
}

/**
 * The audiobook player's global store: five state fields, one setter per field,
 * `reset`, and the persistence middleware that writes the persisted subset
 * (volume, playback rate and position) under "audiobook-player-storage" after
 * every change and merges it back over the initial state on load.
 *
 * Numbers are idealised as reals. Setters store their argument as given: there is
 * no clamping anywhere in the store.
 */
module AudioPlayerStore {
  import opened Js

  /** The store's data fields. */
  datatype PlayerState = PlayerState(
    isPlaying: bool, currentTime: real, duration: real, volume: real, playbackRate: real)

  /** What the persistence middleware keeps (`partialize`). */
  datatype Persisted = Persisted(volume: real, playbackRate: real, currentTime: real)

  const StorageName: string := "audiobook-player-storage"

  /** The initial state: paused at 0 with unknown duration, volume 0.8, normal speed. */
  const Initial: PlayerState := PlayerState(false, 0.0, 0.0, 0.8, 1.0)

  /** `partialize`: the volume, the playback rate and the position. */
  function Partialize(s: PlayerState): (p: Persisted)
    ensures p.volume == s.volume && p.playbackRate == s.playbackRate && p.currentTime == s.currentTime
  {
    Persisted(s.volume, s.playbackRate, s.currentTime)
  }

  /** Rehydration: the persisted fields merged over the initial state, or the initial state alone. */
  function Rehydrate(saved: Option<Persisted>): (s: PlayerState)
    ensures !s.isPlaying && s.duration == 0.0
    ensures saved.None? ==> s == Initial
    ensures saved.Some? ==> Partialize(s) == saved.value
  {
    match saved
    case None => Initial
    case Some(p) => Initial.(volume := p.volume, playbackRate := p.playbackRate, currentTime := p.currentTime)
  }

  /** The state `reset` leaves: stopped, at 0, duration unknown; volume and playback rate survive. */
  function AfterReset(s: PlayerState): (r: PlayerState)
    ensures !r.isPlaying && r.currentTime == 0.0 && r.duration == 0.0
    ensures r.volume == s.volume && r.playbackRate == s.playbackRate
  {
    s.(isPlaying := false, currentTime := 0.0, duration := 0.0)
  }

  /** Resetting twice is resetting once. */
  lemma ResetIdempotent(s: PlayerState)
    ensures AfterReset(AfterReset(s)) == AfterReset(s)
  {
  }

  /** A reload after a reset comes back to the reset state: nothing reset is persisted elsewhere. */
  lemma RehydrateAfterReset(s: PlayerState)
    ensures Rehydrate(Some(Partialize(AfterReset(s)))) == AfterReset(s)
  {
  }

  /** A reload keeps the persisted fields and forgets only whether it was playing and the duration. */
  lemma RehydratePartialize(s: PlayerState)
    ensures Rehydrate(Some(Partialize(s))) == s.(isPlaying := false, duration := 0.0)
  {
  }

  /** Persisting what was just loaded writes back the same record. */
  lemma PartializeRehydrate(p: Persisted)
    ensures Partialize(Rehydrate(Some(p))) == p
  {
  }

  /** The store, with the record the middleware last wrote to storage. */
  class Store {
    var isPlaying: bool
    var currentTime: real
    var duration: real
    var volume: real
    var playbackRate: real
    /** The value stored under StorageName. */
    var saved: Persisted

    function State(): PlayerState
      reads this
    {
      PlayerState(isPlaying, currentTime, duration, volume, playbackRate)
    }

    /** Storage always holds the persisted subset of the current state. */
    predicate Valid()
      reads this
    {
      saved == Partialize(State())
    }

    /** Creating the store: the initial state, merged with what storage held. */
    constructor (stored: Option<Persisted>)
      ensures Valid() && State() == Rehydrate(stored)
    {
      var s := Rehydrate(stored);
      isPlaying, currentTime, duration := s.isPlaying, s.currentTime, s.duration;
      volume, playbackRate := s.volume, s.playbackRate;
      saved := Partialize(s);
    }

    method SetIsPlaying(b: bool)
      requires Valid()
      modifies this
      ensures Valid() && State() == old(State()).(isPlaying := b)
    {
      isPlaying := b;
    }

    method SetCurrentTime(time: real)
      requires Valid()
      modifies this
      ensures Valid() && State() == old(State()).(currentTime := time)
    {
      currentTime := time;
      saved := Partialize(State());
    }

    method SetDuration(d: real)
      requires Valid()
      modifies this
      ensures Valid() && State() == old(State()).(duration := d)
    {
      duration := d;
    }

    method SetVolume(v: real)
      requires Valid()
      modifies this
      ensures Valid() && State() == old(State()).(volume := v)
    {
      volume := v;
      saved := Partialize(State());
    }

    method SetPlaybackRate(rate: real)
      requires Valid()
      modifies this
      ensures Valid() && State() == old(State()).(playbackRate := rate)
    {
      playbackRate := rate;
      saved := Partialize(State());
    }

    method Reset()
      requires Valid()
      modifies this
      ensures Valid() && State() == AfterReset(old(State()))
    {
      isPlaying, currentTime, duration := false, 0.0, 0.0;
      saved := Partialize(State());
    }
  }
}

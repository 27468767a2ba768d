/**
 * The audio player component: the controls around the transport. It keeps its
 * own loading, buffering and error flags from media events, remembers the volume
 * across mute and unmute, maps keys to transport actions, and offers a fixed menu
 * of playback rates and two 15-second skip buttons.
 *
 * The store's volume is written unclamped by the store itself; the component only
 * ever proposes values in [0, 1] when it starts from such a value.
 */
module AudioPlayer {
  import opened Js
  import opened AudioPlayerStore
  import opened UseAudioPlayer

  /** The props' defaults. */
  const DefaultBookTitle: string := "The Digital Community Manifesto"
  const DefaultAuthor: string := "NoSpirit & Starkerz"
  const DefaultCoverImage: string := "/book-cover.jpg"

  /** The speeds the menu offers, in menu order. */
  const PlaybackRates: seq<real> := [0.5, 0.75, 1.0, 1.25, 1.5, 2.0]

  /** The step of the on-screen skip buttons and of the skip keys. */
  const ButtonSkipSeconds: real := 15.0
  const KeySkipSeconds: real := 5.0

  /** The volume remembered at first, and the one unmuting falls back to. */
  const FallbackVolume: real := 0.8

  // ---------------------------------------------------------------------------
  // Volume

  /**
   * handleVolumeToggle on (volume, remembered volume): a positive volume is
   * remembered and muted; otherwise the remembered volume comes back, or the
   * fallback when the remembered one is 0.
   */
  function VolumeToggle(volume: real, previous: real): (r: (real, real))
  {
    if volume > 0.0 then (0.0, volume)
    else (if previous != 0.0 then previous else FallbackVolume, previous)
  }

  /** Muting and then unmuting gives back the volume the player had. */
  lemma MuteThenUnmute(volume: real, previous: real)
    requires volume > 0.0
    ensures VolumeToggle(volume, previous).0 == 0.0
    ensures VolumeToggle(VolumeToggle(volume, previous).0, VolumeToggle(volume, previous).1) == (volume, volume)
  {
  }

  /** Unmuting never leaves the player silent, as long as the remembered volume is not negative. */
  lemma UnmuteIsAudible(volume: real, previous: real)
    requires volume <= 0.0 && previous >= 0.0
    ensures VolumeToggle(volume, previous).0 > 0.0
    ensures VolumeToggle(volume, previous).1 == previous
  {
  }

  /** The toggle keeps both the volume and the remembered volume within [0, 1]. */
  lemma VolumeToggleInRange(volume: real, previous: real)
    requires 0.0 <= volume <= 1.0 && 0.0 <= previous <= 1.0
    ensures var r := VolumeToggle(volume, previous);
      0.0 <= r.0 <= 1.0 && 0.0 <= r.1 <= 1.0
  {
  }

  /** The three icons of the mute button. */
  datatype VolumeIcon = Muted | Low | High

  /** getVolumeIcon: muted at exactly 0, low below one half, high from one half on. */
  function VolumeIconFor(volume: real): (icon: VolumeIcon)
    ensures icon == Muted <==> volume == 0.0
    ensures icon == Low <==> volume != 0.0 && volume < 0.5
    ensures icon == High <==> volume >= 0.5
  {
    if volume == 0.0 then Muted else if volume < 0.5 then Low else High
  }

  /** The icon follows the toggle: muted after muting, never muted after unmuting. */
  lemma IconAfterToggle(volume: real, previous: real)
    requires previous >= 0.0
    ensures VolumeIconFor(VolumeToggle(volume, previous).0) == Muted <==> volume > 0.0
  {
  }

  /** ArrowUp: one tenth louder, at most 1. */
  function Louder(volume: real): (r: real)
    ensures r <= 1.0 && r <= volume + 0.1
    ensures r == 1.0 || r == volume + 0.1
  {
    if volume + 0.1 < 1.0 then volume + 0.1 else 1.0
  }

  /** ArrowDown: one tenth quieter, at least 0. */
  function Quieter(volume: real): (r: real)
    ensures r >= 0.0 && r >= volume - 0.1
    ensures r == 0.0 || r == volume - 0.1
  {
    if volume - 0.1 > 0.0 then volume - 0.1 else 0.0
  }

  /** The volume keys keep a volume in [0, 1] there, and move it the way they say. */
  lemma VolumeKeysStayInRange(volume: real)
    requires 0.0 <= volume <= 1.0
    ensures volume <= Louder(volume) <= 1.0
    ensures 0.0 <= Quieter(volume) <= volume
  {
  }

  /** Away from the ends, one step down and one step up cancel out. */
  lemma QuieterThenLouder(volume: real)
    requires 0.1 <= volume <= 0.9
    ensures Louder(Quieter(volume)) == volume
    ensures Quieter(Louder(volume)) == volume
  {
  }

  // ---------------------------------------------------------------------------
  // Keys

  /** The actions the key map triggers. */
  datatype KeyCommand = TogglePlay | Back(seconds: real) | Forward(seconds: real) | ToggleMute | VolumeUp | VolumeDown

  /** The lower-cased key names the map knows. */
  const KeyNames: set<string> := {" ", "k", "arrowleft", "j", "arrowright", "l", "m", "arrowup", "arrowdown"}

  /**
   * The keydown handler's dispatch: nothing while typing in an input or a text
   * area; otherwise the key, lower-cased, picks the action.
   */
  function KeyCommandOf(key: string, inTextField: bool): (c: Option<KeyCommand>)
    ensures c.Some? <==> !inTextField && ToLowerAscii(key) in KeyNames
  {
    if inTextField then None
    else
      var k := ToLowerAscii(key);
      if k == " " || k == "k" then Some(TogglePlay)
      else if k == "arrowleft" || k == "j" then Some(Back(KeySkipSeconds))
      else if k == "arrowright" || k == "l" then Some(Forward(KeySkipSeconds))
      else if k == "m" then Some(ToggleMute)
      else if k == "arrowup" then Some(VolumeUp)
      else if k == "arrowdown" then Some(VolumeDown)
      else None
  }

  /** The commands that move the playback position. */
  predicate IsSkip(c: Option<KeyCommand>) {
    c.Some? && (c.value.Back? || c.value.Forward?)
  }

  /** The map ignores case: a key and its lower-case form do the same thing. */
  lemma KeyCommandIgnoresCase(key: string, inTextField: bool)
    ensures KeyCommandOf(ToLowerAscii(key), inTextField) == KeyCommandOf(key, inTextField)
  {
    ToLowerAsciiIdempotent(key);
  }

  /** The keys as the browser names them reach their actions. */
  lemma BrowserKeyNames()
    ensures KeyCommandOf("ArrowLeft", false) == Some(Back(5.0))
    ensures KeyCommandOf("ArrowRight", false) == Some(Forward(5.0))
    ensures KeyCommandOf("ArrowUp", false) == Some(VolumeUp)
    ensures KeyCommandOf("ArrowDown", false) == Some(VolumeDown)
    ensures KeyCommandOf("K", false) == Some(TogglePlay) && KeyCommandOf("M", false) == Some(ToggleMute)
  {
    LowerOf("ArrowLeft", "arrowleft");
    LowerOf("ArrowRight", "arrowright");
    LowerOf("ArrowUp", "arrowup");
    LowerOf("ArrowDown", "arrowdown");
    LowerOf("K", "k");
    LowerOf("M", "m");
  }

  /** A key name lowers to the given one when they agree letter by lower-cased letter. */
  lemma LowerOf(key: string, lower: string)
    requires |key| == |lower|
    requires forall i :: 0 <= i < |key| ==>
      lower[i] == if 'A' <= key[i] <= 'Z' then (key[i] as int + 32) as char else key[i]
    ensures ToLowerAscii(key) == lower
  {
  }

  // ---------------------------------------------------------------------------
  // Loading, buffering and error flags

  /** The media events the component listens to. */
  datatype MediaEvent = LoadStart | CanPlay | Waiting | Playing | MediaError

  datatype Flags = Flags(isLoading: bool, isBuffering: bool, hasError: bool)

  /** Before any event the player counts as loading. */
  const InitialFlags: Flags := Flags(true, false, false)

  /** One event's handler. */
  function FlagStep(f: Flags, e: MediaEvent): Flags
  {
    match e
    case LoadStart => f.(isLoading := true, hasError := false)
    case CanPlay => f.(isLoading := false, isBuffering := false)
    case Waiting => f.(isBuffering := true)
    case Playing => f.(isBuffering := false)
    case MediaError => Flags(false, false, true)
  }

  /** The flags after a run of events, in order. */
  function FlagRun(f: Flags, es: seq<MediaEvent>): Flags
    decreases |es|
  {
    if es == [] then f else FlagRun(FlagStep(f, es[0]), es[1..])
  }

  /** The error banner. */
  predicate ShowsError(f: Flags) {
    f.hasError
  }

  /** The loading banner. */
  predicate ShowsLoading(f: Flags) {
    f.isLoading && !f.hasError
  }

  /** The buffering banner. */
  predicate ShowsBuffering(f: Flags, isPlaying: bool) {
    f.isBuffering && isPlaying && !f.isLoading
  }

  /**
   * The loading banner never shows together with another one, and right after an
   * error neither loading nor buffering shows. The error and buffering banners can
   * show together: a `waiting` after an error sets buffering and keeps the error.
   */
  lemma LoadingBannerAlone(f: Flags, isPlaying: bool)
    ensures !(ShowsLoading(f) && ShowsError(f))
    ensures !(ShowsLoading(f) && ShowsBuffering(f, isPlaying))
    ensures !ShowsLoading(FlagStep(f, MediaError)) && !ShowsBuffering(FlagStep(f, MediaError), isPlaying)
  {
  }

  /** A stall after an error keeps the error banner and, while playing, adds the buffering one. */
  lemma ErrorWithBuffering(f: Flags, isPlaying: bool)
    requires f.hasError
    ensures ShowsError(FlagStep(f, Waiting))
    ensures isPlaying && !f.isLoading <==> ShowsBuffering(FlagStep(f, Waiting), isPlaying)
  {
  }

  /** Only `loadstart` clears an error: without one, the error banner stays. */
  lemma {:induction false} ErrorPersists(f: Flags, es: seq<MediaEvent>)
    requires f.hasError && LoadStart !in es
    ensures ShowsError(FlagRun(f, es)) && !ShowsLoading(FlagRun(f, es))
    decreases |es|
  {
    if es != [] {
      assert es[0] != LoadStart;
      assert LoadStart !in es[1..] by {
        assert forall e :: e in es[1..] ==> e in es;
      }
      ErrorPersists(FlagStep(f, es[0]), es[1..]);
    }
  }

  /** Whatever came before, an error and a new load show the loading banner again. */
  lemma ErrorThenLoadStart(f: Flags)
    ensures ShowsError(FlagStep(f, MediaError))
    ensures ShowsLoading(FlagRun(f, [MediaError, LoadStart]))
  {
  }

  /** A stall ended by `playing` leaves no buffering banner. */
  lemma WaitingThenPlaying(f: Flags, isPlaying: bool)
    ensures ShowsBuffering(FlagStep(f, Waiting), isPlaying) <==> isPlaying && !f.isLoading
    ensures !ShowsBuffering(FlagRun(f, [Waiting, Playing]), isPlaying)
  {
  }

  // ---------------------------------------------------------------------------
  // Progress bar

  /** The slider's maximum: the duration once known, 100 before. */
  function ProgressMax(duration: real): (m: real)
    ensures m > 0.0
    ensures duration > 0.0 ==> m == duration
  {
    if duration > 0.0 then duration else 100.0
  }

  /** The slider is disabled while the duration is 0. */
  predicate ProgressDisabled(duration: real) {
    duration == 0.0
  }

  /** The label under the slider's end: the duration's clock once known, "Loading..." before. */
  function DurationLabel(duration: real): (s: string)
    ensures duration <= 0.0 <==> s == "Loading..."
    ensures duration > 0.0 ==> ParseClock(s) == Some(Floor(duration))
  {
    if duration > 0.0 then
      ParseFormatTime(duration);
      FormatTime(Finite(duration))
    else "Loading..."
  }

  // ---------------------------------------------------------------------------
  // The component

  /** The component's state next to the transport it drives. */
  class PlayerView {
    const transport: AudioTransport
    var isLoading: bool
    var isBuffering: bool
    var hasError: bool
    var previousVolume: real
    var showSpeedMenu: bool

    function CurrentFlags(): Flags
      reads this
    {
      Flags(isLoading, isBuffering, hasError)
    }

    predicate Valid()
      reads this, transport, transport.store
    {
      transport.Valid()
    }

    /** Mounting: loading, no buffering, no error, 0.8 remembered, menu closed. */
    constructor (transport: AudioTransport)
      requires transport.Valid()
      ensures Valid() && this.transport == transport
      ensures CurrentFlags() == InitialFlags && previousVolume == FallbackVolume && !showSpeedMenu
    {
      this.transport := transport;
      isLoading, isBuffering, hasError := true, false, false;
      previousVolume, showSpeedMenu := FallbackVolume, false;
    }

    /** A media event updates the flags and nothing else. */
    method HandleMediaEvent(e: MediaEvent)
      requires Valid()
      modifies this
      ensures Valid() && CurrentFlags() == FlagStep(old(CurrentFlags()), e)
      ensures previousVolume == old(previousVolume) && showSpeedMenu == old(showSpeedMenu)
    {
      match e
      case LoadStart =>
        isLoading := true;
        hasError := false;
      case CanPlay =>
        isLoading := false;
        isBuffering := false;
      case Waiting =>
        isBuffering := true;
      case Playing =>
        isBuffering := false;
      case MediaError =>
        hasError := true;
        isLoading := false;
        isBuffering := false;
    }

    /** handleVolumeToggle, through the store's setVolume. */
    method HandleVolumeToggle()
      requires Valid()
      modifies this, transport.store
      ensures Valid()
      ensures (transport.store.volume, previousVolume) == VolumeToggle(old(transport.store.volume), old(previousVolume))
      ensures transport.store.State() == old(transport.store.State()).(volume := transport.store.volume)
      ensures CurrentFlags() == old(CurrentFlags()) && showSpeedMenu == old(showSpeedMenu)
    {
      var store := transport.store;
      if store.volume > 0.0 {
        previousVolume := store.volume;
        store.SetVolume(0.0);
      } else {
        store.SetVolume(if previousVolume != 0.0 then previousVolume else FallbackVolume);
      }
    }

    /** A key press: its command, if any, run against the transport and the store. */
    method HandleKeyDown(key: string, inTextField: bool) returns (thrown: bool)
      requires Valid()
      modifies this, transport.store, transport.element
      ensures Valid() && CurrentFlags() == old(CurrentFlags()) && showSpeedMenu == old(showSpeedMenu)
      ensures KeyCommandOf(key, inTextField) != Some(ToggleMute) ==> previousVolume == old(previousVolume)
      ensures KeyCommandOf(key, inTextField).None? ==>
        !thrown && transport.store.State() == old(transport.store.State())
      ensures KeyCommandOf(key, inTextField) == Some(TogglePlay) ==>
        !thrown && transport.store.State() == old(transport.store.State()).(isPlaying := !old(transport.store.isPlaying))
      ensures KeyCommandOf(key, inTextField) == Some(ToggleMute) ==>
        && !thrown
        && (transport.store.volume, previousVolume) == VolumeToggle(old(transport.store.volume), old(previousVolume))
        && transport.store.State() == old(transport.store.State()).(volume := transport.store.volume)
      ensures KeyCommandOf(key, inTextField) == Some(VolumeUp) ==>
        !thrown && transport.store.State() == old(transport.store.State()).(volume := Louder(old(transport.store.volume)))
      ensures KeyCommandOf(key, inTextField) == Some(VolumeDown) ==>
        !thrown && transport.store.State() == old(transport.store.State()).(volume := Quieter(old(transport.store.volume)))
      ensures !IsSkip(KeyCommandOf(key, inTextField)) && transport.element != null ==>
        transport.element.State() == old(transport.element.State())
      ensures IsSkip(KeyCommandOf(key, inTextField)) && transport.element == null ==>
        !thrown && transport.store.State() == old(transport.store.State())
      ensures KeyCommandOf(key, inTextField) == Some(Back(KeySkipSeconds)) && transport.element != null ==>
        var t := SkipBackwardTarget(old(transport.element.currentTime), KeySkipSeconds);
        && !thrown
        && transport.element.State() == old(transport.element.State()).(currentTime := t.r)
        && transport.store.State() == old(transport.store.State()).(currentTime := t.r)
      ensures KeyCommandOf(key, inTextField) == Some(Forward(KeySkipSeconds)) && transport.element != null ==>
        var t := SkipForwardTarget(old(transport.element.currentTime), KeySkipSeconds, old(transport.element.duration));
        && (thrown <==> !t.Finite?)
        && (t.Finite? ==> transport.element.State() == old(transport.element.State()).(currentTime := t.r))
        && (t.Finite? ==> transport.store.State() == old(transport.store.State()).(currentTime := t.r))
        && (!t.Finite? ==> transport.element.State() == old(transport.element.State()))
        && (!t.Finite? ==> transport.store.State() == old(transport.store.State()))
    {
      thrown := false;
      var c := KeyCommandOf(key, inTextField);
      if c.None? {
        return;
      }
      match c.value
      case TogglePlay =>
        transport.TogglePlayPause();
      case Back(s) =>
        thrown := transport.SkipBackward(s);
      case Forward(s) =>
        thrown := transport.SkipForward(s);
      case ToggleMute =>
        HandleVolumeToggle();
      case VolumeUp =>
        transport.store.SetVolume(Louder(transport.store.volume));
      case VolumeDown =>
        transport.store.SetVolume(Quieter(transport.store.volume));
    }

    /** The skip-back button: 15 seconds back, never below 0. */
    method PressSkipBack()
      requires Valid()
      modifies transport.store, transport.element
      ensures Valid()
      ensures transport.element != null ==>
        var t := SkipBackwardTarget(old(transport.element.currentTime), ButtonSkipSeconds);
        && transport.element.State() == old(transport.element.State()).(currentTime := t.r)
        && transport.store.State() == old(transport.store.State()).(currentTime := t.r)
      ensures transport.element == null ==> transport.store.State() == old(transport.store.State())
    {
      var _ := transport.SkipBackward(ButtonSkipSeconds);
    }

    /** The skip-forward button: 15 seconds ahead, capped by the duration. */
    method PressSkipForward() returns (thrown: bool)
      requires Valid()
      modifies transport.store, transport.element
      ensures Valid()
      ensures transport.element != null ==>
        var t := SkipForwardTarget(old(transport.element.currentTime), ButtonSkipSeconds, old(transport.element.duration));
        && (thrown <==> !t.Finite?)
        && (t.Finite? ==> transport.element.State() == old(transport.element.State()).(currentTime := t.r))
        && (t.Finite? ==> transport.store.State() == old(transport.store.State()).(currentTime := t.r))
        && (!t.Finite? ==> transport.element.State() == old(transport.element.State()))
        && (!t.Finite? ==> transport.store.State() == old(transport.store.State()))
      ensures transport.element == null ==> !thrown && transport.store.State() == old(transport.store.State())
    {
      thrown := transport.SkipForward(ButtonSkipSeconds);
    }

    /** The speed button opens and closes the menu. */
    method ToggleSpeedMenu()
      requires Valid()
      modifies this
      ensures Valid() && showSpeedMenu == !old(showSpeedMenu)
      ensures CurrentFlags() == old(CurrentFlags()) && previousVolume == old(previousVolume)
    {
      showSpeedMenu := !showSpeedMenu;
    }

    /** Picking entry k of the menu sets that rate and closes the menu. */
    method ChooseRate(k: int)
      requires Valid() && 0 <= k < |PlaybackRates|
      modifies this, transport.store
      ensures Valid() && !showSpeedMenu
      ensures transport.store.State() == old(transport.store.State()).(playbackRate := PlaybackRates[k])
      ensures CurrentFlags() == old(CurrentFlags()) && previousVolume == old(previousVolume)
    {
      transport.store.SetPlaybackRate(PlaybackRates[k]);
      showSpeedMenu := false;
    }

    /** The volume slider runs over 0..100 and sets a hundredth of its value. */
    method SlideVolume(value: real)
      requires Valid() && 0.0 <= value <= 100.0
      modifies transport.store
      ensures Valid() && 0.0 <= transport.store.volume <= 1.0
      ensures transport.store.State() == old(transport.store.State()).(volume := value / 100.0)
    {
      transport.store.SetVolume(value / 100.0);
    }
  }

  /** Every rate the menu offers lies between half and double speed, and normal speed is one of them. */
  lemma PlaybackRatesInRange()
    ensures forall k :: 0 <= k < |PlaybackRates| ==> 0.5 <= PlaybackRates[k] <= 2.0
    ensures PlaybackRates[2] == 1.0
    ensures forall j, k :: 0 <= j < k < |PlaybackRates| ==> PlaybackRates[j] < PlaybackRates[k]
  {
  }
}

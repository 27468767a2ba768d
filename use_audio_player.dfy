/**
 * The audio transport: the hook that binds the player store to an HTML audio
 * element. It sets the source once, turns media events into store writes (the
 * duration, the position, stop-at-end, error reports and a delayed buffering
 * warning), drives play/pause from the store's intent, and offers seek, skip and
 * the clock formatter used by the controls.
 *
 * Media error codes are those of section 4.8.11.1 of the WHATWG HTML Living
 * Standard. Toasts are recorded in a log instead of being shown. The element's
 * own seeking, buffering and clock are not modelled: its position and duration
 * are fields the events are read from.
 */
module UseAudioPlayer {
  import opened Js
  import opened AudioPlayerStore

  // ---------------------------------------------------------------------------
  // Media errors

  /** MediaError codes. */
  const MEDIA_ERR_ABORTED: int := 1
  const MEDIA_ERR_NETWORK: int := 2
  const MEDIA_ERR_DECODE: int := 3
  const MEDIA_ERR_SRC_NOT_SUPPORTED: int := 4

  /** What the error handler reports: a title, a message, and whether a toast is shown. */
  datatype Notice = Notice(title: string, message: string, showToast: bool)

  const DefaultTitle: string := "Playback error"
  const DefaultMessage: string := "Could not load audio file."

  /**
   * The report for the element's `error` attribute: None when the element has no
   * MediaError object, otherwise its code.
   */
  function ErrorNotice(error: Option<int>): (n: Notice)
    ensures n.showToast <==> error.Some? && error.value != MEDIA_ERR_SRC_NOT_SUPPORTED
    ensures n.title == DefaultTitle <==> error != Some(MEDIA_ERR_SRC_NOT_SUPPORTED)
    ensures error.None? || !(1 <= error.value <= 4) ==> n.message == DefaultMessage
  {
    match error
    case None => Notice(DefaultTitle, DefaultMessage, false)
    case Some(code) =>
      if code == MEDIA_ERR_ABORTED then Notice(DefaultTitle, "Audio download aborted.", true)
      else if code == MEDIA_ERR_NETWORK then
        Notice(DefaultTitle, "Network error while downloading audio. Check your connection.", true)
      else if code == MEDIA_ERR_DECODE then
        Notice(DefaultTitle, "Error decoding audio file. The file may be corrupted.", true)
      else if code == MEDIA_ERR_SRC_NOT_SUPPORTED then
        Notice("CORS Error on Cloudflare R2",
          "The file needs CORS configuration in Cloudflare Worker. See CLOUDFLARE-WORKER-CORS.md", false)
      else Notice(DefaultTitle, DefaultMessage, true)
  }

  /** Each of the four standard codes has a message of its own, distinct from the default. */
  lemma ErrorMessagesDistinct(a: int, b: int)
    requires 1 <= a <= 4 && 1 <= b <= 4
    ensures ErrorNotice(Some(a)).message != DefaultMessage
    ensures ErrorNotice(Some(a)).message == ErrorNotice(Some(b)).message <==> a == b
  {
    // The five messages already differ in length.
    MessageLengthOf(a);
    MessageLengthOf(b);
  }

  function MessageLength(code: int): nat
    requires 1 <= code <= 4
  {
    if code == 1 then 23 else if code == 2 then 61 else if code == 3 then 53 else 85
  }

  lemma MessageLengthOf(code: int)
    requires 1 <= code <= 4
    ensures |ErrorNotice(Some(code)).message| == MessageLength(code) != |DefaultMessage|
  {
  }

  // ---------------------------------------------------------------------------
  // Duration, restore and skips

  /** The guard on `duration`: truthy, not NaN and finite, i.e. a finite number other than 0. */
  predicate UsableDuration(d: Num) {
    Truthy(d) && d != NaN && d.Finite?
  }

  lemma UsableDurationIff(d: Num)
    ensures UsableDuration(d) <==> d.Finite? && d.r != 0.0
    ensures d == NaN || d == PosInf || d == Finite(0.0) ==> !UsableDuration(d)
  {
  }

  /** The saved position is reapplied only strictly inside the media. */
  predicate ShouldRestore(saved: real, duration: real) {
    saved > 0.0 && saved < duration
  }

  /** skipForward's target: the position plus the step, capped by the duration (NaN when that is NaN). */
  function SkipForwardTarget(pos: real, seconds: real, duration: Num): (t: Num)
    ensures duration == NaN <==> t == NaN
    ensures duration.Finite? ==> t.Finite? && t.r <= duration.r && t.r <= pos + seconds
    ensures duration.Finite? ==> (t.r == duration.r || t.r == pos + seconds)
    ensures duration == PosInf ==> t == Finite(pos + seconds)
  {
    Min(Finite(pos + seconds), duration)
  }

  /** skipBackward's target: the position minus the step, never below 0. */
  function SkipBackwardTarget(pos: real, seconds: real): (t: Num)
    ensures t.Finite? && t.r >= 0.0 && t.r >= pos - seconds
    ensures t.r == 0.0 || t.r == pos - seconds
  {
    Max(Finite(pos - seconds), Finite(0.0))
  }

  /** A skip by a non-negative step from a position inside the media lands inside the media. */
  lemma SkipsStayInside(pos: real, seconds: real, duration: real)
    requires 0.0 <= pos <= duration && seconds >= 0.0
    ensures var f := SkipForwardTarget(pos, seconds, Finite(duration));
      pos <= f.r <= duration && (f.r == duration <==> pos + seconds >= duration)
    ensures var b := SkipBackwardTarget(pos, seconds);
      0.0 <= b.r <= pos && (b.r == 0.0 <==> pos <= seconds)
  {
  }

  // ---------------------------------------------------------------------------
  // The buffering-warning timer

  const BufferingDelayMs: int := 3000

  /**
   * The timers of the buffering warning: the handle the hook holds, the timers
   * scheduled and not yet cleared or fired, and the next id setTimeout hands out.
   */
  datatype Timers = Timers(handle: Option<nat>, armed: set<nat>, next: nat)

  predicate TimersValid(ts: Timers) {
    && (forall id :: id in ts.armed ==> id < ts.next)
    && (ts.handle.Some? ==> ts.handle.value < ts.next)
  }

  /** `stalled`: schedule a new warning and keep only its handle; the previous timer is not cleared. */
  function Stalled(ts: Timers): (r: Timers)
    requires TimersValid(ts)
    ensures TimersValid(r)
    ensures r.armed == ts.armed + {ts.next} && ts.next !in ts.armed
    ensures r.handle == Some(ts.next)
  {
    Timers(Some(ts.next), ts.armed + {ts.next}, ts.next + 1)
  }

  /** `playing` / `canplaythrough`: clear the held timer, if any, and forget the handle. */
  function Cleared(ts: Timers): (r: Timers)
    requires TimersValid(ts)
    ensures TimersValid(r) && r.handle.None? && r.next == ts.next
    ensures r.armed == if ts.handle.Some? then ts.armed - {ts.handle.value} else ts.armed
  {
    match ts.handle
    case None => ts
    case Some(h) => Timers(None, ts.armed - {h}, ts.next)
  }

  /** Clearing undoes one stall: a single stall followed by playback leaves no timer behind. */
  lemma StallThenClearLeavesNothing(ts: Timers)
    requires TimersValid(ts) && ts.handle.None?
    ensures Cleared(Stalled(ts)) == ts.(next := ts.next + 1)
  {
  }

  /** Two stalls in a row leak the first timer: playback resuming does not cancel its warning. */
  lemma SecondStallLeaksFirstTimer(ts: Timers)
    requires TimersValid(ts)
    ensures var after := Cleared(Stalled(Stalled(ts)));
      ts.next in after.armed && after.handle.None?
  {
  }

  // ---------------------------------------------------------------------------
  // The clock

  /** formatTime: "0:00" for 0, NaN and the infinities; "h:mm:ss" from one hour on; otherwise "m:ss". */
  function FormatTime(time: Num): (s: string)
    ensures !time.Finite? || time == Finite(0.0) ==> s == "0:00"
  {
    if !Truthy(time) || time == NaN || !time.Finite? then "0:00"
    else Clock(ClockFields(time.r))
  }

  /** The hours, the minutes within the hour and the seconds within the minute, each floored. */
  function ClockFields(t: real): (int, int, int)
  {
    (Floor(t / 3600.0), Floor(Rem(t, 3600.0) / 60.0), Floor(Rem(t, 60.0)))
  }

  /** The printed clock: the hours only when positive. */
  function Clock(f: (int, int, int)): string
  {
    if f.0 > 0 then HourClockText(f.0, f.1, f.2) else MinuteClockText(f.1, f.2)
  }

  function HourClockText(hours: int, minutes: int, seconds: int): string
  {
    IntToString(hours) + ":" + TwoDigitText(minutes) + ":" + TwoDigitText(seconds)
  }

  function MinuteClockText(minutes: int, seconds: int): string
  {
    IntToString(minutes) + ":" + TwoDigitText(seconds)
  }

  /** toString().padStart(2, "0"). */
  function TwoDigitText(x: int): string
  {
    PadStartZero(IntToString(x), 2)
  }

  /** Splits off a trailing ":dd" field: what precedes it and the field's value. */
  function LastField(s: string): (r: Option<(string, int)>)
    ensures r.Some? ==> |r.value.0| == |s| - 3 && 0 <= r.value.1 < 100
  {
    if |s| >= 3 && s[|s| - 3] == ':' && IsDigit(s[|s| - 2]) && IsDigit(s[|s| - 1]) then
      Some((s[..|s| - 3], DigitValue(s[|s| - 2]) * 10 + DigitValue(s[|s| - 1])))
    else None
  }

  /** A leading field of one or more digits. */
  predicate Leading(p: string) {
    p != [] && AllDigits(p)
  }

  /** Reads a clock "m:ss" or "h:mm:ss" back to whole seconds. */
  function ParseClock(s: string): (r: Option<int>)
  {
    var last := LastField(s);
    if last.None? then None
    else if Leading(last.value.0) then Some(DigitsValue(last.value.0) * 60 + last.value.1)
    else HourClock(LastField(last.value.0), last.value.1)
  }

  /** The "h:mm" part in front of the seconds, split off, and the seconds. */
  function HourClock(front: Option<(string, int)>, sec: int): (r: Option<int>)
  {
    if front.Some? && Leading(front.value.0) then
      Some((DigitsValue(front.value.0) * 60 + front.value.1) * 60 + sec)
    else None
  }

  /** The formatted clock shows the whole seconds elapsed: reading it back gives floor(t). */
  lemma ParseFormatTime(t: real)
    requires t >= 0.0
    ensures ParseClock(FormatTime(Finite(t))) == Some(Floor(t))
  {
    var n := Floor(t);
    if t == 0.0 {
      assert FormatTime(Finite(t)) == "0" + ":" + "00";
      LastFieldOf("0", "00");
      assert "0"[..0] == [];
    } else {
      ClockFieldsOfFloor(t);
      assert FormatTime(Finite(t)) == Clock((n / 3600, (n % 3600) / 60, n % 60));
      ClockOfSeconds(n);
    }
  }

  /** A whole number of seconds, split into clock fields and printed, reads back as itself. */
  lemma ClockOfSeconds(n: int)
    requires n >= 0
    ensures ParseClock(Clock((n / 3600, (n % 3600) / 60, n % 60))) == Some(n)
  {
    var h, m, sec := n / 3600, (n % 3600) / 60, n % 60;
    ClockArithmetic(n);
    assert Some((h * 60 + m) * 60 + sec) == Some(n);
    ClockReadsBack(h, m, sec);
  }

  /** A clock of valid fields reads back as the seconds they add up to. */
  lemma ClockReadsBack(h: int, m: int, sec: int)
    requires h >= 0 && 0 <= m < 60 && 0 <= sec < 60
    ensures ParseClock(Clock((h, m, sec))) == Some((h * 60 + m) * 60 + sec)
  {
    if h > 0 {
      HourClockCase(h, m, sec);
    } else {
      MinuteClockCase(h, m, sec);
    }
  }

  lemma HourClockCase(h: int, m: int, sec: int)
    requires h > 0 && 0 <= m < 60 && 0 <= sec < 60
    ensures ParseClock(Clock((h, m, sec))) == Some((h * 60 + m) * 60 + sec)
  {
    HourClockReadsBack(h, m, sec);
  }

  lemma MinuteClockCase(h: int, m: int, sec: int)
    requires h == 0 && 0 <= m < 60 && 0 <= sec < 60
    ensures ParseClock(Clock((h, m, sec))) == Some((h * 60 + m) * 60 + sec)
  {
    MinuteClockReadsBack(m, sec);
  }

  /** The clock's fields are those of the whole seconds elapsed. */
  lemma ClockFieldsOfFloor(t: real)
    requires t >= 0.0
    ensures var n := Floor(t);
      n >= 0 && ClockFields(t) == (n / 3600, (n % 3600) / 60, n % 60)
  {
    var n := Floor(t);
    FloorDiv(t, n, 3600);
    RemFloor(t, n, 3600);
    var u := Rem(t, 3600.0);
    FloorDiv(u, n % 3600, 60);
    FloorDiv(t, n, 60);
    RemFloor(t, n, 60);
  }

  /** floor(t / d) is the integer quotient of floor(t) by d. */
  lemma FloorDiv(t: real, n: int, d: int)
    requires t >= 0.0 && d > 0 && n == Floor(t)
    ensures Floor(t / d as real) == n / d
  {
    var q := n / d;
    assert q * d <= n < q * d + d;
    RealProduct(q, d);
    RealProduct(q + 1, d);
    QuotientBounds(t, q as real, d as real);
    FloorUnique(t / d as real, q);
  }

  lemma RealProduct(a: int, b: int)
    ensures (a * b) as real == (a as real) * (b as real)
  {
  }

  lemma QuotientBounds(t: real, q: real, dr: real)
    requires dr > 0.0 && q * dr <= t < (q + 1.0) * dr
    ensures q <= t / dr < q + 1.0
  {
    var x := t / dr;
    assert x * dr == t;
    if x < q {
      MulLess(x, q, dr);
    }
    if x >= q + 1.0 {
      MulLessEq(q + 1.0, x, dr);
    }
  }

  lemma MulLess(a: real, b: real, c: real)
    requires a < b && c > 0.0
    ensures a * c < b * c
  {
    assert (b - a) * c > 0.0;
  }

  lemma MulLessEq(a: real, b: real, c: real)
    requires a <= b && c > 0.0
    ensures a * c <= b * c
  {
    assert (b - a) * c >= 0.0;
  }

  lemma FloorUnique(x: real, q: int)
    requires q as real <= x < q as real + 1.0
    ensures Floor(x) == q
  {
  }

  /** t % d leaves a non-negative remainder whose floor is floor(t) % d. */
  lemma RemFloor(t: real, n: int, d: int)
    requires t >= 0.0 && d > 0 && n == Floor(t)
    ensures Rem(t, d as real) >= 0.0 && Floor(Rem(t, d as real)) == n % d
  {
    FloorDiv(t, n, d);
    var q := n / d;
    assert Trunc(t / d as real) == q;
    assert Rem(t, d as real) == t - (d * q) as real;
    assert n - d * q == n % d;
  }

  /** A field of exactly two digits. */
  predicate TwoDigits(d: string) {
    |d| == 2 && IsDigit(d[0]) && IsDigit(d[1])
  }

  function TwoDigitValue(d: string): int
    requires TwoDigits(d)
  {
    DigitValue(d[0]) * 10 + DigitValue(d[1])
  }

  /** A number below 100 padded to two digits: two digits that read back as the number. */
  lemma TwoDigitsOf(x: int)
    requires 0 <= x < 100
    ensures TwoDigits(TwoDigitText(x)) && TwoDigitValue(TwoDigitText(x)) == x
  {
    var s := NatToString(x);
    assert IntToString(x) == s;
    if x < 10 {
      assert s == [DigitChar(x)];
      assert TwoDigitText(x) == ['0', DigitChar(x)];
    } else {
      assert s == NatToString(x / 10) + [DigitChar(x % 10)];
      assert NatToString(x / 10) == [DigitChar(x / 10)];
    }
  }

  /** A non-negative integer prints as a leading field that reads back as itself. */
  lemma LeadingInt(x: int)
    requires x >= 0
    ensures Leading(IntToString(x)) && DigitsValue(IntToString(x)) == x
  {
    DigitsValueOfNatToString(x);
  }

  /** A trailing ":dd" splits off again. */
  lemma LastFieldOf(p: string, dd: string)
    requires TwoDigits(dd)
    ensures LastField(p + ":" + dd) == Some((p, TwoDigitValue(dd)))
  {
    var s := p + ":" + dd;
    assert s[..|s| - 3] == p;
    assert s[|s| - 3] == ':' && s[|s| - 2] == dd[0] && s[|s| - 1] == dd[1];
  }

  /** "m:ss" reads back as m minutes and ss seconds. */
  lemma ParseMinuteText(ms: string, ss: string, m: int, sec: int)
    requires Leading(ms) && TwoDigits(ss) && DigitsValue(ms) == m && TwoDigitValue(ss) == sec
    ensures ParseClock(ms + ":" + ss) == Some(m * 60 + sec)
  {
    LastFieldOf(ms, ss);
  }

  /** "h:mm:ss" reads back as h hours, mm minutes and ss seconds. */
  lemma ParseHourText(hs: string, mm: string, ss: string, h: int, m: int, sec: int)
    requires Leading(hs) && TwoDigits(mm) && TwoDigits(ss)
    requires DigitsValue(hs) == h && TwoDigitValue(mm) == m && TwoDigitValue(ss) == sec
    ensures ParseClock(hs + ":" + mm + ":" + ss) == Some((h * 60 + m) * 60 + sec)
  {
    var p := hs + ":" + mm;
    LastFieldOf(p, ss);
    LastFieldOf(hs, mm);
    ColonIsNoDigit(hs, mm);
    ParseHourClock(p + ":" + ss, p, TwoDigitValue(ss), hs, TwoDigitValue(mm));
  }

  lemma ColonIsNoDigit(a: string, b: string)
    ensures !AllDigits(a + ":" + b)
  {
    assert (a + ":" + b)[|a|] == ':';
  }

  lemma ParseHourClock(s: string, p: string, sec: int, hs: string, mm: int)
    requires LastField(s) == Some((p, sec)) && LastField(p) == Some((hs, mm))
    requires !AllDigits(p) && Leading(hs)
    ensures ParseClock(s) == Some((DigitsValue(hs) * 60 + mm) * 60 + sec)
  {
  }

  /** How the hour clock reads back. */
  lemma HourClockReadsBack(h: int, m: int, sec: int)
    requires h >= 0 && 0 <= m < 60 && 0 <= sec < 60
    ensures ParseClock(HourClockText(h, m, sec)) == Some((h * 60 + m) * 60 + sec)
  {
    var hs, mm, ss := IntToString(h), TwoDigitText(m), TwoDigitText(sec);
    TwoDigitsOf(m);
    TwoDigitsOf(sec);
    LeadingInt(h);
    ParseHourText(hs, mm, ss, h, m, sec);
  }

  /** How the minute clock reads back. */
  lemma MinuteClockReadsBack(m: int, sec: int)
    requires m >= 0 && 0 <= sec < 60
    ensures ParseClock(MinuteClockText(m, sec)) == Some(m * 60 + sec)
  {
    TwoDigitsOf(sec);
    LeadingInt(m);
    ParseMinuteText(IntToString(m), TwoDigitText(sec), m, sec);
  }

  /** Hours, minutes and seconds add back up to the total. */
  lemma ClockArithmetic(n: int)
    requires n >= 0
    ensures 0 <= (n % 3600) / 60 < 60 && 0 <= n % 60 < 60
    ensures ((n / 3600) * 60 + (n % 3600) / 60) * 60 + n % 60 == n
    ensures n / 3600 <= 0 ==> ((n % 3600) / 60) * 60 + n % 60 == n
  {
    var q, r := n / 3600, n % 3600;
    var m, sec := r / 60, r % 60;
    assert n == 3600 * q + r && 0 <= r < 3600;
    assert r == 60 * m + sec && 0 <= sec < 60;
    assert n == 60 * (60 * q + m) + sec;
    ModOfSixty(n, 60 * q + m, sec);
  }

  lemma ModOfSixty(n: int, k: int, r: int)
    requires n == 60 * k + r && 0 <= r < 60
    ensures n % 60 == r
  {
  }

  // ---------------------------------------------------------------------------
  // The element and the hook

  /** A snapshot of the element's fields. */
  datatype ElementState = ElementState(src: string, currentTime: real, duration: Num, paused: bool, volume: real, playbackRate: real)

  /** The part of an HTML audio element the hook reads and writes. */
  class MediaElement {
    var src: string
    var currentTime: real
    var duration: Num
    var paused: bool
    var volume: real
    var playbackRate: real

    /** A fresh element: no source, position 0, duration unknown (NaN), paused. */
    constructor ()
      ensures src == "" && currentTime == 0.0 && duration == NaN && paused
      ensures volume == 1.0 && playbackRate == 1.0
    {
      src, currentTime, duration, paused := "", 0.0, NaN, true;
      volume, playbackRate := 1.0, 1.0;
    }

    function State(): ElementState
      reads this
    {
      ElementState(src, currentTime, duration, paused, volume, playbackRate)
    }
  }

  /** A toast the hook asks for. */
  datatype Toast = ErrorToast(title: string, message: string) | WarningToast(title: string, message: string)

  const BufferingWarning: Toast := WarningToast("Buffering...", "Downloading audio content")

  /** The hook's state: the store, the element (absent before mount), its own refs and the toasts shown. */
  class AudioTransport {
    const store: Store
    const element: MediaElement?
    const audioSrc: string
    var hasInitialized: bool
    var handle: Option<nat>
    var armed: set<nat>
    var nextTimer: nat
    var toasts: seq<Toast>

    function TimerState(): Timers
      reads this
    {
      Timers(handle, armed, nextTimer)
    }

    predicate Valid()
      reads this, store
    {
      store.Valid() && TimersValid(TimerState())
    }

    constructor (store: Store, element: MediaElement?, audioSrc: string)
      requires store.Valid()
      ensures Valid() && this.store == store && this.element == element && this.audioSrc == audioSrc
      ensures !hasInitialized && TimerState() == Timers(None, {}, 0) && toasts == []
    {
      this.store, this.element, this.audioSrc := store, element, audioSrc;
      hasInitialized, handle, armed, nextTimer, toasts := false, None, {}, 0, [];
    }

    /** The source is assigned once, the first time the effect runs with an element. */
    method InitSource()
      requires Valid()
      modifies this, element
      ensures Valid() && TimerState() == old(TimerState()) && toasts == old(toasts)
      ensures element != null && !old(hasInitialized) ==> element.src == audioSrc && hasInitialized
      ensures element == null || old(hasInitialized) ==> hasInitialized == old(hasInitialized)
      ensures element != null ==>
        element.State() == if old(hasInitialized) then old(element.State()) else old(element.State()).(src := audioSrc)
    {
      if element != null && !hasInitialized {
        element.src := audioSrc;
        hasInitialized := true;
      }
    }

    /** `loadedmetadata`: accept a usable duration and put back a saved position lying inside it. */
    method HandleLoadedMetadata()
      requires Valid() && element != null
      modifies store, element
      ensures Valid()
      ensures UsableDuration(element.duration) ==> store.State() == old(store.State()).(duration := element.duration.r)
      ensures !UsableDuration(element.duration) ==> store.State() == old(store.State())
      ensures element.State() == old(element.State()).(currentTime :=
        if UsableDuration(element.duration) && ShouldRestore(store.currentTime, element.duration.r)
        then store.currentTime else old(element.currentTime))
    {
      var d := element.duration;
      if UsableDuration(d) {
        store.SetDuration(d.r);
        if ShouldRestore(store.currentTime, d.r) {
          element.currentTime := store.currentTime;
        }
      }
    }

    /** `durationchange` and `canplay`: accept a usable duration. */
    method HandleDurationChange()
      requires Valid() && element != null
      modifies store
      ensures Valid()
      ensures store.State() == if UsableDuration(element.duration)
        then old(store.State()).(duration := element.duration.r) else old(store.State())
    {
      if UsableDuration(element.duration) {
        store.SetDuration(element.duration.r);
      }
    }

    /** `timeupdate`: the store follows the element's position. */
    method HandleTimeUpdate()
      requires Valid() && element != null
      modifies store
      ensures Valid() && store.State() == old(store.State()).(currentTime := element.currentTime)
    {
      store.SetCurrentTime(element.currentTime);
    }

    /** `ended`: stop and rewind the stored position; nothing moves on to another chapter. */
    method HandleEnded()
      requires Valid() && element != null
      modifies store
      ensures Valid() && store.State() == old(store.State()).(isPlaying := false, currentTime := 0.0)
    {
      store.SetIsPlaying(false);
      store.SetCurrentTime(0.0);
    }

    /** `error`: stop, and show the error toast unless the report suppresses it. */
    method HandleError(error: Option<int>)
      requires Valid() && element != null
      modifies this, store
      ensures Valid() && store.State() == old(store.State()).(isPlaying := false)
      ensures TimerState() == old(TimerState()) && hasInitialized == old(hasInitialized)
      ensures var n := ErrorNotice(error);
        toasts == old(toasts) + (if n.showToast then [ErrorToast(n.title, n.message)] else [])
    {
      var n := ErrorNotice(error);
      store.SetIsPlaying(false);
      if n.showToast {
        toasts := toasts + [ErrorToast(n.title, n.message)];
      }
    }

    /** `stalled`: a new warning is scheduled BufferingDelayMs from now. */
    method HandleStalled() returns (id: nat)
      requires Valid() && element != null
      modifies this
      ensures Valid() && TimerState() == Stalled(old(TimerState())) && id == old(nextTimer)
      ensures toasts == old(toasts) && hasInitialized == old(hasInitialized)
    {
      id := nextTimer;
      nextTimer := nextTimer + 1;
      armed := armed + {id};
      handle := Some(id);
    }

    /** `playing` and `canplaythrough`: the held warning is cancelled. */
    method HandlePlaying()
      requires Valid() && element != null
      modifies this
      ensures Valid() && TimerState() == Cleared(old(TimerState()))
      ensures toasts == old(toasts) && hasInitialized == old(hasInitialized)
    {
      if handle.Some? {
        armed := armed - {handle.value};
        handle := None;
      }
    }

    /** A scheduled warning whose time has come shows its toast. */
    method TimerFires(id: nat)
      requires Valid() && id in armed
      modifies this
      ensures Valid() && armed == old(armed) - {id} && handle == old(handle) && nextTimer == old(nextTimer)
      ensures toasts == old(toasts) + [BufferingWarning] && hasInitialized == old(hasInitialized)
    {
      armed := armed - {id};
      toasts := toasts + [BufferingWarning];
    }

    /**
     * The listeners are detached and the held timer cleared; the next subscription
     * starts without a handle.
     */
    method Teardown()
      requires Valid()
      modifies this
      ensures Valid() && TimerState() == Cleared(old(TimerState()))
      ensures toasts == old(toasts) && hasInitialized == old(hasInitialized)
    {
      if handle.Some? {
        armed := armed - {handle.value};
      }
      handle := None;
    }

    /**
     * The play effect: a playing intent calls play(), whose rejection sets the intent
     * back to false; a paused intent pauses the element. `accepted` is the outcome
     * of the play() promise.
     */
    method PlayEffect(accepted: bool)
      requires Valid()
      modifies store, element
      ensures Valid()
      ensures element == null ==> store.State() == old(store.State())
      ensures element != null && !old(store.isPlaying) ==>
        element.State() == old(element.State()).(paused := true) && store.State() == old(store.State())
      ensures element != null && old(store.isPlaying) && accepted ==>
        element.State() == old(element.State()).(paused := false) && store.State() == old(store.State())
      ensures element != null && old(store.isPlaying) && !accepted ==>
        element.State() == old(element.State()) && store.State() == old(store.State()).(isPlaying := false)
    {
      if element == null {
        return;
      }
      if store.isPlaying {
        if accepted {
          element.paused := false;
        } else {
          store.SetIsPlaying(false);
        }
      } else {
        element.paused := true;
      }
    }

    /**
     * The volume effect copies the store's volume to the element. The element's
     * setter accepts only [0, 1] and throws an IndexSizeError otherwise, leaving
     * the element as it was; `thrown` reports it.
     */
    method SyncVolume() returns (thrown: bool)
      requires Valid()
      modifies element
      ensures thrown <==> element != null && !(0.0 <= store.volume <= 1.0)
      ensures element != null && !thrown ==> element.State() == old(element.State()).(volume := store.volume)
      ensures element != null && thrown ==> element.State() == old(element.State())
    {
      thrown := false;
      if element == null {
        return;
      }
      if !(0.0 <= store.volume <= 1.0) {
        thrown := true;
        return;
      }
      element.volume := store.volume;
    }

    /**
     * The playback-rate effect copies the store's rate to the element. Which rates
     * the browser supports is its own choice, given here as `supported`; an
     * unsupported rate throws a NotSupportedError and leaves the element as it was.
     */
    method SyncPlaybackRate(supported: bool) returns (thrown: bool)
      requires Valid()
      modifies element
      ensures thrown <==> element != null && !supported
      ensures element != null && supported ==>
        element.State() == old(element.State()).(playbackRate := store.playbackRate)
      ensures element != null && !supported ==> element.State() == old(element.State())
    {
      thrown := false;
      if element == null {
        return;
      }
      if !supported {
        thrown := true;
        return;
      }
      element.playbackRate := store.playbackRate;
    }

    /** togglePlayPause: the playing intent is negated. */
    method TogglePlayPause()
      requires Valid()
      modifies store
      ensures Valid() && store.State() == old(store.State()).(isPlaying := !old(store.isPlaying))
    {
      store.SetIsPlaying(!store.isPlaying);
    }

    /**
     * seek: the element and the store both move to exactly `time`, unclamped. Without
     * an element nothing happens. A non-finite time makes the element throw a
     * TypeError before the store is written; `thrown` reports it.
     */
    method Seek(time: Num) returns (thrown: bool)
      requires Valid()
      modifies store, element
      ensures Valid()
      ensures thrown <==> element != null && !time.Finite?
      ensures element != null && time.Finite? ==>
        element.State() == old(element.State()).(currentTime := time.r) && store.State() == old(store.State()).(currentTime := time.r)
      ensures element == null || !time.Finite? ==> store.State() == old(store.State())
      ensures element != null && !time.Finite? ==> element.State() == old(element.State())
    {
      thrown := false;
      if element == null {
        return;
      }
      if !time.Finite? {
        thrown := true;
        return;
      }
      element.currentTime := time.r;
      store.SetCurrentTime(time.r);
    }

    /** skipForward: seek to the position plus `seconds`, capped by the duration. */
    method SkipForward(seconds: real) returns (thrown: bool)
      requires Valid()
      modifies store, element
      ensures Valid()
      ensures element != null ==> var t := SkipForwardTarget(old(element.currentTime), seconds, old(element.duration));
        && (thrown <==> !t.Finite?)
        && (t.Finite? ==> element.State() == old(element.State()).(currentTime := t.r) && store.State() == old(store.State()).(currentTime := t.r))
        && (!t.Finite? ==> element.State() == old(element.State()) && store.State() == old(store.State()))
      ensures element == null ==> !thrown && store.State() == old(store.State())
    {
      thrown := false;
      if element == null {
        return;
      }
      var t := SkipForwardTarget(element.currentTime, seconds, element.duration);
      thrown := Seek(t);
    }

    /** skipBackward: seek to the position minus `seconds`, never below 0. */
    method SkipBackward(seconds: real) returns (thrown: bool)
      requires Valid()
      modifies store, element
      ensures Valid() && !thrown
      ensures element != null ==> var t := SkipBackwardTarget(old(element.currentTime), seconds);
        element.State() == old(element.State()).(currentTime := t.r) && store.State() == old(store.State()).(currentTime := t.r)
      ensures element == null ==> store.State() == old(store.State())
    {
      thrown := false;
      if element == null {
        return;
      }
      var t := SkipBackwardTarget(element.currentTime, seconds);
      thrown := Seek(t);
    }
  }

  /** The default step of both skips. */
  const DefaultSkipSeconds: real := 15.0
}

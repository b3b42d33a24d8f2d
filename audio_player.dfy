/** The audio player (`AudioPlayer` component): play, mute and volume state
    kept beside the `<audio>` element it drives, and the clock text. */
module Player {
  import opened Common

  // ---------------------------------------------------------------------
  // Clock text: `formatTime`
  // ---------------------------------------------------------------------

  predicate IsDigit(c: char)
  {
    '0' <= c <= '9'
  }

  predicate AllDigits(s: string)
  {
    forall i :: 0 <= i < |s| ==> IsDigit(s[i])
  }

  function DigitChar(d: nat): (c: char)
    requires d < 10
    ensures IsDigit(c) && c as int == '0' as int + d
  {
    "0123456789"[d]
  }

  function DigitValue(c: char): (d: nat)
    requires IsDigit(c)
    ensures d < 10
  {
    (c as int - '0' as int) as nat
  }

  /** `n.toString()` for a whole number: its decimal digits, no leading zero. */
  function Decimal(n: nat): (s: string)
    ensures |s| >= 1 && AllDigits(s)
    ensures n < 10 <==> |s| == 1
    ensures 10 <= n < 100 ==> |s| == 2
    ensures n >= 10 ==> s[0] != '0'
    decreases n
  {
    if n < 10 then [DigitChar(n)] else Decimal(n / 10) + [DigitChar(n % 10)]
  }

  /** The number a string of decimal digits denotes. */
  function DecimalValue(s: string): nat
    requires AllDigits(s)
    decreases |s|
  {
    if s == [] then 0 else DecimalValue(s[..|s| - 1]) * 10 + DigitValue(s[|s| - 1])
  }

  lemma {:induction false} DecimalRoundTrip(n: nat)
    ensures DecimalValue(Decimal(n)) == n
    decreases n
  {
    if n >= 10 {
      DecimalRoundTrip(n / 10);
      var s := Decimal(n);
      assert s[..|s| - 1] == Decimal(n / 10);
    }
  }

  /** `s.padStart(2, "0")`. */
  function PadStart2(s: string): (r: string)
    ensures |s| <= 2 ==> |r| == 2
    ensures |s| >= 2 ==> r == s
  {
    if |s| == 0 then "00" else if |s| == 1 then "0" + s else s
  }

  /** A leading zero does not change the value. */
  lemma PadStart2Value(s: string)
    requires AllDigits(s) && |s| >= 1
    ensures AllDigits(PadStart2(s)) && DecimalValue(PadStart2(s)) == DecimalValue(s)
  {
    if |s| == 1 {
      var r := PadStart2(s);
      assert r[..1] == "0";
      assert r[..1][..0] == [];
    }
  }

  /** The whole minutes and the remaining whole seconds of a playback time:
      `Math.floor(t / 60)` and `Math.floor(t % 60)`. */
  function ClockFields(t: real): (f: (nat, nat))
    requires t >= 0.0
    ensures f.1 < 60
    ensures f.0 * 60 + f.1 == t.Floor
  {
    var minutes := (t / 60.0).Floor;
    var rest := t - 60.0 * minutes as real;   // `t % 60` for t >= 0
    assert 0.0 <= rest < 60.0;
    (minutes, rest.Floor)
  }

  /** `formatTime(t)`: minutes, a colon, and the seconds padded to two digits. */
  function FormatTime(t: real): (text: string)
    requires t >= 0.0
    ensures |text| >= 4 && text[|text| - 3] == ':'
    ensures AllDigits(text[|text| - 2..]) && DecimalValue(text[|text| - 2..]) < 60
    ensures text[..|text| - 3] == Decimal(ClockFields(t).0)
  {
    var (minutes, seconds) := ClockFields(t);
    var text := Decimal(minutes) + ":" + PadStart2(Decimal(seconds));
    PadStart2Value(Decimal(seconds));
    DecimalRoundTrip(seconds);
    assert text[|text| - 2..] == PadStart2(Decimal(seconds));
    assert text[..|text| - 3] == Decimal(minutes);
    text
  }

  /** Reads "m:ss" back as a number of seconds. */
  function ParseTime(text: string): Option<nat>
  {
    if |text| >= 4 && text[|text| - 3] == ':' && AllDigits(text[..|text| - 3]) && AllDigits(text[|text| - 2..])
    then Some(DecimalValue(text[..|text| - 3]) * 60 + DecimalValue(text[|text| - 2..]))
    else None
  }

  /** The clock text is unambiguous: it gives back the whole seconds of the
      time, losing only the fraction. */
  lemma {:induction false} FormatTimeRoundTrip(t: real)
    requires t >= 0.0
    ensures ParseTime(FormatTime(t)) == Some(t.Floor)
  {
    var (minutes, seconds) := ClockFields(t);
    var m := Decimal(minutes);
    var text := FormatTime(t);
    assert text == m + ":" + PadStart2(Decimal(seconds));
    assert text[..|text| - 3] == m;
    assert text[|text| - 2..] == PadStart2(Decimal(seconds));
    DecimalRoundTrip(minutes);
    DecimalRoundTrip(seconds);
    PadStart2Value(Decimal(seconds));
  }

  // ---------------------------------------------------------------------
  // Player state
  // ---------------------------------------------------------------------

  /** `volume || 1`: the level the element gets back on unmute. */
  function UnmuteLevel(volume: real): (level: real)
    ensures level != 0.0
    ensures volume != 0.0 ==> level == volume
    ensures volume == 0.0 ==> level == 1.0
  {
    if volume != 0.0 then volume else 1.0
  }

  /** The level the element plays at, as the player's fields determine it. */
  function ElementVolume(isMuted: bool, volume: real): real
  {
    if isMuted then 0.0 else UnmuteLevel(volume)
  }

  /** The part of the `<audio>` element the player drives. */
  class MediaElement {
    var volume: real
    var currentTime: real
    var paused: bool

    /** A fresh element: full volume, at the start, paused. */
    constructor ()
      ensures volume == 1.0 && currentTime == 0.0 && paused
    {
      volume, currentTime, paused := 1.0, 0.0, true;
    }
  }

  class AudioPlayer {
    const src: string
    const title: string
    var isActive: bool
    var isPlaying: bool
    var currentTime: real
    var duration: real
    var volume: real
    var isMuted: bool
    const audio: MediaElement

    /** The element plays exactly while `isPlaying`, and its volume is the one
        `isMuted` and `volume` determine. */
    ghost predicate Valid()
      reads this, audio
    {
      && audio.paused == !isPlaying
      && audio.volume == ElementVolume(isMuted, volume)
      && 0.0 <= volume <= 1.0
    }

    /** The volume slider's position (`isMuted ? 0 : volume`): at 0 exactly
        when muted or at zero volume, and within the slider's range. */
    function DisplayedVolume(): (v: real)
      reads this
      ensures v == 0.0 <==> isMuted || volume == 0.0
      ensures 0.0 <= volume <= 1.0 ==> 0.0 <= v <= 1.0
    {
      if isMuted then 0.0 else volume
    }

    /** Mounting: not playing, at 0 of 0 seconds, full volume, not muted. */
    constructor (src: string, title: string, isActive: bool)
      ensures Valid() && fresh(audio) && audio.currentTime == 0.0
      ensures this.src == src && this.title == title && this.isActive == isActive
      ensures !isPlaying && currentTime == 0.0 && duration == 0.0 && volume == 1.0 && !isMuted
    {
      this.src, this.title, this.isActive := src, title, isActive;
      isPlaying, currentTime, duration, volume, isMuted := false, 0.0, 0.0, 1.0, false;
      audio := new MediaElement();
    }

    /** `togglePlay()`: without a source (`!src`) nothing happens; otherwise pause when
        playing, or call `onPlay` and play when paused. `onPlay` tells whether
        the `onPlay` callback ran. */
    method TogglePlay() returns (onPlay: bool)
      requires Valid()
      modifies this`isPlaying, audio`paused
      ensures Valid()
      ensures onPlay <==> src != "" && !old(isPlaying)
      ensures isPlaying == (if src != "" then !old(isPlaying) else old(isPlaying))
    {
      onPlay := false;
      if src == "" {
        return;
      }
      if isPlaying {
        audio.paused := true;
      } else {
        onPlay := true;
        audio.paused := false;
      }
      isPlaying := !isPlaying;
    }

    /** A new `isActive` prop and the effect that depends on it: a player that
        stops being the active one pauses if it was playing. */
    method SetActive(active: bool)
      requires Valid()
      modifies this`isActive, this`isPlaying, audio`paused
      ensures Valid() && isActive == active
      ensures isPlaying == (if old(isActive) && !active then false else old(isPlaying))
    {
      var changed := active != isActive;
      isActive := active;
      if changed && !isActive && isPlaying {
        audio.paused := true;
        isPlaying := false;
      }
    }

    /** The `ended` event: the element has stopped at the end, and the handler
        clears `isPlaying`. */
    method OnEnded()
      requires Valid()
      modifies this`isPlaying, audio`paused
      ensures Valid() && !isPlaying
    {
      audio.paused := true;
      isPlaying := false;
    }

    /** The `timeupdate` event: the clock follows the element. */
    method OnTimeUpdate()
      modifies this`currentTime
      ensures currentTime == audio.currentTime
    {
      currentTime := audio.currentTime;
    }

    /** The `loadedmetadata` event with the element's duration. */
    method OnLoadedMetadata(elementDuration: real)
      modifies this`duration
      ensures duration == elementDuration
    {
      duration := elementDuration;
    }

    /** `handleSeek([value])`: the element and the clock move to `value`. */
    method HandleSeek(value: real)
      modifies this`currentTime, audio`currentTime
      ensures currentTime == value && audio.currentTime == value
    {
      audio.currentTime := value;
      currentTime := value;
    }

    /** `handleVolumeChange([value])` from the slider (0 to 1): the element and
        `volume` take the value, and the player is muted exactly at 0. */
    method HandleVolumeChange(value: real)
      requires Valid() && 0.0 <= value <= 1.0
      modifies this`volume, this`isMuted, audio`volume
      ensures Valid()
      ensures audio.volume == value && volume == value && (isMuted <==> value == 0.0)
    {
      audio.volume := value;
      volume := value;
      isMuted := value == 0.0;
    }

    /** `toggleMute()`: muting silences the element but keeps `volume`;
        unmuting restores `volume`, or 1 when it is 0. */
    method ToggleMute()
      requires Valid()
      modifies this`isMuted, audio`volume
      ensures Valid()
      ensures isMuted == !old(isMuted) && volume == old(volume)
      ensures audio.volume == (if old(isMuted) then UnmuteLevel(volume) else 0.0)
    {
      if isMuted {
        audio.volume := UnmuteLevel(volume);
        isMuted := false;
      } else {
        audio.volume := 0.0;
        isMuted := true;
      }
    }
  }

  /** The slider shows the level the element plays at, except after unmuting
      from a zero level: the element then plays at 1 while the slider shows 0. */
  lemma SliderShowsElementVolume(p: AudioPlayer)
    requires p.Valid()
    ensures p.DisplayedVolume() == p.audio.volume <==> p.isMuted || p.volume != 0.0
    ensures !p.isMuted && p.volume == 0.0 ==> p.audio.volume == 1.0 && p.DisplayedVolume() == 0.0
  {
  }
}

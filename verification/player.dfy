/**
 * The audio player of the session view (SessionDetail.jsx): the element's
 * playback position, the time shown, the duration state and the play flag,
 * with one pure step per handler.
 */
module Player {
  import opened Wrappers
  import opened Text
  import opened Clock

  /** A time as the media element reports it: seconds, NaN or +Infinity. */
  datatype MediaTime = NotANumber | Infinite | Finite(secs: real)

  datatype Player = Player(
    hasAudio: bool,        // audioRef.current: the <audio> element exists only when the session has an audio file
    position: real,        // audioRef.current.currentTime
    currentTime: real,     // the currentTime state, refreshed by timeupdate and by a seek click
    duration: MediaTime,   // the duration state: 0 until loadedmetadata
    isPlaying: bool)

  /** The player as first rendered. */
  function Initial(hasAudio: bool): Player {
    Player(hasAudio, 0.0, 0.0, Finite(0.0), false)
  }

  datatype Effect =
    | PlayAudio | PauseAudio   // audio.play() / audio.pause()
    | ThrewTypeError           // assigning a non-finite currentTime throws; the handler stops there

  datatype Transition = Transition(next: Player, effects: seq<Effect>)

  // ---------------------------------------------------------------------------
  // JavaScript number helpers on media times
  // ---------------------------------------------------------------------------

  /** `Math.min(t, d)` for a finite `t`. */
  function MinWith(t: real, d: MediaTime): MediaTime {
    match d
    case NotANumber => NotANumber
    case Infinite => Finite(t)
    case Finite(x) => Finite(if t <= x then t else x)
  }

  /** `r * d` for a finite `r`. */
  function Scale(r: real, d: MediaTime): MediaTime {
    match d
    case NotANumber => NotANumber
    case Infinite => if r > 0.0 then Infinite else NotANumber
    case Finite(x) => Finite(r * x)
  }

  /** Truncation toward zero. */
  function Trunc(y: real): int {
    if y >= 0.0 then y.Floor else -((-y).Floor)
  }

  /** JavaScript's `x % 60` on a finite number: the remainder takes the sign of `x`. */
  function Rem60(x: real): real {
    x - 60.0 * (Trunc(x / 60.0) as real)
  }

  /**
   * `formatTime`: NaN shows `0:00`; otherwise `Math.floor(s / 60)` and a
   * padded `Math.floor(s % 60)`, which for an infinite duration reads
   * `Infinity:NaN`.
   */
  function FormatTime(t: MediaTime): (r: string)
    ensures t.NotANumber? ==> r == "0:00"
    ensures t.Infinite? ==> r == "Infinity:NaN"
    ensures t.Finite? ==> ':' in r
  {
    match t
    case NotANumber => "0:00"
    case Infinite =>
      assert PadStart("NaN", 2, '0') == "NaN";
      Render("Infinity", "NaN")
    case Finite(x) => Render(IntToDecimal((x / 60.0).Floor), IntToDecimal(Rem60(x).Floor))
  }

  /** `y.Floor` is the integer `k` with `k <= y < k + 1`. */
  lemma FloorIs(y: real, k: int)
    requires k as real <= y < k as real + 1.0
    ensures y.Floor == k
  {
  }

  /** For a non-negative time, the whole minutes and the whole seconds past them come from its whole seconds. */
  lemma WholeParts(x: real)
    requires 0.0 <= x
    ensures (x / 60.0).Floor == x.Floor / 60
    ensures Rem60(x).Floor == x.Floor % 60
  {
    var n := x.Floor;
    var q := n / 60;
    var r := n % 60;
    assert n as real <= x < n as real + 1.0;
    assert n == 60 * q + r && 0 <= r < 60;
    assert (q as real) * 60.0 + r as real <= x < (q as real) * 60.0 + r as real + 1.0;
    FloorIs(x / 60.0, q);
    assert Trunc(x / 60.0) == q;
    assert Rem60(x) == x - 60.0 * (q as real);
    FloorIs(Rem60(x), r);
  }

  /**
   * For a non-negative time the display is the `m:ss` of its whole seconds:
   * minutes `floor(s) / 60` and two-digit seconds `floor(s) % 60`.
   */
  lemma {:induction false} FormatTimeWholeSeconds(x: real)
    requires 0.0 <= x
    ensures FormatTime(Finite(x)) == FormatClock(x.Floor)
    ensures ParseClock(FormatTime(Finite(x))) == Some((x.Floor / 60, x.Floor % 60))
  {
    var n := x.Floor;
    assert 0 <= n;
    WholeParts(x);
    var mins, secs := n / 60, n % 60;
    assert FormatTime(Finite(x)) == Render(IntToDecimal(mins), IntToDecimal(secs));
    assert IntToDecimal(mins) == NatToDecimal(mins) && IntToDecimal(secs) == NatToDecimal(secs);
    ClockRoundTrip(n);
  }

  // ---------------------------------------------------------------------------
  // handlers
  // ---------------------------------------------------------------------------

  /** Assigning `audio.currentTime`: a non-finite value throws a TypeError and nothing changes. */
  function SetPosition(p: Player, t: MediaTime, showIt: bool): Transition {
    match t
    case Finite(x) => Transition(p.(position := x, currentTime := if showIt then x else p.currentTime), [])
    case _ => Transition(p, [ThrewTypeError])
  }

  /** `handlePlayPause`: with an element, flips `isPlaying` and plays or pauses it. */
  function PlayPause(p: Player): (t: Transition)
    ensures p.hasAudio ==> t.next == p.(isPlaying := !p.isPlaying)
    ensures p.hasAudio ==> t.effects == [if p.isPlaying then PauseAudio else PlayAudio]
    ensures !p.hasAudio ==> t == Transition(p, [])
  {
    if p.hasAudio then
      Transition(p.(isPlaying := !p.isPlaying), [if p.isPlaying then PauseAudio else PlayAudio])
    else Transition(p, [])
  }

  /** `handleTimeUpdate`: the shown time catches up with the element; nothing else changes. */
  function TimeUpdate(p: Player): (r: Player)
    ensures p.hasAudio ==> r.currentTime == r.position
    ensures r.hasAudio == p.hasAudio && r.position == p.position && r.duration == p.duration && r.isPlaying == p.isPlaying
    ensures !p.hasAudio ==> r == p
  {
    if p.hasAudio then p.(currentTime := p.position) else p
  }

  /** `handleLoadedMetadata`: the duration state takes the element's duration; nothing else changes. */
  function LoadedMetadata(p: Player, d: MediaTime): (r: Player)
    ensures p.hasAudio ==> r.duration == d
    ensures r.hasAudio == p.hasAudio && r.position == p.position && r.currentTime == p.currentTime && r.isPlaying == p.isPlaying
    ensures !p.hasAudio ==> r == p
  {
    if p.hasAudio then p.(duration := d) else p
  }

  /**
   * `handleSeek`: a click at fraction `ratio` of the bar seeks to
   * `ratio * duration` and shows that time; a NaN duration makes the
   * assignment throw before the shown time is set.
   */
  function SeekClick(p: Player, ratio: real): (t: Transition)
    ensures p.hasAudio && p.duration.Finite? ==>
              t.effects == [] && t.next.position == ratio * p.duration.secs && t.next.currentTime == t.next.position
    ensures p.hasAudio && p.duration.NotANumber? ==> t == Transition(p, [ThrewTypeError])
    ensures !p.hasAudio ==> t == Transition(p, [])
    ensures t.next.isPlaying == p.isPlaying && t.next.duration == p.duration
  {
    if p.hasAudio then SetPosition(p, Scale(ratio, p.duration), true) else Transition(p, [])
  }

  /** A click inside the bar seeks inside the recording. */
  lemma SeekWithinBounds(p: Player, ratio: real)
    requires p.hasAudio && p.duration.Finite? && 0.0 <= p.duration.secs
    requires 0.0 <= ratio <= 1.0
    ensures 0.0 <= SeekClick(p, ratio).next.position <= p.duration.secs
  {
    var d := p.duration.secs;
    assert ratio * d <= 1.0 * d by {
      assert (1.0 - ratio) * d >= 0.0;
    }
  }

  /** `skipForward`: `Math.min(currentTime + 10, duration)`. */
  function SkipForward(p: Player): (t: Transition)
    ensures p.hasAudio && p.duration.Finite? ==>
              t.next == p.(position := if p.position + 10.0 <= p.duration.secs then p.position + 10.0 else p.duration.secs)
    ensures p.hasAudio && p.duration.Finite? ==> t.next.position <= p.duration.secs && t.effects == []
    ensures p.hasAudio && p.duration.Infinite? ==> t.next == p.(position := p.position + 10.0)
    ensures p.hasAudio && p.duration.NotANumber? ==> t == Transition(p, [ThrewTypeError])
    ensures !p.hasAudio ==> t == Transition(p, [])
  {
    if p.hasAudio then SetPosition(p, MinWith(p.position + 10.0, p.duration), false) else Transition(p, [])
  }

  /** `skipBackward`: `Math.max(currentTime - 10, 0)`. */
  function SkipBackward(p: Player): (t: Transition)
    ensures p.hasAudio ==> t.next == p.(position := if p.position - 10.0 >= 0.0 then p.position - 10.0 else 0.0)
    ensures t.next.position >= 0.0 || t.next == p
    ensures t.effects == []
    ensures !p.hasAudio ==> t.next == p
  {
    if p.hasAudio then
      SetPosition(p, Finite(if p.position - 10.0 >= 0.0 then p.position - 10.0 else 0.0), false)
    else Transition(p, [])
  }

  /** Skipping ahead from five seconds before the end lands exactly on the end. */
  lemma SkipForwardNearEnd(p: Player)
    requires p.hasAudio && p.duration.Finite? && p.position == p.duration.secs - 5.0
    ensures SkipForward(p).next.position == p.duration.secs
  {
  }

  /** From a position inside the recording, both skips land inside it. */
  lemma SkipWithinBounds(p: Player)
    requires p.hasAudio && p.duration.Finite? && 0.0 <= p.position <= p.duration.secs
    ensures 0.0 <= SkipForward(p).next.position <= p.duration.secs
    ensures 0.0 <= SkipBackward(p).next.position <= p.duration.secs
  {
  }

  /** Two play/pause clicks restore the state, having played and paused the element once each. */
  lemma PlayPauseTwice(p: Player)
    requires p.hasAudio
    ensures var t1 := PlayPause(p);
            var t2 := PlayPause(t1.next);
            && t2.next == p
            && t1.effects + t2.effects == (if p.isPlaying then [PauseAudio, PlayAudio] else [PlayAudio, PauseAudio])
  {
  }
}

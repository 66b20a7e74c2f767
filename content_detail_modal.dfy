/**
 * The modal that opens an item of the day: an audio player (play/pause, a
 * position slider with the elapsed and total times, speed buttons and a
 * volume slider) in audio mode, the article text otherwise. The player's
 * state lives in the modal.
 */
module ContentDetailModal {
  import opened Wrappers
  import opened Strings
  import opened Schema

  /** The length of the item in seconds: its listening time in audio mode, its reading time otherwise. */
  function Duration(content: ContentItem, isAudioMode: bool): (d: int)
    ensures d % 60 == 0
    ensures d / 60 == if isAudioMode then content.listeningTime else content.readingTime
  {
    if isAudioMode then content.listeningTime * 60 else content.readingTime * 60
  }

  /** JavaScript's `a % 60`: the remainder takes the sign of `a`. */
  function Rem60(a: int): (r: int)
    ensures -60 < r < 60
    ensures (a - r) % 60 == 0
    ensures a >= 0 ==> r == a % 60
    ensures a < 0 ==> r <= 0
  {
    if a >= 0 then a % 60 else -((-a) % 60)
  }

  /** A number below 60 as two digits, with a leading zero below 10. */
  function TwoDigits(n: nat): (r: string)
    requires n < 60
    ensures |r| == 2 && AllDigits(r) && DigitsValue(r) == n
  {
    var d := NatToString(n);
    NatToStringRoundTrip(n);
    if n < 10 then
      assert d == [DigitChar(n)];
      var r := PadStart(d, 2, '0');
      assert r == ['0', DigitChar(n)];
      assert r[..1] == ['0'];
      r
    else
      assert NatToString(n / 10) == [DigitChar(n / 10)];
      assert |d| == 2;
      PadStart(d, 2, '0')
  }

  /**
   * `formatTime`: whole minutes (`Math.floor`, which for the divisor 60 is
   * Dafny's division), a colon, and the seconds (`%`, which keeps the sign)
   * padded to two characters with '0'.
   */
  function FormatTime(seconds: int): (r: string)
    ensures seconds >= 0 ==> r == IntToString(seconds / 60) + (":" + TwoDigits(seconds % 60))
  {
    var mins := seconds / 60;
    var secs := Rem60(seconds);
    IntToString(mins) + (":" + PadStart(IntToString(secs), 2, '0'))
  }

  /** Reads "m:ss" back into seconds. */
  function ParseTime(s: string): Option<int> {
    var (ok, m, k) := ReadInt(s);
    if !ok || m < 0 then None else ParseSeconds(m, s[k..])
  }

  /** The ":ss" after the minutes: two digits making less than 60. */
  function ParseSeconds(mins: int, t: string): Option<int> {
    if |t| == 3 && t[0] == ':' && AllDigits(t[1..]) && DigitsValue(t[1..]) < 60
    then Some(mins * 60 + DigitsValue(t[1..]))
    else None
  }

  /**
   * Every position the slider can take (from 0 up) is shown in a form
   * that gives it back: minutes·60 + seconds, the seconds always two
   * digits.
   */
  lemma TimeRoundTrip(seconds: int)
    requires seconds >= 0
    ensures ParseTime(FormatTime(seconds)) == Some(seconds)
  {
    var mins, secs := seconds / 60, seconds % 60;
    assert seconds == mins * 60 + secs;
    var d := TwoDigits(secs);
    MinutesAndSecondsReadBack(mins, d);
  }

  /** "m:ss" built from whole minutes and two digits below 60 reads back as their total. */
  lemma MinutesAndSecondsReadBack(mins: nat, d: string)
    requires |d| == 2 && AllDigits(d) && DigitsValue(d) < 60
    ensures ParseTime(IntToString(mins) + (":" + d)) == Some(mins * 60 + DigitsValue(d))
  {
    MinutesReadBack(mins, ":" + d);
    SecondsReadBack(mins, d);
  }

  lemma MinutesReadBack(mins: nat, tail: string)
    requires tail != [] && tail[0] == ':'
    ensures ParseTime(IntToString(mins) + tail) == ParseSeconds(mins, tail)
  {
    var s := IntToString(mins) + tail;
    ReadIntOfIntToString(mins, tail);
    assert s[|IntToString(mins)|..] == tail;
  }

  lemma SecondsReadBack(mins: int, d: string)
    requires |d| == 2 && AllDigits(d) && DigitsValue(d) < 60
    ensures ParseSeconds(mins, ":" + d) == Some(mins * 60 + DigitsValue(d))
  {
    var t := ":" + d;
    assert t[1..] == d;
  }

  /** The total time under the slider is the item's minutes and ":00". */
  lemma TotalTimeIsWholeMinutes(content: ContentItem, isAudioMode: bool)
    ensures FormatTime(Duration(content, isAudioMode))
            == IntToString(if isAudioMode then content.listeningTime else content.readingTime) + ":00"
  {
    var minutes := if isAudioMode then content.listeningTime else content.readingTime;
    var d := Duration(content, isAudioMode);
    assert d / 60 == minutes;
    assert Rem60(d) == 0;
    assert IntToString(0) == "0";
  }

  /** The speeds offered by the speed buttons. */
  const Speeds: seq<real> := [0.5, 1.0, 1.25, 1.5, 2.0]

  /** A speed button is filled when its speed is the current one; once a listed speed is picked, exactly that button is. */
  lemma OneSpeedHighlighted(speed: real, i: nat)
    requires i < |Speeds| && speed == Speeds[i]
    ensures forall j | 0 <= j < |Speeds| :: Speeds[j] == speed <==> j == i
  {
  }

  /** What the player shows. */
  datatype Panel =
    | PlayerPanel(showsPause: bool, elapsed: string, total: string)
    | ReadingPanel

  datatype View = View(title: string, panel: Panel)

  /**
   * The modal's output: nothing without an item; with one, its title and
   * the player in audio mode (the pause icon while playing, the current
   * position and the total time) or the reading view otherwise.
   */
  function Render(content: Option<ContentItem>, isAudioMode: bool, isPlaying: bool, currentTime: int): (v: Option<View>)
    ensures v.None? <==> content.None?
    ensures v.Some? ==> v.value.title == content.value.title && (v.value.panel.PlayerPanel? <==> isAudioMode)
    ensures v.Some? && isAudioMode ==>
              v.value.panel.showsPause == isPlaying
              && v.value.panel.total == IntToString(content.value.listeningTime) + ":00"
              && (currentTime >= 0 ==> ParseTime(v.value.panel.elapsed) == Some(currentTime))
  {
    match content
    case None => None
    case Some(c) =>
      if isAudioMode then
        TotalTimeIsWholeMinutes(c, true);
        assert currentTime >= 0 ==> ParseTime(FormatTime(currentTime)) == Some(currentTime) by {
          if currentTime >= 0 {
            TimeRoundTrip(currentTime);
          }
        }
        Some(View(c.title, PlayerPanel(isPlaying, FormatTime(currentTime), FormatTime(Duration(c, true)))))
      else Some(View(c.title, ReadingPanel))
  }

  /** The player state the modal keeps. */
  class DetailModal {
    var isPlaying: bool
    var currentTime: int
    var volume: int
    var playbackSpeed: real

    constructor ()
      ensures !isPlaying && currentTime == 0 && volume == 75 && playbackSpeed == 1.0
    {
      isPlaying := false;
      currentTime := 0;
      volume := 75;
      playbackSpeed := 1.0;
    }

    /** What the modal shows for an item and a mode. */
    function Shown(content: Option<ContentItem>, isAudioMode: bool): Option<View>
      reads this
    {
      Render(content, isAudioMode, isPlaying, currentTime)
    }

    /** `handlePlayPause`: flips playing, so two presses restore it. */
    method HandlePlayPause()
      modifies this
      ensures isPlaying == !old(isPlaying)
      ensures currentTime == old(currentTime) && volume == old(volume) && playbackSpeed == old(playbackSpeed)
    {
      isPlaying := !isPlaying;
    }

    /** `handleSeek`: the position becomes the slider value, which the elapsed time then shows. */
    method HandleSeek(value: int)
      modifies this
      ensures currentTime == value
      ensures isPlaying == old(isPlaying) && volume == old(volume) && playbackSpeed == old(playbackSpeed)
    {
      currentTime := value;
    }

    /** `handleSpeedChange`. */
    method HandleSpeedChange(speed: real)
      modifies this
      ensures playbackSpeed == speed
      ensures isPlaying == old(isPlaying) && currentTime == old(currentTime) && volume == old(volume)
    {
      playbackSpeed := speed;
    }

    /** The volume slider. */
    method SetVolume(value: int)
      modifies this
      ensures volume == value
      ensures isPlaying == old(isPlaying) && currentTime == old(currentTime) && playbackSpeed == old(playbackSpeed)
    {
      volume := value;
    }
  }
}

/**
 * The stand-alone countdown screen of one meditation: a once-per-second
 * tick counts the time left down while the timer is active, the ring shows
 * the share of time still left, and the time is printed as "MM:SS".
 *
 * The timer publisher is left out; each of its firings is a call of
 * `Tick`. The completion sound is not played; `Tick` reports whether it
 * would be.
 */
module TimerView {
  import opened Models
  import Player

  // "MM:SS" formatting

  /** The ASCII digit for `n`. */
  function Digit(n: nat): (c: char)
    requires n < 10
    ensures '0' <= c <= '9'
  {
    (48 + n) as char
  }

  /** The value of an ASCII digit. */
  function DigitValue(c: char): (n: nat)
    requires '0' <= c <= '9'
    ensures n < 10
  {
    c as int - 48
  }

  /** `%02i` for a number below 100: two digits, with a leading zero when needed. */
  function Pad2(n: nat): (s: string)
    requires n < 100
    ensures |s| == 2 && '0' <= s[0] <= '9' && '0' <= s[1] <= '9'
    ensures 10 * DigitValue(s[0]) + DigitValue(s[1]) == n
  {
    [Digit(n / 10), Digit(n % 10)]
  }

  /** `timeString`: minutes within the hour and seconds within the minute, as "MM:SS". */
  function TimeString(t: nat): (s: string)
    ensures |s| == 5 && s[2] == ':'
    ensures forall i :: 0 <= i < 5 && i != 2 ==> '0' <= s[i] <= '9'
    ensures 10 * DigitValue(s[0]) + DigitValue(s[1]) == t / 60 % 60
    ensures 10 * DigitValue(s[3]) + DigitValue(s[4]) == t % 60
  {
    Pad2(t / 60 % 60) + ":" + Pad2(t % 60)
  }

  /** A time within the hour is its minutes and seconds. */
  lemma WithinHour(t: nat)
    ensures t % 3600 == 60 * (t / 60 % 60) + t % 60
  {
    var q, s := t / 60, t % 60;
    var p, m := q / 60, q % 60;
    assert t == 3600 * p + (60 * m + s);
    assert 0 <= 60 * m + s < 3600;
  }

  /** Minutes and seconds below sixty are determined by the seconds they add up to. */
  lemma MinutesSecondsUnique(m1: nat, s1: nat, m2: nat, s2: nat)
    requires m1 < 60 && s1 < 60 && m2 < 60 && s2 < 60
    requires 60 * m1 + s1 == 60 * m2 + s2
    ensures m1 == m2 && s1 == s2
  {
  }

  /**
   * Two times print alike exactly when they agree within the hour: the
   * printed text determines the time modulo 3600 seconds, and whole hours
   * are dropped.
   */
  lemma {:induction false} TimeStringAlike(a: nat, b: nat)
    ensures TimeString(a) == TimeString(b) <==> a % 3600 == b % 3600
  {
    WithinHour(a);
    WithinHour(b);
    var sa, sb := TimeString(a), TimeString(b);
    if sa == sb {
      assert a / 60 % 60 == b / 60 % 60 && a % 60 == b % 60;
    }
    if a % 3600 == b % 3600 {
      MinutesSecondsUnique(a / 60 % 60, a % 60, b / 60 % 60, b % 60);
    }
  }

  // The countdown

  /** The share of the meditation still left, as the ring shows it; 0 for an empty meditation. */
  function RemainingShare(remaining: nat, duration: nat): (r: real)
    ensures remaining <= duration ==> 0.0 <= r <= 1.0
    ensures duration > 0 ==> (r == 1.0 <==> remaining == duration)
    ensures r == 0.0 <==> remaining == 0 || duration == 0
  {
    if duration > 0 then
      Player.Quotient(remaining as real, duration as real);
      remaining as real / duration as real
    else 0.0
  }

  /** The ring of this screen and the progress of the session player are complements. */
  lemma RemainingShareComplementsProgress(remaining: nat, duration: nat)
    requires 0 < duration
    ensures RemainingShare(remaining, duration) + Player.Progress(remaining, duration) == 1.0
  {
  }

  class Countdown {
    const meditation: MeditationOption
    var timeRemaining: nat
    var timerActive: bool
    var progress: real

    ghost predicate Valid()
      reads this
    {
      timeRemaining <= meditation.duration && 0.0 <= progress <= 1.0
    }

    /** The screen opens inactive, with the whole meditation left and a full ring. */
    constructor (meditation: MeditationOption)
      ensures Valid() && this.meditation == meditation
      ensures timeRemaining == meditation.duration && !timerActive && progress == 1.0
    {
      this.meditation := meditation;
      timeRemaining := meditation.duration;
      timerActive := false;
      if meditation.duration > 0 {
        var d := meditation.duration as real;
        Player.Quotient(d, d);
        progress := d / d;
      } else {
        progress := 1.0;
      }
    }

    /**
     * One timer firing: nothing while inactive; a second less and the ring
     * updated while time is left; at zero the timer stops and the
     * completion sound is due.
     */
    method Tick() returns (completionSound: bool)
      requires Valid()
      modifies this
      ensures Valid()
      ensures completionSound <==> old(timerActive) && old(timeRemaining) == 0
      ensures !old(timerActive) ==> unchanged(this)
      ensures old(timerActive) && old(timeRemaining) > 0 ==>
                && timerActive && timeRemaining == old(timeRemaining) - 1
                && progress == RemainingShare(timeRemaining, meditation.duration)
      ensures old(timerActive) && old(timeRemaining) == 0 ==>
                !timerActive && timeRemaining == 0 && progress == old(progress)
    {
      completionSound := false;
      if !timerActive {
        return;
      }
      if timeRemaining > 0 {
        timeRemaining := timeRemaining - 1;
        progress := if meditation.duration > 0 then timeRemaining as real / meditation.duration as real else 0.0;
      } else {
        StopTimer();
        completionSound := true;
      }
    }

    method StartTimer()
      modifies this`timerActive
      ensures timerActive
    {
      timerActive := true;
    }

    method PauseTimer()
      modifies this`timerActive
      ensures !timerActive
    {
      timerActive := false;
    }

    method StopTimer()
      modifies this`timerActive
      ensures !timerActive
    {
      timerActive := false;
    }

    /** Back to the whole meditation, inactive; the ring is full, or empty for an empty meditation. */
    method ResetTimer()
      modifies this
      ensures Valid()
      ensures !timerActive && timeRemaining == meditation.duration
      ensures progress == if meditation.duration > 0 then 1.0 else 0.0
    {
      StopTimer();
      timeRemaining := meditation.duration;
      progress := if meditation.duration > 0 then 1.0 else 0.0;
    }
  }

  /**
   * A countdown started and left alone: `d` ticks bring the time left to
   * zero and empty the ring of a non-empty meditation, and tick `d + 1`
   * stops the timer with the completion sound, which sounds only then.
   */
  method RunCountdown(c: Countdown)
    requires c.Valid()
    modifies c
    ensures c.Valid() && !c.timerActive && c.timeRemaining == 0
    ensures c.meditation.duration > 0 ==> c.progress == 0.0
  {
    c.ResetTimer();
    c.StartTimer();
    var d := c.meditation.duration;
    var k := 0;
    while k < d
      invariant 0 <= k <= d
      invariant c.Valid() && c.timerActive && c.timeRemaining == d - k
      invariant k > 0 ==> c.progress == RemainingShare(d - k, d)
      invariant k == 0 && d == 0 ==> c.progress == 0.0
    {
      var sound := c.Tick();
      assert !sound;
      k := k + 1;
    }
    var sound := c.Tick();
    assert sound;
  }
}

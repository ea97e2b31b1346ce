/** The test timer: a seconds counter advanced once per interval tick and
    shown as `mm:ss`. */
module Timer {
  import opened Common

  /** `s.padStart(2, '0')`: zeros are added on the left up to length 2; a longer
      string is left as it is. */
  function PadStart2(s: string): string
  {
    if |s| == 0 then "00" else if |s| == 1 then ['0'] + s else s
  }

  /** Padding never truncates: the result ends with `s`, what is added is zeros,
      and the length is two or `|s|`, whichever is larger. */
  lemma PadShape(s: string)
    ensures |PadStart2(s)| == (if |s| < 2 then 2 else |s|)
    ensures PadStart2(s)[|PadStart2(s)| - |s|..] == s
    ensures forall i :: 0 <= i < |PadStart2(s)| - |s| ==> PadStart2(s)[i] == '0'
  {
  }

  /** Padding a digit string keeps it a digit string with the same value. */
  lemma PadKeepsValue(s: string)
    requires AllDigits(s)
    ensures AllDigits(PadStart2(s))
    ensures DecimalValue(PadStart2(s)) == DecimalValue(s)
  {
    if |s| == 0 {
      assert DecimalValue("00") == 0 by {
        assert "00"[..1] == "0";
        assert "0"[..0] == "";
      }
    } else if |s| == 1 {
      LeadingZero(s);
    }
  }

  /** The text `updateTimerDisplay` writes for `s` elapsed seconds. */
  function Display(s: nat): string
  {
    PadStart2(NatToString(s / 60)) + ":" + PadStart2(NatToString(s % 60))
  }

  /** Reads a display back: at least two minute digits, a colon and exactly two
      second digits below 60. */
  function ParseDisplay(t: string): (r: Option<nat>)
    ensures r.Some? ==> |t| >= 5 && t[|t| - 3] == ':'
  {
    if |t| >= 5 && t[|t| - 3] == ':' && AllDigits(t[..|t| - 3]) && AllDigits(t[|t| - 2..])
       && DecimalValue(t[|t| - 2..]) < 60
    then Some(DecimalValue(t[..|t| - 3]) * 60 + DecimalValue(t[|t| - 2..]))
    else None
  }

  /** The display always parses back to the number of seconds it shows. */
  lemma DisplayRoundTrip(s: nat)
    ensures ParseDisplay(Display(s)) == Some(s)
  {
    var m := PadStart2(NatToString(s / 60));
    var c := PadStart2(NatToString(s % 60));
    var t := Display(s);
    assert |NatToString(s % 60)| <= 2;
    assert |c| == 2;
    assert t[..|t| - 3] == m;
    assert t[|t| - 2..] == c;
    PadKeepsValue(NatToString(s / 60));
    PadKeepsValue(NatToString(s % 60));
    DecimalRoundTrip(s / 60);
    DecimalRoundTrip(s % 60);
  }

  /** The seconds field is always two characters `00`..`59`, after a colon; the
      minutes are padded to two digits and never truncated. */
  lemma DisplayShape(s: nat)
    ensures var t := Display(s);
      |t| >= 5 && t[|t| - 3] == ':'
      && '0' <= t[|t| - 2] <= '5' && IsDigit(t[|t| - 1])
      && |t| == |PadStart2(NatToString(s / 60))| + 3
      && (s < 6000 <==> |t| == 5)
  {
    var secs := NatToString(s % 60);
    var t := Display(s);
    if s % 60 >= 10 {
      assert secs == NatToString(s % 60 / 10) + [DigitChar(s % 60 % 10)];
      assert NatToString(s % 60 / 10) == [DigitChar(s % 60 / 10)];
    }
    assert t[|t| - 2..] == PadStart2(secs);
    if s >= 6000 {
      assert s / 60 >= 100;
      LongNumber(s / 60);
    }
  }

  lemma {:induction false} LongNumber(n: nat)
    requires n >= 100
    ensures |NatToString(n)| >= 3
  {
  }

  /** For fewer than 100 minutes the display is exactly five characters. */
  lemma ShortDisplay(s: nat)
    requires s < 6000
    ensures |Display(s)| == 5
    ensures ParseDisplay(Display(s)) == Some(s)
  {
    DisplayShape(s);
    DisplayRoundTrip(s);
  }

  /** `updateTimerDisplay` right after `startTimer`. */
  lemma DisplayZero()
    ensures Display(0) == "00:00"
  {
  }

  /** The timer state: the counter and the interval handle kept in the configuration,
      and the set of intervals the browser keeps firing. The text on the page is
      `Display(timerSeconds)`. */
  class TestTimer {
    var timerSeconds: nat
    var timerInterval: Option<nat>
    var live: set<nat>

    /** The stored handle, if any, names a running interval. */
    predicate Valid()
      reads this
    {
      timerInterval.Some? ==> timerInterval.value in live
    }

    /** At most one interval runs, and it is the one whose handle is stored. */
    predicate SingleInterval()
      reads this
    {
      live == (match timerInterval case Some(h) => {h} case None => {})
    }

    constructor ()
      ensures Valid() && SingleInterval()
      ensures timerSeconds == 0 && timerInterval == None && live == {}
    {
      timerSeconds := 0;
      timerInterval := None;
      live := {};
    }

    /** `startTimer` as written: resets the counter and registers a new interval
        `h` (an id the browser is not using), overwriting the stored handle
        without clearing the interval it named. */
    method StartTimerAsWritten(h: nat)
      requires h !in live
      modifies this
      ensures Valid()
      ensures timerSeconds == 0
      ensures timerInterval == Some(h)
      ensures live == old(live) + {h}
    {
      timerSeconds := 0;
      live := live + {h};
      timerInterval := Some(h);
    }

    /** `startTimer` as intended: an interval still running is cleared first, so
        exactly one interval runs afterwards. */
    method StartTimer(h: nat)
      requires Valid() && SingleInterval()
      requires h !in live
      modifies this
      ensures Valid() && SingleInterval()
      ensures timerSeconds == 0
      ensures timerInterval == Some(h) && live == {h}
    {
      StopTimer();
      timerSeconds := 0;
      live := live + {h};
      timerInterval := Some(h);
    }

    /** One firing of the running interval `h`: the counter goes up by exactly one. */
    method Tick(h: nat)
      requires h in live
      modifies this`timerSeconds
      ensures timerSeconds == old(timerSeconds) + 1
    {
      timerSeconds := timerSeconds + 1;
    }

    /** `stopTimer`: clears the stored interval, if any, and forgets its handle. */
    method StopTimer()
      requires Valid()
      modifies this`timerInterval, this`live
      ensures Valid()
      ensures timerInterval == None
      ensures old(timerInterval).None? ==> live == old(live)
      ensures old(timerInterval).Some? ==> live == old(live) - {old(timerInterval).value}
      ensures old(SingleInterval()) ==> live == {}
    {
      if timerInterval.Some? {
        live := live - {timerInterval.value};
        timerInterval := None;
      }
    }
  }

  /** Starting the test twice and then stopping the timer leaves the first
      interval running, so the counter keeps advancing. */
  method StartTwiceLeaksInterval() returns (running: set<nat>)
    ensures running == {1}
  {
    var t := new TestTimer();
    t.StartTimerAsWritten(1);
    t.StartTimerAsWritten(2);
    t.StopTimer();
    running := t.live;
  }

  /** With the corrected start, the same sequence leaves no interval running. */
  method StartTwiceThenStop() returns (running: set<nat>)
    ensures running == {}
  {
    var t := new TestTimer();
    t.StartTimer(1);
    t.StartTimer(2);
    t.StopTimer();
    running := t.live;
  }
}

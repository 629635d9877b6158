/** The flash-deals timer of scripts/flash-deals-countdown.js
    (`flashDealsCountdown`): the hours/minutes/seconds split of the time
    left, its two-digit display, the expiry and urgency rules, and the
    interval handle that start, pause, resume and reset manage.

    The clock (`new Date().getTime()`) is the parameter `now`; timer handles
    are modelled as numbers drawn from a counter, with the set of intervals
    still firing. */
module Countdown {
  import opened Wrappers
  import opened Text

  const MillisPerHour: int := 3600000
  const MillisPerMinute: int := 60000
  const MillisPerSecond: int := 1000

  datatype Clock = Clock(hours: int, minutes: int, seconds: int)

  /** The milliseconds a clock reading stands for. */
  function ClockMillis(c: Clock): int {
    c.hours * MillisPerHour + c.minutes * MillisPerMinute + c.seconds * MillisPerSecond
  }

  /** The split of `updateCountdown` and `getFormattedTimeRemaining` for a
      positive time left (`Math.floor` of non-negative quotients). */
  function Decompose(timeLeft: int): (c: Clock)
    requires timeLeft > 0
    ensures c.hours >= 0 && 0 <= c.minutes < 60 && 0 <= c.seconds < 60
    ensures ClockMillis(c) <= timeLeft < ClockMillis(c) + MillisPerSecond
  {
    var h := timeLeft / MillisPerHour;
    var rh := timeLeft % MillisPerHour;
    var m := rh / MillisPerMinute;
    var rm := rh % MillisPerMinute;
    assert timeLeft == h * MillisPerHour + rh;
    assert rh == m * MillisPerMinute + rm;
    assert timeLeft % MillisPerMinute == rm by {
      assert timeLeft == (h * 60 + m) * MillisPerMinute + rm;
    }
    var s := rm / MillisPerSecond;
    assert rm == s * MillisPerSecond + rm % MillisPerSecond;
    Clock(h, m, s)
  }

  /** The split is the only reading within the bounds whose milliseconds
      fall in the last second: hours, minutes and seconds are determined by
      the time left. */
  lemma {:induction false} DecomposeUnique(timeLeft: int, c: Clock)
    requires timeLeft > 0
    requires c.hours >= 0 && 0 <= c.minutes < 60 && 0 <= c.seconds < 60
    requires ClockMillis(c) <= timeLeft < ClockMillis(c) + MillisPerSecond
    ensures c == Decompose(timeLeft)
  {
    var d := Decompose(timeLeft);
    var a := c.hours * 3600 + c.minutes * 60 + c.seconds;
    var b := d.hours * 3600 + d.minutes * 60 + d.seconds;
    assert a == b by {
      assert ClockMillis(c) == a * 1000;
      assert ClockMillis(d) == b * 1000;
    }
    assert c.hours == d.hours by {
      assert c.hours * 3600 <= a < c.hours * 3600 + 3600;
      assert d.hours * 3600 <= b < d.hours * 3600 + 3600;
    }
    assert c.minutes == d.minutes by {
      assert c.minutes * 60 <= a - c.hours * 3600 < c.minutes * 60 + 60;
      assert d.minutes * 60 <= b - d.hours * 3600 < d.minutes * 60 + 60;
    }
  }

  /** `n.toString().padStart(2, "0")`. */
  function TwoDigits(n: nat): (r: string)
    ensures |r| >= 2 && AllDigits(r)
    ensures n < 100 ==> |r| == 2
    ensures DecimalValue(r) == n
  {
    var digits := NatToString(n);
    NatToStringRoundTrip(n);
    var r := PadStart2(digits);
    if |digits| < 2 then
      assert r == ['0'] + digits;
      LeadingZero(digits);
      r
    else
      r
  }

  lemma {:induction false} LeadingZero(s: string)
    requires AllDigits(s)
    ensures AllDigits(['0'] + s) && DecimalValue(['0'] + s) == DecimalValue(s)
    decreases |s|
  {
    if s != [] {
      var t := ['0'] + s;
      LeadingZero(s[..|s| - 1]);
      assert t[..|t| - 1] == ['0'] + s[..|s| - 1];
    }
  }

  /** `getFormattedTimeRemaining`: "Expired" once the end time is reached,
      otherwise `HH:MM:SS`. */
  function FormattedTimeRemaining(endTime: int, now: int): (text: string)
    ensures text == "Expired" <==> endTime - now <= 0
    ensures endTime - now > 0 ==> |text| >= 8 && text[|text| - 6] == ':' && text[|text| - 3] == ':'
  {
    var timeLeft := endTime - now;
    if timeLeft <= 0 then "Expired"
    else
      var c := Decompose(timeLeft);
      TwoDigits(c.hours) + ":" + TwoDigits(c.minutes) + ":" + TwoDigits(c.seconds)
  }

  /** The text is "Expired" exactly when no time is left. Otherwise it ends
      in `:MM:SS`, minutes and seconds exactly two digits each, and reads
      back, field by field, as the split of the time left. */
  lemma {:induction false} FormattedReadsBack(endTime: int, now: int)
    ensures FormattedTimeRemaining(endTime, now) == "Expired" <==> endTime - now <= 0
    ensures endTime - now > 0 ==>
      var r := FormattedTimeRemaining(endTime, now);
      var c := Decompose(endTime - now);
      var n := |r|;
      && n >= 8 && r[n - 6] == ':' && r[n - 3] == ':'
      && AllDigits(r[..n - 6]) && DecimalValue(r[..n - 6]) == c.hours
      && AllDigits(r[n - 5..n - 3]) && DecimalValue(r[n - 5..n - 3]) == c.minutes
      && AllDigits(r[n - 2..]) && DecimalValue(r[n - 2..]) == c.seconds
  {
    if endTime - now > 0 {
      var r := FormattedTimeRemaining(endTime, now);
      var c := Decompose(endTime - now);
      var hh, mm, ss := TwoDigits(c.hours), TwoDigits(c.minutes), TwoDigits(c.seconds);
      var n := |r|;
      assert r == hh + ":" + mm + ":" + ss;
      assert r[..n - 6] == hh;
      assert r[n - 5..n - 3] == mm;
      assert r[n - 2..] == ss;
    } else {
      assert FormattedTimeRemaining(endTime, now) == "Expired";
    }
  }

  /** The urgency effect's condition: no full hour and fewer than ten
      minutes left. */
  predicate Urgent(c: Clock) {
    c.hours == 0 && c.minutes < 10
  }

  /** The effect fires exactly when less than ten minutes remain. */
  lemma {:induction false} UrgentIffUnderTenMinutes(timeLeft: int)
    requires timeLeft > 0
    ensures Urgent(Decompose(timeLeft)) <==> timeLeft < 10 * MillisPerMinute
  {
    var c := Decompose(timeLeft);
    assert ClockMillis(c) <= timeLeft < ClockMillis(c) + MillisPerSecond;
  }

  class FlashDealsCountdown {
    var endTime: int
    var intervalId: Option<nat>
    /** The intervals still firing. */
    var activeTimers: set<nat>
    /** The next handle `setInterval` hands out. */
    var nextTimer: nat
    var hoursText: string
    var minutesText: string
    var secondsText: string
    /** The `countdown-expired` class. */
    var expired: bool
    /** The pulse animation of the urgency effect. */
    var pulsing: bool

    /** Handles are never reused. */
    predicate Valid()
      reads this
    {
      && (forall t :: t in activeTimers ==> t < nextTimer)
      && (intervalId.Some? ==> intervalId.value < nextTimer)
    }

    /** Every interval still firing is the one `intervalId` records. */
    predicate SingleTimer()
      reads this
    {
      forall t :: t in activeTimers ==> intervalId == Some(t)
    }

    /** The handle `clearInterval(this.intervalId)` stops. */
    function Recorded(): set<nat>
      reads this
    {
      if intervalId.Some? then {intervalId.value} else {}
    }

    constructor ()
      ensures Valid() && SingleTimer() && intervalId.None? && activeTimers == {} && !expired && !pulsing
    {
      endTime := 0;
      intervalId := None;
      activeTimers := {};
      nextTimer := 0;
      hoursText, minutesText, secondsText := "", "", "";
      expired := false;
      pulsing := false;
    }

    /** `updateCountdown`: past the end time the interval is cleared and the
        display shows 00:00:00 (`intervalId` keeps the old handle);
        otherwise the display shows the split, and the pulse starts when the
        urgency condition holds (it is never stopped here). */
    method UpdateCountdown(now: int)
      requires Valid()
      modifies this
      ensures Valid()
      ensures endTime == old(endTime) && intervalId == old(intervalId) && nextTimer == old(nextTimer)
      ensures endTime - now <= 0 ==>
                && hoursText == "00" && minutesText == "00" && secondsText == "00"
                && expired && pulsing == old(pulsing)
                && activeTimers == old(activeTimers) - Recorded()
      ensures endTime - now > 0 ==>
                && Shows(Decompose(endTime - now))
                && pulsing == (old(pulsing) || Urgent(Decompose(endTime - now)))
                && expired == old(expired) && activeTimers == old(activeTimers)
    {
      var timeLeft := endTime - now;
      if timeLeft <= 0 {
        HandleCountdownEnd();
        return;
      }
      var c := Decompose(timeLeft);
      ShowClock(c);
    }

    /** The display part of `updateCountdown` for a positive time left. */
    predicate Shows(c: Clock)
      requires c.hours >= 0 && c.minutes >= 0 && c.seconds >= 0
      reads this
    {
      hoursText == TwoDigits(c.hours) && minutesText == TwoDigits(c.minutes) && secondsText == TwoDigits(c.seconds)
    }

    /** The three fields, padded, and the urgency effect. */
    method ShowClock(c: Clock)
      requires c.hours >= 0 && c.minutes >= 0 && c.seconds >= 0
      modifies this
      ensures Shows(c) && pulsing == (old(pulsing) || Urgent(c))
      ensures endTime == old(endTime) && intervalId == old(intervalId) && nextTimer == old(nextTimer)
      ensures activeTimers == old(activeTimers) && expired == old(expired)
    {
      hoursText := TwoDigits(c.hours);
      minutesText := TwoDigits(c.minutes);
      secondsText := TwoDigits(c.seconds);
      if c.hours == 0 && c.minutes < 10 {
        pulsing := true;
      }
    }

    /** `handleCountdownEnd`: `clearInterval(this.intervalId)` without
        forgetting the handle. */
    method HandleCountdownEnd()
      requires Valid()
      modifies this
      ensures Valid()
      ensures activeTimers == old(activeTimers) - Recorded()
      ensures old(SingleTimer()) ==> activeTimers == {}
      ensures hoursText == "00" && minutesText == "00" && secondsText == "00" && expired
      ensures endTime == old(endTime) && intervalId == old(intervalId) && nextTimer == old(nextTimer)
      ensures pulsing == old(pulsing)
    {
      if intervalId.Some? {
        activeTimers := activeTimers - {intervalId.value};
      }
      hoursText, minutesText, secondsText := "00", "00", "00";
      expired := true;
    }

    /** `startCountdown`: one update, then a new interval whose handle is
        recorded, whether or not the update found the end time passed. An
        interval that was still firing is not cleared. */
    method StartCountdown(now: int)
      requires Valid()
      modifies this
      ensures Valid()
      ensures intervalId == Some(old(nextTimer)) && nextTimer == old(nextTimer) + 1
      ensures endTime - now > 0 ==> activeTimers == old(activeTimers) + {old(nextTimer)}
      ensures endTime - now <= 0 ==> activeTimers == old(activeTimers) - old(Recorded()) + {old(nextTimer)}
      ensures old(activeTimers) == {} ==> SingleTimer()
      ensures endTime == old(endTime)
      ensures endTime - now > 0 ==>
                && Shows(Decompose(endTime - now)) && expired == old(expired)
                && pulsing == (old(pulsing) || Urgent(Decompose(endTime - now)))
      ensures endTime - now <= 0 ==>
                && hoursText == "00" && minutesText == "00" && secondsText == "00"
                && expired && pulsing == old(pulsing)
    {
      UpdateCountdown(now);
      RegisterInterval();
    }

    /** `this.intervalId = setInterval(...)`: a fresh handle, recorded and
        firing; the display is untouched. */
    method RegisterInterval()
      requires Valid()
      modifies this
      ensures Valid()
      ensures intervalId == Some(old(nextTimer)) && nextTimer == old(nextTimer) + 1
      ensures activeTimers == old(activeTimers) + {old(nextTimer)}
      ensures old(activeTimers) == {} ==> SingleTimer()
      ensures endTime == old(endTime) && expired == old(expired) && pulsing == old(pulsing)
      ensures hoursText == old(hoursText) && minutesText == old(minutesText) && secondsText == old(secondsText)
    {
      var id := nextTimer;
      nextTimer := nextTimer + 1;
      intervalId := Some(id);
      activeTimers := activeTimers + {id};
    }

    /** `pauseCountdown`: clear and forget the interval, if any. */
    method PauseCountdown()
      requires Valid()
      modifies this
      ensures Valid()
      ensures intervalId.None? && activeTimers == old(activeTimers) - old(Recorded())
      ensures old(SingleTimer()) ==> activeTimers == {}
      ensures endTime == old(endTime) && nextTimer == old(nextTimer)
      ensures hoursText == old(hoursText) && minutesText == old(minutesText) && secondsText == old(secondsText)
      ensures expired == old(expired) && pulsing == old(pulsing)
    {
      if intervalId.Some? {
        activeTimers := activeTimers - {intervalId.value};
        intervalId := None;
      }
    }

    /** `resumeCountdown`: starts only when no handle is recorded. */
    method ResumeCountdown(now: int)
      requires Valid()
      modifies this
      ensures Valid()
      ensures old(intervalId).Some? ==>
                && intervalId == old(intervalId) && activeTimers == old(activeTimers) && nextTimer == old(nextTimer)
                && hoursText == old(hoursText) && minutesText == old(minutesText) && secondsText == old(secondsText)
                && expired == old(expired) && pulsing == old(pulsing)
      ensures old(intervalId).None? ==>
                && intervalId == Some(old(nextTimer)) && nextTimer == old(nextTimer) + 1
                && activeTimers == old(activeTimers) + {old(nextTimer)}
      ensures old(intervalId).None? && endTime - now > 0 ==>
                && Shows(Decompose(endTime - now)) && expired == old(expired)
                && pulsing == (old(pulsing) || Urgent(Decompose(endTime - now)))
      ensures old(intervalId).None? && endTime - now <= 0 ==>
                hoursText == "00" && minutesText == "00" && secondsText == "00" && expired
      ensures old(SingleTimer()) ==> SingleTimer()
      ensures endTime == old(endTime)
    {
      if intervalId.None? {
        StartCountdown(now);
      }
    }

    /** `resetCountdown(hours)`: pause, move the end time to `hours` from
        the clock reading `now`, clear the expired and pulse styles, start
        again. The start's update reads the clock a second time, `later`.
        The script's default is 24 hours. */
    method ResetCountdown(now: int, later: int, hours: int)
      requires Valid()
      modifies this
      ensures Valid()
      ensures endTime == now + hours * MillisPerHour
      ensures intervalId == Some(old(nextTimer))
      ensures nextTimer == old(nextTimer) + 1
      ensures old(SingleTimer()) ==> activeTimers == {old(nextTimer)}
      ensures activeTimers == old(activeTimers) - old(Recorded()) + {old(nextTimer)}
      ensures endTime - later > 0 ==>
                && Shows(Decompose(endTime - later)) && !expired
                && pulsing == Urgent(Decompose(endTime - later))
      ensures endTime - later <= 0 ==>
                hoursText == "00" && minutesText == "00" && secondsText == "00" && expired && !pulsing
      ensures later == now && hours > 0 ==> Shows(Decompose(hours * MillisPerHour))
    {
      PauseCountdown();
      endTime := now + hours * MillisPerHour;
      expired := false;
      pulsing := false;
      ghost var timeLeft := endTime - later;
      assert later == now ==> timeLeft == hours * MillisPerHour;
      StartCountdown(later);
    }

    /** The delayed part of `refreshDeals`, after an expiry: a new end time
        24 hours from the reading `now` and a fresh start, without pausing
        first; the start's update reads the clock again (`later`). */
    method RefreshDeals(now: int, later: int)
      requires Valid()
      modifies this
      ensures Valid()
      ensures endTime == now + 24 * MillisPerHour
      ensures intervalId == Some(old(nextTimer)) && nextTimer == old(nextTimer) + 1
      ensures endTime - later > 0 ==> activeTimers == old(activeTimers) + {old(nextTimer)}
      ensures endTime - later <= 0 ==> activeTimers == old(activeTimers) - old(Recorded()) + {old(nextTimer)}
      ensures endTime - later > 0 ==>
                && Shows(Decompose(endTime - later)) && !expired
                && pulsing == Urgent(Decompose(endTime - later))
      ensures endTime - later <= 0 ==>
                hoursText == "00" && minutesText == "00" && secondsText == "00" && expired && !pulsing
      ensures later == now ==> hoursText == "24" && minutesText == "00" && secondsText == "00" && !pulsing
    {
      endTime := now + 24 * MillisPerHour;
      expired := false;
      pulsing := false;
      ghost var timeLeft := endTime - later;
      assert later == now ==> timeLeft == 24 * MillisPerHour;
      StartCountdown(later);
      if later == now {
        ShowsFullDay();
      }
    }

    /** `initializeCountdown` once the elements are found: the end time is
        24 hours from the reading `now` and the countdown starts; its first
        update reads the clock again (`later`), so it shows 24:00:00 when
        no time has passed between the two readings. */
    method InitializeCountdown(now: int, later: int)
      requires Valid()
      modifies this
      ensures Valid()
      ensures endTime == now + 24 * MillisPerHour
      ensures intervalId == Some(old(nextTimer))
      ensures endTime - later > 0 ==> activeTimers == old(activeTimers) + {old(nextTimer)}
      ensures endTime - later <= 0 ==> activeTimers == old(activeTimers) - old(Recorded()) + {old(nextTimer)}
      ensures endTime - later > 0 ==>
                && Shows(Decompose(endTime - later)) && expired == old(expired)
                && pulsing == (old(pulsing) || Urgent(Decompose(endTime - later)))
      ensures endTime - later <= 0 ==>
                hoursText == "00" && minutesText == "00" && secondsText == "00" && expired
      ensures later == now ==> hoursText == "24" && minutesText == "00" && secondsText == "00"
      ensures later == now ==> expired == old(expired) && pulsing == old(pulsing)
    {
      endTime := now + 24 * MillisPerHour;
      ghost var timeLeft := endTime - later;
      assert later == now ==> timeLeft == 24 * MillisPerHour;
      StartCountdown(later);
      if later == now {
        ShowsFullDay();
      }
    }
  }

  /** When the second reading is up to one second after the first, a reset
      to `hours` first shows (hours - 1):59:59. */
  lemma {:induction false} OneTickLater(hours: int, elapsed: int)
    requires hours >= 1 && 0 < elapsed <= MillisPerSecond
    ensures Decompose(hours * MillisPerHour - elapsed) == Clock(hours - 1, 59, 59)
  {
    DecomposeUnique(hours * MillisPerHour - elapsed, Clock(hours - 1, 59, 59));
  }

  /** A full day left reads 24:00:00 and is not urgent. */
  lemma {:induction false} ShowsFullDay()
    ensures Decompose(24 * MillisPerHour) == Clock(24, 0, 0)
    ensures TwoDigits(24) == "24" && TwoDigits(0) == "00"
    ensures !Urgent(Decompose(24 * MillisPerHour))
  {
    assert NatToString(24) == "24" && NatToString(0) == "0";
  }
}

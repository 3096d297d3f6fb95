/** The stepper-style alarm form: hours and minutes each with up and down buttons and
    scroll-wheel support, kept in sync with the `selectedTime` prop. */
module StepperAlarmForm {
  import opened JsText
  import opened ClockTime
  import opened FormLabels

  /** `(h + 1) % 24`; anything but a number becomes NaN. */
  function NextHour(h: JsNumber): (r: JsNumber)
    ensures r.Num? <==> h.Num?
    ensures r.Num? ==> r.value < 24
  {
    if h.Num? then Num((h.value + 1) % 24) else NaN
  }

  /** `(h - 1 + 24) % 24`. */
  function PrevHour(h: JsNumber): (r: JsNumber)
    ensures r.Num? <==> h.Num?
    ensures r.Num? ==> r.value < 24
  {
    if h.Num? then Num((h.value - 1 + 24) % 24) else NaN
  }

  /** `(m + 5) % 60`. */
  function NextMinute(m: JsNumber): (r: JsNumber)
    ensures r.Num? <==> m.Num?
    ensures r.Num? ==> r.value < 60
  {
    if m.Num? then Num((m.value + 5) % 60) else NaN
  }

  /** `(m - 5 + 60) % 60`. */
  function PrevMinute(m: JsNumber): (r: JsNumber)
    ensures r.Num? <==> m.Num?
    ensures r.Num? ==> r.value < 60
  {
    if m.Num? then Num((m.value - 5 + 60) % 60) else NaN
  }

  /** The up and down steps undo each other on an hour of the dial. */
  lemma HourStepsInverse(h: nat)
    requires h < 24
    ensures PrevHour(NextHour(Num(h))) == Num(h) && NextHour(PrevHour(Num(h))) == Num(h)
  {
    OnTheDial(h + 1, 24);
    OnTheDial(h - 1 + 24, 24);
    OnTheDial((h + 1) % 24 - 1 + 24, 24);
    OnTheDial((h - 1 + 24) % 24 + 1, 24);
  }

  /** A count less than two turns of an `n`-step dial, reduced to one turn. */
  lemma OnTheDial(x: int, n: int)
    requires 0 < n && 0 <= x < 2 * n
    ensures x % n == if x < n then x else x - n
  {
    if x >= n {
      assert x - n == x % n by {
        assert x == n + (x - n);
      }
    }
  }

  /** The up and down steps undo each other on any minute of the hour. */
  lemma MinuteStepsInverse(m: nat)
    requires m < 60
    ensures PrevMinute(NextMinute(Num(m))) == Num(m) && NextMinute(PrevMinute(Num(m))) == Num(m)
  {
    OnTheDial(m + 5, 60);
    OnTheDial(m - 5 + 60, 60);
    OnTheDial((m + 5) % 60 - 5 + 60, 60);
    OnTheDial((m - 5 + 60) % 60 + 5, 60);
  }

  /** `step` applied `k` times. */
  function Repeat(step: JsNumber -> JsNumber, k: nat, x: JsNumber): JsNumber {
    if k == 0 then x else step(Repeat(step, k - 1, x))
  }

  /** One more hour past a reduced count is one more past the count itself. */
  lemma HourStep(a: nat)
    ensures (a % 24 + 1) % 24 == (a + 1) % 24
  {
    var q := a / 24;
    assert a == 24 * q + a % 24;
    if a % 24 < 23 {
      assert a + 1 == 24 * q + (a % 24 + 1);
    } else {
      assert a + 1 == 24 * (q + 1);
    }
  }

  /** Five more minutes past a reduced count are five more past the count itself. */
  lemma MinuteStep(a: nat)
    ensures (a % 60 + 5) % 60 == (a + 5) % 60
  {
    var q := a / 60;
    assert a == 60 * q + a % 60;
    if a % 60 < 55 {
      assert a + 5 == 60 * q + (a % 60 + 5);
    } else {
      assert a + 5 == 60 * (q + 1) + (a % 60 + 5 - 60);
    }
  }

  lemma {:induction false} RepeatNextHour(h: nat, k: nat)
    requires h < 24
    ensures Repeat(NextHour, k, Num(h)) == Num((h + k) % 24)
  {
    if k > 0 {
      RepeatNextHour(h, k - 1);
      HourStep(h + (k - 1));
    }
  }

  lemma {:induction false} RepeatNextMinute(m: nat, k: nat)
    requires m < 60
    ensures Repeat(NextMinute, k, Num(m)) == Num((m + 5 * k) % 60)
  {
    if k > 0 {
      RepeatNextMinute(m, k - 1);
      MinuteStep(m + 5 * (k - 1));
    }
  }

  /** Twenty-four presses of the hour button, or twelve of the minute button (or any
      number of such full turns), come back to where they started. */
  lemma FullTurns(h: nat, m: nat)
    requires h < 24 && m < 60
    ensures forall k: nat :: k % 24 == 0 ==> Repeat(NextHour, k, Num(h)) == Num(h)
    ensures forall k: nat :: k % 12 == 0 ==> Repeat(NextMinute, k, Num(m)) == Num(m)
  {
    forall k: nat | k % 24 == 0 ensures Repeat(NextHour, k, Num(h)) == Num(h) {
      RepeatNextHour(h, k);
      assert k == 24 * (k / 24);
      AddTurns(h, k / 24, 24);
    }
    forall k: nat | k % 12 == 0 ensures Repeat(NextMinute, k, Num(m)) == Num(m) {
      RepeatNextMinute(m, k);
      assert 5 * k == 60 * (k / 12);
      AddTurns(m, k / 12, 60);
    }
  }

  /** Whole turns of the hour dial (24 steps) or the minute dial (60) leave a position
      where it was. */
  lemma {:induction false} AddTurns(x: nat, q: nat, n: nat)
    requires n == 24 || n == 60
    requires x < n
    ensures (x + n * q) % n == x
  {
    if q > 0 {
      AddTurns(x, q - 1, n);
      var y := x + n * (q - 1);
      assert x + n * q == y + n;
      if n == 24 {
        assert (y + 24) % 24 == y % 24;
      } else {
        assert (y + 60) % 60 == y % 60;
      }
    }
  }


  /** `${String(hours).padStart(2, "0")}:${String(minutes).padStart(2, "0")}`. */
  function Format(hours: JsNumber, minutes: JsNumber): string {
    ShowPadded(hours) + ":" + ShowPadded(minutes)
  }

  /** Formatting then splitting gives the numbers back, and splitting a well-formed time then
      formatting gives the time back. */
  lemma FormatParseRoundTrip(h: nat, m: nat, t: string)
    requires IsTimeString(t)
    ensures ParseClock(Format(Num(h), Num(m))) == (Num(h), Num(m))
    ensures var (ph, pm) := ParseClock(t); Format(ph, pm) == t
  {
    ParseTimeString(h, m);
    TimeStringOfFields(t);
    ParseTimeString(HourOf(t), MinuteOf(t));
  }

  /** The effect that reports a changed time upward: `onTimeChange` is called, with the
      formatted time, exactly when that differs from the `selectedTime` prop. */
  function TimeChange(hours: JsNumber, minutes: JsNumber, selectedTime: string): (notify: Option<string>)
    ensures notify.Some? <==> Format(hours, minutes) != selectedTime
    ensures notify.Some? ==> notify.value == Format(hours, minutes)
  {
    var timeStr := Format(hours, minutes);
    if timeStr != selectedTime then Some(timeStr) else None
  }

  /** Once the parent takes over a reported time, the two effects are at rest: syncing
      from it gives the same numbers, which report nothing further. */
  lemma EffectsSettle(h: nat, m: nat)
    ensures var t := Format(Num(h), Num(m));
      ParseClock(t) == (Num(h), Num(m)) && TimeChange(Num(h), Num(m), t) == None
  {
    ParseTimeString(h, m);
  }

  class StepperForm {
    var alarmName: string
    var hours: JsNumber
    var minutes: JsNumber

    /** Mounting, including the effect that reads `selectedTime.split(":").map(Number)`. */
    constructor(selectedTime: string)
      ensures alarmName == "" && (hours, minutes) == ParseClock(selectedTime)
    {
      alarmName := "";
      hours, minutes := ParseClock(selectedTime).0, ParseClock(selectedTime).1;
    }

    /** The effect that runs when the `selectedTime` prop changes. */
    method SelectedTimeChanged(selectedTime: string)
      modifies this`hours, this`minutes
      ensures (hours, minutes) == ParseClock(selectedTime)
    {
      var (h, m) := ParseClock(selectedTime);
      hours, minutes := h, m;
    }

    method IncrementHours()
      modifies this`hours
      ensures hours == NextHour(old(hours))
    {
      hours := NextHour(hours);
    }

    method DecrementHours()
      modifies this`hours
      ensures hours == PrevHour(old(hours))
    {
      hours := PrevHour(hours);
    }

    method IncrementMinutes()
      modifies this`minutes
      ensures minutes == NextMinute(old(minutes))
    {
      minutes := NextMinute(minutes);
    }

    method DecrementMinutes()
      modifies this`minutes
      ensures minutes == PrevMinute(old(minutes))
    {
      minutes := PrevMinute(minutes);
    }

    /** Scrolling up (`deltaY < 0`) steps the hour up, any other scroll steps it down. */
    method WheelHours(deltaY: real)
      modifies this`hours
      ensures hours == if deltaY < 0.0 then NextHour(old(hours)) else PrevHour(old(hours))
    {
      if deltaY < 0.0 {
        IncrementHours();
      } else {
        DecrementHours();
      }
    }

    method WheelMinutes(deltaY: real)
      modifies this`minutes
      ensures minutes == if deltaY < 0.0 then NextMinute(old(minutes)) else PrevMinute(old(minutes))
    {
      if deltaY < 0.0 {
        IncrementMinutes();
      } else {
        DecrementMinutes();
      }
    }

    method NameChanged(text: string)
      modifies this`alarmName
      ensures alarmName == text
    {
      alarmName := text;
    }

    /** `handleAddAlarm`: submits the trimmed name, or "Alarm", and clears the name. */
    method AddAlarm() returns (submitted: string)
      modifies this`alarmName
      ensures submitted == SubmittedName(old(alarmName)) && alarmName == ""
    {
      submitted := SubmittedName(alarmName);
      alarmName := "";
    }
  }
}

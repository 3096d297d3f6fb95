/** The keypad-style alarm form: a time field that takes digit keys into a buffer of at
    most four digits and shows the buffer as a clamped `HH:MM`, a name field, and the
    add button. */
module KeypadAlarmForm {
  import opened JsText
  import opened ClockTime
  import opened FormLabels

  /** `/^[0-9]$/.test(key)`. */
  predicate IsDigitKey(key: string) {
    |key| == 1 && IsDigit(key[0])
  }

  /** The keys the time field lets through untouched. */
  predicate IsNavigationKey(key: string) {
    key in ["ArrowLeft", "ArrowRight", "ArrowUp", "ArrowDown", "Tab", "Escape"]
  }

  /** `digits.slice(-4)`: the last four digits. */
  function Window(digits: seq<char>): (r: seq<char>)
    ensures |r| == Min(|digits|, 4) && r == digits[|digits| - |r|..]
  {
    if |digits| <= 4 then digits else digits[|digits| - 4..]
  }

  /** Appending to a full buffer drops its oldest digit: `1234` then `5` gives `2345`. */
  lemma SlidingWindow(digits: seq<char>, c: char)
    requires |digits| <= 4
    ensures |Window(digits + [c])| == Min(|digits| + 1, 4)
    ensures |digits| < 4 ==> Window(digits + [c]) == digits + [c]
    ensures |digits| == 4 ==> Window(digits + [c]) == digits[1..] + [c]
  {
    if |digits| == 4 {
      assert (digits + [c])[1..] == digits[1..] + [c];
    }
  }

  /** The display for a buffer of one to four digits, case by case as the form computes it:
      the first digit is the hours' tens, the second the hours' units, the third the
      minutes' tens (at most 5), the fourth the minutes' units. */
  function RenderDigits(buf: seq<char>): (r: string)
    requires 1 <= |buf| <= 4 && AllDigits(buf)
    ensures IsTimeString(r)
  {
    var d0 := DigitValue(buf[0]);
    if |buf| == 1 then RenderOne(d0)
    else
      var d1 := DigitValue(buf[1]);
      if |buf| == 2 then RenderTwo(d0, d1)
      else if |buf| == 3 then RenderThree(d0, d1, DigitValue(buf[2]))
      else RenderFour(d0, d1, DigitValue(buf[2]), DigitValue(buf[3]))
  }

  function RenderOne(d0: nat): (r: string)
    requires d0 < 10
    ensures r == TimeString(if d0 <= 2 then 10 * d0 else 3, 0) && IsTimeString(r)
  {
    var maxHour := if d0 > 2 then 3 else 23;
    var hours := Min(maxHour, d0 * 10);
    WholeHour(hours);
    Pad2(hours) + ":00"
  }

  function RenderTwo(d0: nat, d1: nat): (r: string)
    requires d0 < 10 && d1 < 10
    ensures r == TimeString(LeadingHour(d0, d1), 0) && IsTimeString(r)
  {
    if d0 == 0 || d0 == 1 then
      WholeHour(d0 * 10 + d1);
      Pad2(d0 * 10 + d1) + ":00"
    else if d0 == 2 then
      WholeHour(Min(23, 20 + d1));
      Pad2(Min(23, 20 + d1)) + ":00"
    else
      WholeHour(0);
      "00:00"
  }

  function RenderThree(d0: nat, d1: nat, d2: nat): (r: string)
    requires d0 < 10 && d1 < 10 && d2 < 10
    ensures r == TimeString(LeadingHour(d0, d1), Min(5, d2) * 10) && IsTimeString(r)
  {
    var minute1 := Min(5, d2);
    var hours := LeadingHour(d0, d1);
    TensOfMinutes(hours, minute1);
    Pad2(hours) + ":" + NatToString(minute1) + "0"
  }

  function RenderFour(d0: nat, d1: nat, d2: nat, d3: nat): (r: string)
    requires d0 < 10 && d1 < 10 && d2 < 10 && d3 < 10
    ensures r == TimeString(LeadingHour(d0, d1), Min(5, d2) * 10 + d3) && IsTimeString(r)
  {
    var minute1 := Min(5, d2);
    var minute2 := Min(9, d3);
    var hours := LeadingHour(d0, d1);
    var minutes := minute1 * 10 + minute2;
    assert minutes == Min(5, d2) * 10 + d3;
    TimeStringValid(hours, minutes);
    TimeString(hours, minutes)
  }

  /** `${hh}:00` is the time on the hour, and `00:00` is midnight. */
  lemma WholeHour(h: nat)
    requires h < 24
    ensures Pad2(h) + ":00" == TimeString(h, 0) && IsTimeString(TimeString(h, 0))
    ensures "00:00" == TimeString(0, 0)
  {
    assert Pad2(0) == "00" by {
      Pad2Digits(0);
    }
    Regroup(Pad2(h), "00");
    Regroup("00", "00");
    TimeStringValid(h, 0);
  }

  /** `${hh}:${m1}0` is the time on the ten-minute mark `m1`. */
  lemma TensOfMinutes(h: nat, m1: nat)
    requires h < 24 && m1 < 6
    ensures Pad2(h) + ":" + NatToString(m1) + "0" == TimeString(h, m1 * 10)
    ensures IsTimeString(TimeString(h, m1 * 10))
  {
    assert Pad2(m1 * 10) == NatToString(m1) + "0" by {
      Pad2Digits(m1 * 10);
      assert (m1 * 10) / 10 == m1 && (m1 * 10) % 10 == 0;
      assert NatToString(m1) == [DigitChar(m1)];
    }
    Regroup2(Pad2(h), NatToString(m1), "0");
    TimeStringValid(h, m1 * 10);
  }

  lemma Regroup(p: string, q: string)
    ensures p + ":" + q == p + (":" + q)
  {
  }

  lemma Regroup2(p: string, q: string, z: string)
    ensures p + ":" + q + z == p + ":" + (q + z)
  {
  }

  /** `processTimeKey(key)` with the buffer `timeDigits` it closes over: a digit key gives
      the display for the buffer with that digit appended; any other key comes back as is. */
  function ProcessTimeKey(timeDigits: seq<char>, key: string): (r: string)
    requires AllDigits(timeDigits)
    ensures !IsDigitKey(key) ==> r == key
    ensures IsDigitKey(key) ==> IsTimeString(r)
  {
    if !IsDigitKey(key) then key
    else RenderDigits(Window(timeDigits + [key[0]]))
  }

  /** A digit key slides into a valid buffer and is shown as the buffer's rendering. */
  lemma DigitKey(timeDigits: seq<char>, key: string)
    requires |timeDigits| <= 4 && AllDigits(timeDigits) && IsDigitKey(key)
    ensures var w := Window(timeDigits + [key[0]]);
      1 <= |w| <= 4 && AllDigits(w) && ProcessTimeKey(timeDigits, key) == RenderDigits(w)
  {
    var all := timeDigits + [key[0]];
    var w := Window(all);
    assert forall i :: 0 <= i < |w| ==> w[i] == all[|all| - |w| + i];
  }

  /** The hour the first two digits give: `0x` and `1x` as typed, `2x` capped at 23, and a
      first digit above 2 gives 0. */
  function LeadingHour(d0: nat, d1: nat): (h: nat)
    requires d0 < 10 && d1 < 10
    ensures h < 24
  {
    if d0 <= 1 then d0 * 10 + d1 else if d0 == 2 then Min(23, 20 + d1) else 0
  }

  /** What each buffer length shows, read back as numbers. */
  lemma RenderedFields(buf: seq<char>)
    requires 1 <= |buf| <= 4 && AllDigits(buf)
    ensures var r := RenderDigits(buf); var d0 := DigitValue(buf[0]);
      && (|buf| == 1 ==> HourOf(r) == if d0 <= 2 then 10 * d0 else 3)
      && (|buf| >= 2 ==> HourOf(r) == LeadingHour(d0, DigitValue(buf[1])))
      && (|buf| <= 2 ==> MinuteOf(r) == 0)
      && (|buf| >= 3 ==> MinuteOf(r) / 10 == Min(5, DigitValue(buf[2])))
      && (|buf| == 3 ==> MinuteOf(r) % 10 == 0)
      && (|buf| == 4 ==> MinuteOf(r) % 10 == DigitValue(buf[3]))
  {
    var d0 := DigitValue(buf[0]);
    if |buf| == 1 {
      RenderedAs(buf, if d0 <= 2 then 10 * d0 else 3, 0);
    } else {
      var hours := LeadingHour(d0, DigitValue(buf[1]));
      if |buf| == 2 {
        RenderedAs(buf, hours, 0);
      } else if |buf| == 3 {
        RenderedAs(buf, hours, Min(5, DigitValue(buf[2])) * 10);
      } else {
        RenderedAs(buf, hours, Min(5, DigitValue(buf[2])) * 10 + DigitValue(buf[3]));
      }
    }
  }

  lemma RenderedAs(buf: seq<char>, h: nat, m: nat)
    requires 1 <= |buf| <= 4 && AllDigits(buf) && h < 24 && m < 60
    requires var d0 := DigitValue(buf[0]);
      && (|buf| == 1 ==> h == if d0 <= 2 then 10 * d0 else 3)
      && (|buf| >= 2 ==> h == LeadingHour(d0, DigitValue(buf[1])))
      && (|buf| <= 2 ==> m == 0)
      && (|buf| == 3 ==> m == Min(5, DigitValue(buf[2])) * 10)
      && (|buf| == 4 ==> m == Min(5, DigitValue(buf[2])) * 10 + DigitValue(buf[3]))
    ensures HourOf(RenderDigits(buf)) == h && MinuteOf(RenderDigits(buf)) == m
  {
    assert RenderDigits(buf) == TimeString(h, m);
    TimeStringValid(h, m);
  }

  /** Later keys refine the display instead of redoing it: from the second digit on the
      hour stays as shown, and the fourth digit keeps the minutes' tens of the third. */
  lemma RenderRefines(buf: seq<char>)
    requires 3 <= |buf| <= 4 && AllDigits(buf)
    ensures HourOf(RenderDigits(buf)) == HourOf(RenderDigits(buf[..|buf| - 1]))
    ensures |buf| == 4 ==> MinuteOf(RenderDigits(buf)) / 10 == MinuteOf(RenderDigits(buf[..3])) / 10
  {
    var prefix := buf[..|buf| - 1];
    assert prefix[0] == buf[0] && prefix[1] == buf[1];
    RenderedFields(buf);
    RenderedFields(prefix);
  }

  /** Four digits are shown exactly as typed precisely when they already spell a valid
      time; so every time of day can be entered by typing its four digits. */
  lemma TypedAsShown(buf: seq<char>)
    requires |buf| == 4 && AllDigits(buf)
    ensures var t := [buf[0], buf[1], ':', buf[2], buf[3]];
      RenderDigits(buf) == t <==> IsTimeString(t)
  {
    var t := [buf[0], buf[1], ':', buf[2], buf[3]];
    if IsTimeString(t) {
      var d0, d1, d2, d3 := DigitValue(buf[0]), DigitValue(buf[1]), DigitValue(buf[2]), DigitValue(buf[3]);
      assert HourOf(t) == LeadingHour(d0, d1);
      assert MinuteOf(t) == Min(5, d2) * 10 + d3;
      assert RenderDigits(buf) == TimeString(HourOf(t), MinuteOf(t));
      TimeStringOfFields(t);
    }
  }

  /** The time field of the form, with the component state it keeps: the name typed so
      far, the string shown in the time input, and the digit buffer. */
  class KeypadForm {
    var alarmName: string
    var displayTime: string
    var timeDigits: seq<char>

    ghost predicate Valid()
      reads this
    {
      |timeDigits| <= 4 && AllDigits(timeDigits)
    }

    /** Mounting, including the effect that copies `selectedTime` into the display. */
    constructor(selectedTime: string)
      ensures Valid() && alarmName == "" && displayTime == selectedTime && timeDigits == []
    {
      alarmName, displayTime, timeDigits := "", selectedTime, [];
    }

    /** The effect that runs when the `selectedTime` prop changes. */
    method SelectedTimeChanged(selectedTime: string)
      modifies this`displayTime
      ensures displayTime == selectedTime
    {
      displayTime := selectedTime;
    }

    /** The name input's `onChange`. */
    method NameChanged(text: string)
      modifies this`alarmName
      ensures alarmName == text
    {
      alarmName := text;
    }

    /** `handleTimeKeyDown`; `notify` is the value passed to `onTimeChange`, if any. */
    method KeyDown(key: string) returns (notify: Option<string>)
      requires Valid()
      modifies this`displayTime, this`timeDigits
      ensures Valid()
      ensures key == "Backspace" ==>
        && timeDigits == (if old(timeDigits) == [] then [] else old(timeDigits)[..|old(timeDigits)| - 1])
        && displayTime == (if timeDigits == [] then "00:00" else "")
        && notify == None
      ensures key == "Delete" ==> timeDigits == [] && displayTime == "00:00" && notify == None
      ensures IsDigitKey(key) ==>
        && timeDigits == Window(old(timeDigits) + [key[0]])
        && displayTime == RenderDigits(timeDigits)
        && notify == (if |timeDigits| >= 2 then Some(displayTime) else None)
      ensures key != "Backspace" && key != "Delete" && !IsDigitKey(key) ==>
        timeDigits == old(timeDigits) && displayTime == old(displayTime) && notify == None
    {
      notify := None;
      if key == "Backspace" {
        assert |key| == 9;
        Backspace();
      } else if key == "Delete" {
        assert |key| == 6;
        timeDigits := [];
        displayTime := "00:00";
      } else if IsNavigationKey(key) {
        assert |key| > 1;
      } else if IsDigitKey(key) {
        notify := TypeDigit(key);
      }
    }

    /** Backspace: drop the last digit; the display becomes `00:00` when none is left and
        otherwise `processTimeKey("")`, the empty string. */
    method Backspace()
      requires Valid()
      modifies this`displayTime, this`timeDigits
      ensures Valid()
      ensures timeDigits == (if old(timeDigits) == [] then [] else old(timeDigits)[..|old(timeDigits)| - 1])
      ensures displayTime == (if timeDigits == [] then "00:00" else "")
    {
      var newDigits := if timeDigits == [] then [] else timeDigits[..|timeDigits| - 1];
      var shown := ProcessTimeKey(timeDigits, "");
      timeDigits := newDigits;
      if |newDigits| == 0 {
        displayTime := "00:00";
      } else {
        displayTime := shown;
      }
    }

    /** A digit key: show the buffer with the digit slid in, and report it from two digits on. */
    method TypeDigit(key: string) returns (notify: Option<string>)
      requires Valid() && IsDigitKey(key)
      modifies this`displayTime, this`timeDigits
      ensures Valid()
      ensures timeDigits == Window(old(timeDigits) + [key[0]])
      ensures displayTime == RenderDigits(timeDigits)
      ensures notify == (if |timeDigits| >= 2 then Some(displayTime) else None)
    {
      DigitKey(timeDigits, key);
      var newTime := ProcessTimeKey(timeDigits, key);
      displayTime := newTime;
      var newDigits := Window(timeDigits + [key[0]]);
      timeDigits := newDigits;
      notify := None;
      if |newDigits| >= 2 {
        notify := Some(newTime);
      }
    }

    /** `handleTimeFocus`: start a fresh buffer; the display is left as it is. */
    method Focus()
      modifies this`timeDigits
      ensures timeDigits == [] && Valid()
    {
      timeDigits := [];
    }

    /** `handleTimeBlur`: no digits restores the committed time, one digit `d` commits
        `0d:00`, two or more leave everything as it is. */
    method Blur(selectedTime: string) returns (notify: Option<string>)
      requires Valid()
      modifies this`displayTime
      ensures old(timeDigits) == [] ==> displayTime == selectedTime && notify == None
      ensures |timeDigits| == 1 ==>
        displayTime == TimeString(DigitValue(timeDigits[0]), 0) && notify == Some(displayTime)
      ensures |timeDigits| >= 2 ==> displayTime == old(displayTime) && notify == None
    {
      notify := None;
      if |timeDigits| == 0 {
        displayTime := selectedTime;
      } else if |timeDigits| < 2 {
        var hour := DigitValue(timeDigits[0]);
        var formatted := Pad2(hour) + ":00";
        Pad2Digits(0);
        displayTime := formatted;
        notify := Some(formatted);
      }
    }

    /** `handleAddAlarm`: submits the name and resets the name and the time field. */
    method AddAlarm(selectedTime: string) returns (submitted: string)
      modifies this
      ensures submitted == SubmittedName(old(alarmName))
      ensures alarmName == "" && timeDigits == [] && displayTime == selectedTime && Valid()
    {
      submitted := SubmittedName(alarmName);
      alarmName := "";
      timeDigits := [];
      displayTime := selectedTime;
    }

    /** `handleKeyDown` on the name field: Enter adds the alarm, any other key does nothing. */
    method NameKeyDown(key: string, selectedTime: string) returns (submitted: Option<string>)
      modifies this
      ensures key == "Enter" ==>
        && submitted == Some(SubmittedName(old(alarmName)))
        && alarmName == "" && timeDigits == [] && displayTime == selectedTime && Valid()
      ensures key != "Enter" ==>
        submitted == None && alarmName == old(alarmName)
        && timeDigits == old(timeDigits) && displayTime == old(displayTime)
    {
      submitted := None;
      if key == "Enter" {
        var name := AddAlarm(selectedTime);
        submitted := Some(name);
      }
    }
  }

  /** A one-digit blur commits a valid time, but not the one the display showed for that
      digit unless the digit was 0 or 3: `2` shows `20:00` while typing and commits `02:00`. */
  lemma BlurDiffersFromDisplay(c: char)
    requires IsDigit(c)
    ensures IsTimeString(TimeString(DigitValue(c), 0))
    ensures TimeString(DigitValue(c), 0) == RenderDigits([c]) <==> c == '0' || c == '3'
  {
    var d := DigitValue(c);
    TimeStringValid(d, 0);
    RenderedFields([c]);
    TimeStringOfFields(RenderDigits([c]));
  }
}

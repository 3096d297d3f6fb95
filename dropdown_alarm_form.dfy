/** The dropdown-style alarm form: a button that opens a list of every five-minute time of
    the day, and a name field. */
module DropdownAlarmForm {
  import opened JsText
  import opened ClockTime
  import opened FormLabels

  /** How many options the list holds: 24 hours of 12 five-minute slots. */
  const OptionCount := 288

  /** The `i`-th option: hour `i / 12`, minute `5 * (i % 12)`. */
  function OptionAt(i: nat): string {
    TimeString(i / 12, 5 * (i % 12))
  }

  /** The nested loops that build `timeOptions`. */
  method TimeOptions() returns (opts: seq<string>)
    ensures |opts| == OptionCount
    ensures forall i :: 0 <= i < |opts| ==> opts[i] == OptionAt(i)
  {
    opts := [];
    var h := 0;
    while h < 24
      invariant 0 <= h <= 24 && |opts| == 12 * h
      invariant forall i :: 0 <= i < |opts| ==> opts[i] == OptionAt(i)
    {
      var m := 0;
      ghost var slot := 0;
      while m < 60
        invariant 0 <= slot <= 12 && m == 5 * slot && |opts| == 12 * h + slot
        invariant forall i :: 0 <= i < |opts| ==> opts[i] == OptionAt(i)
      {
        NextOption(opts, h, slot);
        opts := opts + [TimeString(h, m)];
        m, slot := m + 5, slot + 1;
      }
      h := h + 1;
    }
  }

  /** Pushing the option for hour `h` and slot `s` onto the options before it gives the
      options up to it. */
  lemma NextOption(opts: seq<string>, h: nat, s: nat)
    requires s < 12 && |opts| == 12 * h + s
    requires forall i :: 0 <= i < |opts| ==> opts[i] == OptionAt(i)
    ensures forall i :: 0 <= i < |opts| + 1 ==> (opts + [TimeString(h, 5 * s)])[i] == OptionAt(i)
  {
    OptionIndex(h, s);
  }

  /** The option pushed for hour `h` and slot `s` sits at index `12 * h + s`. */
  lemma OptionIndex(h: nat, s: nat)
    requires s < 12
    ensures OptionAt(12 * h + s) == TimeString(h, 5 * s)
  {
    assert (12 * h + s) / 12 == h && (12 * h + s) % 12 == s;
  }

  /** Every option is a well-formed time on a five-minute mark, `5 * i` minutes after midnight. */
  lemma OptionValid(i: nat)
    requires i < OptionCount
    ensures IsTimeString(OptionAt(i))
    ensures MinuteOfDay(OptionAt(i)) == 5 * i && MinuteOf(OptionAt(i)) % 5 == 0
  {
    TimeStringValid(i / 12, 5 * (i % 12));
  }

  /** The list runs in strictly increasing order, so no time appears twice. */
  lemma OptionsIncreasing(i: nat, j: nat)
    requires i < j < OptionCount
    ensures LexLess(OptionAt(i), OptionAt(j)) && OptionAt(i) != OptionAt(j)
  {
    OptionValid(i);
    OptionValid(j);
    TimeOrder(OptionAt(i), OptionAt(j));
  }

  /** Every time of day on a five-minute mark is offered. */
  lemma OptionsComplete(t: string)
    requires IsTimeString(t) && MinuteOf(t) % 5 == 0
    ensures MinuteOfDay(t) / 5 < OptionCount && OptionAt(MinuteOfDay(t) / 5) == t
  {
    var i := MinuteOfDay(t) / 5;
    assert i / 12 == HourOf(t) && 5 * (i % 12) == MinuteOf(t);
    TimeStringOfFields(t);
  }

  /** The list starts at midnight and ends five minutes before the next. */
  lemma OptionsEnds()
    ensures OptionAt(0) == "00:00" && OptionAt(OptionCount - 1) == "23:55"
  {
    OptionIndex(0, 0);
    OptionIndex(23, 11);
    TimeStringChars(0, 0);
    TimeStringChars(23, 55);
  }

  class DropdownForm {
    var alarmName: string
    var showTimePicker: bool

    constructor()
      ensures alarmName == "" && !showTimePicker
    {
      alarmName := "";
      showTimePicker := false;
    }

    /** The time button opens a closed list and closes an open one. */
    method ToggleTimePicker()
      modifies this`showTimePicker
      ensures showTimePicker == !old(showTimePicker)
    {
      showTimePicker := !showTimePicker;
    }

    /** Clicking an option reports its time upward and closes the list. */
    method ChooseOption(time: string) returns (notify: string)
      modifies this`showTimePicker
      ensures notify == time && !showTimePicker
    {
      notify := time;
      showTimePicker := false;
    }

    /** A document click closes the list unless it landed inside the dropdown. */
    method DocumentClick(insideDropdown: bool)
      modifies this`showTimePicker
      ensures showTimePicker == (old(showTimePicker) && insideDropdown)
    {
      if !insideDropdown {
        showTimePicker := false;
      }
    }

    method NameChanged(text: string)
      modifies this`alarmName
      ensures alarmName == text
    {
      alarmName := text;
    }

    /** `handleAddAlarm`: submits the trimmed name, or "Alarm", and clears the name. */
    method AddAlarm() returns (submitted: string)
      modifies this`alarmName
      ensures submitted == SubmittedName(old(alarmName)) && alarmName == ""
    {
      submitted := SubmittedName(alarmName);
      alarmName := "";
    }
  }
}

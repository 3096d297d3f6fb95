/** Wall-clock times as the app writes them: `HH:MM`, 24-hour, zero-padded. */
module ClockTime {
  import opened JsText

  /** `${String(h).padStart(2, "0")}:${String(m).padStart(2, "0")}`. */
  function TimeString(h: nat, m: nat): string {
    Pad2(h) + ":" + Pad2(m)
  }

  /** The shape `^([01]\d|2[0-3]):[0-5]\d$`. */
  predicate IsTimeString(s: string) {
    && |s| == 5 && s[2] == ':'
    && IsDigit(s[0]) && IsDigit(s[1]) && IsDigit(s[3]) && IsDigit(s[4])
    && s[0] <= '2' && (s[0] == '2' ==> s[1] <= '3') && s[3] <= '5'
  }

  function HourOf(s: string): (h: nat)
    requires IsTimeString(s)
    ensures h < 24
  {
    DigitValue(s[0]) * 10 + DigitValue(s[1])
  }

  function MinuteOf(s: string): (m: nat)
    requires IsTimeString(s)
    ensures m < 60
  {
    DigitValue(s[3]) * 10 + DigitValue(s[4])
  }

  function MinuteOfDay(s: string): (k: nat)
    requires IsTimeString(s)
    ensures k < 1440
  {
    HourOf(s) * 60 + MinuteOf(s)
  }

  /** The characters of an in-range time. */
  lemma TimeStringChars(h: nat, m: nat)
    requires h < 24 && m < 60
    ensures TimeString(h, m) == [DigitChar(h / 10), DigitChar(h % 10), ':', DigitChar(m / 10), DigitChar(m % 10)]
  {
    Pad2Digits(h);
    Pad2Digits(m);
    JoinWithColon(Pad2(h), Pad2(m));
  }

  lemma JoinWithColon(a: string, b: string)
    requires |a| == 2 && |b| == 2
    ensures a + ":" + b == [a[0], a[1], ':', b[0], b[1]]
  {
  }

  /** An in-range hour and minute give a well-formed time that reads back as themselves. */
  lemma TimeStringValid(h: nat, m: nat)
    requires h < 24 && m < 60
    ensures IsTimeString(TimeString(h, m))
    ensures HourOf(TimeString(h, m)) == h && MinuteOf(TimeString(h, m)) == m
  {
    TimeStringChars(h, m);
    DigitsShape(h / 10, h % 10, m / 10, m % 10);
  }

  lemma DigitsShape(a: nat, b: nat, c: nat, d: nat)
    requires a < 10 && b < 10 && c < 10 && d < 10
    requires a * 10 + b < 24 && c * 10 + d < 60
    ensures var s := [DigitChar(a), DigitChar(b), ':', DigitChar(c), DigitChar(d)];
      IsTimeString(s) && HourOf(s) == a * 10 + b && MinuteOf(s) == c * 10 + d
  {
    var s := [DigitChar(a), DigitChar(b), ':', DigitChar(c), DigitChar(d)];
    assert DigitValue(s[0]) == a && DigitValue(s[1]) == b;
    assert DigitValue(s[3]) == c && DigitValue(s[4]) == d;
  }

  /** Every well-formed time is the formatting of its own hour and minute. */
  lemma TimeStringOfFields(s: string)
    requires IsTimeString(s)
    ensures s == TimeString(HourOf(s), MinuteOf(s))
  {
    var h, m := HourOf(s), MinuteOf(s);
    TimeStringChars(h, m);
    TwoDigits(DigitValue(s[0]), DigitValue(s[1]));
    TwoDigits(DigitValue(s[3]), DigitValue(s[4]));
    assert s == [s[0], s[1], s[2], s[3], s[4]];
  }

  lemma TwoDigits(a: nat, b: nat)
    requires a < 10 && b < 10
    ensures (a * 10 + b) / 10 == a && (a * 10 + b) % 10 == b
  {
  }

  /** `time.split(":")` read through `Number`: the first two pieces, the second one
      `Undefined` when there is no colon. */
  function ParseClock(s: string): (JsNumber, JsNumber) {
    var k := IndexOf(s, ':');
    if k == |s| then (NumberOf(s), Undefined)
    else
      var rest := s[k + 1..];
      (NumberOf(s[..k]), NumberOf(rest[..IndexOf(rest, ':')]))
  }

  /** Formatting any hour and minute and splitting on the colon gives them back. */
  lemma ParseTimeString(h: nat, m: nat)
    ensures ParseClock(TimeString(h, m)) == (Num(h), Num(m))
  {
    var p, q := Pad2(h), Pad2(m);
    var s := p + ":" + q;
    FirstColon(p, q);
    assert s[..|p|] == p;
    assert s[|p| + 1..] == q;
    NoColon(q);
    assert q[..|q|] == q;
    Pad2Value(h);
    Pad2Value(m);
  }

  lemma FirstColon(p: string, q: string)
    requires AllDigits(p)
    ensures IndexOf(p + ":" + q, ':') == |p|
  {
    var s := p + ":" + q;
    assert s[|p|] == ':';
    forall j | 0 <= j < |p| ensures s[j] != ':' {
      assert s[j] == p[j];
    }
  }

  lemma NoColon(q: string)
    requires AllDigits(q)
    ensures IndexOf(q, ':') == |q|
  {
  }

  /** The time `k` minutes after midnight. */
  function ClockOfMinute(k: nat): (s: string)
    requires k < 1440
    ensures IsTimeString(s) && MinuteOfDay(s) == k
  {
    TimeStringValid(k / 60, k % 60);
    TimeString(k / 60, k % 60)
  }

  /** The time of a snoozed alarm: five minutes after `t`, wrapping past midnight
      (`setHours(h, m + 5)` on today's date, read back with `getHours`/`getMinutes`);
      an unreadable `t` gives an invalid date, shown as `NaN:NaN`. */
  function SnoozeTime(t: string): (r: string)
    ensures ParseClock(t).0.Num? && ParseClock(t).1.Num? ==>
      IsTimeString(r) && MinuteOfDay(r) == (ParseClock(t).0.value * 60 + ParseClock(t).1.value + 5) % 1440
    ensures !(ParseClock(t).0.Num? && ParseClock(t).1.Num?) ==> r == "NaN:NaN"
  {
    var (x, y) := ParseClock(t);
    if x.Num? && y.Num? then ClockOfMinute(FiveLater(x.value, y.value)) else "NaN:NaN"
  }

  function FiveLater(h: nat, m: nat): (k: nat)
    ensures k < 1440 && k == (h * 60 + m + 5) % 1440
  {
    (h * 60 + m + 5) % 1440
  }

  /** On a well-formed time, snoozing moves it five minutes on the 24-hour dial. */
  lemma SnoozeOfTimeString(t: string)
    requires IsTimeString(t)
    ensures IsTimeString(SnoozeTime(t))
    ensures MinuteOfDay(SnoozeTime(t)) == (MinuteOfDay(t) + 5) % 1440
  {
    var h, m := HourOf(t), MinuteOf(t);
    assert ParseClock(t) == (Num(h), Num(m)) by {
      TimeStringOfFields(t);
      ParseTimeString(h, m);
    }
    SnoozeOfFields(t, h, m);
  }

  lemma SnoozeOfFields(t: string, h: nat, m: nat)
    requires ParseClock(t) == (Num(h), Num(m))
    ensures IsTimeString(SnoozeTime(t)) && MinuteOfDay(SnoozeTime(t)) == (h * 60 + m + 5) % 1440
  {
  }

  /** Snoozing in the last five minutes of the day wraps to just after midnight
      (`23:58` becomes `00:03`). */
  lemma SnoozeWrapsPastMidnight(t: string)
    requires IsTimeString(t) && MinuteOfDay(t) >= 1435
    ensures IsTimeString(SnoozeTime(t))
    ensures HourOf(SnoozeTime(t)) == 0 && MinuteOf(SnoozeTime(t)) == MinuteOfDay(t) - 1435
  {
    SnoozeOfTimeString(t);
    WrapAfterMidnight(MinuteOfDay(t), SnoozeTime(t));
  }

  lemma WrapAfterMidnight(k: nat, r: string)
    requires 1435 <= k < 1440 && IsTimeString(r) && MinuteOfDay(r) == (k + 5) % 1440
    ensures HourOf(r) == 0 && MinuteOf(r) == k - 1435
  {
    EarlyMinute(r);
  }

  lemma EarlyMinute(r: string)
    requires IsTimeString(r) && MinuteOfDay(r) < 60
    ensures HourOf(r) == 0 && MinuteOf(r) == MinuteOfDay(r)
  {
  }

  /** Two well-formed times compare as strings exactly as they compare on the clock. */
  lemma TimeOrder(s: string, t: string)
    requires IsTimeString(s) && IsTimeString(t)
    ensures LexLess(s, t) <==> MinuteOfDay(s) < MinuteOfDay(t)
  {
    LexFive(s, t);
    DigitsOrder(DigitValue(s[0]), DigitValue(s[1]), DigitValue(s[3]), DigitValue(s[4]),
                DigitValue(t[0]), DigitValue(t[1]), DigitValue(t[3]), DigitValue(t[4]));
  }

  /** Comparing two five-character strings with the same middle character. */
  lemma LexFive(s: string, t: string)
    requires |s| == 5 && |t| == 5 && s[2] == t[2]
    ensures LexLess(s, t) <==>
      s[0] < t[0] || (s[0] == t[0] && (s[1] < t[1] || (s[1] == t[1] &&
      (s[3] < t[3] || (s[3] == t[3] && s[4] < t[4])))))
  {
    assert LexLess(s, t) == (s[0] < t[0] || (s[0] == t[0] && LexLess(s[1..], t[1..])));
    assert LexLess(s[1..], t[1..]) == (s[1] < t[1] || (s[1] == t[1] && LexLess(s[2..], t[2..])));
    assert s[1..][1..] == s[2..] && t[1..][1..] == t[2..];
    assert LexLess(s[2..], t[2..]) == LexLess(s[3..], t[3..]);
    assert s[2..][1..] == s[3..] && t[2..][1..] == t[3..];
    assert LexLess(s[3..], t[3..]) == (s[3] < t[3] || (s[3] == t[3] && LexLess(s[4..], t[4..])));
    assert s[3..][1..] == s[4..] && t[3..][1..] == t[4..];
    assert LexLess(s[4..], t[4..]) == (s[4] < t[4]);
    assert s[4..][1..] == [] && t[4..][1..] == [];
  }

  /** Digit by digit order of `h0h1:m0m1` is the order of the minute of the day. */
  lemma DigitsOrder(a0: nat, a1: nat, a3: nat, a4: nat, b0: nat, b1: nat, b3: nat, b4: nat)
    requires a0 < 10 && a1 < 10 && a3 < 6 && a4 < 10
    requires b0 < 10 && b1 < 10 && b3 < 6 && b4 < 10
    ensures a0 < b0 || (a0 == b0 && (a1 < b1 || (a1 == b1 && (a3 < b3 || (a3 == b3 && a4 < b4)))))
      <==> (a0 * 10 + a1) * 60 + a3 * 10 + a4 < (b0 * 10 + b1) * 60 + b3 * 10 + b4
  {
  }
}

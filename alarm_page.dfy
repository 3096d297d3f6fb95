/** The page controller: the once-a-minute alarm check, the snooze and dismiss buttons,
    clearing the list, uploading and selecting sounds, with the toasts each one shows. */
module AlarmPage {
  import opened JsText
  import opened ClockTime
  import opened AlarmState
  import opened SoundSession
  import opened FormLabels

  datatype Severity = Success | Warning | Danger

  /** A toast: its message and its colour. */
  datatype Notice = Notice(message: string, severity: Severity)

  /** `file.type.startsWith("audio/")`. */
  predicate IsAudioType(fileType: string) {
    StartsWith(fileType, "audio/")
  }

  /** A file extension as `/\.[^/.]+$/` matches it after the dot: one or more characters,
      none of them a dot or a slash. */
  predicate IsExtension(ext: string) {
    ext != [] && forall i :: 0 <= i < |ext| ==> ext[i] != '.' && ext[i] != '/'
  }

  /** `name` ends in a dot at `k` followed by an extension. */
  predicate ExtensionAt(name: string, k: int) {
    0 <= k < |name| && name[k] == '.' && IsExtension(name[k + 1..])
  }

  /** The position of the last dot or slash in `s`, or -1. */
  function LastSeparator(s: string): (k: int)
    ensures -1 <= k < |s|
    ensures k >= 0 ==> s[k] == '.' || s[k] == '/'
    ensures forall j :: k < j < |s| ==> s[j] != '.' && s[j] != '/'
  {
    if s == [] then -1
    else if s[|s| - 1] == '.' || s[|s| - 1] == '/' then |s| - 1
    else LastSeparator(s[..|s| - 1])
  }

  /** `name.replace(/\.[^/.]+$/, "")`: the name without its extension, if it has one. */
  function StripExtension(name: string): (r: string)
    ensures forall k :: ExtensionAt(name, k) ==> r == name[..k]
    ensures (forall k :: !ExtensionAt(name, k)) ==> r == name
  {
    var k := LastSeparator(name);
    if k >= 0 && name[k] == '.' && k < |name| - 1 then
      ExtensionUnique(name, k);
      name[..k]
    else
      NoExtension(name, k);
      name
  }

  /** A name has at most one extension: the one after its last separator. */
  lemma ExtensionUnique(name: string, k: int)
    requires k == LastSeparator(name) && 0 <= k < |name| - 1 && name[k] == '.'
    ensures ExtensionAt(name, k)
    ensures forall j :: ExtensionAt(name, j) ==> j == k
  {
  }

  lemma NoExtension(name: string, k: int)
    requires k == LastSeparator(name) && !(k >= 0 && name[k] == '.' && k < |name| - 1)
    ensures forall j :: !ExtensionAt(name, j)
  {
  }

  /** Stripping takes off exactly an appended extension. */
  lemma StripAppended(base: string, ext: string)
    requires IsExtension(ext)
    ensures StripExtension(base + "." + ext) == base
  {
    var name := base + "." + ext;
    assert name[|base| + 1..] == ext;
    assert ExtensionAt(name, |base|);
    assert name[..|base|] == base;
  }

  /** A name with no dot after its last slash, or whose last dot ends it, is kept whole
      (`a.b/c`, `notes`, `draft.`). */
  lemma StripWithoutDot(name: string)
    requires var k := LastSeparator(name); k < 0 || name[k] == '/' || k == |name| - 1
    ensures StripExtension(name) == name
  {
  }

  /** `x.toFixed(1)` for `x = num / den` with `den` a power of two: `num / den` is exact in
      a double, so the digits are those of the integer nearest to `10 * num / den`, the
      larger on a tie. */
  function Tenths(num: nat, den: nat): (n: nat)
    requires den == 1024 || den == 1048576
    ensures n * (2 * den) <= 20 * num + den < (n + 1) * (2 * den)
  {
    (20 * num + den) / (2 * den)
  }

  function Fixed1(num: nat, den: nat): (s: string)
    requires den == 1024 || den == 1048576
    ensures |s| >= 3 && IsDigit(s[|s| - 1])
  {
    var n := Tenths(num, den);
    NatToString(n / 10) + "." + [DigitChar(n % 10)]
  }

  /** `formatFileSize`: bytes below 1024, then KiB below 1048576, else MiB, with one decimal. */
  function FormatFileSize(bytes: nat): (s: string)
  {
    if bytes < 1024 then NatToString(bytes) + " B"
    else if bytes < 1048576 then Fixed1(bytes, 1024) + " KB"
    else Fixed1(bytes, 1048576) + " MB"
  }

  /** Whether `text` ends with a space and `unit`. */
  predicate HasUnit(text: string, unit: string) {
    |unit| + 1 <= |text| && text[|text| - |unit| - 1..] == " " + unit
  }

  /** The label's unit tells the size range: ` B` exactly below 1024 bytes, ` KB` exactly from
      1024 below 1048576, ` MB` exactly from 1048576 on. Before the unit, a byte count reads
      back as the size, and a KB or MB figure is the nearest tenth in that unit. */
  lemma FileSizeUnits(bytes: nat)
    ensures var s := FormatFileSize(bytes);
      && (HasUnit(s, "B") <==> bytes < 1024)
      && (HasUnit(s, "KB") <==> 1024 <= bytes < 1048576)
      && (HasUnit(s, "MB") <==> 1048576 <= bytes)
    ensures var s := FormatFileSize(bytes);
      bytes < 1024 ==> AllDigits(s[..|s| - 2]) && DigitsValue(s[..|s| - 2]) == bytes
    ensures var s := FormatFileSize(bytes);
      1024 <= bytes ==> s[..|s| - 3] == Fixed1(bytes, if bytes < 1048576 then 1024 else 1048576)
  {
    if bytes < 1024 {
      Labelled(NatToString(bytes), " B");
      DigitsValueOfNatToString(bytes);
    } else if bytes < 1048576 {
      Labelled(Fixed1(bytes, 1024), " KB");
    } else {
      Labelled(Fixed1(bytes, 1048576), " MB");
    }
  }

  /** A number followed by one of the three unit suffixes has that unit and no other. */
  lemma Labelled(number: string, suffix: string)
    requires suffix == " B" || suffix == " KB" || suffix == " MB"
    requires number != [] && IsDigit(number[|number| - 1])
    ensures var s := number + suffix;
      && s[..|s| - |suffix|] == number
      && (HasUnit(s, "B") <==> suffix == " B")
      && (HasUnit(s, "KB") <==> suffix == " KB")
      && (HasUnit(s, "MB") <==> suffix == " MB")
  {
    var s := number + suffix;
    assert s[..|number|] == number;
    assert s[|s| - |suffix|..] == suffix;
    assert s[|s| - 2] == suffix[|suffix| - 2];
    assert |suffix| == 3 ==> s[|s| - 3] == ' ';
    assert |suffix| == 2 ==> IsDigit(s[|s| - 3]);
  }

  /** A file just under a mebibyte rounds up to a label of "1024.0 KB" rather than
      switching to megabytes. */
  lemma NearlyOneMebibyte(bytes: nat)
    requires 1048525 <= bytes < 1048576
    ensures Tenths(bytes, 1024) == 10240
    ensures FormatFileSize(bytes) == "1024.0 KB"
  {
    assert Tenths(bytes, 1024) == 10240;
    assert FormatFileSize(bytes) == NatToString(1024) + "." + [DigitChar(0)] + " KB";
    KibibyteLabel();
  }

  lemma KibibyteLabel()
    ensures NatToString(1024) + "." + [DigitChar(0)] + " KB" == "1024.0 KB"
  {
    assert NatToString(1) == "1";
    assert NatToString(10) == NatToString(1) + "0";
    assert NatToString(102) == NatToString(10) + "2";
    assert NatToString(1024) == NatToString(102) + "4";
  }

  /** `"sound_" + Date.now()`. */
  function SoundId(nowMs: nat): string {
    "sound_" + NatToString(nowMs)
  }

  /** Whether `alarm` goes off at `currentTime`. */
  predicate RingsAt(alarm: Alarm, currentTime: string) {
    alarm.enabled && alarm.time == currentTime
  }

  /** The alarms the `forEach` of one check rings, in list order. */
  function Matching(alarms: seq<Alarm>, currentTime: string): (r: seq<Alarm>)
    ensures |r| <= |alarms|
  {
    if alarms == [] then []
    else
      var last := alarms[|alarms| - 1];
      Matching(alarms[..|alarms| - 1], currentTime) + (if RingsAt(last, currentTime) then [last] else [])
  }

  /** The matches of a list are those of its front followed by those of its back: the
      check keeps the list's order. */
  lemma {:induction false} MatchingConcat(xs: seq<Alarm>, ys: seq<Alarm>, currentTime: string)
    ensures Matching(xs + ys, currentTime) == Matching(xs, currentTime) + Matching(ys, currentTime)
  {
    if ys == [] {
      assert xs + ys == xs;
    } else {
      var n := |ys| - 1;
      var front, a := ys[..n], ys[n];
      var rung := if RingsAt(a, currentTime) then [a] else [];
      var all := xs + ys;
      assert all[..|all| - 1] == xs + front && all[|all| - 1] == a;
      assert Matching(all, currentTime) == Matching(xs + front, currentTime) + rung;
      assert Matching(ys, currentTime) == Matching(front, currentTime) + rung;
      MatchingConcat(xs, front, currentTime);
      assert Matching(xs, currentTime) + Matching(front, currentTime) + rung
          == Matching(xs, currentTime) + (Matching(front, currentTime) + rung);
    }
  }

  /** The alarms rung are exactly the enabled alarms of the list set for that minute. */
  lemma {:induction false} MatchingMembers(alarms: seq<Alarm>, currentTime: string)
    ensures forall a :: a in Matching(alarms, currentTime) <==> a in alarms && RingsAt(a, currentTime)
  {
    if alarms != [] {
      var front := alarms[..|alarms| - 1];
      MatchingMembers(front, currentTime);
      assert alarms == front + [alarms[|alarms| - 1]];
    }
  }

  /** `alarms[j]` rings at `currentTime` and no alarm after it does. */
  predicate LastRingingAt(alarms: seq<Alarm>, currentTime: string, j: int) {
    && 0 <= j < |alarms| && RingsAt(alarms[j], currentTime)
    && forall k :: j < k < |alarms| ==> !RingsAt(alarms[k], currentTime)
  }

  /** One more alarm at the end of the list is rung after all the others. */
  lemma MatchingSnoc(alarms: seq<Alarm>, i: nat, currentTime: string)
    requires i < |alarms|
    ensures Matching(alarms[..i + 1], currentTime)
      == Matching(alarms[..i], currentTime) + (if RingsAt(alarms[i], currentTime) then [alarms[i]] else [])
  {
    assert alarms[..i + 1][..i] == alarms[..i];
  }

  lemma NoticeSnoc(m: seq<Alarm>, notices: seq<Notice>, a: Alarm)
    requires |notices| == |m| && forall k :: 0 <= k < |m| ==> notices[k] == RingNotice(m[k])
    ensures var m', notices' := m + [a], notices + [RingNotice(a)];
      |notices'| == |m'| && forall k :: 0 <= k < |m'| ==> notices'[k] == RingNotice(m'[k])
  {
  }

  /** The alarm left ringing is the last enabled one set for that minute: every alarm
      after it in the list is disabled or set for another time. */
  lemma {:induction false} LastMatchWins(alarms: seq<Alarm>, currentTime: string)
    requires Matching(alarms, currentTime) != []
    ensures var m := Matching(alarms, currentTime);
      exists j :: LastRingingAt(alarms, currentTime, j) && alarms[j] == m[|m| - 1]
  {
    var n := |alarms| - 1;
    var front := alarms[..n];
    assert alarms == front + [alarms[n]];
    var m := Matching(alarms, currentTime);
    if RingsAt(alarms[n], currentTime) {
      assert LastRingingAt(alarms, currentTime, n);
    } else {
      LastMatchWins(front, currentTime);
      var j :| LastRingingAt(front, currentTime, j) && front[j] == m[|m| - 1];
      assert LastRingingAt(alarms, currentTime, j);
    }
  }

  /** The toast one ringing alarm shows. */
  function RingNotice(alarm: Alarm): Notice {
    Notice("Alarm \"" + alarm.name + "\" is ringing!", Warning)
  }

  class AlarmPage {
    const store: AlarmStore
    const player: SoundPlayer
    var ringingAlarm: Option<Alarm>
    var lastCheckedTime: string

    constructor(store: AlarmStore, player: SoundPlayer)
      ensures this.store == store && this.player == player
      ensures ringingAlarm == None && lastCheckedTime == ""
    {
      this.store := store;
      this.player := player;
      ringingAlarm := None;
      lastCheckedTime := "";
    }

    /** `checkAlarms` at `hour:minute`, with every playback of this check turning out as
        `outcome`. Nothing happens before the store has loaded or twice in one minute;
        otherwise each enabled alarm set for this minute rings in turn. */
    method Poll(hour: nat, minute: nat, outcome: AudioOutcome) returns (notices: seq<Notice>)
      modifies this, player
      ensures var currentTime := TimeString(hour, minute);
        if !store.isLoaded || currentTime == old(lastCheckedTime) then
          notices == [] && lastCheckedTime == old(lastCheckedTime)
          && ringingAlarm == old(ringingAlarm) && player.State() == old(player.State())
        else
          lastCheckedTime == currentTime && Rang(Matching(store.alarms, currentTime), notices, outcome)
    {
      notices := [];
      if !store.isLoaded {
        return;
      }
      var currentTime := TimeString(hour, minute);
      if currentTime == lastCheckedTime {
        return;
      }
      lastCheckedTime := currentTime;
      notices := RingAll(store.alarms, currentTime, outcome);
    }

    /** What ringing the alarms `m` in turn leaves behind: one toast each, and the last of
        them ringing and playing; with none, nothing changes. */
    twostate predicate Rang(m: seq<Alarm>, notices: seq<Notice>, outcome: AudioOutcome)
      reads this, player, store
    {
      && |notices| == |m| && (forall k :: 0 <= k < |m| ==> notices[k] == RingNotice(m[k]))
      && (m == [] ==> ringingAlarm == old(ringingAlarm) && player.State() == old(player.State()))
      && (m != [] ==>
            ringingAlarm == Some(m[|m| - 1])
            && player.State() == PlayResult(m[|m| - 1].soundId, store.sounds, outcome).0)
    }

    /** The `forEach` of one check. */
    method RingAll(alarms: seq<Alarm>, currentTime: string, outcome: AudioOutcome) returns (notices: seq<Notice>)
      modifies this`ringingAlarm, player
      ensures Rang(Matching(alarms, currentTime), notices, outcome)
    {
      notices := [];
      var i := 0;
      ghost var m: seq<Alarm> := [];
      while i < |alarms|
        invariant 0 <= i <= |alarms|
        invariant m == Matching(alarms[..i], currentTime)
        invariant Rang(m, notices, outcome)
      {
        var alarm := alarms[i];
        MatchingSnoc(alarms, i, currentTime);
        if RingsAt(alarm, currentTime) {
          ringingAlarm := Some(alarm);
          var _ := player.Play(alarm.soundId, store.sounds, outcome);
          NoticeSnoc(m, notices, alarm);
          notices := notices + [RingNotice(alarm)];
          m := m + [alarm];
        }
        i := i + 1;
      }
      assert alarms[..i] == alarms;
    }

    /** `handleSnooze`: a ringing alarm is re-armed five minutes later, the sound stops and
        the ringing alarm is cleared; with nothing ringing the button does nothing. */
    method Snooze(nowMs: nat) returns (notice: Option<Notice>)
      requires store.Valid()
      modifies this, store, player
      ensures old(ringingAlarm).None? ==>
        notice == None && ringingAlarm == None && store.State() == old(store.State())
        && player.State() == old(player.State())
      ensures old(ringingAlarm).Some? ==>
        && notice == Some(Notice("Alarm snoozed for 5 minutes", Success))
        && store.State() == old(store.State()).(alarms := old(store.alarms)
             + [SnoozedCopy(old(ringingAlarm).value, AlarmId(nowMs))])
        && ringingAlarm == None && player.State() == PlayerState(None, false)
      ensures lastCheckedTime == old(lastCheckedTime)
      ensures store.isLoaded == old(store.isLoaded) && store.Valid()
    {
      notice := None;
      if ringingAlarm.Some? {
        var _ := store.AddSnoozeAlarm(ringingAlarm.value, nowMs);
        player.Stop();
        ringingAlarm := None;
        notice := Some(Notice("Alarm snoozed for 5 minutes", Success));
      }
    }

    /** `handleDismiss`: stops the sound and clears the ringing alarm; the list is untouched. */
    method Dismiss() returns (notice: Notice)
      modifies this, player
      ensures notice == Notice("Alarm dismissed", Success)
      ensures ringingAlarm == None && player.State() == PlayerState(None, false)
      ensures lastCheckedTime == old(lastCheckedTime)
    {
      player.Stop();
      ringingAlarm := None;
      notice := Notice("Alarm dismissed", Success);
    }

    /** `handleClearAlarms`: an empty list is reported, not cleared again. */
    method ClearAll() returns (notice: Notice)
      requires store.Valid()
      modifies store
      ensures old(store.alarms) == [] ==>
        notice == Notice("No alarms to clear", Warning) && store.State() == old(store.State())
      ensures old(store.alarms) != [] ==>
        notice == Notice("All alarms cleared", Success) && store.State() == old(store.State()).(alarms := [])
      ensures store.isLoaded == old(store.isLoaded) && store.Valid()
    {
      if |store.alarms| == 0 {
        return Notice("No alarms to clear", Warning);
      }
      store.ClearAlarms();
      notice := Notice("All alarms cleared", Success);
    }

    /** `handleUploadSound` for a file of the given name, type and size; `readResult` is what
        the `FileReader` delivers (None for its error event). */
    method UploadSound(fileName: string, fileType: string, fileSize: nat, readResult: Option<string>, nowMs: nat)
      returns (notice: Notice)
      requires store.Valid()
      modifies store
      ensures !IsAudioType(fileType) ==>
        notice == Notice("Please select an audio file", Danger) && store.State() == old(store.State())
      ensures IsAudioType(fileType) && readResult.None? ==>
        notice == Notice("Error uploading file", Danger) && store.State() == old(store.State())
      ensures IsAudioType(fileType) && readResult.Some? ==>
        && notice == Notice("Sound uploaded successfully!", Success)
        && store.State() == old(store.State()).(
             sounds := old(store.sounds)[SoundId(nowMs) := Sound(StripExtension(fileName), readResult.value, FormatFileSize(fileSize))],
             selectedSound := SoundId(nowMs))
      ensures store.isLoaded == old(store.isLoaded) && store.Valid()
    {
      if !IsAudioType(fileType) {
        return Notice("Please select an audio file", Danger);
      }
      if readResult.None? {
        return Notice("Error uploading file", Danger);
      }
      var id := SoundId(nowMs);
      store.AddSound(id, Sound(StripExtension(fileName), readResult.value, FormatFileSize(fileSize)));
      notice := Notice("Sound uploaded successfully!", Success);
    }

    /** `handleSelectSound`: selects `id` and names it in the toast. */
    method SelectSound(id: string) returns (notice: Notice)
      requires store.Valid()
      modifies store
      ensures store.State() == old(store.State()).(selectedSound := id)
      ensures notice == Notice("Selected sound: " + SoundLabel(id, store.sounds), Success)
      ensures store.isLoaded == old(store.isLoaded) && store.Valid()
    {
      store.SetSelectedSound(id);
      notice := Notice("Selected sound: " + SoundLabel(id, store.sounds), Success);
    }
  }
}

/** The alarm and sound store of `useAlarmState`: the alarm list, the uploaded sounds,
    the selected defaults, and their persistence as one record. */
module AlarmState {
  import opened JsText
  import opened ClockTime

  datatype Alarm = Alarm(id: string, name: string, time: string, soundId: string, enabled: bool)

  /** An uploaded sound: display name, data URL and size label. */
  datatype Sound = Sound(name: string, data: string, size: string)

  /** The five persisted fields. */
  datatype AppState = AppState(
    alarms: seq<Alarm>,
    sounds: map<string, Sound>,
    selectedSound: string,
    currentTheme: string,
    selectedTime: string)

  const DefaultState := AppState([], map[], "default", "dark", "00:00")

  /** The stored record as `JSON.parse` returns it; a field that is absent or null is None. */
  datatype StoredRecord = StoredRecord(
    alarms: Option<seq<Alarm>>,
    sounds: Option<map<string, Sound>>,
    selectedSound: Option<string>,
    currentTheme: Option<string>,
    selectedTime: Option<string>)

  /** The `selarmState` entry of local storage: absent or empty, not parseable, or a record. */
  datatype Saved = NothingSaved | Unparseable | Parsed(record: StoredRecord)

  /** `r` is what `field || fallback` must give: a present, non-empty string is kept, and an
      absent, null or empty one is replaced by the fallback. */
  predicate KeptOrDefault(field: Option<string>, fallback: string, r: string) {
    && (field.Some? && field.value != "" ==> r == field.value)
    && (field.None? || field.value == "" ==> r == fallback)
  }

  /** `field || fallback` on a string field: absent, null and "" are falsy. */
  function OrDefault(field: Option<string>, fallback: string): (r: string)
    ensures KeptOrDefault(field, fallback, r)
    ensures fallback != "" ==> r != ""
  {
    if field.Some? && field.value != "" then field.value else fallback
  }

  /** The load effect: each usable field of a parsed record replaces the state, every other
      field takes its default; nothing saved or a record that fails to parse keeps `current`. */
  function Loaded(saved: Saved, current: AppState): (r: AppState)
    ensures !saved.Parsed? ==> r == current
    ensures saved.Parsed? ==> r.selectedSound != "" && r.currentTheme != "" && r.selectedTime != ""
    ensures saved.Parsed? && saved.record.alarms.Some? ==> r.alarms == saved.record.alarms.value
    ensures saved.Parsed? && saved.record.alarms.None? ==> r.alarms == []
    ensures saved.Parsed? && saved.record.sounds.Some? ==> r.sounds == saved.record.sounds.value
    ensures saved.Parsed? && saved.record.sounds.None? ==> r.sounds == map[]
    ensures saved.Parsed? ==> KeptOrDefault(saved.record.selectedSound, "default", r.selectedSound)
    ensures saved.Parsed? ==> KeptOrDefault(saved.record.currentTheme, "dark", r.currentTheme)
    ensures saved.Parsed? ==> KeptOrDefault(saved.record.selectedTime, "00:00", r.selectedTime)
  {
    match saved
    case Parsed(rec) =>
      AppState(
        if rec.alarms.Some? then rec.alarms.value else [],
        if rec.sounds.Some? then rec.sounds.value else map[],
        OrDefault(rec.selectedSound, "default"),
        OrDefault(rec.currentTheme, "dark"),
        OrDefault(rec.selectedTime, "00:00"))
    case _ => current
  }

  /** The save effect writes all five fields. */
  function Persisted(st: AppState): StoredRecord {
    StoredRecord(Some(st.alarms), Some(st.sounds), Some(st.selectedSound), Some(st.currentTheme), Some(st.selectedTime))
  }

  /** Saving and loading again gives back exactly the saved state, precisely when none of
      its string fields is empty (an empty one comes back as its default). */
  lemma SaveThenLoad(st: AppState, current: AppState)
    ensures Loaded(Parsed(Persisted(st)), current) == st
      <==> st.selectedSound != "" && st.currentTheme != "" && st.selectedTime != ""
  {
  }

  /** Loading the default state's own record gives the default state. */
  lemma LoadDefaults(current: AppState)
    ensures Loaded(Parsed(StoredRecord(None, None, None, None, None)), current) == DefaultState
  {
  }

  /** `"alarm_" + Date.now()`. */
  function AlarmId(nowMs: nat): string {
    "alarm_" + NatToString(nowMs)
  }

  /** `prev.filter(a => a.id !== id)`. */
  function Without(alarms: seq<Alarm>, id: string): (r: seq<Alarm>)
    ensures |r| <= |alarms|
    ensures forall a :: a in r <==> a in alarms && a.id != id
  {
    if alarms == [] then []
    else (if alarms[0].id != id then [alarms[0]] else []) + Without(alarms[1..], id)
  }

  /** Filtering keeps the order: it filters each part of a list separately. */
  lemma {:induction false} WithoutConcat(xs: seq<Alarm>, ys: seq<Alarm>, id: string)
    ensures Without(xs + ys, id) == Without(xs, id) + Without(ys, id)
  {
    if xs == [] {
      assert xs + ys == ys;
    } else {
      var head := if xs[0].id != id then [xs[0]] else [];
      assert (xs + ys)[0] == xs[0];
      assert (xs + ys)[1..] == xs[1..] + ys;
      calc {
        Without(xs + ys, id);
        head + Without(xs[1..] + ys, id);
        { WithoutConcat(xs[1..], ys, id); }
        head + (Without(xs[1..], id) + Without(ys, id));
        (head + Without(xs[1..], id)) + Without(ys, id);
        Without(xs, id) + Without(ys, id);
      }
    }
  }

  /** Removing an id that no alarm has leaves the list as it is. */
  lemma {:induction false} WithoutAbsent(alarms: seq<Alarm>, id: string)
    requires forall a :: a in alarms ==> a.id != id
    ensures Without(alarms, id) == alarms
  {
    if alarms != [] {
      WithoutAbsent(alarms[1..], id);
      assert alarms == [alarms[0]] + alarms[1..];
    }
  }

  lemma WithoutTwice(alarms: seq<Alarm>, id: string)
    ensures Without(Without(alarms, id), id) == Without(alarms, id)
  {
    WithoutAbsent(Without(alarms, id), id);
  }

  /** `prev.map(a => a.id === id ? { ...a, enabled: !a.enabled } : a)`. */
  function Toggled(alarms: seq<Alarm>, id: string): (r: seq<Alarm>)
    ensures |r| == |alarms|
    ensures forall i :: 0 <= i < |r| ==> r[i].(enabled := alarms[i].enabled) == alarms[i]
    ensures forall i :: 0 <= i < |r| ==> (r[i].enabled != alarms[i].enabled <==> alarms[i].id == id)
  {
    if alarms == [] then []
    else
      var a := alarms[0];
      [if a.id == id then a.(enabled := !a.enabled) else a] + Toggled(alarms[1..], id)
  }

  /** Toggling the same id twice restores the list. */
  lemma ToggleTwice(alarms: seq<Alarm>, id: string)
    ensures Toggled(Toggled(alarms, id), id) == alarms
  {
    var once := Toggled(alarms, id);
    var twice := Toggled(once, id);
    forall i | 0 <= i < |alarms| ensures twice[i] == alarms[i] {
      assert once[i].id == alarms[i].id;
    }
  }

  /** The alarm `addSnoozeAlarm` appends for `original`. */
  function SnoozedCopy(original: Alarm, id: string): (a: Alarm)
    ensures a.id == id && a.enabled && a.soundId == original.soundId
    ensures a.name == original.name + " (Snoozed)"
    ensures IsTimeString(original.time) ==>
      IsTimeString(a.time) && MinuteOfDay(a.time) == (MinuteOfDay(original.time) + 5) % 1440
  {
    var time := SnoozeTime(original.time);
    SnoozeIfTimeString(original.time, time);
    Alarm(id, original.name + " (Snoozed)", time, original.soundId, true)
  }

  lemma SnoozeIfTimeString(t: string, r: string)
    requires r == SnoozeTime(t)
    ensures IsTimeString(t) ==> IsTimeString(r) && MinuteOfDay(r) == (MinuteOfDay(t) + 5) % 1440
  {
    if IsTimeString(t) {
      SnoozeOfTimeString(t);
    }
  }

  /** The state of `useAlarmState`, one field per `useState`, with the local-storage entry
      it writes after every change once loaded. */
  class AlarmStore {
    var alarms: seq<Alarm>
    var sounds: map<string, Sound>
    var selectedSound: string
    var currentTheme: string
    var selectedTime: string
    var isLoaded: bool
    var storage: Saved

    function State(): AppState
      reads this
    {
      AppState(alarms, sounds, selectedSound, currentTheme, selectedTime)
    }

    /** Once loaded, local storage holds the current state. */
    ghost predicate Valid()
      reads this
    {
      isLoaded ==> storage == Parsed(Persisted(State()))
    }

    /** The first render: default state, nothing loaded yet, `saved` in local storage. */
    constructor(saved: Saved)
      ensures State() == DefaultState && !isLoaded && storage == saved && Valid()
    {
      alarms, sounds, selectedSound, currentTheme, selectedTime := [], map[], "default", "dark", "00:00";
      isLoaded := false;
      storage := saved;
    }

    /** The save effect: after a change, a loaded store writes all five fields. */
    method Save()
      modifies this`storage
      ensures storage == if isLoaded then Parsed(Persisted(State())) else old(storage)
      ensures Valid()
    {
      if isLoaded {
        storage := Parsed(Persisted(State()));
      }
    }

    /** The load effect, then the save effect its `isLoaded` change triggers. */
    method Load()
      modifies this
      ensures State() == Loaded(old(storage), old(State()))
      ensures isLoaded && Valid()
    {
      var st := Loaded(storage, State());
      alarms, sounds, selectedSound, currentTheme, selectedTime :=
        st.alarms, st.sounds, st.selectedSound, st.currentTheme, st.selectedTime;
      isLoaded := true;
      Save();
    }

    method AddAlarm(name: string, nowMs: nat) returns (alarm: Alarm)
      requires Valid()
      modifies this
      ensures alarm == Alarm(AlarmId(nowMs), if name == "" then "Alarm" else name, selectedTime, selectedSound, true)
      ensures alarms == old(alarms) + [alarm]
      ensures sounds == old(sounds) && selectedSound == old(selectedSound)
      ensures currentTheme == old(currentTheme) && selectedTime == old(selectedTime)
      ensures isLoaded == old(isLoaded) && Valid()
    {
      alarm := Alarm(AlarmId(nowMs), if name == "" then "Alarm" else name, selectedTime, selectedSound, true);
      alarms := alarms + [alarm];
      Save();
    }

    method RemoveAlarm(id: string)
      requires Valid()
      modifies this
      ensures State() == old(State()).(alarms := Without(old(alarms), id))
      ensures isLoaded == old(isLoaded) && Valid()
    {
      alarms := Without(alarms, id);
      Save();
    }

    method ToggleAlarm(id: string)
      requires Valid()
      modifies this
      ensures State() == old(State()).(alarms := Toggled(old(alarms), id))
      ensures isLoaded == old(isLoaded) && Valid()
    {
      alarms := Toggled(alarms, id);
      Save();
    }

    method ClearAlarms()
      requires Valid()
      modifies this
      ensures State() == old(State()).(alarms := [])
      ensures isLoaded == old(isLoaded) && Valid()
    {
      alarms := [];
      Save();
    }

    /** Stores (or replaces) sound `id` and selects it. */
    method AddSound(id: string, sound: Sound)
      requires Valid()
      modifies this
      ensures sounds == old(sounds)[id := sound] && selectedSound == id
      ensures alarms == old(alarms) && currentTheme == old(currentTheme) && selectedTime == old(selectedTime)
      ensures isLoaded == old(isLoaded) && Valid()
    {
      sounds := sounds[id := sound];
      selectedSound := id;
      Save();
    }

    /** Deletes sound `id`; a selection of it falls back to the default beep. */
    method RemoveSound(id: string)
      requires Valid()
      modifies this
      ensures sounds == old(sounds) - {id}
      ensures selectedSound == if old(selectedSound) == id then "default" else old(selectedSound)
      ensures alarms == old(alarms) && currentTheme == old(currentTheme) && selectedTime == old(selectedTime)
      ensures isLoaded == old(isLoaded) && Valid()
    {
      sounds := sounds - {id};
      if selectedSound == id {
        selectedSound := "default";
      }
      Save();
    }

    /** Appends a snoozed copy of `original`, which itself is left as it is. */
    method AddSnoozeAlarm(original: Alarm, nowMs: nat) returns (alarm: Alarm)
      requires Valid()
      modifies this
      ensures alarm == SnoozedCopy(original, AlarmId(nowMs))
      ensures State() == old(State()).(alarms := old(alarms) + [alarm])
      ensures isLoaded == old(isLoaded) && Valid()
    {
      alarm := SnoozedCopy(original, AlarmId(nowMs));
      alarms := alarms + [alarm];
      Save();
    }

    method SetSelectedSound(id: string)
      requires Valid()
      modifies this
      ensures State() == old(State()).(selectedSound := id)
      ensures isLoaded == old(isLoaded) && Valid()
    {
      selectedSound := id;
      Save();
    }

    method SetCurrentTheme(theme: string)
      requires Valid()
      modifies this
      ensures State() == old(State()).(currentTheme := theme)
      ensures isLoaded == old(isLoaded) && Valid()
    {
      currentTheme := theme;
      Save();
    }

    method SetSelectedTime(time: string)
      requires Valid()
      modifies this
      ensures State() == old(State()).(selectedTime := time)
      ensures isLoaded == old(isLoaded) && Valid()
    {
      selectedTime := time;
      Save();
    }
  }
}

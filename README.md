# Selarm alarm logic in Dafny

This project models the alarm logic of Selarm, a browser alarm clock written with React.
It covers five parts of the app:

- **The store.** `useAlarmState` keeps the alarm list, the uploaded sounds and the selected sound, theme and time. It loads and saves them as one record.
- **The sound slot.** `useSound` holds one playback session and an `isPlaying` flag.
- **The page controller.** It checks the alarms once a minute and handles snooze, dismiss, clear-all, sound upload and sound selection.
- **Three alarm forms**, each a different way of entering a time:
  - the keypad form, which fills a sliding buffer of up to four digits;
  - the stepper form, with hour and minute up/down buttons and scroll-wheel support;
  - the dropdown form, which lists every five-minute time of the day.

The modules follow that structure:

- `JsText` holds the JavaScript built-ins the logic relies on: `String(n)`, `padStart(2, "0")`, `trim()`, `startsWith`, and `Number(...)` applied to a piece of `split(":")`. It also defines `LexLess`, the order of JavaScript string comparison. No operation of the app orders strings with `<` (it only tests them for equality); `LexLess` only states that the dropdown's option list is sorted.
- `ClockTime` covers `HH:MM` strings: formatting, parsing, the snooze arithmetic and their order.
- `AlarmState` is the store, as a class whose fields the operations reassign. It also holds the list and record functions those operations are specified by.
- `SoundSession` is the playback slot. The browser audio calls are reduced to an `AudioOutcome` parameter.
- `FormLabels` holds the sound label and the submitted name that all forms share.
- `KeypadAlarmForm`, `StepperAlarmForm` and `DropdownAlarmForm` are the three forms. Each is a class over the component's state, with pure functions for the display.
- `AlarmPage` is the page controller. It is a class holding the store, the player, `ringingAlarm` and `lastCheckedTime`.

Wall-clock time, `Date.now()` ids, file contents and the outcome of browser audio calls are parameters of the methods that use them.

Some behaviours of the code are easy to misread, and the model follows the code in each:

- **Keypad hint.** The hint under the keypad field (selarm-main/components/alarm/alarm-form.tsx:243) reads `3 → 03:00`, `33 → 23:00`, `335 → 23:50`, `3359 → 23:59`. The code agrees on the first and gives something else for the rest:
  - a first digit above 2 shows `03:00`, as the hint says;
  - two digits starting above 2 show `00:00`;
  - three or four such digits give hour `00`, so `335` shows `00:50` and `3359` shows `00:59`.
- **Backspace.** With digits left, Backspace shows the empty string, not the shorter buffer.
- **Focus.** Focusing the time field clears only the buffer, not the display.
- **Blur.** Blurring with one digit `d` commits `0d:00`, even when the display showed `d0:00` (see `BlurDiffersFromDisplay`).
- **Several matching alarms.** When several enabled alarms match one minute, each one rings in turn, and the last of them is the one left ringing.
- **Auto-stop timers.** They are never cancelled. A playback error listener clears `isPlaying` even when a newer session is playing.

## Model

| member | source | states |
|---|---|---|
| JsText.Trim | selarm-main/components/alarm/alarm-form.tsx:188 | the result has no JavaScript white space at either end, and is empty exactly when the input is all white space |
| JsText.TrimIsSlice | selarm-main/components/alarm/alarm-form.tsx:188 | the result is a slice of the input with only white space before and after it |
| JsText.NumberOf | components/alarm/alarm-form.tsx:39 | a segment made of decimal digits gives a number (the empty segment gives 0), anything else is NaN |
| JsText.DigitsValueOfNatToString | page.tsx:57 | `String(n)` reads back as `n` |
| JsText.Pad2Value | page.tsx:57 | the zero-padded numeral of `n` reads back as `n` |
| JsText.Pad2Digits | page.tsx:57 | a number below 100 is shown as its two decimal digits |
| ClockTime.TimeStringValid | page.tsx:57 | an in-range hour and minute formatted with `padStart(2, "0")` is a well-formed `HH:MM` that reads back as that hour and minute |
| ClockTime.TimeStringOfFields | page.tsx:57 | every well-formed `HH:MM` is the formatting of its own hour and minute |
| ClockTime.ParseTimeString | components/alarm/alarm-form.tsx:39 | splitting any formatted time on `:` and applying `Number` gives back the hour and the minute |
| ClockTime.ClockOfMinute | selarm-main/hooks/use-alarm-state.tsx:131-133 | the time `k` minutes after midnight is a well-formed time at minute-of-day `k` |
| ClockTime.SnoozeTime | selarm-main/hooks/use-alarm-state.tsx:130-133 | a readable `h:m` gives a well-formed time at minute-of-day `(h*60+m+5) mod 1440`; an unreadable one gives `NaN:NaN` |
| ClockTime.SnoozeOfTimeString | selarm-main/hooks/use-alarm-state.tsx:130-133 | a well-formed time is moved exactly five minutes on the 24-hour dial |
| ClockTime.SnoozeWrapsPastMidnight | selarm-main/hooks/use-alarm-state.tsx:130-133 | in the last five minutes of the day snoozing wraps to hour 0 (`23:58` to `00:03`) |
| ClockTime.TimeOrder | alarm/alarm-form.tsx:34-41 | two well-formed times compare as strings exactly as they compare on the clock |
| AlarmState.Loaded | selarm-main/hooks/use-alarm-state.tsx:44-59 | nothing saved or an unparseable entry keeps the state; from a parsed record a present alarm list or sound map is kept and a missing one becomes empty, and each present non-empty string is kept while a missing or empty one becomes `default`, `dark` or `00:00` |
| AlarmState.SaveThenLoad | selarm-main/hooks/use-alarm-state.tsx:44-72 | saving then loading gives the saved state back exactly when none of its three strings is empty |
| AlarmState.LoadDefaults | selarm-main/hooks/use-alarm-state.tsx:27-33 | a record with every field missing loads as the default state |
| AlarmState.Without | selarm-main/hooks/use-alarm-state.tsx:95-97 | the result is no longer than the list and holds exactly the alarms of the list whose id differs |
| AlarmState.WithoutConcat | selarm-main/hooks/use-alarm-state.tsx:95-97 | removal works part by part, so the kept alarms stay in their order |
| AlarmState.WithoutAbsent | selarm-main/hooks/use-alarm-state.tsx:95-97 | removing an id no alarm has leaves the list unchanged |
| AlarmState.WithoutTwice | selarm-main/hooks/use-alarm-state.tsx:95-97 | removing the same id twice is removing it once |
| AlarmState.Toggled | selarm-main/hooks/use-alarm-state.tsx:99-103 | same length and order; each alarm keeps every field but `enabled`, which flips exactly on the alarms with the id |
| AlarmState.ToggleTwice | selarm-main/hooks/use-alarm-state.tsx:99-103 | toggling the same id twice restores the list |
| AlarmState.SnoozedCopy | selarm-main/hooks/use-alarm-state.tsx:128-141 | the snoozed alarm is enabled, keeps the sound, is named `<name> (Snoozed)` and is set five minutes after a well-formed original time |
| AlarmState.AlarmStore.constructor | selarm-main/hooks/use-alarm-state.tsx:36-41 | the first render holds the default state, not yet loaded |
| AlarmState.AlarmStore.Save | selarm-main/hooks/use-alarm-state.tsx:62-72 | once loaded, storage holds all five fields of the state; before, it is left alone |
| AlarmState.AlarmStore.Load | selarm-main/hooks/use-alarm-state.tsx:44-59 | the state becomes `Loaded` of what was stored, the store is loaded, and storage then holds the state |
| AlarmState.AlarmStore.AddAlarm | selarm-main/hooks/use-alarm-state.tsx:80-93 | exactly one alarm is appended, with the selected time and sound, enabled, named `Alarm` when the name is empty; nothing else changes |
| AlarmState.AlarmStore.RemoveAlarm | selarm-main/hooks/use-alarm-state.tsx:95-97 | the list becomes `Without` of it; nothing else changes |
| AlarmState.AlarmStore.ToggleAlarm | selarm-main/hooks/use-alarm-state.tsx:99-103 | the list becomes `Toggled` of it; nothing else changes |
| AlarmState.AlarmStore.ClearAlarms | selarm-main/hooks/use-alarm-state.tsx:105-107 | the list becomes empty; nothing else changes |
| AlarmState.AlarmStore.AddSound | selarm-main/hooks/use-alarm-state.tsx:109-112 | the sound is stored under its id, replacing any earlier one, and selected; other sounds and fields are unchanged |
| AlarmState.AlarmStore.RemoveSound | selarm-main/hooks/use-alarm-state.tsx:114-126 | only that key is deleted; the selection falls back to `default` exactly when it was that id |
| AlarmState.AlarmStore.AddSnoozeAlarm | selarm-main/hooks/use-alarm-state.tsx:128-146 | exactly one snoozed copy is appended and the original is untouched |
| AlarmState.AlarmStore.SetSelectedSound | selarm-main/hooks/use-alarm-state.tsx:38 | only the selected sound changes, and storage follows |
| AlarmState.AlarmStore.SetCurrentTheme | selarm-main/hooks/use-alarm-state.tsx:39 | only the theme changes, and storage follows |
| AlarmState.AlarmStore.SetSelectedTime | selarm-main/hooks/use-alarm-state.tsx:40 | only the selected time changes, and storage follows |
| SoundSession.PlayResult | selarm-main/hooks/use-alarm-state.tsx:205-281 | playing succeeds exactly for a playable id whose audio calls succeed; an unknown id leaves no session and `isPlaying` false; a session holds the synthesised beep exactly for `default` and the stored sound's data otherwise |
| SoundSession.SoundPlayer.Stop | selarm-main/hooks/use-alarm-state.tsx:283-305 | the slot is empty and nothing is playing, whatever was there, so stopping twice is stopping once |
| SoundSession.SoundPlayer.Play | selarm-main/hooks/use-alarm-state.tsx:205-281 | stops the old session first; the slot and the result are `PlayResult` |
| SoundSession.SoundPlayer.PlaybackFailed | selarm-main/hooks/use-alarm-state.tsx:249-258 | an error listener clears `isPlaying` and leaves the slot as it is |
| FormLabels.SoundLabel | selarm-main/components/alarm/alarm-form.tsx:30-33 | `Default Beep` for `default`, an unknown id, or a stored sound whose name is empty (as an upload named `.mp3` gives); otherwise the stored sound's name; never empty |
| FormLabels.SoundLabelAfterRemoval | page.tsx:122-123 | a deleted sound's id is labelled `Default Beep` |
| FormLabels.SubmittedName | selarm-main/components/alarm/alarm-form.tsx:188 | the trimmed name, or `Alarm` when only white space was typed; never empty, with no white space at either end |
| KeypadAlarmForm.Window | selarm-main/components/alarm/alarm-form.tsx:44 | at most four digits, the last ones of the input |
| KeypadAlarmForm.SlidingWindow | selarm-main/components/alarm/alarm-form.tsx:146 | a digit is appended to a short buffer; a full buffer drops its oldest digit |
| KeypadAlarmForm.RenderDigits | selarm-main/components/alarm/alarm-form.tsx:46-104 | every buffer of one to four digits is shown as a well-formed `HH:MM` |
| KeypadAlarmForm.ProcessTimeKey | selarm-main/components/alarm/alarm-form.tsx:41-105 | a non-digit key comes back unchanged; a digit key gives a well-formed time |
| KeypadAlarmForm.DigitKey | selarm-main/components/alarm/alarm-form.tsx:41-44 | a digit key on a valid buffer gives a window of one to four digits, and the key is shown as that window's rendering |
| KeypadAlarmForm.RenderedFields | selarm-main/components/alarm/alarm-form.tsx:46-102 | hour and minute shown for each buffer length: one digit `d` gives hour `10d` up to 2 and 3 above; from two digits the hour is `0x`/`1x` as typed, `2x` capped at 23, else 0; minutes are 00, then the tens capped at 5, then the units as typed |
| KeypadAlarmForm.RenderRefines | selarm-main/components/alarm/alarm-form.tsx:70-102 | the third and fourth digits keep the hour shown, and the fourth keeps the minutes' tens |
| KeypadAlarmForm.TypedAsShown | selarm-main/components/alarm/alarm-form.tsx:86-101 | four digits are shown as typed exactly when they spell a valid time |
| KeypadAlarmForm.BlurDiffersFromDisplay | selarm-main/components/alarm/alarm-form.tsx:171-176 | a one-digit blur commits a valid time, equal to the one shown exactly for the digits 0 and 3 |
| KeypadAlarmForm.KeypadForm.constructor | selarm-main/components/alarm/alarm-form.tsx:25-38 | empty name and buffer, the display showing the selected time |
| KeypadAlarmForm.KeypadForm.SelectedTimeChanged | selarm-main/components/alarm/alarm-form.tsx:36-38 | the display shows the new selected time |
| KeypadAlarmForm.KeypadForm.NameChanged | selarm-main/components/alarm/alarm-form.tsx:213 | the name becomes what was typed |
| KeypadAlarmForm.KeypadForm.KeyDown | selarm-main/components/alarm/alarm-form.tsx:107-154 | Backspace pops one digit and shows `00:00` or the empty string; Delete empties and shows `00:00`; a digit slides the window, shows its rendering and reports it from two digits on; other keys change nothing |
| KeypadAlarmForm.KeypadForm.Backspace | selarm-main/components/alarm/alarm-form.tsx:112-124 | the last digit is dropped; the display shows `00:00` when the buffer is then empty and the empty string otherwise |
| KeypadAlarmForm.KeypadForm.TypeDigit | selarm-main/components/alarm/alarm-form.tsx:140-153 | the digit slides into the four-digit window, the display shows the window's rendering, and it is reported from two digits on |
| KeypadAlarmForm.KeypadForm.Focus | selarm-main/components/alarm/alarm-form.tsx:156-165 | the buffer is emptied |
| KeypadAlarmForm.KeypadForm.Blur | selarm-main/components/alarm/alarm-form.tsx:167-179 | an empty buffer restores the selected time silently; one digit `d` shows and reports `0d:00`; more digits change nothing |
| KeypadAlarmForm.KeypadForm.AddAlarm | selarm-main/components/alarm/alarm-form.tsx:187-193 | submits `SubmittedName`, then clears the name and the buffer and shows the selected time |
| KeypadAlarmForm.KeypadForm.NameKeyDown | selarm-main/components/alarm/alarm-form.tsx:195-199 | Enter adds the alarm; any other key changes nothing |
| StepperAlarmForm.NextHour | components/alarm/alarm-form.tsx:52 | a number stays a number and lands in 0..23 |
| StepperAlarmForm.PrevHour | components/alarm/alarm-form.tsx:53 | a number stays a number and lands in 0..23 |
| StepperAlarmForm.NextMinute | components/alarm/alarm-form.tsx:54 | a number stays a number and lands in 0..59 |
| StepperAlarmForm.PrevMinute | components/alarm/alarm-form.tsx:55 | a number stays a number and lands in 0..59 |
| StepperAlarmForm.HourStepsInverse | components/alarm/alarm-form.tsx:52-53 | the hour up and down steps undo each other |
| StepperAlarmForm.MinuteStepsInverse | components/alarm/alarm-form.tsx:54-55 | the minute up and down steps undo each other |
| StepperAlarmForm.RepeatNextHour | components/alarm/alarm-form.tsx:52 | `k` hour steps from `h` give `(h+k) mod 24` |
| StepperAlarmForm.RepeatNextMinute | components/alarm/alarm-form.tsx:54 | `k` minute steps from `m` give `(m+5k) mod 60` |
| StepperAlarmForm.FullTurns | components/alarm/alarm-form.tsx:52-55 | any number of full turns, a multiple of 24 hour steps or of 12 minute steps, brings the value back |
| StepperAlarmForm.FormatParseRoundTrip | components/alarm/alarm-form.tsx:39-46 | formatting then splitting gives the numbers back, and splitting a well-formed time then formatting gives the time back |
| StepperAlarmForm.EffectsSettle | components/alarm/alarm-form.tsx:37-50 | once the parent adopts a reported time, syncing gives the same numbers and the report effect (`TimeChange`) reports nothing more |
| StepperAlarmForm.StepperForm.constructor | components/alarm/alarm-form.tsx:26-42 | empty name; hours and minutes as the mount effect reads them from the selected time |
| StepperAlarmForm.StepperForm.SelectedTimeChanged | components/alarm/alarm-form.tsx:38-42 | hours and minutes become the selected time split on `:` |
| StepperAlarmForm.StepperForm.IncrementHours | components/alarm/alarm-form.tsx:52 | hours become `NextHour` of themselves |
| StepperAlarmForm.StepperForm.DecrementHours | components/alarm/alarm-form.tsx:53 | hours become `PrevHour` of themselves |
| StepperAlarmForm.StepperForm.IncrementMinutes | components/alarm/alarm-form.tsx:54 | minutes become `NextMinute` of themselves |
| StepperAlarmForm.StepperForm.DecrementMinutes | components/alarm/alarm-form.tsx:55 | minutes become `PrevMinute` of themselves |
| StepperAlarmForm.StepperForm.WheelHours | components/alarm/alarm-form.tsx:58-62 | scrolling up (`deltaY < 0`) steps up, any other scroll steps down |
| StepperAlarmForm.StepperForm.WheelMinutes | components/alarm/alarm-form.tsx:64-68 | scrolling up (`deltaY < 0`) steps up, any other scroll steps down |
| StepperAlarmForm.StepperForm.NameChanged | components/alarm/alarm-form.tsx:175 | the name becomes what was typed |
| StepperAlarmForm.StepperForm.AddAlarm | components/alarm/alarm-form.tsx:70-73 | submits `SubmittedName` and clears the name |
| DropdownAlarmForm.TimeOptions | alarm/alarm-form.tsx:34-41 | exactly 288 entries, entry `i` being hour `i/12` and minute `5*(i mod 12)` zero-padded |
| DropdownAlarmForm.OptionIndex | alarm/alarm-form.tsx:35-39 | the time pushed for hour `h` and slot `s` sits at index `12h+s` |
| DropdownAlarmForm.OptionValid | alarm/alarm-form.tsx:35-39 | every entry is a well-formed time `5i` minutes after midnight, on a five-minute mark |
| DropdownAlarmForm.OptionsIncreasing | alarm/alarm-form.tsx:34-41 | entries are strictly increasing as strings, so none repeats |
| DropdownAlarmForm.OptionsComplete | alarm/alarm-form.tsx:34-41 | every time of day on a five-minute mark is offered |
| DropdownAlarmForm.OptionsEnds | alarm/alarm-form.tsx:34-41 | the first entry is `00:00` and the last `23:55` |
| DropdownAlarmForm.DropdownForm.constructor | alarm/alarm-form.tsx:24-25 | empty name, list closed |
| DropdownAlarmForm.DropdownForm.ToggleTimePicker | alarm/alarm-form.tsx:73 | the list opens when closed and closes when open |
| DropdownAlarmForm.DropdownForm.ChooseOption | alarm/alarm-form.tsx:91-94 | the chosen time is reported and the list closes |
| DropdownAlarmForm.DropdownForm.DocumentClick | alarm/alarm-form.tsx:44-55 | a click outside the dropdown closes the list; one inside leaves it |
| DropdownAlarmForm.DropdownForm.NameChanged | alarm/alarm-form.tsx:117 | the name becomes what was typed |
| DropdownAlarmForm.DropdownForm.AddAlarm | alarm/alarm-form.tsx:57-60 | submits `SubmittedName` and clears the name |
| AlarmPage.LastSeparator | page.tsx:146 | the last dot or slash of a name, with none after it |
| AlarmPage.StripExtension | page.tsx:146 | a name ending in a dot and an extension without dots or slashes loses exactly that suffix; any other name is kept whole |
| AlarmPage.StripAppended | page.tsx:146 | stripping undoes appending `.` and an extension |
| AlarmPage.StripWithoutDot | page.tsx:146 | a name with no separator, whose last separator is a slash, or whose last dot ends it, is kept whole |
| AlarmPage.Tenths | page.tsx:141-142 | the tenths `toFixed(1)` shows are the nearest to the exact size in the unit, the larger on a tie |
| AlarmPage.FileSizeUnits | page.tsx:139-143 | the label ends in ` B` exactly below 1024 bytes, in ` KB` exactly from 1024 below 1048576, in ` MB` exactly from 1048576 on; a byte count reads back as the size, and a KB or MB figure is the one-decimal `Fixed1` of the nearest tenth |
| AlarmPage.NearlyOneMebibyte | page.tsx:139-143 | sizes from 1048525 to 1048575 bytes round to 10240 tenths and are labelled `1024.0 KB` |
| AlarmPage.MatchingMembers | page.tsx:63-69 | the alarms rung are exactly the enabled alarms of the list set for that minute |
| AlarmPage.MatchingConcat | page.tsx:63-69 | the matches of a list are the matches of its front followed by those of its back, so alarms ring in list order |
| AlarmPage.LastMatchWins | page.tsx:63-69 | the alarm left ringing rings at that minute and no later alarm in the list does |
| AlarmPage.AlarmPage.constructor | page.tsx:47-49 | nothing ringing and no minute checked yet |
| AlarmPage.AlarmPage.Poll | page.tsx:52-70 | nothing happens before loading or twice in one minute; otherwise the minute is recorded and every match rings in turn, with one toast each, the last match left ringing and playing; with no match the ringing alarm and the player are unchanged |
| AlarmPage.AlarmPage.RingAll | page.tsx:63-69 | one toast per match; the last match ringing and playing, or nothing changed when none matches |
| AlarmPage.AlarmPage.Snooze | page.tsx:176-183 | with an alarm ringing: one snoozed copy appended, sound stopped, nothing ringing; with none ringing, nothing changes |
| AlarmPage.AlarmPage.Dismiss | page.tsx:185-189 | sound stopped and nothing ringing; the store is untouched |
| AlarmPage.AlarmPage.ClearAll | page.tsx:105-112 | an empty list only gives a warning; otherwise the list is emptied |
| AlarmPage.AlarmPage.UploadSound | page.tsx:129-158 | a non-audio type is rejected before any change; a read error changes nothing; otherwise the sound is stored under `sound_<now>` with the stripped name and size label, and selected |
| AlarmPage.AlarmPage.SelectSound | page.tsx:119-127 | the sound is selected and the toast names it by `SoundLabel` |

## Left out

- Tone synthesis is not modelled. The default beep is built with floating-point `Math.exp`, `sin` and `cos`, and the Web Audio and `HTMLAudioElement` calls are foreign APIs. Their outcome is the `AudioOutcome` parameter.
- The auto-stop timers of a preview are not modelled, since they are timer scheduling. They are never cancelled, and nothing in the model claims they are.
- The one-second `setInterval` of the page is not modelled. A check is one call of `Poll` with the current hour and minute.
- AlarmPage.AlarmPage.Poll: every playback in one check is given the same `AudioOutcome`.
- `localStorage`, `JSON.parse`/`JSON.stringify` and the `data-theme` attribute are I/O. Storage is a `Saved` field, and a stored record is a datatype with optional fields. A field that parses to a value of the wrong type is not modelled.
- `Date.now()` and `new Date()` are parameters.
  - Ids are `alarm_`/`sound_` followed by the decimal milliseconds, and the model does not prove them unique.
  - Snoozing uses plain minute-of-day arithmetic modulo 1440, with no daylight-saving change.
- `FileReader` and the data-URL encoding are left out. The read result is a parameter, and its error event is `None`.
- JsText.NumberOf: `Number` is modelled only on segments of decimal digits. Surrounding white space, signs, decimals, exponents and hexadecimal read as NaN here, though JavaScript reads them as numbers. Hour and minute strings in the app are digits only.
- AlarmPage.Tenths: the file size is taken to be exact in a double, which holds up to 2^53 bytes.
- JsText.NumberOf: a digit segment gives its exact integer value. JavaScript rounds a numeral above 2^53 to the nearest double, and the stepper's `String(n)` writes 1e21 and above in exponent form; neither is modelled.
- ClockTime.SnoozeTime: the hour and minute are exact integers and the day has no range limit. In JavaScript `setHours` on an hour so large that the date leaves the ±8.64e15 ms range gives an invalid date, shown as `NaN:NaN`; the model gives a well-formed time for every readable `h:m`. Times the app writes itself are always in range.
- JsText.LexLess compares characters, not UTF-16 code units. This makes no difference for the digit strings it orders.
- `selectionStart` and `handleTimeClick` of the keypad form are left out. They only record a caret position that nothing reads.
- The stepper form's initial `parseInt` state is replaced, on mount, by the `Number` reading of its sync effect, which is what the constructor models.
- The other page handlers are not modelled separately: add, remove, toggle, test sound, play preview, delete sound, theme change and closing the pickers. Each only forwards to a store or player operation modelled above and shows a toast.
- Toast display and removal, the modals, and the presentational components are not part of this model.
- React batching and closures are not modelled. Each event handler is one atomic step on the component state.

/** The two expressions every alarm form variant and the page share: the label of the
    selected sound and the name submitted with a new alarm. */
module FormLabels {
  import opened JsText
  import opened AlarmState

  /** `id === "default" ? "Default Beep" : sounds[id]?.name || "Default Beep"`. */
  function SoundLabel(id: string, sounds: map<string, Sound>): (shown: string)
    ensures shown != ""
    ensures id == "default" || id !in sounds ==> shown == "Default Beep"
    ensures id != "default" && id in sounds && sounds[id].name != "" ==> shown == sounds[id].name
    ensures id != "default" && id in sounds && sounds[id].name == "" ==> shown == "Default Beep"
  {
    if id == "default" then "Default Beep"
    else if id in sounds && sounds[id].name != "" then sounds[id].name
    else "Default Beep"
  }

  /** A stored sound's label is its own name unless that name is empty; an id that is
      gone (deleted while still selected by an alarm) reads as the default beep. */
  lemma SoundLabelAfterRemoval(id: string, sounds: map<string, Sound>)
    ensures SoundLabel(id, sounds - {id}) == "Default Beep"
  {
  }

  /** `alarmName.trim() || "Alarm"`: the trimmed name, or "Alarm" when nothing but white
      space was typed. */
  function SubmittedName(alarmName: string): (name: string)
    ensures name != [] && !IsJsWhitespace(name[0]) && !IsJsWhitespace(name[|name| - 1])
    ensures AllWhitespace(alarmName) ==> name == "Alarm"
    ensures !AllWhitespace(alarmName) ==> name == Trim(alarmName)
  {
    var t := Trim(alarmName);
    if t == "" then FallbackNameEnds(); "Alarm" else t
  }

  lemma FallbackNameEnds()
    ensures !IsJsWhitespace("Alarm"[0]) && !IsJsWhitespace("Alarm"[4])
  {
  }
}

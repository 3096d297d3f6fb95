/** The single playback slot of `useSound`: `audioRef.current` and `isPlaying`. The audio
    itself (synthesis, Web Audio, `HTMLAudioElement`) is opaque; only what the browser calls
    do to the slot is modelled, through an `AudioOutcome` parameter. */
module SoundSession {
  import opened JsText
  import opened AlarmState

  /** How the browser audio calls of one `playSound` turn out: all succeed, one fails before
      the session is stored in `audioRef` (no default tone could be synthesised, the buffer
      source or the `Audio` element could not be created), or one fails after it was stored
      (`source.start()` or `audio.load()` throws). */
  datatype AudioOutcome = Starts | FailsBeforeAttach | FailsAfterAttach

  /** What `audioRef.current` holds: the looping synthesised beep, or an `Audio` element on
      an uploaded sound's data URL. */
  datatype Playback = Synthesized | Uploaded(data: string)

  datatype PlayerState = PlayerState(current: Option<Playback>, isPlaying: bool)

  /** Whether `soundId` names something playable: the default beep or a stored sound. */
  predicate Playable(soundId: string, sounds: map<string, Sound>) {
    soundId == "default" || soundId in sounds
  }

  /** `playSound(soundId, sounds)`: the slot afterwards and the returned flag. Whatever was
      playing before has been stopped, so the result does not depend on it. */
  function PlayResult(soundId: string, sounds: map<string, Sound>, outcome: AudioOutcome): (r: (PlayerState, bool))
    ensures r.1 <==> Playable(soundId, sounds) && outcome == Starts
    ensures r.0.isPlaying == r.1
    ensures r.0.current.Some? <==> Playable(soundId, sounds) && outcome != FailsBeforeAttach
    ensures r.0.current == Some(Synthesized) ==> soundId == "default"
    ensures r.0.current.Some? && soundId == "default" ==> r.0.current == Some(Synthesized)
    ensures r.0.current.Some? && soundId != "default" ==> r.0.current == Some(Uploaded(sounds[soundId].data))
  {
    if soundId == "default" then
      match outcome
      case Starts => (PlayerState(Some(Synthesized), true), true)
      case FailsBeforeAttach => (PlayerState(None, false), false)
      case FailsAfterAttach => (PlayerState(Some(Synthesized), false), false)
    else if soundId in sounds then
      var audio := Uploaded(sounds[soundId].data);
      match outcome
      case Starts => (PlayerState(Some(audio), true), true)
      case FailsBeforeAttach => (PlayerState(None, false), false)
      case FailsAfterAttach => (PlayerState(Some(audio), false), false)
    else
      (PlayerState(None, false), false)
  }

  class SoundPlayer {
    var current: Option<Playback>
    var isPlaying: bool

    function State(): PlayerState
      reads this
    {
      PlayerState(current, isPlaying)
    }

    constructor()
      ensures current == None && !isPlaying
    {
      current, isPlaying := None, false;
    }

    /** `stopSound`: releases whatever is in the slot; calling it again changes nothing. */
    method Stop()
      modifies this
      ensures current == None && !isPlaying
    {
      if current.Some? {
        current := None;
      }
      isPlaying := false;
    }

    /** `playSound(soundId, sounds)`: stop first, then start the new session. */
    method Play(soundId: string, sounds: map<string, Sound>, outcome: AudioOutcome) returns (ok: bool)
      modifies this
      ensures (State(), ok) == PlayResult(soundId, sounds, outcome)
    {
      Stop();
      isPlaying := true;
      if soundId == "default" {
        if outcome == FailsBeforeAttach {
          isPlaying := false;
          return false;
        }
        current := Some(Synthesized);
        if outcome == FailsAfterAttach {
          isPlaying := false;
          return false;
        }
        return true;
      } else if soundId in sounds {
        if outcome == FailsBeforeAttach {
          isPlaying := false;
          return false;
        }
        current := Some(Uploaded(sounds[soundId].data));
        if outcome == FailsAfterAttach {
          isPlaying := false;
          return false;
        }
        return true;
      }
      isPlaying := false;
      return false;
    }

    /** The `error` listener of an `Audio` element, or a rejected `audio.play()`: clears
        `isPlaying` and leaves the slot as it is, whichever session the listener belongs to. */
    method PlaybackFailed()
      modifies this
      ensures current == old(current) && !isPlaying
    {
      isPlaying := false;
    }
  }

}

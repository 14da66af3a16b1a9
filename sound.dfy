/** What the engine asks the synthesizers to play.  A call
    `instrument.triggerAttackRelease(note, duration, time, velocity)` becomes
    a `Trigger` value; the synthesizers themselves are not modelled. */
module Sound {
  import opened Options
  import opened Scales

  /** The six instruments the engine drives. */
  datatype Voice = KickVoice | SnareVoice | HihatVoice | BassVoice | MelodyVoice | FxVoice

  /** Tone.js note values used by the engine: 32n, 16n, 16n., 8n, 8n., 4n. */
  datatype Duration = N32 | N16 | N16Dot | N8 | N8Dot | N4

  /** `noteDurations`, shortest first. */
  const DurationTable: seq<Duration> := [N32, N16, N16Dot, N8, N8Dot, N4]

  /** `durationValues`: the seconds the melody clock advances for a note value. */
  function Seconds(d: Duration): (t: real)
    ensures 0.05 <= t <= 0.4
  {
    match d
    case N32 => 0.05
    case N16 => 0.1
    case N16Dot => 0.15
    case N8 => 0.2
    case N8Dot => 0.3
    case N4 => 0.4
  }

  /** One `triggerAttackRelease` call.  The noise snare takes no note. */
  datatype Trigger = Trigger(voice: Voice, note: Option<Note>, duration: Duration, time: real, velocity: real)
}

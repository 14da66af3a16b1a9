/** The rhythm, timing and dynamics of `playMelodyPhrase`
    (AudioEngine.tsx:1118-1223): a note value per note, drawn from one of
    three styles, onsets that accumulate the note values' lengths, and a
    velocity shaped by a sine curve, accents and a random spread, clipped to
    [0.3, 0.95]. */
module Rhythm {
  import opened Options
  import opened Randomness
  import opened Scales
  import opened Sound

  /** The syncopated pattern the second aggressive style repeats. */
  const SyncopatedBase: seq<Duration> := [N16, N16, N8, N16, N8Dot, N16]

  /** The first note and the middle note (`Math.floor(noteCount / 2)`). */
  predicate Emphasised(i: nat, n: nat)
  {
    i == 0 || i == n / 2
  }

  /** The syncopated style: the base pattern repeated, a 32nd wherever the
      note's draw exceeds 0.8, otherwise an eighth on an emphasised note. */
  function Syncopated(n: nat, draws: Stream, k: nat): (r: seq<Duration>)
    ensures |r| == n && N4 !in r
  {
    seq(n, i requires 0 <= i < n =>
      if draws(k + i) > 0.8 then N32 else if Emphasised(i, n) then N8 else SyncopatedBase[i % 6])
  }

  /** The steady style's draws: `noteDurations[Math.floor(u * 5)]` per note,
      so one of the five values below the quarter note. */
  function Varied(n: nat, draws: Stream, k: nat): (v: seq<Duration>)
    requires IsUnit(draws)
    ensures |v| == n && N4 !in v
  {
    var v := seq(n, i requires 0 <= i < n => Drawn(draws(k + i)));
    assert forall i :: 0 <= i < n ==> v[i] == Drawn(draws(k + i));
    assert forall i :: 0 <= i < n ==> v[i] != N4;
    v
  }

  /** `noteDurations[Math.floor(u * (noteDurations.length - 1))]`: never the
      quarter note, the table's last entry. */
  function Drawn(u: real): (d: Duration)
    requires 0.0 <= u < 1.0
    ensures d in DurationTable && d != N4
  {
    DurationTable[FloorIndex(u, |DurationTable| - 1)]
  }

  /** The steady style's accents: with more than three notes, a dotted eighth
      first, an eighth last and sixteenths alternating with dotted sixteenths
      between them; the drawn values survive only in shorter phrases. */
  function Shaped(base: seq<Duration>): (r: seq<Duration>)
    ensures |r| == |base|
    ensures |base| <= 3 ==> r == base
    ensures |base| > 3 ==> N4 !in r && N32 !in r
  {
    var n := |base|;
    if n > 3 then
      seq(n, i requires 0 <= i < n =>
        if i == 0 then N8Dot else if i == n - 1 then N8 else if i % 2 == 0 then N16 else N16Dot)
    else base
  }

  /** The syncopated style puts a 32nd exactly where the note's draw exceeds
      0.8, and an emphasised note is never a sixteenth. */
  lemma SyncopatedValues(n: nat, draws: Stream, k: nat)
    ensures forall i :: 0 <= i < n ==> (Syncopated(n, draws, k)[i] == N32 <==> draws(k + i) > 0.8)
    ensures forall i :: 0 <= i < n && Emphasised(i, n) ==> i <= n / 2 && Syncopated(n, draws, k)[i] in {N8, N32}
  {
  }

  /** Accent shaping keeps the length, leaves short phrases alone and puts
      neither a quarter nor a 32nd into a longer one. */
  lemma ShapedValues(base: seq<Duration>)
    ensures |Shaped(base)| == |base|
    ensures |base| <= 3 ==> Shaped(base) == base
    ensures |base| > 3 ==> N4 !in Shaped(base) && N32 !in Shaped(base)
  {
  }

  /** The rhythm pattern for `n` notes reading draws from `k`, and the next
      unread draw.  Draws: the style draw; in the aggressive style the
      even-or-syncopated draw and, for the syncopated one, one draw per note;
      in the steady style one draw per note. */
  function RhythmSpec(n: nat, draws: Stream, k: nat): (r: (seq<Duration>, nat))
    requires IsUnit(draws)
    ensures |r.0| == n
    ensures N4 !in r.0
    ensures k + 1 <= r.1 <= k + 2 + n
  {
    if draws(k) > 0.3 then
      if draws(k + 1) > 0.5 then (seq(n, _ => N16), k + 2)
      else (Syncopated(n, draws, k + 2), k + 2 + n)
    else
      (Shaped(Varied(n, draws, k + 1)), k + 1 + n)
  }

  /** The even style: sixteenths throughout, after two draws. */
  lemma EvenStyle(n: nat, draws: Stream, k: nat)
    requires IsUnit(draws) && draws(k) > 0.3 && draws(k + 1) > 0.5
    ensures RhythmSpec(n, draws, k).1 == k + 2
    ensures forall i :: 0 <= i < n ==> RhythmSpec(n, draws, k).0[i] == N16
  {
  }

  /** The syncopated style: a note is a 32nd exactly when its draw exceeds
      0.8, and the emphasised notes are eighths or 32nds. */
  lemma SyncopatedStyle(n: nat, draws: Stream, k: nat)
    requires IsUnit(draws) && draws(k) > 0.3 && draws(k + 1) <= 0.5
    ensures RhythmSpec(n, draws, k).1 == k + 2 + n
    ensures forall i :: 0 <= i < n ==> (RhythmSpec(n, draws, k).0[i] == N32 <==> draws(k + 2 + i) > 0.8)
    ensures forall i :: 0 <= i < n && Emphasised(i, n) ==> RhythmSpec(n, draws, k).0[i] in {N8, N32}
  {
  }

  /** The steady style with more than three notes: the shape overrides every
      drawn value. */
  lemma SteadyStyle(n: nat, draws: Stream, k: nat)
    requires IsUnit(draws) && draws(k) <= 0.3 && n > 3
    ensures RhythmSpec(n, draws, k).1 == k + 1 + n
    ensures RhythmSpec(n, draws, k).0[0] == N8Dot && RhythmSpec(n, draws, k).0[n - 1] == N8
    ensures forall i :: 0 < i < n - 1 ==> RhythmSpec(n, draws, k).0[i] == if i % 2 == 0 then N16 else N16Dot
  {
  }

  /** The rhythm as the source builds it: the style draws, then an array
      filled and overwritten in place by the chosen style. */
  method AssignRhythm(n: nat, draws: Stream, k: nat) returns (rhythm: seq<Duration>, next: nat)
    requires IsUnit(draws)
    ensures (rhythm, next) == RhythmSpec(n, draws, k)
  {
    var aggressiveRhythm := draws(k) > 0.3;
    next := k + 1;
    if aggressiveRhythm {
      var even := draws(next) > 0.5;
      next := next + 1;
      if even {
        var rhythmPattern := new Duration[n](_ => N16);
        rhythm := rhythmPattern[..];
        assert rhythm == seq(n, _ => N16);
      } else {
        rhythm := FillSyncopated(n, draws, next);
        next := next + n;
      }
    } else {
      rhythm := FillSteady(n, draws, next);
      next := next + n;
    }
  }

  /** The syncopated style in place: the repeated base pattern, then one pass
      placing 32nds and eighths. */
  method FillSyncopated(n: nat, draws: Stream, k: nat) returns (rhythm: seq<Duration>)
    ensures rhythm == Syncopated(n, draws, k)
  {
    var rhythmPattern := new Duration[n](i => SyncopatedBase[i % 6]);
    for i := 0 to n
      invariant forall j :: 0 <= j < i ==> rhythmPattern[j] == Syncopated(n, draws, k)[j]
      invariant forall j :: i <= j < n ==> rhythmPattern[j] == SyncopatedBase[j % 6]
    {
      if draws(k + i) > 0.8 {
        rhythmPattern[i] := N32;
      } else if i == 0 || i == n / 2 {
        rhythmPattern[i] := N8;
      }
    }
    rhythm := rhythmPattern[..];
  }

  /** The steady style in place: one drawn value per note, then, with more
      than three notes, the accent pass overwriting them. */
  method FillSteady(n: nat, draws: Stream, k: nat) returns (rhythm: seq<Duration>)
    requires IsUnit(draws)
    ensures rhythm == Shaped(Varied(n, draws, k))
  {
    var rhythmPattern := new Duration[n];
    for i := 0 to n
      invariant rhythmPattern[..i] == Varied(n, draws, k)[..i]
    {
      rhythmPattern[i] := Drawn(draws(k + i));
    }
    assert rhythmPattern[..] == Varied(n, draws, k) by {
      assert rhythmPattern[..] == rhythmPattern[..n];
    }
    if n > 3 {
      rhythmPattern[0] := N8Dot;
      rhythmPattern[n - 1] := N8;
      for i := 1 to n - 1
        invariant rhythmPattern[0] == N8Dot && rhythmPattern[n - 1] == N8
        invariant forall j :: 0 < j < i ==> rhythmPattern[j] == if j % 2 == 0 then N16 else N16Dot
      {
        if i % 2 == 0 {
          rhythmPattern[i] := N16;
        } else {
          rhythmPattern[i] := N16Dot;
        }
      }
    }
    rhythm := rhythmPattern[..];
  }

  /** Seconds elapsed over a run of note values (`cumulativeTime`). */
  function Elapsed(ds: seq<Duration>): real
  {
    if |ds| == 0 then 0.0 else Elapsed(ds[..|ds| - 1]) + Seconds(ds[|ds| - 1])
  }

  /** A run of note values lasts between a 32nd (0.05 s) and a quarter
      (0.4 s) per value. */
  lemma {:induction false} ElapsedBounds(ds: seq<Duration>)
    ensures 0.05 * |ds| as real <= Elapsed(ds) <= 0.4 * |ds| as real
  {
    if |ds| > 0 {
      ElapsedBounds(ds[..|ds| - 1]);
    }
  }

  /** Each note value advances the clock by at least a 32nd (0.05 s). */
  lemma {:induction false} ElapsedGrows(ds: seq<Duration>, i: nat, j: nat)
    requires i <= j <= |ds|
    ensures Elapsed(ds[..i]) + 0.05 * (j - i) as real <= Elapsed(ds[..j])
    decreases j
  {
    if i < j {
      ElapsedGrows(ds, i, j - 1);
      assert ds[..j][..j - 1] == ds[..j - 1];
    }
  }

  /** The note value's accent: longer values louder, the sixteenth softer,
      the 32nd accented. */
  function Accent(d: Duration): real
  {
    match d
    case N8Dot => 0.2
    case N4 => 0.2
    case N16 => -0.05
    case N32 => 0.15
    case _ => 0.0
  }

  /** The velocity before clipping for note `i` of `n`, where `wave` stands
      for `Math.sin(i / n * 2 * Math.PI)` and `u` is the note's draw. */
  function RawVelocity(i: nat, n: nat, d: Duration, wave: real, u: real): real
  {
    0.5 + wave * 0.4 + Accent(d) + (if Emphasised(i, n) then 0.15 else 0.0) + (u - 0.5) * 0.2
  }

  /** Accents lie between -0.05 and 0.2, and only the dotted eighth, the
      quarter and the 32nd are raised. */
  lemma AccentRange(d: Duration)
    ensures -0.05 <= Accent(d) <= 0.2
    ensures Accent(d) > 0.0 <==> d in {N8Dot, N4, N32}
  {
  }

  /** With the sine in [-1, 1] and the draw in [0, 1) the unclipped velocity
      lies in [-0.05, 1.35), so the clip can act at either end. */
  lemma VelocityRange(i: nat, n: nat, d: Duration, wave: real, u: real)
    requires -1.0 <= wave <= 1.0 && 0.0 <= u < 1.0
    ensures -0.05 <= RawVelocity(i, n, d, wave, u) < 1.35
  {
    AccentRange(d);
  }

  /** `Math.min(0.95, Math.max(0.3, v))`. */
  function ClampVelocity(v: real): (c: real)
    ensures 0.3 <= c <= 0.95
    ensures 0.3 <= v <= 0.95 ==> c == v
    ensures v < 0.3 ==> c == 0.3
    ensures v > 0.95 ==> c == 0.95
  {
    if v < 0.3 then 0.3 else if v > 0.95 then 0.95 else v
  }

  /** The trigger for note `i`: its rhythm value, the onset after the
      values before it, and the clipped velocity from draw `u`. */
  function NoteTrigger(notes: seq<Note>, ds: seq<Duration>, i: nat, baseTime: real, wave: real, u: real): (t: Trigger)
    requires |ds| == |notes| && i < |notes|
    ensures t.voice == MelodyVoice && t.note == Some(notes[i]) && t.duration == ds[i]
    ensures t.time == baseTime + Elapsed(ds[..i]) && 0.3 <= t.velocity <= 0.95
  {
    Trigger(MelodyVoice, Some(notes[i]), ds[i], baseTime + Elapsed(ds[..i]),
      ClampVelocity(RawVelocity(i, |notes|, ds[i], wave, u)))
  }

  /** The triggers for `notes` played with rhythm `ds`, the velocity draws
      read from `j`. */
  function Voicing(notes: seq<Note>, ds: seq<Duration>, baseTime: real, wave: (nat, nat) -> real, draws: Stream, j: nat): (ts: seq<Trigger>)
    requires |ds| == |notes|
    ensures |ts| == |notes|
    ensures forall i :: 0 <= i < |ts| ==> ts[i] == NoteTrigger(notes, ds, i, baseTime, wave(i, |notes|), draws(j + i))
  {
    seq(|notes|, i requires 0 <= i < |notes| => NoteTrigger(notes, ds, i, baseTime, wave(i, |notes|), draws(j + i)))
  }

  /** The triggers `playMelodyPhrase` issues for `notes` starting at `baseTime`,
      and the next unread draw: the rhythm's draws, then one velocity draw per
      note.  `wave(i, n)` stands for `Math.sin(i / n * 2 * Math.PI)`. */
  function PlaySpec(notes: seq<Note>, baseTime: real, wave: (nat, nat) -> real, draws: Stream, k: nat): (r: (seq<Trigger>, nat))
    requires IsUnit(draws)
    ensures |r.0| == |notes| && r.1 == RhythmSpec(|notes|, draws, k).1 + |notes|
    ensures forall i :: 0 <= i < |notes| ==>
      r.0[i].voice == MelodyVoice && r.0[i].note == Some(notes[i]) && 0.3 <= r.0[i].velocity <= 0.95
  {
    var rhythm := RhythmSpec(|notes|, draws, k);
    (Voicing(notes, rhythm.0, baseTime, wave, draws, rhythm.1), rhythm.1 + |notes|)
  }

  /** The phrase starts at the base time, each note starts when the previous
      one's value has elapsed, and onsets strictly increase. */
  lemma Onsets(notes: seq<Note>, ds: seq<Duration>, baseTime: real, wave: (nat, nat) -> real, draws: Stream, j: nat)
    requires |ds| == |notes|
    ensures var ts := Voicing(notes, ds, baseTime, wave, draws, j);
      && (|ts| > 0 ==> ts[0].time == baseTime)
      && (forall i :: 0 <= i < |ts| - 1 ==> ts[i + 1].time == ts[i].time + Seconds(ts[i].duration))
      && (forall i, i' :: 0 <= i < i' < |ts| ==> ts[i].time < ts[i'].time)
  {
    var ts := Voicing(notes, ds, baseTime, wave, draws, j);
    if |ts| > 0 {
      assert ds[..0] == [];
    }
    forall i | 0 <= i < |ts| - 1
      ensures ts[i + 1].time == ts[i].time + Seconds(ts[i].duration)
    {
      assert ds[..i + 1][..i] == ds[..i];
    }
    forall i, i' | 0 <= i < i' < |ts|
      ensures ts[i].time < ts[i'].time
    {
      ElapsedGrows(ds, i, i');
    }
  }

  /** The note loop of `playMelodyPhrase`: one pass over the notes,
      accumulating the clock and computing each velocity from the next draw. */
  method VoiceNotes(melodyPhrase: seq<Note>, rhythmPattern: seq<Duration>, baseTime: real, wave: (nat, nat) -> real, draws: Stream, j: nat)
      returns (triggers: seq<Trigger>, next: nat)
    requires |rhythmPattern| == |melodyPhrase|
    ensures triggers == Voicing(melodyPhrase, rhythmPattern, baseTime, wave, draws, j)
    ensures next == j + |melodyPhrase|
  {
    var noteCount := |melodyPhrase|;
    ghost var spec := Voicing(melodyPhrase, rhythmPattern, baseTime, wave, draws, j);
    var cumulativeTime := 0.0;
    triggers := [];
    next := j;
    for index := 0 to noteCount
      invariant cumulativeTime == Elapsed(rhythmPattern[..index])
      invariant next == j + index
      invariant triggers == spec[..index]
    {
      var duration := rhythmPattern[index];
      var noteTime := baseTime + cumulativeTime;
      var velocity := RawVelocity(index, noteCount, duration, wave(index, noteCount), draws(next));
      triggers := triggers + [Trigger(MelodyVoice, Some(melodyPhrase[index]), duration, noteTime, ClampVelocity(velocity))];
      assert rhythmPattern[..index + 1][..index] == rhythmPattern[..index];
      cumulativeTime := cumulativeTime + Seconds(duration);
      next := next + 1;
    }
    assert spec == spec[..noteCount];
  }

  /** `playMelodyPhrase` as the source runs it: the rhythm, then the notes. */
  method PlayMelodyPhrase(melodyPhrase: seq<Note>, baseTime: real, wave: (nat, nat) -> real, draws: Stream, k: nat)
      returns (triggers: seq<Trigger>, next: nat)
    requires IsUnit(draws)
    ensures (triggers, next) == PlaySpec(melodyPhrase, baseTime, wave, draws, k)
  {
    var rhythmPattern, j := AssignRhythm(|melodyPhrase|, draws, k);
    triggers, next := VoiceNotes(melodyPhrase, rhythmPattern, baseTime, wave, draws, j);
  }
}

# Pose-driven drum machine: the frame engine and the WAV writer, in Dafny

This project models the two computational parts of a browser application
that turns body movement, seen through a camera and a pose estimator, into
music:

* **The pose-to-sound engine** (`src/components/AudioEngine.tsx`). Each pose
  frame first counts every cooldown down. It then tests eight gestures in a
  fixed order:
  * a nod plays the kick;
  * a right-wrist flick plays the hihat;
  * a left-wrist flick plays the snare;
  * a head movement plays a melody phrase;
  * a raised right hand plays the bass;
  * a raised left hand plays the fx synth;
  * both hands raised, or a punch, plays a kick-and-snare crash.

  Each test needs confidently seen keypoints (score above 0.3), its counter
  run out, its edge latch clear and nothing played yet in the frame. The
  melody path runs three steps:
  * `updateMelodyScale` evolves the key;
  * `generateMelodyPhrase` composes a phrase from a pool built out of a
    scale table, using one of eight index patterns;
  * `playMelodyPhrase` gives the notes their rhythm, onsets and velocities.
* **The WAV serialiser** (`src/utils/createSampleAudio.ts`).
  `audioBufferToWav` and `writeString` write a 44-byte RIFF/WAVE header
  (PCM, 16 bits per sample). The interleaved channels follow, converted to
  16-bit integers two bytes each, low byte first, as the *Multimedia
  Programming Interface and Data Specifications 1.0* lays out the WAVE form.

Layout, one module per file:

| module | file | contents |
|---|---|---|
| `Options` | options.dfy | the optional value |
| `Randomness` | randomness.dfy | `Math.random()` as an explicit stream of draws in [0, 1); every consumer returns the position of the next unread draw |
| `Keypoints` | keypoints.dfy | poses, `getKeypoint`, confidence, squared distances, `detectSimplePunch` |
| `Motion` | motion.dfy | the head movement, with every `intensity` comparison decided exactly on the squared movement |
| `Scales` | scales.dfy | roots, scale types, the scale table, `updateMelodyScale` as `Evolve` |
| `Phrase` | phrase.dfy | the note pool, the phrase length, the eight patterns, the continuity rule. Each is a function plus the source's loops as methods proved equal to it |
| `Sound` | sound.dfy | note values and trigger records |
| `Rhythm` | rhythm.dfy | the three rhythm styles, onsets, velocities. Each is a function plus the source's in-place loops as methods proved equal to it |
| `Gestures` | gestures.dfy | one frame as a function `Step` of the state and the frame, built from one stage function per gesture block, with its properties |
| `Engine` | engine.dfy | class `Session`: the two refs as fields, the frame handler and the melody functions as methods proved to compute exactly `Step`, `Evolve`, `PhraseOf` and `PlaySpec` |
| `Runs` | runs.dfy | a session as the outcomes of `Step` over a sequence of frames |
| `RunProperties` | run_properties.dfy | what holds across frames: cooldown blocking, edge latches, the melody's rest, a worked example |
| `Wav` | wav.dfy | the byte layout as functions, `audioBufferToWav` as methods over arrays proved to produce exactly it, and read-back lemmas |

Inputs the code takes from its environment become parameters:
* the pose;
* `Tone.now()`;
* the frame's `Math.random()` draws;
* `Math.sqrt`, used for the hihat and snare velocities;
* the `Math.sin` velocity curve.

Every comparison of a square root against a constant is modelled exactly as
a comparison of squares.

## Model

| member | source | states |
|---|---|---|
| Keypoints.Find | src/components/AudioEngine.tsx:577-579 | `find` by name gives nothing exactly when no keypoint has the name, and otherwise the first keypoint so named |
| Keypoints.Current | src/components/AudioEngine.tsx:577-579 | `getKeypoint(name)` on the current frame gives, when anything, a keypoint of that frame with that name |
| Keypoints.Confident | src/components/AudioEngine.tsx:585 | `kp.score && kp.score > 0.3`: a keypoint without a score, or with a zero score, is never confident |
| Keypoints.Flicked | src/components/AudioEngine.tsx:610-615 | a wrist counts as moved only with a stored pose and with the wrist seen and confident in the current frame; the distance test (`distance > 10` for the hihat, `> 12` for the snare) is `Dist2 > t²` |
| Keypoints.Previous | src/components/AudioEngine.tsx:583 | before the first frame (no stored pose) no previous keypoint is found |
| Keypoints.Dist2 | src/components/AudioEngine.tsx:611-613 | the squared distance a keypoint moved is never negative |
| Keypoints.DetectSimplePunch | src/components/AudioEngine.tsx:828-861 | never a punch without a previous pose; a punch exactly when either wrist is seen in both frames, confident now, and moved more than 15 px |
| Motion.FromDelta | src/components/AudioEngine.tsx:656-679 | the movement is a valid motion whose direction is positive exactly when dx > 0 and whose vertical is positive exactly when dy > 0 |
| Motion.TenthsFrom | src/components/AudioEngine.tsx:999 | the counted-down tenths `t` are at most the start, satisfy 16 t² <= d2, and no larger count does: `floor(min(1, sqrt(d2)/40) * 10)` |
| Motion.IntensityTenths | src/components/AudioEngine.tsx:999 | `Math.floor(intensity * 10)` is at most 10 |
| Motion.TenthsMonotone | src/components/AudioEngine.tsx:999 | stronger movement never yields fewer tenths |
| Motion.IntensityExceeds | src/components/AudioEngine.tsx:889 | `intensity > t` for t < 1 holds only with some movement, and always at full intensity (40 px or more) |
| Motion.EvolveDraw | src/components/AudioEngine.tsx:874 | `Math.random() < intensity * 0.4` lets the key change only on a draw below 0.4, and never without movement |
| Randomness.FloorIndex | src/components/AudioEngine.tsx:721 | `Math.floor(u * n)` for a draw in [0, 1) is an index below n, the floor of u·n |
| Randomness.ScaledDrawBelow | src/components/AudioEngine.tsx:721 | a draw in [0, 1) scaled by n lies in [0, n) |
| Scales.RootIndex | src/components/AudioEngine.tsx:881-882 | `scaleRoots.indexOf(root)` is an index holding that root |
| Scales.TypeIndex | src/components/AudioEngine.tsx:877-894 | `scaleTypes.indexOf(type)` is an index holding that type |
| Scales.Degrees | src/components/AudioEngine.tsx:923-969 | seven degrees for major, minor and phrygian, five for pentatonic and six for blues, each starting on the root |
| Scales.DegreeCount | src/components/AudioEngine.tsx:923-969 | the number of degrees per scale type: 5 for the pentatonic, 6 for the blues, 7 for the others (`Scales.Degrees` gives each table that length) |
| Scales.ClampInt | src/components/AudioEngine.tsx:901-902 | the octave clamp lies in [lo, hi] and leaves an in-range value unchanged |
| Scales.Evolve | src/components/AudioEngine.tsx:872-910 | keeps the octave in [2, 6] and the phase in [0, 8). When the evolution draw fails, nothing changes and one draw is read. Otherwise the phase advances mod 8 and the root moves one step round the circle in the movement's direction. Strong movement picks a tense scale. A type change is either a tense scale or the next type in the cycle. An octave change happens only above intensity 0.5, as the clamped step. One to three draws are read |
| Sound.Seconds | src/components/AudioEngine.tsx:1176-1183 | every note value advances the clock by 0.05 to 0.4 s |
| Phrase.Pool | src/components/AudioEngine.tsx:972-987 | the pool holds the root an octave down first, then the degrees at the octave, then the root an octave up, and, when drawn, the root two octaves up last; its length is the degree count plus 4 (plus 2 with at most two degrees), plus 1 when drawn |
| Phrase.ScalePool | src/components/AudioEngine.tsx:971-987 | the pool for a key has 9 to 12 notes: degrees + 4, + 1 with the extra high note, and the low root first |
| Phrase.PhraseLength | src/components/AudioEngine.tsx:999 | the phrase length lies in [4, 9] |
| Phrase.PhraseLengthMonotone | src/components/AudioEngine.tsx:999 | stronger movement never gives a shorter phrase |
| Phrase.Ascent | src/components/AudioEngine.tsx:1004-1007 | phase 0 rising picks an index inside the pool |
| Phrase.Descent | src/components/AudioEngine.tsx:1008-1011 | phase 0 falling picks an index inside the pool |
| Phrase.Arpeggio | src/components/AudioEngine.tsx:1014-1025 | phase 1's arpeggio picks an index inside the pool |
| Phrase.Tension | src/components/AudioEngine.tsx:1027-1033 | phase 2 picks an index inside the pool |
| Phrase.Dramatic | src/components/AudioEngine.tsx:1063-1073 | phase 5 picks an index inside the pool |
| Phrase.Zigzag | src/components/AudioEngine.tsx:1075-1084 | phase 6 picks an index inside the pool |
| Phrase.RandomLeaps | src/components/AudioEngine.tsx:1035-1044 | phase 3 gives one index per note, note i being `floor(draw(k+i) * n)` |
| Phrase.Jump | src/components/AudioEngine.tsx:1057 | a leap of 3 to 3 + span - 1 places, upwards exactly when the sign draw exceeds 0.5 |
| Phrase.RepeatThenLeap | src/components/AudioEngine.tsx:1046-1061 | phase 4 gives one in-pool index per note, the first `min(3, floor(L/2))` all the first draw's note |
| Phrase.Repeats | src/components/AudioEngine.tsx:1052 | `Math.min(3, Math.floor(L / 2))`: at most 3 and at most half the phrase, and 3 unless half the phrase (rounded down) is smaller; 3 from six notes up |
| Phrase.Walk | src/components/AudioEngine.tsx:1091-1096 | phase 7's leaps give `count` in-pool indices |
| Phrase.LeapWalk | src/components/AudioEngine.tsx:1086-1097 | phase 7 gives one in-pool index per note |
| Phrase.PatternIndices | src/components/AudioEngine.tsx:1002-1099 | every phase 0-7 gives one in-pool index per note and never goes back in the draws |
| Phrase.Assemble | src/components/AudioEngine.tsx:1103-1109 | the phrase is the picked pool notes, except that the first is the previous phrase's last note when carried over |
| Phrase.Continue | src/components/AudioEngine.tsx:1103-1109 | the continuity draw is read only when a previous phrase exists. Without one, the first note is the pool's. With one, it may be the previous last note. Every other note is the pool's |
| Phrase.PhraseOf | src/components/AudioEngine.tsx:913-1115 | the phrase has the length of the formula, every note after the first is in the pool, the first is in the pool or is the previous phrase's last note, and at least one draw is read |
| Phrase.BuildPool | src/components/AudioEngine.tsx:971-987 | map, push, push, push, unshift, push build exactly `ScalePool` |
| Phrase.DrawRandomLeaps | src/components/AudioEngine.tsx:1038-1043 | phase 3's loop computes exactly `RandomLeaps` |
| Phrase.DrawRepeatThenLeap | src/components/AudioEngine.tsx:1049-1060 | phase 4's two loops compute exactly `RepeatThenLeap` and read one draw, then two per leap |
| Phrase.DrawLeapWalk | src/components/AudioEngine.tsx:1088-1096 | phase 7's loop computes exactly `LeapWalk` and reads one draw, then two per leap |
| Phrase.PickIndices | src/components/AudioEngine.tsx:1002-1099 | the `switch (phase)` computes exactly `PatternIndices` |
| Phrase.CarryOver | src/components/AudioEngine.tsx:1103-1109 | the continuity rule as written computes exactly `Continue` |
| Phrase.ComposePhrase | src/components/AudioEngine.tsx:913-1115 | `generateMelodyPhrase` as written computes exactly `PhraseOf` |
| Phrase.ReduceIdentity | src/components/AudioEngine.tsx:1043 | `notes[i % notes.length]` is `notes[i]` for indices already in range |
| Phrase.LastOf | src/components/AudioEngine.tsx:1103-1107 | the note carried over to the start of the new phrase is a note of the previous phrase |
| Rhythm.Drawn | src/components/AudioEngine.tsx:1155-1156 | a drawn note value comes from the table and is never the quarter note |
| Rhythm.Emphasised | src/components/AudioEngine.tsx:1208 | the first note and the note at `Math.floor(noteCount / 2)` are the emphasised ones (bounds in `Rhythm.SyncopatedValues`) |
| Rhythm.Syncopated | src/components/AudioEngine.tsx:1138-1151 | the syncopated style gives one value per note and never a quarter note |
| Rhythm.SyncopatedValues | src/components/AudioEngine.tsx:1143-1150 | a note is a 32nd exactly when its draw exceeds 0.8; an emphasised note lies in the first half and is an eighth or a 32nd |
| Rhythm.Shaped | src/components/AudioEngine.tsx:1159-1172 | the steady style's accent shaping of the drawn values (properties in `Rhythm.ShapedValues`) |
| Rhythm.ShapedValues | src/components/AudioEngine.tsx:1159-1172 | shaping keeps one value per note, leaves phrases of three notes or fewer as drawn, and puts neither a quarter nor a 32nd into a longer phrase |
| Rhythm.Varied | src/components/AudioEngine.tsx:1155-1156 | one drawn value per note, none a quarter note |
| Rhythm.RhythmSpec | src/components/AudioEngine.tsx:1126-1173 | one note value per note, never a quarter note, and between 1 and n + 2 draws read |
| Rhythm.EvenStyle | src/components/AudioEngine.tsx:1133-1135 | the even aggressive style is sixteenths throughout, after two draws |
| Rhythm.SyncopatedStyle | src/components/AudioEngine.tsx:1136-1151 | in the syncopated style a note is a 32nd exactly when its draw exceeds 0.8, and the first and middle notes are eighths or 32nds |
| Rhythm.SteadyStyle | src/components/AudioEngine.tsx:1153-1172 | in the steady style with more than three notes, the first note is a dotted eighth and the last an eighth. The ones between alternate sixteenth and dotted sixteenth |
| Rhythm.AssignRhythm | src/components/AudioEngine.tsx:1126-1173 | the rhythm built in place computes exactly `RhythmSpec` |
| Rhythm.FillSyncopated | src/components/AudioEngine.tsx:1138-1151 | the fill-then-overwrite loop computes exactly the syncopated style |
| Rhythm.FillSteady | src/components/AudioEngine.tsx:1155-1172 | the draw loop and the accent loop compute exactly the steady style |
| Rhythm.ElapsedGrows | src/components/AudioEngine.tsx:1186-1193 | each note value advances `cumulativeTime` by at least 0.05 s |
| Rhythm.Elapsed | src/components/AudioEngine.tsx:1186-1193 | `cumulativeTime` after a run of note values: the sum of their lengths (bounds in `Rhythm.ElapsedBounds`) |
| Rhythm.ElapsedBounds | src/components/AudioEngine.tsx:1176-1193 | a run of note values lasts at least 0.05 s and at most 0.4 s per value |
| Rhythm.Accent | src/components/AudioEngine.tsx:1199-1205 | the accent added for the note value (properties in `Rhythm.AccentRange`) |
| Rhythm.AccentRange | src/components/AudioEngine.tsx:1199-1205 | accents lie in [-0.05, 0.2], and exactly the dotted eighth, the quarter and the 32nd are raised |
| Rhythm.RawVelocity | src/components/AudioEngine.tsx:1196-1213 | the velocity before the clip: sine curve, accent, emphasis and random spread (range in `Rhythm.VelocityRange`) |
| Rhythm.VelocityRange | src/components/AudioEngine.tsx:1196-1213 | with the sine in [-1, 1] and the draw in [0, 1), the unclipped velocity lies in [-0.05, 1.35), so the clip can act at either end |
| Rhythm.ClampVelocity | src/components/AudioEngine.tsx:1218 | the velocity lies in [0.3, 0.95]: unchanged inside, 0.3 below, 0.95 above |
| Rhythm.NoteTrigger | src/components/AudioEngine.tsx:1187-1218 | note i plays the melody voice with its own note and value, at the base time plus the values before it, at a velocity in [0.3, 0.95] |
| Rhythm.Voicing | src/components/AudioEngine.tsx:1187-1222 | one trigger per note, trigger i being note i's |
| Rhythm.PlaySpec | src/components/AudioEngine.tsx:1118-1223 | one melody trigger per note, each with its own note and a velocity in [0.3, 0.95]; one velocity draw per note after the rhythm's |
| Rhythm.Onsets | src/components/AudioEngine.tsx:1186-1193 | the first note starts at the base time, each later one when the previous value has elapsed, and onsets strictly increase |
| Rhythm.VoiceNotes | src/components/AudioEngine.tsx:1186-1222 | the `forEach` accumulating `cumulativeTime` computes exactly `Voicing`, one draw per note |
| Rhythm.PlayMelodyPhrase | src/components/AudioEngine.tsx:1118-1223 | `playMelodyPhrase` as written computes exactly `PlaySpec` |
| Gestures.Slot | src/components/AudioEngine.tsx:92-100 | each of the six counters has its own slot |
| Gestures.Reset | src/components/AudioEngine.tsx:600-818 | the reset values lie between 5 and 15 frames |
| Gestures.CategoryOf | src/components/AudioEngine.tsx:589-818 | the counter each block tests and resets: kick, hihat, snare, melody and bass for their own gestures, and the fx counter for the raised left hand, both hands up and the punch (sharing stated in `Gestures.SharedCounter`) |
| Gestures.SharedCounter | src/components/AudioEngine.tsx:746-818 | two different gestures share a counter only when both are among the raised left hand, both hands up and the punch |
| Gestures.HasLatch | src/components/AudioEngine.tsx:599-820 | the gestures guarded by a latch flag: the nod, the raised right hand, the raised left hand, both hands up and the punch; the flicks and the melody have none |
| Gestures.Latched | src/components/AudioEngine.tsx:589-820 | the latch flag a gesture tests: `nodDetected`, `rightHandUp`, `leftHandUp`, `bothHandsUp` or `punchDetected` (updates stated in `Gestures.SetLatch`) |
| Gestures.Now | src/components/AudioEngine.tsx:560 | `now = Tone.now() + 0.05`, the one time every sound of a frame is scheduled from |
| Gestures.Seen | src/components/AudioEngine.tsx:585 | a keypoint is found in the current frame and confident (`kp && kp.score && kp.score > 0.3`) |
| Gestures.Y | src/components/AudioEngine.tsx:712 | the y coordinate of a keypoint that is seen |
| Gestures.RightArmSeen | src/components/AudioEngine.tsx:706-709 | the bass guard: right wrist, elbow and shoulder all seen and confident |
| Gestures.LeftArmSeen | src/components/AudioEngine.tsx:739-741 | the fx guard: left wrist and shoulder seen and confident (the elbow is not tested) |
| Gestures.BothArmsSeen | src/components/AudioEngine.tsx:774-778 | the both-hands guard: both wrists and both shoulders seen and confident |
| Gestures.InitialValid | src/components/AudioEngine.tsx:61-100 | the initial refs satisfy the state invariant |
| Gestures.SetLatch | src/components/AudioEngine.tsx:599-817 | setting a gesture's latch changes that latch only, and only for latched gestures |
| Gestures.Decremented | src/components/AudioEngine.tsx:563-567 | every positive counter drops by one and the others stay |
| Gestures.NoseDelta | src/components/AudioEngine.tsx:582-587 | a nose displacement exists exactly when the nose is confidently seen now and present in the stored pose |
| Gestures.HeadMotion | src/components/AudioEngine.tsx:655-679 | the head motion exists exactly when the nose displacement does, and is valid |
| Gestures.Perform | src/components/AudioEngine.tsx:674-691 | the melody keeps the key valid, reads at least one draw, and plays a phrase of the formula's length with one trigger per note |
| Gestures.Sounds | src/components/AudioEngine.tsx:589-821 | every gesture plays at least one trigger. Only the melody changes the key and the phrase. Only the bass and the melody read draws; the bass reads one and plays a note from `bassNotes`. The hihat velocity is at most 0.8 and the unpitched snare's at most 0.7. The melody plays one trigger per phrase note |
| Gestures.KickHit | src/components/AudioEngine.tsx:593 | the nod plays the kick, C2, an eighth, at `now`, velocity 0.8 |
| Gestures.HihatHit | src/components/AudioEngine.tsx:619-620 | the right flick plays the hihat, C4, a 32nd, at `now + 0.01`, velocity `Math.min(0.8, distance / 40)`: at most 0.8 and the distance over 40 below that |
| Gestures.SnareHit | src/components/AudioEngine.tsx:643-644 | the left flick plays the snare, unpitched, a sixteenth, at `now + 0.02`, velocity `Math.min(0.7, distance / 40)` |
| Gestures.BassHit | src/components/AudioEngine.tsx:720-722 | the raised right hand plays the bass, one of C2, G1, A1, F1, a quarter, at `now + 0.04`, velocity 0.7 |
| Gestures.FxHit | src/components/AudioEngine.tsx:753 | the raised left hand plays the fx synth, C4, a quarter, at `now + 0.05`, velocity 0.6 |
| Gestures.Crash | src/components/AudioEngine.tsx:789-790 | both hands up or a punch play two sounds: the kick, C2, an eighth, at `now + 0.06`, velocity 0.9, then the snare, a sixteenth, at `now + 0.1`, velocity 0.8 |
| Gestures.Detected | src/components/AudioEngine.tsx:585-806 | the pose condition each block tests: nose down over 12 px, a wrist moved over 10 or 12 px, the nose moved over 5 px, a wrist above its shoulder, both wrists above, a punch (needs in `Gestures.DetectedNeedsKeypoints`) |
| Gestures.DetectedNeedsKeypoints | src/components/AudioEngine.tsx:585-806 | a gesture is detected only with its keypoints confidently seen, and a motion gesture only with a stored pose |
| Gestures.Release | src/components/AudioEngine.tsx:585-821 | the `else` branches that clear a latch: the nose moving up, a wrist below its shoulder, either wrist below for both hands, no punch (properties in `Gestures.ReleaseExcludesDetected`) |
| Gestures.ReleaseExcludesDetected | src/components/AudioEngine.tsx:585-821 | only a latched gesture is released, never on a frame that detects it; the punch latch clears on exactly the frames without a punch |
| Gestures.MelodyRested | src/components/AudioEngine.tsx:664-669 | the melody may start when it has never played (`lastMelodyTime` 0) or more than 1.5 s have passed (property in `Gestures.RestedStaysRested`) |
| Gestures.RestedStaysRested | src/components/AudioEngine.tsx:664-669 | once the melody has rested it stays rested as time goes on |
| Gestures.Open | src/components/AudioEngine.tsx:589-806 | a block's gesture may fire when detected, its latch clear, its counter at most 0 and, for the melody, rested (used by `Gestures.OpenIsReady`) |
| Gestures.Fire | src/components/AudioEngine.tsx:589-818 | a block that fires issues its sounds, resets its counter, sets its latch and marks the frame as played (effects in `Gestures.FireEffects`) |
| Gestures.Fired | src/components/AudioEngine.tsx:589-818 | the pass a firing leaves for given sounds (effects in `Gestures.FiredEffects`) |
| Gestures.FireEffects | src/components/AudioEngine.tsx:589-818 | firing marks the frame played, records the gesture, appends at least one sound, resets that gesture's counter and no other, sets its latch and no other, stamps the melody time only for the melody, keeps the stored pose |
| Gestures.FiredEffects | src/components/AudioEngine.tsx:589-818 | the same effects for any sounds of at least one trigger |
| Gestures.Advance | src/components/AudioEngine.tsx:589-821 | the rule each block follows: fire when nothing has played and the gesture is open, else clear the latch on its release condition, else change nothing (each `…FollowsRule` lemma) |
| Gestures.NodStage | src/components/AudioEngine.tsx:582-604 | the nod block keeps the counters and the key well formed |
| Gestures.HihatStage | src/components/AudioEngine.tsx:607-628 | the hihat block keeps the counters and the key well formed |
| Gestures.SnareStage | src/components/AudioEngine.tsx:631-652 | the snare block keeps the counters and the key well formed |
| Gestures.MelodyStage | src/components/AudioEngine.tsx:655-700 | the melody block keeps the counters and the key well formed |
| Gestures.BassStage | src/components/AudioEngine.tsx:703-733 | the bass block keeps the counters and the key well formed |
| Gestures.LeftHandStage | src/components/AudioEngine.tsx:736-771 | the fx block keeps the counters and the key well formed |
| Gestures.BothHandsStage | src/components/AudioEngine.tsx:774-801 | the both-hands block keeps the counters and the key well formed |
| Gestures.PunchStage | src/components/AudioEngine.tsx:805-821 | the punch block keeps the counters and the key well formed |
| Gestures.NodFollowsRule | src/components/AudioEngine.tsx:585-604 | the nod block fires when nothing has played and the nod is open (dy > 12, latch clear, kick counter run out). Otherwise it clears the latch on dy < 0, or changes nothing |
| Gestures.HihatFollowsRule | src/components/AudioEngine.tsx:610-628 | the hihat block fires exactly when nothing has played and a flick over 10 px is open, and otherwise changes nothing |
| Gestures.SnareFollowsRule | src/components/AudioEngine.tsx:634-652 | the snare block fires exactly when nothing has played and a flick over 12 px is open, and otherwise changes nothing |
| Gestures.MelodyFollowsRule | src/components/AudioEngine.tsx:655-700 | the melody block fires exactly when nothing has played, the nose moved over 5 px, the melody has rested and its counter has run out; otherwise it changes nothing |
| Gestures.BassFollowsRule | src/components/AudioEngine.tsx:706-733 | the bass block fires on an open raised right hand, or clears its latch when the wrist is below the shoulder, or changes nothing |
| Gestures.LeftHandFollowsRule | src/components/AudioEngine.tsx:739-771 | the fx block fires on an open raised left hand (on the fx counter), or clears its latch when the wrist is below the shoulder, or changes nothing |
| Gestures.BothHandsFollowsRule | src/components/AudioEngine.tsx:774-801 | the both-hands block fires when open, or clears its latch when either wrist is below its shoulder, or changes nothing |
| Gestures.PunchFollowsRule | src/components/AudioEngine.tsx:805-821 | the punch block fires when open, or clears its latch on any frame without a punch, or changes nothing |
| Gestures.OpenIsReady | src/components/AudioEngine.tsx:563-570 | before anything plays, a block sees its gesture open exactly when it was ready on the counted-down counters at the frame's start |
| Gestures.Ready | src/components/AudioEngine.tsx:562-806 | a gesture is ready when it is open on the counters already counted down at the frame's start |
| Gestures.First | src/components/AudioEngine.tsx:570-806 | the first ready gesture in the blocks' order (uniqueness in `Gestures.FirstUnique`) |
| Gestures.ProgressFire | src/components/AudioEngine.tsx:570-821 | a block that fires the first ready gesture leaves exactly that gesture's firing in the pass |
| Gestures.LatchRuleFire | src/components/AudioEngine.tsx:599-817 | a block that fires keeps every latch equal to "fired, or set and not released" |
| Gestures.InvFire | src/components/AudioEngine.tsx:570-821 | firing the first ready gesture keeps the frame invariant |
| Gestures.InvIdle | src/components/AudioEngine.tsx:570-821 | a block that does not fire, perhaps clearing its latch, keeps the frame invariant |
| Gestures.InvAdvance | src/components/AudioEngine.tsx:570-821 | any block that follows the common rule keeps the frame invariant |
| Gestures.CooldownAfterValid | src/components/AudioEngine.tsx:562-600 | counting down then resetting at most one counter keeps every counter in [0, its reset value] |
| Gestures.CooldownAfter | src/components/AudioEngine.tsx:562-818 | the counters after a frame: all counted down, then the fired gesture's reset (bounds in `Gestures.CooldownAfterValid`) |
| Gestures.Stages | src/components/AudioEngine.tsx:573-821 | the eight blocks in order keep the counters and the key well formed |
| Gestures.NodKeepsInv | src/components/AudioEngine.tsx:582-604 | the nod block keeps the frame invariant at position 0 |
| Gestures.HihatKeepsInv | src/components/AudioEngine.tsx:607-628 | the hihat block keeps it at position 1 |
| Gestures.SnareKeepsInv | src/components/AudioEngine.tsx:631-652 | the snare block keeps it at position 2 |
| Gestures.MelodyKeepsInv | src/components/AudioEngine.tsx:655-700 | the melody block keeps it at position 3 |
| Gestures.BassKeepsInv | src/components/AudioEngine.tsx:703-733 | the bass block keeps it at position 4 |
| Gestures.LeftHandKeepsInv | src/components/AudioEngine.tsx:736-771 | the fx block keeps it at position 5 |
| Gestures.BothHandsKeepsInv | src/components/AudioEngine.tsx:774-801 | the both-hands block keeps it at position 6 |
| Gestures.PunchKeepsInv | src/components/AudioEngine.tsx:805-821 | the punch block keeps it at position 7 |
| Gestures.StagesInv | src/components/AudioEngine.tsx:570-821 | after all eight blocks the frame invariant holds |
| Gestures.FirstUnique | src/components/AudioEngine.tsx:570-821 | at most one gesture is the first ready one |
| Gestures.FiredIsFirst | src/components/AudioEngine.tsx:570-821 | after the blocks, a gesture fired exactly when it is the first ready one, and none fired exactly when none was ready |
| Gestures.LatchesAfter | src/components/AudioEngine.tsx:585-824 | storing the pose leaves the latch rule intact |
| Gestures.Step | src/components/AudioEngine.tsx:555-869 | a frame keeps every counter in [0, its reset value] and the key valid, fires at most one gesture, and stores the frame's pose |
| Gestures.Start | src/components/AudioEngine.tsx:563-570 | a frame starts from the counted-down counters with nothing played, fired or issued |
| Gestures.StepFiresFirst | src/components/AudioEngine.tsx:570-821 | exactly the first ready gesture in the testing order fires, and nothing fires exactly when nothing is ready |
| Gestures.StepQuiet | src/components/AudioEngine.tsx:562-567 | a frame that fires nothing issues nothing, only counts the counters down and keeps the key, the phrase and its time |
| Gestures.StepSounds | src/components/AudioEngine.tsx:589-821 | a fired gesture's sounds, computed from the state before the frame, are the whole output. Its counter is reset. The melody fields are as its sounds leave them |
| Gestures.StepLatches | src/components/AudioEngine.tsx:585-821 | after a frame each latch is set exactly when its gesture fired, or it was set and the frame did not release it |
| Gestures.StepKeepsMelody | src/components/AudioEngine.tsx:655-700 | a frame without the melody keeps the key, the phrase and its time |
| Gestures.StepCooldown | src/components/AudioEngine.tsx:562-818 | the counters after a frame are the counted-down ones with the fired gesture's counter reset |
| Gestures.StepMelodyTime | src/components/AudioEngine.tsx:691 | a frame that plays the melody stamps it with the frame's time |
| Gestures.Min | src/components/AudioEngine.tsx:619 | `Math.min` is the smaller argument |
| Gestures.Rank | src/components/AudioEngine.tsx:582-821 | each gesture has its own position in the testing order |
| Engine.Session.constructor | src/components/AudioEngine.tsx:61-100 | the refs start valid: latches clear, counters 0, C major octave 4 phase 0, no phrase, no pose |
| Engine.Session.CountDown | src/components/AudioEngine.tsx:562-567 | the counter loop leaves exactly the counted-down counters |
| Engine.Session.UpdateMelodyScale | src/components/AudioEngine.tsx:872-910 | the field updates leave exactly `Evolve`'s key and nothing else changed |
| Engine.Session.GenerateMelodyPhrase | src/components/AudioEngine.tsx:913-1115 | returns exactly `PhraseOf`'s phrase and stores it as the last phrase, nothing else changed |
| Engine.Session.PlayMelody | src/components/AudioEngine.tsx:674-691 | evolving, composing and playing issue exactly `Perform`'s triggers. They store its key and phrase and the time |
| Engine.Session.DetectNod | src/components/AudioEngine.tsx:582-604 | the nod block on the fields is exactly `NodStage` |
| Engine.Session.DetectRightFlick | src/components/AudioEngine.tsx:607-628 | the hihat block on the fields is exactly `HihatStage` |
| Engine.Session.DetectLeftFlick | src/components/AudioEngine.tsx:631-652 | the snare block on the fields is exactly `SnareStage` |
| Engine.Session.FireMelody | src/components/AudioEngine.tsx:674-698 | firing the melody on the fields is exactly `MelodyStage` |
| Engine.Session.DetectHeadMove | src/components/AudioEngine.tsx:655-700 | the melody block on the fields is exactly `MelodyStage` |
| Engine.Session.DetectRightHandUp | src/components/AudioEngine.tsx:703-733 | the bass block on the fields is exactly `BassStage` |
| Engine.Session.DetectLeftHandUp | src/components/AudioEngine.tsx:736-771 | the fx block on the fields is exactly `LeftHandStage` |
| Engine.Session.DetectBothHandsUp | src/components/AudioEngine.tsx:774-801 | the both-hands block on the fields is exactly `BothHandsStage` |
| Engine.Session.DetectPunch | src/components/AudioEngine.tsx:803-821 | the punch block on the fields is exactly `PunchStage` |
| Engine.Session.ProcessFrame | src/components/AudioEngine.tsx:555-869 | the frame handler keeps the session valid; the new fields, the gestures fired and the triggers issued are exactly one `Step` |
| Runs.Run | src/components/AudioEngine.tsx:555-826 | one outcome per frame, each leaving a valid state |
| Runs.Before | src/components/AudioEngine.tsx:555-826 | the state before every frame is valid |
| Runs.RunStep | src/components/AudioEngine.tsx:555-826 | each frame's outcome is one `Step` from the state before it |
| Runs.LastPoseBefore | src/components/AudioEngine.tsx:824 | the state before frame i stores frame i - 1's pose |
| RunProperties.StepCountsDown | src/components/AudioEngine.tsx:562-567 | across a frame a counter drops by at most one |
| RunProperties.SoundedResets | src/components/AudioEngine.tsx:562-600 | a category sounds only with its counter at most 1 before the frame, and then holds its full reset value |
| RunProperties.CountsDownInRun | src/components/AudioEngine.tsx:562-567 | within a run a counter drops by at most one a frame |
| RunProperties.ResetsInRun | src/components/AudioEngine.tsx:600-818 | after a category sounds its counter holds the reset value |
| RunProperties.CooldownBound | src/components/AudioEngine.tsx:562-600 | j frames after sounding, a counter is at least its reset value less the frames since |
| RunProperties.CooldownBlocks | src/components/AudioEngine.tsx:562-600 | once a category sounds, it cannot sound again in the next reset - 1 frames, whatever is detected. The fx counter is shared by left hand, both hands and punch |
| RunProperties.LatchedUntilRelease | src/components/AudioEngine.tsx:585-821 | once a latched gesture fires, it stays latched and silent in every later frame until a frame meets its release condition |
| RunProperties.UnseenKeepsLatch | src/components/AudioEngine.tsx:585-778 | a frame without the gesture's keypoints confidently seen neither fires it nor changes its latch |
| RunProperties.NoNoseNoHead | src/components/AudioEngine.tsx:585-655 | without a confidently seen nose neither the nod nor the melody plays |
| RunProperties.UnseenWristsClearPunch | src/components/AudioEngine.tsx:805-821 | a frame with neither wrist in view clears the punch latch and plays no punch |
| RunProperties.MelodyTimeKept | src/components/AudioEngine.tsx:691 | between two phrases the melody time stays that of the first |
| RunProperties.MelodyRests | src/components/AudioEngine.tsx:664-671 | two consecutive phrases start more than 1.5 s apart, unless the first played at time 0 |
| RunProperties.QuietStart | src/components/AudioEngine.tsx:582-604 | a fresh session's first frame, with only the nose in view, plays nothing and leaves the kick free |
| RunProperties.NodFires | src/components/AudioEngine.tsx:585-600 | the nose 15 px lower than before, with the kick counter at most 1 and the nod latch clear, fires the nod alone and plays the kick C2, an eighth, at the frame's time, velocity 0.8 |
| RunProperties.NodExample | src/components/AudioEngine.tsx:555-604 | from a fresh session, nose at y = 100 then 115: silence, then exactly the kick |
| Wav.Le16 | src/utils/createSampleAudio.ts:87-88 | `setUint16` writes two bytes |
| Wav.Le32 | src/utils/createSampleAudio.ts:81-86 | `setUint32` writes four bytes |
| Wav.Le16Decodes | src/utils/createSampleAudio.ts:87-92 | a 16-bit little-endian field reads back as the value written, modulo 2^16 |
| Wav.Le32Decodes | src/utils/createSampleAudio.ts:81-96 | a 32-bit little-endian field reads back as the value written, modulo 2^32 |
| Wav.Int16RoundTrip | src/utils/createSampleAudio.ts:110-120 | a 16-bit sample's two bytes read back as the sample |
| Wav.Ascii | src/utils/createSampleAudio.ts:127-131 | one byte per character, and a character code below 256 is written as itself (`setUint8` keeps the low eight bits) |
| Wav.Put | src/utils/createSampleAudio.ts:80-96 | a write at an offset changes exactly the bytes it covers, to the written ones |
| Wav.Unsigned | src/utils/createSampleAudio.ts:81-96 | the number read back from 1, 2, 3 or 4 little-endian bytes fits in 8, 16, 24 or 32 bits |
| Wav.Signed16 | src/utils/createSampleAudio.ts:114-120 | two bytes read back as a two's-complement sample lie in [-32768, 32768) and are negative exactly when the high byte's top bit is set |
| Wav.RiffChunk | src/utils/createSampleAudio.ts:80-82 | the RIFF descriptor is 12 bytes |
| Wav.FmtChunk | src/utils/createSampleAudio.ts:85-92 | the `fmt ` sub-chunk is 24 bytes |
| Wav.DataHeader | src/utils/createSampleAudio.ts:95-96 | the `data` header is 8 bytes |
| Wav.Header | src/utils/createSampleAudio.ts:76-96 | the header is 44 bytes |
| Wav.RiffFields | src/utils/createSampleAudio.ts:80-82 | "RIFF", 36 + data size modulo 2^32, "WAVE" |
| Wav.FmtFields | src/utils/createSampleAudio.ts:85-92 | "fmt ", 16, format 1, the channels, the sample rate, the byte rate rate·channels·2, the block alignment channels·2 and 16 bits, each modulo its field's width |
| Wav.DataFields | src/utils/createSampleAudio.ts:95-96 | "data" and the data size modulo 2^32 |
| Wav.HeaderFields | src/utils/createSampleAudio.ts:76-96 | every field of the 44-byte header at the offset the WAVE format fixes |
| Wav.Clip | src/utils/createSampleAudio.ts:113 | the clipped sample lies in [-1, 1] and a sample already there is unchanged |
| Wav.Trunc | src/utils/createSampleAudio.ts:114 | storing into an integer array truncates toward zero |
| Wav.ToInt16 | src/utils/createSampleAudio.ts:114 | a store into an `Int16Array` keeps the truncated value modulo 2^16, and keeps it exactly when it fits in 16 bits |
| Wav.Pcm16 | src/utils/createSampleAudio.ts:113-114 | the clipped and scaled sample keeps its sign: negative samples give values at most 0, others at least 0 |
| Wav.StoreIsPcm | src/utils/createSampleAudio.ts:113-114 | after the clip the `Int16Array` store never wraps: it stores exactly the sample's 16-bit value |
| Wav.Pcm16Saturates | src/utils/createSampleAudio.ts:113-114 | 1 and above give 32767, -1 and below give -32768, silence gives 0 |
| Wav.Pcm16Monotone | src/utils/createSampleAudio.ts:113-114 | louder samples never give smaller values, and the sign is kept |
| Wav.Frames | src/utils/createSampleAudio.ts:99-107 | m frames of n channels hold m·n samples |
| Wav.Interleaved | src/utils/createSampleAudio.ts:99 | the interleaved samples number length·channels |
| Wav.Position | src/utils/createSampleAudio.ts:105 | `i * numOfChannels + channel` lies inside the buffer |
| Wav.PositionUnique | src/utils/createSampleAudio.ts:102-106 | no two (frame, channel) pairs write the same slot |
| Wav.PositionOf | src/utils/createSampleAudio.ts:102-106 | every slot is some frame's channel, so every slot is written |
| Wav.FramesAt | src/utils/createSampleAudio.ts:105 | channel c of frame i is at `i * numOfChannels + c` in the interleaved samples |
| Wav.Pcm | src/utils/createSampleAudio.ts:110-115 | one 16-bit value per sample |
| Wav.Samples | src/utils/createSampleAudio.ts:118-120 | two bytes per sample |
| Wav.SampleBytes | src/utils/createSampleAudio.ts:120 | sample i occupies bytes 2i and 2i + 1, low byte first |
| Wav.WavSizes | src/utils/createSampleAudio.ts:72-120 | the file is 44 + length·channels·2 bytes, the header first; the RIFF size is the file size less 8 and the data size the file size less 44, modulo 2^32 |
| Wav.WavSample | src/utils/createSampleAudio.ts:99-120 | channel c of frame i reads back, from the two bytes at 44 + 2(i·channels + c), as that sample's 16-bit value |
| Wav.Wav | src/utils/createSampleAudio.ts:70-124 | the bytes `audioBufferToWav` returns: the 44-byte header, then the interleaved 16-bit samples (its sizes in `Wav.WavSizes`, its samples in `Wav.WavSample`, its header fields in `Wav.HeaderFields`) |
| Wav.WriteString | src/utils/createSampleAudio.ts:127-131 | character i lands at offset + i and nothing else changes |
| Wav.SetUint16 | src/utils/createSampleAudio.ts:87-92 | writes the two little-endian bytes at the offset and nothing else |
| Wav.SetUint32 | src/utils/createSampleAudio.ts:81-96 | writes the four little-endian bytes at the offset and nothing else |
| Wav.PutPut | src/utils/createSampleAudio.ts:80-96 | two adjacent writes are one write of both |
| Wav.WriteRiff | src/utils/createSampleAudio.ts:80-82 | writes exactly the RIFF descriptor at offset 0 |
| Wav.WriteFmt | src/utils/createSampleAudio.ts:85-92 | writes exactly the `fmt ` sub-chunk at offset 12 |
| Wav.WriteDataHeader | src/utils/createSampleAudio.ts:95-96 | writes exactly the `data` header at offset 36 |
| Wav.WavHeader | src/utils/createSampleAudio.ts:76-96 | the zeroed 44-byte buffer written in order holds exactly `Header` |
| Wav.Interleave | src/utils/createSampleAudio.ts:99-107 | the nested loops fill a fresh buffer with exactly the interleaved samples |
| Wav.ToPcm | src/utils/createSampleAudio.ts:110-115 | the conversion loop stores exactly each sample's 16-bit value |
| Wav.SetBytes | src/utils/createSampleAudio.ts:119-120 | `Uint8Array.set` copies the bytes in at the offset and nothing else changes |
| Wav.AudioBufferToWav | src/utils/createSampleAudio.ts:70-124 | the bytes produced are exactly `Wav(buffer)`: the header, then the interleaved samples' bytes |

## Left out

- Tone.js and the synthesizers are not modelled. This covers script loading, instrument construction, the transport, `triggerAttackRelease` itself, the fx detune ramp and its `setTimeout` reset. A call to play a note becomes a `Trigger` record in the frame's output.
- Instrument presence and errors are not modelled. Every instrument is assumed present and never throwing, so `soundPlayedThisFrame` is set whenever a block fires. Counters and latches are set even without an instrument, as in the code.
- The early return when the engine is not playing or not initialised is not modelled (AudioEngine.tsx:556). `Step` models a frame that is processed.
- `console` output and the `try`/`catch` wrappers are not modelled.
- Floating point is not modelled: numbers are mathematical reals. `Math.sqrt` for the hihat and snare velocities and `Math.sin` for the melody's velocity curve are inputs of the frame (`Analog`). The model proves only what follows for any values they return: the `Math.min` caps and the melody clamp.
- `Math.random()` is an explicit stream of draws in [0, 1), read in the order the code calls it; nothing probabilistic is stated.
- `Tone.now()` is an input of the frame.
- Only the state fields the engine reads are modelled. The unused ones (`handsUp`, `rightHandSpeed`, `stillTime`, `melodyNoteIndex`, `lastSoundTime` and the like) are not.
- The unused `leftElbow` lookup (AudioEngine.tsx:736) is not modelled.
- The pool fallback for an unknown key (AudioEngine.tsx:988-992) is not modelled. It cannot be reached: root and scale type are enumerations, and every pair has a table entry.
- The `|| 0.2` duration default (AudioEngine.tsx:1193) is not modelled. Every note value has an entry.
- The `Math.min` in phase 0's rising pattern is kept, although `i * 2 % n` is always below `n`.
- Camera capture, pose estimation, the React UI and the BPM control are not part of this model. Neither are the synthetic drum samples of createSampleAudio.ts and the `Blob` wrapper: `AudioBufferToWav` returns the bytes.
- Wav.Samples: assumes a little-endian host for the `Int16Array`'s bytes (createSampleAudio.ts:120). The byte order of a typed array's buffer is the platform's.
- Wav.AudioBuffer: NaN and infinite samples are not modelled, and the sample rate is a natural number. The channels are taken to hold 32-bit floats, so the copy into the `Float32Array` is exact.
- Wav.Ascii: one byte per character. A character outside the Basic Multilingual Plane is two UTF-16 code units for `string.length` and `charCodeAt`, so the code writes two bytes (the low bytes of its surrogates); the model writes one, its code modulo 256. The only strings written are `RIFF`, `WAVE`, `fmt ` and `data`, all ASCII.
- Wav.WriteString: as for `Wav.Ascii`, a character outside the Basic Multilingual Plane takes one position instead of two.
- Runs.Run: a session is modelled as a run of frames from a given state. The asynchronous scheduling between frames is not modelled.

## Notes on the code

* **The melody gate.** It also requires that nothing has played in the frame (AudioEngine.tsx:671). So a nod or a flick in the same frame silences the melody (`Gestures.MelodyFollowsRule`, `Gestures.StepFiresFirst`).
* **The raised left hand.** It uses the fx counter (AudioEngine.tsx:746, 767), which it shares with both-hands-up and the punch. There is no separate counter for it (`RunProperties.CooldownBlocks`).
* **The punch latch.** It clears on every frame without a punch, including frames in which the wrists are not seen (AudioEngine.tsx:819-821). The other latches keep their value when their keypoints are missing (`RunProperties.UnseenWristsClearPunch`, `RunProperties.UnseenKeepsLatch`).
* **The melody-time test.** It reads `lastMelodyTime` 0 as "never played" (AudioEngine.tsx:664-669). So a phrase played at time 0 does not delay the next one (`RunProperties.MelodyRests` requires a non-zero time).
* **The steady rhythm style.** Its drawn values never include the quarter note (`Math.floor(u * (noteDurations.length - 1))` never reaches the last entry, AudioEngine.tsx:1156), and every phrase has at least four notes. So the drawn values are always overwritten by the accent pattern (`Rhythm.SteadyStyle`, `Phrase.PhraseLength`).
* **The melody's key test.** It checks only the current nose's score, not the stored one's (AudioEngine.tsx:655).

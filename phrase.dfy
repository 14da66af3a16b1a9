/** `generateMelodyPhrase` (AudioEngine.tsx:913-1115): the note pool built from
    the scale table, the phrase length, the eight index patterns selected by
    the phase, and the continuity rule that may reuse the previous phrase's
    last note. */
module Phrase {
  import opened Randomness
  import opened Motion
  import opened Scales

  /** The note pool: the degrees at the current octave, the root an octave up,
      the third and fifth degrees an octave up (when the scale has more than
      two degrees), the root an octave down in front and, when the draw asks for
      it, the root two octaves up at the end. */
  function Pool(degrees: seq<Pitch>, octave: int, extraHigh: bool): (p: seq<Note>)
    requires |degrees| > 0
    ensures |p| == |degrees| + (if |degrees| > 2 then 4 else 2) + (if extraHigh then 1 else 0)
    ensures p[0] == Note(degrees[0], octave - 1)
    ensures forall i :: 0 <= i < |degrees| ==> p[i + 1] == Note(degrees[i], octave)
    ensures p[|degrees| + 1] == Note(degrees[0], octave + 1)
    ensures extraHigh ==> p[|p| - 1] == Note(degrees[0], octave + 2)
  {
    var atOctave := seq(|degrees|, i requires 0 <= i < |degrees| => Note(degrees[i], octave));
    var upper := [Note(degrees[0], octave + 1)] +
                 (if |degrees| > 2 then [Note(degrees[2], octave + 1), Note(degrees[4 % |degrees|], octave + 1)] else []);
    [Note(degrees[0], octave - 1)] + atOctave + upper + (if extraHigh then [Note(degrees[0], octave + 2)] else [])
  }

  /** The pool for a scale state: 11 or 12 notes for the seven-degree scales,
      9 or 10 for the pentatonic and 10 or 11 for the blues scale. */
  function ScalePool(s: ScaleState, extraHigh: bool): (p: seq<Note>)
    ensures |p| == DegreeCount(s.kind) + 4 + (if extraHigh then 1 else 0)
    ensures 9 <= |p| <= 12
    ensures p[0] == Note(Natural(s.root), s.octave - 1)
  {
    Pool(Degrees(s.kind, s.root), s.octave, extraHigh)
  }

  /** `Math.min(9, Math.max(4, Math.floor(intensity * 10) + 3))`. */
  function PhraseLength(d2: real): (n: nat)
    ensures 4 <= n <= 9
  {
    var t := IntensityTenths(d2) + 3;
    if t < 4 then 4 else if t > 9 then 9 else t
  }

  /** Longer phrases for stronger movement: the length never decreases as the
      movement grows. */
  lemma PhraseLengthMonotone(a: real, b: real)
    requires a <= b
    ensures PhraseLength(a) <= PhraseLength(b)
  {
    TenthsMonotone(a, b);
  }

  // The fixed patterns (`Array.from` with an index function), each an index into a pool of n notes.

  /** Phase 0, moving right: a rapid climb in steps of two. */
  function Ascent(i: nat, n: nat): (j: nat)
    requires 0 < n
    ensures j < n
  {
    var up := i * 2 % n;
    if up < n - 1 then up else n - 1
  }

  /** Phase 0, moving left: a rapid fall in steps of two, held at the bottom. */
  function Descent(i: nat, n: nat): (j: nat)
    requires 0 < n
    ensures j < n
  {
    var down := n - 1 - i * 2;
    (if down > 0 then down else 0) % n
  }

  /** Phase 1: wide-leap arpeggios, one of two shapes chosen by the vertical direction. */
  function Arpeggio(i: nat, n: nat, vertical: int): (j: nat)
    requires 3 <= n
    ensures j < n
  {
    var base: seq<nat> := if vertical > 0 then [0, 4, n - 1, 1, n - 2] else [0, n - 1, 2, n - 3, 4];
    base[i % |base|] % n
  }

  /** Phase 2: the tension pattern 0 6 1 5 2 7 3. */
  function Tension(i: nat, n: nat): (j: nat)
    requires 0 < n
    ensures j < n
  {
    var base: seq<nat> := [0, 6, 1, 5, 2, 7, 3];
    base[i % |base|] % n
  }

  /** Phase 5: the dramatic pattern, with every fourth note pushed up by n - 1 places. */
  function Dramatic(i: nat, n: nat): (j: nat)
    requires 0 < n
    ensures j < n
  {
    var base: seq<nat> := [0, 2, 7, 0, 7, 5, 7];
    var octaveJump := if i % 4 == 3 then n - 1 else 0;
    (base[i % |base|] + octaveJump) % n
  }

  /** Phase 6: a zigzag between the lower half and the top of the pool. */
  function Zigzag(i: nat, n: nat): (j: nat)
    requires 0 < n
    ensures j < n
  {
    var half := (n + 1) / 2;   // Math.ceil(n / 2)
    (if i % 2 == 0 then (i / 2) % half else n - 1 - (i / 2) % half) % n
  }

  // The random patterns, each drawing from the stream.

  /** Phase 3: L independent random indices, `Math.floor(Math.random() * n)`. */
  function RandomLeaps(n: nat, len: nat, draws: Stream, k: nat): (idx: seq<nat>)
    requires IsUnit(draws) && 0 < n
    ensures |idx| == len && forall i :: 0 <= i < len ==> idx[i] < n
    ensures forall i :: 0 <= i < len ==> idx[i] == FloorIndex(draws(k + i), n)
  {
    if len == 0 then [] else RandomLeaps(n, len - 1, draws, k) + [FloorIndex(draws(k + len - 1), n)]
  }

  /** A leap of `3 + Math.floor(Math.random() * span)` places, upwards when
      the sign draw exceeds one half. */
  function Jump(sign: real, magnitude: real, span: nat): (j: int)
    requires 0.0 <= magnitude < 1.0 && 0 < span
    ensures 3 <= (if j < 0 then -j else j) < 3 + span
    ensures j > 0 <==> sign > 0.5
  {
    (if sign > 0.5 then 1 else -1) * (3 + FloorIndex(magnitude, span))
  }

  /** Phase 4: how many times the first note repeats, `Math.min(3, Math.floor(L / 2))`. */
  function Repeats(len: nat): (r: nat)
    ensures r <= 3 && 2 * r <= len
    ensures r == 3 || len <= 2 * r + 1
    ensures len >= 6 ==> r == 3
  {
    if len / 2 < 3 then len / 2 else 3
  }

  /** Phase 4: one random note repeated, then leaps of 3 to 7 places away from
      it, each reading a sign draw and a magnitude draw. */
  function RepeatThenLeap(n: nat, len: nat, draws: Stream, k: nat): (idx: seq<nat>)
    requires IsUnit(draws) && 7 <= n
    ensures |idx| == len && forall i :: 0 <= i < len ==> idx[i] < n
    ensures forall i :: 0 <= i < len && i < Repeats(len) ==> idx[i] == FloorIndex(draws(k), n)
  {
    var start := FloorIndex(draws(k), n);
    var r := Repeats(len);
    seq(len, i requires 0 <= i < len =>
      if i < r then start
      else (start + Jump(draws(k + 1 + 2 * (i - r)), draws(k + 2 + 2 * (i - r)), 5) + n) % n)
  }

  /** Phase 7, after the first note: `count` leaps of 3 to 6 places, each
      from the note before. */
  function Walk(prev: nat, count: nat, n: nat, draws: Stream, k: nat): (idx: seq<nat>)
    requires IsUnit(draws) && 6 <= n && prev < n
    ensures |idx| == count && forall i :: 0 <= i < count ==> idx[i] < n
    decreases count
  {
    if count == 0 then []
    else
      var next := (prev + Jump(draws(k), draws(k + 1), 4) + n) % n;
      [next] + Walk(next, count - 1, n, draws, k + 2)
  }

  /** Phase 7: a random first note, then a walk of leaps. */
  function LeapWalk(n: nat, len: nat, draws: Stream, k: nat): (idx: seq<nat>)
    requires IsUnit(draws) && 6 <= n && 0 < len
    ensures |idx| == len && forall i :: 0 <= i < len ==> idx[i] < n
  {
    var start := FloorIndex(draws(k), n);
    [start] + Walk(start, len - 1, n, draws, k + 1)
  }

  /** The `switch (phase)` of the source: the pool indices of the phrase and
      the next unread draw. */
  function PatternIndices(phase: int, n: nat, len: nat, m: Motion, draws: Stream, k: nat): (r: (seq<nat>, nat))
    requires IsUnit(draws) && 0 <= phase < 8 && 9 <= n && 0 < len
    ensures |r.0| == len && forall i :: 0 <= i < len ==> r.0[i] < n
    ensures k <= r.1
  {
    match phase
    case 0 => (seq(len, i requires 0 <= i < len => if m.direction > 0 then Ascent(i, n) else Descent(i, n)), k)
    case 1 => (seq(len, i requires 0 <= i < len => Arpeggio(i, n, m.vertical)), k)
    case 2 => (seq(len, i requires 0 <= i < len => Tension(i, n)), k)
    case 3 => (RandomLeaps(n, len, draws, k), k + len)
    case 4 => (RepeatThenLeap(n, len, draws, k), k + 1 + 2 * (len - Repeats(len)))
    case 5 => (seq(len, i requires 0 <= i < len => Dramatic(i, n)), k)
    case 6 => (seq(len, i requires 0 <= i < len => Zigzag(i, n)), k)
    case 7 => (LeapWalk(n, len, draws, k), k + 1 + 2 * (len - 1))
  }

  /** The note at the end of the previous phrase, when there is one. */
  function LastOf(notes: seq<Note>): (r: Note)
    requires |notes| > 0
    ensures r in notes
  {
    notes[|notes| - 1]
  }

  /** The phrase a pattern picks from a pool, with the first note replaced by
      the previous phrase's last note when `carryOver` holds. */
  function Assemble(pool: seq<Note>, idx: seq<nat>, lastNotes: seq<Note>, carryOver: bool): (p: seq<Note>)
    requires 0 < |idx| && forall i :: 0 <= i < |idx| ==> idx[i] < |pool|
    requires carryOver ==> |lastNotes| > 0
    ensures |p| == |idx|
    ensures forall i :: 1 <= i < |p| ==> p[i] == pool[idx[i]]
    ensures p[0] == if carryOver then LastOf(lastNotes) else pool[idx[0]]
  {
    var pattern := seq(|idx|, i requires 0 <= i < |idx| => pool[idx[i]]);
    if carryOver then pattern[0 := LastOf(lastNotes)] else pattern
  }

  /** `generateMelodyPhrase` reading draws from position `k`: the phrase and
      the next unread position.  Draws: the extra-high-note draw, the pattern's
      draws, then (only when a previous phrase exists) the continuity draw. */
  function PhraseOf(s: ScaleState, lastNotes: seq<Note>, m: Motion, draws: Stream, k: nat): (r: (seq<Note>, nat))
    requires IsUnit(draws) && ValidScale(s)
    ensures |r.0| == PhraseLength(m.d2)
    ensures k < r.1
    ensures forall i :: 1 <= i < |r.0| ==> r.0[i] in ScalePool(s, draws(k) > 0.7)
    ensures r.0[0] in ScalePool(s, draws(k) > 0.7) || (|lastNotes| > 0 && r.0[0] == LastOf(lastNotes))
  {
    var pool := ScalePool(s, draws(k) > 0.7);
    var pattern := PatternIndices(s.phase, |pool|, PhraseLength(m.d2), m, draws, k + 1);
    Continue(pool, pattern.0, pattern.1, lastNotes, draws)
  }

  /** The continuity rule: with a previous phrase, one draw decides whether
      its last note replaces the first note of the new one. */
  function Continue(pool: seq<Note>, idx: seq<nat>, next: nat, lastNotes: seq<Note>, draws: Stream): (r: (seq<Note>, nat))
    requires 0 < |idx| && forall i :: 0 <= i < |idx| ==> idx[i] < |pool|
    ensures r.1 == if |lastNotes| > 0 then next + 1 else next
    ensures |r.0| == |idx| && forall i :: 1 <= i < |idx| ==> r.0[i] == pool[idx[i]]
    ensures r.0[0] == pool[idx[0]] || (|lastNotes| > 0 && r.0[0] == LastOf(lastNotes))
    ensures |lastNotes| == 0 ==> r.0[0] == pool[idx[0]]
  {
    var carryOver := |lastNotes| > 0 && draws(next) > 0.5;
    (Assemble(pool, idx, lastNotes, carryOver), if |lastNotes| > 0 then next + 1 else next)
  }

  /** The pool as the source builds it: map the degrees to the octave, push
      the notes above, unshift the note below, push the extra high note. */
  method BuildPool(s: ScaleState, extraHigh: bool) returns (notes: seq<Note>)
    ensures notes == ScalePool(s, extraHigh)
  {
    var degrees := Degrees(s.kind, s.root);
    notes := seq(|degrees|, i requires 0 <= i < |degrees| => Note(degrees[i], s.octave));
    notes := notes + [Note(degrees[0], s.octave + 1)];
    if |degrees| > 2 {
      notes := notes + [Note(degrees[2], s.octave + 1)];
      notes := notes + [Note(degrees[4 % |degrees|], s.octave + 1)];
    }
    notes := [Note(degrees[0], s.octave - 1)] + notes;
    if extraHigh {
      notes := notes + [Note(degrees[0], s.octave + 2)];
    }
  }

  /** Phase 3's loop: one random index per note. */
  method DrawRandomLeaps(n: nat, len: nat, draws: Stream, k: nat) returns (steps: seq<nat>)
    requires IsUnit(draws) && 0 < n
    ensures steps == RandomLeaps(n, len, draws, k)
  {
    steps := [];
    var i := 0;
    while i < len
      invariant 0 <= i <= len
      invariant steps == RandomLeaps(n, i, draws, k)
    {
      steps := steps + [FloorIndex(draws(k + i), n)];
      i := i + 1;
    }
  }

  /** Phase 4's two loops: the repeated note, then the leaps away from it. */
  method DrawRepeatThenLeap(n: nat, len: nat, draws: Stream, k: nat) returns (pattern: seq<nat>, next: nat)
    requires IsUnit(draws) && 7 <= n
    ensures pattern == RepeatThenLeap(n, len, draws, k)
    ensures next == k + 1 + 2 * (len - Repeats(len))
  {
    ghost var spec := RepeatThenLeap(n, len, draws, k);
    pattern := [];
    var noteIdx := FloorIndex(draws(k), n);
    next := k + 1;
    var i := 0;
    while i < Repeats(len)
      invariant 0 <= i <= Repeats(len)
      invariant pattern == spec[..i]
    {
      pattern := pattern + [noteIdx];
      i := i + 1;
    }
    while i < len
      invariant Repeats(len) <= i <= len
      invariant next == k + 1 + 2 * (i - Repeats(len))
      invariant pattern == spec[..i]
    {
      var jump := Jump(draws(next), draws(next + 1), 5);
      pattern := pattern + [(noteIdx + jump + n) % n];
      next := next + 2;
      i := i + 1;
    }
  }

  /** Phase 7's loop: each note leaps three to six places from the one before. */
  method DrawLeapWalk(n: nat, len: nat, draws: Stream, k: nat) returns (pattern: seq<nat>, next: nat)
    requires IsUnit(draws) && 6 <= n && 0 < len
    ensures pattern == LeapWalk(n, len, draws, k)
    ensures next == k + 1 + 2 * (len - 1)
  {
    var prevIdx: nat := FloorIndex(draws(k), n);
    pattern := [prevIdx];
    next := k + 1;
    var i := 1;
    while i < len
      invariant 1 <= i <= len && prevIdx < n
      invariant next == k + 1 + 2 * (i - 1)
      invariant pattern + Walk(prevIdx, len - i, n, draws, next) == LeapWalk(n, len, draws, k)
    {
      var jump := Jump(draws(next), draws(next + 1), 4);
      prevIdx := (prevIdx + jump + n) % n;
      pattern := pattern + [prevIdx];
      next := next + 2;
      i := i + 1;
    }
  }

  /** `generateMelodyPhrase` as the source runs it: build the pool, pick the
      pattern by phase, apply the continuity rule.  Returns the phrase and the
      next unread draw. */
  method ComposePhrase(s: ScaleState, lastNotes: seq<Note>, m: Motion, draws: Stream, k: nat)
      returns (melodyPattern: seq<Note>, next: nat)
    requires IsUnit(draws) && ValidScale(s)
    ensures (melodyPattern, next) == PhraseOf(s, lastNotes, m, draws, k)
  {
    var extraHigh := draws(k) > 0.7;
    var notes := BuildPool(s, extraHigh);
    var phraseLength := PhraseLength(m.d2);
    var idx: seq<nat>;
    idx, next := PickIndices(s.phase, |notes|, phraseLength, m, draws, k + 1);
    melodyPattern, next := CarryOver(notes, idx, next, lastNotes, draws);
  }

  /** Maps the indices to the pool, then, with a previous phrase, draws
      whether its last note replaces the first. */
  method CarryOver(notes: seq<Note>, idx: seq<nat>, k: nat, lastNotes: seq<Note>, draws: Stream)
      returns (melodyPattern: seq<Note>, next: nat)
    requires 0 < |idx| && forall i :: 0 <= i < |idx| ==> idx[i] < |notes|
    ensures (melodyPattern, next) == Continue(notes, idx, k, lastNotes, draws)
  {
    melodyPattern := seq(|idx|, j requires 0 <= j < |idx| => notes[idx[j]]);
    next := k;
    var carryOver := false;
    if |lastNotes| > 0 {
      carryOver := draws(next) > 0.5;
      if carryOver {
        melodyPattern := melodyPattern[0 := LastOf(lastNotes)];
      }
      next := next + 1;
    }
  }

  /** The `switch (phase)`: the fixed patterns directly, the random ones by
      their loops.  Returns the pool indices and the next unread draw. */
  method PickIndices(phase: int, n: nat, len: nat, m: Motion, draws: Stream, k: nat) returns (idx: seq<nat>, next: nat)
    requires IsUnit(draws) && 0 <= phase < 8 && 9 <= n && 0 < len
    ensures (idx, next) == PatternIndices(phase, n, len, m, draws, k)
  {
    if phase == 3 {
      var steps := DrawRandomLeaps(n, len, draws, k);
      idx := seq(len, j requires 0 <= j < len => steps[j] % n);
      ReduceIdentity(steps, n);
      next := k + len;
    } else if phase == 4 {
      var pattern;
      pattern, next := DrawRepeatThenLeap(n, len, draws, k);
      idx := seq(len, j requires 0 <= j < len => pattern[j] % n);
      ReduceIdentity(pattern, n);
    } else if phase == 7 {
      idx, next := DrawLeapWalk(n, len, draws, k);
    } else {
      // phases 0, 1, 2, 5 and 6 are `Array.from` over a fixed index function
      idx, next := PatternIndices(phase, n, len, m, draws, k).0, k;
    }
  }

  /** `notes[i % notes.length]` picks `notes[i]` for an index already in range. */
  lemma ReduceIdentity(idx: seq<nat>, n: nat)
    requires 0 < n && forall i :: 0 <= i < |idx| ==> idx[i] < n
    ensures seq(|idx|, j requires 0 <= j < |idx| => idx[j] % n) == idx
  {
    forall j | 0 <= j < |idx| ensures idx[j] % n == idx[j] {
      SmallMod(idx[j], n);
    }
  }

  lemma SmallMod(x: nat, n: nat)
    requires x < n
    ensures x % n == x
  {
  }
}

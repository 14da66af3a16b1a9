/** The melody's key: root letter, scale type, octave and phase, the fixed
    table of scale degrees, and the state machine `updateMelodyScale` runs on
    it (AudioEngine.tsx:872-969). */
module Scales {
  import opened Randomness
  import opened Motion

  datatype Root = C | D | E | F | G | A | B
  datatype ScaleType = Major | Minor | Pentatonic | Blues | Phrygian

  /** `scaleRoots`: the circle the root walks around. */
  const Roots: seq<Root> := [C, D, E, F, G, A, B]
  /** `scaleTypes`: the cycle the scale type advances through. */
  const ScaleTypes: seq<ScaleType> := [Major, Minor, Pentatonic, Blues, Phrygian]
  /** `moreIntenseScales`, picked from on strong movement. */
  const IntenseScales: seq<ScaleType> := [Minor, Phrygian, Blues]

  /** `scaleRoots.indexOf(root)`. */
  function RootIndex(r: Root): (i: nat)
    ensures i < |Roots| && Roots[i] == r
  {
    match r
    case C => 0 case D => 1 case E => 2 case F => 3 case G => 4 case A => 5 case B => 6
  }

  /** `scaleTypes.indexOf(type)`. */
  function TypeIndex(t: ScaleType): (i: nat)
    ensures i < |ScaleTypes| && ScaleTypes[i] == t
  {
    match t
    case Major => 0 case Minor => 1 case Pentatonic => 2 case Blues => 3 case Phrygian => 4
  }

  /** A spelled pitch name as the scale table writes it: `C`, `F#`, `Bb`. */
  datatype Pitch = Natural(letter: Root) | Sharp(letter: Root) | Flat(letter: Root)

  /** A pitch name and an octave: the source's string `${pitch}${octave}`. */
  datatype Note = Note(pitch: Pitch, octave: int)

  /** Seven degrees for the modes, five for the pentatonic, six for the blues scale. */
  function DegreeCount(t: ScaleType): nat
  {
    match t
    case Pentatonic => 5
    case Blues => 6
    case _ => 7
  }

  /** `scaleDefinitions[type][root]`, AudioEngine.tsx:923-969. */
  function Degrees(t: ScaleType, r: Root): (d: seq<Pitch>)
    ensures |d| == DegreeCount(t)
    ensures d[0] == Natural(r)
  {
    match t
    case Major => (
      match r
      case C => [Natural(C), Natural(D), Natural(E), Natural(F), Natural(G), Natural(A), Natural(B)]
      case D => [Natural(D), Natural(E), Sharp(F), Natural(G), Natural(A), Natural(B), Sharp(C)]
      case E => [Natural(E), Sharp(F), Sharp(G), Natural(A), Natural(B), Sharp(C), Sharp(D)]
      case F => [Natural(F), Natural(G), Natural(A), Flat(B), Natural(C), Natural(D), Natural(E)]
      case G => [Natural(G), Natural(A), Natural(B), Natural(C), Natural(D), Natural(E), Sharp(F)]
      case A => [Natural(A), Natural(B), Sharp(C), Natural(D), Natural(E), Sharp(F), Sharp(G)]
      case B => [Natural(B), Sharp(C), Sharp(D), Natural(E), Sharp(F), Sharp(G), Sharp(A)])
    case Minor => (
      match r
      case C => [Natural(C), Natural(D), Flat(E), Natural(F), Natural(G), Flat(A), Flat(B)]
      case D => [Natural(D), Natural(E), Natural(F), Natural(G), Natural(A), Flat(B), Natural(C)]
      case E => [Natural(E), Sharp(F), Natural(G), Natural(A), Natural(B), Natural(C), Natural(D)]
      case F => [Natural(F), Natural(G), Flat(A), Flat(B), Natural(C), Flat(D), Flat(E)]
      case G => [Natural(G), Natural(A), Flat(B), Natural(C), Natural(D), Flat(E), Natural(F)]
      case A => [Natural(A), Natural(B), Natural(C), Natural(D), Natural(E), Natural(F), Natural(G)]
      case B => [Natural(B), Sharp(C), Natural(D), Natural(E), Sharp(F), Natural(G), Natural(A)])
    case Pentatonic => (
      match r
      case C => [Natural(C), Natural(D), Natural(E), Natural(G), Natural(A)]
      case D => [Natural(D), Natural(E), Sharp(F), Natural(A), Natural(B)]
      case E => [Natural(E), Sharp(F), Sharp(G), Natural(B), Sharp(C)]
      case F => [Natural(F), Natural(G), Natural(A), Natural(C), Natural(D)]
      case G => [Natural(G), Natural(A), Natural(B), Natural(D), Natural(E)]
      case A => [Natural(A), Natural(B), Sharp(C), Natural(E), Sharp(F)]
      case B => [Natural(B), Sharp(C), Sharp(D), Sharp(F), Sharp(G)])
    case Blues => (
      match r
      case C => [Natural(C), Flat(E), Natural(F), Sharp(F), Natural(G), Flat(B)]
      case D => [Natural(D), Natural(F), Natural(G), Sharp(G), Natural(A), Natural(C)]
      case E => [Natural(E), Natural(G), Natural(A), Sharp(A), Natural(B), Natural(D)]
      case F => [Natural(F), Flat(A), Flat(B), Natural(B), Natural(C), Flat(E)]
      case G => [Natural(G), Flat(B), Natural(C), Sharp(C), Natural(D), Natural(F)]
      case A => [Natural(A), Natural(C), Natural(D), Sharp(D), Natural(E), Natural(G)]
      case B => [Natural(B), Natural(D), Natural(E), Natural(F), Sharp(F), Natural(A)])
    case Phrygian => (
      match r
      case C => [Natural(C), Flat(D), Flat(E), Natural(F), Natural(G), Flat(A), Flat(B)]
      case D => [Natural(D), Flat(E), Natural(F), Natural(G), Natural(A), Flat(B), Natural(C)]
      case E => [Natural(E), Natural(F), Natural(G), Natural(A), Natural(B), Natural(C), Natural(D)]
      case F => [Natural(F), Flat(G), Flat(A), Flat(B), Natural(C), Flat(D), Flat(E)]
      case G => [Natural(G), Flat(A), Flat(B), Natural(C), Natural(D), Flat(E), Natural(F)]
      case A => [Natural(A), Flat(B), Natural(C), Natural(D), Natural(E), Natural(F), Natural(G)]
      case B => [Natural(B), Natural(C), Natural(D), Natural(E), Sharp(F), Natural(G), Natural(A)])
  }

  /** `currentScale`, `scaleType`, `currentOctave`, `melodyPhase`. */
  datatype ScaleState = ScaleState(root: Root, kind: ScaleType, octave: int, phase: int)

  predicate ValidScale(s: ScaleState)
  {
    2 <= s.octave <= 6 && 0 <= s.phase < 8
  }

  /** The session starts in C major, octave 4, phase 0. */
  const InitialScale: ScaleState := ScaleState(C, Major, 4, 0)

  /** `Math.max(lo, Math.min(hi, v))`. */
  function ClampInt(v: int, lo: int, hi: int): (c: int)
    requires lo <= hi
    ensures lo <= c <= hi
    ensures lo <= v <= hi ==> c == v
  {
    if v < lo then lo else if v > hi then hi else v
  }

  /** `updateMelodyScale(intensity, direction, vertical)` reading draws from
      position `k`; returns the new state and the next unread position.
      Draws: the evolution draw; then the tense-scale pick or the advance draw;
      then, only when intensity > 0.5, the octave draw. */
  function Evolve(s: ScaleState, m: Motion, draws: Stream, k: nat): (r: (ScaleState, nat))
    requires IsUnit(draws) && ValidMotion(m)
    ensures ValidScale(s) ==> ValidScale(r.0)
    ensures k < r.1 <= k + 3
    ensures !EvolveDraw(draws(k), m.d2) ==> r == (s, k + 1)
    ensures EvolveDraw(draws(k), m.d2) ==>
              r.0.phase == (s.phase + 1) % 8 &&
              (RootIndex(r.0.root) - RootIndex(s.root) - m.direction) % 7 == 0
    ensures EvolveDraw(draws(k), m.d2) && IntensityExceeds(m.d2, 0.6) ==> r.0.kind in IntenseScales
    ensures r.0.kind != s.kind ==>
              r.0.kind in IntenseScales || r.0.kind == ScaleTypes[(TypeIndex(s.kind) + 1) % |ScaleTypes|]
    ensures r.0.octave != s.octave ==>
              IntensityExceeds(m.d2, 0.5) && r.0.octave == ClampInt(s.octave + m.vertical, 2, 6)
  {
    if !EvolveDraw(draws(k), m.d2) then (s, k + 1)
    else
      var root := Roots[(RootIndex(s.root) + m.direction + |Roots|) % |Roots|];
      var kind :=
        if IntensityExceeds(m.d2, 0.6) then IntenseScales[FloorIndex(draws(k + 1), |IntenseScales|)]
        else if draws(k + 1) < 0.4 then ScaleTypes[(TypeIndex(s.kind) + 1) % |ScaleTypes|]
        else s.kind;
      var (octave, next) :=
        if IntensityExceeds(m.d2, 0.5) then
          (if draws(k + 2) < 0.4 then ClampInt(s.octave + m.vertical, 2, 6) else s.octave, k + 3)
        else (s.octave, k + 2);
      (ScaleState(root, kind, octave, (s.phase + 1) % 8), next)
  }
}

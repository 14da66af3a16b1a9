/** One frame of the pose-to-sound engine as a function of the engine state
    and the frame (AudioEngine.tsx:555-826): every cooldown counts down, then
    eight gesture tests run in a fixed order, each able to fire only while
    its cooldown has run out, its edge latch is clear and nothing has played
    yet this frame; finally the pose is remembered for the next frame. */
module Gestures {
  import opened Options
  import opened Randomness
  import opened Keypoints
  import opened Motion
  import opened Scales
  import opened Phrase
  import opened Sound
  import opened Rhythm

  /** The six counters of `audioStateRef`, in declaration order. */
  datatype Category = Kick | Snare | Hihat | Bass | Melody | Fx

  /** A counter's position in the state's cooldown vector. */
  function Slot(c: Category): (i: nat)
    ensures i < 6
  {
    match c
    case Kick => 0 case Snare => 1 case Hihat => 2 case Bass => 3 case Melody => 4 case Fx => 5
  }

  /** The frames a category stays blocked after it fires. */
  function Reset(c: Category): (n: int)
    ensures 5 <= n <= 15
  {
    match c
    case Kick => 10 case Snare => 8 case Hihat => 5 case Bass => 15 case Melody => 12 case Fx => 15
  }

  /** The eight gestures, in the order a frame tests them. */
  datatype Gesture = Nod | RightFlick | LeftFlick | HeadMove | RightHandUp | LeftHandUp | BothHandsUp | Punch

  /** The counter a gesture consults and resets: the three arm gestures of
      the effects share the fx counter. */
  function CategoryOf(g: Gesture): Category
  {
    match g
    case Nod => Kick
    case RightFlick => Hihat
    case LeftFlick => Snare
    case HeadMove => Melody
    case RightHandUp => Bass
    case LeftHandUp | BothHandsUp | Punch => Fx
  }

  /** Only the raised left hand, both hands up and the punch share a counter. */
  lemma SharedCounter(g: Gesture, h: Gesture)
    requires g != h && CategoryOf(g) == CategoryOf(h)
    ensures g in {LeftHandUp, BothHandsUp, Punch} && h in {LeftHandUp, BothHandsUp, Punch}
  {
  }

  /** Gestures guarded by an edge latch, which fire once per crossing. */
  predicate HasLatch(g: Gesture)
  {
    g in {Nod, RightHandUp, LeftHandUp, BothHandsUp, Punch}
  }

  /** Floating-point maths the engine delegates: `Math.sqrt` for the hihat
      and snare velocities and `wave(i, n)` for `Math.sin(i / n * 2 * Math.PI)`. */
  datatype Analog = Analog(sqrt: real -> real, wave: (nat, nat) -> real)

  /** One processed frame: the pose, `Tone.now()`, the frame's
      `Math.random()` draws and the floating-point helpers. */
  datatype Frame = Frame(pose: Pose, toneNow: real, draws: Stream, analog: Analog)

  /** `now = Tone.now() + 0.05`, shared by every sound of the frame. */
  function Now(f: Frame): real
  {
    f.toneNow + 0.05
  }

  /** `audioStateRef` (the cooldown vector, indexed by `Slot`) and the parts
      of `poseStateRef` the engine reads: the five latches, the melody's key,
      the last phrase, the time of the last phrase and the last pose. */
  datatype State = State(
    nodDetected: bool,
    rightHandUp: bool,
    leftHandUp: bool,
    bothHandsUp: bool,
    punchDetected: bool,
    cooldown: seq<int>,
    scale: ScaleState,
    lastMelodyNotes: seq<Note>,
    lastMelodyTime: real,
    lastPose: Option<Pose>)

  /** Every counter lies between zero and its reset value, and the key is in range. */
  predicate Valid(s: State)
  {
    && |s.cooldown| == 6
    && (forall c :: 0 <= s.cooldown[Slot(c)] <= Reset(c))
    && ValidScale(s.scale)
  }

  /** The session's state before the first frame. */
  const Initial: State := State(false, false, false, false, false, [0, 0, 0, 0, 0, 0], InitialScale, [], 0.0, None)

  lemma {:induction false} InitialValid()
    ensures Valid(Initial)
  {
    forall c ensures 0 <= Initial.cooldown[Slot(c)] <= Reset(c) {
    }
  }

  /** The latch guarding a gesture. */
  function Latched(s: State, g: Gesture): bool
  {
    match g
    case Nod => s.nodDetected
    case RightHandUp => s.rightHandUp
    case LeftHandUp => s.leftHandUp
    case BothHandsUp => s.bothHandsUp
    case Punch => s.punchDetected
    case _ => false
  }

  function SetLatch(s: State, g: Gesture, v: bool): (r: State)
    ensures Latched(r, g) == (v && HasLatch(g))
    ensures forall h :: h != g ==> Latched(r, h) == Latched(s, h)
    ensures r.cooldown == s.cooldown && r.scale == s.scale && r.lastMelodyNotes == s.lastMelodyNotes
    ensures r.lastMelodyTime == s.lastMelodyTime && r.lastPose == s.lastPose
  {
    match g
    case Nod => s.(nodDetected := v)
    case RightHandUp => s.(rightHandUp := v)
    case LeftHandUp => s.(leftHandUp := v)
    case BothHandsUp => s.(bothHandsUp := v)
    case Punch => s.(punchDetected := v)
    case _ => s
  }

  /** Each positive counter drops by one. */
  function Decremented(cd: seq<int>): (r: seq<int>)
    ensures |r| == |cd|
    ensures forall i :: 0 <= i < |cd| ==> r[i] == if cd[i] > 0 then cd[i] - 1 else cd[i]
  {
    seq(|cd|, i requires 0 <= i < |cd| => if cd[i] > 0 then cd[i] - 1 else cd[i])
  }

  // ---- keypoint geometry ----

  /** The keypoint is in the frame with a score above 0.3. */
  predicate Seen(pose: Pose, name: Part)
  {
    Current(pose, name).Some? && Confident(Current(pose, name).value)
  }

  function Y(pose: Pose, name: Part): real
    requires Seen(pose, name)
  {
    Current(pose, name).value.y
  }

  /** The nose displacement (dx, dy) when the nose is in both frames and
      confidently seen in the current one. */
  function NoseDelta(lastPose: Option<Pose>, pose: Pose): (d: Option<(real, real)>)
    ensures d.Some? <==> Seen(pose, Nose) && Previous(lastPose, Nose).Some?
  {
    var nose := Current(pose, Nose);
    var nosePrev := Previous(lastPose, Nose);
    if nose.Some? && nosePrev.Some? && Confident(nose.value) then
      Some((nose.value.x - nosePrev.value.x, nose.value.y - nosePrev.value.y))
    else None
  }

  /** Right wrist, elbow and shoulder confidently seen (the bass test). */
  predicate RightArmSeen(pose: Pose)
  {
    Seen(pose, RightWrist) && Seen(pose, RightElbow) && Seen(pose, RightShoulder)
  }

  /** Left wrist and shoulder confidently seen (the left-hand test). */
  predicate LeftArmSeen(pose: Pose)
  {
    Seen(pose, LeftWrist) && Seen(pose, LeftShoulder)
  }

  /** Both wrists and both shoulders confidently seen. */
  predicate BothArmsSeen(pose: Pose)
  {
    Seen(pose, LeftWrist) && Seen(pose, RightWrist) && Seen(pose, LeftShoulder) && Seen(pose, RightShoulder)
  }

  /** The frame condition that clears a gesture's latch: the nose moving up,
      a wrist dropping below its shoulder, or no punch. */
  predicate Release(lastPose: Option<Pose>, pose: Pose, g: Gesture)
  {
    match g
    case Nod => NoseDelta(lastPose, pose).Some? && NoseDelta(lastPose, pose).value.1 < 0.0
    case RightHandUp => RightArmSeen(pose) && Y(pose, RightWrist) > Y(pose, RightShoulder)
    case LeftHandUp => LeftArmSeen(pose) && Y(pose, LeftWrist) > Y(pose, LeftShoulder)
    case BothHandsUp =>
      BothArmsSeen(pose) &&
      (Y(pose, LeftWrist) > Y(pose, LeftShoulder) || Y(pose, RightWrist) > Y(pose, RightShoulder))
    case Punch => !DetectSimplePunch(pose, lastPose)
    case _ => false
  }

  // ---- the stages of a frame ----

  /** The pose condition each gesture tests, before its latch, its counter
      and the frame's flag are consulted. */
  predicate Detected(lastPose: Option<Pose>, pose: Pose, g: Gesture)
  {
    match g
    case Nod => NoseDelta(lastPose, pose).Some? && NoseDelta(lastPose, pose).value.1 > 12.0
    case RightFlick => Flicked(pose, lastPose, RightWrist, 100.0)
    case LeftFlick => Flicked(pose, lastPose, LeftWrist, 144.0)
    case HeadMove => HeadMotion(lastPose, pose).Some? && HeadMotion(lastPose, pose).value.d2 > 25.0
    case RightHandUp => RightArmSeen(pose) && Y(pose, RightWrist) < Y(pose, RightShoulder)
    case LeftHandUp => LeftArmSeen(pose) && Y(pose, LeftWrist) < Y(pose, LeftShoulder)
    case BothHandsUp =>
      BothArmsSeen(pose) && Y(pose, LeftWrist) < Y(pose, LeftShoulder) && Y(pose, RightWrist) < Y(pose, RightShoulder)
    case Punch => DetectSimplePunch(pose, lastPose)
  }

  /** Gesture `g` may fire from state `s`, provided nothing has played yet: it
      is detected, its latch is clear, its counter has run out and, for the
      melody, the melody has rested. */
  predicate Open(s: State, f: Frame, g: Gesture)
    requires |s.cooldown| == 6
  {
    && Detected(s.lastPose, f.pose, g)
    && !Latched(s, g)
    && s.cooldown[Slot(CategoryOf(g))] <= 0
    && (g == HeadMove ==> MelodyRested(s, Now(f)))
  }

  /** Whether the melody may start: nothing played yet, or more than 1.5 s
      since the last phrase (`lastMelodyTime` 0 reads as never). */
  predicate MelodyRested(s: State, now: real)
  {
    s.lastMelodyTime == 0.0 || now - s.lastMelodyTime > 1.5
  }

  /** Once rested, the melody stays rested as time goes on. */
  lemma {:induction false} RestedStaysRested(s: State, now: real, later: real)
    requires now <= later && MelodyRested(s, now)
    ensures MelodyRested(s, later)
  {
  }

  /** Only a latched gesture is ever released, and no frame both detects a
      gesture and releases it; the punch is released on exactly the frames
      that detect no punch. */
  lemma {:induction false} ReleaseExcludesDetected(lastPose: Option<Pose>, pose: Pose, g: Gesture)
    ensures Release(lastPose, pose, g) ==> HasLatch(g) && !Detected(lastPose, pose, g)
    ensures g == Punch ==> (Release(lastPose, pose, g) <==> !Detected(lastPose, pose, g))
  {
  }

  /** Each gesture is detected only with its keypoints confidently in view,
      and the motion gestures only with a stored pose to compare against. */
  lemma {:induction false} DetectedNeedsKeypoints(lastPose: Option<Pose>, pose: Pose, g: Gesture)
    requires Detected(lastPose, pose, g)
    ensures g in {Nod, HeadMove} ==> Seen(pose, Nose) && lastPose.Some?
    ensures g == RightFlick ==> Seen(pose, RightWrist) && lastPose.Some?
    ensures g == LeftFlick ==> Seen(pose, LeftWrist) && lastPose.Some?
    ensures g == RightHandUp ==> RightArmSeen(pose)
    ensures g == LeftHandUp ==> LeftArmSeen(pose)
    ensures g == BothHandsUp ==> BothArmsSeen(pose)
    ensures g == Punch ==> (Seen(pose, RightWrist) || Seen(pose, LeftWrist)) && lastPose.Some?
  {
  }

  /** The nose movement as the melody reads it, when the nose is tracked. */
  function HeadMotion(lastPose: Option<Pose>, pose: Pose): (m: Option<Motion>)
    ensures m.Some? <==> NoseDelta(lastPose, pose).Some?
    ensures m.Some? ==> ValidMotion(m.value)
  {
    var d := NoseDelta(lastPose, pose);
    if d.Some? then Some(FromDelta(d.value.0, d.value.1)) else None
  }

  /** What one melody produces: the evolved key, the phrase, its triggers and
      the next unread draw. */
  datatype Take = Take(scale: ScaleState, phrase: seq<Note>, triggers: seq<Trigger>, next: nat)

  /** `updateMelodyScale`, `generateMelodyPhrase` and `playMelodyPhrase` in
      sequence, reading draws from `k`. */
  function Perform(scale: ScaleState, lastNotes: seq<Note>, m: Motion, now: real, wave: (nat, nat) -> real, draws: Stream, k: nat): (t: Take)
    requires IsUnit(draws) && ValidScale(scale) && ValidMotion(m)
    ensures ValidScale(t.scale) && k < t.next
    ensures |t.phrase| == PhraseLength(m.d2) && |t.triggers| == |t.phrase|
  {
    var evolved := Evolve(scale, m, draws, k);
    var phrase := PhraseOf(evolved.0, lastNotes, m, draws, evolved.1);
    var played := PlaySpec(phrase.0, now, wave, draws, phrase.1);
    Take(evolved.0, phrase.0, played.0, played.1)
  }

  /** `bassNotes`, indexed by `Math.floor(Math.random() * 4)`. */
  const BassNotes: seq<Note> := [Note(Natural(C), 2), Note(Natural(G), 1), Note(Natural(A), 1), Note(Natural(F), 1)]

  /** The effect of both arm gestures: a kick C2 (eighth, +0.06 s, 0.9) and a
      snare (sixteenth, +0.1 s, 0.8). */
  function Crash(f: Frame): (ts: seq<Trigger>)
    ensures |ts| == 2
    ensures ts[0].voice == KickVoice && ts[0].note == Some(Note(Natural(C), 2)) && ts[0].duration == N8
    ensures ts[0].time == Now(f) + 0.06 && ts[0].velocity == 0.9
    ensures ts[1].voice == SnareVoice && ts[1].note.None? && ts[1].duration == N16
    ensures ts[1].time == Now(f) + 0.1 && ts[1].velocity == 0.8
  {
    [Trigger(KickVoice, Some(Note(Natural(C), 2)), N8, Now(f) + 0.06, 0.9), Trigger(SnareVoice, None, N16, Now(f) + 0.1, 0.8)]
  }

  /** The nod's kick: C2, an eighth, at the frame's time, velocity 0.8. */
  function KickHit(f: Frame): (t: Trigger)
    ensures t.voice == KickVoice && t.note == Some(Note(Natural(C), 2)) && t.duration == N8
    ensures t.time == Now(f) && t.velocity == 0.8
  {
    Trigger(KickVoice, Some(Note(Natural(C), 2)), N8, Now(f), 0.8)
  }

  /** The hihat of a wrist moved sqrt(d2) pixels: C4, a 32nd, 10 ms later,
      velocity min(0.8, distance / 40). */
  function HihatHit(f: Frame, d2: real): (t: Trigger)
    ensures t.voice == HihatVoice && t.note == Some(Note(Natural(C), 4)) && t.duration == N32
    ensures t.time == Now(f) + 0.01 && t.velocity <= 0.8
    ensures f.analog.sqrt(d2) / 40.0 <= 0.8 ==> t.velocity == f.analog.sqrt(d2) / 40.0
  {
    Trigger(HihatVoice, Some(Note(Natural(C), 4)), N32, Now(f) + 0.01, Min(0.8, f.analog.sqrt(d2) / 40.0))
  }

  /** The snare of a wrist moved sqrt(d2) pixels: unpitched, a sixteenth,
      20 ms later, velocity min(0.7, distance / 40). */
  function SnareHit(f: Frame, d2: real): (t: Trigger)
    ensures t.voice == SnareVoice && t.note.None? && t.duration == N16
    ensures t.time == Now(f) + 0.02 && t.velocity <= 0.7
    ensures f.analog.sqrt(d2) / 40.0 <= 0.7 ==> t.velocity == f.analog.sqrt(d2) / 40.0
  {
    Trigger(SnareVoice, None, N16, Now(f) + 0.02, Min(0.7, f.analog.sqrt(d2) / 40.0))
  }

  /** The bass: a note of `BassNotes` picked by draw `k`, a quarter, 40 ms
      later, velocity 0.7. */
  function BassHit(f: Frame, k: nat): (t: Trigger)
    requires IsUnit(f.draws)
    ensures t.voice == BassVoice && t.note.Some? && t.note.value in BassNotes && t.duration == N4
    ensures t.time == Now(f) + 0.04 && t.velocity == 0.7
  {
    Trigger(BassVoice, Some(BassNotes[FloorIndex(f.draws(k), |BassNotes|)]), N4, Now(f) + 0.04, 0.7)
  }

  /** The fx synth: C4, a quarter, 50 ms later, velocity 0.6. */
  function FxHit(f: Frame): (t: Trigger)
    ensures t.voice == FxVoice && t.note == Some(Note(Natural(C), 4)) && t.duration == N4
    ensures t.time == Now(f) + 0.05 && t.velocity == 0.6
  {
    Trigger(FxVoice, Some(Note(Natural(C), 4)), N4, Now(f) + 0.05, 0.6)
  }

  /** What gesture `g` plays when it fires, given the key and the last phrase
      before it and reading draws from `k`: its triggers, the key and phrase
      after it and the next unread draw.  Only the melody changes the key and
      the phrase, and only the bass and the melody read draws. */
  function Sounds(scale: ScaleState, lastNotes: seq<Note>, lastPose: Option<Pose>, f: Frame, g: Gesture, k: nat): (t: Take)
    requires IsUnit(f.draws) && ValidScale(scale) && Detected(lastPose, f.pose, g)
    ensures ValidScale(t.scale) && k <= t.next && |t.triggers| > 0
    ensures g != HeadMove ==> t.scale == scale && t.phrase == lastNotes
    ensures g != HeadMove && g != RightHandUp ==> t.next == k
    ensures g == RightHandUp ==>
              t.next == k + 1 && |t.triggers| == 1 && t.triggers[0].note.Some? && t.triggers[0].note.value in BassNotes
    ensures g == RightFlick ==> |t.triggers| == 1 && t.triggers[0].velocity <= 0.8
    ensures g == LeftFlick ==> |t.triggers| == 1 && t.triggers[0].note.None? && t.triggers[0].velocity <= 0.7
    ensures g == HeadMove ==>
              |t.phrase| == PhraseLength(HeadMotion(lastPose, f.pose).value.d2) && |t.triggers| == |t.phrase|
  {
    match g
    case Nod => Take(scale, lastNotes, [KickHit(f)], k)
    case RightFlick =>
      var d2 := Dist2(Current(f.pose, RightWrist).value, Previous(lastPose, RightWrist).value);
      Take(scale, lastNotes, [HihatHit(f, d2)], k)
    case LeftFlick =>
      var d2 := Dist2(Current(f.pose, LeftWrist).value, Previous(lastPose, LeftWrist).value);
      Take(scale, lastNotes, [SnareHit(f, d2)], k)
    case HeadMove => Perform(scale, lastNotes, HeadMotion(lastPose, f.pose).value, Now(f), f.analog.wave, f.draws, k)
    case RightHandUp =>
      Take(scale, lastNotes, [BassHit(f, k)], k + 1)
    case LeftHandUp => Take(scale, lastNotes, [FxHit(f)], k)
    case BothHandsUp => Take(scale, lastNotes, Crash(f), k)
    case Punch => Take(scale, lastNotes, Crash(f), k)
  }

  /** The state threaded through a frame's stages: `soundPlayedThisFrame`,
      the gestures fired so far, the triggers issued so far and the next
      unread draw. */
  datatype Pass = Pass(s: State, played: bool, fired: seq<Gesture>, out: seq<Trigger>, k: nat)

  /** A gesture fires: its sounds are issued, its counter is reset, its latch
      is set, the frame is marked as played and, for the melody, the evolved
      key, the phrase and its time are remembered. */
  function Fire(p: Pass, g: Gesture, f: Frame): Pass
    requires |p.s.cooldown| == 6 && IsUnit(f.draws) && ValidScale(p.s.scale) && Detected(p.s.lastPose, f.pose, g)
  {
    Fired(p, g, f, Sounds(p.s.scale, p.s.lastMelodyNotes, p.s.lastPose, f, g, p.k))
  }

  /** The pass a firing leaves, given the take its sounds produced. */
  function Fired(p: Pass, g: Gesture, f: Frame, t: Take): Pass
    requires |p.s.cooldown| == 6
  {
    var c := CategoryOf(g);
    var s := p.s.(cooldown := p.s.cooldown[Slot(c) := Reset(c)], scale := t.scale, lastMelodyNotes := t.phrase,
                  lastMelodyTime := if g == HeadMove then Now(f) else p.s.lastMelodyTime);
    Pass(SetLatch(s, g, true), true, p.fired + [g], p.out + t.triggers, t.next)
  }

  /** Firing marks the frame as played, records the gesture, issues at least
      one sound after those already issued, resets the gesture's counter and
      no other, sets its latch and no other, and stamps the melody's time
      only for the melody. */
  lemma FireEffects(p: Pass, g: Gesture, f: Frame)
    requires |p.s.cooldown| == 6 && IsUnit(f.draws) && ValidScale(p.s.scale) && Detected(p.s.lastPose, f.pose, g)
    ensures Fire(p, g, f).played && Fire(p, g, f).fired == p.fired + [g] && p.k <= Fire(p, g, f).k
    ensures |Fire(p, g, f).out| > |p.out| && Fire(p, g, f).out[..|p.out|] == p.out
    ensures var cd := Fire(p, g, f).s.cooldown;
      |cd| == 6 && cd[Slot(CategoryOf(g))] == Reset(CategoryOf(g)) &&
      forall i :: 0 <= i < 6 && i != Slot(CategoryOf(g)) ==> cd[i] == p.s.cooldown[i]
    ensures Latched(Fire(p, g, f).s, g) == HasLatch(g)
    ensures forall h :: h != g ==> Latched(Fire(p, g, f).s, h) == Latched(p.s, h)
    ensures Fire(p, g, f).s.lastMelodyTime == if g == HeadMove then Now(f) else p.s.lastMelodyTime
    ensures Fire(p, g, f).s.lastPose == p.s.lastPose
  {
    FiredEffects(p, g, f, Sounds(p.s.scale, p.s.lastMelodyNotes, p.s.lastPose, f, g, p.k));
  }

  /** `Fired`'s effects on the pass, for any take with at least one sound
      that reads no draw before `p.k`. */
  lemma FiredEffects(p: Pass, g: Gesture, f: Frame, t: Take)
    requires |p.s.cooldown| == 6 && |t.triggers| > 0 && p.k <= t.next
    ensures Fired(p, g, f, t).played && Fired(p, g, f, t).fired == p.fired + [g] && p.k <= Fired(p, g, f, t).k
    ensures |Fired(p, g, f, t).out| > |p.out| && Fired(p, g, f, t).out[..|p.out|] == p.out
    ensures var cd := Fired(p, g, f, t).s.cooldown;
      |cd| == 6 && cd[Slot(CategoryOf(g))] == Reset(CategoryOf(g)) &&
      forall i :: 0 <= i < 6 && i != Slot(CategoryOf(g)) ==> cd[i] == p.s.cooldown[i]
    ensures Latched(Fired(p, g, f, t).s, g) == HasLatch(g)
    ensures forall h :: h != g ==> Latched(Fired(p, g, f, t).s, h) == Latched(p.s, h)
    ensures Fired(p, g, f, t).s.lastMelodyTime == if g == HeadMove then Now(f) else p.s.lastMelodyTime
    ensures Fired(p, g, f, t).s.lastPose == p.s.lastPose
  {
    assert (p.out + t.triggers)[..|p.out|] == p.out;
  }

  /** The rule every stage follows: when nothing has played and its gesture
      is open, it fires; otherwise, when its latch's release condition holds,
      it clears the latch; otherwise it changes nothing. */
  ghost predicate Advance(p: Pass, r: Pass, g: Gesture, f: Frame)
    requires |p.s.cooldown| == 6 && IsUnit(f.draws) && ValidScale(p.s.scale)
  {
    if !p.played && Open(p.s, f, g) then r == Fire(p, g, f)
    else if HasLatch(g) && Release(p.s.lastPose, f.pose, g) then r == p.(s := SetLatch(p.s, g, false))
    else r == p
  }

  /** The nod block: the nose drops more than 12 pixels; the latch clears
      when the nose moves up. */
  function NodStage(p: Pass, f: Frame): (r: Pass)
    requires |p.s.cooldown| == 6 && IsUnit(f.draws) && ValidScale(p.s.scale)
    ensures |r.s.cooldown| == 6 && ValidScale(r.s.scale)
  {
    var d := NoseDelta(p.s.lastPose, f.pose);
    if d.None? then p
    else
      var dy := d.value.1;
      if dy > 12.0 && !p.s.nodDetected && p.s.cooldown[Slot(Kick)] <= 0 && !p.played then
        Pass(p.s.(nodDetected := true, cooldown := p.s.cooldown[Slot(Kick) := 10]), true, p.fired + [Nod], p.out + [KickHit(f)], p.k)
      else if dy < 0.0 then p.(s := p.s.(nodDetected := false))
      else p
  }

  /** The right-wrist block: the wrist moves more than 10 pixels. */
  function HihatStage(p: Pass, f: Frame): (r: Pass)
    requires |p.s.cooldown| == 6 && IsUnit(f.draws) && ValidScale(p.s.scale)
    ensures |r.s.cooldown| == 6 && ValidScale(r.s.scale)
  {
    if Flicked(f.pose, p.s.lastPose, RightWrist, 100.0) && p.s.cooldown[Slot(Hihat)] <= 0 && !p.played then
      var d2 := Dist2(Current(f.pose, RightWrist).value, Previous(p.s.lastPose, RightWrist).value);
      Pass(p.s.(cooldown := p.s.cooldown[Slot(Hihat) := 5]), true, p.fired + [RightFlick], p.out + [HihatHit(f, d2)], p.k)
    else p
  }

  /** The left-wrist block: the wrist moves more than 12 pixels. */
  function SnareStage(p: Pass, f: Frame): (r: Pass)
    requires |p.s.cooldown| == 6 && IsUnit(f.draws) && ValidScale(p.s.scale)
    ensures |r.s.cooldown| == 6 && ValidScale(r.s.scale)
  {
    if Flicked(f.pose, p.s.lastPose, LeftWrist, 144.0) && p.s.cooldown[Slot(Snare)] <= 0 && !p.played then
      var d2 := Dist2(Current(f.pose, LeftWrist).value, Previous(p.s.lastPose, LeftWrist).value);
      Pass(p.s.(cooldown := p.s.cooldown[Slot(Snare) := 8]), true, p.fired + [LeftFlick], p.out + [SnareHit(f, d2)], p.k)
    else p
  }

  /** The head block: the nose moves more than 5 pixels and the melody has
      rested; the key evolves, a phrase is composed and played, and its time
      is recorded. */
  function MelodyStage(p: Pass, f: Frame): (r: Pass)
    requires |p.s.cooldown| == 6 && IsUnit(f.draws) && ValidScale(p.s.scale)
    ensures |r.s.cooldown| == 6 && ValidScale(r.s.scale)
  {
    var m := HeadMotion(p.s.lastPose, f.pose);
    if m.Some? && m.value.d2 > 25.0 && MelodyRested(p.s, Now(f)) && p.s.cooldown[Slot(Melody)] <= 0 && !p.played then
      var t := Perform(p.s.scale, p.s.lastMelodyNotes, m.value, Now(f), f.analog.wave, f.draws, p.k);
      Pass(p.s.(cooldown := p.s.cooldown[Slot(Melody) := 12], scale := t.scale, lastMelodyNotes := t.phrase,
                lastMelodyTime := Now(f)),
           true, p.fired + [HeadMove], p.out + t.triggers, t.next)
    else p
  }

  /** The bass block: the right hand raised above the shoulder (wrist, elbow
      and shoulder seen); the latch clears when the wrist drops below the
      shoulder. */
  function BassStage(p: Pass, f: Frame): (r: Pass)
    requires |p.s.cooldown| == 6 && IsUnit(f.draws) && ValidScale(p.s.scale)
    ensures |r.s.cooldown| == 6 && ValidScale(r.s.scale)
  {
    if RightArmSeen(f.pose) then
      if Y(f.pose, RightWrist) < Y(f.pose, RightShoulder) && !p.s.rightHandUp &&
         p.s.cooldown[Slot(Bass)] <= 0 && !p.played then
        Pass(p.s.(rightHandUp := true, cooldown := p.s.cooldown[Slot(Bass) := 15]), true, p.fired + [RightHandUp],
             p.out + [BassHit(f, p.k)], p.k + 1)
      else if Y(f.pose, RightWrist) > Y(f.pose, RightShoulder) then p.(s := p.s.(rightHandUp := false))
      else p
    else p
  }

  /** The fx block: the left hand raised above the shoulder, on the fx
      counter. */
  function LeftHandStage(p: Pass, f: Frame): (r: Pass)
    requires |p.s.cooldown| == 6 && IsUnit(f.draws) && ValidScale(p.s.scale)
    ensures |r.s.cooldown| == 6 && ValidScale(r.s.scale)
  {
    if LeftArmSeen(f.pose) then
      if Y(f.pose, LeftWrist) < Y(f.pose, LeftShoulder) && !p.s.leftHandUp &&
         p.s.cooldown[Slot(Fx)] <= 0 && !p.played then
        Pass(p.s.(leftHandUp := true, cooldown := p.s.cooldown[Slot(Fx) := 15]), true, p.fired + [LeftHandUp],
             p.out + [FxHit(f)], p.k)
      else if Y(f.pose, LeftWrist) > Y(f.pose, LeftShoulder) then p.(s := p.s.(leftHandUp := false))
      else p
    else p
  }

  /** The both-hands block: both hands raised above the shoulders; the latch
      clears when either wrist drops below its shoulder. */
  function BothHandsStage(p: Pass, f: Frame): (r: Pass)
    requires |p.s.cooldown| == 6 && IsUnit(f.draws) && ValidScale(p.s.scale)
    ensures |r.s.cooldown| == 6 && ValidScale(r.s.scale)
  {
    if BothArmsSeen(f.pose) then
      var leftUp := Y(f.pose, LeftWrist) < Y(f.pose, LeftShoulder);
      var rightUp := Y(f.pose, RightWrist) < Y(f.pose, RightShoulder);
      if leftUp && rightUp && !p.s.bothHandsUp && p.s.cooldown[Slot(Fx)] <= 0 && !p.played then
        Pass(p.s.(bothHandsUp := true, cooldown := p.s.cooldown[Slot(Fx) := 15]), true, p.fired + [BothHandsUp],
             p.out + Crash(f), p.k)
      else if Y(f.pose, LeftWrist) > Y(f.pose, LeftShoulder) || Y(f.pose, RightWrist) > Y(f.pose, RightShoulder) then
        p.(s := p.s.(bothHandsUp := false))
      else p
    else p
  }

  /** The punch block: either wrist moves more than 15 pixels.  The latch
      clears on every frame without a punch, whatever keypoints are missing. */
  function PunchStage(p: Pass, f: Frame): (r: Pass)
    requires |p.s.cooldown| == 6 && IsUnit(f.draws) && ValidScale(p.s.scale)
    ensures |r.s.cooldown| == 6 && ValidScale(r.s.scale)
  {
    var isPunching := DetectSimplePunch(f.pose, p.s.lastPose);
    if isPunching && !p.s.punchDetected && p.s.cooldown[Slot(Fx)] <= 0 && !p.played then
      Pass(p.s.(punchDetected := true, cooldown := p.s.cooldown[Slot(Fx) := 15]), true, p.fired + [Punch],
           p.out + Crash(f), p.k)
    else if !isPunching then p.(s := p.s.(punchDetected := false))
    else p
  }

  // Each block, as written, follows the common rule.

  lemma {:induction false} NodFollowsRule(p: Pass, f: Frame)
    requires |p.s.cooldown| == 6 && IsUnit(f.draws) && ValidScale(p.s.scale)
    ensures Advance(p, NodStage(p, f), Nod, f)
  {
  }

  lemma {:induction false} HihatFollowsRule(p: Pass, f: Frame)
    requires |p.s.cooldown| == 6 && IsUnit(f.draws) && ValidScale(p.s.scale)
    ensures Advance(p, HihatStage(p, f), RightFlick, f)
  {
  }

  lemma {:induction false} SnareFollowsRule(p: Pass, f: Frame)
    requires |p.s.cooldown| == 6 && IsUnit(f.draws) && ValidScale(p.s.scale)
    ensures Advance(p, SnareStage(p, f), LeftFlick, f)
  {
  }

  lemma {:induction false} MelodyFollowsRule(p: Pass, f: Frame)
    requires |p.s.cooldown| == 6 && IsUnit(f.draws) && ValidScale(p.s.scale)
    ensures Advance(p, MelodyStage(p, f), HeadMove, f)
  {
    var m := HeadMotion(p.s.lastPose, f.pose);
    if m.Some? && m.value.d2 > 25.0 && MelodyRested(p.s, Now(f)) && p.s.cooldown[Slot(Melody)] <= 0 && !p.played {
      assert Open(p.s, f, HeadMove);
      var t := Perform(p.s.scale, p.s.lastMelodyNotes, m.value, Now(f), f.analog.wave, f.draws, p.k);
      assert Sounds(p.s.scale, p.s.lastMelodyNotes, p.s.lastPose, f, HeadMove, p.k) == t;
      var s := p.s.(cooldown := p.s.cooldown[Slot(Melody) := 12], scale := t.scale, lastMelodyNotes := t.phrase,
                    lastMelodyTime := Now(f));
      assert CategoryOf(HeadMove) == Melody && Reset(Melody) == 12;
      assert SetLatch(s, HeadMove, true) == s;
      var r := Fire(p, HeadMove, f);
      assert r.s == s && r.played && r.fired == p.fired + [HeadMove];
      assert r.out == p.out + t.triggers && r.k == t.next;
    } else {
      assert !(!p.played && Open(p.s, f, HeadMove));
    }
  }

  lemma {:induction false} BassFollowsRule(p: Pass, f: Frame)
    requires |p.s.cooldown| == 6 && IsUnit(f.draws) && ValidScale(p.s.scale)
    ensures Advance(p, BassStage(p, f), RightHandUp, f)
  {
    if RightArmSeen(f.pose) && Y(f.pose, RightWrist) < Y(f.pose, RightShoulder) && !p.s.rightHandUp && p.s.cooldown[Slot(Bass)] <= 0 && !p.played {
      assert Open(p.s, f, RightHandUp);
      assert CategoryOf(RightHandUp) == Bass && Reset(Bass) == 15;
      var s := p.s.(rightHandUp := true, cooldown := p.s.cooldown[Slot(Bass) := 15]);
      assert SetLatch(p.s.(cooldown := p.s.cooldown[Slot(Bass) := 15]), RightHandUp, true) == s;
      var r := Fire(p, RightHandUp, f);
      assert r.s == s && r.played && r.fired == p.fired + [RightHandUp];
      assert r.out == p.out + [BassHit(f, p.k)] && r.k == p.k + 1;
    } else {
      assert !(!p.played && Open(p.s, f, RightHandUp));
    }
  }

  lemma {:induction false} LeftHandFollowsRule(p: Pass, f: Frame)
    requires |p.s.cooldown| == 6 && IsUnit(f.draws) && ValidScale(p.s.scale)
    ensures Advance(p, LeftHandStage(p, f), LeftHandUp, f)
  {
  }

  lemma {:induction false} BothHandsFollowsRule(p: Pass, f: Frame)
    requires |p.s.cooldown| == 6 && IsUnit(f.draws) && ValidScale(p.s.scale)
    ensures Advance(p, BothHandsStage(p, f), BothHandsUp, f)
  {
    if BothArmsSeen(f.pose) && Y(f.pose, LeftWrist) < Y(f.pose, LeftShoulder) && Y(f.pose, RightWrist) < Y(f.pose, RightShoulder) && !p.s.bothHandsUp && p.s.cooldown[Slot(Fx)] <= 0 && !p.played {
      assert Open(p.s, f, BothHandsUp);
      assert CategoryOf(BothHandsUp) == Fx && Reset(Fx) == 15;
      var s := p.s.(bothHandsUp := true, cooldown := p.s.cooldown[Slot(Fx) := 15]);
      assert SetLatch(p.s.(cooldown := p.s.cooldown[Slot(Fx) := 15]), BothHandsUp, true) == s;
      var r := Fire(p, BothHandsUp, f);
      assert r.s == s && r.played && r.fired == p.fired + [BothHandsUp];
      assert r.out == p.out + Crash(f) && r.k == p.k;
    } else {
      assert !(!p.played && Open(p.s, f, BothHandsUp));
    }
  }

  lemma {:induction false} PunchFollowsRule(p: Pass, f: Frame)
    requires |p.s.cooldown| == 6 && IsUnit(f.draws) && ValidScale(p.s.scale)
    ensures Advance(p, PunchStage(p, f), Punch, f)
  {
    if DetectSimplePunch(f.pose, p.s.lastPose) && !p.s.punchDetected && p.s.cooldown[Slot(Fx)] <= 0 && !p.played {
      assert Open(p.s, f, Punch);
      assert CategoryOf(Punch) == Fx && Reset(Fx) == 15;
      var s := p.s.(punchDetected := true, cooldown := p.s.cooldown[Slot(Fx) := 15]);
      assert SetLatch(p.s.(cooldown := p.s.cooldown[Slot(Fx) := 15]), Punch, true) == s;
      var r := Fire(p, Punch, f);
      assert r.s == s && r.played && r.fired == p.fired + [Punch];
      assert r.out == p.out + Crash(f) && r.k == p.k;
    } else {
      assert !(!p.played && Open(p.s, f, Punch));
    }
  }


  function Min(a: real, b: real): (m: real)
    ensures m <= a && m <= b && (m == a || m == b)
  {
    if a <= b then a else b
  }

  // ---- a whole frame ----

  /** What a frame produces: the new state, the gestures fired and the
      triggers issued. */
  datatype Outcome = Outcome(state: State, fired: seq<Gesture>, out: seq<Trigger>)

  /** The counters after a frame: counted down, and the fired gesture's
      counter (if any) reset. */
  function CooldownAfter(cd: seq<int>, fired: seq<Gesture>): seq<int>
    requires |cd| == 6
  {
    if |fired| == 0 then Decremented(cd)
    else Decremented(cd)[Slot(CategoryOf(fired[0])) := Reset(CategoryOf(fired[0]))]
  }

  /** A gesture's position in the order a frame tests them. */
  function Rank(g: Gesture): (i: nat)
    ensures i < 8 && GestureAt(i) == g
  {
    match g
    case Nod => 0 case RightFlick => 1 case LeftFlick => 2 case HeadMove => 3
    case RightHandUp => 4 case LeftHandUp => 5 case BothHandsUp => 6 case Punch => 7
  }

  /** The gesture tested in position `i`. */
  function GestureAt(i: nat): Gesture
    requires i < 8
  {
    if i == 0 then Nod else if i == 1 then RightFlick else if i == 2 then LeftFlick else if i == 3 then HeadMove
    else if i == 4 then RightHandUp else if i == 5 then LeftHandUp else if i == 6 then BothHandsUp else Punch
  }

  /** Gesture `g` is ready at the start of frame `f`: open once the counters
      have counted down. */
  predicate Ready(s: State, f: Frame, g: Gesture)
    requires |s.cooldown| == 6
  {
    Open(s.(cooldown := Decremented(s.cooldown)), f, g)
  }

  /** `g` is the first ready gesture in the testing order. */
  predicate First(s: State, f: Frame, g: Gesture)
    requires |s.cooldown| == 6
  {
    Ready(s, f, g) && forall h :: Rank(h) < Rank(g) ==> !Ready(s, f, h)
  }

  /** The latch rule after the stages for the first `n` positions: a tested
      latch is set exactly when its gesture fired or it was set and not
      released; an untested one is as it was. */
  ghost predicate LatchRule(s: State, f: Frame, p: Pass, n: nat)
  {
    forall g :: HasLatch(g) ==>
      Latched(p.s, g) == if Rank(g) < n then g in p.fired || (Latched(s, g) && !Release(s.lastPose, f.pose, g))
                         else Latched(s, g)
  }

  /** The pass holds gesture `g`'s firing from state `s`, on the counted-down
      counters: its sounds, computed from the key, the phrase and the pose of
      `s` and the first draw, are all the output, its counter is reset and the
      melody fields are as its sounds leave them. */
  ghost predicate FiredFrom(s: State, f: Frame, g: Gesture, r: State, out: seq<Trigger>)
    requires |s.cooldown| == 6 && IsUnit(f.draws) && ValidScale(s.scale)
  {
    && Detected(s.lastPose, f.pose, g)
    && var t := Sounds(s.scale, s.lastMelodyNotes, s.lastPose, f, g, 0);
    && out == t.triggers
    && r.cooldown == CooldownAfter(s.cooldown, [g])
    && r.scale == t.scale && r.lastMelodyNotes == t.phrase
    && r.lastMelodyTime == if g == HeadMove then Now(f) else s.lastMelodyTime
  }

  /** What holds of a frame's pass, apart from its latches, after the stages
      for the first `n` positions have run from state `s`: either nothing has
      fired, nothing of the first `n` was ready and only the counters have
      changed, or exactly one gesture fired, it was the first ready one, and
      the pass holds its firing. */
  ghost predicate Progress(s: State, f: Frame, p: Pass, n: nat)
    requires |s.cooldown| == 6 && IsUnit(f.draws) && ValidScale(s.scale)
  {
    && |p.s.cooldown| == 6 && ValidScale(p.s.scale)
    && p.s.lastPose == s.lastPose
    && p.played == (p.fired != []) && |p.fired| <= 1
    && p.s.cooldown == CooldownAfter(s.cooldown, p.fired)
    && (p.fired == [] ==>
          && p.out == [] && p.k == 0 && p.s.cooldown == Decremented(s.cooldown)
          && p.s.scale == s.scale && p.s.lastMelodyNotes == s.lastMelodyNotes && p.s.lastMelodyTime == s.lastMelodyTime
          && forall h :: Rank(h) < n ==> !Ready(s, f, h))
    && (forall g :: g in p.fired ==> Rank(g) < n && First(s, f, g) && FiredFrom(s, f, g, p.s, p.out))
  }

  /** The invariant of a frame's stages: `Progress` and `LatchRule`. */
  ghost predicate Inv(s: State, f: Frame, p: Pass, n: nat)
    requires |s.cooldown| == 6 && IsUnit(f.draws) && ValidScale(s.scale)
  {
    Progress(s, f, p, n) && LatchRule(s, f, p, n)
  }

  /** Before anything has played, the stage for position `n` sees its
      gesture open exactly when it was ready at the start of the frame. */
  lemma {:induction false} OpenIsReady(s: State, f: Frame, p: Pass, n: nat)
    requires |s.cooldown| == 6 && IsUnit(f.draws) && ValidScale(s.scale) && n < 8 && Inv(s, f, p, n)
    requires !p.played
    ensures Open(p.s, f, GestureAt(n)) == Ready(s, f, GestureAt(n))
  {
    var g := GestureAt(n);
    assert Rank(g) == n;
    var d := s.(cooldown := Decremented(s.cooldown));
    assert Latched(p.s, g) == Latched(d, g);
  }

  /** A stage that fires the first ready gesture makes progress. */
  lemma {:induction false} ProgressFire(s: State, f: Frame, p: Pass, n: nat)
    requires |s.cooldown| == 6 && IsUnit(f.draws) && ValidScale(s.scale) && n < 8 && Progress(s, f, p, n)
    requires !p.played && Ready(s, f, GestureAt(n)) && Open(p.s, f, GestureAt(n))
    ensures Progress(s, f, Fire(p, GestureAt(n), f), n + 1)
  {
    var g := GestureAt(n);
    var r := Fire(p, g, f);
    assert Rank(g) == n;
    assert r.fired == [g];
    assert First(s, f, g);
    assert FiredFrom(s, f, g, r.s, r.out);
  }

  /** A stage that fires its gesture keeps the latch rule. */
  lemma {:induction false} LatchRuleFire(s: State, f: Frame, p: Pass, n: nat)
    requires |s.cooldown| == 6 && IsUnit(f.draws) && ValidScale(p.s.scale) && n < 8 && |p.s.cooldown| == 6
    requires p.fired == [] && LatchRule(s, f, p, n) && Detected(p.s.lastPose, f.pose, GestureAt(n))
    ensures LatchRule(s, f, Fire(p, GestureAt(n), f), n + 1)
  {
    var g := GestureAt(n);
    var r := Fire(p, g, f);
    assert Rank(g) == n;
    assert r.fired == [g];
    forall h | HasLatch(h)
      ensures Latched(r.s, h) == if Rank(h) < n + 1 then h in r.fired || (Latched(s, h) && !Release(s.lastPose, f.pose, h))
                                 else Latched(s, h)
    {
      if h != g {
        assert h !in r.fired;
      }
    }
  }

  /** A stage that fires the first ready gesture keeps the invariant. */
  lemma {:induction false} InvFire(s: State, f: Frame, p: Pass, n: nat)
    requires |s.cooldown| == 6 && IsUnit(f.draws) && ValidScale(s.scale) && n < 8 && Inv(s, f, p, n)
    requires !p.played && Ready(s, f, GestureAt(n)) && Open(p.s, f, GestureAt(n))
    ensures Inv(s, f, Fire(p, GestureAt(n), f), n + 1)
  {
    ProgressFire(s, f, p, n);
    LatchRuleFire(s, f, p, n);
  }

  /** A stage that fires nothing, perhaps clearing its released latch, keeps
      the invariant. */
  lemma {:induction false} InvIdle(s: State, f: Frame, p: Pass, r: Pass, n: nat)
    requires |s.cooldown| == 6 && IsUnit(f.draws) && ValidScale(s.scale) && n < 8 && Inv(s, f, p, n)
    requires p.played || !Ready(s, f, GestureAt(n))
    requires var g := GestureAt(n);
             if HasLatch(g) && Release(p.s.lastPose, f.pose, g) then r == p.(s := SetLatch(p.s, g, false)) else r == p
    ensures Inv(s, f, r, n + 1)
  {
    var g := GestureAt(n);
    assert Rank(g) == n;
    assert r.fired == p.fired && r.out == p.out && r.k == p.k;
    forall h | HasLatch(h)
      ensures Latched(r.s, h) == if Rank(h) < n + 1 then h in r.fired || (Latched(s, h) && !Release(s.lastPose, f.pose, h))
                                 else Latched(s, h)
    {
      assert h == g ==> h !in p.fired;
    }
  }

  /** Running the next stage keeps the invariant. */
  lemma {:induction false} InvAdvance(s: State, f: Frame, p: Pass, r: Pass, n: nat)
    requires |s.cooldown| == 6 && IsUnit(f.draws) && ValidScale(s.scale) && n < 8 && Inv(s, f, p, n)
    requires Advance(p, r, GestureAt(n), f)
    ensures Inv(s, f, r, n + 1)
  {
    var g := GestureAt(n);
    if !p.played {
      OpenIsReady(s, f, p, n);
    }
    if !p.played && Open(p.s, f, g) {
      InvFire(s, f, p, n);
    } else {
      InvIdle(s, f, p, r, n);
    }
  }

  /** The counters after a frame stay within their bounds. */
  lemma {:induction false} CooldownAfterValid(s: State, fired: seq<Gesture>)
    requires Valid(s) && |fired| <= 1
    ensures forall c :: 0 <= CooldownAfter(s.cooldown, fired)[Slot(c)] <= Reset(c)
  {
    forall c ensures 0 <= CooldownAfter(s.cooldown, fired)[Slot(c)] <= Reset(c) {
      if |fired| == 1 && Slot(CategoryOf(fired[0])) == Slot(c) {
        assert CategoryOf(fired[0]) == c;
      }
    }
  }

  /** The blocks of a frame, in the order the source runs them, from the
      counted-down counters. */
  function Stages(s: State, f: Frame): (r: Pass)
    requires |s.cooldown| == 6 && IsUnit(f.draws) && ValidScale(s.scale)
    ensures |r.s.cooldown| == 6 && ValidScale(r.s.scale)
  {
    var p1 := NodStage(Start(s), f);
    var p2 := HihatStage(p1, f);
    var p3 := SnareStage(p2, f);
    var p4 := MelodyStage(p3, f);
    var p5 := BassStage(p4, f);
    var p6 := LeftHandStage(p5, f);
    var p7 := BothHandsStage(p6, f);
    PunchStage(p7, f)
  }

  // Each block keeps the invariant for its position.

  lemma {:induction false} NodKeepsInv(s: State, f: Frame, p: Pass)
    requires |s.cooldown| == 6 && IsUnit(f.draws) && ValidScale(s.scale) && Inv(s, f, p, 0)
    ensures Inv(s, f, NodStage(p, f), 1)
  {
    NodFollowsRule(p, f);
    InvAdvance(s, f, p, NodStage(p, f), 0);
  }

  lemma {:induction false} HihatKeepsInv(s: State, f: Frame, p: Pass)
    requires |s.cooldown| == 6 && IsUnit(f.draws) && ValidScale(s.scale) && Inv(s, f, p, 1)
    ensures Inv(s, f, HihatStage(p, f), 2)
  {
    HihatFollowsRule(p, f);
    InvAdvance(s, f, p, HihatStage(p, f), 1);
  }

  lemma {:induction false} SnareKeepsInv(s: State, f: Frame, p: Pass)
    requires |s.cooldown| == 6 && IsUnit(f.draws) && ValidScale(s.scale) && Inv(s, f, p, 2)
    ensures Inv(s, f, SnareStage(p, f), 3)
  {
    SnareFollowsRule(p, f);
    InvAdvance(s, f, p, SnareStage(p, f), 2);
  }

  lemma {:induction false} MelodyKeepsInv(s: State, f: Frame, p: Pass)
    requires |s.cooldown| == 6 && IsUnit(f.draws) && ValidScale(s.scale) && Inv(s, f, p, 3)
    ensures Inv(s, f, MelodyStage(p, f), 4)
  {
    MelodyFollowsRule(p, f);
    InvAdvance(s, f, p, MelodyStage(p, f), 3);
  }

  lemma {:induction false} BassKeepsInv(s: State, f: Frame, p: Pass)
    requires |s.cooldown| == 6 && IsUnit(f.draws) && ValidScale(s.scale) && Inv(s, f, p, 4)
    ensures Inv(s, f, BassStage(p, f), 5)
  {
    BassFollowsRule(p, f);
    InvAdvance(s, f, p, BassStage(p, f), 4);
  }

  lemma {:induction false} LeftHandKeepsInv(s: State, f: Frame, p: Pass)
    requires |s.cooldown| == 6 && IsUnit(f.draws) && ValidScale(s.scale) && Inv(s, f, p, 5)
    ensures Inv(s, f, LeftHandStage(p, f), 6)
  {
    LeftHandFollowsRule(p, f);
    InvAdvance(s, f, p, LeftHandStage(p, f), 5);
  }

  lemma {:induction false} BothHandsKeepsInv(s: State, f: Frame, p: Pass)
    requires |s.cooldown| == 6 && IsUnit(f.draws) && ValidScale(s.scale) && Inv(s, f, p, 6)
    ensures Inv(s, f, BothHandsStage(p, f), 7)
  {
    BothHandsFollowsRule(p, f);
    InvAdvance(s, f, p, BothHandsStage(p, f), 6);
  }

  lemma {:induction false} PunchKeepsInv(s: State, f: Frame, p: Pass)
    requires |s.cooldown| == 6 && IsUnit(f.draws) && ValidScale(s.scale) && Inv(s, f, p, 7)
    ensures Inv(s, f, PunchStage(p, f), 8)
  {
    PunchFollowsRule(p, f);
    InvAdvance(s, f, p, PunchStage(p, f), 7);
  }

  /** The invariant holds after all the blocks of a frame. */
  lemma {:induction false} StagesInv(s: State, f: Frame)
    requires |s.cooldown| == 6 && IsUnit(f.draws) && ValidScale(s.scale)
    ensures Inv(s, f, Stages(s, f), 8)
  {
    var p0 := Start(s);
    var p1 := NodStage(p0, f);
    NodKeepsInv(s, f, p0);
    var p2 := HihatStage(p1, f);
    HihatKeepsInv(s, f, p1);
    var p3 := SnareStage(p2, f);
    SnareKeepsInv(s, f, p2);
    var p4 := MelodyStage(p3, f);
    MelodyKeepsInv(s, f, p3);
    var p5 := BassStage(p4, f);
    BassKeepsInv(s, f, p4);
    var p6 := LeftHandStage(p5, f);
    LeftHandKeepsInv(s, f, p5);
    var p7 := BothHandsStage(p6, f);
    BothHandsKeepsInv(s, f, p6);
    PunchKeepsInv(s, f, p7);
  }

  /** At most one gesture is the first ready one. */
  lemma {:induction false} FirstUnique(s: State, f: Frame, g: Gesture, h: Gesture)
    requires |s.cooldown| == 6 && First(s, f, g) && First(s, f, h)
    ensures g == h
  {
    assert GestureAt(Rank(g)) == g && GestureAt(Rank(h)) == h;
  }

  /** Once every stage has run, the gesture fired is the first ready one, and
      none fired exactly when none was ready. */
  lemma {:induction false} FiredIsFirst(s: State, f: Frame, p: Pass)
    requires |s.cooldown| == 6 && IsUnit(f.draws) && ValidScale(s.scale) && Progress(s, f, p, 8)
    ensures forall g :: g in p.fired <==> First(s, f, g)
    ensures p.fired == [] <==> forall g :: !Ready(s, f, g)
  {
    forall g | First(s, f, g) ensures g in p.fired {
      assert Rank(g) < 8 && Ready(s, f, g);
      FirstUnique(s, f, g, p.fired[0]);
    }
    if p.fired != [] {
      var h := p.fired[0];
      assert h in p.fired && First(s, f, h);
    }
  }

  /** Once every stage has run, each latch follows its fire-or-release rule,
      also after the pose is stored. */
  lemma {:induction false} LatchesAfter(s: State, f: Frame, p: Pass)
    requires LatchRule(s, f, p, 8)
    ensures forall g :: HasLatch(g) ==>
              Latched(p.s.(lastPose := Some(f.pose)), g) == (g in p.fired || (Latched(s, g) && !Release(s.lastPose, f.pose, g)))
  {
    forall g | HasLatch(g)
      ensures Latched(p.s.(lastPose := Some(f.pose)), g) == (g in p.fired || (Latched(s, g) && !Release(s.lastPose, f.pose, g)))
    {
      assert Latched(p.s.(lastPose := Some(f.pose)), g) == Latched(p.s, g);
    }
  }

  /** A processed frame; draws are read from position 0.  What it fires,
      sounds and latches is stated by the lemmas below. */
  function Step(s: State, f: Frame): (r: Outcome)
    requires Valid(s) && IsUnit(f.draws)
    ensures Valid(r.state) && |r.fired| <= 1
    ensures r.state.lastPose == Some(f.pose)
  {
    var p := Stages(s, f);
    StagesInv(s, f);
    CooldownAfterValid(s, p.fired);
    Outcome(p.s.(lastPose := Some(f.pose)), p.fired, p.out)
  }

  /** The pass a frame starts from: the counters counted down, nothing played. */
  function Start(s: State): (p: Pass)
    requires |s.cooldown| == 6
    ensures p.s.cooldown == Decremented(s.cooldown) && !p.played && p.fired == [] && p.out == [] && p.k == 0
  {
    Pass(s.(cooldown := Decremented(s.cooldown)), false, [], [], 0)
  }

  /** Exactly the first ready gesture in the testing order fires, if any
      gesture is ready. */
  lemma {:induction false} StepFiresFirst(s: State, f: Frame)
    requires Valid(s) && IsUnit(f.draws)
    ensures forall g :: g in Step(s, f).fired <==> First(s, f, g)
    ensures Step(s, f).fired == [] <==> forall g :: !Ready(s, f, g)
  {
    StagesInv(s, f);
    FiredIsFirst(s, f, Stages(s, f));
  }

  /** A frame that fires nothing only counts the counters down. */
  lemma {:induction false} StepQuiet(s: State, f: Frame)
    requires Valid(s) && IsUnit(f.draws) && Step(s, f).fired == []
    ensures var r := Step(s, f);
            r.out == [] && r.state.cooldown == Decremented(s.cooldown) && r.state.scale == s.scale &&
            r.state.lastMelodyNotes == s.lastMelodyNotes && r.state.lastMelodyTime == s.lastMelodyTime
  {
    var p := Stages(s, f);
    StagesInv(s, f);
  }

  /** A frame that fires a gesture issues that gesture's sounds, computed from
      the key, the phrase and the pose before the frame and the first draw,
      resets its counter and, for the melody, remembers the new key, the
      phrase and its time. */
  lemma {:induction false} StepSounds(s: State, f: Frame, g: Gesture)
    requires Valid(s) && IsUnit(f.draws) && g in Step(s, f).fired
    ensures FiredFrom(s, f, g, Step(s, f).state, Step(s, f).out)
  {
    var p := Stages(s, f);
    StagesInv(s, f);
    assert FiredFrom(s, f, g, p.s, p.out);
  }

  /** Each latch is set after a frame exactly when its gesture fired, or it
      was set and the frame did not release it. */
  lemma {:induction false} StepLatches(s: State, f: Frame)
    requires Valid(s) && IsUnit(f.draws)
    ensures forall g :: HasLatch(g) ==>
              Latched(Step(s, f).state, g) == (g in Step(s, f).fired || (Latched(s, g) && !Release(s.lastPose, f.pose, g)))
  {
    StagesInv(s, f);
    LatchesAfter(s, f, Stages(s, f));
  }

  /** Any gesture other than the melody leaves the melody's key, phrase and
      time alone. */
  lemma {:induction false} StepKeepsMelody(s: State, f: Frame)
    requires Valid(s) && IsUnit(f.draws) && HeadMove !in Step(s, f).fired
    ensures var r := Step(s, f);
            r.state.scale == s.scale && r.state.lastMelodyNotes == s.lastMelodyNotes && r.state.lastMelodyTime == s.lastMelodyTime
  {
    var p := Stages(s, f);
    StagesInv(s, f);
    if p.fired != [] {
      assert FiredFrom(s, f, p.fired[0], p.s, p.out);
    }
  }

  /** The counters after a frame: counted down, and the fired gesture's reset. */
  lemma {:induction false} StepCooldown(s: State, f: Frame)
    requires Valid(s) && IsUnit(f.draws)
    ensures Step(s, f).state.cooldown == CooldownAfter(s.cooldown, Step(s, f).fired)
  {
    var p := Stages(s, f);
    StagesInv(s, f);
  }

  /** A frame that plays the melody stamps it with the frame's time. */
  lemma {:induction false} StepMelodyTime(s: State, f: Frame)
    requires Valid(s) && IsUnit(f.draws) && HeadMove in Step(s, f).fired
    ensures Step(s, f).state.lastMelodyTime == Now(f)
  {
    StepSounds(s, f, HeadMove);
  }
}

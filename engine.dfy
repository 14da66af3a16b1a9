/** The engine as the component keeps it: `poseStateRef` and `audioStateRef`
    become the fields of one session object, and the frame handler, the key
    update and the phrase generator become methods that update those fields
    in place (AudioEngine.tsx:61-100, 555-826, 872-910, 913-1115).  Each
    method is proved to produce exactly what the functions of the other
    modules specify, so every property proved there holds of the session. */
module Engine {
  import opened Options
  import opened Randomness
  import opened Keypoints
  import opened Motion
  import opened Scales
  import opened Phrase
  import opened Sound
  import opened Rhythm
  import opened Gestures

  /** The frame handler's locals while the gesture tests run:
      `soundPlayedThisFrame`, the gestures that fired, the sounds started
      and the next unread draw of the frame's `Math.random()` stream. */
  datatype Tally = Tally(played: bool, fired: seq<Gesture>, out: seq<Trigger>, k: nat)

  class Session {
    var nodDetected: bool
    var rightHandUp: bool
    var leftHandUp: bool
    var bothHandsUp: bool
    var punchDetected: bool
    /** `audioStateRef`: the kick, snare, hihat, bass, melody and fx cooldowns. */
    const cooldown: array<int>
    var currentScale: Root
    var scaleType: ScaleType
    var currentOctave: int
    var melodyPhase: int
    var lastMelodyNotes: seq<Note>
    var lastMelodyTime: real
    var lastPose: Option<Pose>

    /** The melody's key as the four fields hold it. */
    function Key(): ScaleState
      reads this
    {
      ScaleState(currentScale, scaleType, currentOctave, melodyPhase)
    }

    /** The session as a value. */
    function Snapshot(): State
      reads this, cooldown
    {
      State(nodDetected, rightHandUp, leftHandUp, bothHandsUp, punchDetected, cooldown[..],
            Key(), lastMelodyNotes, lastMelodyTime, lastPose)
    }

    /** Everything but the key. */
    function Unkeyed(): (bool, bool, bool, bool, bool, seq<Note>, real, Option<Pose>)
      reads this
    {
      (nodDetected, rightHandUp, leftHandUp, bothHandsUp, punchDetected, lastMelodyNotes, lastMelodyTime, lastPose)
    }

    ghost predicate Valid()
      reads this, cooldown
    {
      cooldown.Length == 6 && Gestures.Valid(Snapshot())
    }

    /** The refs' initial values: every latch clear, every cooldown 0,
        C major in octave 4 at phase 0, no phrase and no pose yet. */
    constructor()
      ensures Valid() && Snapshot() == Initial && fresh(cooldown)
    {
      nodDetected := false;
      rightHandUp := false;
      leftHandUp := false;
      bothHandsUp := false;
      punchDetected := false;
      cooldown := new int[6](_ => 0);
      currentScale := C;
      scaleType := Major;
      currentOctave := 4;
      melodyPhase := 0;
      lastMelodyNotes := [];
      lastMelodyTime := 0.0;
      lastPose := None;
      new;
      assert cooldown[..] == [0, 0, 0, 0, 0, 0];
      InitialValid();
    }

    /** `updateMelodyScale`: with probability intensity * 0.4 move the root
        one step in the direction of the movement, change the scale type,
        perhaps shift the octave and advance the phase. */
    method UpdateMelodyScale(m: Motion, draws: Stream, k: nat) returns (next: nat)
      requires IsUnit(draws) && ValidMotion(m)
      modifies this
      ensures (Key(), next) == Evolve(old(Key()), m, draws, k)
      ensures Unkeyed() == old(Unkeyed())
    {
      next := k + 1;
      if EvolveDraw(draws(k), m.d2) {
        var newScaleIndex := (RootIndex(currentScale) + m.direction + |Roots|) % |Roots|;
        currentScale := Roots[newScaleIndex];
        if IntensityExceeds(m.d2, 0.6) {
          scaleType := IntenseScales[FloorIndex(draws(next), |IntenseScales|)];
        } else if draws(next) < 0.4 {
          scaleType := ScaleTypes[(TypeIndex(scaleType) + 1) % |ScaleTypes|];
        }
        next := next + 1;
        if IntensityExceeds(m.d2, 0.5) {
          if draws(next) < 0.4 {
            currentOctave := ClampInt(currentOctave + m.vertical, 2, 6);
          }
          next := next + 1;
        }
        melodyPhase := (melodyPhase + 1) % 8;
      }
    }

    /** `generateMelodyPhrase`: compose the phrase in the current key and
        remember it as the last phrase. */
    method GenerateMelodyPhrase(m: Motion, draws: Stream, k: nat) returns (melodyPattern: seq<Note>, next: nat)
      requires IsUnit(draws) && ValidScale(Key())
      modifies this
      ensures (melodyPattern, next) == PhraseOf(old(Key()), old(lastMelodyNotes), m, draws, k)
      ensures Snapshot() == old(Snapshot()).(lastMelodyNotes := melodyPattern)
    {
      melodyPattern, next := ComposePhrase(Key(), lastMelodyNotes, m, draws, k);
      lastMelodyNotes := melodyPattern;
    }

    /** The melody's response to a head movement: evolve the key, compose
        a phrase, play it and record the time. */
    method PlayMelody(m: Motion, now: real, wave: (nat, nat) -> real, draws: Stream, k: nat)
        returns (triggers: seq<Trigger>, next: nat)
      requires IsUnit(draws) && ValidMotion(m) && ValidScale(Key())
      modifies this
      ensures var take := Perform(old(Key()), old(lastMelodyNotes), m, now, wave, draws, k);
              && Snapshot() == old(Snapshot()).(scale := take.scale, lastMelodyNotes := take.phrase, lastMelodyTime := now)
              && triggers == take.triggers && next == take.next
    {
      next := UpdateMelodyScale(m, draws, k);
      var melodyPhrase;
      melodyPhrase, next := GenerateMelodyPhrase(m, draws, next);
      triggers, next := PlayMelodyPhrase(melodyPhrase, now, wave, draws, next);
      lastMelodyTime := now;
    }

    /** The session and the frame's locals together are the pass `p`. */
    ghost predicate Holds(p: Pass, t: Tally)
      reads this, cooldown
    {
      cooldown.Length == 6 && p == Pass(Snapshot(), t.played, t.fired, t.out, t.k)
    }

    /** The nod test: the nose moving down more than 12 px plays the kick;
        moving up clears the latch. */
    method DetectNod(f: Frame, t: Tally, ghost p: Pass) returns (u: Tally)
      requires IsUnit(f.draws) && ValidScale(Key()) && Holds(p, t)
      modifies this, cooldown
      ensures Holds(NodStage(p, f), u)
    {
      u := t;
      var delta := NoseDelta(lastPose, f.pose);
      if delta.Some? {
        var dy := delta.value.1;
        if dy > 12.0 && !nodDetected && cooldown[Slot(Kick)] <= 0 && !t.played {
          u := Tally(true, t.fired + [Nod], t.out + [KickHit(f)], t.k);
          nodDetected := true;
          cooldown[Slot(Kick)] := 10;
        } else if dy < 0.0 {
          nodDetected := false;
        }
      }
    }

    /** The right-wrist flick: a move of more than 10 px plays the hihat. */
    method DetectRightFlick(f: Frame, t: Tally, ghost p: Pass) returns (u: Tally)
      requires IsUnit(f.draws) && ValidScale(Key()) && Holds(p, t)
      modifies this, cooldown
      ensures Holds(HihatStage(p, f), u)
    {
      u := t;
      var rightWrist := Current(f.pose, RightWrist);
      var rightWristPrev := Previous(lastPose, RightWrist);
      if rightWrist.Some? && rightWristPrev.Some? && Confident(rightWrist.value) {
        var d2 := Dist2(rightWrist.value, rightWristPrev.value);
        if d2 > 100.0 && cooldown[Slot(Hihat)] <= 0 && !t.played {
          u := Tally(true, t.fired + [RightFlick], t.out + [HihatHit(f, d2)], t.k);
          cooldown[Slot(Hihat)] := 5;
        }
      }
    }

    /** The left-wrist flick: a move of more than 12 px plays the snare. */
    method DetectLeftFlick(f: Frame, t: Tally, ghost p: Pass) returns (u: Tally)
      requires IsUnit(f.draws) && ValidScale(Key()) && Holds(p, t)
      modifies this, cooldown
      ensures Holds(SnareStage(p, f), u)
    {
      u := t;
      var leftWrist := Current(f.pose, LeftWrist);
      var leftWristPrev := Previous(lastPose, LeftWrist);
      if leftWrist.Some? && leftWristPrev.Some? && Confident(leftWrist.value) {
        var d2 := Dist2(leftWrist.value, leftWristPrev.value);
        if d2 > 144.0 && cooldown[Slot(Snare)] <= 0 && !t.played {
          u := Tally(true, t.fired + [LeftFlick], t.out + [SnareHit(f, d2)], t.k);
          cooldown[Slot(Snare)] := 8;
        }
      }
    }

    /** The melody once the head test has passed: play it, stamp the
        melody counter and record what fired. */
    method FireMelody(f: Frame, m: Motion, t: Tally, ghost p: Pass) returns (u: Tally)
      requires IsUnit(f.draws) && ValidScale(Key()) && Holds(p, t)
      requires HeadMotion(p.s.lastPose, f.pose) == Some(m) && m.d2 > 25.0 && MelodyRested(p.s, Now(f))
      requires p.s.cooldown[Slot(Melody)] <= 0 && !p.played
      modifies this, cooldown
      ensures Holds(MelodyStage(p, f), u)
    {
      var triggers, next := PlayMelody(m, Now(f), f.analog.wave, f.draws, t.k);
      u := Tally(true, t.fired + [HeadMove], t.out + triggers, next);
      cooldown[Slot(Melody)] := 12;
    }

    /** The head movement: a nose move of more than 5 px, with no phrase
        in the last 1.5 s, evolves the key, composes a phrase and plays it. */
    method DetectHeadMove(f: Frame, t: Tally, ghost p: Pass) returns (u: Tally)
      requires IsUnit(f.draws) && ValidScale(Key()) && Holds(p, t)
      modifies this, cooldown
      ensures Holds(MelodyStage(p, f), u)
    {
      u := t;
      var movement := HeadMotion(lastPose, f.pose);
      var now := Now(f);
      if movement.Some? && movement.value.d2 > 25.0 && (lastMelodyTime == 0.0 || now - lastMelodyTime > 1.5) &&
         cooldown[Slot(Melody)] <= 0 && !t.played {
        u := FireMelody(f, movement.value, t, p);
      }
    }

    /** The right hand raised above the shoulder plays a random bass note;
        the hand below the shoulder clears the latch. */
    method DetectRightHandUp(f: Frame, t: Tally, ghost p: Pass) returns (u: Tally)
      requires IsUnit(f.draws) && ValidScale(Key()) && Holds(p, t)
      modifies this, cooldown
      ensures Holds(BassStage(p, f), u)
    {
      u := t;
      if RightArmSeen(f.pose) {
        var wristY, shoulderY := Y(f.pose, RightWrist), Y(f.pose, RightShoulder);
        if wristY < shoulderY && !rightHandUp && cooldown[Slot(Bass)] <= 0 && !t.played {
          u := Tally(true, t.fired + [RightHandUp], t.out + [BassHit(f, t.k)], t.k + 1);
          rightHandUp := true;
          cooldown[Slot(Bass)] := 15;
        } else if wristY > shoulderY {
          rightHandUp := false;
        }
      }
    }

    /** The left hand raised above the shoulder plays the fx synth. */
    method DetectLeftHandUp(f: Frame, t: Tally, ghost p: Pass) returns (u: Tally)
      requires IsUnit(f.draws) && ValidScale(Key()) && Holds(p, t)
      modifies this, cooldown
      ensures Holds(LeftHandStage(p, f), u)
    {
      u := t;
      if LeftArmSeen(f.pose) {
        var wristY, shoulderY := Y(f.pose, LeftWrist), Y(f.pose, LeftShoulder);
        if wristY < shoulderY && !leftHandUp && cooldown[Slot(Fx)] <= 0 && !t.played {
          u := Tally(true, t.fired + [LeftHandUp], t.out + [FxHit(f)], t.k);
          leftHandUp := true;
          cooldown[Slot(Fx)] := 15;
        } else if wristY > shoulderY {
          leftHandUp := false;
        }
      }
    }

    /** Both hands raised plays the kick-and-snare crash. */
    method DetectBothHandsUp(f: Frame, t: Tally, ghost p: Pass) returns (u: Tally)
      requires IsUnit(f.draws) && ValidScale(Key()) && Holds(p, t)
      modifies this, cooldown
      ensures Holds(BothHandsStage(p, f), u)
    {
      u := t;
      if BothArmsSeen(f.pose) {
        var leftWristY, leftShoulderY := Y(f.pose, LeftWrist), Y(f.pose, LeftShoulder);
        var rightWristY, rightShoulderY := Y(f.pose, RightWrist), Y(f.pose, RightShoulder);
        var leftUp := leftWristY < leftShoulderY;
        var rightUp := rightWristY < rightShoulderY;
        if leftUp && rightUp && !bothHandsUp && cooldown[Slot(Fx)] <= 0 && !t.played {
          u := Tally(true, t.fired + [BothHandsUp], t.out + Crash(f), t.k);
          bothHandsUp := true;
          cooldown[Slot(Fx)] := 15;
        } else if leftWristY > leftShoulderY || rightWristY > rightShoulderY {
          bothHandsUp := false;
        }
      }
    }

    /** A fast wrist move is a punch and plays the crash. */
    method DetectPunch(f: Frame, t: Tally, ghost p: Pass) returns (u: Tally)
      requires IsUnit(f.draws) && ValidScale(Key()) && Holds(p, t)
      modifies this, cooldown
      ensures Holds(PunchStage(p, f), u)
    {
      u := t;
      var isPunching := DetectSimplePunch(f.pose, lastPose);
      if isPunching && !punchDetected && cooldown[Slot(Fx)] <= 0 && !t.played {
        u := Tally(true, t.fired + [Punch], t.out + Crash(f), t.k);
        punchDetected := true;
        cooldown[Slot(Fx)] := 15;
      } else if !isPunching {
        punchDetected := false;
      }
    }

    /** Every cooldown counted down by one, stopping at zero. */
    method CountDown()
      requires cooldown.Length == 6
      modifies cooldown
      ensures cooldown[..] == Decremented(old(cooldown[..]))
    {
      var i := 0;
      while i < cooldown.Length
        invariant 0 <= i <= cooldown.Length
        invariant forall j :: 0 <= j < i ==> cooldown[j] == Decremented(old(cooldown[..]))[j]
        invariant forall j :: i <= j < 6 ==> cooldown[j] == old(cooldown[j])
      {
        if cooldown[i] > 0 {
          cooldown[i] := cooldown[i] - 1;
        }
        i := i + 1;
      }
    }

    /** The pose effect: count every cooldown down, run the eight gesture
        tests in order and remember the pose.  Returns the gestures that
        fired and the sounds started; the session and both results are
        exactly one `Step` of the engine. */
    method ProcessFrame(f: Frame) returns (fired: seq<Gesture>, triggers: seq<Trigger>)
      requires Valid() && IsUnit(f.draws)
      modifies this, cooldown
      ensures Valid()
      ensures Outcome(Snapshot(), fired, triggers) == Step(old(Snapshot()), f)
    {
      ghost var s := Snapshot();
      CountDown();
      var t := Tally(false, [], [], 0);
      ghost var p := Start(s);
      assert Holds(p, t);
      t := DetectNod(f, t, p);
      p := NodStage(p, f);
      t := DetectRightFlick(f, t, p);
      p := HihatStage(p, f);
      t := DetectLeftFlick(f, t, p);
      p := SnareStage(p, f);
      t := DetectHeadMove(f, t, p);
      p := MelodyStage(p, f);
      t := DetectRightHandUp(f, t, p);
      p := BassStage(p, f);
      t := DetectLeftHandUp(f, t, p);
      p := LeftHandStage(p, f);
      t := DetectBothHandsUp(f, t, p);
      p := BothHandsStage(p, f);
      t := DetectPunch(f, t, p);
      p := PunchStage(p, f);
      lastPose := Some(f.pose);
      fired, triggers := t.fired, t.out;
      assert Outcome(Snapshot(), fired, triggers) == Step(s, f);
    }
  }
}

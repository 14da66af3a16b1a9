/** What the per-frame rule implies across the frames of a session
    (AudioEngine.tsx:555-826): cooldowns, edge latches, the melody's rest. */
module RunProperties {
  import opened Options
  import opened Randomness
  import opened Keypoints
  import opened Sound
  import opened Scales
  import opened Gestures
  import opened Runs

  /** One frame: a counter drops by at most one. */
  lemma {:induction false} StepCountsDown(s: State, f: Frame, c: Category)
    requires Valid(s) && IsUnit(f.draws)
    ensures Step(s, f).state.cooldown[Slot(c)] >= s.cooldown[Slot(c)] - 1
  {
    var r := Step(s, f);
    StepCooldown(s, f);
    if |r.fired| > 0 && Slot(CategoryOf(r.fired[0])) == Slot(c) {
      assert CategoryOf(r.fired[0]) == c;
    }
  }

  /** A category that sounds had its counter at most 1 (it is counted down
      before the test), and then holds its full reset value. */
  lemma {:induction false} SoundedResets(s: State, f: Frame, c: Category)
    requires Valid(s) && IsUnit(f.draws) && Sounded(Step(s, f), c)
    ensures s.cooldown[Slot(c)] <= 1 && Step(s, f).state.cooldown[Slot(c)] == Reset(c)
  {
    var r := Step(s, f);
    var g := r.fired[0];
    StepCooldown(s, f);
    StepFiresFirst(s, f);
    assert r.fired == [g];
    assert g in r.fired;
    assert First(s, f, g);
    var d := s.(cooldown := Decremented(s.cooldown));
    assert Open(d, f, g);
    assert Decremented(s.cooldown)[Slot(c)] <= 0;
  }

  /** Across frame `i` of a run a counter drops by at most one. */
  lemma {:induction false} CountsDownInRun(s: State, frames: seq<Frame>, c: Category, i: nat)
    requires Valid(s) && Drawable(frames) && i < |frames|
    ensures Before(s, frames, i + 1).cooldown[Slot(c)] >= Before(s, frames, i).cooldown[Slot(c)] - 1
  {
    RunStep(s, frames, i);
    StepCountsDown(Before(s, frames, i), frames[i], c);
  }

  /** A category that sounds in frame `i` holds its full reset value after
      it. */
  lemma {:induction false} ResetsInRun(s: State, frames: seq<Frame>, c: Category, i: nat)
    requires Valid(s) && Drawable(frames) && i < |frames|
    requires Sounded(Run(s, frames)[i], c)
    ensures Before(s, frames, i + 1).cooldown[Slot(c)] == Reset(c)
  {
    RunStep(s, frames, i);
    SoundedResets(Before(s, frames, i), frames[i], c);
  }

  /** Counter value `k + 1` is at most one below value `k`. */
  predicate DropsAtMostOne(cds: seq<int>, k: nat)
    requires k + 1 < |cds|
  {
    cds[k + 1] >= cds[k] - 1
  }

  /** Values that drop by at most one a step lose at most `j - i` from
      position `i` to position `j`. */
  lemma {:induction false} SlowDescent(cds: seq<int>, i: nat, j: nat)
    requires i <= j < |cds|
    requires forall k :: i <= k < j ==> DropsAtMostOne(cds, k)
    ensures cds[j] >= cds[i] - (j - i)
    decreases j
  {
    if i < j {
      SlowDescent(cds, i, j - 1);
      assert DropsAtMostOne(cds, j - 1);
    }
  }

  /** The values a category's counter takes before each frame of a run. */
  ghost function Counters(s: State, frames: seq<Frame>, c: Category): (cds: seq<int>)
    requires Valid(s) && Drawable(frames)
    ensures |cds| == |frames| + 1
    ensures forall k :: 0 <= k <= |frames| ==> cds[k] == Before(s, frames, k).cooldown[Slot(c)]
  {
    seq(|frames| + 1, k requires 0 <= k <= |frames| => Before(s, frames, k).cooldown[Slot(c)])
  }

  /** Within a run a counter drops by at most one a frame. */
  lemma {:induction false} CountersDrop(s: State, frames: seq<Frame>, c: Category, k: nat)
    requires Valid(s) && Drawable(frames) && k < |frames|
    ensures DropsAtMostOne(Counters(s, frames, c), k)
  {
    var cds := Counters(s, frames, c);
    assert cds[k] == Before(s, frames, k).cooldown[Slot(c)];
    assert cds[k + 1] == Before(s, frames, k + 1).cooldown[Slot(c)];
    CountsDownInRun(s, frames, c, k);
  }

  /** After category `c` sounds in frame `i`, its counter before frame `j`
      is at least its reset value less the frames since. */
  lemma {:induction false} CooldownBound(s: State, frames: seq<Frame>, c: Category, i: nat, j: nat)
    requires Valid(s) && Drawable(frames) && i < j <= |frames|
    requires Sounded(Run(s, frames)[i], c)
    ensures Before(s, frames, j).cooldown[Slot(c)] >= Reset(c) - (j - 1 - i)
  {
    var cds := Counters(s, frames, c);
    forall k | i + 1 <= k < j ensures DropsAtMostOne(cds, k) {
      CountersDrop(s, frames, c, k);
    }
    ResetsInRun(s, frames, c, i);
    SlowDescent(cds, i + 1, j);
  }

  /** Once category `c` has sounded in frame `i`, it cannot sound again in
      the next `Reset(c) - 1` frames, whatever is detected in them. */
  lemma {:induction false} CooldownBlocks(s: State, frames: seq<Frame>, c: Category, i: nat, j: nat)
    requires Valid(s) && Drawable(frames) && i < j < |frames| && j < i + Reset(c)
    requires Sounded(Run(s, frames)[i], c)
    ensures !Sounded(Run(s, frames)[j], c)
  {
    CooldownBound(s, frames, c, i, j);
    RunStep(s, frames, j);
    if Sounded(Run(s, frames)[j], c) {
      SoundedResets(Before(s, frames, j), frames[j], c);
    }
  }

  /** An edge latch: once gesture `g` has fired in frame `i`, it stays
      latched, and does not fire again, until a frame meets its release
      condition.  A run of nodding frames with the nose never moving up, or
      of raised hands, therefore sounds once. */
  lemma {:induction false} LatchedUntilRelease(s: State, frames: seq<Frame>, g: Gesture, i: nat, j: nat)
    requires Valid(s) && Drawable(frames) && HasLatch(g) && i < j < |frames|
    requires g in Run(s, frames)[i].fired
    requires forall k :: i < k <= j ==> !Release(Some(frames[k - 1].pose), frames[k].pose, g)
    ensures g !in Run(s, frames)[j].fired && Latched(Run(s, frames)[j].state, g)
    decreases j
  {
    var b := Before(s, frames, j);
    RunStep(s, frames, j);
    LastPoseBefore(s, frames, j);
    if j - 1 > i {
      LatchedUntilRelease(s, frames, g, i, j - 1);
    } else {
      var a := Before(s, frames, i);
      RunStep(s, frames, i);
      StepLatches(a, frames[i]);
      assert b == Step(a, frames[i]).state;
    }
    assert Latched(b, g);
    StepLatches(b, frames[j]);
    assert Latched(b.(cooldown := Decremented(b.cooldown)), g);
    assert !Ready(b, frames[j], g);
    StepFiresFirst(b, frames[j]);
  }

  /** A frame in which the gesture's keypoints are not all confidently seen
      neither fires it nor touches its latch (the punch excepted, below). */
  lemma {:induction false} UnseenKeepsLatch(s: State, f: Frame, g: Gesture)
    requires Valid(s) && IsUnit(f.draws)
    requires || (g == Nod && !Seen(f.pose, Nose))
             || (g == RightHandUp && !RightArmSeen(f.pose))
             || (g == LeftHandUp && !LeftArmSeen(f.pose))
             || (g == BothHandsUp && !BothArmsSeen(f.pose))
    ensures g !in Step(s, f).fired
    ensures Latched(Step(s, f).state, g) == Latched(s, g)
  {
    StepFiresFirst(s, f);
    StepLatches(s, f);
    assert !Ready(s, f, g);
  }

  /** Without a tracked nose there is neither a nod nor a melody. */
  lemma {:induction false} NoNoseNoHead(s: State, f: Frame)
    requires Valid(s) && IsUnit(f.draws) && !Seen(f.pose, Nose)
    ensures Nod !in Step(s, f).fired && HeadMove !in Step(s, f).fired
  {
    StepFiresFirst(s, f);
    assert !Ready(s, f, HeadMove);
    UnseenKeepsLatch(s, f, Nod);
  }

  /** The punch latch is cleared by any frame without a punch, including one
      in which neither wrist is seen. */
  lemma {:induction false} UnseenWristsClearPunch(s: State, f: Frame)
    requires Valid(s) && IsUnit(f.draws)
    requires Current(f.pose, RightWrist).None? && Current(f.pose, LeftWrist).None?
    ensures Punch !in Step(s, f).fired && !Latched(Step(s, f).state, Punch)
  {
    assert !DetectSimplePunch(f.pose, s.lastPose);
    StepFiresFirst(s, f);
    StepLatches(s, f);
    assert !Ready(s, f, Punch);
  }

  /** Between two phrases the melody time stays that of the first. */
  lemma {:induction false} MelodyTimeKept(s: State, frames: seq<Frame>, i: nat, j: nat)
    requires Valid(s) && Drawable(frames) && i < j <= |frames|
    requires HeadMove in Run(s, frames)[i].fired
    requires forall k :: i < k < j ==> HeadMove !in Run(s, frames)[k].fired
    ensures Before(s, frames, j).lastMelodyTime == Now(frames[i])
    decreases j
  {
    RunStep(s, frames, j - 1);
    var b := Before(s, frames, j - 1);
    var o := Step(b, frames[j - 1]);
    assert Before(s, frames, j) == o.state;
    if j - 1 > i {
      MelodyTimeKept(s, frames, i, j - 1);
      assert HeadMove !in o.fired;
      StepKeepsMelody(b, frames[j - 1]);
    } else {
      StepMelodyTime(b, frames[j - 1]);
    }
  }

  /** Two consecutive phrases start more than 1.5 s apart, unless the first
      was played at time 0, which the engine reads as "never played". */
  lemma {:induction false} MelodyRests(s: State, frames: seq<Frame>, i: nat, j: nat)
    requires Valid(s) && Drawable(frames) && i < j < |frames|
    requires HeadMove in Run(s, frames)[i].fired && HeadMove in Run(s, frames)[j].fired
    requires forall k :: i < k < j ==> HeadMove !in Run(s, frames)[k].fired
    requires Now(frames[i]) != 0.0
    ensures Now(frames[j]) - Now(frames[i]) > 1.5
  {
    MelodyTimeKept(s, frames, i, j);
    RunStep(s, frames, j);
    StepFiresFirst(Before(s, frames, j), frames[j]);
    assert Ready(Before(s, frames, j), frames[j], HeadMove);
  }

  // ---- a worked example ----

  /** A pose holding only the nose, confidently seen at (200, y). */
  function NoseAt(y: real): Pose
  {
    Pose([Keypoint(Nose, 200.0, y, Some(0.9))])
  }

  /** A frame at time `t` with every draw one half. */
  function Still(pose: Pose, t: real): Frame
  {
    Frame(pose, t, _ => 0.5, Analog(x => x, (i, n) => 0.0))
  }

  /** A fresh session's first frame has no previous pose: with only the nose
      in view nothing is detected, so nothing sounds. */
  lemma {:induction false} QuietStart(f: Frame)
    requires IsUnit(f.draws) && f.pose == NoseAt(100.0)
    ensures Valid(Initial) && Step(Initial, f).fired == [] && Step(Initial, f).out == []
    ensures !Step(Initial, f).state.nodDetected && Step(Initial, f).state.cooldown[Slot(Kick)] == 0
  {
    InitialValid();
    assert Find(f.pose.keypoints, RightWrist).None? && Find(f.pose.keypoints, LeftWrist).None?;
    assert Find(f.pose.keypoints, LeftShoulder).None? && Find(f.pose.keypoints, RightShoulder).None?;
    forall g ensures !Ready(Initial, f, g) {
    }
    StepFiresFirst(Initial, f);
    StepQuiet(Initial, f);
    StepLatches(Initial, f);
  }

  /** With the nose 15 pixels lower than in the stored pose, the kick counter
      run out and the nod latch clear, the nod fires and plays the kick at
      the frame's time; the head movement, also detected, loses because the
      nod is tested first. */
  lemma {:induction false} NodFires(s: State, f: Frame)
    requires Valid(s) && IsUnit(f.draws) && f.pose == NoseAt(115.0) && s.lastPose == Some(NoseAt(100.0))
    requires !s.nodDetected && s.cooldown[Slot(Kick)] <= 1
    ensures Step(s, f).fired == [Nod]
    ensures Step(s, f).out == [Trigger(KickVoice, Some(Note(Natural(C), 2)), N8, Now(f), 0.8)]
  {
    assert NoseDelta(s.lastPose, f.pose) == Some((0.0, 15.0));
    assert Ready(s, f, Nod);
    assert First(s, f, Nod);
    StepFiresFirst(s, f);
    var fired := Step(s, f).fired;
    assert Nod in fired;
    assert |fired| == 1 && fired[0] == Nod;
    assert fired == [Nod];
    StepSounds(s, f, Nod);
    assert Sounds(s.scale, s.lastMelodyNotes, s.lastPose, f, Nod, 0).triggers ==
           [Trigger(KickVoice, Some(Note(Natural(C), 2)), N8, Now(f), 0.8)];
  }

  /** From a fresh session the nose at y = 100 then y = 115: the first frame
      sounds nothing and the second is a nod, playing the kick. */
  lemma {:induction false} NodExample()
    ensures Valid(Initial)
    ensures var frames := [Still(NoseAt(100.0), 1.0), Still(NoseAt(115.0), 1.1)];
            var r := Run(Initial, frames);
            r[0].fired == [] && r[0].out == [] &&
            r[1].fired == [Nod] && r[1].out == [Trigger(KickVoice, Some(Note(Natural(C), 2)), N8, 1.15, 0.8)]
  {
    InitialValid();
    var frames := [Still(NoseAt(100.0), 1.0), Still(NoseAt(115.0), 1.1)];
    RunStep(Initial, frames, 0);
    RunStep(Initial, frames, 1);
    QuietStart(frames[0]);
    NodFires(Before(Initial, frames, 1), frames[1]);
  }
}

/** A session as a run of frames: the outcomes of `Gestures.Step` applied
    frame after frame (AudioEngine.tsx:555-826). */
module Runs {
  import opened Options
  import opened Randomness
  import opened Keypoints
  import opened Sound
  import opened Scales
  import opened Gestures

  /** Every frame's draws lie in [0, 1). */
  ghost predicate Drawable(frames: seq<Frame>)
  {
    forall i :: 0 <= i < |frames| ==> IsUnit(frames[i].draws)
  }

  /** The outcomes of processing `frames` in order from state `s`. */
  function Run(s: State, frames: seq<Frame>): (r: seq<Outcome>)
    requires Valid(s) && Drawable(frames)
    ensures |r| == |frames|
    ensures forall i :: 0 <= i < |r| ==> Valid(r[i].state)
    decreases |frames|
  {
    if frames == [] then []
    else
      var o := Step(s, frames[0]);
      DrawableTail(frames);
      var rest := Run(o.state, frames[1..]);
      AllValid(o, rest);
      [o] + rest
  }

  /** Outcomes whose states are all valid stay so with a valid one in front. */
  lemma AllValid(o: Outcome, rest: seq<Outcome>)
    requires Valid(o.state) && forall i :: 0 <= i < |rest| ==> Valid(rest[i].state)
    ensures forall i :: 0 <= i < |[o] + rest| ==> Valid(([o] + rest)[i].state)
  {
  }

  lemma {:induction false} DrawableTail(frames: seq<Frame>)
    requires Drawable(frames) && frames != []
    ensures Drawable(frames[1..])
  {
    forall i | 0 <= i < |frames[1..]| ensures IsUnit(frames[1..][i].draws) {
      assert frames[1..][i] == frames[i + 1];
    }
  }

  /** The state before frame `i` of a run. */
  function Before(s: State, frames: seq<Frame>, i: nat): (b: State)
    requires Valid(s) && Drawable(frames) && i <= |frames|
    ensures Valid(b)
  {
    if i == 0 then s else Run(s, frames)[i - 1].state
  }

  /** Frame `i` of a run is one step from the state before it. */
  lemma {:induction false} RunStep(s: State, frames: seq<Frame>, i: nat)
    requires Valid(s) && Drawable(frames) && i < |frames|
    ensures Run(s, frames)[i] == Step(Before(s, frames, i), frames[i])
    decreases i
  {
    if i > 0 {
      var o := Step(s, frames[0]);
      var rest := frames[1..];
      assert Run(s, frames) == [o] + Run(o.state, rest);
      assert frames[i] == rest[i - 1];
      RunStep(o.state, rest, i - 1);
      assert Run(s, frames)[i] == Run(o.state, rest)[i - 1];
      if i > 1 {
        assert Run(s, frames)[i - 1] == Run(o.state, rest)[i - 2];
      }
      assert Before(s, frames, i) == Before(o.state, rest, i - 1);
    } else {
      assert Run(s, frames)[0] == Step(s, frames[0]);
    }
  }

  /** The state before frame `i` remembers the pose before it: the stored
      pose before the first frame, the previous frame's pose after. */
  lemma {:induction false} LastPoseBefore(s: State, frames: seq<Frame>, i: nat)
    requires Valid(s) && Drawable(frames) && 0 < i <= |frames|
    ensures Before(s, frames, i).lastPose == Some(frames[i - 1].pose)
  {
    RunStep(s, frames, i - 1);
  }

  /** Category `c` sounded in outcome `o`. */
  predicate Sounded(o: Outcome, c: Category)
  {
    |o.fired| > 0 && CategoryOf(o.fired[0]) == c
  }
}

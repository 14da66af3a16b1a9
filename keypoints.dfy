/** The pose estimator's output as the engine reads it: named keypoints in the
    pixel space of the camera image, each with an optional confidence score
    (AudioEngine.tsx, `getKeypoint` and `detectSimplePunch`). */
module Keypoints {
  import opened Options

  /** A keypoint's `name`: the seven the engine reads, and any other name. */
  datatype Part = Nose | LeftWrist | RightWrist | LeftElbow | RightElbow | LeftShoulder | RightShoulder | Other(text: string)

  datatype Keypoint = Keypoint(name: Part, x: real, y: real, score: Option<real>)

  /** One detection tick: the keypoints in the estimator's order. */
  datatype Pose = Pose(keypoints: seq<Keypoint>)

  /** `keypoints.find(kp => kp.name === name)`: the first keypoint so named. */
  function Find(keypoints: seq<Keypoint>, name: Part): (r: Option<Keypoint>)
    ensures r.None? <==> forall i :: 0 <= i < |keypoints| ==> keypoints[i].name != name
    ensures r.Some? ==> exists i :: 0 <= i < |keypoints| && keypoints[i] == r.value && r.value.name == name &&
                          forall j :: 0 <= j < i ==> keypoints[j].name != name
  {
    if keypoints == [] then None
    else if keypoints[0].name == name then Some(keypoints[0])
    else
      var r := Find(keypoints[1..], name);
      assert r.Some? ==> exists i :: 1 <= i < |keypoints| && keypoints[i] == r.value && r.value.name == name &&
                            forall j :: 0 <= j < i ==> keypoints[j].name != name by {
        if r.Some? {
          var i :| 0 <= i < |keypoints[1..]| && keypoints[1..][i] == r.value && r.value.name == name &&
                   forall j :: 0 <= j < i ==> keypoints[1..][j].name != name;
          assert keypoints[i + 1] == r.value;
          forall j | 0 <= j < i + 1 ensures keypoints[j].name != name {
            if j > 0 { assert keypoints[j] == keypoints[1..][j - 1]; }
          }
        }
      }
      r
  }

  /** `getKeypoint(name)` on the current frame. */
  function Current(pose: Pose, name: Part): (r: Option<Keypoint>)
    ensures r.Some? ==> r.value.name == name && r.value in pose.keypoints
  {
    Find(pose.keypoints, name)
  }

  /** `lastPose?.keypoints.find(...)`: nothing before the first frame. */
  function Previous(lastPose: Option<Pose>, name: Part): (r: Option<Keypoint>)
    ensures lastPose.None? ==> r.None?
  {
    if lastPose.None? then None else Find(lastPose.value.keypoints, name)
  }

  /** `kp.score && kp.score > 0.3`: an absent (or zero) score is not confident. */
  predicate Confident(kp: Keypoint)
    ensures kp.score.None? ==> !Confident(kp)
    ensures kp.score == Some(0.0) ==> !Confident(kp)
  {
    kp.score.Some? && kp.score.value > 0.3
  }

  /** Squared distance travelled between two sightings of a keypoint; the
      source's `Math.sqrt(dx*dx + dy*dy) > t` is `Dist2 > t*t`. */
  function Dist2(cur: Keypoint, prev: Keypoint): (d: real)
    ensures d >= 0.0
  {
    var dx := cur.x - prev.x;
    var dy := cur.y - prev.y;
    dx * dx + dy * dy
  }

  /** The wrist test shared by the hihat, the snare and the punch: the keypoint
      is seen in both frames, confident now, and moved farther than
      `sqrt(minDist2)` pixels. */
  predicate Flicked(cur: Pose, lastPose: Option<Pose>, name: Part, minDist2: real)
    ensures Flicked(cur, lastPose, name, minDist2) ==>
              lastPose.Some? && Current(cur, name).Some? && Confident(Current(cur, name).value)
  {
    var now := Current(cur, name);
    var before := Previous(lastPose, name);
    now.Some? && before.Some? && Confident(now.value) && Dist2(now.value, before.value) > minDist2
  }

  /** `detectSimplePunch`: either wrist moved more than 15 pixels. */
  function DetectSimplePunch(cur: Pose, lastPose: Option<Pose>): (punching: bool)
    ensures lastPose.None? ==> !punching
    ensures punching <==> Flicked(cur, lastPose, RightWrist, 225.0) || Flicked(cur, lastPose, LeftWrist, 225.0)
  {
    if lastPose.None? then false
    else
      var rightWrist := Current(cur, RightWrist);
      var leftWrist := Current(cur, LeftWrist);
      var prevRightWrist := Previous(lastPose, RightWrist);
      var prevLeftWrist := Previous(lastPose, LeftWrist);
      if rightWrist.Some? && prevRightWrist.Some? && Confident(rightWrist.value) &&
         Dist2(rightWrist.value, prevRightWrist.value) > 225.0 then true
      else if leftWrist.Some? && prevLeftWrist.Some? && Confident(leftWrist.value) &&
         Dist2(leftWrist.value, prevLeftWrist.value) > 225.0 then true
      else false
  }
}

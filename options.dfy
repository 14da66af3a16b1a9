/** The optional values of the source: a keypoint `find` that may come back
    `undefined`, a `lastPose` that is `null` before the first frame, a keypoint
    whose `score` is absent, a noise voice that is triggered without a note. */
module Options {
  datatype Option<+T> = None | Some(value: T)
}

/**
 * The shape of what the hand-landmark detector hands to the rest of the pipeline:
 * per detected hand, 21 ordered keypoints (x and y normalised to the frame, z a
 * relative depth) and a laterality label. The detector itself is not modelled.
 */
module Landmarks {

  /** Number of keypoints per hand; index 0 is the wrist, 4, 8, 12, 16, 20 the fingertips. */
  const NumLandmarks: nat := 21

  datatype Point = Point(x: real, y: real, z: real)

  /** The keypoints of one hand, always exactly 21 of them, in the detector's fixed order. */
  type HandLandmarks = s: seq<Point> | |s| == NumLandmarks
    witness seq(21, _ => Point(0.0, 0.0, 0.0))

  /** One entry of the detector's output: `(landmarks, handedness)`. */
  datatype Hand = Hand(landmarks: HandLandmarks, handedness: string)

  /** A planar `(x, y)` pair, as stored for the dashboard. */
  type XY = (real, real)
}

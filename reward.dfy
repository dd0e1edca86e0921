/**
 The per-step reward and termination rule of the drone environment wrapper.

 Everything here is pure: the simulator's answers (the new distance to the
 target, the detections seen by camera "0", the collision flag) are inputs,
 and the Python floats are treated as exact reals.
 */
module Reward {

  datatype Option<+T> = None | Some(value: T)

  /** Camera frame size in pixels, and the simulated duration of one step in seconds. */
  const CameraWidth: real := 320.0
  const CameraHeight: real := 240.0
  const TimeStep: real := 0.05

  /** Constant penalty paid by every step. */
  const StepPenalty: real := -0.1
  /** The episode succeeds once the target is detected closer than this. */
  const SuccessDistance: real := 3.5
  /** Losing the target farther than this costs FarLossPenalty, otherwise NearLossPenalty. */
  const FarDistance: real := 10.0
  const FarLossPenalty: real := -50.0
  const NearLossPenalty: real := -25.0
  const CollisionPenalty: real := 1.0
  /** The success bonus is this multiple of the detection reward (100 * 5). */
  const SuccessBonusScale: real := 500.0

  datatype Vec2 = Vec2(x: real, y: real)

  /** A detection's 2-D bounding box, in pixels. */
  datatype Box2D = Box2D(min: Vec2, max: Vec2)

  datatype Detection = Detection(box2D: Box2D)

  /** A box in normalised frame coordinates: centre x, centre y, width, height. */
  datatype Xywh = Xywh(x: real, y: real, w: real, h: real)

  /** What one step hands back, together with the shaping terms it accumulates.
      distanceReward and detectionReward are 0 when the target was not detected. */
  datatype Outcome = Outcome(
    reward: real,
    distanceReward: real,
    detectionReward: real,
    finalReward: real,
    done: bool,
    successful: bool,
    target: Option<Xywh>)

  function Abs(x: real): (r: real) {
    if x < 0.0 then -x else x
  }

  predicate InFrame(box: Box2D) {
    0.0 <= box.min.x <= box.max.x <= CameraWidth &&
    0.0 <= box.min.y <= box.max.y <= CameraHeight
  }

  predicate InUnitRange(t: Xywh) {
    0.0 <= t.x <= 1.0 && 0.0 <= t.y <= 1.0 && 0.0 <= t.w <= 1.0 && 0.0 <= t.h <= 1.0
  }

  /** The pixel corners the display overlay draws for a normalised box
      (before it truncates them to integers). */
  function OverlayCorners(t: Xywh): (r: Box2D)
    ensures (r.min.x + r.max.x) / 2.0 == t.x * CameraWidth && r.max.x - r.min.x == t.w * CameraWidth
    ensures (r.min.y + r.max.y) / 2.0 == t.y * CameraHeight && r.max.y - r.min.y == t.h * CameraHeight
  {
    var x, y := t.x * CameraWidth, t.y * CameraHeight;
    var w, h := t.w * CameraWidth, t.h * CameraHeight;
    Box2D(Vec2(x - w / 2.0, y - h / 2.0), Vec2(x + w / 2.0, y + h / 2.0))
  }

  /** Normalises a detection box: midpoints and extents divided by the frame size.
      The overlay's conversion back to pixels recovers the box exactly, and a
      well-formed box inside the frame normalises into [0, 1]. */
  function TargetXywh(box: Box2D): (t: Xywh)
    ensures OverlayCorners(t) == box
    ensures InFrame(box) ==> InUnitRange(t)
  {
    var x := (box.min.x + box.max.x) / 2.0;
    var y := (box.min.y + box.max.y) / 2.0;
    var w := box.max.x - box.min.x;
    var h := box.max.y - box.min.y;
    Xywh(x / CameraWidth, y / CameraHeight, w / CameraWidth, h / CameraHeight)
  }

  /** Normalising the overlay's pixel box gives back the normalised box. */
  lemma NormaliseOverlay(t: Xywh)
    ensures TargetXywh(OverlayCorners(t)) == t
  {
    var b := OverlayCorners(t);
    assert (b.min.x + b.max.x) / 2.0 / CameraWidth == t.x;
    assert (b.min.y + b.max.y) / 2.0 / CameraHeight == t.y;
    assert (b.max.x - b.min.x) / CameraWidth == t.w;
    assert (b.max.y - b.min.y) / CameraHeight == t.h;
  }

  /** The raw distance term: progress towards the target scaled by 0.1 per time step,
      which is twice the progress in metres. */
  function RawDistanceTerm(oldDistance: real, distance: real): (r: real)
    ensures r == 2.0 * (oldDistance - distance)
    ensures r >= 0.0 <==> distance <= oldDistance
  {
    (oldDistance - distance) * 0.1 / TimeStep
  }

  /** Distance reward: the raw term, doubled when the drone moved away,
      plus the box area as a closeness bonus. */
  function DistanceReward(oldDistance: real, distance: real, target: Xywh): (r: real)
    ensures distance <= oldDistance ==>
              r - target.w * target.h == RawDistanceTerm(oldDistance, distance) >= 0.0
    ensures distance > oldDistance ==>
              r - target.w * target.h == 2.0 * RawDistanceTerm(oldDistance, distance) < 0.0
  {
    var raw := RawDistanceTerm(oldDistance, distance);
    var shaped := if raw < 0.0 then raw * 2.0 else raw;
    shaped + target.w * target.h
  }

  /** Detection reward: how close the box centre is to the frame centre.
      It never exceeds 0.2, reaches 0.2 exactly at the centre, and does not
      go below -0.2 while the centre lies inside the frame. */
  function DetectionReward(t: Xywh): (r: real)
    ensures r <= 0.2
    ensures r == 0.2 <==> t.x == 0.5 && t.y == 0.5
    ensures 0.0 <= t.x <= 1.0 && 0.0 <= t.y <= 1.0 ==> -0.2 <= r
  {
    (0.5 - Abs(t.x - 0.5) - Abs(t.y - 0.5)) * 0.4
  }

  /** The detection query is repeated once when it comes back empty;
      the second answer is accepted whatever it is. */
  function DetectionsAfterRetry(first: seq<Detection>, retry: seq<Detection>): (r: seq<Detection>)
    ensures r == [] <==> first == [] && retry == []
    ensures first != [] ==> r == first
    ensures first == [] ==> r == retry
  {
    if |first| == 0 then retry else first
  }

  /** The step reward is the step penalty plus every term of the outcome. */
  predicate Composed(o: Outcome) {
    o.reward == StepPenalty + o.distanceReward + o.detectionReward + o.finalReward
  }

  /** The penalty for losing sight of the target at the given distance. */
  function LossPenalty(distance: real): (p: real)
    ensures p == FarLossPenalty <==> distance > FarDistance
    ensures p == NearLossPenalty <==> distance <= FarDistance
  {
    if distance > FarDistance then FarLossPenalty else NearLossPenalty
  }

  /** Reward and termination of one step, from the previous distance, the new
      distance, the detections after the retry, the collision flag and the
      previously stored target box. */
  function StepOutcome(oldDistance: real, distance: real, detections: seq<Detection>,
                       collided: bool, target: Option<Xywh>): (o: Outcome)
    ensures Composed(o)
    ensures o.successful <==> |detections| > 0 && distance < SuccessDistance
    ensures o.successful ==> o.done
    ensures !o.done <==> |detections| > 0 && distance >= SuccessDistance && !collided
    ensures |detections| > 0 ==> o.target == Some(TargetXywh(detections[0].box2D))
  {
    var collision := if collided then CollisionPenalty else 0.0;
    if |detections| > 0 then
      var t := TargetXywh(detections[0].box2D);
      var distanceReward := DistanceReward(oldDistance, distance, t);
      var detectionReward := DetectionReward(t);
      var successful := distance < SuccessDistance;
      var bonus := if successful && detectionReward > 0.0 then SuccessBonusScale * detectionReward else 0.0;
      var finalReward := bonus - collision;
      Outcome(StepPenalty + (distanceReward + detectionReward) + finalReward,
              distanceReward, detectionReward, finalReward,
              successful || collided, successful, Some(t))
    else
      var finalReward := LossPenalty(distance) - collision;
      Outcome(StepPenalty + finalReward, 0.0, 0.0, finalReward, true, false, target)
  }

  /** Out of view: the episode ends unsuccessfully, the stored box and the
      shaping totals are left alone, and the final reward is the loss penalty
      (less one on a collision). */
  lemma OutOfViewOutcome(oldDistance: real, distance: real, collided: bool, target: Option<Xywh>)
    ensures var o := StepOutcome(oldDistance, distance, [], collided, target);
      o.done && !o.successful && o.target == target &&
      o.distanceReward == 0.0 && o.detectionReward == 0.0 &&
      o.finalReward == (if distance > FarDistance then -50.0 else -25.0) - (if collided then 1.0 else 0.0) &&
      o.reward == -0.1 + o.finalReward
  {
  }

  /** On a detection, the step earns both shaping terms of the new box, and
      the final reward is a never-negative success bonus (500 times the
      detection reward, paid only on success with a positive detection reward)
      less one on a collision. */
  lemma DetectedOutcome(oldDistance: real, distance: real, d: Detection, rest: seq<Detection>,
                        collided: bool, target: Option<Xywh>)
    ensures var o := StepOutcome(oldDistance, distance, [d] + rest, collided, target);
      var t := TargetXywh(d.box2D);
      var bonus := o.finalReward + (if collided then 1.0 else 0.0);
      o.distanceReward == DistanceReward(oldDistance, distance, t) &&
      o.detectionReward == DetectionReward(t) &&
      bonus >= 0.0 &&
      (bonus > 0.0 <==> o.successful && o.detectionReward > 0.0) &&
      (bonus > 0.0 ==> bonus == 500.0 * o.detectionReward)
  {
  }

  /** A collision costs exactly one more and ends the episode; nothing else
      about the step changes. */
  lemma CollisionIsCumulative(oldDistance: real, distance: real, detections: seq<Detection>,
                              target: Option<Xywh>)
    ensures var hit := StepOutcome(oldDistance, distance, detections, true, target);
      var clear := StepOutcome(oldDistance, distance, detections, false, target);
      hit.done &&
      hit.finalReward == clear.finalReward - 1.0 &&
      hit.reward == clear.reward - 1.0 &&
      hit.successful == clear.successful &&
      hit.distanceReward == clear.distanceReward &&
      hit.detectionReward == clear.detectionReward &&
      hit.target == clear.target
  {
  }

  /** Losing the target exactly 10 away costs the near penalty; just beyond, the far one. */
  lemma LossPenaltyBoundary()
    ensures LossPenalty(10.0) == -25.0 && LossPenalty(10.01) == -50.0
  {
  }

  /** A target centred in the frame and reached closer than 3.5 ends the
      episode successfully with the largest bonus, 500 * 0.2. */
  lemma CentredSuccess(oldDistance: real, distance: real)
    requires distance < SuccessDistance
    ensures var box := Box2D(Vec2(150.0, 110.0), Vec2(170.0, 130.0));
      var o := StepOutcome(oldDistance, distance, [Detection(box)], false, None);
      o.done && o.successful && o.detectionReward == 0.2 && o.finalReward == 100.0
  {
  }
}

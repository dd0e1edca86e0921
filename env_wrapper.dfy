/**
 The environment wrapper object: its connection and flight flags, the display
 thread handle, and the episode state that reset and step update in place.
 Simulator calls are replaced by the values they return, passed in as
 parameters.
 */
module DroneEnv {
  import opened Reward
  import opened Episode

  class DroneEnvWrapper {
    /** Whether a display thread is started on connect. */
    const render: bool

    var isConnected: bool
    var isFlying: bool
    /** The display thread last started, identified by its start order; None before the first. */
    var videoThread: Option<nat>
    /** How many display threads have been started over the object's lifetime; each new one gets the next identity. */
    var threadsStarted: nat

    /** Whether reset has run, so that the previous distance exists. */
    var episodeStarted: bool
    var distance: real
    /** The normalised box of the last detection; None until the target is first seen. */
    var targetXywh: Option<Xywh>
    /** The four episode accumulators: reward, distance reward, detection
        reward and final reward. */
    var totals: EpisodeTotals
    /** The outcomes of the steps taken since the last reset. */
    ghost var history: seq<Outcome>

    ghost predicate Valid()
      reads this
    {
      (videoThread.None? <==> threadsStarted == 0) &&
      (videoThread.Some? ==> videoThread.value + 1 == threadsStarted) &&
      (!render ==> threadsStarted == 0) &&
      (isConnected && render ==> videoThread.Some?) &&
      (isFlying ==> isConnected) &&
      Consistent(history, totals)
    }

    /** Creating the wrapper connects it, grounded, with no episode started yet. */
    constructor (render: bool)
      ensures Valid()
      ensures this.render == render && isConnected && !isFlying
      ensures videoThread == (if render then Some(0) else None)
      ensures threadsStarted == (if render then 1 else 0)
      ensures !episodeStarted && targetXywh == None && history == []
    {
      this.render := render;
      isConnected := false;
      isFlying := false;
      videoThread := None;
      threadsStarted := 0;
      episodeStarted := false;
      distance := 0.0;
      targetXywh := None;
      totals := Zero;
      history := [];
      new;
      Connect(false);
    }

    /** Connects; a no-op when already connected. A new display thread is
        started only when rendering and no earlier thread is still alive;
        previousThreadAlive is what the thread library reports for the
        earlier thread. */
    method Connect(previousThreadAlive: bool)
      requires Valid()
      modifies this`isConnected, this`videoThread, this`threadsStarted
      ensures Valid()
      ensures old(isConnected) ==> unchanged(this)
      ensures !old(isConnected) ==> isConnected
      ensures var starts := !old(isConnected) && render &&
                            (old(videoThread).None? || !previousThreadAlive);
        threadsStarted == old(threadsStarted) + (if starts then 1 else 0) &&
        videoThread == (if starts then Some(old(threadsStarted)) else old(videoThread))
    {
      if isConnected {
        return;
      }
      if render {
        if videoThread.None? || !previousThreadAlive {
          videoThread := Some(threadsStarted);
          threadsStarted := threadsStarted + 1;
        }
      }
      isConnected := true;
    }

    /** Takes off; a no-op while disconnected. */
    method TakeOff()
      requires Valid()
      modifies this`isFlying
      ensures Valid()
      ensures isFlying == (old(isFlying) || isConnected)
    {
      if !isConnected {
        return;
      }
      isFlying := true;
    }

    /** Lands; a no-op while disconnected. */
    method Land()
      requires Valid()
      modifies this`isFlying
      ensures Valid()
      ensures isFlying == (old(isFlying) && !isConnected)
    {
      if !isConnected {
        return;
      }
      isFlying := false;
    }

    /** Closes the connection, landing first when flying; a no-op while
        disconnected. */
    method Close()
      requires Valid()
      modifies this`isFlying, this`isConnected
      ensures Valid()
      ensures !old(isConnected) ==> unchanged(this)
      ensures !isConnected && !isFlying
    {
      if !isConnected {
        return;
      }
      if isFlying {
        Land();
      }
      isConnected := false;
    }

    /** Starts an episode at the given initial distance to the target: the
        four accumulators are zeroed. The stored target box and the flags are
        left as they were. */
    method Reset(initialDistance: real)
      requires Valid()
      modifies this`episodeStarted, this`distance, this`totals, this`history
      ensures Valid()
      ensures episodeStarted && distance == initialDistance
      ensures totals == Zero && history == []
    {
      totals := Zero;
      history := [];
      distance := initialDistance;
      episodeStarted := true;
    }

    /** One control step, given the simulator's answers: the new distance to
        the target, the first detection query and its retry, and the collision
        flag. Returns the step reward, done and successful; stores the new
        distance and box and adds the step to the accumulators. */
    method Step(newDistance: real, firstQuery: seq<Detection>, retryQuery: seq<Detection>,
                collided: bool)
      returns (reward: real, done: bool, successful: bool)
      requires Valid() && episodeStarted
      modifies this`distance, this`targetXywh, this`totals, this`history
      ensures Valid()
      ensures var o := StepOutcome(old(distance), newDistance,
                                   DetectionsAfterRetry(firstQuery, retryQuery),
                                   collided, old(targetXywh));
        reward == o.reward && done == o.done && successful == o.successful &&
        distance == newDistance && targetXywh == o.target &&
        totals == Accumulate(old(totals), o) &&
        history == old(history) + [o]
      ensures totals.reward == StepPenalty * (|history| as real) + totals.distanceReward +
                               totals.detectionReward + totals.finalReward
    {
      var detections := DetectionsAfterRetry(firstQuery, retryQuery);
      var o := StepRewards(distance, newDistance, detections, collided, targetXywh);
      reward, done, successful := o.reward, o.done, o.successful;
      ConsistentAppend(history, totals, o);

      distance, targetXywh := newDistance, o.target;
      var t := totals;
      if |detections| > 0 {
        t := t.(distanceReward := t.distanceReward + o.distanceReward,
                detectionReward := t.detectionReward + o.detectionReward);
      }
      t := t.(reward := t.reward + reward, finalReward := t.finalReward + o.finalReward);
      totals := t;
      history := history + [o];
    }
  }

  /** The reward and termination decision of one step, computed the way the
      step does it: a running reward and final reward adjusted branch by branch. */
  method StepRewards(oldDistance: real, distance: real, detections: seq<Detection>,
                     collided: bool, target: Option<Xywh>)
    returns (o: Outcome)
    ensures o == StepOutcome(oldDistance, distance, detections, collided, target)
  {
    var reward := StepPenalty;
    var finalReward := 0.0;
    var done := false;
    var successful := false;
    var distanceReward, detectionReward := 0.0, 0.0;
    var newTarget := target;

    if |detections| > 0 {
      var t := TargetXywh(detections[0].box2D);
      newTarget := Some(t);
      distanceReward := DistanceReward(oldDistance, distance, t);
      detectionReward := DetectionReward(t);
      reward := reward + (distanceReward + detectionReward);
      if distance < SuccessDistance {
        if detectionReward > 0.0 {
          finalReward := finalReward + SuccessBonusScale * detectionReward;
        }
        done := true;
        successful := true;
      }
    } else {
      finalReward := finalReward + LossPenalty(distance);
      done := true;
    }

    if collided {
      finalReward := finalReward - CollisionPenalty;
      done := true;
    }

    reward := reward + finalReward;
    o := Outcome(reward, distanceReward, detectionReward, finalReward, done, successful, newTarget);
  }

  /** Connecting twice starts one display thread; reconnecting after a close
      whose thread has finished starts a second. Close ends the process after
      disconnecting, so the reconnection here is reachable only when a caller
      catches that exit. */
  method ReconnectScenario()
  {
    var env := new DroneEnvWrapper(true);
    assert env.threadsStarted == 1;
    env.Connect(true);
    assert env.threadsStarted == 1 && env.videoThread == Some(0);
    env.TakeOff();
    env.Close();
    assert !env.isConnected && !env.isFlying;
    env.TakeOff();
    assert !env.isFlying;
    env.Connect(false);
    assert env.isConnected && env.threadsStarted == 2 && env.videoThread == Some(1);
  }
}

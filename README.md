# Drone environment wrapper: reward rule and connection flags

This project models the two exactly-specifiable parts of `DroneEnvWrapper`, a
reinforcement-learning environment that flies an AirSim quadrotor towards a
target object:

- **The per-step reward and termination rule** (`step` with its helpers
  `get_distance_reward`, `get_detection_reward` and `get_target_xywh`). Once
  the simulator calls are replaced by the values they return, a step takes the
  previous and new distance to the target, the detection list (after the query
  is retried once when empty), the collision flag and the last stored target
  box. It yields the step reward, `done`, `successful`, the new target box and
  the increments of the four episode accumulators. This is pure logic, so it
  lives in module `Reward` as functions (`StepOutcome` and its parts), with
  lemmas for the decision table. `DroneEnv.StepRewards` computes the same
  decision imperatively, the way `step` does, with a running reward and final
  reward, and is proved equal to `StepOutcome`.
- **The wrapper object's state** (class `DroneEnv.DroneEnvWrapper`). It holds
  `isConnected`, `isFlying` and the display-thread handle, plus the episode
  state: the distance, the stored target box and the accumulators. `Connect`,
  `TakeOff`, `Land`, `Close`, `Reset` and `Step` update these fields under the
  source's guards. The class invariant `Valid()` says three things:
  - the thread handle names the last of the threads started, and none are
    started without rendering;
  - the drone is flying only while connected;
  - the accumulators are the totals of the steps taken since the last reset
    (module `Episode`).

Python floats are modelled as exact reals. The wrapper's accumulators
(`episode_reward`, `episode_distance_reward`, `episode_detection_reward`,
`episode_final_reward`) are grouped in one `EpisodeTotals` record field.

Behaviour modelled as the code has it:

- The detection reward `0.4 * (0.5 - |x - 0.5| - |y - 0.5|)` lies in the
  closed interval [-0.2, 0.2] for a centre inside the frame. It equals 0.2 at
  the centre (0.5, 0.5) and -0.2 at the frame corners, so the open interval
  (-0.2, 0.2) sometimes given for it is not what the code computes.
- `reset` takes off through the simulator but does not set `is_flying`.
  `Reset` therefore leaves `isFlying` as it was.
- `reset` does not clear `target_xywh`: the stored box survives into the next
  episode and is returned unchanged by a step that loses the target.
- `step` reads the distance that `reset` stores, so `Step` requires a reset
  first (`episodeStarted`). Before any reset the source fails with an
  attribute error.

## Model

| member | source | states |
|---|---|---|
| `Reward.TargetXywh` | EnvWrapper_Image.py:120-132 | converting the normalised box back to pixel corners, as the overlay does, recovers the detection box exactly; a box with min <= max inside the 320x240 frame normalises into [0,1] on all four values |
| `Reward.OverlayCorners` | EnvWrapper_Image.py:84-94 | the overlay's pixel rectangle (before integer truncation) is centred on the box centre scaled by 320 and 240, with width and height the box extents scaled the same way |
| `Reward.NormaliseOverlay` | EnvWrapper_Image.py:120-132 | normalising the overlay's pixel rectangle gives back the normalised box, the other direction of the `TargetXywh` round trip |
| `Reward.RawDistanceTerm` | EnvWrapper_Image.py:137 | the raw term `(old - new) * 0.1 / 0.05` is exactly twice the progress, and is non-negative iff the distance did not increase |
| `Reward.DistanceReward` | EnvWrapper_Image.py:136-141 | with the box area `w*h` removed, the reward is the raw term (>= 0) when the distance did not increase and exactly twice the raw term (< 0) when it increased |
| `Reward.DetectionReward` | EnvWrapper_Image.py:143-148 | the detection reward is at most 0.2, equals 0.2 exactly at centre (0.5, 0.5), and is at least -0.2 when the centre lies in [0,1]x[0,1] |
| `Reward.DetectionsAfterRetry` | EnvWrapper_Image.py:168-170 | a non-empty first answer is used as is, an empty one is replaced by the retry's answer, so the list is empty only when both are empty |
| `Reward.LossPenalty` | EnvWrapper_Image.py:203 | losing the target costs -50 exactly when the distance exceeds 10 and -25 exactly when it is at most 10 |
| `Reward.StepOutcome` | EnvWrapper_Image.py:177-214 | step reward is -0.1 plus the distance, detection and final terms; `successful` iff a detection exists and distance < 3.5; `successful` implies `done`; `done` is false iff a detection exists, distance >= 3.5 and no collision; a detection stores the normalised box of the first detection |
| `Reward.OutOfViewOutcome` | EnvWrapper_Image.py:202-205 | with no detection the step is done and unsuccessful, keeps the stored box, adds nothing to the distance and detection totals, and its final reward is -50 beyond 10 and -25 otherwise, less 1 on a collision |
| `Reward.DetectedOutcome` | EnvWrapper_Image.py:183-201 | with a detection the step earns the distance and detection rewards of the first box; the success bonus is never negative, is positive iff the step succeeds with a positive detection reward, and then equals 500 times the detection reward |
| `Reward.CollisionIsCumulative` | EnvWrapper_Image.py:207-211 | a collision ends the episode and lowers the final and step rewards by exactly 1, on top of any loss penalty or success bonus, leaving every other part of the outcome the same |
| `Reward.LossPenaltyBoundary` | EnvWrapper_Image.py:203 | distance 10 gives the -25 penalty, distance 10.01 gives -50 |
| `Reward.CentredSuccess` | EnvWrapper_Image.py:195-201 | a box centred in the frame and a distance below 3.5 give a successful, finished step with detection reward 0.2 and bonus 100 |
| `Episode.Accumulate` | EnvWrapper_Image.py:191-192 | one step adds its four terms to the accumulators (the `+=` of lines 191-192 and 215-216); a step whose reward is composed of its terms raises the reward total, less the three term totals, by exactly the step penalty -0.1 |
| `Episode.TotalsAppend` | EnvWrapper_Image.py:214-216 | the totals after one more step are the previous totals plus that step's contribution |
| `Episode.ConsistentAppend` | EnvWrapper_Image.py:189-192 | adding a well-composed step to consistent totals keeps them consistent, and the reward total is -0.1 per step plus the other three totals |
| `Episode.EpisodeRewardDecomposes` | EnvWrapper_Image.py:177-216 | over any sequence of steps the episode reward equals -0.1 times the number of steps plus the distance, detection and final reward totals |
| `Episode.OutOfViewKeepsShapingTotals` | EnvWrapper_Image.py:189-192 | steps that lose the target leave the distance and detection totals unchanged |
| `DroneEnv.StepRewards` | EnvWrapper_Image.py:177-214 | the imperative reward computation of a step, with its running reward and final reward, yields exactly `StepOutcome` |
| `DroneEnv.DroneEnvWrapper.constructor` | EnvWrapper_Image.py:32-42 | a new wrapper is connected and grounded, has started one display thread when rendering and none otherwise, and has no stored target box |
| `DroneEnv.DroneEnvWrapper.Connect` | EnvWrapper_Image.py:53-64 | a no-op when connected; otherwise connects, starting a new display thread only when rendering and there is no thread or the last one has finished |
| `DroneEnv.DroneEnvWrapper.TakeOff` | EnvWrapper_Image.py:104-110 | sets the flying flag when connected and changes nothing when disconnected |
| `DroneEnv.DroneEnvWrapper.Land` | EnvWrapper_Image.py:112-118 | clears the flying flag when connected and changes nothing when disconnected |
| `DroneEnv.DroneEnvWrapper.Close` | EnvWrapper_Image.py:317-325 | a no-op when disconnected; otherwise lands first when flying and disconnects, so that afterwards the drone is neither connected nor flying |
| `DroneEnv.DroneEnvWrapper.Reset` | EnvWrapper_Image.py:290-299 | zeroes the four accumulators, stores the initial distance and starts an empty episode, leaving the flags and the stored box alone |
| `DroneEnv.DroneEnvWrapper.Step` | EnvWrapper_Image.py:134-216 | returns the reward, done and successful of `StepOutcome` for the stored and new distance, the detections after the retry and the collision flag; stores the new distance and box; sets the accumulators to `Accumulate` of the old ones and the step; keeps the episode reward equal to -0.1 per step plus the other three totals |

## Left out

- Simulator calls (movement commands, pause and resume, pose get and set, detection and collision queries, wind, arming, API control) are replaced by the values they return, passed as parameters. Their timing and blocking behaviour is not modelled.
- The Euclidean distance between vehicle and target is not computed; the new distance is an input to `Step` and `Reset`.
- The display thread's body (frame decode, overlay drawing, window display) is concurrent UI code and is not modelled. Only its start on `Connect` is modelled, with its liveness as the input `previousThreadAlive`. `OverlayCorners` states the overlay's pixel conversion without its integer truncation.
- Gaussian image noise, the camera images returned as observations and the image decoding are floating-point image processing and are not modelled.
- The random spawn offset, the target jitter and the wind set up in `reset` come from random sampling and trigonometry and are not modelled.
- The action vector of `step` only feeds the movement command, so it is not a parameter of `Step`.
- `Close` does not model the disarm, the release of API control or the process exit that follow the flag changes.
- Keyboard key sets, status messages and the `main` entry point are not modelled.
- Floating-point rounding is not modelled: rewards are exact reals, so for example the raw distance term is exactly twice the progress.

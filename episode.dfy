/**
 The episode accumulators: running totals of the step reward and of its
 distance, detection and final terms since the last reset.
 */
module Episode {
  import opened Reward

  datatype EpisodeTotals = EpisodeTotals(
    reward: real,
    distanceReward: real,
    detectionReward: real,
    finalReward: real)

  /** The totals a reset starts from. */
  const Zero := EpisodeTotals(0.0, 0.0, 0.0, 0.0)

  /** The part of the reward total not made of the three term totals. */
  function Unexplained(t: EpisodeTotals): real {
    t.reward - t.distanceReward - t.detectionReward - t.finalReward
  }

  /** One step's contribution to the totals. A step whose reward is composed
      of its terms adds exactly one step penalty to the unexplained part. */
  function Accumulate(t: EpisodeTotals, o: Outcome): (r: EpisodeTotals)
    ensures Composed(o) ==> Unexplained(r) == Unexplained(t) + StepPenalty
  {
    EpisodeTotals(t.reward + o.reward,
                  t.distanceReward + o.distanceReward,
                  t.detectionReward + o.detectionReward,
                  t.finalReward + o.finalReward)
  }

  /** The totals after the given steps of one episode. */
  function Totals(history: seq<Outcome>): (t: EpisodeTotals)
    decreases |history|
  {
    if history == [] then Zero
    else Accumulate(Totals(history[..|history| - 1]), history[|history| - 1])
  }

  lemma TotalsAppend(history: seq<Outcome>, o: Outcome)
    ensures Totals(history + [o]) == Accumulate(Totals(history), o)
  {
    assert (history + [o])[..|history|] == history;
  }

  /** The totals are those of the recorded steps, and every recorded step's
      reward is composed of its terms. */
  predicate Consistent(history: seq<Outcome>, totals: EpisodeTotals) {
    (forall i :: 0 <= i < |history| ==> Composed(history[i])) && Totals(history) == totals
  }

  lemma ConsistentAppend(history: seq<Outcome>, totals: EpisodeTotals, o: Outcome)
    requires Consistent(history, totals) && Composed(o)
    ensures Consistent(history + [o], Accumulate(totals, o))
    ensures var t := Accumulate(totals, o);
      t.reward == StepPenalty * ((|history| + 1) as real) + t.distanceReward + t.detectionReward + t.finalReward
  {
    TotalsAppend(history, o);
    EpisodeRewardDecomposes(history + [o]);
  }

  /** Over a whole episode, the reward total is the step penalty per step plus
      the distance, detection and final totals. */
  lemma {:induction false} EpisodeRewardDecomposes(history: seq<Outcome>)
    requires forall i :: 0 <= i < |history| ==> Composed(history[i])
    ensures var t := Totals(history);
      t.reward == StepPenalty * (|history| as real) + t.distanceReward + t.detectionReward + t.finalReward
  {
    if history != [] {
      var prefix := history[..|history| - 1];
      assert forall i :: 0 <= i < |prefix| ==> prefix[i] == history[i];
      EpisodeRewardDecomposes(prefix);
      assert Composed(history[|history| - 1]);
    }
  }

  /** Steps that lose the target add nothing to the distance and detection totals. */
  lemma {:induction false} OutOfViewKeepsShapingTotals(history: seq<Outcome>, lost: seq<Outcome>)
    requires forall i :: 0 <= i < |lost| ==> lost[i].distanceReward == 0.0 && lost[i].detectionReward == 0.0
    ensures Totals(history + lost).distanceReward == Totals(history).distanceReward
    ensures Totals(history + lost).detectionReward == Totals(history).detectionReward
    decreases |lost|
  {
    if lost == [] {
      assert history + lost == history;
    } else {
      var front := lost[..|lost| - 1];
      assert history + lost == (history + front) + [lost[|lost| - 1]];
      TotalsAppend(history + front, lost[|lost| - 1]);
      OutOfViewKeepsShapingTotals(history, front);
    }
  }
}

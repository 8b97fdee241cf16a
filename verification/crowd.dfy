/** The crowd simulation (`CrowdSimulator.crowdsource_items`): every item gets `n` worker
    votes, each worker's accuracy drawn uniformly from the predicate's accuracy range, and
    the votes are aggregated with the include-biased rule `count(1) >= n // 2`. */
module Crowd {
  import opened Common

  /** The two uniform draws one worker vote consumes: one for `random.uniform` (the
      worker's accuracy) and one for the Bernoulli trial of `np.random.binomial(1, p)`. */
  datatype WorkerDraw = WorkerDraw(accuracy: UnitDraw, coin: UnitDraw)

  /** The draws of the whole simulation: the draw of vote `k` on item `i` is `draws(i, k)`. */
  type Draws = (nat, nat) -> WorkerDraw

  /** `random.uniform(lo, hi)`, computed as `lo + (hi - lo) * random()`. */
  function Uniform(lo: Prob, hi: Prob, u: UnitDraw): real
  {
    lo + (hi - lo) * u
  }

  /** The probability that a worker of accuracy `acc` votes 1 on an item: the accuracy on
      a positive item, one minus it on a negative one. */
  function VoteOneChance(gt: Label, acc: real): real
  {
    if gt == 1 then acc else 1.0 - acc
  }

  /** One worker vote: the Bernoulli trial succeeds when its coin falls below the chance. */
  function Vote(gt: Label, crowdAcc: (Prob, Prob), d: WorkerDraw): (v: Label)
    ensures v == 1 <==> d.coin < VoteOneChance(gt, Uniform(crowdAcc.0, crowdAcc.1, d.accuracy))
  {
    var acc := Uniform(crowdAcc.0, crowdAcc.1, d.accuracy);
    if d.coin < VoteOneChance(gt, acc) then 1 else 0
  }

  /** The first `n` votes on item `item`. */
  function Votes(gt: Label, crowdAcc: (Prob, Prob), n: nat, draws: Draws, item: nat): (r: seq<Label>)
    ensures |r| == n
  {
    if n == 0 then [] else Votes(gt, crowdAcc, n - 1, draws, item) + [Vote(gt, crowdAcc, draws(item, n - 1))]
  }

  /** The aggregation rule: include when at least `n // 2` of the votes are 1. */
  function Aggregate(votes: seq<Label>, n: nat): Label
  {
    if CountOnes(votes) >= n / 2 then 1 else 0
  }

  /** The crowd label of item `item` whose ground truth is `gt`. */
  function ItemLabel(gt: Label, crowdAcc: (Prob, Prob), n: nat, draws: Draws, item: nat): Label
  {
    Aggregate(Votes(gt, crowdAcc, n, draws, item), n)
  }

  /** The crowd labels of a sequence of items, in order. */
  function CrowdLabels(gtItems: seq<Label>, crowdAcc: (Prob, Prob), n: nat, draws: Draws): seq<Label>
  {
    seq(|gtItems|, i requires 0 <= i < |gtItems| => ItemLabel(gtItems[i], crowdAcc, n, draws, i))
  }

  /** `crowdsource_items(gt_items, crowd_acc, n)`: one aggregated label per item, in order. */
  method CrowdsourceItems(gtItems: seq<Label>, crowdAcc: (Prob, Prob), n: nat, draws: Draws)
    returns (labels: seq<Label>)
    ensures |labels| == |gtItems|
    ensures forall i :: 0 <= i < |gtItems| ==>
      labels[i] == ItemLabel(gtItems[i], crowdAcc, n, draws, i)
    ensures labels == CrowdLabels(gtItems, crowdAcc, n, draws)
  {
    labels := [];
    for i := 0 to |gtItems|
      invariant |labels| == i
      invariant forall j :: 0 <= j < i ==> labels[j] == ItemLabel(gtItems[j], crowdAcc, n, draws, j)
    {
      var gt := gtItems[i];
      var votes: seq<Label> := [];
      for k := 0 to n
        invariant votes == Votes(gt, crowdAcc, k, draws, i)
      {
        var vote := Vote(gt, crowdAcc, draws(i, k));
        votes := votes + [vote];
      }
      var itemLabel: Label := if CountOnes(votes) >= n / 2 then 1 else 0;
      assert itemLabel == ItemLabel(gt, crowdAcc, n, draws, i);
      labels := labels + [itemLabel];
    }
  }

  /** Vote `k` of the first `n` is the vote drawn with `draws(item, k)`. */
  lemma {:induction false} VotesAt(gt: Label, crowdAcc: (Prob, Prob), n: nat, draws: Draws, item: nat, k: nat)
    requires k < n
    ensures Votes(gt, crowdAcc, n, draws, item)[k] == Vote(gt, crowdAcc, draws(item, k))
  {
    if k < n - 1 {
      VotesAt(gt, crowdAcc, n - 1, draws, item, k);
    }
  }

  /** The number of ones of a sequence of ones is its length. */
  lemma {:induction false} CountOnesOfOnes(s: seq<Label>)
    requires forall k :: 0 <= k < |s| ==> s[k] == 1
    ensures CountOnes(s) == |s|
  {
    if s != [] {
      CountOnesOfOnes(s[..|s| - 1]);
    }
  }

  /** A sequence of zeros has no ones. */
  lemma {:induction false} CountOnesOfZeros(s: seq<Label>)
    requires forall k :: 0 <= k < |s| ==> s[k] == 0
    ensures CountOnes(s) == 0
  {
    if s != [] {
      CountOnesOfZeros(s[..|s| - 1]);
    }
  }

  /** Exactly `n // 2` ones already include the item: an even split includes, and so does
      a 2-of-5 minority. */
  lemma HalfIncludes(votes: seq<Label>, n: nat)
    requires CountOnes(votes) == n / 2
    ensures Aggregate(votes, n) == 1
  {
  }

  /** Two ones out of five votes include the item. */
  lemma TwoOfFiveIncludes(votes: seq<Label>)
    requires |votes| == 5 && CountOnes(votes) == 2
    ensures Aggregate(votes, 5) == 1
  {
  }

  /** An item is excluded only when fewer than `n // 2` votes are 1. */
  lemma ExcludedOnlyBelowHalf(votes: seq<Label>, n: nat)
    ensures Aggregate(votes, n) == 0 <==> CountOnes(votes) < n / 2
  {
  }

  /** With at most one vote per item every item is included, whatever the votes. */
  lemma FewVotesAlwaysInclude(gt: Label, crowdAcc: (Prob, Prob), n: nat, draws: Draws, item: nat)
    requires n <= 1
    ensures ItemLabel(gt, crowdAcc, n, draws, item) == 1
  {
  }

  /** When every one of `n >= 2` votes equals the ground truth, the label is the ground truth. */
  lemma UnanimousTruthIsKept(votes: seq<Label>, gt: Label, n: nat)
    requires |votes| == n >= 2
    requires forall k :: 0 <= k < n ==> votes[k] == gt
    ensures Aggregate(votes, n) == gt
  {
    if gt == 1 {
      CountOnesOfOnes(votes);
    } else {
      CountOnesOfZeros(votes);
    }
  }

  /** A perfectly accurate crowd votes the ground truth on every draw. */
  lemma PerfectWorkerVotesTruth(gt: Label, d: WorkerDraw)
    ensures Vote(gt, (1.0, 1.0), d) == gt
  {
  }

  /** A perfectly accurate crowd with at least two votes per item reproduces the ground truth. */
  lemma PerfectCrowdReproducesTruth(gtItems: seq<Label>, n: nat, draws: Draws)
    requires n >= 2
    ensures forall i :: 0 <= i < |gtItems| ==> ItemLabel(gtItems[i], (1.0, 1.0), n, draws, i) == gtItems[i]
  {
    forall i | 0 <= i < |gtItems|
      ensures ItemLabel(gtItems[i], (1.0, 1.0), n, draws, i) == gtItems[i]
    {
      var votes := Votes(gtItems[i], (1.0, 1.0), n, draws, i);
      forall k | 0 <= k < n
        ensures votes[k] == gtItems[i]
      {
        VotesAt(gtItems[i], (1.0, 1.0), n, draws, i, k);
        PerfectWorkerVotesTruth(gtItems[i], draws(i, k));
      }
      UnanimousTruthIsKept(votes, gtItems[i], n);
    }
  }

  /** For a fixed draw, `random.uniform` grows with either end of the range. */
  lemma UniformMonotone(lo1: Prob, hi1: Prob, lo2: Prob, hi2: Prob, u: UnitDraw)
    requires lo1 <= lo2 && hi1 <= hi2
    ensures Uniform(lo1, hi1, u) <= Uniform(lo2, hi2, u)
  {
    var a, b := lo2 - lo1, hi2 - hi1;
    MulProb(a, 1.0 - u);
    MulProb(b, u);
    assert Uniform(lo2, hi2, u) - Uniform(lo1, hi1, u) == a * (1.0 - u) + b * u;
  }

  /** On the same draw, a worker from an accuracy range higher at both ends votes the
      ground truth whenever a worker from the lower range does. */
  lemma MoreAccurateWorkerVotesTruth(gt: Label, lower: (Prob, Prob), higher: (Prob, Prob), d: WorkerDraw)
    requires lower.0 <= higher.0 && lower.1 <= higher.1
    ensures Vote(gt, lower, d) == gt ==> Vote(gt, higher, d) == gt
  {
    UniformMonotone(lower.0, lower.1, higher.0, higher.1, d.accuracy);
  }

  /** On the same draws, the crowd with the higher accuracy range casts at least as many
      votes for the ground truth on an item: no fewer 1-votes on a positive item, no more
      on a negative one. */
  lemma {:induction false} MoreAccurateCrowdVotesTruth(gt: Label, lower: (Prob, Prob), higher: (Prob, Prob),
                                                       n: nat, draws: Draws, item: nat)
    requires lower.0 <= higher.0 && lower.1 <= higher.1
    ensures gt == 1 ==> CountOnes(Votes(gt, lower, n, draws, item)) <= CountOnes(Votes(gt, higher, n, draws, item))
    ensures gt == 0 ==> CountOnes(Votes(gt, higher, n, draws, item)) <= CountOnes(Votes(gt, lower, n, draws, item))
  {
    if n > 0 {
      MoreAccurateCrowdVotesTruth(gt, lower, higher, n - 1, draws, item);
      MoreAccurateWorkerVotesTruth(gt, lower, higher, draws(item, n - 1));
      var vl := Votes(gt, lower, n, draws, item);
      var vh := Votes(gt, higher, n, draws, item);
      assert vl[..n - 1] == Votes(gt, lower, n - 1, draws, item);
      assert vh[..n - 1] == Votes(gt, higher, n - 1, draws, item);
    }
  }

  /** Hence, on the same draws, a crowd with a higher accuracy range labels an item
      correctly whenever the lower one does. */
  lemma MoreAccurateCrowdLabelsTruth(gt: Label, lower: (Prob, Prob), higher: (Prob, Prob),
                                     n: nat, draws: Draws, item: nat)
    requires lower.0 <= higher.0 && lower.1 <= higher.1
    ensures ItemLabel(gt, lower, n, draws, item) == gt ==> ItemLabel(gt, higher, n, draws, item) == gt
  {
    MoreAccurateCrowdVotesTruth(gt, lower, higher, n, draws, item);
  }

  /** With a single vote, a perfectly accurate crowd still includes a negative item. */
  lemma SingleVoteIncludesNegative(draws: Draws)
    ensures ItemLabel(0, (1.0, 1.0), 1, draws, 0) == 1
  {
  }
}

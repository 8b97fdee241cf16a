/** The per-predicate learner and the multi-predicate screening controller: the query
    dispatch of the wrapped modAL `ActiveLearner`, undersampling of a queried batch,
    teaching with crowd labels, conjunctive fusion of the predicate classifiers and the
    calibration of the exclusion threshold. */
module ActiveLearning {
  import opened Common
  import Metrics
  import Crowd
  import Sampling

  /** A predicate (screening criterion) name. */
  type Predicate = string

  /** The query strategy a learner is set up with. */
  datatype Strategy = RandomStrategy | ObjectiveAwareStrategy | MixStrategy

  /** `ActiveLearner.query(X, learners_, n_instances=n)`: the strategy is called with the
      other learners only when it is `objective_aware_sampling`. `mix_sampling` also needs
      them, so reaching it through this dispatch is a TypeError. */
  function ActiveLearnerQuery(strategy: Strategy, c: Classifier, others: seq<Classifier>,
                              xs: seq<Features>, n: nat, pick: nat -> nat): (r: Result<seq<nat>>)
    ensures strategy == MixStrategy ==> r == Err(MissingLearnersArgument)
    ensures strategy == RandomStrategy ==> (r.Ok? <==> 0 < n <= |xs|)
    ensures strategy == ObjectiveAwareStrategy ==> (r.Ok? <==> 0 < |xs| && n <= |xs|)
    ensures r.Ok? ==> |r.value| == n && Distinct(r.value) && InRange(r.value, |xs|)
  {
    match strategy
    case RandomStrategy => Sampling.RandomSampling(|xs|, n, pick)
    case ObjectiveAwareStrategy => Sampling.ObjectiveAwareSampling(c, others, xs, n)
    case MixStrategy => Err(MissingLearnersArgument)
  }

  /** Only `objective_aware_sampling` sees the other learners: for every other strategy
      the query is the same whatever they are. */
  lemma OthersReachOnlyObjectiveAware(strategy: Strategy, c: Classifier, others1: seq<Classifier>,
                                      others2: seq<Classifier>, xs: seq<Features>, n: nat,
                                      pick: nat -> nat)
    requires strategy != ObjectiveAwareStrategy
    ensures ActiveLearnerQuery(strategy, c, others1, xs, n, pick)
         == ActiveLearnerQuery(strategy, c, others2, xs, n, pick)
  {
  }

  /** Whether a training set with `pos` positives out of `total` admits one more negative. */
  predicate Admits(pos: nat, total: nat, thr: real)
    requires total > 0
  {
    pos as real / total as real > thr
  }

  /** The number of queried negatives `undersample` admits out of `m`, starting from `pos`
      positives out of `total`: the negatives before the first one whose ratio test fails. */
  function AdmittedCount(pos: nat, total: nat, thr: real, m: nat): (k: nat)
    requires total > 0 || m == 0
    ensures k <= m
    ensures forall t :: total <= t < total + k ==> Admits(pos, t, thr)
    ensures k < m ==> !Admits(pos, total + k, thr)
  {
    if m == 0 then 0
    else
      var k := AdmittedCount(pos, total, thr, m - 1);
      if k == m - 1 && Admits(pos, total + k, thr) then m else k
  }

  /** The two halves of an undersampled batch. */
  datatype Split = Split(kept: seq<nat>, discarded: seq<nat>)

  /** Which queried indices point at positive pool items. */
  function PositiveQueried(yPool: seq<Label>, q: seq<nat>): (m: seq<bool>)
    requires InRange(q, |yPool|)
    ensures |m| == |q| && forall i :: 0 <= i < |q| ==> (m[i] <==> yPool[q[i]] == 1)
  {
    seq(|q|, i requires 0 <= i < |q| => yPool[q[i]] == 1)
  }

  /** Which queried indices point at negative pool items. */
  function NegativeQueried(yPool: seq<Label>, q: seq<nat>): (m: seq<bool>)
    requires InRange(q, |yPool|)
    ensures |m| == |q| && forall i :: 0 <= i < |q| ==> (m[i] <==> yPool[q[i]] == 0)
  {
    seq(|q|, i requires 0 <= i < |q| => yPool[q[i]] == 0)
  }

  /** The value of `undersample(query_idx)` for a learner with training labels
      `yTraining` and pool labels `yPool`: the queried positives, then the admitted prefix
      of the queried negatives; the rest of the negatives are discarded. An index outside
      the pool is an IndexError; with no training labels and no queried positive, the first
      negative divides by zero. */
  function Undersampled(yTraining: seq<Label>, yPool: seq<Label>, thr: real, q: seq<nat>): Result<Split>
  {
    if !InRange(q, |yPool|) then Err(IndexOutOfRange)
    else
      var positives := Compress(q, PositiveQueried(yPool, q));
      var negatives := Compress(q, NegativeQueried(yPool, q));
      AdmitNegatives(positives, negatives, CountOnes(yTraining) + |positives|, |yTraining| + |positives|, thr)
  }

  /** The loop of `undersample`: starting from the queried positives, with `pos` positives
      among `total` training labels, admit negatives in query order while the positive
      share stays above `thr`, and discard the rest. */
  function AdmitNegatives(positives: seq<nat>, negatives: seq<nat>, pos: nat, total: nat, thr: real): Result<Split>
  {
    if total == 0 && |negatives| > 0 then Err(ZeroDivision)
    else
      var k := AdmittedCount(pos, total, thr, |negatives|);
      Ok(Split(positives + negatives[..k], negatives[k..]))
  }

  /** The loop keeps every positive and splits the negatives in query order: the admitted
      ones follow the positives, the discarded ones are the rest. */
  lemma AdmitNegativesSplitsInOrder(positives: seq<nat>, negatives: seq<nat>, pos: nat, total: nat, thr: real)
    ensures var r := AdmitNegatives(positives, negatives, pos, total, thr);
      r.Ok? ==>
        && |positives| <= |r.value.kept|
        && r.value.kept[..|positives|] == positives
        && r.value.kept[|positives|..] + r.value.discarded == negatives
  {
    if !(total == 0 && |negatives| > 0) {
      var k := AdmittedCount(pos, total, thr, |negatives|);
      assert (positives + negatives[..k])[|positives|..] == negatives[..k];
      assert negatives[..k] + negatives[k..] == negatives;
    }
  }

  /** The loop of `undersample`, run over the queried negatives in order. */
  method AdmitNegativesInOrder(positives: seq<nat>, negatives: seq<nat>, pos: nat, total0: nat, thr: real)
    returns (r: Result<Split>)
    ensures r == AdmitNegatives(positives, negatives, pos, total0, thr)
  {
    var total := total0;
    var kept := positives;
    var discarded := [];
    ghost var k := 0;
    for j := 0 to |negatives|
      invariant total0 > 0 || j == 0
      invariant k == AdmittedCount(pos, total0, thr, j)
      invariant total == total0 + k
      invariant kept == positives + negatives[..k] && discarded == negatives[k..j]
    {
      if total == 0 {
        return Err(ZeroDivision);
      }
      if Admits(pos, total, thr) {
        assert negatives[..k + 1] == negatives[..k] + [negatives[j]];
        kept := kept + [negatives[j]];
        total := total + 1;
        k := k + 1;
      } else {
        assert negatives[k..j + 1] == negatives[k..j] + [negatives[j]];
        discarded := discarded + [negatives[j]];
      }
    }
    assert discarded == negatives[k..];
    r := Ok(Split(kept, discarded));
  }

  /** `undersample` is a partition: the kept and the discarded indices together are a
      permutation of the queried ones. */
  lemma UndersamplePartition(yTraining: seq<Label>, yPool: seq<Label>, thr: real, q: seq<nat>)
    ensures var r := Undersampled(yTraining, yPool, thr, q);
      r.Ok? ==> multiset(r.value.kept) + multiset(r.value.discarded) == multiset(q)
  {
    var r := Undersampled(yTraining, yPool, thr, q);
    if r.Ok? {
      var posMask, negMask := PositiveQueried(yPool, q), NegativeQueried(yPool, q);
      var positives, negatives := Compress(q, posMask), Compress(q, negMask);
      assert forall i :: 0 <= i < |q| ==> negMask[i] == !posMask[i];
      CompressPartition(q, posMask, negMask);
      var pos, total := CountOnes(yTraining) + |positives|, |yTraining| + |positives|;
      assert r == AdmitNegatives(positives, negatives, pos, total, thr);
      AdmitNegativesSplitsInOrder(positives, negatives, pos, total, thr);
      SplitPermutes(q, positives, negatives, r.value);
    }
  }

  /** No positive is ever discarded: every queried positive is kept, and every discarded
      index points at a negative pool item. The error cases are exactly an index outside
      the pool and a division by zero. */
  lemma UndersampleKeepsPositives(yTraining: seq<Label>, yPool: seq<Label>, thr: real, q: seq<nat>)
    ensures var r := Undersampled(yTraining, yPool, thr, q);
      && (r == Err(IndexOutOfRange) <==> !InRange(q, |yPool|))
      && (r.Ok? ==>
            && (forall i :: 0 <= i < |q| && yPool[q[i]] == 1 ==> q[i] in r.value.kept)
            && (forall i :: 0 <= i < |r.value.discarded| ==>
                  r.value.discarded[i] < |yPool| && yPool[r.value.discarded[i]] == 0))
  {
    var r := Undersampled(yTraining, yPool, thr, q);
    if r.Ok? {
      var posMask, negMask := PositiveQueried(yPool, q), NegativeQueried(yPool, q);
      var positives, negatives := Compress(q, posMask), Compress(q, negMask);
      var k := |r.value.kept| - |positives|;
      assert r.value.kept == positives + negatives[..k] && r.value.discarded == negatives[k..];
      forall i | 0 <= i < |q| && yPool[q[i]] == 1
        ensures q[i] in r.value.kept
      {
        CompressMembership(q, posMask, q[i]);
      }
      forall i | 0 <= i < |r.value.discarded|
        ensures r.value.discarded[i] < |yPool| && yPool[r.value.discarded[i]] == 0
      {
        var x := r.value.discarded[i];
        assert x == negatives[k + i];
        CompressMembership(q, negMask, x);
      }
    }
  }

  /** Keeping a prefix and splitting the rest in order preserves a partition of `q`. */
  lemma SplitPermutes(q: seq<nat>, positives: seq<nat>, negatives: seq<nat>, r: Split)
    requires multiset(positives) + multiset(negatives) == multiset(q)
    requires |positives| <= |r.kept| && r.kept[..|positives|] == positives
    requires r.kept[|positives|..] + r.discarded == negatives
    ensures multiset(r.kept) + multiset(r.discarded) == multiset(q)
  {
    var admitted := r.kept[|positives|..];
    assert r.kept == positives + admitted;
  }

  /** The indices of the queried and the discarded items, which `teach` removes from the pool. */
  function Removed(q: seq<nat>, discard: seq<nat>): set<nat>
  {
    set x | x in q + discard
  }

  /** The product of the include-probabilities of classifiers `cs` on one item: the
      probability that the item meets every predicate. */
  function Fused(cs: seq<Classifier>, x: Features): Prob
  {
    Product(Apply(cs, x))
  }

  /** Adding a classifier multiplies the fused probability by its include-probability. */
  lemma FusedAppend(cs: seq<Classifier>, c: Classifier, x: Features)
    ensures Fused(cs + [c], x) == Fused(cs, x) * c(x)
  {
    assert (cs + [c])[..|cs|] == cs;
    ProductAppend(Apply(cs, x), c(x));
  }

  /** Scaling the fused probabilities of `cs` by `c` gives those of `cs + [c]`. */
  lemma ScaledFused(v: seq<real>, cs: seq<Classifier>, c: Classifier, xs: seq<Features>)
    requires |v| == |xs| && forall i :: 0 <= i < |xs| ==> v[i] == Fused(cs, xs[i])
    ensures forall i :: 0 <= i < |xs| ==> Scaled(v, c, xs)[i] == Fused(cs + [c], xs[i])
  {
    forall i | 0 <= i < |xs|
      ensures Scaled(v, c, xs)[i] == Fused(cs + [c], xs[i])
    {
      FusedAppend(cs, c, xs[i]);
    }
  }

  /** The loop of `predict_proba`: starting from ones, every classifier in turn multiplies
      each row's value by its include-probability, leaving the fused probability. */
  method FuseAll(cs: seq<Classifier>, xs: seq<Features>) returns (probaIn: seq<real>)
    ensures |probaIn| == |xs|
    ensures forall i :: 0 <= i < |xs| ==> probaIn[i] == Fused(cs, xs[i])
  {
    probaIn := seq(|xs|, i requires 0 <= i < |xs| => 1.0);
    for k := 0 to |cs|
      invariant |probaIn| == |xs|
      invariant forall i :: 0 <= i < |xs| ==> probaIn[i] == Fused(cs[..k], xs[i])
    {
      assert cs[..k + 1] == cs[..k] + [cs[k]];
      ScaledFused(probaIn, cs[..k], cs[k], xs);
      probaIn := Scaled(probaIn, cs[k], xs);
    }
    assert cs[..|cs|] == cs;
  }

  /** `v * c(xs)`, entry by entry. */
  function Scaled(v: seq<real>, c: Classifier, xs: seq<Features>): (r: seq<real>)
    requires |v| == |xs|
    ensures |r| == |xs| && forall i :: 0 <= i < |xs| ==> r[i] == v[i] * c(xs[i])
  {
    seq(|xs|, i requires 0 <= i < |xs| => v[i] * c(xs[i]))
  }

  /** The labels `predict` gives the items `xs` with threshold `pOut`: exclude (0) when
      the exclusion probability `1 - p` exceeds the threshold, include (1) otherwise. */
  function PredictWith(cs: seq<Classifier>, pOut: real, xs: seq<Features>): (r: seq<Label>)
    ensures |r| == |xs|
  {
    seq(|xs|, i requires 0 <= i < |xs| => if 1.0 - Fused(cs, xs[i]) > pOut then 0 else 1)
  }

  /** A higher threshold excludes no item that a lower one includes. */
  lemma PredictThresholdMonotone(cs: seq<Classifier>, lower: real, higher: real, xs: seq<Features>)
    requires lower <= higher
    ensures forall i :: 0 <= i < |xs| && PredictWith(cs, higher, xs)[i] == 0 ==> PredictWith(cs, lower, xs)[i] == 0
  {
  }

  /** A product with a zero factor is zero. */
  lemma {:induction false} ProductWithZero(s: seq<Prob>, k: nat)
    requires k < |s| && s[k] == 0.0
    ensures Product(s) == 0.0
  {
    var n := |s| - 1;
    if k < n {
      ProductWithZero(s[..n], k);
    }
  }

  /** A product of ones is one. */
  lemma {:induction false} ProductOfOnes(s: seq<Prob>)
    requires forall k :: 0 <= k < |s| ==> s[k] == 1.0
    ensures Product(s) == 1.0
  {
    if s != [] {
      ProductOfOnes(s[..|s| - 1]);
    }
  }

  /** The fusion is a conjunction: one classifier sure that an item fails its predicate
      excludes the item at any threshold below 1, and an item every classifier is sure of
      is included at any non-negative threshold. */
  lemma FusionIsConjunctive(cs: seq<Classifier>, pOut: real, xs: seq<Features>, i: nat)
    requires i < |xs|
    ensures (exists k :: 0 <= k < |cs| && cs[k](xs[i]) == 0.0) && pOut < 1.0 ==> PredictWith(cs, pOut, xs)[i] == 0
    ensures (forall k :: 0 <= k < |cs| ==> cs[k](xs[i]) == 1.0) && pOut >= 0.0 ==> PredictWith(cs, pOut, xs)[i] == 1
  {
    var ps := Apply(cs, xs[i]);
    if exists k :: 0 <= k < |cs| && cs[k](xs[i]) == 0.0 {
      var k :| 0 <= k < |cs| && cs[k](xs[i]) == 0.0;
      ProductWithZero(ps, k);
    }
    if forall k :: 0 <= k < |cs| ==> cs[k](xs[i]) == 1.0 {
      ProductOfOnes(ps);
    }
  }

  /** The thresholds `fit_meta` tries, `np.arange(0.5, 0.95, 0.02)`: 0.5, 0.52, ..., 0.94. */
  function Grid(): seq<real>
  {
    seq(23, k requires 0 <= k < 23 => 0.5 + 0.02 * k as real)
  }

  /** The grid starts at 0.5, rises strictly and stays below 0.95. */
  lemma GridShape()
    ensures |Grid()| == 23 && Grid()[0] == 0.5
    ensures forall j, k :: 0 <= j < k < 23 ==> Grid()[j] < Grid()[k]
    ensures forall k :: 0 <= k < 23 ==> 0.5 <= Grid()[k] < 0.95
  {
  }

  /** The first position of a smallest value, as `min` over the grid's items returns it. */
  function FirstArgmin(v: seq<real>): (k: nat)
    requires |v| > 0
    ensures k < |v|
    ensures forall j :: 0 <= j < |v| ==> v[k] <= v[j]
    ensures forall j :: 0 <= j < k ==> v[j] > v[k]
  {
    var n := |v| - 1;
    if n == 0 then 0
    else
      var k := FirstArgmin(v[..n]);
      if v[n] < v[k] then n else k
  }

  /** The screening loss of the labels predicted with every grid threshold. */
  function Losses(cs: seq<Classifier>, xs: seq<Features>, y: seq<Label>, lr: real, beta: real): (r: seq<real>)
    requires |y| > 0
    ensures |r| == |Grid()|
  {
    seq(|Grid()|, k requires 0 <= k < |Grid()| => LossAt(cs, xs, y, lr, beta, Grid()[k]))
  }

  /** The screening loss of the labels predicted with threshold `t`. */
  function LossAt(cs: seq<Classifier>, xs: seq<Features>, y: seq<Label>, lr: real, beta: real, t: real): real
    requires |y| > 0
  {
    Metrics.ScreeningMetrics(y, PredictWith(cs, t, xs), lr, beta).value.loss
  }

  /** Losses gathered threshold by threshold over the grid are the grid's losses. */
  lemma LossesAre(cs: seq<Classifier>, xs: seq<Features>, y: seq<Label>, lr: real, beta: real, losses: seq<real>)
    requires |y| > 0 && |losses| == |Grid()|
    requires forall j :: 0 <= j < |losses| ==> losses[j] == LossAt(cs, xs, y, lr, beta, Grid()[j])
    ensures losses == Losses(cs, xs, y, lr, beta)
  {
  }

  /** The loop of `fit_meta` over the threshold grid: `pOut` is set to each grid value in
      turn and its loss recorded; at the end `pOut` is the first threshold of least loss.
      With no labels the first round divides by zero, leaving `pOut` at the first grid value. */
  method SearchThreshold(cs: seq<Classifier>, xs: seq<Features>, y: seq<Label>, lr: real, beta: real)
    returns (pOut: real, r: Result<()>)
    ensures r.Ok? <==> |y| > 0
    ensures r.Err? ==> r.error == ZeroDivision && pOut == 0.5
    ensures r.Ok? ==> pOut == FittedThreshold(cs, xs, y, lr, beta)
  {
    var grid := Grid();
    var losses: seq<real> := [];
    pOut := 0.0;
    for k := 0 to |grid|
      invariant |losses| == k
      invariant k > 0 ==> |y| > 0
      invariant forall j :: 0 <= j < k ==> losses[j] == LossAt(cs, xs, y, lr, beta, grid[j])
    {
      pOut := grid[k];
      var loss := ThresholdLoss(cs, xs, y, lr, beta, pOut);
      if loss.Err? {
        return pOut, Err(loss.error);
      }
      losses := losses + [loss.value];
    }
    LossesAre(cs, xs, y, lr, beta, losses);
    pOut := grid[FirstArgmin(losses)];
    r := Ok(());
  }

  /** One round of `fit_meta`: predict with threshold `t` and score the prediction; with
      no labels the scoring divides by zero. */
  method ThresholdLoss(cs: seq<Classifier>, xs: seq<Features>, y: seq<Label>, lr: real, beta: real, t: real)
    returns (r: Result<real>)
    ensures |y| == 0 ==> r == Err(ZeroDivision)
    ensures |y| > 0 ==> r == Ok(LossAt(cs, xs, y, lr, beta, t))
  {
    var predicted := PredictWith(cs, t, xs);
    var metrics := Metrics.ComputeScreeningMetrics(y, predicted, lr, beta);
    if metrics.Err? {
      return Err(metrics.error);
    }
    r := Ok(metrics.value.loss);
  }

  /** The threshold `fit_meta` settles on: the first grid value of least loss. */
  function FittedThreshold(cs: seq<Classifier>, xs: seq<Features>, y: seq<Label>, lr: real, beta: real): real
    requires |y| > 0
  {
    Grid()[FirstArgmin(Losses(cs, xs, y, lr, beta))]
  }

  /** The fitted threshold is a grid value whose loss no grid value beats, and every smaller
      grid value has a strictly larger loss. It depends only on the classifiers and the
      data, so fitting twice on the same data gives the same threshold. */
  lemma FittedThresholdMinimisesLoss(cs: seq<Classifier>, xs: seq<Features>, y: seq<Label>, lr: real, beta: real)
    requires |y| > 0
    ensures var losses := Losses(cs, xs, y, lr, beta);
      exists k :: 0 <= k < |Grid()| && FittedThreshold(cs, xs, y, lr, beta) == Grid()[k]
        && (forall j :: 0 <= j < |Grid()| ==> losses[k] <= losses[j])
        && (forall j :: 0 <= j < k ==> losses[j] > losses[k])
    ensures 0.5 <= FittedThreshold(cs, xs, y, lr, beta) < 0.95
  {
    var k := FirstArgmin(Losses(cs, xs, y, lr, beta));
    GridShape();
    assert FittedThreshold(cs, xs, y, lr, beta) == Grid()[k];
  }

  /** The entries of `ps` other than `p`, in order (the keys of the `learners_` dictionary
      `query` builds). */
  function Others(ps: seq<Predicate>, p: Predicate): (r: seq<Predicate>)
    ensures forall x :: x in r <==> x in ps && x != p
  {
    if ps == [] then []
    else
      var rest := Others(ps[..|ps| - 1], p);
      var last := ps[|ps| - 1];
      assert ps == ps[..|ps| - 1] + [last];
      if last == p then rest else rest + [last]
  }

  /** One predicate's learner: the modAL active learner (training set, fitted estimator and
      query strategy) together with its unlabelled pool. */
  class Learner {
    var undersamplingThr: real
    var strategy: Strategy
    /** The estimator before fitting (`params['clf']`), seen as its training algorithm. */
    var trainer: Trainer
    var xTraining: seq<Features>
    var yTraining: seq<Label>
    var estimator: Classifier
    var xPool: seq<Features>
    var yPool: seq<Label>

    /** `Learner(params)` followed by `setup_active_learner`: the modAL learner fits the
        estimator on the initial training set. */
    constructor (undersamplingThr: real, strategy: Strategy, trainer: Trainer,
                 xTrainInit: seq<Features>, yTrainInit: seq<Label>, xPool: seq<Features>, yPool: seq<Label>)
      requires |xPool| == |yPool|
      ensures this.undersamplingThr == undersamplingThr && this.strategy == strategy && this.trainer == trainer
      ensures xTraining == xTrainInit && yTraining == yTrainInit && estimator == trainer(xTrainInit, yTrainInit)
      ensures this.xPool == xPool && this.yPool == yPool
      ensures Paired()
    {
      this.undersamplingThr := undersamplingThr;
      this.strategy := strategy;
      this.trainer := trainer;
      xTraining := xTrainInit;
      yTraining := yTrainInit;
      estimator := trainer(xTrainInit, yTrainInit);
      this.xPool := xPool;
      this.yPool := yPool;
    }

    /** The pool rows and their labels are paired arrays. */
    predicate Paired()
      reads this
    {
      |xPool| == |yPool|
    }

    /** modAL's `fit(X, y)`: the training set is replaced and the estimator refitted on it. */
    method Fit(x: seq<Features>, y: seq<Label>)
      modifies this
      ensures xTraining == x && yTraining == y && estimator == trainer(x, y)
      ensures xPool == old(xPool) && yPool == old(yPool)
      ensures trainer == old(trainer) && strategy == old(strategy) && undersamplingThr == old(undersamplingThr)
    {
      xTraining := x;
      yTraining := y;
      estimator := trainer(x, y);
    }

    /** `undersample(query_idx)`: keeps every queried positive, then walks the queried
        negatives in order and admits one while the share of positives in the grown
        training set stays above the threshold. */
    method Undersample(q: seq<nat>) returns (r: Result<Split>)
      ensures r == Undersampled(yTraining, yPool, undersamplingThr, q)
    {
      if !InRange(q, |yPool|) {
        return Err(IndexOutOfRange);
      }
      var positives := Compress(q, PositiveQueried(yPool, q));
      var negatives := Compress(q, NegativeQueried(yPool, q));
      r := AdmitNegativesInOrder(positives, negatives, CountOnes(yTraining) + |positives|,
        |yTraining| + |positives|, undersamplingThr);
    }
  }

  /** The multi-predicate controller: one learner per predicate, the crowd settings and the
      exclusion threshold of the fused classifier. */
  class ScreeningActiveLearner {
    var nInstancesQuery: nat
    var pOut: real
    var lr: real
    var beta: real
    var learners: map<Predicate, Learner>
    /** The keys of `learners`, in the dictionary's order. */
    var predicates: seq<Predicate>
    var crowdAcc: map<Predicate, (Prob, Prob)>
    var crowdVotesPerItem: nat

    /** `predicates` lists the keys of `learners`, each once. */
    predicate Valid()
      reads this`learners, this`predicates
    {
      Distinct(predicates) && (forall p :: p in predicates ==> p in learners) && (forall p :: p in learners ==> p in predicates)
    }

    /** `ScreeningActiveLearner(params)`. */
    constructor (nInstancesQuery: nat, pOut: real, lr: real, beta: real, learners: map<Predicate, Learner>,
                 predicates: seq<Predicate>, crowdAcc: map<Predicate, (Prob, Prob)>, crowdVotesPerItem: nat)
      requires Distinct(predicates) && (forall p :: p in predicates ==> p in learners) && (forall p :: p in learners ==> p in predicates)
      ensures Valid()
      ensures this.nInstancesQuery == nInstancesQuery && this.pOut == pOut && this.lr == lr && this.beta == beta
      ensures this.learners == learners && this.predicates == predicates
      ensures this.crowdAcc == crowdAcc && this.crowdVotesPerItem == crowdVotesPerItem
    {
      this.nInstancesQuery := nInstancesQuery;
      this.pOut := pOut;
      this.lr := lr;
      this.beta := beta;
      this.learners := learners;
      this.predicates := predicates;
      this.crowdAcc := crowdAcc;
      this.crowdVotesPerItem := crowdVotesPerItem;
    }

    /** `select_predicate(param)`: the only predicate, or the two predicates in turn;
        any other number of predicates is a ValueError. */
    function SelectPredicate(param: nat): (r: Result<Predicate>)
      reads this`predicates
      ensures r.Ok? <==> |predicates| == 1 || |predicates| == 2
      ensures r.Ok? ==> r.value in predicates
    {
      if |predicates| == 1 then Ok(predicates[0])
      else if |predicates| == 2 then Ok(predicates[param % 2])
      else Err(UnsupportedPredicateCount)
    }

    /** With two predicates the rounds alternate between them, starting with the first. */
    lemma SelectPredicateAlternates(param: nat)
      requires |predicates| == 2 && Distinct(predicates)
      ensures SelectPredicate(param) == SelectPredicate(param + 2)
      ensures SelectPredicate(param).value != SelectPredicate(param + 1).value
      ensures SelectPredicate(0) == Ok(predicates[0])
    {
      assert (param + 1) % 2 != param % 2;
    }

    /** The fitted estimators of the learners of `ps`, in order. */
    function EstimatorsOf(ps: seq<Predicate>): (r: seq<Classifier>)
      requires forall p :: p in ps ==> p in learners
      reads this`learners, learners.Values`estimator
      ensures |r| == |ps|
    {
      if ps == [] then []
      else
        var last := ps[|ps| - 1];
        EstimatorsOf(ps[..|ps| - 1]) + [learners[last].estimator]
    }

    /** Entry `k` is the estimator of the learner of `ps[k]`. */
    lemma {:induction false} EstimatorsOfAt(ps: seq<Predicate>, k: nat)
      requires forall p :: p in ps ==> p in learners
      requires k < |ps|
      ensures EstimatorsOf(ps)[k] == learners[ps[k]].estimator
    {
      var n := |ps| - 1;
      if k < n {
        assert forall p :: p in ps[..n] ==> p in ps;
        EstimatorsOfAt(ps[..n], k);
      }
    }

    /** `predict_proba(X)`: row `i` is `(1 - p, p)` with `p` the product of every
        learner's include-probability for item `i`. */
    method PredictProba(xs: seq<Features>) returns (proba: seq<(real, real)>)
      requires Valid()
      ensures |proba| == |xs|
      ensures forall i :: 0 <= i < |xs| ==>
        proba[i] == (1.0 - Fused(EstimatorsOf(predicates), xs[i]), Fused(EstimatorsOf(predicates), xs[i]))
    {
      var cs := EstimatorsOf(predicates);
      var probaIn := FuseAll(cs, xs);
      proba := seq(|xs|, i requires 0 <= i < |xs| => (1.0 - probaIn[i], probaIn[i]));
    }

    /** `predict(X)`: the labels of the fused classifier at the current threshold. */
    function Predict(xs: seq<Features>): (r: seq<Label>)
      requires Valid()
      reads this`learners, this`predicates, this`pOut, learners.Values`estimator
      ensures |r| == |xs|
      ensures forall i :: 0 <= i < |xs| ==>
        (r[i] == 0 <==> 1.0 - Fused(EstimatorsOf(predicates), xs[i]) > pOut)
    {
      PredictWith(EstimatorsOf(predicates), pOut, xs)
    }

    /** `fit_meta(X, y)`: tries every grid threshold, scores its predictions with the
        screening loss and keeps the first threshold of least loss. With no labels the
        first loss divides by zero, after the threshold has been set to the first grid
        value. */
    method FitMeta(xs: seq<Features>, y: seq<Label>) returns (r: Result<()>)
      requires Valid()
      modifies this`pOut
      ensures r.Ok? <==> |y| > 0
      ensures r.Err? ==> r.error == ZeroDivision && pOut == 0.5
      ensures r.Ok? ==> pOut == FittedThreshold(EstimatorsOf(predicates), xs, y, lr, beta)
    {
      var cs := EstimatorsOf(predicates);
      var p;
      p, r := SearchThreshold(cs, xs, y, lr, beta);
      pOut := p;
    }

    /** `query(predicate)`: the predicate's learner queries its pool, passing the other
        learners along, and undersamples the queried batch. The random draws of the sampling
        are an input; no strategy this dispatch can run tosses the coin of `mix_sampling`. */
    method Query(pr: Predicate, pick: nat -> nat) returns (r: Result<Split>)
      requires Valid()
      ensures pr !in learners ==> r == Err(UnknownPredicate)
      ensures pr in learners ==>
        var l := learners[pr];
        var others := EstimatorsOf(Others(predicates, pr));
        var q := ActiveLearnerQuery(l.strategy, l.estimator, others, l.xPool, nInstancesQuery, pick);
        r == if q.Err? then Err(q.error) else Undersampled(l.yTraining, l.yPool, l.undersamplingThr, q.value)
    {
      if pr !in learners {
        return Err(UnknownPredicate);
      }
      var l := learners[pr];
      var others := EstimatorsOf(Others(predicates, pr));
      var q := ActiveLearnerQuery(l.strategy, l.estimator, others, l.xPool, nInstancesQuery, pick);
      if q.Err? {
        return Err(q.error);
      }
      ghost var expected := Undersampled(l.yTraining, l.yPool, l.undersamplingThr, q.value);
      r := l.Undersample(q.value);
      assert l.yTraining == old(l.yTraining) && l.yPool == old(l.yPool) && l.undersamplingThr == old(l.undersamplingThr);
      assert r == expected;
      assert learners == old(learners) && predicates == old(predicates) && nInstancesQuery == old(nInstancesQuery);
      assert EstimatorsOf(Others(predicates, pr)) == others;
    }

    /** `teach(predicate, query_idx, query_idx_discard)`: the queried rows join the training
        set with crowd labels drawn from `draws`, the queried and the discarded rows leave
        the pool, and the estimator is refitted. Every failure happens before any field
        changes. */
    method Teach(pr: Predicate, q: seq<nat>, discard: seq<nat>, draws: Crowd.Draws) returns (r: Result<()>)
      requires pr in learners ==> learners[pr].Paired()
      modifies if pr in learners then {learners[pr]} else {}
      ensures pr !in learners ==> r == Err(UnknownPredicate)
      ensures pr in learners ==> learners[pr].Paired()
      ensures pr in learners ==>
        var l := learners[pr];
        && (r.Ok? <==> InRange(q, |old(l.xPool)|) && pr in crowdAcc && InRange(discard, |old(l.xPool)|))
        && (!InRange(q, |old(l.xPool)|) ==> r == Err(IndexOutOfRange))
        && (r.Err? ==> unchanged(l))
        && (r.Ok? ==>
              && l.xTraining == old(l.xTraining) + Select(old(l.xPool), q)
              && l.yTraining == old(l.yTraining)
                   + Crowd.CrowdLabels(Select(old(l.yPool), q), crowdAcc[pr], crowdVotesPerItem, draws)
              && l.xPool == Delete(old(l.xPool), Removed(q, discard))
              && l.yPool == Delete(old(l.yPool), Removed(q, discard))
              && l.estimator == l.trainer(l.xTraining, l.yTraining)
              && l.trainer == old(l.trainer) && l.strategy == old(l.strategy)
              && l.undersamplingThr == old(l.undersamplingThr))
    {
      if pr !in learners {
        return Err(UnknownPredicate);
      }
      var l := learners[pr];
      if !InRange(q, |l.xPool|) {
        return Err(IndexOutOfRange);
      }
      if pr !in crowdAcc {
        return Err(UnknownPredicate);
      }
      if !InRange(discard, |l.xPool|) {
        return Err(IndexOutOfRange);
      }
      var x := l.xTraining + Select(l.xPool, q);
      var crowdLabels := Crowd.CrowdsourceItems(Select(l.yPool, q), crowdAcc[pr], crowdVotesPerItem, draws);
      var y := l.yTraining + crowdLabels;
      var removed := Removed(q, discard);
      TeachKeepsPoolPaired(l.xPool, l.yPool, removed);
      l.xPool := Delete(l.xPool, removed);
      l.yPool := Delete(l.yPool, removed);
      l.Fit(x, y);
      r := Ok(());
    }
  }

  /** After `teach` the pool rows and labels stay paired: deleting the same positions
      from both arrays is deleting them from the array of pairs. */
  lemma TeachKeepsPoolPaired(xPool: seq<Features>, yPool: seq<Label>, removed: set<nat>)
    requires |xPool| == |yPool|
    ensures |Delete(xPool, removed)| == |Delete(yPool, removed)|
    ensures Zip(Delete(xPool, removed), Delete(yPool, removed)) == Delete(Zip(xPool, yPool), removed)
  {
    CompressZip(xPool, yPool, KeepMask(|xPool|, removed));
  }

  /** After `teach` the training rows and labels stay paired, and the new training set
      ends with the queried rows and their crowd labels. */
  lemma TeachKeepsTrainingPaired(xTraining: seq<Features>, yTraining: seq<Label>, xPool: seq<Features>,
                                 yPool: seq<Label>, q: seq<nat>, crowdAcc: (Prob, Prob), n: nat, draws: Crowd.Draws)
    requires |xTraining| == |yTraining| && |xPool| == |yPool| && InRange(q, |xPool|)
    ensures var x := xTraining + Select(xPool, q);
      var y := yTraining + Crowd.CrowdLabels(Select(yPool, q), crowdAcc, n, draws);
      && |x| == |y| == |xTraining| + |q|
      && forall i :: 0 <= i < |q| ==>
           x[|xTraining| + i] == xPool[q[i]]
           && y[|yTraining| + i] == Crowd.ItemLabel(yPool[q[i]], crowdAcc, n, draws, i)
  {
  }
}

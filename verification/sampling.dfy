/** The query strategies of the screening pipeline and the selection of the initial
    training set: `random_sampling`, `objective_aware_sampling`, `mix_sampling` and
    `get_init_training_data_idx`, together with the two library helpers they rest on,
    sampling without replacement and `multi_argmax`. */
module Sampling {
  import opened Common

  /** `s` without its entry at position `i`. */
  function RemoveAt(s: seq<nat>, i: nat): (r: seq<nat>)
    requires i < |s|
    ensures |r| == |s| - 1
  {
    s[..i] + s[i + 1..]
  }

  /** `RemoveAt` invents no entry. */
  lemma RemoveAtSubset(s: seq<nat>, i: nat)
    requires i < |s|
    ensures forall x :: x in RemoveAt(s, i) ==> x in s
  {
  }

  /** Removing an entry keeps every index in range. */
  lemma RemoveAtInRange(s: seq<nat>, i: nat, n: nat)
    requires i < |s| && InRange(s, n)
    ensures InRange(RemoveAt(s, i), n)
  {
    var r := RemoveAt(s, i);
    assert forall j :: 0 <= j < |r| ==> r[j] == if j < i then s[j] else s[j + 1];
  }

  /** Without duplicates before, `RemoveAt` leaves none and drops the entry at `i` for good. */
  lemma RemoveAtDistinct(s: seq<nat>, i: nat)
    requires i < |s| && Distinct(s)
    ensures Distinct(RemoveAt(s, i)) && s[i] !in RemoveAt(s, i)
  {
    var r := RemoveAt(s, i);
    assert forall j :: 0 <= j < |r| ==> r[j] == if j < i then s[j] else s[j + 1];
  }

  /** Putting a new value in front of entries without duplicates keeps them without duplicates. */
  lemma ConsDistinct(x: nat, s: seq<nat>)
    requires x !in s && Distinct(s)
    ensures Distinct([x] + s)
  {
    var r := [x] + s;
    forall i, j | 0 <= i < j < |r|
      ensures r[i] != r[j]
    {
      assert r[j] == s[j - 1];
      if i > 0 {
        assert r[i] == s[i - 1];
      }
    }
  }

  /** Sampling `k` entries of `pop` without replacement, as `random.sample` and
      `np.random.choice(replace=False)` do. The random source is the input `pick`: at
      step `t` the entry at position `pick(t) mod (entries left)` is taken out. */
  function SampleFrom(pop: seq<nat>, k: nat, pick: nat -> nat, t: nat): (r: seq<nat>)
    requires k <= |pop|
    ensures |r| == k
    decreases k
  {
    if k == 0 then []
    else
      var i := pick(t) % |pop|;
      [pop[i]] + SampleFrom(RemoveAt(pop, i), k - 1, pick, t + 1)
  }

  /** Every sampled entry is an entry of the population. */
  lemma {:induction false} SampleSubset(pop: seq<nat>, k: nat, pick: nat -> nat, t: nat)
    requires k <= |pop|
    ensures forall j :: 0 <= j < k ==> SampleFrom(pop, k, pick, t)[j] in pop
  {
    if k > 0 {
      var i := pick(t) % |pop|;
      var rest := RemoveAt(pop, i);
      RemoveAtSubset(pop, i);
      SampleSubset(rest, k - 1, pick, t + 1);
      var tail := SampleFrom(rest, k - 1, pick, t + 1);
      var r := SampleFrom(pop, k, pick, t);
      assert r == [pop[i]] + tail;
      forall j | 0 <= j < k
        ensures r[j] in pop
      {
        if j > 0 {
          assert r[j] == tail[j - 1];
        }
      }
    }
  }

  /** Sampling without replacement from entries without duplicates yields no duplicates. */
  lemma {:induction false} SampleDistinct(pop: seq<nat>, k: nat, pick: nat -> nat, t: nat)
    requires k <= |pop| && Distinct(pop)
    ensures Distinct(SampleFrom(pop, k, pick, t))
  {
    if k > 0 {
      var i := pick(t) % |pop|;
      var rest := RemoveAt(pop, i);
      RemoveAtDistinct(pop, i);
      var tail := SampleFrom(rest, k - 1, pick, t + 1);
      SampleDistinct(rest, k - 1, pick, t + 1);
      SampleSubset(rest, k - 1, pick, t + 1);
      assert pop[i] !in tail;
      ConsDistinct(pop[i], tail);
      assert SampleFrom(pop, k, pick, t) == [pop[i]] + tail;
    }
  }

  /** `random_sampling(_, X, n_instances)`: `random.sample(range(N), n)` for a pool of `N`
      rows, then `X[query_idx]`. Asking for more rows than the pool holds is the ValueError
      of `random.sample`; asking for none gives `np.array([])`, a float array, and indexing
      `X` with it is an IndexError. */
  function RandomSampling(poolSize: nat, n: nat, pick: nat -> nat): (r: Result<seq<nat>>)
    ensures r.Ok? <==> 0 < n <= poolSize
    ensures n > poolSize ==> r == Err(SampleLargerThanPopulation)
    ensures n == 0 ==> r == Err(IndexOutOfRange)
    ensures r.Ok? ==> |r.value| == n && Distinct(r.value) && InRange(r.value, poolSize)
  {
    if n > poolSize then Err(SampleLargerThanPopulation)
    else if n == 0 then Err(IndexOutOfRange)
    else
      RangeMembers(poolSize);
      SampleDistinct(Range(poolSize), n, pick, 0);
      SampleSubset(Range(poolSize), n, pick, 0);
      Ok(SampleFrom(Range(poolSize), n, pick, 0))
  }

  /** The position in `cand` of the first largest value among the candidates. */
  function PickBest(v: seq<real>, cand: seq<nat>): (b: nat)
    requires |cand| > 0 && InRange(cand, |v|)
    ensures b < |cand|
    ensures forall j :: 0 <= j < |cand| ==> v[cand[j]] <= v[cand[b]]
  {
    var n := |cand| - 1;
    if n == 0 then 0
    else
      var b := PickBest(v, cand[..n]);
      if v[cand[n]] > v[cand[b]] then n else b
  }

  /** `n` candidates with the largest values, taken one largest value at a time. */
  function TopFrom(v: seq<real>, cand: seq<nat>, n: nat): (r: seq<nat>)
    requires n <= |cand| && InRange(cand, |v|)
    ensures |r| == n && InRange(r, |v|)
    decreases n
  {
    if n == 0 then []
    else
      var b := PickBest(v, cand);
      RemoveAtInRange(cand, b, |v|);
      [cand[b]] + TopFrom(v, RemoveAt(cand, b), n - 1)
  }

  /** Every choice is a candidate. */
  lemma {:induction false} TopFromSubset(v: seq<real>, cand: seq<nat>, n: nat)
    requires n <= |cand| && InRange(cand, |v|)
    ensures forall j :: 0 <= j < n ==> TopFrom(v, cand, n)[j] in cand
  {
    if n > 0 {
      var b := PickBest(v, cand);
      RemoveAtInRange(cand, b, |v|);
      RemoveAtSubset(cand, b);
      TopFromSubset(v, RemoveAt(cand, b), n - 1);
    }
  }

  /** The chosen candidates are distinct. */
  lemma {:induction false} TopFromDistinct(v: seq<real>, cand: seq<nat>, n: nat)
    requires n <= |cand| && InRange(cand, |v|) && Distinct(cand)
    ensures Distinct(TopFrom(v, cand, n))
  {
    if n > 0 {
      var b := PickBest(v, cand);
      var rest := RemoveAt(cand, b);
      RemoveAtInRange(cand, b, |v|);
      RemoveAtDistinct(cand, b);
      var tail := TopFrom(v, rest, n - 1);
      TopFromDistinct(v, rest, n - 1);
      TopFromSubset(v, rest, n - 1);
      assert cand[b] !in tail;
      ConsDistinct(cand[b], tail);
      assert TopFrom(v, cand, n) == [cand[b]] + tail;
    }
  }

  /** The first choice is the best candidate; the others are chosen from the rest. */
  lemma TopFromCons(v: seq<real>, cand: seq<nat>, n: nat)
    requires 0 < n <= |cand| && InRange(cand, |v|)
    ensures InRange(RemoveAt(cand, PickBest(v, cand)), |v|)
    ensures TopFrom(v, cand, n)[0] == cand[PickBest(v, cand)]
    ensures TopFrom(v, cand, n)[1..] == TopFrom(v, RemoveAt(cand, PickBest(v, cand)), n - 1)
  {
    RemoveAtInRange(cand, PickBest(v, cand), |v|);
  }

  /** None of the candidates left out has a larger value than any chosen one: candidate
      `cand[i]`, left out, is worth no more than the `a`-th choice. */
  lemma {:induction false} TopFromDominates(v: seq<real>, cand: seq<nat>, n: nat, a: nat, i: nat)
    requires n <= |cand| && InRange(cand, |v|)
    requires a < n && i < |cand| && cand[i] !in TopFrom(v, cand, n)
    ensures v[cand[i]] <= v[TopFrom(v, cand, n)[a]]
  {
    TopFromCons(v, cand, n);
    var b := PickBest(v, cand);
    var r := TopFrom(v, cand, n);
    if a == 0 {
      assert r[0] == cand[b];
      assert v[cand[i]] <= v[cand[b]];
    } else {
      var rest := RemoveAt(cand, b);
      var tail := TopFrom(v, rest, n - 1);
      assert tail == r[1..];
      assert i != b by {
        assert r[0] == cand[b];
      }
      var j := if i < b then i else i - 1;
      RemoveAtAt(cand, b, j);
      assert rest[j] == cand[i];
      assert cand[i] !in tail;
      assert r[a] == tail[a - 1];
      TopFromDominates(v, rest, n - 1, a - 1, j);
      assert v[rest[j]] <= v[tail[a - 1]];
    }
  }

  /** Entry `j` of `RemoveAt(s, b)` is entry `j` or `j + 1` of `s`. */
  lemma RemoveAtAt(s: seq<nat>, b: nat, j: nat)
    requires b < |s| && j < |s| - 1
    ensures RemoveAt(s, b)[j] == if j < b then s[j] else s[j + 1]
  {
  }

  /** `multi_argmax(values, n_instances)`: the positions of `n` largest values. It fails,
      as `np.argpartition` does, on an empty array or when more values are asked for than
      there are. Which of several equal values is chosen is left to this model. */
  function MultiArgmax(v: seq<real>, n: nat): (r: Result<seq<nat>>)
    ensures r.Ok? <==> 0 < |v| && n <= |v|
    ensures r.Ok? ==> |r.value| == n && InRange(r.value, |v|)
  {
    if |v| == 0 || n > |v| then Err(KthOutOfBounds)
    else
      RangeMembers(|v|);
      Ok(TopFrom(v, Range(|v|), n))
  }

  /** The chosen positions are distinct, and no position left out holds a larger value
      than a chosen one. */
  lemma MultiArgmaxTop(v: seq<real>, n: nat)
    requires 0 < |v| && n <= |v|
    ensures var r := MultiArgmax(v, n).value;
      && Distinct(r)
      && forall a, i :: 0 <= a < n && 0 <= i < |v| && i !in r ==> v[i] <= v[r[a]]
  {
    RangeMembers(|v|);
    TopFromDistinct(v, Range(|v|), n);
    var r := MultiArgmax(v, n).value;
    forall a, i | 0 <= a < n && 0 <= i < |v| && i !in r
      ensures v[i] <= v[r[a]]
    {
      TopFromDominates(v, Range(|v|), n, a, i);
    }
  }

  /** `classifier_uncertainty` for two classes: one minus the larger class probability. */
  function Uncertainty(p: Prob): (u: real)
    ensures 0.0 <= u <= 0.5
    ensures u <= p && u <= 1.0 - p && (u == p || u == 1.0 - p)
  {
    1.0 - (if p >= 1.0 - p then p else 1.0 - p)
  }

  /** The uncertainty of the classifier `c` on every row. */
  function Uncertainties(c: Classifier, xs: seq<Features>): (r: seq<real>)
    ensures |r| == |xs| && forall i :: 0 <= i < |xs| ==> r[i] == Uncertainty(c(xs[i]))
  {
    seq(|xs|, i requires 0 <= i < |xs| => Uncertainty(c(xs[i])))
  }

  /** The weight `objective_aware_sampling` gives a row: its uncertainty under `c`
      times the product of the other learners' include-probabilities. */
  function ObjectiveWeight(c: Classifier, others: seq<Classifier>, x: Features): real
  {
    Product(Apply(others, x)) * Uncertainty(c(x))
  }

  function ObjectiveWeights(c: Classifier, others: seq<Classifier>, xs: seq<Features>): (r: seq<real>)
    ensures |r| == |xs| && forall i :: 0 <= i < |xs| ==> r[i] == ObjectiveWeight(c, others, xs[i])
  {
    seq(|xs|, i requires 0 <= i < |xs| => ObjectiveWeight(c, others, xs[i]))
  }

  /** `objective_aware_sampling(classifier, X, learners_, n_instances)`. */
  function ObjectiveAwareSampling(c: Classifier, others: seq<Classifier>, xs: seq<Features>, n: nat): (r: Result<seq<nat>>)
    ensures r.Ok? <==> 0 < |xs| && n <= |xs|
    ensures r.Ok? ==> |r.value| == n && Distinct(r.value) && InRange(r.value, |xs|)
  {
    var r := MultiArgmax(ObjectiveWeights(c, others, xs), n);
    if r.Ok? then
      MultiArgmaxTop(ObjectiveWeights(c, others, xs), n);
      r
    else r
  }

  /** With no other learners the weights are the plain uncertainties. */
  lemma WeightsWithoutOthers(c: Classifier, xs: seq<Features>)
    ensures ObjectiveWeights(c, [], xs) == Uncertainties(c, xs)
  {
    forall i | 0 <= i < |xs|
      ensures ObjectiveWeight(c, [], xs[i]) == Uncertainty(c(xs[i]))
    {
      assert Apply([], xs[i]) == [];
    }
  }

  /** A weight is never above the row's uncertainty, and never negative. */
  lemma WeightAtMostUncertainty(c: Classifier, others: seq<Classifier>, x: Features)
    ensures 0.0 <= ObjectiveWeight(c, others, x) <= Uncertainty(c(x))
  {
    var p: real := Product(Apply(others, x));
    var u: real := Uncertainty(c(x));
    ScaledBelow(p, u, ObjectiveWeight(c, others, x));
  }

  /** A non-negative value scaled by a probability stays between zero and itself. */
  lemma ScaledBelow(p: real, u: real, w: real)
    requires 0.0 <= p <= 1.0 && 0.0 <= u && w == p * u
    ensures 0.0 <= w <= u
  {
    assert u - w == (1.0 - p) * u;
  }

  /** The draw of `np.random.binomial(1, 0.5)` that chooses `mix_sampling`'s branch: the
      random branch is taken when the coin falls below one half. */
  predicate Explores(coin: UnitDraw)
  {
    coin < 0.5
  }

  /** `mix_sampling(classifier, X, learners_, n_instances)`: with the coin, either a
      random sample of `range(0, N - 1)` or the objective-aware choice. The random branch
      can serve `n` rows only from a pool of more than `n` rows, and, as in
      `random_sampling`, an empty sample is a float array that cannot index `X`. */
  function MixSampling(c: Classifier, others: seq<Classifier>, xs: seq<Features>, n: nat,
                       coin: UnitDraw, pick: nat -> nat): (r: Result<seq<nat>>)
    ensures Explores(coin) ==> (r.Ok? <==> 0 < n < |xs|)
    ensures Explores(coin) && n == 0 ==> r == Err(IndexOutOfRange)
    ensures !Explores(coin) ==> (r.Ok? <==> 0 < |xs| && n <= |xs|)
    ensures r.Ok? ==> |r.value| == n && Distinct(r.value) && InRange(r.value, |xs|)
  {
    if Explores(coin) then
      var population := if |xs| == 0 then 0 else |xs| - 1;
      if n > population then Err(SampleLargerThanPopulation)
      else if n == 0 then Err(IndexOutOfRange)
      else
        RangeMembers(population);
        SampleDistinct(Range(population), n, pick, 0);
        SampleSubset(Range(population), n, pick, 0);
        Ok(SampleFrom(Range(population), n, pick, 0))
    else
      ObjectiveAwareSampling(c, others, xs, n)
  }

  /** The random branch of `mix_sampling` returns distinct rows and never the last row
      of the pool. */
  lemma MixRandomBranchSkipsLastRow(c: Classifier, others: seq<Classifier>, xs: seq<Features>, n: nat,
                                    coin: UnitDraw, pick: nat -> nat)
    requires Explores(coin)
    ensures var r := MixSampling(c, others, xs, n, coin, pick);
      r.Ok? ==> Distinct(r.value) && forall x :: x in r.value ==> x + 1 < |xs|
  {
    var population := if |xs| == 0 then 0 else |xs| - 1;
    RangeMembers(population);
    if n <= population {
      SampleDistinct(Range(population), n, pick, 0);
      SampleSubset(Range(population), n, pick, 0);
    }
  }

  /** Asking the random branch of `mix_sampling` for the whole pool fails, although
      `random_sampling` can return it. */
  lemma MixRandomBranchCannotTakeWholePool(c: Classifier, others: seq<Classifier>, xs: seq<Features>,
                                           coin: UnitDraw, pick: nat -> nat)
    requires Explores(coin) && |xs| > 0
    ensures MixSampling(c, others, xs, |xs|, coin, pick) == Err(SampleLargerThanPopulation)
    ensures RandomSampling(|xs|, |xs|, pick).Ok?
  {
  }

  /** An empty request fails on the random paths, whose empty sample is a float array, but
      not in `objective_aware_sampling`, whose `multi_argmax` yields an empty integer array. */
  lemma EmptyRequestFailsOnlyWhenRandom(c: Classifier, others: seq<Classifier>, xs: seq<Features>,
                                        coin: UnitDraw, pick: nat -> nat)
    requires |xs| > 0
    ensures RandomSampling(|xs|, 0, pick) == Err(IndexOutOfRange)
    ensures Explores(coin) ==> MixSampling(c, others, xs, 0, coin, pick) == Err(IndexOutOfRange)
    ensures ObjectiveAwareSampling(c, others, xs, 0) == Ok([])
  {
  }

  /** The other branch of `mix_sampling` is `objective_aware_sampling`. */
  lemma MixExploitBranch(c: Classifier, others: seq<Classifier>, xs: seq<Features>, n: nat,
                         coin: UnitDraw, pick: nat -> nat)
    requires !Explores(coin)
    ensures MixSampling(c, others, xs, n, coin, pick) == ObjectiveAwareSampling(c, others, xs, n)
  {
  }

  /** The sum of the predicate labels of item `i`, over all predicate columns. */
  function LabelSum(columns: seq<seq<Label>>, i: nat): nat
    requires forall c :: 0 <= c < |columns| ==> i < |columns[c]|
  {
    if columns == [] then 0
    else LabelSum(columns[..|columns| - 1], i) + columns[|columns| - 1][i]
  }

  /** The sum is zero exactly when every predicate label of the item is zero. */
  lemma {:induction false} LabelSumZeroIffAllZero(columns: seq<seq<Label>>, i: nat)
    requires forall c :: 0 <= c < |columns| ==> i < |columns[c]|
    ensures LabelSum(columns, i) == 0 <==> forall c :: 0 <= c < |columns| ==> columns[c][i] == 0
  {
    if columns != [] {
      var n := |columns| - 1;
      LabelSumZeroIffAllZero(columns[..n], i);
      assert forall c :: 0 <= c < n ==> columns[..n][c] == columns[c];
    }
  }

  /** The mask `y_screening == 1`. */
  function PositiveMask(yScreening: seq<Label>): (m: seq<bool>)
    ensures |m| == |yScreening| && forall i :: 0 <= i < |m| ==> (m[i] <==> yScreening[i] == 1)
  {
    seq(|yScreening|, i requires 0 <= i < |yScreening| => yScreening[i] == 1)
  }

  /** The mask "every predicate label is 0", over `n` items. */
  function AllNegativeMask(columns: seq<seq<Label>>, n: nat): (m: seq<bool>)
    requires forall c :: 0 <= c < |columns| ==> |columns[c]| == n
    ensures |m| == n && forall i :: 0 <= i < n ==> (m[i] <==> LabelSum(columns, i) == 0)
  {
    seq(n, i requires 0 <= i < n => LabelSum(columns, i) == 0)
  }

  /** `get_init_training_data_idx(y_screening, y_predicate_train, init_train_size)`:
      `init_train_size // 2` positives sampled without replacement, followed by as many
      items negative on every predicate. `pickPos` and `pickNeg` are the two samplings'
      random sources. Without predicate columns `sum([]) == 0` is the plain bool `True`,
      which has no `nonzero`; that AttributeError comes before either sampling. */
  function InitTrainingDataIdx(yScreening: seq<Label>, columns: seq<seq<Label>>, initTrainSize: nat,
                               pickPos: nat -> nat, pickNeg: nat -> nat): (r: Result<seq<nat>>)
    requires forall c :: 0 <= c < |columns| ==> |columns[c]| == |yScreening|
    ensures |columns| == 0 ==> r == Err(NoNonzeroAttribute)
    ensures r.Ok? <==> (0 < |columns|
                        && initTrainSize / 2 <= Trues(PositiveMask(yScreening))
                        && initTrainSize / 2 <= Trues(AllNegativeMask(columns, |yScreening|)))
    ensures r.Ok? ==> |r.value| == initTrainSize / 2 * 2
  {
    var n := |yScreening|;
    var half := initTrainSize / 2;
    var pos := Compress(Range(n), PositiveMask(yScreening));
    var neg := Compress(Range(n), AllNegativeMask(columns, n));
    if |columns| == 0 then Err(NoNonzeroAttribute)
    else if half > |pos| || half > |neg| then Err(SampleLargerThanPopulation)
    else Ok(SampleFrom(pos, half, pickPos, 0) + SampleFrom(neg, half, pickNeg, 0))
  }

  /** Sampling from the positions a mask keeps gives distinct positions whose mask entry
      is true. */
  lemma SampleKept(mask: seq<bool>, k: nat, pick: nat -> nat)
    requires k <= Trues(mask)
    ensures var r := SampleFrom(Compress(Range(|mask|), mask), k, pick, 0);
      Distinct(r) && forall j :: 0 <= j < |r| ==> r[j] < |mask| && mask[r[j]]
  {
    KeptPositions(mask);
    var p := Compress(Range(|mask|), mask);
    assert forall i, j :: 0 <= i < j < |p| ==> p[i] < p[j];
    SampleDistinct(p, k, pick, 0);
    SampleSubset(p, k, pick, 0);
  }

  /** The first half of the initial training set holds distinct positives, the second half
      distinct items whose predicate labels are all 0. */
  lemma InitTrainingDataIdxHalves(yScreening: seq<Label>, columns: seq<seq<Label>>, initTrainSize: nat,
                                  pickPos: nat -> nat, pickNeg: nat -> nat)
    requires forall c :: 0 <= c < |columns| ==> |columns[c]| == |yScreening|
    ensures var half := initTrainSize / 2;
      var r := InitTrainingDataIdx(yScreening, columns, initTrainSize, pickPos, pickNeg);
      r.Ok? ==>
        && Distinct(r.value[..half]) && Distinct(r.value[half..])
        && (forall a :: 0 <= a < half ==> r.value[a] < |yScreening| && yScreening[r.value[a]] == 1)
        && (forall a :: half <= a < |r.value| ==>
              r.value[a] < |yScreening| && forall c :: 0 <= c < |columns| ==> columns[c][r.value[a]] == 0)
  {
    var n := |yScreening|;
    var half := initTrainSize / 2;
    var r := InitTrainingDataIdx(yScreening, columns, initTrainSize, pickPos, pickNeg);
    if r.Ok? {
      var posMask, negMask := PositiveMask(yScreening), AllNegativeMask(columns, n);
      SampleKept(posMask, half, pickPos);
      SampleKept(negMask, half, pickNeg);
      var first := SampleFrom(Compress(Range(n), posMask), half, pickPos, 0);
      var second := SampleFrom(Compress(Range(n), negMask), half, pickNeg, 0);
      assert r.value == first + second;
      assert r.value[..half] == first && r.value[half..] == second;
      forall a | half <= a < |r.value|
        ensures r.value[a] < n && forall c :: 0 <= c < |columns| ==> columns[c][r.value[a]] == 0
      {
        assert r.value[a] == second[a - half];
        LabelSumZeroIffAllZero(columns, r.value[a]);
      }
    }
  }

  /** Two sequences without duplicates and without a common entry concatenate to one
      without duplicates. */
  lemma AppendDistinct(s: seq<nat>, t: seq<nat>)
    requires Distinct(s) && Distinct(t)
    requires forall i, j :: 0 <= i < |s| && 0 <= j < |t| ==> s[i] != t[j]
    ensures Distinct(s + t)
  {
  }

  /** When every positive item is positive on some predicate (as a conjunctive screening
      rule guarantees), the two halves of the initial training set share no item. */
  lemma InitTrainingDataIdxDisjoint(yScreening: seq<Label>, columns: seq<seq<Label>>, initTrainSize: nat,
                                    pickPos: nat -> nat, pickNeg: nat -> nat)
    requires forall c :: 0 <= c < |columns| ==> |columns[c]| == |yScreening|
    requires forall i :: 0 <= i < |yScreening| && yScreening[i] == 1 ==>
      exists c :: 0 <= c < |columns| && columns[c][i] == 1
    ensures var r := InitTrainingDataIdx(yScreening, columns, initTrainSize, pickPos, pickNeg);
      r.Ok? ==> Distinct(r.value)
  {
    var half := initTrainSize / 2;
    var r := InitTrainingDataIdx(yScreening, columns, initTrainSize, pickPos, pickNeg);
    if r.Ok? {
      InitTrainingDataIdxHalves(yScreening, columns, initTrainSize, pickPos, pickNeg);
      var first, second := r.value[..half], r.value[half..];
      forall i, j | 0 <= i < |first| && 0 <= j < |second|
        ensures first[i] != second[j]
      {
        assert first[i] == r.value[i] && second[j] == r.value[half + j];
        var c :| 0 <= c < |columns| && columns[c][first[i]] == 1;
      }
      AppendDistinct(first, second);
      assert r.value == first + second;
    }
  }
}

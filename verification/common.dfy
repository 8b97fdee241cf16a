/** Shared vocabulary of the screening model: labels, probabilities, classifiers,
    the error results the pipeline can raise, and the numpy-style sequence
    operations (boolean-mask compression, fancy indexing, deletion) that the
    learners use on their pool and training arrays. */
module Common {

  /** A binary label: 1 is "include" (positive), 0 is "exclude". */
  type Label = x: int | 0 <= x <= 1

  /** A probability. */
  type Prob = r: real | 0.0 <= r <= 1.0

  /** A value of a uniform draw in [0, 1), as produced by `random.random()`. */
  type UnitDraw = r: real | 0.0 <= r < 1.0

  /** A feature vector of one item (the TF-IDF row is external). */
  type Features = seq<real>

  /** A fitted classifier, seen only through the probability of "include" it gives an item. */
  type Classifier = Features -> Prob

  /** The external training algorithm: fits a classifier on a training set. */
  type Trainer = (seq<Features>, seq<Label>) -> Classifier

  /** The exceptions the modelled code raises. */
  datatype Error =
    | SampleLargerThanPopulation   // ValueError from random.sample / np.random.choice
    | KthOutOfBounds               // ValueError from np.argpartition inside multi_argmax
    | ZeroDivision                 // ZeroDivisionError
    | UnsupportedPredicateCount    // ValueError raised by select_predicate
    | MissingLearnersArgument      // TypeError: a strategy called without its learners_ argument
    | IndexOutOfRange              // IndexError from fancy indexing (also by an empty float array) or np.delete
    | UnknownPredicate             // KeyError from a dictionary keyed by predicate
    | NoNonzeroAttribute           // AttributeError: `.nonzero()` on the plain bool a sum of no arrays gives

  datatype Result<T> = Ok(value: T) | Err(error: Error)

  /** No value occurs twice. */
  predicate Distinct<T(==)>(s: seq<T>)
  {
    forall i, j :: 0 <= i < j < |s| ==> s[i] != s[j]
  }

  predicate StrictlyIncreasing(s: seq<nat>)
  {
    forall i, j :: 0 <= i < j < |s| ==> s[i] < s[j]
  }

  /** Every index of `idx` addresses an element of a sequence of length `n`. */
  predicate InRange(idx: seq<nat>, n: nat)
  {
    forall i :: 0 <= i < |idx| ==> idx[i] < n
  }

  /** `range(n)` (and `np.arange(n)`). */
  function Range(n: nat): (r: seq<nat>)
    ensures |r| == n && forall i :: 0 <= i < n ==> r[i] == i
  {
    seq(n, i requires 0 <= i < n => i)
  }

  /** `range(n)` holds exactly the numbers below `n`, each once. */
  lemma RangeMembers(n: nat)
    ensures Distinct(Range(n)) && InRange(Range(n), n)
    ensures forall i: nat :: i < n ==> i in Range(n)
  {
    forall i: nat | i < n
      ensures i in Range(n)
    {
      assert Range(n)[i] == i;
    }
  }

  /** Number of entries equal to 1 (`list.count(1)`, and `sum` of a 0/1 array). */
  function CountOnes(s: seq<Label>): (c: nat)
    ensures c <= |s|
  {
    if s == [] then 0 else CountOnes(s[..|s| - 1]) + (if s[|s| - 1] == 1 then 1 else 0)
  }

  /** Fancy indexing `s[idx]`. */
  function Select<T>(s: seq<T>, idx: seq<nat>): (r: seq<T>)
    requires InRange(idx, |s|)
    ensures |r| == |idx|
  {
    seq(|idx|, j requires 0 <= j < |idx| => s[idx[j]])
  }

  /** Number of `true` entries of a mask. */
  function Trues(keep: seq<bool>): (c: nat)
    ensures c <= |keep|
  {
    if keep == [] then 0 else Trues(keep[..|keep| - 1]) + (if keep[|keep| - 1] then 1 else 0)
  }

  /** `s[keep.nonzero()[0]]`: the entries of `s` whose mask entry is true, in order. */
  function Compress<T>(s: seq<T>, keep: seq<bool>): (r: seq<T>)
    requires |keep| == |s|
    ensures |r| == Trues(keep)
  {
    if s == [] then []
    else
      var n := |s| - 1;
      assert keep == keep[..n] + [keep[n]];
      var rest := Compress(s[..n], keep[..n]);
      if keep[n] then rest + [s[n]] else rest
  }

  /** The mask of positions of a length-`n` array that `np.delete(_, removed)` keeps. */
  function KeepMask(n: nat, removed: set<nat>): (r: seq<bool>)
    ensures |r| == n && forall i :: 0 <= i < n ==> (r[i] <==> i !in removed)
  {
    seq(n, i requires 0 <= i < n => i !in removed)
  }

  /** `np.delete(s, removed, axis=0)`. */
  function Delete<T>(s: seq<T>, removed: set<nat>): seq<T>
  {
    Compress(s, KeepMask(|s|, removed))
  }

  /** The product of probabilities (an empty product is 1). */
  function Product(s: seq<Prob>): Prob
  {
    if s == [] then 1.0
    else
      var rest: real := Product(s[..|s| - 1]);
      var last: real := s[|s| - 1];
      MulProb(rest, last);
      rest * last
  }

  /** Multiplying two probabilities gives a probability no larger than either. */
  lemma MulProb(a: real, b: real)
    requires 0.0 <= a <= 1.0 && 0.0 <= b <= 1.0
    ensures 0.0 <= a * b <= a && a * b <= b
  {
  }

  /** The include-probabilities the classifiers `cs` give item `x`, in order. */
  function Apply(cs: seq<Classifier>, x: Features): (r: seq<Prob>)
    ensures |r| == |cs| && forall k :: 0 <= k < |cs| ==> r[k] == cs[k](x)
  {
    if cs == [] then [] else Apply(cs[..|cs| - 1], x) + [cs[|cs| - 1](x)]
  }

  /** The rows of two paired arrays, side by side. */
  function Zip<A, B>(a: seq<A>, b: seq<B>): (r: seq<(A, B)>)
    requires |a| == |b|
    ensures |r| == |a|
  {
    seq(|a|, i requires 0 <= i < |a| => (a[i], b[i]))
  }

  /** An entry of the compressed sequence is an entry of `s` at a kept position, and conversely. */
  lemma {:induction false} CompressMembership<T>(s: seq<T>, keep: seq<bool>, x: T)
    requires |keep| == |s|
    ensures x in Compress(s, keep) <==> exists j :: 0 <= j < |s| && keep[j] && s[j] == x
  {
    if s != [] {
      var n := |s| - 1;
      CompressMembership(s[..n], keep[..n], x);
      if x in Compress(s[..n], keep[..n]) {
        var j :| 0 <= j < n && keep[..n][j] && s[..n][j] == x;
        assert keep[j] && s[j] == x;
      }
      if exists j :: 0 <= j < |s| && keep[j] && s[j] == x {
        var j :| 0 <= j < |s| && keep[j] && s[j] == x;
        if j < n {
          assert keep[..n][j] && s[..n][j] == x;
        }
      }
    }
  }

  /** The kept and the dropped entries together are a permutation of `s`. */
  lemma {:induction false} CompressPartition<T>(s: seq<T>, keep: seq<bool>, drop: seq<bool>)
    requires |keep| == |s| == |drop|
    requires forall i :: 0 <= i < |s| ==> drop[i] == !keep[i]
    ensures multiset(Compress(s, keep)) + multiset(Compress(s, drop)) == multiset(s)
  {
    if s != [] {
      var n := |s| - 1;
      CompressPartition(s[..n], keep[..n], drop[..n]);
      var kept, dropped := Compress(s[..n], keep[..n]), Compress(s[..n], drop[..n]);
      if keep[n] {
        assert Compress(s, keep) == kept + [s[n]] && Compress(s, drop) == dropped;
      } else {
        assert Compress(s, keep) == kept && Compress(s, drop) == dropped + [s[n]];
      }
      assert s == s[..n] + [s[n]];
    }
  }

  /** Compressing two paired arrays with one mask keeps the pairs together. */
  lemma {:induction false} CompressZip<A, B>(a: seq<A>, b: seq<B>, keep: seq<bool>)
    requires |a| == |b| == |keep|
    ensures Compress(Zip(a, b), keep) == Zip(Compress(a, keep), Compress(b, keep))
  {
    if a != [] {
      var n := |a| - 1;
      assert Zip(a, b)[..n] == Zip(a[..n], b[..n]);
      CompressZip(a[..n], b[..n], keep[..n]);
    }
  }

  /** The positions of `range(n)` a mask keeps (`mask.nonzero()[0]`): exactly the
      positions whose entry is true, in increasing order. */
  lemma {:induction false} KeptPositions(keep: seq<bool>)
    ensures var p := Compress(Range(|keep|), keep);
      && InRange(p, |keep|) && StrictlyIncreasing(p)
      && forall i: nat :: i in p <==> i < |keep| && keep[i]
  {
    if keep != [] {
      var n := |keep| - 1;
      assert Range(|keep|)[..n] == Range(n);
      KeptPositions(keep[..n]);
      var pos := Compress(Range(n), keep[..n]);
      assert forall i :: 0 <= i < |pos| ==> pos[i] in pos;
      if keep[n] {
        assert Compress(Range(|keep|), keep) == pos + [n];
      } else {
        assert Compress(Range(|keep|), keep) == pos;
      }
    }
  }

  /** Compression is selection at the kept positions, so survivors keep their relative order. */
  lemma {:induction false} CompressSelect<T>(s: seq<T>, keep: seq<bool>)
    requires |keep| == |s|
    ensures InRange(Compress(Range(|s|), keep), |s|)
    ensures Compress(s, keep) == Select(s, Compress(Range(|s|), keep))
  {
    KeptPositions(keep);
    if s != [] {
      var n := |s| - 1;
      assert Range(|s|)[..n] == Range(n);
      CompressSelect(s[..n], keep[..n]);
      var pos := Compress(Range(n), keep[..n]);
      if keep[n] {
        assert Compress(Range(|s|), keep) == pos + [n];
        SelectSnoc(s, pos, n);
      } else {
        assert Compress(Range(|s|), keep) == pos;
        SelectPrefix(s, pos, n);
      }
    }
  }

  lemma SelectPrefix<T>(s: seq<T>, pos: seq<nat>, n: nat)
    requires InRange(pos, n) && n <= |s|
    ensures Select(s, pos) == Select(s[..n], pos)
  {
    assert forall i :: 0 <= i < |pos| ==> pos[i] in pos;
  }

  lemma SelectSnoc<T>(s: seq<T>, pos: seq<nat>, n: nat)
    requires InRange(pos, n) && n < |s|
    ensures InRange(pos + [n], |s|)
    ensures Select(s, pos + [n]) == Select(s[..n], pos) + [s[n]]
  {
    SelectPrefix(s, pos, n);
    assert forall i :: 0 <= i < |pos| ==> (pos + [n])[i] == pos[i];
  }

  /** `np.delete(s, removed)` removes exactly the positions in `removed` and keeps the
      survivors in their original relative order. */
  lemma DeleteExactly<T>(s: seq<T>, removed: set<nat>)
    ensures var pos := Compress(Range(|s|), KeepMask(|s|, removed));
      && InRange(pos, |s|)
      && StrictlyIncreasing(pos)
      && Delete(s, removed) == Select(s, pos)
      && forall i: nat :: i < |s| ==> (i in pos <==> i !in removed)
  {
    var keep := KeepMask(|s|, removed);
    KeptPositions(keep);
    CompressSelect(s, keep);
  }

  /** Appending a factor multiplies the product by it. */
  lemma {:induction false} ProductAppend(s: seq<Prob>, p: Prob)
    ensures Product(s + [p]) == Product(s) * p
  {
    assert (s + [p])[..|s|] == s;
  }
}

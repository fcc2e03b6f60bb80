/**
  The evaluation of `utils/cross_validation.py` (`validate_model`, the current
  version below the quoted older one).

  The forward pass is outside the model: its outcome is the sequence of
  `(true label, predicted label)` pairs over the validation set, batches laid
  end to end. From it the function counts `correct` and `total`, fills a
  10 by 10 confusion matrix one cell per pair, derives the accuracy, the
  per-class recall (NaN for a class with no samples) and, only when class 0
  has samples, the rate at which class 0 is predicted as class 7. It returns
  the accuracy alone.
 */
module CrossValidation {
  import opened Outcomes

  /** Both supported datasets have ten classes. */
  const NumClasses: nat := 10

  /** A class index. True labels come from the corpus and predictions from an arg-max over ten outputs. */
  type Class = c: int | 0 <= c < NumClasses

  /** The class whose misclassification the attack metric watches. */
  const SourceClass: Class := 0
  /** The class the attack wants the source class predicted as. */
  const TargetClass: Class := 7

  /** One validation sample: its true label and the model's prediction. */
  datatype Pair = Pair(truth: Class, predicted: Class)

  /** A confusion matrix: row = true label, column = predicted label. */
  type Matrix = seq<seq<nat>>

  predicate IsSquare(m: Matrix) {
    |m| == NumClasses && forall i :: 0 <= i < |m| ==> |m[i]| == NumClasses
  }

  // ---------------------------------------------------------------------------
  // Counting directly over the pairs (the reference the matrix is checked against)

  /** Number of pairs whose true label is `i` and prediction is `j`. */
  function Count(pairs: seq<Pair>, i: Class, j: Class): nat {
    if |pairs| == 0 then 0
    else
      var last := pairs[|pairs| - 1];
      Count(pairs[..|pairs| - 1], i, j) + (if last.truth == i && last.predicted == j then 1 else 0)
  }

  /** Number of pairs whose true label is `i`. */
  function LabelCount(pairs: seq<Pair>, i: Class): nat {
    if |pairs| == 0 then 0
    else
      var last := pairs[|pairs| - 1];
      LabelCount(pairs[..|pairs| - 1], i) + (if last.truth == i then 1 else 0)
  }

  /** Number of pairs predicted correctly: `(predicted == y).sum()` over all batches. */
  function Matches(pairs: seq<Pair>): nat {
    if |pairs| == 0 then 0
    else
      var last := pairs[|pairs| - 1];
      Matches(pairs[..|pairs| - 1]) + (if last.truth == last.predicted then 1 else 0)
  }

  // ---------------------------------------------------------------------------
  // Sums over the matrix

  function Sum(xs: seq<nat>): nat {
    if |xs| == 0 then 0 else Sum(xs[..|xs| - 1]) + xs[|xs| - 1]
  }

  /** Sum of all entries. */
  function Total(m: Matrix): nat {
    if |m| == 0 then 0 else Total(m[..|m| - 1]) + Sum(m[|m| - 1])
  }

  /** Sum of the first `k` diagonal entries. */
  function TraceUpTo(m: Matrix, k: nat): nat
    requires IsSquare(m) && k <= NumClasses
  {
    if k == 0 then 0 else TraceUpTo(m, k - 1) + m[k - 1][k - 1]
  }

  function Trace(m: Matrix): nat
    requires IsSquare(m)
  {
    TraceUpTo(m, NumClasses)
  }

  lemma {:induction false} SumUpdate(xs: seq<nat>, j: nat, v: nat)
    requires j < |xs|
    ensures Sum(xs[j := v]) + xs[j] == Sum(xs) + v
    decreases |xs|
  {
    var n := |xs| - 1;
    assert xs[j := v][..n] == if j < n then xs[..n][j := v] else xs[..n];
    if j < n {
      SumUpdate(xs[..n], j, v);
    }
  }

  lemma {:induction false} ElementAtMostSum(xs: seq<nat>, j: nat)
    requires j < |xs|
    ensures xs[j] <= Sum(xs)
    decreases |xs|
  {
    if j < |xs| - 1 {
      ElementAtMostSum(xs[..|xs| - 1], j);
    }
  }

  lemma {:induction false} TotalUpdate(m: Matrix, i: nat, row: seq<nat>)
    requires i < |m|
    ensures Total(m[i := row]) + Sum(m[i]) == Total(m) + Sum(row)
    decreases |m|
  {
    var n := |m| - 1;
    assert m[i := row][..n] == if i < n then m[..n][i := row] else m[..n];
    if i < n {
      TotalUpdate(m[..n], i, row);
    }
  }

  /** Replacing row `i` changes the trace only through the diagonal entry of that row. */
  lemma {:induction false} TraceUpToUpdate(m: Matrix, i: nat, row: seq<nat>, k: nat)
    requires IsSquare(m) && i < NumClasses && |row| == NumClasses && k <= NumClasses
    ensures IsSquare(m[i := row])
    ensures TraceUpTo(m[i := row], k) + (if i < k then m[i][i] else 0)
         == TraceUpTo(m, k) + (if i < k then row[i] else 0)
    decreases k
  {
    if k > 0 {
      TraceUpToUpdate(m, i, row, k - 1);
    }
  }

  // ---------------------------------------------------------------------------
  // Building the matrix

  function ZeroMatrix(): (m: Matrix)
    ensures IsSquare(m)
    ensures forall i, j :: 0 <= i < NumClasses && 0 <= j < NumClasses ==> m[i][j] == 0
  {
    seq(NumClasses, _ => seq(NumClasses, _ => 0))
  }

  /** `confusion[i, j] += 1` */
  function Increment(m: Matrix, i: Class, j: Class): Matrix
    requires IsSquare(m)
  {
    m[i := m[i][j := m[i][j] + 1]]
  }

  /**
    The confusion matrix after the pairs have been visited in order, starting
    from all zeros: each cell counts the pairs that land in it.
   */
  function Confusion(pairs: seq<Pair>): (m: Matrix)
    ensures IsSquare(m)
    ensures forall i: Class, j: Class :: m[i][j] == Count(pairs, i, j)
  {
    if |pairs| == 0 then ZeroMatrix()
    else
      var last := pairs[|pairs| - 1];
      Increment(Confusion(pairs[..|pairs| - 1]), last.truth, last.predicted)
  }

  lemma {:induction false} SumOfZeros(xs: seq<nat>)
    requires forall j :: 0 <= j < |xs| ==> xs[j] == 0
    ensures Sum(xs) == 0
    decreases |xs|
  {
    if |xs| > 0 {
      SumOfZeros(xs[..|xs| - 1]);
    }
  }

  lemma {:induction false} ZeroMatrixSums(k: nat)
    requires k <= NumClasses
    ensures Total(ZeroMatrix()[..k]) == 0
    ensures TraceUpTo(ZeroMatrix(), k) == 0
    ensures forall i :: 0 <= i < NumClasses ==> Sum(ZeroMatrix()[i]) == 0
  {
    forall i | 0 <= i < NumClasses ensures Sum(ZeroMatrix()[i]) == 0 {
      SumOfZeros(ZeroMatrix()[i]);
    }
    if k > 0 {
      ZeroMatrixSums(k - 1);
      assert ZeroMatrix()[..k][..k - 1] == ZeroMatrix()[..k - 1];
    }
  }

  /** The entries add up to the number of pairs processed. */
  lemma {:induction false} ConfusionTotal(pairs: seq<Pair>)
    ensures Total(Confusion(pairs)) == |pairs|
  {
    if |pairs| == 0 {
      ZeroMatrixSums(NumClasses);
      assert ZeroMatrix()[..NumClasses] == ZeroMatrix();
    } else {
      var prev := pairs[..|pairs| - 1];
      var last := pairs[|pairs| - 1];
      var m := Confusion(prev);
      var row := m[last.truth][last.predicted := m[last.truth][last.predicted] + 1];
      assert Confusion(pairs) == m[last.truth := row];
      ConfusionTotal(prev);
      SumUpdate(m[last.truth], last.predicted, m[last.truth][last.predicted] + 1);
      TotalUpdate(m, last.truth, row);
    }
  }

  /** The diagonal adds up to the number of correct predictions. */
  lemma {:induction false} ConfusionTrace(pairs: seq<Pair>)
    ensures Trace(Confusion(pairs)) == Matches(pairs)
  {
    if |pairs| == 0 {
      ZeroMatrixSums(NumClasses);
    } else {
      var prev := pairs[..|pairs| - 1];
      var last := pairs[|pairs| - 1];
      var m := Confusion(prev);
      var row := m[last.truth][last.predicted := m[last.truth][last.predicted] + 1];
      assert Confusion(pairs) == m[last.truth := row];
      ConfusionTrace(prev);
      TraceUpToUpdate(m, last.truth, row, NumClasses);
      assert row[last.truth] == m[last.truth][last.truth] + (if last.truth == last.predicted then 1 else 0);
    }
  }

  /** Row `i` adds up to the number of samples whose true label is `i`. */
  lemma {:induction false} ConfusionRowSum(pairs: seq<Pair>, i: Class)
    ensures Sum(Confusion(pairs)[i]) == LabelCount(pairs, i)
  {
    if |pairs| == 0 {
      ZeroMatrixSums(0);
    } else {
      var prev := pairs[..|pairs| - 1];
      var last := pairs[|pairs| - 1];
      var m := Confusion(prev);
      var row := m[last.truth][last.predicted := m[last.truth][last.predicted] + 1];
      assert Confusion(pairs) == m[last.truth := row];
      ConfusionRowSum(prev, i);
      SumUpdate(m[last.truth], last.predicted, m[last.truth][last.predicted] + 1);
    }
  }

  // ---------------------------------------------------------------------------
  // Derived metrics

  /**
    `np.diag(confusion) / np.sum(confusion, axis=1)`: the fraction of each
    class predicted as itself, `None` where numpy divides 0 by 0 and yields NaN.
   */
  function PerClassRecall(m: Matrix): (r: seq<Option<real>>)
    requires IsSquare(m)
    ensures |r| == NumClasses
    ensures forall i :: 0 <= i < NumClasses ==> (r[i].None? <==> Sum(m[i]) == 0)
    ensures forall i :: 0 <= i < NumClasses && r[i].Some? ==> 0.0 <= r[i].value <= 1.0
  {
    seq(NumClasses, i requires 0 <= i < NumClasses => Recall(m[i], i))
  }

  /** One entry of the recall vector: diagonal entry over row sum. */
  function Recall(row: seq<nat>, i: nat): (r: Option<real>)
    requires i < |row|
    ensures r.None? <==> Sum(row) == 0
    ensures r.Some? ==> 0.0 <= r.value <= 1.0
  {
    if Sum(row) == 0 then None
    else
      ElementAtMostSum(row, i);
      UnitRatio(row[i], Sum(row));
      Some(row[i] as real / Sum(row) as real)
  }

  /** The share of source-class samples predicted as the target class, computed only when that row is non-empty. */
  function MisclassificationRate(m: Matrix): (r: Option<real>)
    requires IsSquare(m)
    ensures r.Some? <==> Sum(m[SourceClass]) > 0
    ensures r.Some? ==> 0.0 <= r.value <= 1.0
  {
    ElementAtMostSum(m[SourceClass], TargetClass);
    if Sum(m[SourceClass]) > 0 then
      UnitRatio(m[SourceClass][TargetClass], Sum(m[SourceClass]));
      Some(m[SourceClass][TargetClass] as real / Sum(m[SourceClass]) as real)
    else None
  }

  /** Everything `validate_model` computes (most of it is printed, not returned). */
  datatype Report = Report(
    confusion: Matrix,
    correct: nat,
    total: nat,
    accuracy: real,
    perClassRecall: seq<Option<real>>,
    misclassificationRate: Option<real>)

  /**
    The whole evaluation. An empty validation set makes `correct / total`
    divide by zero before anything else is derived.
   */
  function Evaluate(pairs: seq<Pair>): (r: Result<Report, Exception>)
    ensures r.Err? <==> |pairs| == 0
    ensures r.Err? ==> r.error == ZeroDivisionError
    ensures r.Ok? ==> IsSquare(r.value.confusion)
    ensures r.Ok? ==> forall i: Class, j: Class :: r.value.confusion[i][j] == Count(pairs, i, j)
    ensures r.Ok? ==> r.value.total == |pairs| == Total(r.value.confusion)
    ensures r.Ok? ==> r.value.correct == Trace(r.value.confusion)
    ensures r.Ok? ==> r.value.accuracy == Matches(pairs) as real / |pairs| as real
    ensures r.Ok? ==> 0.0 <= r.value.accuracy <= 1.0
    ensures r.Ok? ==> |r.value.perClassRecall| == NumClasses
    ensures r.Ok? ==> forall i: Class ::
      && (r.value.perClassRecall[i].Some? <==> LabelCount(pairs, i) > 0)
      && (r.value.perClassRecall[i].Some? ==>
            r.value.perClassRecall[i].value == Count(pairs, i, i) as real / LabelCount(pairs, i) as real)
    ensures r.Ok? ==> (r.value.misclassificationRate.Some? <==> LabelCount(pairs, SourceClass) > 0)
    ensures r.Ok? && r.value.misclassificationRate.Some? ==>
      r.value.misclassificationRate.value
        == Count(pairs, SourceClass, TargetClass) as real / LabelCount(pairs, SourceClass) as real
  {
    var confusion := Confusion(pairs);
    var correct := Matches(pairs);
    var total := |pairs|;
    if total == 0 then Err(ZeroDivisionError)
    else
      ConfusionTotal(pairs);
      ConfusionTrace(pairs);
      AccuracyBounds(confusion);
      UnitRatio(correct, total);
      RecallFromCounts(pairs);
      RateFromCounts(pairs);
      Ok(Report(confusion, correct, total, correct as real / total as real,
                PerClassRecall(confusion), MisclassificationRate(confusion)))
  }

  lemma UnitRatio(a: nat, b: nat)
    requires a <= b && b > 0
    ensures 0.0 <= a as real / b as real <= 1.0
  {
  }

  lemma AccuracyBounds(m: Matrix)
    requires IsSquare(m)
    ensures Trace(m) <= Total(m)
  {
    TraceAtMostTotal(m, NumClasses);
    assert m[..NumClasses] == m;
  }

  /** Recall read off the matrix equals the recall counted over the pairs. */
  lemma RecallFromCounts(pairs: seq<Pair>)
    ensures forall i: Class ::
      PerClassRecall(Confusion(pairs))[i]
        == if LabelCount(pairs, i) == 0 then None
           else Some(Count(pairs, i, i) as real / LabelCount(pairs, i) as real)
  {
    forall i: Class
      ensures PerClassRecall(Confusion(pairs))[i]
        == if LabelCount(pairs, i) == 0 then None
           else Some(Count(pairs, i, i) as real / LabelCount(pairs, i) as real)
    {
      ConfusionRowSum(pairs, i);
    }
  }

  /** The misclassification rate read off the matrix equals the one counted over the pairs. */
  lemma RateFromCounts(pairs: seq<Pair>)
    ensures MisclassificationRate(Confusion(pairs))
      == if LabelCount(pairs, SourceClass) == 0 then None
         else Some(Count(pairs, SourceClass, TargetClass) as real / LabelCount(pairs, SourceClass) as real)
  {
    ConfusionRowSum(pairs, SourceClass);
  }

  /** The diagonal is part of the whole. */
  lemma {:induction false} TraceAtMostTotal(m: Matrix, k: nat)
    requires IsSquare(m) && k <= NumClasses
    ensures TraceUpTo(m, k) <= Total(m[..k])
    decreases k
  {
    if k > 0 {
      TraceAtMostTotal(m, k - 1);
      ElementAtMostSum(m[k - 1], k - 1);
      assert m[..k][..k - 1] == m[..k - 1];
    }
  }

  /** `validate_model(model, val_loader)`: returns the bare accuracy. */
  function ValidateModel(pairs: seq<Pair>): (r: Result<real, Exception>)
    ensures r.Err? <==> |pairs| == 0
    ensures r.Err? ==> r.error == ZeroDivisionError
    ensures r.Ok? ==> r.value == Matches(pairs) as real / |pairs| as real
    ensures r.Ok? ==> 0.0 <= r.value <= 1.0
  {
    var report :- Evaluate(pairs);
    Ok(report.accuracy)
  }
}

/**
  The aggregation step of the round loop in `main.py`.

  Each client's update is multiplied by that client's trust score as it is
  collected (`updates.append(weight * update)`), and the global update is
  `sum(updates) / len(updates)`: a trust-weighted sum divided by the NUMBER of
  clients, not by the sum of the trust scores. Updates are flattened parameter
  vectors; ratios and sums are exact reals.
 */
module Aggregation {
  import opened Outcomes

  /** A flattened model update. */
  type Vec = seq<real>

  /** Every update has `d` components. */
  predicate SameLength(updates: seq<Vec>, d: nat) {
    forall c :: 0 <= c < |updates| ==> |updates[c]| == d
  }

  /** `weight * update` */
  function Scale(w: real, v: Vec): Vec {
    seq(|v|, j requires 0 <= j < |v| => w * v[j])
  }

  /** Component-wise tensor addition. */
  function Add(u: Vec, v: Vec): Vec
    requires |u| == |v|
  {
    seq(|u|, j requires 0 <= j < |u| => u[j] + v[j])
  }

  /** Component `j` of the trust-weighted sum, client by client. */
  function WeightedComponent(trust: seq<real>, updates: seq<Vec>, j: nat): real
    requires |trust| == |updates|
    requires forall c :: 0 <= c < |updates| ==> j < |updates[c]|
  {
    if |updates| == 0 then 0.0
    else
      var n := |updates| - 1;
      WeightedComponent(trust[..n], updates[..n], j) + trust[n] * updates[n][j]
  }

  /** Component `j` of the plain sum of the updates. */
  function PlainComponent(updates: seq<Vec>, j: nat): real
    requires forall c :: 0 <= c < |updates| ==> j < |updates[c]|
  {
    if |updates| == 0 then 0.0
    else
      var n := |updates| - 1;
      PlainComponent(updates[..n], j) + updates[n][j]
  }

  /** Sum of the trust scores. */
  function TrustTotal(trust: seq<real>): real {
    if |trust| == 0 then 0.0 else TrustTotal(trust[..|trust| - 1]) + trust[|trust| - 1]
  }

  /**
    `sum(updates)` over the already-weighted updates: Python's `sum` starts
    from 0 and adds the vectors left to right. Component `j` of the result is
    the trust-weighted sum of the clients' components `j`.
   */
  function WeightedSum(trust: seq<real>, updates: seq<Vec>, d: nat): (r: Vec)
    requires |trust| == |updates| && SameLength(updates, d)
    ensures |r| == d
    ensures forall j :: 0 <= j < d ==> r[j] == WeightedComponent(trust, updates, j)
  {
    if |updates| == 0 then seq(d, _ => 0.0)
    else
      var n := |updates| - 1;
      Add(WeightedSum(trust[..n], updates[..n], d), Scale(trust[n], updates[n]))
  }

  /**
    `sum(updates) / len(updates)`. No updates divides by zero; updates of
    different lengths cannot be added.
   */
  function TrustWeightedAverage(trust: seq<real>, updates: seq<Vec>): (r: Result<Vec, Exception>)
    requires |trust| == |updates|
    ensures r.Err? <==> |updates| == 0 || !SameLength(updates, |updates[0]|)
    ensures r.Err? ==> r.error == if |updates| == 0 then ZeroDivisionError else ShapeError
    ensures r.Ok? ==> |r.value| == |updates[0]|
    ensures r.Ok? ==> forall j :: 0 <= j < |r.value| ==>
      r.value[j] == WeightedComponent(trust, updates, j) / |updates| as real
  {
    if |updates| == 0 then Err(ZeroDivisionError)
    else if !SameLength(updates, |updates[0]|) then Err(ShapeError)
    else
      var total := WeightedSum(trust, updates, |updates[0]|);
      Ok(Scale(1.0 / |updates| as real, total))
  }

  /** With every client trusted equally at `w`, the weighted component is `w` times the plain one. */
  lemma {:induction false} UniformTrustComponent(trust: seq<real>, updates: seq<Vec>, w: real, j: nat)
    requires |trust| == |updates|
    requires forall c :: 0 <= c < |updates| ==> j < |updates[c]|
    requires forall c :: 0 <= c < |trust| ==> trust[c] == w
    ensures WeightedComponent(trust, updates, j) == w * PlainComponent(updates, j)
  {
    if |updates| > 0 {
      var n := |updates| - 1;
      UniformTrustComponent(trust[..n], updates[..n], w, j);
    }
  }

  /**
    Equal trust `w` for every client gives `w` times the plain mean. The
    weights are not normalised, so wherever the plain mean is non-zero and
    `w` is not 1, the aggregate differs from the plain mean by the factor `w`.
   */
  lemma UniformTrustScalesMean(trust: seq<real>, updates: seq<Vec>, w: real)
    requires |trust| == |updates| && |updates| > 0 && SameLength(updates, |updates[0]|)
    requires forall c :: 0 <= c < |trust| ==> trust[c] == w
    ensures TrustWeightedAverage(trust, updates).Ok?
    ensures forall j :: 0 <= j < |updates[0]| ==>
      TrustWeightedAverage(trust, updates).value[j] == w * (PlainComponent(updates, j) / |updates| as real)
    ensures forall j :: 0 <= j < |updates[0]| && w != 1.0 && PlainComponent(updates, j) != 0.0 ==>
      TrustWeightedAverage(trust, updates).value[j] != PlainComponent(updates, j) / |updates| as real
  {
    var r := TrustWeightedAverage(trust, updates);
    var n := |updates| as real;
    forall j | 0 <= j < |updates[0]|
      ensures r.value[j] == w * (PlainComponent(updates, j) / n)
      ensures w != 1.0 && PlainComponent(updates, j) != 0.0 ==> r.value[j] != PlainComponent(updates, j) / n
    {
      var s := WeightedComponent(trust, updates, j);
      var p := PlainComponent(updates, j);
      assert r.value[j] == s / n;
      UniformTrustComponent(trust, updates, w, j);
      ScaledMean(r.value[j], s, w, p, n);
    }
  }

  /** Scaling a non-zero quotient by a factor other than 1 changes it. */
  lemma NonUnitScaleChanges(w: real, p: real, n: real)
    requires w != 1.0 && p != 0.0 && n != 0.0
    ensures w * (p / n) != p / n
  {
    var m := p / n;
    assert p == m * n;
    assert w * m - m == (w - 1.0) * m;
  }

  /** A quotient of a `w`-scaled sum is `w` times the quotient, and differs from it unless `w` is 1 or the sum is 0. */
  lemma ScaledMean(v: real, s: real, w: real, p: real, n: real)
    requires n != 0.0 && v == s / n && s == w * p
    ensures v == w * (p / n)
    ensures w != 1.0 && p != 0.0 ==> v != p / n
  {
    ScaledQuotient(v, s, w, p, n);
    if w != 1.0 && p != 0.0 {
      NonUnitScaleChanges(w, p, n);
    }
  }

  /** Multiplying before or after dividing gives the same real. */
  lemma ScaledQuotient(v: real, s: real, w: real, p: real, n: real)
    requires n != 0.0 && v == s / n && s == w * p
    ensures v == w * (p / n)
  {
    var q := p / n;
    assert p == q * n;
    assert s == (w * q) * n;
  }

  /** Dividing by `n` is dividing by `t` and then scaling by `t / n`. */
  lemma RescaledQuotient(v: real, s: real, t: real, n: real)
    requires n != 0.0 && t != 0.0 && v == s / n
    ensures v == (t / n) * (s / t)
  {
    var u := s / t;
    assert s == u * t;
    ScaledQuotient(v, s, u, t, n);
  }

  /** The trust-weighted mean with normalised weights, for comparison. */
  function NormalisedMean(trust: seq<real>, updates: seq<Vec>, j: nat): real
    requires |trust| == |updates| && TrustTotal(trust) != 0.0
    requires forall c :: 0 <= c < |updates| ==> j < |updates[c]|
  {
    WeightedComponent(trust, updates, j) / TrustTotal(trust)
  }

  /**
    The aggregate divides by the client count: it is the normalised weighted
    mean scaled by (total trust / number of clients), and equals it when the
    trust scores add up to the number of clients.
   */
  lemma DividesByCountNotByTotalTrust(trust: seq<real>, updates: seq<Vec>)
    requires |trust| == |updates| && |updates| > 0 && SameLength(updates, |updates[0]|)
    requires TrustTotal(trust) != 0.0
    ensures forall j :: 0 <= j < |updates[0]| ==>
      TrustWeightedAverage(trust, updates).value[j]
        == (TrustTotal(trust) / |updates| as real) * NormalisedMean(trust, updates, j)
    ensures TrustTotal(trust) == |updates| as real ==>
      forall j :: 0 <= j < |updates[0]| ==>
        TrustWeightedAverage(trust, updates).value[j] == NormalisedMean(trust, updates, j)
  {
    var r := TrustWeightedAverage(trust, updates);
    var n := |updates| as real;
    var t := TrustTotal(trust);
    forall j | 0 <= j < |updates[0]|
      ensures r.value[j] == (t / n) * NormalisedMean(trust, updates, j)
    {
      var s := WeightedComponent(trust, updates, j);
      assert r.value[j] == s / n;
      assert NormalisedMean(trust, updates, j) == s / t;
      RescaledQuotient(r.value[j], s, t, n);
    }
    if t == n {
      forall j | 0 <= j < |updates[0]|
        ensures r.value[j] == NormalisedMean(trust, updates, j)
      {
        assert t / n == 1.0;
      }
    }
  }

  /** Two half-trusted clients sending 2 and 4: the aggregate is 1.5, the normalised mean would be 3. */
  lemma HalfTrustExample()
    ensures TrustWeightedAverage([0.5, 0.5], [[2.0], [4.0]]) == Ok([1.5])
    ensures NormalisedMean([0.5, 0.5], [[2.0], [4.0]], 0) == 3.0
  {
    var trust := [0.5, 0.5];
    var updates: seq<Vec> := [[2.0], [4.0]];
    assert trust[..1] == [0.5] && updates[..1] == [[2.0]];
    assert WeightedComponent(trust, updates, 0) == 3.0;
    var r := TrustWeightedAverage(trust, updates);
    assert r.Ok? && |r.value| == 1 && r.value[0] == 1.5;
    assert r.value == [1.5];
    assert TrustTotal(trust[..1]) == 0.5;
  }
}

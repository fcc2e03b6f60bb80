/**
  The label-flipping attack of `attacks/label_flipping.py`.

  `poison_update` walks the indices of a subset in order and, at every index
  whose label is `source_label`, writes `target_label` into the label list of
  the underlying dataset; the list is then stored back on the dataset. The
  model returns the updated subset (same indices, new dataset labels) instead
  of mutating it. When the labels are already a list, the source writes into
  that list itself, so every other subset over the same dataset sees the new
  labels too; the model does not represent that sharing.
 */
module LabelFlipping {
  import opened Outcomes

  /** Default `source_label` of `poison_update` (class 0, airplane). */
  const DefaultSourceLabel: int := 0
  /** Default `target_label` of `poison_update` (class 7, horse). */
  const DefaultTargetLabel: int := 7

  /** A dataset reduced to what the attack touches: its label list. */
  datatype Dataset = Dataset(targets: seq<int>)

  /** A view of a dataset through an ordered list of positions. */
  datatype Subset = Subset(dataset: Dataset, indices: seq<nat>)

  /** Every index of the subset addresses a label of the dataset. */
  predicate InRange(targets: seq<int>, indices: seq<nat>) {
    forall k :: 0 <= k < |indices| ==> indices[k] < |targets|
  }

  /** The first index, in iteration order, whose subscript would raise. */
  function FirstOutOfRange(targets: seq<int>, indices: seq<nat>): (r: Option<nat>)
    ensures r.None? <==> InRange(targets, indices)
    ensures r.Some? ==>
      exists k :: 0 <= k < |indices| && indices[k] == r.value
        && |targets| <= r.value && InRange(targets, indices[..k])
    decreases |indices|
  {
    if |indices| == 0 then None
    else if |targets| <= indices[0] then Some(indices[0])
    else
      var rest := FirstOutOfRange(targets, indices[1..]);
      if rest.Some? then
        ghost var k :| 0 <= k < |indices[1..]| && indices[1..][k] == rest.value
          && |targets| <= rest.value && InRange(targets, indices[1..][..k]);
        assert indices[..k + 1] == [indices[0]] + indices[1..][..k];
        assert indices[k + 1] == rest.value;
        rest
      else
        assert forall k :: 1 <= k < |indices| ==> indices[k] == indices[1..][k - 1];
        rest
  }

  /** One iteration of the loop: relabel position `idx` if it holds `source`. */
  function FlipOne(targets: seq<int>, idx: nat, source: int, target: int): seq<int>
    requires idx < |targets|
  {
    if targets[idx] == source then targets[idx := target] else targets
  }

  /** The loop over the subset's indices, first index first. */
  function FlipAll(targets: seq<int>, indices: seq<nat>, source: int, target: int): seq<int>
    requires InRange(targets, indices)
    decreases |indices|
  {
    if |indices| == 0 then targets
    else FlipAll(FlipOne(targets, indices[0], source, target), indices[1..], source, target)
  }

  /** What a label becomes: positions listed in the subset that hold `source` now hold `target`. */
  function FlippedLabel(targets: seq<int>, indices: seq<nat>, p: nat, source: int, target: int): int
    requires p < |targets|
  {
    if p in indices && targets[p] == source then target else targets[p]
  }

  /** The loop computes, position by position, the label given by `FlippedLabel`. */
  lemma {:induction false} FlipAllPointwise(targets: seq<int>, indices: seq<nat>, source: int, target: int)
    requires InRange(targets, indices)
    ensures |FlipAll(targets, indices, source, target)| == |targets|
    ensures forall p: nat :: p < |targets| ==>
      FlipAll(targets, indices, source, target)[p] == FlippedLabel(targets, indices, p, source, target)
    decreases |indices|
  {
    if |indices| > 0 {
      var i0 := indices[0];
      var rest := indices[1..];
      var stepped := FlipOne(targets, i0, source, target);
      assert InRange(stepped, rest) by {
        forall k | 0 <= k < |rest| ensures rest[k] < |stepped| {
          assert rest[k] == indices[k + 1];
        }
      }
      FlipAllPointwise(stepped, rest, source, target);
      forall p: nat | p < |targets|
        ensures FlipAll(targets, indices, source, target)[p] == FlippedLabel(targets, indices, p, source, target)
      {
        assert p in indices <==> p == i0 || p in rest;
      }
    }
  }

  /**
    `poison_update(subset, source_label=0, target_label=7)`. An index past the
    end of the label list raises `IndexError` at the first such index.
   */
  function PoisonUpdate(subset: Subset, sourceLabel: int := DefaultSourceLabel,
                        targetLabel: int := DefaultTargetLabel): (r: Result<Subset, Exception>)
    ensures r.Err? <==> !InRange(subset.dataset.targets, subset.indices)
    ensures r.Err? ==>
      && r.error.IndexError?
      && r.error.index in subset.indices
      && r.error.index >= |subset.dataset.targets|
    ensures r.Ok? ==> r.value.indices == subset.indices
    ensures r.Ok? ==> |r.value.dataset.targets| == |subset.dataset.targets|
    // a listed position that held the source label now holds the target label
    ensures r.Ok? ==> forall k ::
      (0 <= k < |subset.indices| && subset.dataset.targets[subset.indices[k]] == sourceLabel) ==>
        r.value.dataset.targets[subset.indices[k]] == targetLabel
    // a listed position holding any other label keeps it
    ensures r.Ok? ==> forall k ::
      (0 <= k < |subset.indices| && subset.dataset.targets[subset.indices[k]] != sourceLabel) ==>
        r.value.dataset.targets[subset.indices[k]] == subset.dataset.targets[subset.indices[k]]
    // a position outside the subset is never touched
    ensures r.Ok? ==> forall p :: 0 <= p < |subset.dataset.targets| && p !in subset.indices ==>
      r.value.dataset.targets[p] == subset.dataset.targets[p]
  {
    var targets := subset.dataset.targets;
    match FirstOutOfRange(targets, subset.indices)
    case Some(bad) => Err(IndexError(bad))
    case None =>
      FlipAllPointwise(targets, subset.indices, sourceLabel, targetLabel);
      Ok(Subset(Dataset(FlipAll(targets, subset.indices, sourceLabel, targetLabel)), subset.indices))
  }

  /** Calling with the defaults relabels class 0 as class 7. */
  lemma DefaultFlipsZeroToSeven(subset: Subset)
    requires InRange(subset.dataset.targets, subset.indices)
    ensures PoisonUpdate(subset).Ok?
    ensures forall k :: 0 <= k < |subset.indices| && subset.dataset.targets[subset.indices[k]] == 0 ==>
      PoisonUpdate(subset).value.dataset.targets[subset.indices[k]] == 7
  {
  }

  /** Flipping a second time with the same labels changes nothing. */
  lemma PoisonUpdateIdempotent(subset: Subset, sourceLabel: int, targetLabel: int)
    requires PoisonUpdate(subset, sourceLabel, targetLabel).Ok?
    ensures PoisonUpdate(PoisonUpdate(subset, sourceLabel, targetLabel).value, sourceLabel, targetLabel)
      == PoisonUpdate(subset, sourceLabel, targetLabel)
  {
    var once := PoisonUpdate(subset, sourceLabel, targetLabel).value;
    var twice := PoisonUpdate(once, sourceLabel, targetLabel);
    assert twice.Ok?;
    var t0 := subset.dataset.targets;
    var t1 := once.dataset.targets;
    var t2 := twice.value.dataset.targets;
    forall p | 0 <= p < |t1| ensures t2[p] == t1[p] {
      if p in subset.indices {
        var k :| 0 <= k < |subset.indices| && subset.indices[k] == p;
        if t0[p] == sourceLabel {
          assert t1[p] == targetLabel;
        } else {
          assert t1[p] == t0[p];
        }
      }
    }
    assert t2 == t1;
  }

  /** Once the labels differ, no listed position still holds the source label. */
  lemma NoSourceLabelLeft(subset: Subset, sourceLabel: int, targetLabel: int)
    requires sourceLabel != targetLabel
    requires PoisonUpdate(subset, sourceLabel, targetLabel).Ok?
    ensures forall k :: 0 <= k < |subset.indices| ==>
      PoisonUpdate(subset, sourceLabel, targetLabel).value.dataset.targets[subset.indices[k]] != sourceLabel
  {
  }

  /** Number of listed positions (with repetition) holding `label`. */
  function CountListed(targets: seq<int>, indices: seq<nat>, cls: int): nat
    requires InRange(targets, indices)
    decreases |indices|
  {
    if |indices| == 0 then 0
    else
      var here := if targets[indices[0]] == cls then 1 else 0;
      here + CountListed(targets, indices[1..], cls)
  }

  /** Counting over listed positions when each `after` label is `target` exactly where `before` held `source` or `target`. */
  lemma {:induction false} CountListedMerge(before: seq<int>, after: seq<int>, indices: seq<nat>, source: int, target: int)
    requires source != target
    requires InRange(before, indices) && InRange(after, indices)
    requires forall k :: 0 <= k < |indices| ==>
      (after[indices[k]] == target <==> before[indices[k]] == source || before[indices[k]] == target)
    ensures CountListed(after, indices, target)
      == CountListed(before, indices, target) + CountListed(before, indices, source)
    decreases |indices|
  {
    if |indices| > 0 {
      assert after[indices[0]] == target <==> before[indices[0]] == source || before[indices[0]] == target;
      CountListedMerge(before, after, indices[1..], source, target);
    }
  }

  /** The target class gains, over the subset, exactly the samples that held the source class. */
  lemma TargetCountGrowsBySourceCount(subset: Subset, sourceLabel: int, targetLabel: int)
    requires sourceLabel != targetLabel
    requires PoisonUpdate(subset, sourceLabel, targetLabel).Ok?
    ensures CountListed(PoisonUpdate(subset, sourceLabel, targetLabel).value.dataset.targets, subset.indices, targetLabel)
      == CountListed(subset.dataset.targets, subset.indices, targetLabel)
       + CountListed(subset.dataset.targets, subset.indices, sourceLabel)
    ensures CountListed(PoisonUpdate(subset, sourceLabel, targetLabel).value.dataset.targets, subset.indices, sourceLabel) == 0
  {
    var after := PoisonUpdate(subset, sourceLabel, targetLabel).value.dataset.targets;
    CountListedMerge(subset.dataset.targets, after, subset.indices, sourceLabel, targetLabel);
    CountListedNone(after, subset.indices, sourceLabel);
  }

  /** A label held at no listed position counts zero. */
  lemma {:induction false} CountListedNone(targets: seq<int>, indices: seq<nat>, cls: int)
    requires InRange(targets, indices)
    requires forall k :: 0 <= k < |indices| ==> targets[indices[k]] != cls
    ensures CountListed(targets, indices, cls) == 0
    decreases |indices|
  {
    if |indices| > 0 {
      CountListedNone(targets, indices[1..], cls);
    }
  }

  /** Labels other than the source and target keep their count over the subset. */
  lemma {:induction false} CountListedFrame(before: seq<int>, after: seq<int>, indices: seq<nat>, cls: int)
    requires InRange(before, indices) && InRange(after, indices)
    requires forall k :: 0 <= k < |indices| ==> (after[indices[k]] == cls <==> before[indices[k]] == cls)
    ensures CountListed(after, indices, cls) == CountListed(before, indices, cls)
    decreases |indices|
  {
    if |indices| > 0 {
      CountListedFrame(before, after, indices[1..], cls);
    }
  }

  /** A class that is neither source nor target keeps exactly as many samples in the subset. */
  lemma OtherClassesKeepTheirCount(subset: Subset, sourceLabel: int, targetLabel: int, cls: int)
    requires cls != sourceLabel && cls != targetLabel
    requires PoisonUpdate(subset, sourceLabel, targetLabel).Ok?
    ensures CountListed(PoisonUpdate(subset, sourceLabel, targetLabel).value.dataset.targets, subset.indices, cls)
      == CountListed(subset.dataset.targets, subset.indices, cls)
  {
    CountListedFrame(subset.dataset.targets, PoisonUpdate(subset, sourceLabel, targetLabel).value.dataset.targets,
                     subset.indices, cls);
  }

  lemma {:induction false} CountListedAppend(targets: seq<int>, a: seq<nat>, b: seq<nat>, cls: int)
    requires InRange(targets, a) && InRange(targets, b)
    ensures InRange(targets, a + b)
    ensures CountListed(targets, a + b, cls) == CountListed(targets, a, cls) + CountListed(targets, b, cls)
    decreases |a|
  {
    if |a| == 0 {
      assert a + b == b;
    } else {
      assert (a + b)[0] == a[0];
      assert (a + b)[1..] == a[1..] + b;
      CountListedAppend(targets, a[1..], b, cls);
    }
  }

  lemma {:induction false} CountListedAll(targets: seq<int>, indices: seq<nat>, cls: int)
    requires InRange(targets, indices)
    requires forall k :: 0 <= k < |indices| ==> targets[indices[k]] == cls
    ensures CountListed(targets, indices, cls) == |indices|
    decreases |indices|
  {
    if |indices| > 0 {
      CountListedAll(targets, indices[1..], cls);
    }
  }

  /** An attacker shard of ten samples of class 0 followed by five of class 3. */
  function AttackerShard(): (s: Subset)
    ensures |s.dataset.targets| == 15 && |s.indices| == 15
  {
    Subset(Dataset(seq(10, _ => 0) + seq(5, _ => 3)), seq(10, k => k) + seq(5, k => k + 10))
  }

  /** The shard's indices: ten positions holding 0, then five holding 3. */
  lemma AttackerShardLayout()
    ensures AttackerShard().indices == AttackerZeros() + AttackerThrees()
    ensures InRange(AttackerShard().dataset.targets, AttackerZeros())
    ensures InRange(AttackerShard().dataset.targets, AttackerThrees())
    ensures forall k :: 0 <= k < 10 ==> AttackerShard().dataset.targets[AttackerZeros()[k]] == 0
    ensures forall k :: 0 <= k < 5 ==> AttackerShard().dataset.targets[AttackerThrees()[k]] == 3
  {
  }

  function AttackerZeros(): seq<nat> { seq(10, k => k) }

  function AttackerThrees(): seq<nat> { seq(5, k => k + 10) }

  /** Before flipping, the shard holds ten samples of 0, none of 7 and five of 3. */
  lemma AttackerShardCounts()
    ensures InRange(AttackerShard().dataset.targets, AttackerShard().indices)
    ensures CountListed(AttackerShard().dataset.targets, AttackerShard().indices, 0) == 10
    ensures CountListed(AttackerShard().dataset.targets, AttackerShard().indices, 7) == 0
    ensures CountListed(AttackerShard().dataset.targets, AttackerShard().indices, 3) == 5
  {
    var t := AttackerShard().dataset.targets;
    var zeros := AttackerZeros();
    var threes := AttackerThrees();
    AttackerShardLayout();
    CountListedAppend(t, zeros, threes, 0);
    CountListedAppend(t, zeros, threes, 7);
    CountListedAppend(t, zeros, threes, 3);
    CountListedAll(t, zeros, 0);
    CountListedNone(t, zeros, 7);
    CountListedNone(t, zeros, 3);
    CountListedAll(t, threes, 3);
    CountListedNone(t, threes, 0);
    CountListedNone(t, threes, 7);
  }

  /** Flipping that shard from 0 to 7 leaves no 0, ten samples of 7 and five of 3. */
  lemma AttackerShardScenario()
    ensures PoisonUpdate(AttackerShard(), 0, 7).Ok?
    ensures CountListed(PoisonUpdate(AttackerShard(), 0, 7).value.dataset.targets, AttackerShard().indices, 0) == 0
    ensures CountListed(PoisonUpdate(AttackerShard(), 0, 7).value.dataset.targets, AttackerShard().indices, 7) == 10
    ensures CountListed(PoisonUpdate(AttackerShard(), 0, 7).value.dataset.targets, AttackerShard().indices, 3) == 5
  {
    AttackerShardCounts();
    TargetCountGrowsBySourceCount(AttackerShard(), 0, 7);
    OtherClassesKeepTheirCount(AttackerShard(), 0, 7, 3);
  }
}

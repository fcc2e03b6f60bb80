/**
  `distribute_data_to_clients` of `main.py`.

  The corpus positions are shuffled (the permutation is an input here) and cut
  into `num_clients` contiguous slices of `total_size // num_clients`
  positions each; the last slice runs to the end of the permutation and so
  also takes the `total_size % num_clients` left over. Each slice becomes one
  client's subset, wrapped in a shuffling `DataLoader`.

  Two inputs make the function raise: `num_clients = 0` divides by zero, and
  a shuffling loader over an empty slice rejects its zero sample count with
  `ValueError`. A slice is empty exactly when there are more clients than
  positions, and then slice 0 already is.
 */
module Distribution {
  import opened Outcomes

  /** The error a shuffling `DataLoader` raises for an empty subset. */
  const EmptyShuffle: Exception := ValueError("num_samples")

  /** `data_per_client = total_size // num_clients` */
  function DataPerClient(total: nat, numClients: nat): nat
    requires numClients > 0
  {
    total / numClients
  }

  /** First position of shard `i`. */
  function ShardStart(total: nat, numClients: nat, i: nat): nat
    requires numClients > 0
  {
    i * DataPerClient(total, numClients)
  }

  /** One past the last position of shard `i`: the next shard's start, or the end for the last shard. */
  function ShardEnd(total: nat, numClients: nat, i: nat): nat
    requires numClients > 0
  {
    if i < numClients - 1 then (i + 1) * DataPerClient(total, numClients) else total
  }

  lemma MulMonotone(a: nat, b: nat, d: nat)
    requires a <= b
    ensures a * d <= b * d
  {
    assert b * d == a * d + (b - a) * d;
  }

  /** Shard bounds are ordered and stay inside the permutation; consecutive shards meet. */
  lemma ShardBounds(total: nat, numClients: nat, i: nat)
    requires 0 < numClients && i < numClients
    ensures ShardStart(total, numClients, i) <= ShardEnd(total, numClients, i) <= total
    ensures i < numClients - 1 ==> ShardEnd(total, numClients, i) == ShardStart(total, numClients, i + 1)
    ensures ShardEnd(total, numClients, i) - ShardStart(total, numClients, i)
      == if i < numClients - 1 then total / numClients else total / numClients + total % numClients
  {
    var d := DataPerClient(total, numClients);
    assert total == numClients * d + total % numClients;
    MulMonotone(i + 1, numClients, d);
    assert (i + 1) * d == i * d + d;
    assert numClients * d == (numClients - 1) * d + d;
  }

  /** A shard ends no later than any later shard starts. */
  lemma ShardsOrdered(total: nat, numClients: nat, i: nat, j: nat)
    requires 0 < numClients && i < j < numClients
    ensures ShardEnd(total, numClients, i) <= ShardStart(total, numClients, j)
  {
    MulMonotone(i + 1, j, DataPerClient(total, numClients));
  }

  /** The positions of shard `i`: `indices[start_idx:end_idx]`. */
  function Shard<T>(xs: seq<T>, numClients: nat, i: nat): seq<T>
    requires 0 < numClients && i < numClients
  {
    ShardBounds(|xs|, numClients, i);
    xs[ShardStart(|xs|, numClients, i)..ShardEnd(|xs|, numClients, i)]
  }

  /** All shards, in client order. */
  function Partition<T>(xs: seq<T>, numClients: nat): (r: seq<seq<T>>)
    requires numClients > 0
    ensures |r| == numClients
    ensures forall i :: 0 <= i < numClients - 1 ==> |r[i]| == |xs| / numClients
    ensures |r[numClients - 1]| == |xs| / numClients + |xs| % numClients
    ensures numClients > |xs| ==> forall i :: 0 <= i < numClients - 1 ==> r[i] == []
  {
    var r := seq(numClients, i requires 0 <= i < numClients => Shard(xs, numClients, i));
    forall i | 0 <= i < numClients
      ensures |r[i]| == if i < numClients - 1 then |xs| / numClients else |xs| / numClients + |xs| % numClients
    {
      ShardBounds(|xs|, numClients, i);
    }
    assert numClients > |xs| ==> |xs| / numClients == 0 by {
      if numClients > |xs| {
        SmallQuotient(|xs|, numClients);
      }
    }
    r
  }

  lemma SmallQuotient(a: nat, n: nat)
    requires a < n
    ensures a / n == 0
  {
  }

  /**
    A shard is empty only when there are more clients than positions, and
    then the first shard is empty.
   */
  lemma EmptyShards<T>(xs: seq<T>, numClients: nat)
    requires numClients > 0
    ensures |xs| >= numClients ==> forall i :: 0 <= i < numClients ==> |Partition(xs, numClients)[i]| > 0
    ensures |xs| < numClients ==> Partition(xs, numClients)[0] == []
  {
    var p := Partition(xs, numClients);
    if |xs| >= numClients {
      LargeQuotient(|xs|, numClients);
    } else if numClients > 1 {
      assert |p[0]| == |xs| / numClients;
    } else {
      assert |p[0]| == |xs| / 1 + |xs| % 1;
    }
  }

  lemma LargeQuotient(a: nat, n: nat)
    requires 0 < n <= a
    ensures a / n >= 1
  {
    assert a == n * (a / n) + a % n;
  }

  /**
    `distribute_data_to_clients` as a whole: a zero client count divides by
    zero, more clients than positions leaves an empty shard whose loader
    raises, and otherwise every client gets its non-empty shard.
   */
  function ClientShards<T>(xs: seq<T>, numClients: nat): (r: Result<seq<seq<T>>, Exception>)
    ensures r.Err? <==> numClients == 0 || |xs| < numClients
    ensures r.Err? ==> r.error == if numClients == 0 then ZeroDivisionError else EmptyShuffle
    ensures r.Ok? ==> |r.value| == numClients
    ensures r.Ok? ==> forall i :: 0 <= i < numClients ==> r.value[i] == Shard(xs, numClients, i) && |r.value[i]| > 0
  {
    if numClients == 0 then Err(ZeroDivisionError)
    else if |xs| < numClients then Err(EmptyShuffle)
    else
      EmptyShards(xs, numClients);
      Ok(Partition(xs, numClients))
  }

  /** The shards laid end to end. */
  function Flatten<T>(shards: seq<seq<T>>): seq<T> {
    if |shards| == 0 then [] else Flatten(shards[..|shards| - 1]) + shards[|shards| - 1]
  }

  lemma {:induction false} FlattenPrefix<T>(xs: seq<T>, numClients: nat, k: nat)
    requires 0 < k <= numClients
    ensures ShardEnd(|xs|, numClients, k - 1) <= |xs|
    ensures Flatten(Partition(xs, numClients)[..k]) == xs[..ShardEnd(|xs|, numClients, k - 1)]
  {
    var p := Partition(xs, numClients);
    ShardBounds(|xs|, numClients, k - 1);
    assert p[..k][..k - 1] == p[..k - 1];
    if k == 1 {
      assert p[..0] == [];
      assert Flatten(p[..1]) == p[0];
    } else {
      FlattenPrefix(xs, numClients, k - 1);
      ShardBounds(|xs|, numClients, k - 2);
      var mid := ShardEnd(|xs|, numClients, k - 2);
      assert xs[..ShardEnd(|xs|, numClients, k - 1)] == xs[..mid] + p[k - 1];
    }
  }

  /** Laying the shards end to end gives back the permutation: nothing lost, nothing repeated, order kept. */
  lemma PartitionConcatenates<T>(xs: seq<T>, numClients: nat)
    requires numClients > 0
    ensures Flatten(Partition(xs, numClients)) == xs
  {
    FlattenPrefix(xs, numClients, numClients);
    assert Partition(xs, numClients)[..numClients] == Partition(xs, numClients);
  }

  /** No element occurs twice. */
  predicate Distinct<T(==)>(xs: seq<T>) {
    forall a, b :: 0 <= a < b < |xs| ==> xs[a] != xs[b]
  }

  /** `xs` lists every corpus position `[0, total)` exactly once, as `torch.randperm(total)` does. */
  ghost predicate IsPermutation(xs: seq<nat>, total: nat) {
    && |xs| == total
    && Distinct(xs)
    && (forall k :: 0 <= k < |xs| ==> xs[k] < total)
    && (forall x: nat :: x < total ==> x in xs)
  }

  /** An element of a slice sits at some position inside the slice's bounds. */
  lemma SliceMember<T>(xs: seq<T>, lo: nat, hi: nat, x: T)
    requires lo <= hi <= |xs| && x in xs[lo..hi]
    ensures exists a :: lo <= a < hi && xs[a] == x
  {
    var k :| 0 <= k < hi - lo && xs[lo..hi][k] == x;
    assert xs[lo + k] == x;
  }

  /** Distinct shards of a duplicate-free sequence share no element. */
  lemma ShardsDisjoint<T>(xs: seq<T>, numClients: nat, i: nat, j: nat, x: T)
    requires Distinct(xs)
    requires 0 < numClients && i < numClients && j < numClients && i != j
    requires x in Shard(xs, numClients, i)
    ensures x !in Shard(xs, numClients, j)
  {
    var lo := if i < j then i else j;
    var hi := if i < j then j else i;
    ShardBounds(|xs|, numClients, i);
    ShardBounds(|xs|, numClients, j);
    ShardsOrdered(|xs|, numClients, lo, hi);
    var loEnd := ShardEnd(|xs|, numClients, lo);
    var hiStart := ShardStart(|xs|, numClients, hi);
    assert loEnd <= hiStart;
    SliceMember(xs, ShardStart(|xs|, numClients, i), ShardEnd(|xs|, numClients, i), x);
    var a :| ShardStart(|xs|, numClients, i) <= a < ShardEnd(|xs|, numClients, i) && xs[a] == x;
    var sj := ShardStart(|xs|, numClients, j);
    forall k | 0 <= k < |Shard(xs, numClients, j)| ensures Shard(xs, numClients, j)[k] != x {
      assert Shard(xs, numClients, j)[k] == xs[sj + k];
    }
  }

  lemma {:induction false} FlattenMember<T>(shards: seq<seq<T>>, x: T)
    requires x in Flatten(shards)
    ensures exists i :: 0 <= i < |shards| && x in shards[i]
  {
    var n := |shards| - 1;
    if x in shards[n] {
    } else {
      FlattenMember(shards[..n], x);
      var i :| 0 <= i < n && x in shards[..n][i];
      assert shards[i] == shards[..n][i];
    }
  }

  /** With a permutation as input, every corpus position lands in exactly one client's shard. */
  lemma EveryPositionInExactlyOneShard(perm: seq<nat>, total: nat, numClients: nat, x: nat)
    requires IsPermutation(perm, total)
    requires numClients > 0 && x < total
    ensures exists i :: 0 <= i < numClients && x in Partition(perm, numClients)[i]
    ensures forall i, j ::
      (&& 0 <= i < numClients && 0 <= j < numClients
       && x in Partition(perm, numClients)[i] && x in Partition(perm, numClients)[j]) ==> i == j
  {
    PartitionConcatenates(perm, numClients);
    FlattenMember(Partition(perm, numClients), x);
    forall i, j | 0 <= i < numClients && 0 <= j < numClients
      && x in Partition(perm, numClients)[i] && x in Partition(perm, numClients)[j]
      ensures i == j
    {
      if i != j {
        ShardsDisjoint(perm, numClients, i, j, x);
      }
    }
  }

  /**
    The loop of `distribute_data_to_clients` over `range(num_clients)`, with
    the shuffled positions supplied by the caller. The loader of the first
    empty shard raises, which ends the loop.
   */
  method DistributeDataToClients(indices: seq<nat>, numClients: nat) returns (r: Result<seq<seq<nat>>, Exception>)
    ensures r.Err? <==> numClients == 0 || |indices| < numClients
    ensures r.Err? ==> r.error == if numClients == 0 then ZeroDivisionError else EmptyShuffle
    ensures r.Ok? ==> |r.value| == numClients
    ensures r.Ok? ==> forall i :: 0 <= i < numClients ==> r.value[i] == Shard(indices, numClients, i)
    ensures r.Ok? ==> Flatten(r.value) == indices
  {
    if numClients == 0 {
      return Err(ZeroDivisionError);
    }
    var dataPerClient := |indices| / numClients;
    var shards: seq<seq<nat>> := [];
    var i := 0;
    EmptyShards(indices, numClients);
    while i < numClients
      invariant 0 <= i <= numClients
      invariant shards == Partition(indices, numClients)[..i]
      invariant i > 0 ==> |indices| >= numClients
    {
      ShardBounds(|indices|, numClients, i);
      var startIdx := i * dataPerClient;
      var endIdx := if i < numClients - 1 then (i + 1) * dataPerClient else |indices|;
      var clientIndices := indices[startIdx..endIdx];
      if |clientIndices| == 0 {
        return Err(EmptyShuffle);
      }
      shards := shards + [clientIndices];
      i := i + 1;
    }
    assert shards == Partition(indices, numClients);
    PartitionConcatenates(indices, numClients);
    r := Ok(shards);
  }
}

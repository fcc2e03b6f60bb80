# Federated-learning round bookkeeping, label flipping and confusion-matrix accounting

This Dafny project models three pieces of pure logic from a federated-learning
simulation in which a coordinator trains a shared model over many simulated
clients, some of them attackers.

- **Label flipping** (`attacks/label_flipping.py`). `poison_update(subset,
  source_label=0, target_label=7)` goes through the subset's indices. Where
  the label is `source_label` it writes `target_label` into the dataset's label
  list. Module `LabelFlipping` models it as a pure function that returns the
  subset with its new label list.
- **Evaluation** (`utils/cross_validation.py`, `validate_model`). It counts
  correct predictions, fills a 10×10 confusion matrix with one cell per sample,
  and derives the accuracy, the recall of each class and the guarded class-0 →
  class-7 misclassification rate. Only the accuracy is returned. Module
  `CrossValidation` takes the (true label, prediction) pairs as input and
  computes with exact counts and exact reals.
- **Round loop** (`main.py`):
  - `Distribution` models `distribute_data_to_clients`, which cuts contiguous
    shards from a shuffled index list.
  - `Aggregation` models the trust-weighted sum divided by the client count.
  - `Rounds` models attacker selection, the round and the run, and the warning
    for accuracy below 0.4.

`Outcomes` holds the `Option`/`Result` types. It also holds the Python
exception kinds that the modelled code can raise. Such a raise is an `Err`
result, not a precondition, except where "## Left out" says otherwise
(out-of-range labels, which the `Class` type rules out).

Two calls in `main.py` do not match the modules they call, and the model keeps
them as written:

- `main.py:111` calls `label_flipping.poison_client_data`. The label-flipping
  module defines only `poison_update`, so the first label-flipping attacker
  raises `AttributeError` (`Rounds.ClientLoader`).
- `main.py:134-137` reads `metrics['accuracy']` and two other keys.
  `validate_model` returns a bare number (`utils/cross_validation.py:70`), so
  this raises `TypeError`.

As a result no round produces a log row, and a run succeeds exactly when it has
zero rounds (`Rounds.RunSucceedsOnlyWithoutRounds`). The partitioner, the
aggregation, the evaluation and the warning rule are still modelled and proved
on their own.

A note on defaults: `main.py:109` defaults `target_class` to 2, while
`poison_update` defaults `target_label` to 7. As written, the value from
`main.py` never reaches a call.

## Model

| member | source | states |
|---|---|---|
| `LabelFlipping.PoisonUpdate` | attacks/label_flipping.py:6-26 | Fails with `IndexError` exactly when some subset index is past the end of the labels. Otherwise: the indices and the number of labels are unchanged; every listed position that held the source label now holds the target label; every listed position holding any other label keeps it; every position outside the subset is untouched. |
| `LabelFlipping.FirstOutOfRange` | attacks/label_flipping.py:22-23 | Returns no index exactly when every index is in range. Otherwise it returns the first index, in iteration order, whose subscript raises: all indices before it are in range. |
| `LabelFlipping.FlipAllPointwise` | attacks/label_flipping.py:22-24 | The in-order loop keeps the length. At each position it gives `target` if the position is listed and held `source`, and the old label otherwise. This holds even when indices repeat. |
| `LabelFlipping.DefaultFlipsZeroToSeven` | attacks/label_flipping.py:6 | Called with the default arguments, the function succeeds on in-range indices and relabels class 0 as class 7. |
| `LabelFlipping.PoisonUpdateIdempotent` | attacks/label_flipping.py:22-24 | Applying the flip again with the same labels returns the same result. |
| `LabelFlipping.NoSourceLabelLeft` | attacks/label_flipping.py:22-24 | When source and target differ, no listed position holds the source label afterwards. |
| `LabelFlipping.TargetCountGrowsBySourceCount` | attacks/label_flipping.py:22-24 | When source and target differ, the number of listed positions holding the target label grows by exactly the previous number holding the source label. The source count drops to zero. |
| `LabelFlipping.OtherClassesKeepTheirCount` | attacks/label_flipping.py:23 | A class that is neither source nor target keeps exactly its count over the subset. |
| `LabelFlipping.AttackerShardScenario` | attacks/label_flipping.py:22-24 | Scenario: a shard of ten 0s and five 3s, flipped from 0 to 7, ends with no 0, ten 7s and five 3s. |
| `CrossValidation.Confusion` | utils/cross_validation.py:34-46 | Starting from an all-zero 10×10 matrix and adding one to `confusion[y][pred]` per pair gives a square matrix. Each cell equals the number of pairs with that true label and that prediction. |
| `CrossValidation.ConfusionTotal` | utils/cross_validation.py:41-46 | All entries of the matrix add up to `total`, the number of samples processed. |
| `CrossValidation.ConfusionTrace` | utils/cross_validation.py:42-46 | The diagonal adds up to `correct`, the number of samples where the prediction equals the label. |
| `CrossValidation.ConfusionRowSum` | utils/cross_validation.py:56 | Row `i` adds up to the number of samples whose true label is `i`. |
| `CrossValidation.PerClassRecall` | utils/cross_validation.py:56 | Gives one recall per class. A recall is missing (numpy's NaN) exactly when its row sum is zero. A recall that is present lies in [0, 1]. |
| `CrossValidation.MisclassificationRate` | utils/cross_validation.py:63-67 | The rate exists exactly when row 0 has samples, and then it lies in [0, 1]. |
| `CrossValidation.Evaluate` | utils/cross_validation.py:28-70 | An empty validation set raises `ZeroDivisionError`. Otherwise the function returns: the matrix cells as pair counts; `total` as the sample count and the matrix sum; `correct` as the trace; accuracy = matches / samples, within [0, 1]. Class `i` has a recall exactly when it has samples, and it equals (`i` predicted as `i`) / (samples of `i`). The 0→7 rate exists exactly when class 0 has samples, and it equals (0 predicted as 7) / (samples of 0). |
| `CrossValidation.ValidateModel` | utils/cross_validation.py:49-70 | Returns only the accuracy: matches / samples, within [0, 1]. An empty validation set raises `ZeroDivisionError`. |
| `Distribution.ShardBounds` | main.py:62-67 | Every shard's start ≤ end ≤ the total. Consecutive shards meet. A shard other than the last has `total // n` positions. The last shard has `total // n + total % n`. |
| `Distribution.Partition` | main.py:62-69 | There are exactly `num_clients` shards. All but the last have `total // num_clients` positions. The last also takes the remainder. With more clients than positions, every shard but the last is empty. |
| `Distribution.PartitionConcatenates` | main.py:60-69 | The shards laid end to end give back the shuffled index list exactly. |
| `Distribution.ShardsDisjoint` | main.py:66-69 | Two different shards of an index list without duplicates share no element. |
| `Distribution.EveryPositionInExactlyOneShard` | main.py:58-69 | When the input is a permutation of `[0, total)`, every corpus position is in exactly one client's shard. |
| `Distribution.EmptyShards` | main.py:60-67 | With at least as many positions as clients, every shard is non-empty. With more clients than positions, shard 0 is empty. |
| `Distribution.ClientShards` | main.py:48-75 | `num_clients = 0` raises `ZeroDivisionError`. More clients than positions raises `ValueError` from the shuffling loader of the empty shard. Otherwise there are `num_clients` shards, shard `i` is slice `i`, and none is empty. |
| `Distribution.DistributeDataToClients` | main.py:48-75 | The loop over `range(num_clients)` fails exactly when `num_clients = 0` (`ZeroDivisionError`) or there are more clients than positions (`ValueError` at the first empty shard's loader). Otherwise it produces `num_clients` shards, shard `i` is slice `i` of the shuffled list, and the concatenated shards give back that list. |
| `Aggregation.WeightedSum` | main.py:123-127 | Python's `sum` of the trust-scaled updates has the common length. Component `j` is the sum over clients of trust × component `j`. |
| `Aggregation.TrustWeightedAverage` | main.py:123-127 | No updates raises `ZeroDivisionError`. Updates of different lengths fail to add. Otherwise component `j` is the trust-weighted sum of the components `j`, divided by the number of updates. |
| `Aggregation.UniformTrustScalesMean` | main.py:123-127 | When every client has trust `w`, the aggregate is `w` times the plain mean. Where the plain mean of a component is non-zero and `w` ≠ 1, that component of the aggregate differs from the plain mean. |
| `Aggregation.DividesByCountNotByTotalTrust` | main.py:127 | The aggregate is the normalised trust-weighted mean scaled by (total trust / client count). It equals that mean when the trust scores add up to the client count. |
| `Aggregation.HalfTrustExample` | main.py:123-127 | Two clients with trust 0.5 send 2 and 4. The aggregate is 1.5, while the normalised weighted mean would be 3. |
| `Rounds.ClientLoader` | main.py:104-119 | A client with `cid >= num_attackers` trains on its own shard. An attacker under label flipping raises `AttributeError` for `poison_client_data`. An attacker under the backdoor or data-injection attack trains on that module's output for its shard. An unknown attack type leaves the shard as it is. No other case fails. |
| `Rounds.ClientLoaders` | main.py:102-119 | The loop over clients fails exactly when there is a client, at least one attacker, and the attack is label flipping. Otherwise: there is one loader per client; non-attackers keep their shard; an unknown attack type changes no loader; under the backdoor attack each attacker's loader is the backdoor's output, and under the data-injection attack it is the data-injection module's output. |
| `Rounds.Round` | main.py:95-137 | A round never yields a log row. With no clients it raises `ZeroDivisionError`. With more clients than corpus positions it raises `ValueError` while building the loaders. Otherwise, with a label-flipping attacker, it raises the missing-attribute error. |
| `Rounds.WellFormedRoundFailsAtMetricsLookup` | main.py:134-137 | A round that has clients, no label-flipping attacker, updates of one length and a non-empty validation set fails with `TypeError` at `metrics['accuracy']`. |
| `Rounds.RunFrom` | main.py:95-144 | The run succeeds exactly when every remaining round succeeds. The log then gains one row per round, in round order. A failed run carries the error of the first failing round. |
| `Rounds.Run` | main.py:93-144 | Starting from an empty log, the run succeeds exactly when every round succeeds. It then holds one row per round, and row `k` comes from round `k`. A failed run carries the error of the first failing round. |
| `Rounds.RunSucceedsOnlyWithoutRounds` | main.py:95-137 | As written, a run succeeds exactly when it has zero rounds, and then its log is empty. Otherwise the run carries round 0's error. |
| `Rounds.WarnedRounds` | main.py:148-149 | The 1-based round numbers that print the warning are exactly those whose accuracy is below 0.4, in increasing order. |

## Left out

- Dataset download and decoding, transforms and `DataLoader` batching and shuffling (`main.py:27-47`, `71-72`): these are library I/O. A loader is modelled as the subset it wraps (only the `ValueError` a shuffling loader raises for an empty subset is kept), and the batches of the validation set are laid end to end.
- Training, `update_parameters` and the forward pass: these belong to the external ML library. Updates and validation predictions are inputs (`Rounds.Collaborators`).
- RNG seeding and `torch.randperm` (`main.py:54-60`): the shuffled index list is a parameter, and its length stands for the corpus size (`Rounds.Round` states the empty-shard error in terms of it). `Distribution.IsPermutation` states the permutation property where a lemma needs it.
- The Krum, reputation, differential-privacy, monitoring, backdoor and data-injection modules (`main.py:13-17`) are not part of this model. Trust scores and the backdoor and data-injection entry points are function parameters. DP noise (`main.py:129-130`) adds Gaussian floating-point randomness that happens after aggregation, and it is omitted because no modelled result depends on it. `reputation.update` (`main.py:146`) is omitted too, because as written the round fails before reaching it.
- YAML/argparse configuration, console printing and CSV output (`main.py:22-25`, `151-154`). The configuration is the `Rounds.Config` datatype.
- The `source_class`/`target_class` lookups at `main.py:108-109`: as written their values never reach a call, because the call fails first.
- IEEE floating point: ratios and aggregates are exact reals.
- `CrossValidation.Confusion`: labels and predictions have type `Class` = [0, 10). True labels come from the corpus, and predictions come from an arg-max over ten outputs. numpy's wrap-around for negative indices and its `IndexError` for indices ≥ 10 are not modelled.
- `LabelFlipping.PoisonUpdate`: indices are natural numbers, so Python's negative-index wrap is not modelled. When an index raises `IndexError` and the labels were already a list, the source has already changed the labels before that index in place. The model reports only the error. When the labels are already a list, the source mutates that list in place, so every other subset over the same dataset sees the flipped labels; the model returns the new labels and does not represent that sharing.
- `Distribution.DistributeDataToClients`: a negative client count is outside the model because the count is a `nat`.
- `Aggregation.TrustWeightedAverage`: torch broadcasting of a length-1 tensor against a longer one is not modelled. Any length mismatch is reported as a shape error.

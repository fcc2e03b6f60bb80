/**
  The round loop of `main.py`, as written.

  Each round reshuffles and partitions the corpus, lets the first
  `num_attackers` clients apply the configured attack, trains every client,
  multiplies each update by its trust score, averages, evaluates, logs one
  row and warns when accuracy is below 0.4.

  Two calls in the loop do not match the modules they call, and the model
  keeps them as they are:
  - the label-flipping branch calls `label_flipping.poison_client_data`,
    a name that module does not define (it defines `poison_update`), so the
    first attacker raises `AttributeError`;
  - `validate_model` returns the accuracy as a bare number, and the loop
    reads `metrics['accuracy']` from it, which raises `TypeError`.
  Consequently no round completes, and a run succeeds only when it has no
  rounds. The warning rule is modelled on its own (`WarnedRounds`).
 */
module Rounds {
  import opened Outcomes
  import LabelFlipping
  import CrossValidation
  import Distribution
  import Aggregation

  /** Accuracy below this value prints a warning for the round. */
  const WarningThreshold: real := 0.4

  /** `attacks[0].type` from the configuration. */
  datatype AttackType =
    | LabelFlippingAttack
    | BackdoorAttack
    | DataInjectionAttack
    | UnknownAttack(name: string)

  /**
    `attacks[0]`: its type and the optional class keys. The class keys are
    kept for the shape of the configuration only: as written, the values read
    from them never reach a call, because the call they are passed to fails.
   */
  datatype AttackConfig = AttackConfig(kind: AttackType, sourceClass: Option<int>, targetClass: Option<int>)

  /** The configuration entries the round loop reads. */
  datatype Config = Config(numClients: nat, numAttackers: int, rounds: nat, attack: AttackConfig)

  /** Code the loop calls whose source is not part of this model, as plain functions. */
  datatype Collaborators = Collaborators(
    /** `torch.randperm(total_size)` after seeding with the round number; its length is the corpus size */
    permutation: nat -> seq<nat>,
    /** `backdoor_attack.poison_client_data` */
    backdoor: LabelFlipping.Subset -> LabelFlipping.Subset,
    /** `data_injection.poison_client_data` */
    dataInjection: LabelFlipping.Subset -> LabelFlipping.Subset,
    /** `global_model.train_on_client` in the given round, on the model as the earlier rounds left it */
    train: (nat, LabelFlipping.Subset) -> Aggregation.Vec,
    /** `reputation.get_trust` */
    trust: nat -> real,
    /** the forward pass over the validation set after the given round's update */
    predictions: nat -> seq<CrossValidation.Pair>)

  /** One row of the metrics log. */
  datatype LogRow = LogRow(round: nat, accuracy: real, sourceRecall: real, misclassificationRate: real)

  /** The error the label-flipping branch raises: the attribute it looks up does not exist. */
  const MissingEntryPoint: Exception := AttributeError("label_flipping", "poison_client_data")

  /** The error raised by reading a metric out of the bare accuracy. */
  const MetricsNotSubscriptable: Exception := TypeError("accuracy")

  /** The loader client `cid` trains on: its own shard, or the attack's output when `cid < num_attackers`. */
  function ClientLoader(cid: nat, cfg: Config, loader: LabelFlipping.Subset, ext: Collaborators)
    : (r: Result<LabelFlipping.Subset, Exception>)
    ensures cid >= cfg.numAttackers ==> r == Ok(loader)
    ensures r.Err? <==> cid < cfg.numAttackers && cfg.attack.kind == LabelFlippingAttack
    ensures r.Err? ==> r.error == MissingEntryPoint
    ensures cid < cfg.numAttackers && cfg.attack.kind == BackdoorAttack ==> r == Ok(ext.backdoor(loader))
    ensures cid < cfg.numAttackers && cfg.attack.kind == DataInjectionAttack ==> r == Ok(ext.dataInjection(loader))
    ensures cfg.attack.kind.UnknownAttack? ==> r == Ok(loader)
  {
    if cid < cfg.numAttackers then
      match cfg.attack.kind
      case LabelFlippingAttack => Err(MissingEntryPoint)
      case BackdoorAttack => Ok(ext.backdoor(loader))
      case DataInjectionAttack => Ok(ext.dataInjection(loader))
      case UnknownAttack(_) => Ok(loader)
    else Ok(loader)
  }

  /**
    The loaders of all clients, in client order; the first exception stops
    the loop. Clients at or beyond `num_attackers` keep their shard untouched,
    and an unrecognised attack type touches nobody.
   */
  function ClientLoaders(cfg: Config, loaders: seq<LabelFlipping.Subset>, ext: Collaborators)
    : (r: Result<seq<LabelFlipping.Subset>, Exception>)
    ensures r.Err? <==> |loaders| > 0 && cfg.numAttackers > 0 && cfg.attack.kind == LabelFlippingAttack
    ensures r.Err? ==> r.error == MissingEntryPoint
    ensures r.Ok? ==> |r.value| == |loaders|
    ensures r.Ok? ==> forall cid :: 0 <= cid < |loaders| && cid >= cfg.numAttackers ==> r.value[cid] == loaders[cid]
    ensures r.Ok? && cfg.attack.kind.UnknownAttack? ==> r.value == loaders
    ensures r.Ok? && cfg.attack.kind == BackdoorAttack ==>
      forall cid :: 0 <= cid < |loaders| && cid < cfg.numAttackers ==> r.value[cid] == ext.backdoor(loaders[cid])
    ensures r.Ok? && cfg.attack.kind == DataInjectionAttack ==>
      forall cid :: 0 <= cid < |loaders| && cid < cfg.numAttackers ==> r.value[cid] == ext.dataInjection(loaders[cid])
  {
    if |loaders| == 0 then Ok([])
    else
      var n := |loaders| - 1;
      var earlier :- ClientLoaders(cfg, loaders[..n], ext);
      var last :- ClientLoader(n, cfg, loaders[n], ext);
      Ok(earlier + [last])
  }

  /**
    One round. As written it never yields a log row: it stops at the first
    exception of partitioning (no clients, or an empty shard when there are
    more clients than positions), of the attack branch, of the aggregation,
    of the evaluation, or finally of `metrics['accuracy']`.
   */
  function Round(cfg: Config, corpus: LabelFlipping.Dataset, ext: Collaborators, rnd: nat)
    : (r: Result<LogRow, Exception>)
    ensures r.Err?
    ensures cfg.numClients == 0 ==> r.error == ZeroDivisionError
    ensures 0 < cfg.numClients && |ext.permutation(rnd)| < cfg.numClients ==> r.error == Distribution.EmptyShuffle
    ensures (0 < cfg.numClients <= |ext.permutation(rnd)| && cfg.numAttackers > 0 && cfg.attack.kind == LabelFlippingAttack)
      ==> r.error == MissingEntryPoint
  {
    var shards :- Distribution.ClientShards(ext.permutation(rnd), cfg.numClients);
    var subsets := seq(|shards|, i requires 0 <= i < |shards| => LabelFlipping.Subset(corpus, shards[i]));
    var loaders :- ClientLoaders(cfg, subsets, ext);
    var updates := seq(|loaders|, cid requires 0 <= cid < |loaders| => ext.train(rnd, loaders[cid]));
    var trust := seq(|loaders|, cid requires 0 <= cid < |loaders| => ext.trust(cid));
    var aggregated :- Aggregation.TrustWeightedAverage(trust, updates);
    var accuracy :- CrossValidation.ValidateModel(ext.predictions(rnd));
    Err(MetricsNotSubscriptable)
  }

  /**
    `for rnd in range(rounds)`: round `rnd` runs after rounds `0 .. rnd - 1`
    have each appended their row; the first exception ends the run.
   */
  function RunFrom(rounds: nat, round: nat -> Result<LogRow, Exception>, rnd: nat, log: seq<LogRow>)
    : (r: Result<seq<LogRow>, Exception>)
    requires rnd <= rounds
    ensures r.Ok? <==> forall k :: rnd <= k < rounds ==> round(k).Ok?
    ensures r.Ok? ==> |r.value| == |log| + rounds - rnd && r.value[..|log|] == log
    ensures r.Ok? ==> forall k :: rnd <= k < rounds ==> r.value[|log| + k - rnd] == round(k).value
    ensures r.Err? ==> exists k ::
      && rnd <= k < rounds
      && round(k) == Err(r.error)
      && forall k' :: rnd <= k' < k ==> round(k').Ok?
    decreases rounds - rnd
  {
    if rnd == rounds then Ok(log)
    else
      match round(rnd)
      case Err(e) => Err(e)
      case Ok(row) =>
        var rest := RunFrom(rounds, round, rnd + 1, log + [row]);
        if rest.Ok? then
          assert rest.value[..|log|] == (log + [row])[..|log|];
          rest
        else
          rest
  }

  /**
    The whole run, starting from an empty log: it succeeds exactly when every
    round does, and then holds one row per round, row `k` from round `k`.
   */
  function Run(cfg: Config, corpus: LabelFlipping.Dataset, ext: Collaborators): (r: Result<seq<LogRow>, Exception>)
    ensures r.Ok? <==> forall k :: 0 <= k < cfg.rounds ==> Round(cfg, corpus, ext, k).Ok?
    ensures r.Ok? ==> |r.value| == cfg.rounds
    ensures r.Ok? ==> forall k :: 0 <= k < cfg.rounds ==> r.value[k] == Round(cfg, corpus, ext, k).value
    ensures r.Err? ==> exists k ::
      && 0 <= k < cfg.rounds
      && Round(cfg, corpus, ext, k) == Err(r.error)
      && forall k' :: 0 <= k' < k ==> Round(cfg, corpus, ext, k').Ok?
  {
    RunFrom(cfg.rounds, (rnd: nat) => Round(cfg, corpus, ext, rnd), 0, [])
  }

  /** Because no round completes, a run succeeds exactly when it has no rounds, and then logs nothing. */
  lemma RunSucceedsOnlyWithoutRounds(cfg: Config, corpus: LabelFlipping.Dataset, ext: Collaborators)
    ensures Run(cfg, corpus, ext).Ok? <==> cfg.rounds == 0
    ensures Run(cfg, corpus, ext).Ok? ==> Run(cfg, corpus, ext).value == []
    ensures cfg.rounds > 0 ==> Run(cfg, corpus, ext) == Err(Round(cfg, corpus, ext, 0).error)
  {
  }

  /**
    With a well-formed round (clients, at least one position per client, no
    label-flipping attacker, updates of one length, a non-empty validation
    set), the round gets as far as the metrics lookup and fails there.
   */
  lemma WellFormedRoundFailsAtMetricsLookup(cfg: Config, corpus: LabelFlipping.Dataset, ext: Collaborators, rnd: nat, d: nat)
    requires 0 < cfg.numClients <= |ext.permutation(rnd)|
    requires !(cfg.numAttackers > 0 && cfg.attack.kind == LabelFlippingAttack)
    requires forall s :: |ext.train(rnd, s)| == d
    requires |ext.predictions(rnd)| > 0
    ensures Round(cfg, corpus, ext, rnd) == Err(MetricsNotSubscriptable)
  {
    var shards := Distribution.Partition(ext.permutation(rnd), cfg.numClients);
    var subsets := seq(|shards|, i requires 0 <= i < |shards| => LabelFlipping.Subset(corpus, shards[i]));
    var loaders := ClientLoaders(cfg, subsets, ext);
    assert loaders.Ok?;
    var updates := seq(|loaders.value|, cid requires 0 <= cid < |loaders.value| => ext.train(rnd, loaders.value[cid]));
    assert Aggregation.SameLength(updates, |updates[0]|);
  }

  /** A round prints the warning exactly when its accuracy is below the threshold. */
  predicate Warns(accuracy: real) {
    accuracy < WarningThreshold
  }

  /**
    The round numbers (counted from 1, as printed) that get a warning, given
    each round's accuracy in order.
   */
  function WarnedRounds(accuracies: seq<real>): (r: seq<nat>)
    ensures forall k :: k in r <==> 1 <= k <= |accuracies| && Warns(accuracies[k - 1])
    ensures forall a, b :: 0 <= a < b < |r| ==> r[a] < r[b]
  {
    if |accuracies| == 0 then []
    else
      var n := |accuracies| - 1;
      var earlier := WarnedRounds(accuracies[..n]);
      assert forall a :: 0 <= a < |earlier| ==> earlier[a] in earlier;
      if Warns(accuracies[n]) then earlier + [n + 1] else earlier
  }
}

/**
 * The bookkeeping of the DroQ training driver: the configuration checks, the
 * dropping of image keys, the dimension and entropy arithmetic, the replay
 * buffer size and the counters of the update loop with its strict
 * learning-start gate.
 */
module DroQ {
  import opened Wrappers
  import opened Strings
  import opened SeqMath
  import opened TrainingCounters

  // ---------------------------------------------------------------------------
  // Configuration checks

  /** The observation space: None when it is not a Dict space, else the shape of each key. */
  type ObsSpace = Option<map<string, seq<nat>>>

  /** The MLP keys checked one after the other: a missing key raises KeyError, a non-vector one ValueError. */
  function CheckMlpKeys(spaces: map<string, seq<nat>>, keys: seq<string>): (r: Outcome)
    ensures r == Pass <==> forall i :: 0 <= i < |keys| ==> keys[i] in spaces && |spaces[keys[i]]| <= 1
    ensures r.Fail? ==> r.error.KeyError? || r.error.ValueError?
    ensures r.Fail? && r.error.KeyError? ==> exists i :: 0 <= i < |keys| && keys[i] !in spaces
  {
    CheckMlpKeysFrom(spaces, keys, 0)
  }

  /** The checks of the keys from index `from` on. */
  function CheckMlpKeysFrom(spaces: map<string, seq<nat>>, keys: seq<string>, from: nat): (r: Outcome)
    requires from <= |keys|
    ensures r == Pass <==> forall i :: from <= i < |keys| ==> keys[i] in spaces && |spaces[keys[i]]| <= 1
    ensures r.Fail? ==> r.error.KeyError? || r.error.ValueError?
    ensures r.Fail? && r.error.KeyError? ==> exists i :: from <= i < |keys| && keys[i] !in spaces
    decreases |keys| - from
  {
    if from == |keys| then Pass
    else if keys[from] !in spaces then Fail(KeyError(keys[from]))
    else if |spaces[keys[from]]| > 1 then
      Fail(ValueError("Only environments with vector-only observations are supported by the DroQ agent"))
    else CheckMlpKeysFrom(spaces, keys, from + 1)
  }

  /**
   * The checks of `main`, in order: a MineDojo wrapper (whatever the case of
   * its name), a non-Box action space, a non-Dict observation space, no MLP
   * key, and then each MLP key.
   */
  function Validate(wrapperTarget: string, actionIsBox: bool, obs: ObsSpace, mlpKeys: seq<string>): (r: Outcome)
    ensures Contains(Lower(wrapperTarget), "minedojo") ==> r.Fail? && r.error.ValueError?
    ensures r == Pass <==>
      && !Contains(Lower(wrapperTarget), "minedojo")
      && actionIsBox
      && obs.Some?
      && mlpKeys != []
      && forall i :: 0 <= i < |mlpKeys| ==> mlpKeys[i] in obs.value && |obs.value[mlpKeys[i]]| <= 1
    ensures !Contains(Lower(wrapperTarget), "minedojo") && actionIsBox ==>
      (obs.None? || mlpKeys == [] <==> r.Fail? && r.error.RuntimeError?)
  {
    if Contains(Lower(wrapperTarget), "minedojo") then
      Fail(ValueError("MineDojo is not currently supported by DroQ agent"))
    else if !actionIsBox then
      Fail(ValueError("Only continuous action space is supported for the DroQ agent"))
    else if obs.None? then
      Fail(RuntimeError("Unexpected observation type, should be of type Dict"))
    else if mlpKeys == [] then
      Fail(RuntimeError("You should specify at least one MLP key for the encoder: `mlp_keys.encoder=[state]`"))
    else
      CheckMlpKeys(obs.value, mlpKeys)
  }

  /** The MineDojo check sees the wrapper name in any case. */
  lemma MineDojoRejectedInAnyCase()
    ensures Validate("sheeprl.envs.MineDojoWrapper", true, Some(map["state" := [3]]), ["state"]).Fail?
  {
    var name := "sheeprl.envs.MineDojoWrapper";
    assert Lower(name) == "sheeprl.envs.minedojowrapper";
    assert OccursAt(Lower(name), "minedojo", 13);
  }

  /** The encoder key lists, of which the image keys are dropped. */
  class EncoderKeys {
    var cnnEncoder: seq<string>
    var mlpEncoder: seq<string>

    constructor (cnnEncoder: seq<string>, mlpEncoder: seq<string>)
      ensures this.cnnEncoder == cnnEncoder && this.mlpEncoder == mlpEncoder
    {
      this.cnnEncoder := cnnEncoder;
      this.mlpEncoder := mlpEncoder;
    }

    /** Images are not used: the CNN keys are emptied, with a warning when there were some. */
    method IgnoreCnnKeys() returns (warned: bool)
      modifies this
      ensures warned <==> old(cnnEncoder) != []
      ensures cnnEncoder == [] && mlpEncoder == old(mlpEncoder)
    {
      warned := false;
      if |cnnEncoder| > 0 {
        warned := true;
        cnnEncoder := [];
      }
    }
  }

  // ---------------------------------------------------------------------------
  // Dimensions

  /** `prod(action_space.shape)` */
  function ActDim(actionShape: seq<nat>): (r: int)
    ensures actionShape == [] ==> r == 1
    ensures |actionShape| == 1 ==> r == actionShape[0]
  {
    if |actionShape| == 1 then
      assert Prod(actionShape[1..]) == 1;
      Prod(actionShape)
    else
      Prod(actionShape)
  }

  /** `sum(prod(observation_space[k].shape) for k in mlp_keys)` */
  function ObsDim(spaces: map<string, seq<nat>>, keys: seq<string>): int
    requires forall i :: 0 <= i < |keys| ==> keys[i] in spaces
  {
    if keys == [] then 0 else Prod(spaces[keys[0]]) + ObsDim(spaces, keys[1..])
  }

  /** The size of one vector observation: its length, or 1 for a scalar. */
  function VectorSize(shape: seq<nat>): nat
    requires |shape| <= 1
  {
    if shape == [] then 1 else shape[0]
  }

  /**
   * Once the keys pass the checks, the observation size is the total length of
   * the vectors the MLP keys name (scalars counting one), so it is never
   * negative.
   */
  lemma {:induction false} ObsDimOfValidKeys(spaces: map<string, seq<nat>>, keys: seq<string>)
    requires CheckMlpKeys(spaces, keys) == Pass
    ensures ObsDim(spaces, keys) == Sum(seq(|keys|, i requires 0 <= i < |keys| => VectorSize(spaces[keys[i]])))
    ensures ObsDim(spaces, keys) >= 0
  {
    var sizes := seq(|keys|, i requires 0 <= i < |keys| => VectorSize(spaces[keys[i]]));
    if keys != [] {
      var rest := seq(|keys| - 1, i requires 0 <= i < |keys| - 1 => VectorSize(spaces[keys[1..][i]]));
      assert CheckMlpKeys(spaces, keys[1..]) == Pass;
      ObsDimOfValidKeys(spaces, keys[1..]);
      assert sizes[1..] == rest;
      assert Prod(spaces[keys[0]]) == sizes[0];
    }
  }

  /**
   * `target_entropy = -act_dim`: minus one per action component, so negative
   * for any action space with a component.
   */
  function TargetEntropy(actionShape: seq<nat>): (r: int)
    ensures actionShape == [] ==> r == -1
    ensures |actionShape| == 1 ==> r == -(actionShape[0] as int)
    ensures (forall i :: 0 <= i < |actionShape| ==> actionShape[i] > 0) ==> r < 0
  {
    var dims := seq(|actionShape|, i requires 0 <= i < |actionShape| => actionShape[i] as int);
    assert dims == actionShape;
    if forall i :: 0 <= i < |actionShape| ==> actionShape[i] > 0 then
      ProdPositive(dims);
      -ActDim(actionShape)
    else
      -ActDim(actionShape)
  }

  /**
   * The critics read the observation and the action together: once the keys
   * pass the checks, the total length of the MLP keys' vectors plus the
   * action size.
   */
  function CriticInputSize(spaces: map<string, seq<nat>>, keys: seq<string>, actionShape: seq<nat>): (r: int)
    requires forall i :: 0 <= i < |keys| ==> keys[i] in spaces
    ensures CheckMlpKeys(spaces, keys) == Pass ==>
      r == Sum(seq(|keys|, i requires 0 <= i < |keys| => VectorSize(spaces[keys[i]]))) + ActDim(actionShape)
  {
    if CheckMlpKeys(spaces, keys) == Pass then
      ObsDimOfValidKeys(spaces, keys);
      ObsDim(spaces, keys) + ActDim(actionShape)
    else
      ObsDim(spaces, keys) + ActDim(actionShape)
  }

  // ---------------------------------------------------------------------------
  // The update loop

  /** The configuration values the update loop reads, already scaled to updates. */
  datatype LoopConfig = LoopConfig(numEnvs: nat, worldSize: nat, numUpdates: nat, learningStarts: nat,
                                   logLevel: int, logEvery: int, checkpointEvery: int, saveLast: bool,
                                   perRankBatchSize: int)

  /** At least one environment and one rank, as every launched run has. */
  predicate ValidConfig(c: LoopConfig) {
    c.numEnvs > 0 && c.worldSize > 0
  }

  function StepsPerUpdate(c: LoopConfig): nat {
    PolicyStepsPerUpdate(c.numEnvs, c.worldSize)
  }

  /** DroQ trains on every update strictly after `learning_starts`. */
  predicate Trains(c: LoopConfig, update: int) {
    update > c.learningStarts
  }

  /** How many of the updates `first .. last` train, counted one update at a time. */
  function TrainedUpdates(first: int, last: int, learningStarts: int): nat
    decreases last - first
  {
    if last < first then 0
    else TrainedUpdates(first, last - 1, learningStarts) + (if last > learningStarts then 1 else 0)
  }

  /**
   * The count in closed form: every update from `max(first, learning_starts + 1)`
   * to `last` trains, and no other.
   */
  lemma {:induction false} TrainedUpdatesClosedForm(first: int, last: int, learningStarts: int)
    ensures TrainedUpdates(first, last, learningStarts) ==
      (var lo := if learningStarts + 1 > first then learningStarts + 1 else first;
       if last >= lo then last - lo + 1 else 0)
    decreases last - first
  {
    if last >= first {
      TrainedUpdatesClosedForm(first, last - 1, learningStarts);
    }
  }

  /** A fresh run has trained on every update after `learning_starts`. */
  lemma TrainedUpdatesFromStart(last: int, learningStarts: nat)
    ensures TrainedUpdates(1, last, learningStarts) == if last > learningStarts then last - learningStarts else 0
  {
    TrainedUpdatesClosedForm(1, last, learningStarts);
  }

  /** One more update adds `world_size` train steps exactly when it trains. */
  lemma TrainedOneMore(worldSize: nat, first: int, update: int, learningStarts: int)
    requires first <= update
    ensures worldSize * TrainedUpdates(first, update, learningStarts)
            == worldSize * TrainedUpdates(first, update - 1, learningStarts)
               + (if update > learningStarts then worldSize else 0)
  {
    var n := TrainedUpdates(first, update - 1, learningStarts);
    assert worldSize * (n + 1) == worldSize * n + worldSize;
  }

  /** The counters of the running update loop (the rank's view). */
  class DroQLoop {
    const cfg: LoopConfig
    /** The first update of this run and the last one that completed. */
    const startStep: int
    /**
     * How many updates' worth of steps the policy step runs ahead of the
     * completed updates: 0 on a fresh run, 1 on a resumed one.
     */
    const ahead: nat
    /** `per_rank_batch_size`: the configured one, or the one restored from the checkpoint. */
    const perRankBatchSize: int
    var update: int
    var policyStep: int
    var trainStep: int
    var lastLog: int
    var lastCheckpoint: int
    var saved: seq<Checkpoint>

    predicate Consistent()
      reads this
    {
      ValidConfig(cfg) && ahead <= 1 && policyStep == (update + ahead) * StepsPerUpdate(cfg)
    }

    /** Every checkpoint written so far resumes one update ahead as written, and consistently at the next update. */
    ghost predicate SavedResumable()
      reads this
    {
      ValidConfig(cfg) && forall k :: 0 <= k < |saved| ==> Resumable(saved[k], cfg.numEnvs, cfg.worldSize)
    }

    /**
     * The counters before the loop (droq.py:260-265): update 1 and zeros on a
     * fresh run, or the checkpoint resumed as the driver does it, which also
     * restores the per-rank batch size (droq.py:147-149).
     */
    constructor (cfg: LoopConfig, resumeFrom: Option<Checkpoint>)
      requires ValidConfig(cfg)
      ensures var p := StartPoint(resumeFrom, cfg.numEnvs, cfg.worldSize, cfg.perRankBatchSize);
        && this.cfg == cfg && startStep == p.startStep && update == p.startStep - 1 && saved == []
        && policyStep == p.policyStep && trainStep == 0 && lastLog == p.lastLog
        && lastCheckpoint == p.lastCheckpoint
      ensures ahead == if resumeFrom.Some? then 1 else 0
      ensures resumeFrom.Some? ==> startStep == resumeFrom.value.update / cfg.worldSize
      ensures perRankBatchSize ==
        if resumeFrom.Some? then resumeFrom.value.batchSize / cfg.worldSize else cfg.perRankBatchSize
      ensures resumeFrom.None? || WrittenWith(resumeFrom.value, cfg.worldSize) ==> Consistent()
    {
      this.cfg := cfg;
      var p := StartPoint(resumeFrom, cfg.numEnvs, cfg.worldSize, cfg.perRankBatchSize);
      startStep := p.startStep;
      ahead := if resumeFrom.Some? then 1 else 0;
      perRankBatchSize := p.perRankBatchSize;
      update := p.startStep - 1;
      policyStep := p.policyStep;
      trainStep := 0;
      lastLog := p.lastLog;
      lastCheckpoint := p.lastCheckpoint;
      saved := [];
    }

    /** One iteration of the loop body for the next update. */
    method Step()
      requires ValidConfig(cfg)
      modifies this
      ensures update == old(update) + 1
      ensures policyStep == old(policyStep) + StepsPerUpdate(cfg)
      ensures trainStep == old(trainStep) + (if Trains(cfg, update) then cfg.worldSize else 0)
      ensures lastLog == if ShouldLog(cfg.logLevel, policyStep, old(lastLog), cfg.logEvery, update, cfg.numUpdates)
                         then policyStep else old(lastLog)
      ensures lastCheckpoint ==
        if ShouldCheckpoint(cfg.checkpointEvery, policyStep, old(lastCheckpoint), update, cfg.numUpdates, cfg.saveLast)
        then policyStep else old(lastCheckpoint)
      ensures saved == old(saved) +
        (if ShouldCheckpoint(cfg.checkpointEvery, policyStep, old(lastCheckpoint), update, cfg.numUpdates, cfg.saveLast)
         then [Save(update, cfg.worldSize, perRankBatchSize, lastLog, lastCheckpoint)]
         else [])
    {
      var u := update + 1;
      var ps := policyStep + cfg.numEnvs * cfg.worldSize;
      var ts := trainStep;
      if u > cfg.learningStarts {
        ts := ts + cfg.worldSize;
      }
      var ll := lastLog;
      if cfg.logLevel > 0 && (ps - ll >= cfg.logEvery || u == cfg.numUpdates) {
        ll := ps;
      }
      var lc := lastCheckpoint;
      var written := saved;
      if (cfg.checkpointEvery > 0 && ps - lc >= cfg.checkpointEvery) || (u == cfg.numUpdates && cfg.saveLast) {
        lc := ps;
        written := written + [Save(u, cfg.worldSize, perRankBatchSize, ll, lc)];
      }
      update, policyStep, trainStep, lastLog, lastCheckpoint, saved := u, ps, ts, ll, lc, written;
    }

    /**
     * `for update in range(start_step, num_updates + 1)`: runs the remaining
     * updates. Training happens once per update past `learning_starts`, every
     * checkpoint written is `Resumable`, and with
     * `save_last` the last one stores the final update.
     */
    method Run()
      requires Consistent() && update == startStep - 1 && trainStep == 0
      requires SavedResumable()
      modifies this
      ensures Consistent()
      ensures update == if startStep - 1 < cfg.numUpdates then cfg.numUpdates else startStep - 1
      ensures trainStep == cfg.worldSize * TrainedUpdates(startStep, update, cfg.learningStarts)
      ensures SavedResumable()
      ensures startStep <= cfg.numUpdates && cfg.saveLast ==>
        saved != [] && saved[|saved| - 1].update == cfg.numUpdates * cfg.worldSize
    {
      while update < cfg.numUpdates
        invariant Consistent()
        invariant startStep - 1 <= update
        invariant update == startStep - 1 || update <= cfg.numUpdates
        invariant trainStep == cfg.worldSize * TrainedUpdates(startStep, update, cfg.learningStarts)
        invariant SavedResumable()
        invariant update >= startStep && update == cfg.numUpdates && cfg.saveLast ==>
          saved != [] && saved[|saved| - 1].update == cfg.numUpdates * cfg.worldSize
        decreases cfg.numUpdates - update
      {
        ghost var before := saved;
        Step();
        TrainedOneMore(cfg.worldSize, startStep, update, cfg.learningStarts);
        OneMoreUpdate(update + ahead, StepsPerUpdate(cfg));
        SavedIsWrittenWith(update, cfg.worldSize, perRankBatchSize, lastLog, lastCheckpoint);
        WrittenWithIsResumable(Save(update, cfg.worldSize, perRankBatchSize, lastLog, lastCheckpoint),
                               cfg.numEnvs, cfg.worldSize);
        assert forall k :: 0 <= k < |before| ==> saved[k] == before[k];
      }
    }
  }
}

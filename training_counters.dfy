/**
 * The counter arithmetic shared, line for line, by the Plan2Explore and DroQ
 * training drivers: how many environment steps one update covers, how many
 * updates a run has, when metrics are logged and a checkpoint is written, and
 * what a checkpoint stores and gives back on resume.
 */
module TrainingCounters {
  import opened Wrappers

  /** `policy_steps_per_update = num_envs * world_size` */
  function PolicyStepsPerUpdate(numEnvs: nat, worldSize: nat): nat {
    numEnvs * worldSize
  }

  /**
   * `num_updates`: as many whole updates as fit in `total_steps` (one in a dry
   * run).
   */
  function NumUpdates(totalSteps: nat, stepsPerUpdate: nat, dryRun: bool): (r: nat)
    requires stepsPerUpdate > 0
    ensures dryRun ==> r == 1
    ensures !dryRun ==> r * stepsPerUpdate <= totalSteps < (r + 1) * stepsPerUpdate
  {
    if dryRun then 1 else totalSteps / stepsPerUpdate
  }

  /**
   * `learning_starts` in updates: the configured number of environment steps
   * rounded down to whole updates (zero in a dry run), shifted by the start
   * update when a run resumes without its replay buffer.
   */
  function LearningStarts(configured: nat, stepsPerUpdate: nat, dryRun: bool, resumedWithoutBuffer: bool,
                          startStep: nat): (r: nat)
    requires stepsPerUpdate > 0
    ensures var base := r - (if resumedWithoutBuffer then startStep else 0);
      && base >= 0
      && (dryRun ==> base == 0)
      && (!dryRun ==> base * stepsPerUpdate <= configured < (base + 1) * stepsPerUpdate)
  {
    var base := if dryRun then 0 else configured / stepsPerUpdate;
    if resumedWithoutBuffer then base + startStep else base
  }

  /**
   * Size of each rank's replay buffer: the configured size shared among all
   * environments of all ranks, or the fixed `drySize` in a dry run.
   */
  function BufferSize(size: nat, stepsPerUpdate: nat, dryRun: bool, drySize: nat): (r: nat)
    requires stepsPerUpdate > 0
    ensures dryRun ==> r == drySize
    ensures !dryRun ==> r * stepsPerUpdate <= size < (r + 1) * stepsPerUpdate
  {
    if dryRun then drySize else size / stepsPerUpdate
  }

  /** Metrics are logged when logging is on and `log_every` steps have passed, and always on the last update. */
  predicate ShouldLog(logLevel: int, policyStep: int, lastLog: int, logEvery: int, update: int, numUpdates: int) {
    logLevel > 0 && (policyStep - lastLog >= logEvery || update == numUpdates)
  }

  /** A checkpoint is written every `every` steps when `every > 0`, and on the last update when `save_last` is set. */
  predicate ShouldCheckpoint(every: int, policyStep: int, lastCheckpoint: int, update: int, numUpdates: int,
                             saveLast: bool) {
    (every > 0 && policyStep - lastCheckpoint >= every) || (update == numUpdates && saveLast)
  }

  /** The counters a checkpoint stores. */
  datatype Checkpoint = Checkpoint(update: int, batchSize: int, lastLog: int, lastCheckpoint: int)

  /** The counters a run restarts from. */
  datatype ResumePoint = ResumePoint(startStep: int, policyStep: int, lastLog: int, lastCheckpoint: int,
                                     perRankBatchSize: int)

  /** What is saved at the end of `update`: the update scaled by the world size and the global batch size. */
  function Save(update: int, worldSize: nat, perRankBatchSize: int, lastLog: int, lastCheckpoint: int): Checkpoint {
    Checkpoint(update * worldSize, perRankBatchSize * worldSize, lastLog, lastCheckpoint)
  }

  /**
   * Resuming as the drivers do it: the start update is the stored update
   * divided by the world size, and the policy step is the stored update
   * times the number of environments.
   */
  function ResumeAsWritten(c: Checkpoint, numEnvs: nat, worldSize: nat): ResumePoint
    requires worldSize > 0
  {
    ResumePoint(c.update / worldSize, c.update * numEnvs, c.lastLog, c.lastCheckpoint, c.batchSize / worldSize)
  }

  /** Resuming at the update after the checkpointed one. */
  function Resume(c: Checkpoint, numEnvs: nat, worldSize: nat): ResumePoint
    requires worldSize > 0
  {
    ResumePoint(c.update / worldSize + 1, c.update * numEnvs, c.lastLog, c.lastCheckpoint, c.batchSize / worldSize)
  }

  /** Scaling by a positive factor and dividing by it again gives the value back. */
  lemma MulDivCancel(a: int, b: int)
    requires b > 0
    ensures (a * b) / b == a
  {
    var q := (a * b) / b;
    var d := a - q;
    assert d * b == a * b - q * b;
    assert 0 <= d * b < b;
  }

  /**
   * The round trip of a checkpoint written at the end of `update` with the same
   * world size: the resumed policy step is the one the run had reached, the
   * start update is the checkpointed one, and every other counter comes back.
   */
  lemma SaveResumeRoundTrip(update: int, numEnvs: nat, worldSize: nat, perRankBatchSize: int, lastLog: int,
                            lastCheckpoint: int)
    requires worldSize > 0
    ensures var p := ResumeAsWritten(Save(update, worldSize, perRankBatchSize, lastLog, lastCheckpoint),
                                     numEnvs, worldSize);
      && p.startStep == update
      && p.policyStep == update * PolicyStepsPerUpdate(numEnvs, worldSize)
      && p.perRankBatchSize == perRankBatchSize
      && p.lastLog == lastLog && p.lastCheckpoint == lastCheckpoint
  {
    MulDivCancel(update, worldSize);
    MulDivCancel(perRankBatchSize, worldSize);
    assert update * worldSize * numEnvs == update * (numEnvs * worldSize);
  }

  /**
   * The policy step at the top of update `startStep` (before its increment)
   * is `ahead` updates' worth of steps beyond the `startStep - 1` updates
   * already completed.
   */
  predicate StartsAhead(p: ResumePoint, stepsPerUpdate: nat, ahead: int) {
    p.policyStep == (p.startStep - 1 + ahead) * stepsPerUpdate
  }

  /**
   * A run is at a consistent iteration when the policy step at the top of
   * update `u` is `(u - 1)` updates' worth of steps, as it is from a fresh
   * start (`u = 1`, policy step 0).
   */
  predicate ConsistentStart(p: ResumePoint, stepsPerUpdate: nat) {
    StartsAhead(p, stepsPerUpdate, 0)
  }

  /** A checkpoint written with this world size stores a whole number of updates per rank. */
  predicate WrittenWith(c: Checkpoint, worldSize: nat)
    requires worldSize > 0
  {
    c.update % worldSize == 0
  }

  /**
   * How a written checkpoint resumes: as the drivers do it, one update ahead
   * (the checkpointed update runs again); at the next update, consistently.
   */
  predicate Resumable(c: Checkpoint, numEnvs: nat, worldSize: nat)
    requires worldSize > 0
  {
    && StartsAhead(ResumeAsWritten(c, numEnvs, worldSize), PolicyStepsPerUpdate(numEnvs, worldSize), 1)
    && ConsistentStart(Resume(c, numEnvs, worldSize), PolicyStepsPerUpdate(numEnvs, worldSize))
  }

  /** Every checkpoint a run saves is written with its world size. */
  lemma SavedIsWrittenWith(update: int, worldSize: nat, perRankBatchSize: int, lastLog: int, lastCheckpoint: int)
    requires worldSize > 0
    ensures WrittenWith(Save(update, worldSize, perRankBatchSize, lastLog, lastCheckpoint), worldSize)
  {
    MulDivCancel(update, worldSize);
  }

  /** A checkpoint written with the run's world size is resumable in both senses. */
  lemma WrittenWithIsResumable(c: Checkpoint, numEnvs: nat, worldSize: nat)
    requires worldSize > 0 && WrittenWith(c, worldSize)
    ensures Resumable(c, numEnvs, worldSize)
  {
    var q := c.update / worldSize;
    assert c.update == q * worldSize;
    assert c.update * numEnvs == q * (numEnvs * worldSize);
  }

  /**
   * `start_step`, `policy_step`, `last_log` and `last_checkpoint` before the
   * loop: update 1 and zero counters on a fresh run, or the checkpoint
   * resumed as the drivers do it.
   */
  function StartPoint(resumeFrom: Option<Checkpoint>, numEnvs: nat, worldSize: nat, perRankBatchSize: int)
    : (r: ResumePoint)
    requires worldSize > 0
    ensures resumeFrom.None? ==>
      && r.startStep == 1 && r.lastLog == 0 && r.lastCheckpoint == 0
      && ConsistentStart(r, PolicyStepsPerUpdate(numEnvs, worldSize))
    ensures resumeFrom.Some? ==>
      && r.startStep == resumeFrom.value.update / worldSize
      && r.lastLog == resumeFrom.value.lastLog && r.lastCheckpoint == resumeFrom.value.lastCheckpoint
      && (WrittenWith(resumeFrom.value, worldSize) ==> StartsAhead(r, PolicyStepsPerUpdate(numEnvs, worldSize), 1))
    ensures r.perRankBatchSize == if resumeFrom.Some? then resumeFrom.value.batchSize / worldSize else perRankBatchSize
  {
    match resumeFrom
    case None => ResumePoint(1, 0, 0, 0, perRankBatchSize)
    case Some(c) =>
      if WrittenWith(c, worldSize) then
        WrittenWithIsResumable(c, numEnvs, worldSize);
        ResumeAsWritten(c, numEnvs, worldSize)
      else
        ResumeAsWritten(c, numEnvs, worldSize)
  }

  /**
   * As written, resuming is not consistent: the first update of the resumed
   * run is the checkpointed one again, with the policy step the saved run
   * had reached after it, so the run ends that update one update's worth of
   * steps beyond where the saved run ended it.
   */
  lemma ResumeAsWrittenRepeatsUpdate(update: int, numEnvs: nat, worldSize: nat, perRankBatchSize: int,
                                     lastLog: int, lastCheckpoint: int)
    requires worldSize > 0 && numEnvs > 0
    ensures var p := ResumeAsWritten(Save(update, worldSize, perRankBatchSize, lastLog, lastCheckpoint),
                                     numEnvs, worldSize);
      var k := PolicyStepsPerUpdate(numEnvs, worldSize);
      && p.startStep == update
      && p.policyStep == update * k
      && p.policyStep + k == (update + 1) * k
      && StartsAhead(p, k, 1)
      && !ConsistentStart(p, k)
  {
    SaveResumeRoundTrip(update, numEnvs, worldSize, perRankBatchSize, lastLog, lastCheckpoint);
    assert PolicyStepsPerUpdate(numEnvs, worldSize) > 0;
  }

  /** A concrete instance: one environment, one rank, checkpoint after update 3. */
  lemma ResumeAsWrittenExample()
    ensures ResumeAsWritten(Save(3, 1, 16, 3, 3), 1, 1) == ResumePoint(3, 3, 3, 3, 16)
    ensures !ConsistentStart(ResumeAsWritten(Save(3, 1, 16, 3, 3), 1, 1), 1)
  {
  }

  /** Resuming at the next update continues exactly where the saved run stopped. */
  lemma ResumeContinuesRun(update: int, numEnvs: nat, worldSize: nat, perRankBatchSize: int, lastLog: int,
                           lastCheckpoint: int)
    requires worldSize > 0
    ensures var p := Resume(Save(update, worldSize, perRankBatchSize, lastLog, lastCheckpoint), numEnvs, worldSize);
      && p.startStep == update + 1
      && ConsistentStart(p, PolicyStepsPerUpdate(numEnvs, worldSize))
      && p.perRankBatchSize == perRankBatchSize
      && p.lastLog == lastLog && p.lastCheckpoint == lastCheckpoint
  {
    SaveResumeRoundTrip(update, numEnvs, worldSize, perRankBatchSize, lastLog, lastCheckpoint);
  }

  /** One more update adds one update's worth of policy steps. */
  lemma OneMoreUpdate(update: int, stepsPerUpdate: nat)
    ensures (update - 1) * stepsPerUpdate + stepsPerUpdate == update * stepsPerUpdate
  {
  }
}

# sheeprl bookkeeping core, modelled in Dafny

sheeprl is a reinforcement-learning library: Dreamer, Plan2Explore, DroQ and
others, trained with PyTorch and Lightning Fabric. Almost all of it is
gradient code. This project models the small sequential rules inside that
code that decide what is trained, when, and with which shapes:

- `LambdaReturns` — the backward lambda-return recurrence of Dreamer-V1
  (`compute_lambda_values`), on one batch element, over `real`.
- `LogDir` — how `get_log_dir` picks the next `version_N` run directory from a
  directory listing, and the rank/log-level gate of the TensorBoard logger.
- `DreamerV2Agent` — the Dreamer-V2 actor's distribution resolution and head
  widths, its `expl_amount` property, the player's per-environment state reset
  (`init_states`) and exploration-action selection, the `is_first` masking in
  `RSSM.dynamic`, the size arithmetic that wires the modules together, and the
  decoder's channel split.
- `TrainingCounters` — the counter arithmetic shared by the Plan2Explore and
  DroQ drivers: steps per update, number of updates, learning start, buffer
  size, logging and checkpoint gates, and the checkpoint save/resume round trip.
- `P2EExploration` — the Plan2Explore-DV3 exploration driver: key validation,
  the in-place rewrite of the metric configuration, the action shift and
  `is_first` forcing of a training batch, the replay-buffer wrap-around index,
  the restart and reset bookkeeping of a step, and the update loop as a class
  with counter fields.
- `DroQ` — the DroQ driver: configuration checks, the dropping of image keys,
  dimension and entropy arithmetic, and the update loop with its strict
  learning-start gate.
- `Wrappers`, `Strings`, `SeqMath` — the `Result`/`Outcome` types carrying the
  Python exception a path raises, ASCII string helpers (`lower`, `startswith`,
  `in`, `int()`, `str()`), and `sum`/`prod`.

Python integers are unbounded, as Dafny's are. Floats are modelled as `real`.
Tensors are modelled as sequences of rows, one row per environment or per
step. Anything random or produced by a network (samples, noise, network
outputs) becomes a parameter of the operation that uses it.

Both update loops resume from a checkpoint as the drivers do. The checkpointed
update then runs a second time, so a resumed run's policy step is one update
ahead of its completed updates. The loops record this offset as `ahead`. The
corrected resume is modelled and proved beside them (see "## Findings").

## Model

| member | source | states |
|---|---|---|
| LambdaReturns.LambdaReturn | sheeprl/algos/dreamer_v1/utils.py:55-61 | Definition of the lambda-return at a step by the backward recurrence, bootstrapping from `last_values` at step `horizon - 2`. `ComputeLambdaValues` and `LambdaReturnIsWeightedSum` state its properties. |
| LambdaReturns.ComputeLambdaValues | sheeprl/algos/dreamer_v1/utils.py:28-63 | A horizon below 2 leaves no step, and stacking the empty list raises RuntimeError, exactly then. Otherwise the backward loop returns `horizon - 1` targets, with entry `i` for step `i`. The last entry is `reward + last_value * done_mask` of step `h-2`. A step whose done mask is 0 gets its own reward, whatever comes later. Every entry equals the recursive reference `LambdaReturn`. |
| LambdaReturns.ReversedTwice | sheeprl/algos/dreamer_v1/utils.py:63 | `reversed` is an involution: reversing the accumulated list twice gives it back, so the reversal loses and reorders nothing beyond the order. |
| LambdaReturns.WeightShift | sheeprl/algos/dreamer_v1/utils.py:61 | The discount weight of a later one-step target factors through `lmbda * done_mask[s]`. |
| LambdaReturns.WeightedSumShift | sheeprl/algos/dreamer_v1/utils.py:59-61 | The weighted sum of one-step targets from step `s` unfolds into step `s`'s target plus the discounted sum from `s + 1`. |
| LambdaReturns.LambdaReturnEnds | sheeprl/algos/dreamer_v1/utils.py:55-61 | The return at step `h-2` is `reward + last_value * done_mask`. At a step whose done mask is 0 the return is just the reward. |
| LambdaReturns.LambdaReturnIsWeightedSum | sheeprl/algos/dreamer_v1/utils.py:55-62 | The recurrence equals the closed form: a sum of one-step targets weighted by products of `lmbda * done_mask`. |
| LogDir.GetLogDir | sheeprl/utils/logger.py:47-65 | A failed listing gives `save_dir/version_0`. Otherwise a non-integer version name raises ValueError. If every name parses, the result is `save_dir/version_{v}`, where `v` is 0 when no version directory exists and `max + 1` otherwise. |
| LogDir.Join | sheeprl/utils/logger.py:62 | Definition of POSIX `os.path.join` of two parts: an absolute second part replaces the first, otherwise one `/` separates them. `BasenameOfVersionDir` states that the joined version directory has the version name as its basename. |
| LogDir.IsVersionDir | sheeprl/utils/logger.py:55 | Definition of the entry test: a directory whose basename starts with `version_`. `VersionsCoverEveryDir` and `VersionSource` state what it selects. |
| LogDir.ParseVersion | sheeprl/utils/logger.py:56-57 | Definition of the version of a version directory: the text after `version_` up to the next `_`, slashes removed, read by `int()`. `VersionDirReadsBack` states its round trip. |
| LogDir.Versions | sheeprl/utils/logger.py:52-57 | Definition of the scan: the versions of the version directories in order, or None at the first unreadable one. `VersionsSucceedIff`, `VersionsCoverEveryDir` and `VersionSource` state its properties. |
| LogDir.CollectVersions | sheeprl/utils/logger.py:51-57 | The scan loop collects the parsed versions of the version directories in listing order, and raises ValueError as soon as one does not parse. |
| LogDir.Basename | sheeprl/utils/logger.py:54 | The basename contains no `/` and is a suffix of the path. |
| LogDir.UpTo | sheeprl/utils/logger.py:56 | The piece taken after `version_` stops before the next `_`. |
| LogDir.RemoveSlashes | sheeprl/utils/logger.py:56 | No `/` remains after the replacement. |
| LogDir.Max | sheeprl/utils/logger.py:61 | `max` is an element of the list and bounds every element. |
| LogDir.NextVersion | sheeprl/utils/logger.py:58-61 | The new version is 0 for no versions, else greater than every existing one, and one more than an existing one. |
| LogDir.PrefixFailurePersists | sheeprl/utils/logger.py:52-57 | Once a name fails to parse, the whole scan fails, whatever follows. |
| LogDir.VersionsSucceedIff | sheeprl/utils/logger.py:55-57 | The scan succeeds exactly when every entry is readable: either it is not a directory named `version_*`, or its version is an integer. |
| LogDir.VersionsCoverEveryDir | sheeprl/utils/logger.py:55-57 | Every version directory's number is among the collected versions. |
| LogDir.VersionSource | sheeprl/utils/logger.py:55-57 | Every collected version comes from a version directory; files and other names are ignored. |
| LogDir.NoVersionDirsGivesZero | sheeprl/utils/logger.py:55-59 | With no version directory, the version is 0. |
| LogDir.NewVersionExceedsExisting | sheeprl/utils/logger.py:60-61 | The chosen version is strictly greater than every existing version directory's. |
| LogDir.BasenameAfterSlash | sheeprl/utils/logger.py:54 | The basename of `dir/name` is `name`. |
| LogDir.NoUnderscoreUpTo | sheeprl/utils/logger.py:56 | A name with no `_` is kept whole by the split. |
| LogDir.NoSlashRemove | sheeprl/utils/logger.py:56 | A name with no `/` is unchanged by the replacement. |
| LogDir.IntToStringPlain | sheeprl/utils/logger.py:62 | A formatted integer contains neither `/` nor `_`. |
| LogDir.BasenameOfVersionDir | sheeprl/utils/logger.py:62 | The directory created is named `version_` followed by the formatted version. |
| LogDir.VersionDirReadsBack | sheeprl/utils/logger.py:55-62 | A directory created as `version_{v}` is recognised by a later scan and parsed back to `v`. |
| LogDir.NextRunGetsLargerVersion | sheeprl/utils/logger.py:55-62 | After a run creates its version directory, the next run's version is strictly larger. |
| LogDir.CreateTensorboardLogger | sheeprl/utils/logger.py:11-21 | A logger exists exactly on rank 0 with `log_level > 0`. It is rooted at `logs/runs/<root_dir>` and named after the run. |
| Strings.Lower | sheeprl/algos/dreamer_v2/agent.py:455 | `lower()` keeps the length, leaves no ASCII capital, keeps every other character, and maps a capital to the letter 32 code points above it. |
| Strings.LowerIdempotent | sheeprl/algos/dreamer_v2/agent.py:455 | Lower-casing twice is lower-casing once. |
| Strings.ParseIntOfIntToString | sheeprl/utils/logger.py:57-62 | `int()` reads back the text `str()` wrote for any integer, negative ones included. |
| Strings.NatToString | sheeprl/utils/logger.py:62 | The decimal text of a natural number is all digits, has the number's value, and has no leading zero. |
| Strings.IntToString | sheeprl/utils/logger.py:62 | Definition of `str()` of an integer: a minus sign before the digits of a negative one. `ParseIntOfIntToString` and `IntToStringPlain` state its properties. |
| Strings.ParseInt | sheeprl/utils/logger.py:57 | Definition of `int()` on text: surrounding whitespace stripped, an optional sign, then decimal digits; anything else is None (a ValueError). `ParseIntOfIntToString`, `ReadDigitsOfDigits` and `ReadDigitsOnlyDigits` state its properties. |
| Strings.StripLeftSuffix | sheeprl/utils/logger.py:57 | `int()` ignores leading whitespace: what is left is a suffix starting with a non-space. |
| Strings.StripRightPrefix | sheeprl/utils/logger.py:57 | `int()` ignores trailing whitespace: what is left is a prefix ending with a non-space. |
| Strings.ReadDigitsOfDigits | sheeprl/utils/logger.py:57 | A string of digits is read as its decimal value. |
| Strings.ReadDigitsOnlyDigits | sheeprl/utils/logger.py:57 | Only strings made of digits are read as a number; anything else makes `int()` raise. |
| Strings.StripNoSpace | sheeprl/utils/logger.py:57 | Text without surrounding whitespace is not changed by stripping. |
| SeqMath.Sum | sheeprl/algos/dreamer_v2/agent.py:936 | A sum of non-negative sizes is non-negative. |
| SeqMath.SumAppend | sheeprl/algos/dreamer_v2/agent.py:160-188 | The sum of a concatenation is the sum of its parts. |
| DreamerV2Agent.ResolveDistribution | sheeprl/algos/dreamer_v2/agent.py:455-468 | The lower-cased type (default `auto`) is accepted exactly when it is one of the five known names and is not `discrete` with continuous actions. Every rejection is ValueError. The result is never `auto`, and `discrete` only for discrete actions. |
| DreamerV2Agent.ResolveDistributionChoice | sheeprl/algos/dreamer_v2/agent.py:464-468 | `auto` becomes `trunc_normal` for continuous actions and `discrete` otherwise. An explicit valid type is kept. |
| DreamerV2Agent.ResolveIsCaseInsensitive | sheeprl/algos/dreamer_v2/agent.py:455 | For every configured name, resolving it gives the same result as resolving its lower-cased form, so the case of the name never matters. |
| DreamerV2Agent.HeadWidths | sheeprl/algos/dreamer_v2/agent.py:478-481 | A continuous actor has one head of width `2 * sum(actions_dim)`. A discrete actor has one head per action dimension, each as wide as that dimension. |
| DreamerV2Agent.LatentStateSize | sheeprl/algos/dreamer_v2/agent.py:905-906 | Definition of `latent_state_size = stochastic_size * discrete_size + recurrent_state_size`. `PlayerFeaturesAreLatentState` states that the actor's input has this size. |
| DreamerV2Agent.RecurrentInputSize | sheeprl/algos/dreamer_v2/agent.py:936 | Definition of the recurrent model's input size, `sum(actions_dim) + stochastic_size * discrete_size`. `DynamicInputFitsRecurrentModel` states that the built input has this size. |
| DreamerV2Agent.NewActor | sheeprl/algos/dreamer_v2/agent.py:455-488 | Construction fails exactly when the resolution fails, with the same error. Otherwise it yields a fresh actor with the resolved distribution, the head widths and the exploration amount. |
| DreamerV2Agent.Actor.constructor | sheeprl/algos/dreamer_v2/agent.py:455-488 | The actor keeps the configured fields and the head widths of its action space. |
| DreamerV2Agent.Actor.SetExplAmount | sheeprl/algos/dreamer_v2/agent.py:489-495 | The setter changes the amount the getter returns and nothing else. |
| SeqMath.Zeros | sheeprl/algos/dreamer_v2/agent.py:799-808 | A zero row of the given width: every entry is 0. |
| DreamerV2Agent.ZeroRows | sheeprl/algos/dreamer_v2/agent.py:799-804 | `torch.zeros(1, n, w)` has `n` rows of width `w`. |
| DreamerV2Agent.Normalize | sheeprl/algos/dreamer_v2/agent.py:805-808 | An in-range Python index, negative ones included, names an environment below `n`. |
| DreamerV2Agent.ResetRows | sheeprl/algos/dreamer_v2/agent.py:805-808 | `rows[:, envs] = 0` keeps the number of rows, zeroes the selected rows and leaves the others unchanged. |
| DreamerV2Agent.ResetRowsKeepsShape | sheeprl/algos/dreamer_v2/agent.py:805-808 | A partial reset keeps every state's shape. |
| DreamerV2Agent.SelectedAllIndices | sheeprl/algos/dreamer_v2/agent.py:805-808 | The list `0 .. n-1` selects exactly the environments `0 .. n-1`. |
| DreamerV2Agent.ResetAllIsFullReset | sheeprl/algos/dreamer_v2/agent.py:799-808 | A partial reset listing every environment equals the full reset. |
| DreamerV2Agent.ResetRowsIdempotent | sheeprl/algos/dreamer_v2/agent.py:805-808 | Resetting the same environments twice is resetting them once. |
| DreamerV2Agent.Cat | sheeprl/algos/dreamer_v2/agent.py:861 | `torch.cat(actions, -1)` keeps one row per environment. |
| DreamerV2Agent.CatRowLength | sheeprl/algos/dreamer_v2/agent.py:861 | A concatenated row is as wide as the heads' rows together. |
| DreamerV2Agent.PlayerDV2.constructor | sheeprl/algos/dreamer_v2/agent.py:742-790 | The player keeps its actor, action dimensions, number of environments and state sizes. |
| DreamerV2Agent.PlayerDV2.InitStates | sheeprl/algos/dreamer_v2/agent.py:791-808 | With no list or an empty list, actions, recurrent and stochastic states become zeros of widths `sum(actions_dim)`, `R` and `S*D`. With a list, exactly the listed environments (negative indices counting from the end) are zeroed and the rest keep their state. An out-of-range index raises IndexError and nothing changes. |
| DreamerV2Agent.PlayerDV2.GetExplorationAction | sheeprl/algos/dreamer_v2/agent.py:810-862 | From valid states, the greedy step stores the new recurrent and stochastic states. The actions come from the noisy heads exactly when `expl_amount > 0`, else from the greedy ones, concatenated per environment. The states stay valid, so `init_states` on a list of environments can follow. |
| DreamerV2Agent.PlayerFeaturesAreLatentState | sheeprl/algos/dreamer_v2/agent.py:906 | The stochastic state followed by the recurrent state of any environment has exactly `latent_state_size` entries. |
| DreamerV2Agent.Masked | sheeprl/algos/dreamer_v2/agent.py:355-357 | `(1 - is_first) * x` is zero when `is_first = 1` and `x` when `is_first = 0`, and keeps the length. |
| DreamerV2Agent.Flatten | sheeprl/algos/dreamer_v2/agent.py:356 | Definition of `posterior.view(..., -1)` as the rows read one after the other. `FlattenLength` states its size. |
| DreamerV2Agent.FlattenLength | sheeprl/algos/dreamer_v2/agent.py:356 | Flattening `S` rows of `D` entries gives `S*D` entries. |
| DreamerV2Agent.DynamicInputs | sheeprl/algos/dreamer_v2/agent.py:355-363 | On the first step of an episode the recurrent model sees a zero action, a zero posterior and a zero recurrent state. On any other step it sees them unchanged. |
| DreamerV2Agent.DynamicInputFitsRecurrentModel | sheeprl/algos/dreamer_v2/agent.py:355-363 | The input `dynamic` builds has exactly the recurrent model's input size, `sum(actions_dim) + S*D`. |
| DreamerV2Agent.Split | sheeprl/algos/dreamer_v2/agent.py:188 | `torch.split` gives one piece per size, each of that size, and the pieces put back together are the input. |
| DreamerV2Agent.ZipToMap | sheeprl/algos/dreamer_v2/agent.py:188 | The dictionary built from `zip(keys, parts)` has exactly the zipped keys. |
| DreamerV2Agent.SplitPiece | sheeprl/algos/dreamer_v2/agent.py:188 | Piece `i` is the slice that starts after the sizes before it. |
| DreamerV2Agent.ZipToMapAt | sheeprl/algos/dreamer_v2/agent.py:188 | With distinct keys, key `i` maps to part `i`. |
| DreamerV2Agent.DecodeChannelsSlices | sheeprl/algos/dreamer_v2/agent.py:160-190 | Each image key receives the consecutive slice of the decoder output of its own channel count. The slices tile the `sum(output_channels)` channels. |
| DreamerV2Agent.DecodeChannels | sheeprl/algos/dreamer_v2/agent.py:188 | Definition of the decoder output split: `torch.split` by the output channels, zipped with the keys. `DecodeChannelsSlices` states which slice each key gets. |
| TrainingCounters.PolicyStepsPerUpdate | sheeprl/algos/p2e_dv3/p2e_dv3_exploration.py:814 | Definition of `policy_steps_per_update = num_envs * world_size`, the step every loop invariant counts in. |
| TrainingCounters.NumUpdates | sheeprl/algos/p2e_dv3/p2e_dv3_exploration.py:816 | `num_updates` is the number of whole updates that fit in `total_steps`, or 1 in a dry run. |
| TrainingCounters.LearningStarts | sheeprl/algos/droq/droq.py:268-270 | `learning_starts` is the configured steps in whole updates (0 in a dry run), shifted by `start_step` when resuming without a buffer. |
| TrainingCounters.BufferSize | sheeprl/algos/p2e_dv3/p2e_dv3_exploration.py:788 | Each rank's buffer holds the configured size shared among all environments, or a fixed size in a dry run: 4 for Plan2Explore and 1 for DroQ (sheeprl/algos/droq/droq.py:242). |
| TrainingCounters.ShouldLog | sheeprl/algos/p2e_dv3/p2e_dv3_exploration.py:1049 | Definition of the logging gate: logging on and `log_every` steps passed, or the last update. `NextKeepsGaps` states the gap it keeps. |
| TrainingCounters.ShouldCheckpoint | sheeprl/algos/p2e_dv3/p2e_dv3_exploration.py:1079-1081 | Definition of the checkpoint gate: `every > 0` and `every` steps passed, or the last update with `save_last`. `NextKeepsGaps` states the gap it keeps. |
| TrainingCounters.Save | sheeprl/algos/p2e_dv3/p2e_dv3_exploration.py:1101-1103 | Definition of what a checkpoint stores: the update times the world size, the global batch size and the two last-step counters. `SaveResumeRoundTrip` states its round trip. |
| TrainingCounters.ResumeAsWritten | sheeprl/algos/p2e_dv3/p2e_dv3_exploration.py:810-813 | Definition of the drivers' resume: start at the stored update divided by the world size, with the stored update times `num_envs` as policy step. `SaveResumeRoundTrip` and `ResumeAsWrittenRepeatsUpdate` state its properties. |
| TrainingCounters.Resume | sheeprl/algos/p2e_dv3/p2e_dv3_exploration.py:810-813 | Definition of the corrected resume, one update later than `ResumeAsWritten`. `ResumeContinuesRun` states its property. |
| TrainingCounters.StartPoint | sheeprl/algos/p2e_dv3/p2e_dv3_exploration.py:810-813 | Update 1 and zero counters on a fresh run (a consistent start); on resume, the checkpoint resumed as the drivers do it, starting at the stored update divided by the world size with its last-log and last-checkpoint steps, and one update ahead for a checkpoint written with this world size. The per-rank batch size is the configured one on a fresh run and the stored batch size divided by the world size on resume. |
| TrainingCounters.SavedIsWrittenWith | sheeprl/algos/p2e_dv3/p2e_dv3_exploration.py:1102 | A stored update is a whole number of updates per rank. |
| TrainingCounters.WrittenWithIsResumable | sheeprl/algos/p2e_dv3/p2e_dv3_exploration.py:810-811 | A checkpoint written with the run's world size resumes one update ahead as the drivers do it, and consistently at the next update. |
| TrainingCounters.SaveResumeRoundTrip | sheeprl/algos/p2e_dv3/p2e_dv3_exploration.py:810-813 | As written, the save/resume round trip gives back `start_step = update` and `policy_step = update * num_envs * world_size`, plus the batch size, `last_log` and `last_checkpoint`. |
| TrainingCounters.ResumeAsWrittenRepeatsUpdate | sheeprl/algos/droq/droq.py:262-263 | As written, the resumed run starts at the checkpointed update with the policy step already past it, so that update runs a second time. |
| TrainingCounters.ResumeAsWrittenExample | sheeprl/algos/p2e_dv3/p2e_dv3_exploration.py:810-811 | A checkpoint after update 3 (one environment, one rank) resumes at update 3 with policy step 3, which is inconsistent. |
| TrainingCounters.ResumeContinuesRun | sheeprl/algos/p2e_dv3/p2e_dv3_exploration.py:810-813 | Resuming at the update after the checkpointed one continues exactly where the saved run stopped. All other counters come back. |
| P2EExploration.ValidateKeys | sheeprl/algos/p2e_dv3/p2e_dv3_exploration.py:604-625 | The configuration passes exactly when the observation space is a Dict, some encoder key exists, the CNN or the MLP encoder/decoder pair overlaps, and every decoder key is encoded. Every failure is RuntimeError, and a non-Dict space fails first. |
| P2EExploration.GenericKeysDoNotExtend | sheeprl/algos/p2e_dv3/p2e_dv3_exploration.py:758-782 | No generic metric name is a prefix of another. |
| P2EExploration.CriticKeyInjective | sheeprl/algos/p2e_dv3/p2e_dv3_exploration.py:760-776 | A per-critic key is never a generic key and determines the generic key it was copied from. |
| P2EExploration.CopyKeyKeepsGeneric | sheeprl/algos/p2e_dv3/p2e_dv3_exploration.py:759-776 | Copying one metric leaves the generic keys as they were. |
| P2EExploration.CopyForCriticKeepsGeneric | sheeprl/algos/p2e_dv3/p2e_dv3_exploration.py:759-776 | One critic's copies leave the generic keys as they were. |
| P2EExploration.CopyAllKeepsGeneric | sheeprl/algos/p2e_dv3/p2e_dv3_exploration.py:758-776 | The copy loop leaves the generic keys as they were. |
| P2EExploration.CopyAllKeepsOthers | sheeprl/algos/p2e_dv3/p2e_dv3_exploration.py:758-776 | The copy loop does not touch a key that is not a per-critic copy. |
| P2EExploration.CopyKeyKeepsCopy | sheeprl/algos/p2e_dv3/p2e_dv3_exploration.py:759-776 | A copy already made is never overwritten with another value. |
| P2EExploration.CopyKeyMakesCopy | sheeprl/algos/p2e_dv3/p2e_dv3_exploration.py:759-776 | Copying a present metric for a critic that takes it writes `<key>_<critic>`. |
| P2EExploration.CopyForCriticKeepsCopy | sheeprl/algos/p2e_dv3/p2e_dv3_exploration.py:758-776 | Another critic's copies keep an earlier copy. |
| P2EExploration.CopyForCriticMakesCopy | sheeprl/algos/p2e_dv3/p2e_dv3_exploration.py:759-776 | One critic's copies include every present generic metric it takes. |
| P2EExploration.CopyAllCopies | sheeprl/algos/p2e_dv3/p2e_dv3_exploration.py:758-776 | After the loop, every critic holds a copy of every present generic metric, with `Rewards/intrinsic` only for intrinsic critics. |
| P2EExploration.RewrittenMetricsProperties | sheeprl/algos/p2e_dv3/p2e_dv3_exploration.py:758-782 | After the rewrite, the five generic keys are absent and every copy is present with the generic value. Every other key is untouched. |
| P2EExploration.AggregatorConfig.constructor | sheeprl/algos/p2e_dv3/p2e_dv3_exploration.py:758 | The configuration holds the given metrics. |
| P2EExploration.AggregatorConfig.AddCriticMetrics | sheeprl/algos/p2e_dv3/p2e_dv3_exploration.py:758-782 | The in-place rewrite leaves exactly the metrics of `RewrittenMetrics`. |
| P2EExploration.AggregatorConfig.CopyForCriticInPlace | sheeprl/algos/p2e_dv3/p2e_dv3_exploration.py:759-776 | One loop iteration makes exactly one critic's copies. |
| P2EExploration.AggregatorConfig.PopGeneric | sheeprl/algos/p2e_dv3/p2e_dv3_exploration.py:778-782 | Popping removes exactly the five generic keys, present or not. |
| P2EExploration.ShiftActions | sheeprl/algos/p2e_dv3/p2e_dv3_exploration.py:125 | The shifted actions keep the length. Row 0 is zero and row `t` is action `t - 1`. |
| P2EExploration.ShiftActionsDropsLast | sheeprl/algos/p2e_dv3/p2e_dv3_exploration.py:123-125 | The shift drops exactly the last action. |
| P2EExploration.ForceFirst | sheeprl/algos/p2e_dv3/p2e_dv3_exploration.py:121 | Row 0 of `is_first` becomes 1 in place and the other rows are unchanged. An empty batch raises IndexError. |
| P2EExploration.LastInsertedIndex | sheeprl/algos/p2e_dv3/p2e_dv3_exploration.py:916 | `(pos - 1) % size` is in range and is the slot just before `pos` modulo the size: `size - 1` for `pos = 0`, `pos - 1` for `0 < pos <= size`. |
| P2EExploration.WrapAround | sheeprl/algos/p2e_dv3/p2e_dv3_exploration.py:916 | Python's `%` with a positive divisor stays in range and steps back by one slot. |
| P2EExploration.SequentialBuffers.constructor | sheeprl/algos/p2e_dv3/p2e_dv3_exploration.py:789-790 | The buffers keep the given size, positions and columns, and for a positive size with one column of that size per environment they satisfy the invariant `Valid()` that `MarkRestarts` relies on. |
| P2EExploration.StepData.constructor | sheeprl/algos/p2e_dv3/p2e_dv3_exploration.py:861-863 | Before the first step, no environment is done and every one is starting. |
| P2EExploration.SetAt | sheeprl/algos/p2e_dv3/p2e_dv3_exploration.py:917-920 | Writing one slot changes that slot only. |
| P2EExploration.MarkRestarts | sheeprl/algos/p2e_dv3/p2e_dv3_exploration.py:912-921 | `is_first` is cleared, except for environments restarted without being done. For those, the last stored transition becomes done and not first, and `is_first` is set. Nothing else changes. |
| P2EExploration.DoneIndices | sheeprl/algos/p2e_dv3/p2e_dv3_exploration.py:960 | `nonzero()` lists exactly the done environments, in increasing order. |
| P2EExploration.RecordOutcome | sheeprl/algos/p2e_dv3/p2e_dv3_exploration.py:955-978 | A reset record exists exactly when some environment is done. It has dones 1, is_first 0, zero actions and those environments' rewards. Afterwards exactly the done environments have reward and done 0 and is_first 1. |
| P2EExploration.StartOver | sheeprl/algos/p2e_dv3/p2e_dv3_exploration.py:975-977 | The listed environments get reward 0, done 0 and is_first 1. Every other environment keeps its step data. |
| P2EExploration.TrainCountdown | sheeprl/algos/p2e_dv3/p2e_dv3_exploration.py:815 | Definition of `updates_before_training = train_every // policy_steps_per_update`. `TrainsWhenCountdownRunsOut` states the cadence it gives. |
| P2EExploration.Trains | sheeprl/algos/p2e_dv3/p2e_dv3_exploration.py:984 | Definition of the training gate: learning started and the decremented countdown run out. `TrainsWhenCountdownRunsOut` and `RandomPhaseTrainsOnlyAtStart` state its properties. |
| P2EExploration.SampleCount | sheeprl/algos/p2e_dv3/p2e_dv3_exploration.py:988-990 | Definition of the number of sampled batches: the pretraining steps on the update where learning starts, else the gradient steps. `RandomPhaseTrainsOnlyAtStart` states when the first applies. |
| P2EExploration.Next | sheeprl/algos/p2e_dv3/p2e_dv3_exploration.py:867-1082 | Definition of one iteration of the loop on the counters. `ExplorationLoop.Step` is proved to compute it, and `NextKeepsGaps` and `TrainsWhenCountdownRunsOut` state its properties. |
| P2EExploration.Iterate | sheeprl/algos/p2e_dv3/p2e_dv3_exploration.py:867 | Definition of `n` iterations of `Next` for consecutive updates. `CountdownWithoutTraining` and `TrainsWhenCountdownRunsOut` state its properties. |
| P2EExploration.CountdownWithoutTraining | sheeprl/algos/p2e_dv3/p2e_dv3_exploration.py:981-984 | While the countdown has not run out, each update only decrements it and never trains. |
| P2EExploration.TrainsWhenCountdownRunsOut | sheeprl/algos/p2e_dv3/p2e_dv3_exploration.py:981-1029 | From countdown `k`, once learning has started, the first training is exactly on the k-th update. It adds `world_size` train steps and resets the countdown to `train_every // policy_steps_per_update`. |
| P2EExploration.NextKeepsGaps | sheeprl/algos/p2e_dv3/p2e_dv3_exploration.py:1049-1082 | After every update, the last log and the last checkpoint are current or less than one period behind. The final update is always logged, and checkpointed with `save_last`. |
| P2EExploration.UsesRandomActions | sheeprl/algos/p2e_dv3/p2e_dv3_exploration.py:874-877 | Definition of the random-action gate: not past `learning_starts`, not resuming and not a MineDojo actor in any case. `RandomPhaseTrainsOnlyAtStart` states how it meets training. |
| P2EExploration.RandomPhaseTrainsOnlyAtStart | sheeprl/algos/p2e_dv3/p2e_dv3_exploration.py:874-990 | Random play and training overlap only on the update where learning starts, and that training samples the pretraining steps. |
| P2EExploration.TargetUpdateTau | sheeprl/algos/p2e_dv3/p2e_dv3_exploration.py:996-997 | A zero update frequency raises. Otherwise the targets are updated exactly when the gradient step is a multiple of the frequency, with `tau = 1` on gradient step 0. |
| P2EExploration.DriverAlwaysCopiesTargets | sheeprl/algos/p2e_dv3/p2e_dv3_exploration.py:866 | With the gradient-step counter left at 0, as the driver leaves it, every training batch updates the targets with `tau = 1`. |
| P2EExploration.SavedCheckpointResumes | sheeprl/algos/p2e_dv3/p2e_dv3_exploration.py:1082-1103 | Every checkpoint the loop writes, whatever its per-rank batch size, is `Resumable`: resumed as the driver does it, it restarts at its own update one update ahead; resumed at the next update, it restarts consistently. |
| P2EExploration.ResumedRunRepeatsUpdate | sheeprl/algos/p2e_dv3/p2e_dv3_exploration.py:810-811 | Resumed as the driver does it from a checkpoint written after update `u`, the first iteration of the loop is update `u` again and ends at policy step `(u + 1) * policy_steps_per_update`, one update beyond where the saved run ended it. |
| P2EExploration.ExplorationLoop.Fresh | sheeprl/algos/p2e_dv3/p2e_dv3_exploration.py:808-815 | A fresh run starts with zero counters and a full countdown, with the configured per-rank batch size. |
| P2EExploration.ExplorationLoop.Resumed | sheeprl/algos/p2e_dv3/p2e_dv3_exploration.py:810-815 | A resumed run takes its counters from the checkpoint as the driver does it: its first update is the stored update divided by the world size, the checkpointed one itself, and for a checkpoint written with this world size the policy step runs one update ahead (`ahead = 1`). The per-rank batch size is restored as the stored batch size divided by the world size (p2e_dv3_exploration.py:564-566), and later checkpoints store it. |
| P2EExploration.ExplorationLoop.Step | sheeprl/algos/p2e_dv3/p2e_dv3_exploration.py:867-1103 | One update advances the counters as `Next` does. It records the sample count of a training and the checkpoint it writes, with the run's per-rank batch size. |
| P2EExploration.ExplorationLoop.NextCounters | sheeprl/algos/p2e_dv3/p2e_dv3_exploration.py:867-1082 | Computes, branch by branch, the counters after one update: the policy step, the countdown and train step of a training, and the log and checkpoint marks. The result is exactly `Next` of the current counters. |
| P2EExploration.ExplorationLoop.RunOne | sheeprl/algos/p2e_dv3/p2e_dv3_exploration.py:867-1103 | One iteration advances the counters exactly as `Next` does for the new update, and keeps the loop's invariants: the policy step stays `ahead` updates beyond the completed ones, every checkpoint is `Resumable`, and `train_step` is `world_size` per training. After the last update it has logged and, with `save_last`, checkpointed. |
| P2EExploration.ExplorationLoop.Run | sheeprl/algos/p2e_dv3/p2e_dv3_exploration.py:867-1103 | The loop runs to `num_updates`, and its final counters are `Iterate` of the starting ones over the updates it ran, so the countdown, training, decay-step, log and checkpoint cadence proved for `Iterate` holds for the loop. The policy step equals the completed updates' steps plus `ahead` updates. `train_step` is `world_size` per training. Every checkpoint written is `Resumable`, and the last update is logged and, with `save_last`, checkpointed. |
| DroQ.CheckMlpKeys | sheeprl/algos/droq/droq.py:186-191 | The keys pass exactly when every key is in the space with at most one dimension. A missing key raises KeyError; a multi-dimensional one raises ValueError. |
| DroQ.Validate | sheeprl/algos/droq/droq.py:132-191 | A MineDojo wrapper, in any case, raises ValueError first. The configuration passes exactly when there is no MineDojo wrapper, a Box action space, a Dict observation space, some MLP key, and only vector keys. A missing Dict space or an empty key list raises RuntimeError. |
| DroQ.EncoderKeys.constructor | sheeprl/algos/droq/droq.py:151 | The key lists are the configured ones. |
| DroQ.EncoderKeys.IgnoreCnnKeys | sheeprl/algos/droq/droq.py:151-153 | The CNN keys become empty, with a warning exactly when there were some. The MLP keys are kept. |
| DroQ.ActDim | sheeprl/algos/droq/droq.py:196 | `prod` of the empty shape is 1, and of a vector shape is its length. |
| DroQ.ObsDim | sheeprl/algos/droq/droq.py:197 | Definition of `obs_dim` as the sum of the products of the MLP keys' shapes. `ObsDimOfValidKeys` states its value for checked keys. |
| DroQ.ObsDimOfValidKeys | sheeprl/algos/droq/droq.py:186-197 | For keys that pass the checks, `obs_dim` is the total length of their vectors, each scalar counting one. |
| DroQ.TargetEntropy | sheeprl/algos/droq/droq.py:215 | `target_entropy = -act_dim`: -1 for a scalar action, minus the length for a vector one, and negative whenever every dimension is positive. |
| DroQ.CriticInputSize | sheeprl/algos/droq/droq.py:206-210 | Once the MLP keys pass the checks, the critics read the total length of the keys' vectors (a scalar counting one) plus the action size. |
| DroQ.Trains | sheeprl/algos/droq/droq.py:349 | Definition of the strict training gate `update > learning_starts`. `TrainedUpdatesClosedForm` states which updates pass it. |
| DroQ.TrainedUpdates | sheeprl/algos/droq/droq.py:349-351 | Definition of the number of updates in a range that train, counted one update at a time. `TrainedUpdatesClosedForm` states its closed form. |
| DroQ.TrainedUpdatesClosedForm | sheeprl/algos/droq/droq.py:349-351 | Updates `first .. last` train exactly from `max(first, learning_starts + 1)` on. |
| DroQ.TrainedUpdatesFromStart | sheeprl/algos/droq/droq.py:349-351 | A fresh run trains on `last - learning_starts` updates, the gate being strict. |
| DroQ.DroQLoop.constructor | sheeprl/algos/droq/droq.py:260-265 | Update 1 and zero counters on a fresh run; on resume, the checkpoint resumed as the driver does it, starting at the stored update divided by the world size, with `ahead = 1`. The counters are consistent for a fresh run and for a checkpoint written with this world size. On resume the per-rank batch size is restored as the stored batch size divided by the world size (droq.py:147-149), and later checkpoints store it. |
| DroQ.DroQLoop.Step | sheeprl/algos/droq/droq.py:295-396 | One update adds `num_envs * world_size` steps, trains when `update > learning_starts`, and logs and checkpoints by the shared gates. A checkpoint stores `update * world_size`. |
| DroQ.DroQLoop.Run | sheeprl/algos/droq/droq.py:295-396 | The loop runs to `num_updates`, with `train_step` equal to `world_size` times the updates past `learning_starts` and the policy step `ahead` updates beyond the completed ones. Every checkpoint written is `Resumable`, and with `save_last` the last one stores `num_updates * world_size`. |

## Left out

- Gradient code (losses, backward passes, optimisers, gradient clipping), probability distributions and sampling, exploration noise, and the network modules' construction and forward passes. They are autodiff, randomness and library calls. Where their outputs matter (greedy and noisy actions, new recurrent and stochastic states), they are parameters.
- Floating-point numerics beyond the `real` abstraction: `Moments`, `cumprod` discounts, intrinsic-reward variance, reward clipping (the clipped rewards are an input of `P2EExploration.RecordOutcome`), and the target-critic EMA mixing itself. Only the choice of `tau` is modelled. The driver leaves its gradient-step counter at 0 (sheeprl/algos/p2e_dv3/p2e_dv3_exploration.py:866), so `tau` is always 1 there (`P2EExploration.DriverAlwaysCopiesTargets`). The counter is therefore not a field of the loop counters.
- `polynomial_decay` and `hydra` instantiation are not part of this model. The exploration-decay step counter is modelled; the new exploration amount is not.
- Environment stepping, vector environments, and the replay buffer's storage and sampling. The observation copies that the reset record takes from the final observations are not modelled.
- Distributed plumbing: all-gather, samplers, and the broadcast of the log directory to other ranks. The model is one rank's view.
- Filesystem, logging and checkpoint I/O: `listdir` is a parameter (`None` when it raises `OSError`), and directory creation, TensorBoard, timers and `MetricAggregator` are left out. So are the warnings printed for `log_every`/`checkpoint.every`, the throughput counter `last_train`, and the "Missing logger folder" warning. Metric configuration values are opaque strings.
- LogDir.GetLogDir: `int()` is modelled on ASCII text (optional sign, digits, surrounding ASCII whitespace). Unicode digits, underscores between digits and Unicode spaces are left out.
- Strings.Lower: lower-cases ASCII letters only.
- DreamerV2Agent.PlayerDV2.InitStates: requires the states to exist for a partial reset. Calling it with a list before any full reset raises AttributeError in the source, and that path is not modelled.
- DreamerV2Agent.PlayerDV2.GetExplorationAction: the observation encoding and the recurrent step are replaced by their results.
- P2EExploration.ExplorationLoop.Run, DroQ.DroQLoop.Run: assume at least one environment and one rank (`ValidConfig`), as any launched run has. They start from consistent counters. The constructors promise this for a fresh run and for a checkpoint written with the run's own world size. A checkpoint written with another world size can leave the stored update and the policy step misaligned, and the loops are not modelled from there.
- TrainingCounters.LearningStarts: is cited once for both drivers; Plan2Explore's copy is at sheeprl/algos/p2e_dv3/p2e_dv3_exploration.py:817-819.
- The `MinedojoActor` masking and the MineDojo-specific exploration amount are left out, being sampling.

## Findings

| source | as written | input that shows it | evidently intended | confidence | as-written member | corrected member |
|---|---|---|---|---|---|---|
| sheeprl/algos/p2e_dv3/p2e_dv3_exploration.py:810-811 (same in sheeprl/algos/droq/droq.py:262-263) | On resume, `start_step = state["update"] // world_size` is the update the checkpoint was written at, while `policy_step = state["update"] * num_envs` already counts that update, so the checkpointed update runs again with its policy step one update ahead. | A checkpoint after update 3 with one environment and one rank stores update 3. The resumed loop starts at update 3 with policy step 3 and reaches policy step 4 at the end of update 3 instead of 3. | Resume at the next update: `start_step = state["update"] // world_size + 1`. | not executed | TrainingCounters.ResumeAsWrittenRepeatsUpdate | TrainingCounters.ResumeContinuesRun |

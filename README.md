# OpenFlamingo training orchestration, modelled in Dafny

This project models the orchestration core of OpenFlamingo's training script
(`open_flamingo/train/train.py`). One process runs per rank. The project covers
what that process decides and does around the actual optimisation:

- the seeds it sets before and after building the model;
- the CUDA device it picks;
- how it splits the named parameters into a weight-decay group and a no-decay group;
- which checkpoint it resumes from and at which epoch;
- the epoch loop as a state machine over the run directory.

The loop covers training, evaluation on rank 0, the `wandb.log` telemetry,
the checkpoint save and the optional rotation of the previous checkpoint,
and the final save.

Modules:

- `Common` (`common.dfy`): `Option` and `Result`.
- `Configuration` (`config.dfy`): the arguments the core reads, and the rank triple of `world_info_from_env`.
- `Strings` (`strings.dfy`):
  - Python's substring test;
  - the `split(...)[-1]` and `split(...)[0]` used by the checkpoint sort key;
  - `int()` on the key;
  - `f"{epoch}"`.
- `Seeding` (`seeding.dfy`):
  - `random_seed`, as a class holding the three generators' seeds;
  - the device index `rank % torch.cuda.device_count()`.
- `ParamGroups` (`param_groups.dfy`): `apply_decay` and `get_grouped_params`. The method keeps the source's single loop.
- `Checkpoints` (`checkpoints.dfy`):
  - the glob of `checkpoint_*.pt`;
  - the numeric sort key;
  - the stable `sorted(...)[-1]`;
  - `torch.load` of the chosen file;
  - `resume_from_epoch`.
- `EpochLoop` (`epoch_loop.dfy`):
  - the loop as functions over a directory state (`Dir`: whether the run directory exists, the epochs with a complete checkpoint on disk, whether complete final weights were written, the epochs whose checkpoint file is truncated) and an event trace;
  - the class `TrainingRun`, whose methods change those fields in place. Each method is proved equal to the function that specifies it.
- `EpochProperties` (`epoch_properties.dfy`): what the loop guarantees:
  - the epochs it visits;
  - the files left on disk with and without rotation, and after a failed save or removal;
  - that every removal follows the save of the next checkpoint;
  - the train/eval mode discipline;
  - the telemetry records.
- `Orchestrator` (`orchestrator.dfy`):
  - `main` from `world_info_from_env` on, in the script's order;
  - how the listing and the loadable files of a run directory follow from the directory state;
  - crash-and-restart scenarios that combine discovery and the loop.

The raises inside the calls the modelled code makes into the model, data and evaluation code are not modelled, and neither is a raising `os.makedirs` (see "Left out"). The other raises of the modelled code are explicit outcomes:

- `torch.manual_seed` or `np.random.seed` given a seed out of range: `SeedOutOfRange`;
- `int()` on a non-numeric key: `CheckpointNameNotInteger`;
- `torch.load` of an unreadable file: `CheckpointUnreadable`;
- `torch.save` raising: `Crashed(SaveFailed)`. It either raises before it opens the file (`BeforeOpen`: the file is untouched) or stops part-way (`MidWrite`, as when storage runs out: the file is left truncated);
- `os.remove` of a missing file: `Crashed(RemoveFailed)`;
- a zero device count: `NoCudaDevice`.

Which saves fail, and how, is an input, the map `failing`. The step counter of the telemetry run is an input function `stepOf` from epoch to step.

Rotation tests only `epoch > 0` (`train.py:277-279`), so the first epoch of a
resumed run also removes `checkpoint_{epoch-1}.pt`. `ResumeElsewhereCrashes`
shows the consequence: a run resumed from an explicit checkpoint in another
directory, with rotation on, raises at its first removal.

## Model

| member | source | states |
|---|---|---|
| Seeding.SeedSchedule | open_flamingo/train/train.py:123-133 | the seed before model creation is the configured seed; the seed after it exceeds that by the process's rank |
| Seeding.PreModelSeedSharedByRanks | open_flamingo/train/train.py:123 | every rank builds its model from the same seed |
| Seeding.PostModelSeedDistinctPerRank | open_flamingo/train/train.py:133 | two ranks draw from the same post-model seed exactly when they are the same rank |
| Seeding.RandomSources.RandomSeed | open_flamingo/train/train.py:21-24 | returns exactly when seed + rank is in numpy's range; torch, numpy and Python's generators are then all seeded with it; otherwise the generators after the one that raised keep their seeds, torch holds the new seed only when it accepted it |
| Seeding.SeedsAcceptedByWorld | open_flamingo/train/train.py:21-24 | every rank of a world of `n` processes gets past both seeding calls exactly when `0 <= seed` and `seed + n <= 2^32` |
| Seeding.LargestSeedStopsRankOne | open_flamingo/train/train.py:123-133 | seed 2^32 - 1 lets rank 0 through and stops rank 1 at its second call |
| Seeding.RandomSources.constructor | open_flamingo/train/train.py:21-24 | the three generators start with the given seeds |
| Seeding.DeviceIndex | open_flamingo/train/train.py:140 | no device exactly when the device count is zero (ZeroDivisionError); otherwise an index below the count congruent to the rank |
| Seeding.DeviceIndexOfSmallRank | open_flamingo/train/train.py:140 | a rank below the device count gets the device of its own number |
| Strings.OccurrenceFound | open_flamingo/train/train.py:152-156 | a substring found at some position makes Python's `in` true |
| Strings.MissingCharacter | open_flamingo/train/train.py:152-156 | a character of the needle absent from the matching tail of the text makes `in` false |
| Strings.AfterLast | open_flamingo/train/train.py:178 | `split(c)[-1]`: a suffix free of `c`, preceded by `c` when shorter than the text |
| Strings.BeforeFirst | open_flamingo/train/train.py:178 | `split(c)[0]`: a prefix free of `c`, followed by `c` when shorter than the text |
| Strings.AfterLastOfSeparated | open_flamingo/train/train.py:178 | the last `c`-separated piece of `x + c + y`, with `y` free of `c`, is `y` |
| Strings.BeforeFirstOfSeparated | open_flamingo/train/train.py:178 | the first `c`-separated piece of `y + c + z`, with `y` free of `c`, is `y` |
| Strings.DigitChar | open_flamingo/train/train.py:273 | a digit below ten is written as its ASCII digit |
| Strings.ParseInt | open_flamingo/train/train.py:178 | `int()` accepts a non-empty digit string with its decimal value and rejects the empty string and text that neither is all digits nor starts with a sign |
| Strings.NatToDecimal | open_flamingo/train/train.py:273 | the decimal text of a natural number is a non-empty digit string |
| Strings.DigitsValueOfNatToDecimal | open_flamingo/train/train.py:273 | reading back the decimal text of a natural number gives that number |
| Strings.ParseIntOfIntToDecimal | open_flamingo/train/train.py:178-273 | `int(f"{epoch}")` is `epoch`, negative epochs included |
| Strings.IntToDecimalHasNo | open_flamingo/train/train.py:178-273 | the decimal text of an epoch contains neither `_` nor `.`, so the key's splits cannot cut inside it |
| ParamGroups.ApplyDecay | open_flamingo/train/train.py:150-157 | `apply_decay`: the name contains `gated_cross_attn_layer` and none of `ff_gate`, `attn_gate`, `norm`, `bias` |
| ParamGroups.GetGroupedParams | open_flamingo/train/train.py:147-167 | two groups in order: the handles whose names pass `apply_decay`, with the configured weight decay, then all others with weight decay 0.0 |
| ParamGroups.MembersOfConcat | open_flamingo/train/train.py:159-163 | grouping a concatenated listing groups each part and keeps `named_parameters` order |
| ParamGroups.GroupsPartition | open_flamingo/train/train.py:159-163 | the two groups together hold every parameter handle exactly as often as `named_parameters` does |
| ParamGroups.MembersAreSelected | open_flamingo/train/train.py:159-163 | a handle in a group comes from a parameter whose name selects that group |
| ParamGroups.SelectedAreMembers | open_flamingo/train/train.py:159-163 | a parameter whose name selects a group has its handle in that group |
| ParamGroups.ExampleVerdicts | open_flamingo/train/train.py:150-157 | `apply_decay` rejects gates, norms, biases and names outside the cross-attention layers, and accepts a cross-attention projection |
| ParamGroups.ExampleClassification | open_flamingo/train/train.py:147-167 | for five typical names only the cross-attention projection goes to the decay group; the other four keep their order in the no-decay group |
| ParamGroups.LayerNormIsExempt | open_flamingo/train/train.py:155 | `norm` is a substring test, so a `layernorm` weight is exempt too |
| Checkpoints.CheckpointFileName | open_flamingo/train/train.py:174-273 | the name a checkpoint is saved under matches the discovery glob |
| Checkpoints.Glob | open_flamingo/train/train.py:174 | a path is matched exactly when it is the run directory joined with a listed name of the form `checkpoint_*.pt` |
| Checkpoints.EpochKey | open_flamingo/train/train.py:178 | the sort key `int(path.split("_")[-1].split(".")[0])`, absent when `int()` raises |
| Checkpoints.Keys | open_flamingo/train/train.py:178 | either every matched path has an integer key, listed in order, or discovery raises on a path whose key does not parse, and it raises exactly when such a path exists |
| Checkpoints.LatestIndex | open_flamingo/train/train.py:178 | `sorted(...)[-1]` picks a largest key, and among equal largest keys the one listed last (`sorted` is stable) |
| Checkpoints.Discover | open_flamingo/train/train.py:172-179 | an absent directory or an explicit path leaves the path as given; no match leaves it unset; any unparseable key raises; otherwise the chosen path is a match whose key is at least every match's key |
| Checkpoints.Load | open_flamingo/train/train.py:182-184 | no path loads nothing; a readable path loads its record; an unreadable one raises |
| Checkpoints.ResumeEpoch | open_flamingo/train/train.py:181-188 | the loop starts at 0 without a checkpoint and right after the checkpoint's epoch with one |
| Checkpoints.EpochKeyOfCheckpointPath | open_flamingo/train/train.py:178-273 | the sort key of a path the loop wrote is the epoch it was written for, whatever the run name |
| Checkpoints.FinalWeightsDoesNotMatch | open_flamingo/train/train.py:174-284 | `final_weights.pt` is never taken for a checkpoint |
| Checkpoints.CheckpointFileNameInjective | open_flamingo/train/train.py:273 | distinct epochs are saved under distinct names |
| Checkpoints.GlobOfCheckpointListing | open_flamingo/train/train.py:174-178 | in a directory the loop wrote, the glob matches exactly the checkpoint paths, each keyed by its own epoch |
| Checkpoints.DiscoverFindsCheckpoint | open_flamingo/train/train.py:173-178 | discovery in a non-empty directory the loop wrote finds a checkpoint and does not raise |
| Checkpoints.ChosenIsLatest | open_flamingo/train/train.py:178 | in such a directory, a match with a maximal key is the checkpoint of the latest epoch |
| Checkpoints.DiscoverLatestOfDirectory | open_flamingo/train/train.py:172-179 | discovery in a directory the loop wrote chooses the checkpoint of the largest epoch, compared as numbers |
| Checkpoints.CheckpointTenName | open_flamingo/train/train.py:273 | epoch 10 is saved as `checkpoint_10.pt` |
| Checkpoints.DiscoverExample | open_flamingo/train/train.py:172-179 | of `checkpoint_2.pt`, `checkpoint_5.pt` and `checkpoint_10.pt`, discovery chooses `checkpoint_10.pt` |
| Checkpoints.ResolveResume | open_flamingo/train/train.py:172-188 | raises exactly when discovery raises or the chosen file cannot be read; otherwise it resumes from the chosen path, at epoch 0 without one and after the loaded epoch with one |
| Checkpoints.ResolveDiscovered | open_flamingo/train/train.py:172-188 | a discovered path that loads sets the resume epoch to one past the epoch it holds |
| Checkpoints.ResolveUnreadable | open_flamingo/train/train.py:172-184 | a discovered path that does not load stops the script with that path unreadable |
| Checkpoints.ResumeAfterLatest | open_flamingo/train/train.py:172-188 | a restart in a directory the loop wrote resumes from its latest checkpoint at the following epoch |
| Checkpoints.FreshStart | open_flamingo/train/train.py:172-181 | without the directory or without a match, the run starts fresh at epoch 0 |
| EpochLoop.RunFrom | open_flamingo/train/train.py:192-286 | on rank 0, a run from any epoch that finishes leaves the run directory and complete final weights in it |
| EpochLoop.TrainingLoop | open_flamingo/train/train.py:190-286 | the trace starts with `ddp_model.train()`; on rank 0 a finished run leaves complete final weights |
| EpochLoop.RunFromStep | open_flamingo/train/train.py:192-279 | an iteration that raises ends the run; otherwise the run is that iteration followed by the rest of the loop |
| EpochLoop.TrainingRun.MakeRunDirectory | open_flamingo/train/train.py:263-264 | the run directory exists afterwards; `os.makedirs` is called only when it was missing |
| EpochLoop.TrainingRun.RunEvaluations | open_flamingo/train/train.py:209-260 | COCO, OK-VQA and VQAv2 run in order; with telemetry each is followed by a log at the epoch's step, and only the last one commits; the model returns to train mode |
| EpochLoop.TrainingRun.SaveArtifactFile | open_flamingo/train/train.py:273-275 | a save that raises before opening the file leaves the directory as it was; one that raises part-way leaves that file truncated (for a checkpoint, no longer complete); otherwise the file is complete on disk and is uploaded when telemetry is on |
| EpochLoop.TrainingRun.RotateCheckpoints | open_flamingo/train/train.py:277-279 | with rotation on and epoch > 0, the previous checkpoint file, complete or truncated, is removed, and the removal raises if that file is missing; otherwise nothing changes |
| EpochLoop.TrainingRun.SaveCheckpoint | open_flamingo/train/train.py:262-279 | rank 0's checkpoint phase: create the directory, save, then rotate, stopping at the first raise |
| EpochLoop.TrainingRun.BeginEpoch | open_flamingo/train/train.py:193-260 | `set_epoch`, `train_one_epoch`, and the evaluations only on rank 0 with evaluation on |
| EpochLoop.TrainingRun.RunEpoch | open_flamingo/train/train.py:192-279 | one loop iteration; only rank 0 touches the directory |
| EpochLoop.TrainingRun.FinalizeRun | open_flamingo/train/train.py:281-286 | rank 0 makes sure the directory exists, saves the final weights and uploads them with telemetry on; other ranks do nothing |
| EpochLoop.TrainingRun.AdvanceEpoch | open_flamingo/train/train.py:192-209 | one iteration with the step read from the telemetry run when reporting and 0 otherwise, stated against the rest of the run |
| EpochLoop.TrainingRun.Train | open_flamingo/train/train.py:190-286 | train mode first, then the epochs from the resume point in order, then the final save; the first raise ends the run with the directory as left at that point |
| EpochProperties.FlatMapConcat | open_flamingo/train/train.py:192-286 | projecting a concatenated trace projects each part |
| EpochProperties.Range | open_flamingo/train/train.py:192 | `range(lo, hi)` lists `lo, lo+1, ...` below `hi`, empty when `lo >= hi` |
| EpochProperties.Span | open_flamingo/train/train.py:192 | the epochs `lo` to `hi-1` as a set |
| EpochProperties.EvaluationLogs | open_flamingo/train/train.py:223-258 | with telemetry, the evaluations log `(step, false)`, `(step, false)` and `(step, true)`; without it they log nothing |
| EpochProperties.CheckpointPhaseSucceeds | open_flamingo/train/train.py:262-279 | when the save works and, with rotation, the previous checkpoint file exists, the phase ends with this epoch's complete checkpoint in place of the previous file |
| EpochProperties.TruncatedSets | open_flamingo/train/train.py:273-279 | over a run, the truncated files the checkpoint phases overwrite or rotate away are those of the epochs from the previous one to the last |
| EpochProperties.StepTrained | open_flamingo/train/train.py:192-206 | an iteration trains exactly its own epoch |
| EpochProperties.StepLogs | open_flamingo/train/train.py:208-258 | an iteration logs only what its evaluations log |
| EpochProperties.EpochsVisited | open_flamingo/train/train.py:192-206 | the loop trains the epochs from the resume point in increasing order, a prefix of `range(resume, num_epochs)`, and all of them when nothing raises |
| EpochProperties.NothingLeftToTrain | open_flamingo/train/train.py:192 | a run resumed at or past `num_epochs` trains nothing |
| EpochProperties.OtherRanksLeaveDirectory | open_flamingo/train/train.py:262-286 | on any rank other than 0 the run never touches the directory, never raises, and only sets epochs and trains |
| EpochProperties.RotationSets | open_flamingo/train/train.py:273-279 | saving epoch `e` and dropping `e-1` turns the checkpoint that precedes the remaining epochs into the one that precedes the next remaining epochs |
| EpochProperties.RotatingRunCheckpoints | open_flamingo/train/train.py:262-286 | with rotation, every save succeeding and a resumed run's previous checkpoint file on disk: the run finishes with the final weights written; it keeps `checkpoint_{N-1}` and the earlier files outside the epochs it rotated through, and removes the rest, truncated files included |
| EpochProperties.RotatingRunCrashesAtSave | open_flamingo/train/train.py:262-279 | with rotation, a failing save of checkpoint `k` leaves complete checkpoint `k-1` as the only checkpoint this run completed, and `checkpoint_{k}` truncated when that save stopped part-way |
| EpochProperties.KeepingRunCheckpoints | open_flamingo/train/train.py:262-286 | without rotation, every checkpoint the loop writes stays next to the existing ones, and replaces a truncated file of the same epoch |
| EpochProperties.FreshRunCheckpoints | open_flamingo/train/train.py:262-286 | a fresh run of N epochs with every save succeeding writes the final weights, and leaves `{N-1}` with rotation, `{0, ..., N-1}` without it, no checkpoint when N <= 0, and no truncated file |
| EpochProperties.ResumeElsewhereCrashes | open_flamingo/train/train.py:277-279 | a rotating run resumed at an epoch whose predecessor is not on disk saves, then raises at the removal |
| EpochProperties.SaveFailureKeepsPrevious | open_flamingo/train/train.py:273-279 | a save that raises ends the run before rotation, so nothing is removed; only a save that stopped part-way changes the directory, by truncating its own file |
| EpochProperties.RemovalsFollowSavesConcat | open_flamingo/train/train.py:273-279 | the removal-after-save discipline carries over to concatenated traces |
| EpochProperties.AppendRemoval | open_flamingo/train/train.py:277-279 | removing `k` after `checkpoint_{k+1}` was saved keeps the discipline |
| EpochProperties.CheckpointPhaseSavesFirst | open_flamingo/train/train.py:273-279 | within a checkpoint phase, `checkpoint_{e-1}` is removed only after `checkpoint_{e}` is saved |
| EpochProperties.RunRemovesOnlyAfterSaving | open_flamingo/train/train.py:192-286 | on every rank and for every input, the loop removes a checkpoint only after saving its successor |
| EpochProperties.ModeAfterConcat | open_flamingo/train/train.py:190-260 | the mode after a concatenated trace is the mode after the second part, started from the mode after the first |
| EpochProperties.EvaluationRestoresTrainMode | open_flamingo/train/train.py:208-260 | from any mode, the evaluation phase ends in train mode |
| EpochProperties.EpochStepKeepsTrainMode | open_flamingo/train/train.py:192-279 | an iteration started in train mode trains and saves in train mode and ends in train mode |
| EpochProperties.RunKeepsTrainMode | open_flamingo/train/train.py:192-286 | every epoch is trained, and every file saved, in train mode |
| EpochProperties.TrainingLoopWellModed | open_flamingo/train/train.py:190-286 | `ddp_model.train()` before the loop makes the whole run well-moded, whatever mode the model was in |
| EpochProperties.TelemetryPerEpoch | open_flamingo/train/train.py:208-258 | rank 0 with evaluation and telemetry on logs, per epoch, two uncommitted records and one committed record at the step read at the start of that epoch's evaluation |
| EpochProperties.NoTelemetry | open_flamingo/train/train.py:208-258 | without telemetry, without evaluation or off rank 0, nothing is logged |
| Orchestrator.Launch | open_flamingo/train/train.py:119-190 | for a listing and loadable files that agree with the run directory: seeds, device, parameter groups, resume point and loop in the script's order; a seed out of range at either seeding call, a zero device count or a failing discovery or load stops before the loop and leaves the directory alone; otherwise the run is the loop from the resume point |
| Orchestrator.ResumeInRunDirectory | open_flamingo/train/train.py:172-188 | in a directory holding only files the loop wrote, discovery chooses the latest checkpoint file; the run resumes after it when it is complete and stops with it unreadable when it is truncated |
| Orchestrator.FreshRunCrashesAtSave | open_flamingo/train/train.py:190-279 | a fresh rotating run whose first failing save is that of checkpoint `k` stops with complete checkpoint `k-1` only, plus a truncated `checkpoint_{k}` when the save stopped part-way |
| Orchestrator.ResumedRunFinishes | open_flamingo/train/train.py:190-286 | a rotating run resumed at `k` from a directory holding only `checkpoint_{k-1}`, with every save succeeding, ends with `checkpoint_{N-1}.pt` and the final weights alone |
| Orchestrator.ResumeAfterCrash | open_flamingo/train/train.py:172-286 | a fresh rotating run whose save of checkpoint `k` raises before opening the file leaves only checkpoint `k-1`; started again, it resumes at epoch `k` and ends with `checkpoint_{N-1}.pt` and the final weights |
| Orchestrator.RestartAfterTruncatedSave | open_flamingo/train/train.py:172-286 | when that save stops part-way instead, the restart chooses the truncated `checkpoint_{k}.pt` and stops because it cannot be loaded |

## Left out

- Argument parsing, environment variables and offline mode (`train.py:28-117`): the model takes the parsed configuration and the rank triple as inputs.
- `init_distributed_device`, the DDP wrapper and `model.to` (`train.py:121`, `141-143`): the device `init_distributed_device` returns is an input, replaced as the script replaces it.
- Model creation, the data pipeline, the optimizer and the learning-rate scheduler (`train.py:125-131`, `145`, `169-170`): they are external libraries. Only the parameter-group split is modelled.
- The restore of the model, optimizer and scheduler state dicts (`train.py:185-187`): only the checkpoint's epoch is read. A load that raises covers every failure of `torch.load`.
- `train_one_epoch`, the evaluators and the telemetry inside them: each appears as one event in the trace. Their scores are not modelled. A raise inside them is not modelled either: only seeding, device choice, discovery, loading, saves and removals fail.
- The mode `train_one_epoch` leaves the model in: the model takes it to leave the model in train mode, as the source of `train_one_epoch` (not part of this model) is expected to. `EpochProperties.EpochStepKeepsTrainMode`, `EpochProperties.RunKeepsTrainMode` and `EpochProperties.TrainingLoopWellModed` rely on this.
- A truncated `final_weights.pt` counts as no final weights (`finalWritten` false): nothing in the script reads that file back.
- Files in the run directory that the loop did not write: `Orchestrator.Launch` requires the listing's checkpoint names and the loadable files to agree with the run's directory state, so a hand-placed or corrupted file other than a truncated save is not modelled.
- Checkpoint contents and serialisation (`train.py:266-271`, `284`), `wandb.init` and the upload itself: these are external I/O. A save or an upload is an event plus the change to the directory state.
- The `print` calls: console output only.
- Weight decay is a `real` that is only copied. Floating-point behaviour is not modelled.
- Timing across processes: each rank's loop is modelled on its own. The model does not capture when rank 0's files appear relative to other ranks' progress.
- `int()` on whitespace, underscores or non-ASCII digits, and `int()` on signed keys beyond the shape `ParseInt` states: checkpoint names the loop writes never contain these. `Strings.ParseInt` states acceptance only for unsigned digit strings.
- Glob metacharacters in the run name, and hidden files: the listing is an input, given in directory order, and the glob is matched on the listed names.
- The step counter of the telemetry run is the input function `stepOf`: it is advanced inside `train_one_epoch` and the evaluators, which are not modelled.
- EpochLoop.TrainingRun.MakeRunDirectory: `os.makedirs` (`train.py:264`, `283`) is taken to succeed, and so is `EpochLoop.EnsureRunDirectory`. In the script it raises for an empty run name (`os.path.exists("")` is false and `os.makedirs("")` raises `FileNotFoundError`) or an unwritable parent directory. The lemmas built on the loop, such as `EpochProperties.FreshRunCheckpoints` and `Orchestrator.ResumedRunFinishes`, inherit this.
- EpochProperties.RotatingRunCheckpoints: stated for non-negative start epochs only, because a negative start epoch (from a hand-made checkpoint holding a negative epoch) does not rotate until epoch 1.
- EpochProperties.RotatingRunCrashesAtSave: stated for non-negative start epochs only, for the same reason.
- Strings.ParseInt: stated for digit strings and for text outside the digit-string shape `ParseInt` accepts, not for every form that `int()` accepts (surrounding whitespace, underscores, signs).

/** `main` of the training script with its plumbing taken out: the order in
    which it seeds, picks the device, groups the parameters, finds the resume
    point and runs the loop, each step delegated to the module that models it. */
module Orchestrator {
  import opened Common
  import opened Configuration
  import opened Seeding
  import opened ParamGroups
  import opened Checkpoints
  import opened EpochLoop
  import opened EpochProperties

  /** Why the script stops before the loop starts. */
  datatype StartupFailure =
    | SeedOutOfRange(seed: int)           // `torch.manual_seed` or `np.random.seed` raised
    | NoCudaDevice                        // `rank % torch.cuda.device_count()` with no device
    | ResumeFailed(error: ResumeError)    // discovery or `torch.load` raised

  /** What a started run decided before and while training. */
  datatype Launched<P> = Launched(
    modelSeed: int,                       // the seed in effect while the model is built
    deviceId: int,
    groups: seq<ParamGroup<P>>,
    resume: ResumePoint,
    outcome: Outcome)

  /** `listing` is what the run directory `d` holds: the checkpoint names in
      it are those of `d`'s checkpoint files, complete or truncated. Files
      the script did not write may be listed as well. */
  ghost predicate ListingOf(listing: seq<string>, d: Dir) {
    forall e :: CheckpointFileName(e) in listing <==> e in d.checkpoints || e in d.truncated
  }

  /** `store` can read what the loop wrote into `d`: a complete checkpoint
      file holds the `"epoch"` it was saved for, and a truncated one cannot
      be loaded. */
  ghost predicate StoreOf(runName: string, store: map<string, Checkpoint>, d: Dir) {
    (forall e :: e in d.checkpoints ==>
      PathIn(runName, CheckpointFileName(e)) in store && store[PathIn(runName, CheckpointFileName(e))].epoch == e)
    && (forall e :: e in d.truncated ==> PathIn(runName, CheckpointFileName(e)) !in store)
  }

  /** `main` from `world_info_from_env` on. `initDevice` is what
      `init_distributed_device` returned, `deviceCount` what
      `torch.cuda.device_count()` returns, `named` the model's
      `named_parameters()`, `listing` the run directory's file names as
      `glob` yields them and `store` the files `torch.load` can read. */
  method Launch<P>(cfg: RunConfig, id: ProcessIdentity, initDevice: int, deviceCount: nat,
                   named: seq<NamedParameter<P>>, listing: seq<string>, store: map<string, Checkpoint>,
                   stepOf: int -> int, failing: Faults, rng: RandomSources, run: TrainingRun)
    returns (r: Result<Launched<P>, StartupFailure>)
    requires ListingOf(listing, run.Directory())
    requires StoreOf(cfg.runName, store, run.Directory())
    modifies rng, run
    ensures !SeedAccepted(cfg.seed, DefaultRank) ==>
      r == Err(SeedOutOfRange(SeedSchedule(cfg.seed, id.rank).0)) && unchanged(run)
    ensures SeedAccepted(cfg.seed, DefaultRank) && !SeedAccepted(cfg.seed, id.rank) ==>
      r == Err(SeedOutOfRange(SeedSchedule(cfg.seed, id.rank).1)) && unchanged(run)
    ensures SeedsAccepted(cfg.seed, id.rank) ==>
      rng.torchSeed == SeedSchedule(cfg.seed, id.rank).1
      && rng.numpySeed == SeedSchedule(cfg.seed, id.rank).1
      && rng.pythonSeed == SeedSchedule(cfg.seed, id.rank).1
    ensures SeedsAccepted(cfg.seed, id.rank) && deviceCount == 0 ==> r == Err(NoCudaDevice) && unchanged(run)
    ensures SeedsAccepted(cfg.seed, id.rank) && deviceCount > 0 ==>
      match ResolveResume(cfg.runName, old(run.dirExists), cfg.resumeFromCheckpoint, listing, store)
      case Err(e) => r == Err(ResumeFailed(e)) && unchanged(run)
      case Ok(point) =>
        var s := TrainingLoop(old(run.Directory()), cfg, id.rank, point.epoch, stepOf, failing);
        r.Ok? && r.value.modelSeed == SeedSchedule(cfg.seed, id.rank).0 && r.value.deviceId == id.rank % deviceCount
        && r.value.groups == Groups(named, cfg.weightDecay) && r.value.resume == point
        && run.Directory() == s.dir && run.trace == old(run.trace) + s.events && r.value.outcome == s.outcome
  {
    var deviceId := initDevice;
    var seeded := rng.RandomSeed(cfg.seed, DefaultRank);
    if !seeded {
      return Err(SeedOutOfRange(cfg.seed + DefaultRank));
    }
    var modelSeed := rng.torchSeed;
    seeded := rng.RandomSeed(cfg.seed, id.rank);
    if !seeded {
      return Err(SeedOutOfRange(cfg.seed + id.rank));
    }
    var device := DeviceIndex(id.rank, deviceCount);
    if device.None? {
      return Err(NoCudaDevice);
    }
    deviceId := device.value;
    var groups := GetGroupedParams(named, cfg.weightDecay);
    assert groups == Groups(named, cfg.weightDecay);
    var resume := ResolveResume(cfg.runName, run.dirExists, cfg.resumeFromCheckpoint, listing, store);
    if resume.Err? {
      return Err(ResumeFailed(resume.error));
    }
    var outcome := run.Train(cfg, id.rank, resume.value.epoch, stepOf, failing);
    r := Ok(Launched(modelSeed, deviceId, groups, resume.value, outcome));
  }

  /** Discovery in a run directory that holds only files the loop wrote:
      the script resumes after its latest checkpoint, and stops with the
      file unreadable when that latest file is a truncated one. */
  lemma ResumeInRunDirectory(runName: string, d: Dir, listing: seq<string>,
                             store: map<string, Checkpoint>, latest: int)
    requires ListsCheckpoints(listing, d.checkpoints + d.truncated) && StoreOf(runName, store, d)
    requires latest in d.checkpoints + d.truncated
    requires forall e :: e in d.checkpoints + d.truncated ==> e <= latest
    ensures var path := PathIn(runName, CheckpointFileName(latest));
      ResolveResume(runName, true, None, listing, store)
      == if latest in d.truncated then Err(CheckpointUnreadable(path)) else Ok(ResumePoint(Some(path), latest + 1))
  {
    var path := PathIn(runName, CheckpointFileName(latest));
    DiscoverLatestOfDirectory(runName, listing, d.checkpoints + d.truncated, latest);
    if latest in d.truncated {
      ResolveUnreadable(runName, true, None, listing, store, path);
    } else {
      ResolveDiscovered(runName, true, None, listing, store, path, latest);
    }
  }

  /** A fresh rank-0 run with rotation whose save of `checkpoint_{k}` is the
      first to raise stops with `checkpoint_{k-1}` as its only complete
      checkpoint, and `checkpoint_{k}` truncated when the save died
      mid-write. */
  lemma FreshRunCrashesAtSave(cfg: RunConfig, k: int, stepOf: int -> int, failing: Faults)
    requires cfg.deletePreviousCheckpoint && 0 < k < cfg.numEpochs
    requires CheckpointFile(k) in failing
    requires forall j :: 0 <= j < k ==> CheckpointFile(j) !in failing
    ensures var first := TrainingLoop(Dir(false, {}, false, {}), cfg, DesignatedRank, 0, stepOf, failing);
      first.outcome == Crashed(SaveFailed(CheckpointFile(k)))
      && first.dir == Dir(true, {k - 1}, false, if failing[CheckpointFile(k)] == MidWrite then {k} else {})
  {
    var empty := Dir(false, {}, false, {});
    RotatingRunCrashesAtSave(empty, cfg, 0, k, stepOf, failing);
    assert ({} - Span(0, k - 1)) + {k - 1} == {k - 1};
    assert {k - 1} - {k} == {k - 1};
  }

  /** Resumed at epoch `k` from a directory holding only `checkpoint_{k-1}`,
      a rank-0 run with rotation whose saves all succeed ends with only
      `checkpoint_{N-1}` and the final weights. */
  lemma ResumedRunFinishes(cfg: RunConfig, k: int, stepOf: int -> int, failing: Faults)
    requires cfg.deletePreviousCheckpoint && 0 < k < cfg.numEpochs
    requires SavesSucceed(cfg, k, failing)
    ensures var second := TrainingLoop(Dir(true, {k - 1}, false, {}), cfg, DesignatedRank, k, stepOf, failing);
      second.outcome == Finished && second.dir == Dir(true, {cfg.numEpochs - 1}, true, {})
  {
    RotatingRunCheckpoints(Dir(true, {k - 1}, false, {}), cfg, k, stepOf, failing);
    assert k - 1 in Span(k - 1, cfg.numEpochs - 1);
  }

  /** Restarting after a crash: a fresh rank-0 run with rotation whose save
      of `checkpoint_{k}` raises before opening the file stops with only
      `checkpoint_{k-1}` on disk; started again with the same run name, it
      finds that file, resumes at epoch `k`, rotates it away and ends with
      `checkpoint_{N-1}` and the final weights. */
  lemma ResumeAfterCrash(cfg: RunConfig, k: int, stepOf: int -> int,
                         firstFailing: Faults, secondFailing: Faults,
                         listing: seq<string>, store: map<string, Checkpoint>)
    requires cfg.deletePreviousCheckpoint && cfg.resumeFromCheckpoint.None?
    requires 0 < k < cfg.numEpochs
    requires CheckpointFile(k) in firstFailing && firstFailing[CheckpointFile(k)] == BeforeOpen
    requires forall j :: 0 <= j < k ==> CheckpointFile(j) !in firstFailing
    requires SavesSucceed(cfg, k, secondFailing)
    requires ListsCheckpoints(listing, {k - 1}) && StoreOf(cfg.runName, store, Dir(true, {k - 1}, false, {}))
    ensures var first := TrainingLoop(Dir(false, {}, false, {}), cfg, DesignatedRank, 0, stepOf, firstFailing);
      first.outcome == Crashed(SaveFailed(CheckpointFile(k)))
      && first.dir == Dir(true, {k - 1}, false, {})
      && ResolveResume(cfg.runName, first.dir.dirExists, cfg.resumeFromCheckpoint, listing, store)
         == Ok(ResumePoint(Some(PathIn(cfg.runName, CheckpointFileName(k - 1))), k))
      && var second := TrainingLoop(first.dir, cfg, DesignatedRank, k, stepOf, secondFailing);
      second.outcome == Finished
      && second.dir == Dir(true, {cfg.numEpochs - 1}, true, {})
  {
    FreshRunCrashesAtSave(cfg, k, stepOf, firstFailing);
    var first := Dir(true, {k - 1}, false, {});
    ResumeInRunDirectory(cfg.runName, first, listing, store, k - 1);
    ResumedRunFinishes(cfg, k, stepOf, secondFailing);
  }

  /** The same run when the save of `checkpoint_{k}` dies mid-write: the
      truncated `checkpoint_{k}.pt` stays next to `checkpoint_{k-1}.pt`,
      discovery on restart picks it as the latest, and `torch.load` raises,
      so the run cannot resume without removing that file by hand. */
  lemma RestartAfterTruncatedSave(cfg: RunConfig, k: int, stepOf: int -> int, firstFailing: Faults,
                                  listing: seq<string>, store: map<string, Checkpoint>)
    requires cfg.deletePreviousCheckpoint && cfg.resumeFromCheckpoint.None?
    requires 0 < k < cfg.numEpochs
    requires CheckpointFile(k) in firstFailing && firstFailing[CheckpointFile(k)] == MidWrite
    requires forall j :: 0 <= j < k ==> CheckpointFile(j) !in firstFailing
    requires ListsCheckpoints(listing, {k - 1, k}) && StoreOf(cfg.runName, store, Dir(true, {k - 1}, false, {k}))
    ensures var first := TrainingLoop(Dir(false, {}, false, {}), cfg, DesignatedRank, 0, stepOf, firstFailing);
      first.outcome == Crashed(SaveFailed(CheckpointFile(k)))
      && first.dir == Dir(true, {k - 1}, false, {k})
      && ResolveResume(cfg.runName, first.dir.dirExists, cfg.resumeFromCheckpoint, listing, store)
         == Err(CheckpointUnreadable(PathIn(cfg.runName, CheckpointFileName(k))))
  {
    FreshRunCrashesAtSave(cfg, k, stepOf, firstFailing);
    var first := Dir(true, {k - 1}, false, {k});
    assert first.checkpoints + first.truncated == {k - 1, k};
    ResumeInRunDirectory(cfg.runName, first, listing, store, k);
  }
}

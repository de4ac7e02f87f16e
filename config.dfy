/** The resolved settings of one training run and the process identity read
    from the environment. Both are fixed once the script has started. */
module Configuration {
  import opened Common

  /** The command-line settings the orchestration logic reads. Floating-point
      settings are carried as `real` values that are only copied. */
  datatype RunConfig = RunConfig(
    runName: string,
    numEpochs: int,
    doEval: bool,
    resumeFromCheckpoint: Option<string>,
    deletePreviousCheckpoint: bool,
    seed: int,
    weightDecay: real,
    reportToWandb: bool)

  /** What `world_info_from_env` returns for this process. */
  datatype ProcessIdentity = ProcessIdentity(localRank: int, rank: int, worldSize: int)

  /** The rank that creates the run directory, writes checkpoints and reports. */
  const DesignatedRank := 0
}

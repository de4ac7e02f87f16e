/** The epoch loop of the training script (`for epoch in range(...)` and the
    final save) as a state machine over the run directory, with its side
    effects recorded as an ordered trace of events. */
module EpochLoop {
  import opened Configuration

  /** The three evaluations run after each epoch, in order. */
  datatype Benchmark = Coco | OkVqa | VqaV2

  /** A file the script writes into the run directory. */
  datatype Artifact = CheckpointFile(epoch: int) | FinalWeights

  /** The observable steps of the loop, in the order they happen. */
  datatype Event =
    | SetEpoch(epoch: int)                   // train_dataset.set_epoch(epoch)
    | TrainOneEpoch(epoch: int)              // train_one_epoch(...)
    | Evaluate(benchmark: Benchmark, step: int)
    | Log(step: int, commit: bool)           // wandb.log(scores, step=step, commit=commit)
    | ModelTrainMode                         // ddp_model.train()
    | MakeDirs                               // os.makedirs(run_name)
    | Save(artifact: Artifact)               // torch.save(..., path)
    | Upload(artifact: Artifact)             // wandb.save(path)
    | Remove(epoch: int)                     // os.remove(checkpoint_{epoch}.pt)

  /** The exceptions that end the loop early. */
  datatype Failure =
    | SaveFailed(artifact: Artifact)         // torch.save raised
    | RemoveFailed(epoch: int)               // os.remove of a file that is not there

  /** How a `torch.save` that raises leaves its file: untouched, when it
      raises before opening the path (the path cannot be opened); or
      truncated, when it has opened the path for writing and stops part-way
      (the object cannot be pickled, storage exhausted). */
  datatype SaveFault = BeforeOpen | MidWrite

  /** The saves that raise, and how. */
  type Faults = map<Artifact, SaveFault>

  datatype Outcome = Finished | Crashed(failure: Failure)

  /** The run directory: whether it exists, the epochs with a complete
      checkpoint file in it, whether a complete `final_weights.pt` is in it,
      and the epochs whose checkpoint file a failed save left truncated. */
  datatype Dir = Dir(dirExists: bool, checkpoints: set<int>, finalWritten: bool, truncated: set<int>)

  /** What a stretch of the loop does: the directory afterwards, the events
      it emits, and whether it ran to its end. */
  datatype Segment = Segment(dir: Dir, events: seq<Event>, outcome: Outcome)

  // ---------------------------------------------------------------------------
  // The loop, one phase at a time

  function LogIf(report: bool, step: int, commit: bool): seq<Event> {
    if report then [Log(step, commit)] else []
  }

  /** The evaluation phase: three evaluations sharing one step, each
      reported when telemetry is on, only the last report committing; then
      the model goes back to training mode. */
  function EvaluationEvents(report: bool, step: int): seq<Event> {
    [Evaluate(Coco, step)] + LogIf(report, step, false)
    + [Evaluate(OkVqa, step)] + LogIf(report, step, false)
    + [Evaluate(VqaV2, step)] + LogIf(report, step, true)
    + [ModelTrainMode]
  }

  /** `a` followed by `b`, where `b` starts from `a`'s directory; a crash in
      `a` ends the whole. */
  function Chain(a: Segment, b: Segment): Segment {
    if a.outcome.Crashed? then a else Segment(b.dir, a.events + b.events, b.outcome)
  }

  /** `if not os.path.exists(run_name): os.makedirs(run_name)`. */
  function EnsureRunDirectory(d: Dir): Segment {
    if d.dirExists then Segment(d, [], Finished)
    else Segment(d.(dirExists := true), [MakeDirs], Finished)
  }

  /** `torch.save` of an artifact into an existing run directory, then
      `wandb.save` of it when reporting. A save that raises mid-write
      leaves the file truncated, overwriting whatever the path held. */
  function SaveArtifact(d: Dir, cfg: RunConfig, a: Artifact, failing: Faults): Segment {
    if a in failing then
      var d' := if failing[a] == BeforeOpen then d
        else match a
          case CheckpointFile(e) => d.(checkpoints := d.checkpoints - {e}, truncated := d.truncated + {e})
          case FinalWeights => d.(finalWritten := false);
      Segment(d', [], Crashed(SaveFailed(a)))
    else
      var d' := match a
        case CheckpointFile(e) => d.(checkpoints := d.checkpoints + {e}, truncated := d.truncated - {e})
        case FinalWeights => d.(finalWritten := true);
      Segment(d', [Save(a)] + (if cfg.reportToWandb then [Upload(a)] else []), Finished)
  }

  /** Rotation after saving `checkpoint_{epoch}`: with rotation on and
      `epoch > 0`, `os.remove` of `checkpoint_{epoch-1}`, which raises if
      that file is not there. */
  function Rotate(d: Dir, cfg: RunConfig, epoch: int): Segment {
    if cfg.deletePreviousCheckpoint && epoch > 0 then
      if epoch - 1 in d.checkpoints || epoch - 1 in d.truncated then
        Segment(d.(checkpoints := d.checkpoints - {epoch - 1}, truncated := d.truncated - {epoch - 1}),
                [Remove(epoch - 1)], Finished)
      else
        Segment(d, [], Crashed(RemoveFailed(epoch - 1)))
    else
      Segment(d, [], Finished)
  }

  /** Rank 0's checkpoint phase: create the directory if needed, save
      `checkpoint_{epoch}`, then rotate. */
  function CheckpointPhase(d: Dir, cfg: RunConfig, epoch: int, failing: Faults): Segment {
    var made := EnsureRunDirectory(d);
    var saved := Chain(made, SaveArtifact(made.dir, cfg, CheckpointFile(epoch), failing));
    Chain(saved, Rotate(saved.dir, cfg, epoch))
  }

  /** The events every rank emits at the start of an iteration, and the
      evaluation phase on rank 0 when evaluation is on. */
  function EpochHead(cfg: RunConfig, rank: int, epoch: int, step: int): seq<Event> {
    [SetEpoch(epoch), TrainOneEpoch(epoch)]
    + (if cfg.doEval && rank == DesignatedRank then EvaluationEvents(cfg.reportToWandb, step) else [])
  }

  /** What an iteration does after training and evaluating: the checkpoint
      phase on rank 0, nothing elsewhere. */
  function EpochTail(d: Dir, cfg: RunConfig, rank: int, epoch: int, failing: Faults): Segment {
    if rank == DesignatedRank then CheckpointPhase(d, cfg, epoch, failing) else Segment(d, [], Finished)
  }

  /** One iteration of the loop on the process of rank `rank`; `step` is
      the telemetry step read before evaluating. */
  function EpochStep(d: Dir, cfg: RunConfig, rank: int, epoch: int, step: int, failing: Faults): Segment {
    var tail := EpochTail(d, cfg, rank, epoch, failing);
    Segment(tail.dir, EpochHead(cfg, rank, epoch, step) + tail.events, tail.outcome)
  }

  /** After the loop, rank 0 writes `final_weights.pt` (and uploads it). */
  function Finalize(d: Dir, cfg: RunConfig, rank: int, failing: Faults): Segment {
    if rank != DesignatedRank then Segment(d, [], Finished)
    else
      var made := EnsureRunDirectory(d);
      Chain(made, SaveArtifact(made.dir, cfg, FinalWeights, failing))
  }

  /** The step value `wandb.run.step if args.report_to_wandb else 0`. */
  function StepAt(cfg: RunConfig, stepOf: int -> int, epoch: int): int {
    if cfg.reportToWandb then stepOf(epoch) else 0
  }

  /** The iterations `epoch .. num_epochs - 1` followed by the final save;
      an exception ends everything at once. `stepOf` gives the telemetry
      run's step counter as read in each epoch; `failing` the saves that raise. */
  function RunFrom(d: Dir, cfg: RunConfig, rank: int, epoch: int, stepOf: int -> int,
                   failing: Faults): (r: Segment)
    ensures rank == DesignatedRank && r.outcome.Finished? ==> r.dir.dirExists && r.dir.finalWritten
    decreases cfg.numEpochs - epoch
  {
    if epoch >= cfg.numEpochs then Finalize(d, cfg, rank, failing)
    else
      var s := EpochStep(d, cfg, rank, epoch, StepAt(cfg, stepOf, epoch), failing);
      if s.outcome.Crashed? then s
      else
        var rest := RunFrom(s.dir, cfg, rank, epoch + 1, stepOf, failing);
        Segment(rest.dir, s.events + rest.events, rest.outcome)
  }

  /** `ddp_model.train()`, the loop from `resume_from_epoch`, the final save. */
  function TrainingLoop(d: Dir, cfg: RunConfig, rank: int, start: int, stepOf: int -> int,
                        failing: Faults): (r: Segment)
    ensures |r.events| > 0 && r.events[0] == ModelTrainMode
    ensures rank == DesignatedRank && r.outcome.Finished? ==> r.dir.dirExists && r.dir.finalWritten
  {
    var rest := RunFrom(d, cfg, rank, start, stepOf, failing);
    Segment(rest.dir, [ModelTrainMode] + rest.events, rest.outcome)
  }

  /** One unfolding of `RunFrom` at an epoch still to train. */
  lemma RunFromStep(d: Dir, cfg: RunConfig, rank: int, epoch: int, stepOf: int -> int,
                    failing: Faults, s: Segment)
    requires epoch < cfg.numEpochs
    requires s == EpochStep(d, cfg, rank, epoch, StepAt(cfg, stepOf, epoch), failing)
    ensures s.outcome.Crashed? ==> RunFrom(d, cfg, rank, epoch, stepOf, failing) == s
    ensures s.outcome.Finished? ==>
      var r := RunFrom(d, cfg, rank, epoch, stepOf, failing);
      var rest := RunFrom(s.dir, cfg, rank, epoch + 1, stepOf, failing);
      r.dir == rest.dir && r.outcome == rest.outcome && r.events == s.events + rest.events
  {
  }

  lemma Associative<T>(a: seq<T>, b: seq<T>, c: seq<T>)
    ensures a + b + c == a + (b + c)
  {
  }

  // ---------------------------------------------------------------------------
  // The process state the loop changes

  class TrainingRun {
    var dirExists: bool
    var checkpoints: set<int>
    var finalWritten: bool
    var truncated: set<int>
    var trace: seq<Event>

    function Directory(): Dir
      reads this
    {
      Dir(dirExists, checkpoints, finalWritten, truncated)
    }

    constructor (d: Dir)
      ensures Directory() == d && trace == []
    {
      dirExists, checkpoints, finalWritten, truncated := d.dirExists, d.checkpoints, d.finalWritten, d.truncated;
      trace := [];
    }

    method MakeRunDirectory()
      modifies this
      ensures var s := EnsureRunDirectory(old(Directory()));
        Directory() == s.dir && trace == old(trace) + s.events
    {
      if !dirExists {
        dirExists := true;
        trace := trace + [MakeDirs];
      }
    }

    method RunEvaluations(report: bool, step: int)
      modifies this`trace
      ensures trace == old(trace) + EvaluationEvents(report, step)
    {
      trace := trace + [Evaluate(Coco, step)];
      if report { trace := trace + [Log(step, false)]; }
      trace := trace + [Evaluate(OkVqa, step)];
      if report { trace := trace + [Log(step, false)]; }
      trace := trace + [Evaluate(VqaV2, step)];
      if report { trace := trace + [Log(step, true)]; }
      trace := trace + [ModelTrainMode];
    }

    method SaveArtifactFile(cfg: RunConfig, a: Artifact, failing: Faults) returns (outcome: Outcome)
      modifies this
      ensures var s := SaveArtifact(old(Directory()), cfg, a, failing);
        Directory() == s.dir && trace == old(trace) + s.events && outcome == s.outcome
    {
      if a in failing {
        if failing[a] == MidWrite {
          match a {
            case CheckpointFile(e) => checkpoints, truncated := checkpoints - {e}, truncated + {e};
            case FinalWeights => finalWritten := false;
          }
        }
        return Crashed(SaveFailed(a));
      }
      match a {
        case CheckpointFile(e) => checkpoints, truncated := checkpoints + {e}, truncated - {e};
        case FinalWeights => finalWritten := true;
      }
      trace := trace + [Save(a)];
      if cfg.reportToWandb {
        trace := trace + [Upload(a)];
      }
      outcome := Finished;
    }

    method RotateCheckpoints(cfg: RunConfig, epoch: int) returns (outcome: Outcome)
      modifies this
      ensures var s := Rotate(old(Directory()), cfg, epoch);
        Directory() == s.dir && trace == old(trace) + s.events && outcome == s.outcome
    {
      outcome := Finished;
      if cfg.deletePreviousCheckpoint && epoch > 0 {
        if epoch - 1 !in checkpoints && epoch - 1 !in truncated {
          return Crashed(RemoveFailed(epoch - 1));
        }
        checkpoints, truncated := checkpoints - {epoch - 1}, truncated - {epoch - 1};
        trace := trace + [Remove(epoch - 1)];
      }
    }

    method SaveCheckpoint(cfg: RunConfig, epoch: int, failing: Faults) returns (outcome: Outcome)
      modifies this
      ensures var s := CheckpointPhase(old(Directory()), cfg, epoch, failing);
        Directory() == s.dir && trace == old(trace) + s.events && outcome == s.outcome
    {
      ghost var t0 := trace;
      ghost var made := EnsureRunDirectory(Directory());
      MakeRunDirectory();
      ghost var saved := SaveArtifact(Directory(), cfg, CheckpointFile(epoch), failing);
      outcome := SaveArtifactFile(cfg, CheckpointFile(epoch), failing);
      Associative(t0, made.events, saved.events);
      if outcome.Crashed? {
        return;
      }
      ghost var rotated := Rotate(Directory(), cfg, epoch);
      outcome := RotateCheckpoints(cfg, epoch);
      Associative(t0, made.events + saved.events, rotated.events);
    }

    /** `set_epoch`, `train_one_epoch` and, on rank 0 with evaluation on,
        the evaluation phase. */
    method BeginEpoch(cfg: RunConfig, rank: int, epoch: int, step: int)
      modifies this`trace
      ensures trace == old(trace) + EpochHead(cfg, rank, epoch, step)
    {
      ghost var t0 := trace;
      trace := trace + [SetEpoch(epoch), TrainOneEpoch(epoch)];
      if cfg.doEval && rank == DesignatedRank {
        RunEvaluations(cfg.reportToWandb, step);
        Associative(t0, [SetEpoch(epoch), TrainOneEpoch(epoch)], EvaluationEvents(cfg.reportToWandb, step));
      } else {
        assert [SetEpoch(epoch), TrainOneEpoch(epoch)] + [] == [SetEpoch(epoch), TrainOneEpoch(epoch)];
      }
    }

    method RunEpoch(cfg: RunConfig, rank: int, epoch: int, step: int, failing: Faults)
      returns (outcome: Outcome)
      modifies this
      ensures var s := EpochStep(old(Directory()), cfg, rank, epoch, step, failing);
        Directory() == s.dir && trace == old(trace) + s.events && outcome == s.outcome
    {
      ghost var t0 := trace;
      ghost var head := EpochHead(cfg, rank, epoch, step);
      BeginEpoch(cfg, rank, epoch, step);
      if rank == DesignatedRank {
        ghost var c := CheckpointPhase(Directory(), cfg, epoch, failing);
        outcome := SaveCheckpoint(cfg, epoch, failing);
        Associative(t0, head, c.events);
      } else {
        outcome := Finished;
        assert head + [] == head;
      }
    }

    method FinalizeRun(cfg: RunConfig, rank: int, failing: Faults) returns (outcome: Outcome)
      modifies this
      ensures var s := Finalize(old(Directory()), cfg, rank, failing);
        Directory() == s.dir && trace == old(trace) + s.events && outcome == s.outcome
    {
      outcome := Finished;
      if rank == DesignatedRank {
        ghost var t0 := trace;
        MakeRunDirectory();
        ghost var t1 := trace;
        outcome := SaveArtifactFile(cfg, FinalWeights, failing);
        assert trace == t0 + (t1[|t0|..] + trace[|t1|..]);
      }
    }

    /** One iteration of the epoch loop, stated against the rest of the run:
        either it ends the run as `RunFrom` does, or it leaves what remains
        of the run to the next epoch. */
    method AdvanceEpoch(cfg: RunConfig, rank: int, epoch: int, stepOf: int -> int,
                        failing: Faults)
      returns (outcome: Outcome)
      requires epoch < cfg.numEpochs
      modifies this
      ensures var r := RunFrom(old(Directory()), cfg, rank, epoch, stepOf, failing);
        outcome.Crashed? ==>
          Directory() == r.dir && trace == old(trace) + r.events && outcome == r.outcome
      ensures var r := RunFrom(old(Directory()), cfg, rank, epoch, stepOf, failing);
        var rest := RunFrom(Directory(), cfg, rank, epoch + 1, stepOf, failing);
        outcome.Finished? ==>
          r.dir == rest.dir && r.outcome == rest.outcome
          && old(trace) + r.events == trace + rest.events
    {
      var step := if cfg.reportToWandb then stepOf(epoch) else 0;
      ghost var s := EpochStep(Directory(), cfg, rank, epoch, step, failing);
      RunFromStep(Directory(), cfg, rank, epoch, stepOf, failing, s);
      outcome := RunEpoch(cfg, rank, epoch, step, failing);
      if outcome.Finished? {
        Associative(old(trace), s.events, RunFrom(s.dir, cfg, rank, epoch + 1, stepOf, failing).events);
      }
    }

    /** Lines 190-286 of the script: the whole loop and the final save. */
    method Train(cfg: RunConfig, rank: int, start: int, stepOf: int -> int, failing: Faults)
      returns (outcome: Outcome)
      modifies this
      ensures var s := TrainingLoop(old(Directory()), cfg, rank, start, stepOf, failing);
        Directory() == s.dir && trace == old(trace) + s.events && outcome == s.outcome
    {
      ghost var full := RunFrom(Directory(), cfg, rank, start, stepOf, failing);
      trace := trace + [ModelTrainMode];
      ghost var t0 := trace;
      Associative(old(trace), [ModelTrainMode], full.events);
      var epoch := start;
      while epoch < cfg.numEpochs
        invariant var rest := RunFrom(Directory(), cfg, rank, epoch, stepOf, failing);
          full.dir == rest.dir && full.outcome == rest.outcome
          && t0 + full.events == trace + rest.events
        decreases cfg.numEpochs - epoch
      {
        outcome := AdvanceEpoch(cfg, rank, epoch, stepOf, failing);
        if outcome.Crashed? {
          return;
        }
        epoch := epoch + 1;
      }
      outcome := FinalizeRun(cfg, rank, failing);
    }
  }
}

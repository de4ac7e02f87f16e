/** What the epoch loop guarantees: which epochs it trains, what is left in
    the run directory, the order of saving and removing, the training mode
    around evaluation and checkpointing, and the telemetry it reports. */
module EpochProperties {
  import opened Common
  import opened Configuration
  import opened EpochLoop

  // ---------------------------------------------------------------------------
  // Projections of a trace

  /** The concatenation of `f` over the events of `ev`, in order. */
  function FlatMap<T>(ev: seq<Event>, f: Event -> seq<T>): seq<T>
  {
    if ev == [] then [] else f(ev[0]) + FlatMap(ev[1..], f)
  }

  lemma {:induction false} FlatMapConcat<T>(a: seq<Event>, b: seq<Event>, f: Event -> seq<T>)
    ensures FlatMap(a + b, f) == FlatMap(a, f) + FlatMap(b, f)
  {
    if a == [] {
      assert a + b == b;
    } else {
      assert (a + b)[1..] == a[1..] + b;
      FlatMapConcat(a[1..], b, f);
    }
  }

  lemma {:induction false} FlatMapOfNothing<T>(ev: seq<Event>, f: Event -> seq<T>)
    requires forall e :: e in ev ==> f(e) == []
    ensures FlatMap(ev, f) == []
  {
    if ev != [] {
      assert ev[0] in ev;
      assert forall e :: e in ev[1..] ==> e in ev;
      FlatMapOfNothing(ev[1..], f);
    }
  }

  function TrainedOf(e: Event): seq<int> {
    if e.TrainOneEpoch? then [e.epoch] else []
  }

  /** The epochs passed to `train_one_epoch`, in order. */
  function TrainedEpochs(ev: seq<Event>): seq<int> {
    FlatMap(ev, TrainedOf)
  }

  function LogOf(e: Event): seq<(int, bool)> {
    if e.Log? then [(e.step, e.commit)] else []
  }

  /** The `(step, commit)` records of the `wandb.log` calls, in order. */
  function Logs(ev: seq<Event>): seq<(int, bool)> {
    FlatMap(ev, LogOf)
  }

  /** `range(lo, hi)`. */
  function Range(lo: int, hi: int): (r: seq<int>)
    ensures |r| == if lo < hi then hi - lo else 0
    ensures forall i :: 0 <= i < |r| ==> r[i] == lo + i
    decreases hi - lo
  {
    if lo >= hi then [] else [lo] + Range(lo + 1, hi)
  }

  /** The epochs `lo .. hi-1` as a set. */
  function Span(lo: int, hi: int): (r: set<int>)
    ensures forall k :: k in r <==> lo <= k < hi
    decreases hi - lo
  {
    if lo >= hi then {} else {lo} + Span(lo + 1, hi)
  }

  predicate Bookkeeping(e: Event) {
    e.MakeDirs? || e.Save? || e.Upload? || e.Remove?
  }

  // ---------------------------------------------------------------------------
  // What each phase emits

  lemma EvaluationEventsKinds(report: bool, step: int)
    ensures forall e :: e in EvaluationEvents(report, step) ==> e.Evaluate? || e.Log? || e.ModelTrainMode?
  {
  }

  lemma CheckpointPhaseKinds(d: Dir, cfg: RunConfig, epoch: int, failing: Faults)
    ensures forall e :: e in CheckpointPhase(d, cfg, epoch, failing).events ==> Bookkeeping(e)
  {
  }

  lemma FinalizeKinds(d: Dir, cfg: RunConfig, rank: int, failing: Faults)
    ensures forall e :: e in Finalize(d, cfg, rank, failing).events ==> Bookkeeping(e)
  {
  }

  /** Rank 0's checkpoint phase when the save goes through and the previous
      checkpoint, if rotation asks for it, is there. */
  lemma CheckpointPhaseSucceeds(d: Dir, cfg: RunConfig, epoch: int, failing: Faults)
    requires CheckpointFile(epoch) !in failing
    requires cfg.deletePreviousCheckpoint && epoch > 0 ==> epoch - 1 in d.checkpoints || epoch - 1 in d.truncated
    ensures var s := CheckpointPhase(d, cfg, epoch, failing);
      s.outcome == Finished && s.dir.dirExists && s.dir.finalWritten == d.finalWritten
      && s.dir.checkpoints == (if cfg.deletePreviousCheckpoint && epoch > 0
                               then (d.checkpoints + {epoch}) - {epoch - 1}
                               else d.checkpoints + {epoch})
      && s.dir.truncated == if cfg.deletePreviousCheckpoint && epoch > 0
                            then d.truncated - {epoch, epoch - 1}
                            else d.truncated - {epoch}
  {
  }

  lemma TailKinds(d: Dir, cfg: RunConfig, rank: int, epoch: int, failing: Faults)
    ensures forall e :: e in EpochTail(d, cfg, rank, epoch, failing).events ==> Bookkeeping(e)
  {
    if rank == DesignatedRank {
      CheckpointPhaseKinds(d, cfg, epoch, failing);
    }
  }

  lemma FlatMapSingleton<T>(x: Event, f: Event -> seq<T>)
    ensures FlatMap([x], f) == f(x)
  {
    assert [x][1..] == [];
  }

  /** The evaluation phase reports `(step, false), (step, false),
      (step, true)` when telemetry is on, nothing when it is off. */
  lemma EvaluationLogs(report: bool, step: int)
    ensures Logs(EvaluationEvents(report, step))
         == if report then [(step, false), (step, false), (step, true)] else []
  {
    var a1, l1 := [Evaluate(Coco, step)], LogIf(report, step, false);
    var a2, l2 := [Evaluate(OkVqa, step)], LogIf(report, step, false);
    var a3, l3 := [Evaluate(VqaV2, step)], LogIf(report, step, true);
    var m := [ModelTrainMode];
    FlatMapSingleton(Evaluate(Coco, step), LogOf);
    FlatMapSingleton(Evaluate(OkVqa, step), LogOf);
    FlatMapSingleton(Evaluate(VqaV2, step), LogOf);
    FlatMapSingleton(ModelTrainMode, LogOf);
    if report {
      FlatMapSingleton(Log(step, false), LogOf);
      FlatMapSingleton(Log(step, true), LogOf);
    }
    FlatMapConcat(a1, l1, LogOf);
    FlatMapConcat(a1 + l1, a2, LogOf);
    FlatMapConcat(a1 + l1 + a2, l2, LogOf);
    FlatMapConcat(a1 + l1 + a2 + l2, a3, LogOf);
    FlatMapConcat(a1 + l1 + a2 + l2 + a3, l3, LogOf);
    FlatMapConcat(a1 + l1 + a2 + l2 + a3 + l3, m, LogOf);
  }

  /** The head of an iteration trains exactly its own epoch. */
  lemma HeadTrained(cfg: RunConfig, rank: int, epoch: int, step: int)
    ensures TrainedEpochs(EpochHead(cfg, rank, epoch, step)) == [epoch]
  {
    var eval := if cfg.doEval && rank == DesignatedRank then EvaluationEvents(cfg.reportToWandb, step) else [];
    assert [SetEpoch(epoch), TrainOneEpoch(epoch)] == [SetEpoch(epoch)] + [TrainOneEpoch(epoch)];
    FlatMapSingleton(SetEpoch(epoch), TrainedOf);
    FlatMapSingleton(TrainOneEpoch(epoch), TrainedOf);
    FlatMapConcat([SetEpoch(epoch)], [TrainOneEpoch(epoch)], TrainedOf);
    FlatMapConcat([SetEpoch(epoch), TrainOneEpoch(epoch)], eval, TrainedOf);
    EvaluationEventsKinds(cfg.reportToWandb, step);
    FlatMapOfNothing(eval, TrainedOf);
  }

  /** The head of an iteration logs only in its evaluation phase. */
  lemma HeadLogs(cfg: RunConfig, rank: int, epoch: int, step: int)
    ensures Logs(EpochHead(cfg, rank, epoch, step))
         == if cfg.doEval && rank == DesignatedRank && cfg.reportToWandb
            then [(step, false), (step, false), (step, true)] else []
  {
    var eval := if cfg.doEval && rank == DesignatedRank then EvaluationEvents(cfg.reportToWandb, step) else [];
    FlatMapOfNothing([SetEpoch(epoch), TrainOneEpoch(epoch)], LogOf);
    FlatMapConcat([SetEpoch(epoch), TrainOneEpoch(epoch)], eval, LogOf);
    EvaluationLogs(cfg.reportToWandb, step);
  }

  lemma SpanCons(lo: int, hi: int)
    requires lo < hi
    ensures Span(lo, hi) == {lo} + Span(lo + 1, hi)
  {
  }

  lemma PrefixAfter<T>(x: seq<T>, a: seq<T>, b: seq<T>)
    requires a <= b
    ensures x + a <= x + b
  {
    assert (x + b)[..|x + a|] == x + a;
  }

  /** One iteration trains exactly its own epoch. */
  lemma StepTrained(d: Dir, cfg: RunConfig, rank: int, epoch: int, step: int, failing: Faults)
    ensures TrainedEpochs(EpochStep(d, cfg, rank, epoch, step, failing).events) == [epoch]
  {
    var tail := EpochTail(d, cfg, rank, epoch, failing);
    HeadTrained(cfg, rank, epoch, step);
    TailKinds(d, cfg, rank, epoch, failing);
    FlatMapOfNothing(tail.events, TrainedOf);
    FlatMapConcat(EpochHead(cfg, rank, epoch, step), tail.events, TrainedOf);
  }

  /** One iteration logs only what its evaluation phase logs. */
  lemma StepLogs(d: Dir, cfg: RunConfig, rank: int, epoch: int, step: int, failing: Faults)
    ensures Logs(EpochStep(d, cfg, rank, epoch, step, failing).events)
         == if cfg.doEval && rank == DesignatedRank && cfg.reportToWandb
            then [(step, false), (step, false), (step, true)] else []
  {
    var tail := EpochTail(d, cfg, rank, epoch, failing);
    HeadLogs(cfg, rank, epoch, step);
    TailKinds(d, cfg, rank, epoch, failing);
    FlatMapOfNothing(tail.events, LogOf);
    FlatMapConcat(EpochHead(cfg, rank, epoch, step), tail.events, LogOf);
  }

  // ---------------------------------------------------------------------------
  // Which epochs run

  /** The loop trains the epochs `epoch, epoch+1, ...` in order; all of
      `range(epoch, num_epochs)` when nothing fails, a prefix of it when
      something does. */
  lemma {:induction false} EpochsVisited(d: Dir, cfg: RunConfig, rank: int, epoch: int,
                                         stepOf: int -> int, failing: Faults)
    ensures var r := RunFrom(d, cfg, rank, epoch, stepOf, failing);
      TrainedEpochs(r.events) <= Range(epoch, cfg.numEpochs)
      && (r.outcome == Finished ==> TrainedEpochs(r.events) == Range(epoch, cfg.numEpochs))
    decreases cfg.numEpochs - epoch
  {
    var r := RunFrom(d, cfg, rank, epoch, stepOf, failing);
    if epoch >= cfg.numEpochs {
      FinalizeKinds(d, cfg, rank, failing);
      FlatMapOfNothing(r.events, TrainedOf);
    } else {
      var step := StepAt(cfg, stepOf, epoch);
      var s := EpochStep(d, cfg, rank, epoch, step, failing);
      StepTrained(d, cfg, rank, epoch, step, failing);
      if !s.outcome.Crashed? {
        var rest := RunFrom(s.dir, cfg, rank, epoch + 1, stepOf, failing);
        EpochsVisited(s.dir, cfg, rank, epoch + 1, stepOf, failing);
        FlatMapConcat(s.events, rest.events, TrainedOf);
        PrefixAfter([epoch], TrainedEpochs(rest.events), Range(epoch + 1, cfg.numEpochs));
      } else {
        PrefixAfter([epoch], [], Range(epoch + 1, cfg.numEpochs));
      }
    }
  }

  /** A loop resumed at or past `num_epochs` trains nothing. */
  lemma NothingLeftToTrain(d: Dir, cfg: RunConfig, rank: int, epoch: int,
                           stepOf: int -> int, failing: Faults)
    requires epoch >= cfg.numEpochs
    ensures TrainedEpochs(RunFrom(d, cfg, rank, epoch, stepOf, failing).events) == []
  {
    EpochsVisited(d, cfg, rank, epoch, stepOf, failing);
  }

  // ---------------------------------------------------------------------------
  // The run directory

  /** Only rank 0 touches the run directory: on any other rank the loop
      leaves it as it was, never fails, and only trains. */
  lemma {:induction false} OtherRanksLeaveDirectory(d: Dir, cfg: RunConfig, rank: int, epoch: int,
                                                    stepOf: int -> int, failing: Faults)
    requires rank != DesignatedRank
    ensures var r := RunFrom(d, cfg, rank, epoch, stepOf, failing);
      r.dir == d && r.outcome == Finished
      && forall e :: e in r.events ==> e.SetEpoch? || e.TrainOneEpoch?
    decreases cfg.numEpochs - epoch
  {
    if epoch < cfg.numEpochs {
      OtherRanksLeaveDirectory(d, cfg, rank, epoch + 1, stepOf, failing);
    }
  }

  predicate SavesSucceed(cfg: RunConfig, epoch: int, failing: Faults) {
    FinalWeights !in failing
    && forall k :: epoch <= k < cfg.numEpochs ==> CheckpointFile(k) !in failing
  }

  /** The set arithmetic of one rotating iteration: saving `e`, dropping
      `e-1`, then the remaining iterations' effect. */
  lemma RotationSets(c: set<int>, e: int, n: int)
    requires 0 <= e < n
    ensures var c' := if e > 0 then (c + {e}) - {e - 1} else c + {e};
      (if e + 1 < n then (c' - Span(e, n - 1)) + {n - 1} else c')
      == (c - Span(if e > 0 then e - 1 else 0, n - 1)) + {n - 1}
  {
    var dropped: set<int> := if e > 0 then {e - 1} else {};
    var lo := if e > 0 then e - 1 else 0;
    if e + 1 < n {
      if e > 0 {
        SpanCons(e - 1, n - 1);
      }
      assert Span(lo, n - 1) == dropped + Span(e, n - 1);
      assert e in Span(e, n - 1);
    } else {
      assert Span(lo, n - 1) == dropped;
    }
  }

  /** The same for the truncated files: each iteration overwrites its own
      file and removes the previous one. */
  lemma TruncatedSets(t: set<int>, e: int, n: int)
    requires 0 <= e < n
    ensures var t' := if e > 0 then t - {e, e - 1} else t - {e};
      (if e + 1 < n then t' - Span(e, n) else t')
      == t - Span(if e > 0 then e - 1 else 0, n)
  {
    var lo := if e > 0 then e - 1 else 0;
    if e > 0 {
      SpanCons(e - 1, n);
    }
    SpanCons(e, n);
    if e + 1 == n {
      assert Span(e + 1, n) == {};
    }
  }

  /** Rank 0 with rotation on: when every save goes through and, on a
      resume, the previous checkpoint is in the directory, the loop ends
      with `final_weights.pt` written and, of the checkpoints it wrote, only
      the last; files from before the run are kept except those it
      overwrote or rotated away. */
  lemma {:induction false} RotatingRunCheckpoints(d: Dir, cfg: RunConfig, epoch: int,
                                                  stepOf: int -> int, failing: Faults)
    requires cfg.deletePreviousCheckpoint && 0 <= epoch
    requires SavesSucceed(cfg, epoch, failing)
    requires 0 < epoch < cfg.numEpochs ==> epoch - 1 in d.checkpoints || epoch - 1 in d.truncated
    ensures var r := RunFrom(d, cfg, DesignatedRank, epoch, stepOf, failing);
      var lo := if epoch > 0 then epoch - 1 else 0;
      r.outcome == Finished && r.dir.dirExists && r.dir.finalWritten
      && r.dir.checkpoints == (if epoch < cfg.numEpochs
                               then (d.checkpoints - Span(lo, cfg.numEpochs - 1)) + {cfg.numEpochs - 1}
                               else d.checkpoints)
      && r.dir.truncated == if epoch < cfg.numEpochs then d.truncated - Span(lo, cfg.numEpochs) else d.truncated
    decreases cfg.numEpochs - epoch
  {
    if epoch < cfg.numEpochs {
      var s := EpochStep(d, cfg, DesignatedRank, epoch, StepAt(cfg, stepOf, epoch), failing);
      CheckpointPhaseSucceeds(d, cfg, epoch, failing);
      RotatingRunCheckpoints(s.dir, cfg, epoch + 1, stepOf, failing);
      RotationSets(d.checkpoints, epoch, cfg.numEpochs);
      TruncatedSets(d.truncated, epoch, cfg.numEpochs);
    }
  }

  /** Rank 0 with rotation on, when the save of `checkpoint_{k}` raises and
      the earlier ones do not: the run stops there, leaving of its own
      complete checkpoints only `checkpoint_{k-1}`, no final weights, and,
      when the save died mid-write, a truncated `checkpoint_{k}`. */
  lemma {:induction false} RotatingRunCrashesAtSave(d: Dir, cfg: RunConfig, epoch: int, k: int,
                                                    stepOf: int -> int, failing: Faults)
    requires cfg.deletePreviousCheckpoint && 0 <= epoch <= k < cfg.numEpochs
    requires CheckpointFile(k) in failing
    requires forall j :: epoch <= j < k ==> CheckpointFile(j) !in failing
    requires 0 < epoch < k ==> epoch - 1 in d.checkpoints || epoch - 1 in d.truncated
    ensures var r := RunFrom(d, cfg, DesignatedRank, epoch, stepOf, failing);
      var lo := if epoch > 0 then epoch - 1 else 0;
      var kept := if epoch < k then (d.checkpoints - Span(lo, k - 1)) + {k - 1} else d.checkpoints;
      var left := if epoch < k then d.truncated - Span(lo, k) else d.truncated;
      r.outcome == Crashed(SaveFailed(CheckpointFile(k)))
      && r.dir.dirExists && r.dir.finalWritten == d.finalWritten
      && r.dir.checkpoints == (if failing[CheckpointFile(k)] == MidWrite then kept - {k} else kept)
      && r.dir.truncated == (if failing[CheckpointFile(k)] == MidWrite then left + {k} else left)
    decreases k - epoch
  {
    if epoch == k {
      SaveFailureKeepsPrevious(d, cfg, epoch, stepOf, failing);
    } else {
      var s := EpochStep(d, cfg, DesignatedRank, epoch, StepAt(cfg, stepOf, epoch), failing);
      CheckpointPhaseSucceeds(d, cfg, epoch, failing);
      RotatingRunCrashesAtSave(s.dir, cfg, epoch + 1, k, stepOf, failing);
      RotationSets(d.checkpoints, epoch, k);
      TruncatedSets(d.truncated, epoch, k);
    }
  }

  /** Rank 0 with rotation off: every checkpoint the loop writes stays. */
  lemma {:induction false} KeepingRunCheckpoints(d: Dir, cfg: RunConfig, epoch: int,
                                                 stepOf: int -> int, failing: Faults)
    requires !cfg.deletePreviousCheckpoint
    requires SavesSucceed(cfg, epoch, failing)
    ensures var r := RunFrom(d, cfg, DesignatedRank, epoch, stepOf, failing);
      r.outcome == Finished && r.dir.dirExists && r.dir.finalWritten
      && r.dir.checkpoints == d.checkpoints + Span(epoch, cfg.numEpochs)
      && r.dir.truncated == d.truncated - Span(epoch, cfg.numEpochs)
    decreases cfg.numEpochs - epoch
  {
    if epoch < cfg.numEpochs {
      var s := EpochStep(d, cfg, DesignatedRank, epoch, StepAt(cfg, stepOf, epoch), failing);
      CheckpointPhaseSucceeds(d, cfg, epoch, failing);
      KeepingRunCheckpoints(s.dir, cfg, epoch + 1, stepOf, failing);
      SpanCons(epoch, cfg.numEpochs);
      assert d.checkpoints + {epoch} + Span(epoch + 1, cfg.numEpochs) == d.checkpoints + Span(epoch, cfg.numEpochs);
      assert d.truncated - {epoch} - Span(epoch + 1, cfg.numEpochs) == d.truncated - Span(epoch, cfg.numEpochs);
    } else {
      assert Span(epoch, cfg.numEpochs) == {};
    }
  }

  /** A fresh run of `N` epochs on rank 0 into an empty directory ends with
      `{N-1}` under rotation and `{0, ..., N-1}` without, and writes the
      final weights even when `N` is zero. */
  lemma FreshRunCheckpoints(cfg: RunConfig, stepOf: int -> int, failing: Faults)
    requires SavesSucceed(cfg, 0, failing)
    ensures var r := RunFrom(Dir(false, {}, false, {}), cfg, DesignatedRank, 0, stepOf, failing);
      r.outcome == Finished && r.dir.dirExists && r.dir.finalWritten && r.dir.truncated == {}
      && r.dir.checkpoints == if cfg.numEpochs <= 0 then {}
                              else if cfg.deletePreviousCheckpoint then {cfg.numEpochs - 1}
                              else Span(0, cfg.numEpochs)
  {
    var d := Dir(false, {}, false, {});
    if cfg.deletePreviousCheckpoint {
      RotatingRunCheckpoints(d, cfg, 0, stepOf, failing);
    } else {
      KeepingRunCheckpoints(d, cfg, 0, stepOf, failing);
      if cfg.numEpochs <= 0 {
        assert Span(0, cfg.numEpochs) == {};
      }
    }
  }

  /** Resuming from an explicit checkpoint of another directory, with
      rotation on: the first iteration saves `checkpoint_{e}` and then
      fails to remove the `checkpoint_{e-1}` that is not there. */
  lemma ResumeElsewhereCrashes(d: Dir, cfg: RunConfig, epoch: int,
                               stepOf: int -> int, failing: Faults)
    requires cfg.deletePreviousCheckpoint && 0 < epoch < cfg.numEpochs
    requires epoch - 1 !in d.checkpoints && epoch - 1 !in d.truncated && CheckpointFile(epoch) !in failing
    ensures var r := RunFrom(d, cfg, DesignatedRank, epoch, stepOf, failing);
      r.outcome == Crashed(RemoveFailed(epoch - 1))
      && r.dir == Dir(true, d.checkpoints + {epoch}, d.finalWritten, d.truncated - {epoch})
  {
  }

  /** A save that raises ends the run before rotation, so the previous
      checkpoint is still there; a save that dies mid-write leaves its own
      file truncated in place of whatever it held. */
  lemma SaveFailureKeepsPrevious(d: Dir, cfg: RunConfig, epoch: int,
                                 stepOf: int -> int, failing: Faults)
    requires epoch < cfg.numEpochs && CheckpointFile(epoch) in failing
    ensures var r := RunFrom(d, cfg, DesignatedRank, epoch, stepOf, failing);
      r.outcome == Crashed(SaveFailed(CheckpointFile(epoch)))
      && r.dir == (if failing[CheckpointFile(epoch)] == BeforeOpen then d.(dirExists := true)
                   else Dir(true, d.checkpoints - {epoch}, d.finalWritten, d.truncated + {epoch}))
      && Save(CheckpointFile(epoch)) !in r.events
  {
    var s := EpochStep(d, cfg, DesignatedRank, epoch, StepAt(cfg, stepOf, epoch), failing);
    EvaluationEventsKinds(cfg.reportToWandb, StepAt(cfg, stepOf, epoch));
  }

  // ---------------------------------------------------------------------------
  // Save before remove

  /** Every `os.remove` of `checkpoint_{k}` comes after a `torch.save` of
      `checkpoint_{k+1}`. */
  ghost predicate RemovalsFollowSaves(ev: seq<Event>) {
    forall i :: 0 <= i < |ev| && ev[i].Remove? ==> Save(CheckpointFile(ev[i].epoch + 1)) in ev[..i]
  }

  lemma RemovalsFollowSavesConcat(a: seq<Event>, b: seq<Event>)
    requires RemovalsFollowSaves(a) && RemovalsFollowSaves(b)
    ensures RemovalsFollowSaves(a + b)
  {
    var ab := a + b;
    forall i | 0 <= i < |ab| && ab[i].Remove?
      ensures Save(CheckpointFile(ab[i].epoch + 1)) in ab[..i]
    {
      if i < |a| {
        assert ab[i] == a[i];
        assert ab[..i] == a[..i];
      } else {
        assert ab[i] == b[i - |a|];
        assert ab[..i] == a + b[..i - |a|];
      }
    }
  }

  lemma NoRemovals(ev: seq<Event>)
    requires forall e :: e in ev ==> !e.Remove?
    ensures RemovalsFollowSaves(ev)
  {
    assert forall i :: 0 <= i < |ev| ==> !ev[i].Remove?;
  }

  lemma AppendRemoval(a: seq<Event>, k: int)
    requires RemovalsFollowSaves(a) && Save(CheckpointFile(k + 1)) in a
    ensures RemovalsFollowSaves(a + [Remove(k)])
  {
    var ev := a + [Remove(k)];
    forall i | 0 <= i < |a| && ev[i].Remove?
      ensures Save(CheckpointFile(ev[i].epoch + 1)) in ev[..i]
    {
      assert ev[i] == a[i] && ev[..i] == a[..i];
    }
    assert ev[..|a|] == a;
  }

  /** Within the checkpoint phase, the removal of `checkpoint_{epoch-1}`
      comes after the save of `checkpoint_{epoch}`. */
  lemma CheckpointPhaseSavesFirst(d: Dir, cfg: RunConfig, epoch: int, failing: Faults)
    ensures RemovalsFollowSaves(CheckpointPhase(d, cfg, epoch, failing).events)
  {
    var made := EnsureRunDirectory(d);
    var saved := Chain(made, SaveArtifact(made.dir, cfg, CheckpointFile(epoch), failing));
    var rot := Rotate(saved.dir, cfg, epoch);
    var ev := CheckpointPhase(d, cfg, epoch, failing).events;
    assert forall e :: e in saved.events ==> !e.Remove?;
    NoRemovals(saved.events);
    if !saved.outcome.Crashed? {
      if rot.events == [] {
        assert ev == saved.events + [];
      } else {
        assert ev == saved.events + [Remove(epoch - 1)];
        assert Save(CheckpointFile(epoch)) in saved.events;
        AppendRemoval(saved.events, epoch - 1);
      }
    }
  }

  /** On every rank, for every input, the loop removes a checkpoint only
      after it has saved the next one. */
  lemma {:induction false} RunRemovesOnlyAfterSaving(d: Dir, cfg: RunConfig, rank: int, epoch: int,
                                                     stepOf: int -> int, failing: Faults)
    ensures RemovalsFollowSaves(RunFrom(d, cfg, rank, epoch, stepOf, failing).events)
    decreases cfg.numEpochs - epoch
  {
    if epoch >= cfg.numEpochs {
      FinalizeKinds(d, cfg, rank, failing);
      NoRemovals(Finalize(d, cfg, rank, failing).events);
    } else {
      var step := StepAt(cfg, stepOf, epoch);
      var s := EpochStep(d, cfg, rank, epoch, step, failing);
      var head := EpochHead(cfg, rank, epoch, step);
      var tail := EpochTail(d, cfg, rank, epoch, failing);
      EvaluationEventsKinds(cfg.reportToWandb, step);
      NoRemovals(head);
      if rank == DesignatedRank {
        CheckpointPhaseSavesFirst(d, cfg, epoch, failing);
      } else {
        NoRemovals(tail.events);
      }
      RemovalsFollowSavesConcat(head, tail.events);
      if !s.outcome.Crashed? {
        RunRemovesOnlyAfterSaving(s.dir, cfg, rank, epoch + 1, stepOf, failing);
        RemovalsFollowSavesConcat(s.events, RunFrom(s.dir, cfg, rank, epoch + 1, stepOf, failing).events);
      }
    }
  }

  // ---------------------------------------------------------------------------
  // Training mode

  /** The model's mode after one event, starting from `training` (true:
      known to be in train mode); None when an epoch is trained or a file is
      saved while the model is not known to be in train mode. The
      evaluators may leave the model in any mode. */
  function NextMode(e: Event, training: bool): Option<bool> {
    match e
    case ModelTrainMode => Some(true)
    case Evaluate(_, _) => Some(false)
    case TrainOneEpoch(_) => if training then Some(true) else None
    case Save(_) => if training then Some(true) else None
    case _ => Some(training)
  }

  function ModeAfter(ev: seq<Event>, training: bool): Option<bool> {
    if ev == [] then Some(training)
    else match NextMode(ev[0], training)
      case None => None
      case Some(m) => ModeAfter(ev[1..], m)
  }

  lemma {:induction false} ModeAfterConcat(a: seq<Event>, b: seq<Event>, m: bool)
    ensures ModeAfter(a + b, m) == match ModeAfter(a, m)
      case None => None
      case Some(m') => ModeAfter(b, m')
  {
    if a == [] {
      assert a + b == b;
    } else {
      assert (a + b)[1..] == a[1..] + b;
      match NextMode(a[0], m)
      case None =>
      case Some(m1) => ModeAfterConcat(a[1..], b, m1);
    }
  }

  /** Events that neither train nor save leave the mode defined. */
  lemma {:induction false} ModeAfterDefined(ev: seq<Event>, m: bool)
    requires forall e :: e in ev ==> !e.TrainOneEpoch? && !e.Save?
    ensures ModeAfter(ev, m).Some?
  {
    if ev != [] {
      assert ev[0] in ev;
      assert forall e :: e in ev[1..] ==> e in ev;
      ModeAfterDefined(ev[1..], NextMode(ev[0], m).value);
    }
  }

  /** Events that are fine in train mode keep it. */
  lemma {:induction false} ModeAfterStable(ev: seq<Event>)
    requires forall e :: e in ev ==> NextMode(e, true) == Some(true)
    ensures ModeAfter(ev, true) == Some(true)
  {
    if ev != [] {
      assert ev[0] in ev;
      assert forall e :: e in ev[1..] ==> e in ev;
      ModeAfterStable(ev[1..]);
    }
  }

  /** The evaluation phase, from whatever mode, ends in train mode. */
  lemma EvaluationRestoresTrainMode(report: bool, step: int, m: bool)
    ensures ModeAfter(EvaluationEvents(report, step), m) == Some(true)
  {
    var x := [Evaluate(Coco, step)] + LogIf(report, step, false)
      + [Evaluate(OkVqa, step)] + LogIf(report, step, false)
      + [Evaluate(VqaV2, step)] + LogIf(report, step, true);
    assert EvaluationEvents(report, step) == x + [ModelTrainMode];
    ModeAfterDefined(x, m);
    ModeAfterConcat(x, [ModelTrainMode], m);
  }

  lemma EpochStepKeepsTrainMode(d: Dir, cfg: RunConfig, rank: int, epoch: int, step: int,
                                failing: Faults)
    ensures ModeAfter(EpochStep(d, cfg, rank, epoch, step, failing).events, true) == Some(true)
  {
    var eval := if cfg.doEval && rank == DesignatedRank then EvaluationEvents(cfg.reportToWandb, step) else [];
    var tail := EpochTail(d, cfg, rank, epoch, failing);
    ModeAfterStable([SetEpoch(epoch), TrainOneEpoch(epoch)]);
    ModeAfterConcat([SetEpoch(epoch), TrainOneEpoch(epoch)], eval, true);
    EvaluationRestoresTrainMode(cfg.reportToWandb, step, true);
    TailKinds(d, cfg, rank, epoch, failing);
    ModeAfterStable(tail.events);
    ModeAfterConcat(EpochHead(cfg, rank, epoch, step), tail.events, true);
  }

  /** Every epoch is trained, and every file saved, with the model in train
      mode; the loop leaves it in train mode. */
  lemma {:induction false} RunKeepsTrainMode(d: Dir, cfg: RunConfig, rank: int, epoch: int,
                                             stepOf: int -> int, failing: Faults)
    ensures ModeAfter(RunFrom(d, cfg, rank, epoch, stepOf, failing).events, true) == Some(true)
    decreases cfg.numEpochs - epoch
  {
    if epoch >= cfg.numEpochs {
      FinalizeKinds(d, cfg, rank, failing);
      ModeAfterStable(Finalize(d, cfg, rank, failing).events);
    } else {
      var s := EpochStep(d, cfg, rank, epoch, StepAt(cfg, stepOf, epoch), failing);
      EpochStepKeepsTrainMode(d, cfg, rank, epoch, StepAt(cfg, stepOf, epoch), failing);
      if !s.outcome.Crashed? {
        RunKeepsTrainMode(s.dir, cfg, rank, epoch + 1, stepOf, failing);
        ModeAfterConcat(s.events, RunFrom(s.dir, cfg, rank, epoch + 1, stepOf, failing).events, true);
      }
    }
  }

  /** `ddp_model.train()` before the loop makes the whole loop well-moded
      whatever mode the model was built in. */
  lemma TrainingLoopWellModed(d: Dir, cfg: RunConfig, rank: int, start: int,
                              stepOf: int -> int, failing: Faults, m: bool)
    ensures ModeAfter(TrainingLoop(d, cfg, rank, start, stepOf, failing).events, m) == Some(true)
  {
    RunKeepsTrainMode(d, cfg, rank, start, stepOf, failing);
    ModeAfterConcat([ModelTrainMode], RunFrom(d, cfg, rank, start, stepOf, failing).events, m);
  }

  // ---------------------------------------------------------------------------
  // Telemetry

  /** Per epoch, three records with the step read before the first
      evaluation, committing only the last. */
  function ExpectedLogs(epoch: int, numEpochs: int, stepOf: int -> int): seq<(int, bool)>
    decreases numEpochs - epoch
  {
    if epoch >= numEpochs then []
    else [(stepOf(epoch), false), (stepOf(epoch), false), (stepOf(epoch), true)]
         + ExpectedLogs(epoch + 1, numEpochs, stepOf)
  }

  /** Rank 0 with evaluation and telemetry on logs three records per
      trained epoch, all with the step read for that epoch and committing
      only the third; a failing run has logged a prefix of that. */
  lemma {:induction false} TelemetryPerEpoch(d: Dir, cfg: RunConfig, epoch: int,
                                             stepOf: int -> int, failing: Faults)
    requires cfg.doEval && cfg.reportToWandb
    ensures var r := RunFrom(d, cfg, DesignatedRank, epoch, stepOf, failing);
      Logs(r.events) <= ExpectedLogs(epoch, cfg.numEpochs, stepOf)
      && (r.outcome == Finished ==> Logs(r.events) == ExpectedLogs(epoch, cfg.numEpochs, stepOf))
    decreases cfg.numEpochs - epoch
  {
    var r := RunFrom(d, cfg, DesignatedRank, epoch, stepOf, failing);
    if epoch >= cfg.numEpochs {
      FinalizeKinds(d, cfg, DesignatedRank, failing);
      FlatMapOfNothing(r.events, LogOf);
    } else {
      var step := stepOf(epoch);
      var s := EpochStep(d, cfg, DesignatedRank, epoch, step, failing);
      StepLogs(d, cfg, DesignatedRank, epoch, step, failing);
      if !s.outcome.Crashed? {
        var rest := RunFrom(s.dir, cfg, DesignatedRank, epoch + 1, stepOf, failing);
        TelemetryPerEpoch(s.dir, cfg, epoch + 1, stepOf, failing);
        FlatMapConcat(s.events, rest.events, LogOf);
        PrefixAfter(Logs(s.events), Logs(rest.events), ExpectedLogs(epoch + 1, cfg.numEpochs, stepOf));
      } else {
        PrefixAfter(Logs(s.events), [], ExpectedLogs(epoch + 1, cfg.numEpochs, stepOf));
      }
    }
  }

  /** Without telemetry, without evaluation, or off rank 0, nothing is
      logged. */
  lemma {:induction false} NoTelemetry(d: Dir, cfg: RunConfig, rank: int, epoch: int,
                                       stepOf: int -> int, failing: Faults)
    requires !cfg.reportToWandb || !cfg.doEval || rank != DesignatedRank
    ensures Logs(RunFrom(d, cfg, rank, epoch, stepOf, failing).events) == []
    decreases cfg.numEpochs - epoch
  {
    var r := RunFrom(d, cfg, rank, epoch, stepOf, failing);
    if epoch >= cfg.numEpochs {
      FinalizeKinds(d, cfg, rank, failing);
      FlatMapOfNothing(r.events, LogOf);
    } else {
      var step := StepAt(cfg, stepOf, epoch);
      var s := EpochStep(d, cfg, rank, epoch, step, failing);
      StepLogs(d, cfg, rank, epoch, step, failing);
      if !s.outcome.Crashed? {
        NoTelemetry(s.dir, cfg, rank, epoch + 1, stepOf, failing);
        FlatMapConcat(s.events, RunFrom(s.dir, cfg, rank, epoch + 1, stepOf, failing).events, LogOf);
      }
    }
  }
}

/** Checkpoint discovery and the resume point: which file a run resumes from
    and at which epoch its loop starts. */
module Checkpoints {
  import opened Common
  import opened Strings

  const CheckpointPrefix := "checkpoint_"
  const CheckpointSuffix := ".pt"
  const FinalWeightsName := "final_weights.pt"

  /** The file name `checkpoint_{epoch}.pt`, which the discovery glob matches. */
  function CheckpointFileName(epoch: int): (r: string)
    ensures MatchesCheckpointGlob(r)
  {
    CheckpointPrefix + IntToDecimal(epoch) + CheckpointSuffix
  }

  /** `f"{run_name}/{file_name}"`. */
  function PathIn(runName: string, fileName: string): string {
    runName + "/" + fileName
  }

  /** The file name matches the glob `checkpoint_*.pt`. */
  predicate MatchesCheckpointGlob(fileName: string) {
    |fileName| >= |CheckpointPrefix| + |CheckpointSuffix|
    && fileName[..|CheckpointPrefix|] == CheckpointPrefix
    && fileName[|fileName| - |CheckpointSuffix|..] == CheckpointSuffix
  }

  /** `glob.glob(f"{run_name}/checkpoint_*.pt")`: the paths of the matching
      entries of the run directory, in the order the directory lists them. */
  function Glob(runName: string, listing: seq<string>): (r: seq<string>)
    ensures |r| <= |listing|
    ensures forall p :: p in r <==> exists f :: f in listing && MatchesCheckpointGlob(f) && p == PathIn(runName, f)
    decreases |listing|
  {
    if |listing| == 0 then []
    else
      var f := listing[|listing| - 1];
      Glob(runName, listing[..|listing| - 1]) + (if MatchesCheckpointGlob(f) then [PathIn(runName, f)] else [])
  }

  /** The sort key of a checkpoint path: `int(path.split("_")[-1].split(".")[0])`. */
  function EpochKey(path: string): Option<int> {
    ParseInt(BeforeFirst(AfterLast(path, '_'), '.'))
  }

  /** Why discovery or loading stops the script. */
  datatype ResumeError =
    | CheckpointNameNotInteger(path: string)  // `int()` raises ValueError inside `sorted`
    | CheckpointUnreadable(path: string)      // `torch.load` cannot read the file

  /** The keys of all paths, or the first path whose key does not parse:
      `sorted` evaluates the key of every element, in order, before sorting. */
  function Keys(paths: seq<string>): (r: Result<seq<int>, ResumeError>)
    ensures r.Ok? ==> |r.value| == |paths|
    ensures r.Ok? ==> forall i :: 0 <= i < |paths| ==> EpochKey(paths[i]) == Some(r.value[i])
    ensures r.Err? ==> r.error.CheckpointNameNotInteger? && r.error.path in paths && EpochKey(r.error.path).None?
    ensures r.Err? <==> exists p :: p in paths && EpochKey(p).None?
    decreases |paths|
  {
    if |paths| == 0 then Ok([])
    else
      assert paths == [paths[0]] + paths[1..];
      match EpochKey(paths[0])
      case None => Err(CheckpointNameNotInteger(paths[0]))
      case Some(k) =>
        match Keys(paths[1..])
        case Err(e) => Err(e)
        case Ok(ks) => Ok([k] + ks)
  }

  /** The index `sorted(..., key=...)[-1]` picks: a largest key, and among
      equal largest keys the one listed last, since `sorted` is stable. */
  function LatestIndex(keys: seq<int>): (k: nat)
    requires |keys| > 0
    ensures k < |keys|
    ensures forall j :: 0 <= j < |keys| ==> keys[j] <= keys[k]
    ensures forall j :: k < j < |keys| ==> keys[j] < keys[k]
    decreases |keys|
  {
    if |keys| == 1 then 0
    else
      var k := LatestIndex(keys[..|keys| - 1]);
      if keys[|keys| - 1] >= keys[k] then |keys| - 1 else k
  }

  /** Checkpoint discovery. The run directory is searched only when it exists
      and no checkpoint path was given; no match leaves the path unset, and
      a match whose number does not parse stops the script. */
  function Discover(runName: string, dirExists: bool, explicit: Option<string>, listing: seq<string>)
    : (r: Result<Option<string>, ResumeError>)
    ensures !dirExists || explicit.Some? ==> r == Ok(explicit)
    ensures dirExists && explicit.None? && |Glob(runName, listing)| == 0 ==> r == Ok(None)
    ensures dirExists && explicit.None? && r.Ok? ==> (r.value.Some? <==> |Glob(runName, listing)| > 0)
    ensures r.Err? <==> dirExists && explicit.None? && exists p :: p in Glob(runName, listing) && EpochKey(p).None?
    ensures r.Ok? && r.value.Some? && explicit.None? ==>
      var matches := Glob(runName, listing);
      var chosen := r.value.value;
      chosen in matches && EpochKey(chosen).Some?
      && forall p :: p in matches ==> EpochKey(p).Some? && EpochKey(p).value <= EpochKey(chosen).value
  {
    if dirExists && explicit.None? then
      var matches := Glob(runName, listing);
      if |matches| == 0 then Ok(None)
      else
        match Keys(matches)
        case Err(e) => Err(e)
        case Ok(keys) =>
          var k := LatestIndex(keys);
          assert EpochKey(matches[k]) == Some(keys[k]);
          assert forall p :: p in matches ==> EpochKey(p).Some? && EpochKey(p).value <= keys[k] by {
            forall p | p in matches
              ensures EpochKey(p).Some? && EpochKey(p).value <= keys[k]
            {
              var j :| 0 <= j < |matches| && matches[j] == p;
              assert EpochKey(p) == Some(keys[j]);
            }
          }
          Ok(Some(matches[k]))
    else Ok(explicit)
  }

  /** The part of a checkpoint record the orchestration reads. */
  datatype Checkpoint = Checkpoint(epoch: int)

  /** `torch.load(path)`: `store` holds the readable checkpoint files. */
  function Load(path: Option<string>, store: map<string, Checkpoint>): (r: Result<Option<Checkpoint>, ResumeError>)
    ensures path.None? ==> r == Ok(None)
    ensures path.Some? && path.value in store ==> r == Ok(Some(store[path.value]))
    ensures path.Some? && path.value !in store ==> r == Err(CheckpointUnreadable(path.value))
  {
    match path
    case None => Ok(None)
    case Some(p) => if p in store then Ok(Some(store[p])) else Err(CheckpointUnreadable(p))
  }

  /** `resume_from_epoch`: the epoch after the loaded one, or 0. */
  function ResumeEpoch(loaded: Option<Checkpoint>): (e: int)
    ensures loaded.None? ==> e == 0
    ensures loaded.Some? ==> e - 1 == loaded.value.epoch
  {
    match loaded
    case None => 0
    case Some(c) => c.epoch + 1
  }

  /** Where the run resumes: the checkpoint path, if any, and the first epoch. */
  datatype ResumePoint = ResumePoint(checkpoint: Option<string>, epoch: int)

  /** Lines 172-188: discovery, `torch.load` of the chosen path, and the
      resume epoch. It raises exactly when discovery raises or the chosen
      file cannot be read; otherwise it resumes from the chosen path. */
  function ResolveResume(runName: string, dirExists: bool, explicit: Option<string>,
                         listing: seq<string>, store: map<string, Checkpoint>): (r: Result<ResumePoint, ResumeError>)
    ensures var found := Discover(runName, dirExists, explicit, listing);
      r.Err? <==> found.Err? || (found.value.Some? && found.value.value !in store)
    ensures r.Ok? ==> r.value.checkpoint == Discover(runName, dirExists, explicit, listing).value
    ensures r.Ok? ==> r.value.epoch == if r.value.checkpoint.None? then 0 else store[r.value.checkpoint.value].epoch + 1
  {
    match Discover(runName, dirExists, explicit, listing)
    case Err(e) => Err(e)
    case Ok(path) =>
      match Load(path, store)
      case Err(e) => Err(e)
      case Ok(loaded) => Ok(ResumePoint(path, ResumeEpoch(loaded)))
  }

  // ---------------------------------------------------------------------------
  // Properties

  /** The key of a path written by the loop is the epoch it was written for,
      whatever the run name. */
  lemma EpochKeyOfCheckpointPath(runName: string, epoch: int)
    ensures EpochKey(PathIn(runName, CheckpointFileName(epoch))) == Some(epoch)
  {
    var d := IntToDecimal(epoch);
    var path := PathIn(runName, CheckpointFileName(epoch));
    IntToDecimalHasNo(epoch, '_');
    IntToDecimalHasNo(epoch, '.');
    assert path == (runName + "/checkpoint") + ['_'] + (d + ".pt");
    AfterLastOfSeparated(runName + "/checkpoint", '_', d + ".pt");
    assert d + ".pt" == d + ['.'] + "pt";
    BeforeFirstOfSeparated(d, '.', "pt");
    ParseIntOfIntToDecimal(epoch);
  }

  lemma FinalWeightsDoesNotMatch()
    ensures !MatchesCheckpointGlob(FinalWeightsName)
  {
    assert FinalWeightsName[0] != CheckpointPrefix[0];
  }

  /** Distinct epochs are saved under distinct names, so a directory holds
      at most one checkpoint per epoch. */
  lemma CheckpointFileNameInjective(e1: int, e2: int)
    requires CheckpointFileName(e1) == CheckpointFileName(e2)
    ensures e1 == e2
  {
    EpochKeyOfCheckpointPath("", e1);
    EpochKeyOfCheckpointPath("", e2);
  }

  /** The run directory as the epoch loop leaves it: a checkpoint file per
      epoch in `epochs`, and possibly the final weights. */
  ghost predicate ListsCheckpoints(listing: seq<string>, epochs: set<int>) {
    (forall f :: f in listing ==> f == FinalWeightsName || exists e :: e in epochs && f == CheckpointFileName(e))
    && (forall e :: e in epochs ==> CheckpointFileName(e) in listing)
  }

  /** In a directory the loop wrote, the glob matches exactly the
      checkpoint paths, each keyed by its own epoch. */
  lemma GlobOfCheckpointListing(runName: string, listing: seq<string>, epochs: set<int>)
    requires ListsCheckpoints(listing, epochs)
    ensures forall e :: e in epochs ==> PathIn(runName, CheckpointFileName(e)) in Glob(runName, listing)
    ensures forall p :: p in Glob(runName, listing) ==>
      exists e :: e in epochs && p == PathIn(runName, CheckpointFileName(e)) && EpochKey(p) == Some(e)
  {
    var matches := Glob(runName, listing);
    forall e | e in epochs
      ensures PathIn(runName, CheckpointFileName(e)) in matches
    {
    }
    FinalWeightsDoesNotMatch();
    forall p | p in matches
      ensures exists e :: e in epochs && p == PathIn(runName, CheckpointFileName(e)) && EpochKey(p) == Some(e)
    {
      var f :| f in listing && MatchesCheckpointGlob(f) && p == PathIn(runName, f);
      var e :| e in epochs && f == CheckpointFileName(e);
      EpochKeyOfCheckpointPath(runName, e);
    }
  }

  /** Discovery in a non-empty directory the loop wrote finds a checkpoint
      and does not raise. */
  lemma DiscoverFindsCheckpoint(runName: string, listing: seq<string>, epochs: set<int>, some: int)
    requires ListsCheckpoints(listing, epochs) && some in epochs
    ensures var r := Discover(runName, true, None, listing);
      r.Ok? && r.value.Some? && r.value.value in Glob(runName, listing)
  {
    GlobOfCheckpointListing(runName, listing, epochs);
    assert PathIn(runName, CheckpointFileName(some)) in Glob(runName, listing);
    assert !exists p :: p in Glob(runName, listing) && EpochKey(p).None?;
  }

  /** Discovery in a directory the loop wrote resumes from the checkpoint of
      the largest epoch, compared as numbers: `checkpoint_10.pt` beats
      `checkpoint_2.pt` and `checkpoint_5.pt`. */
  lemma DiscoverLatestOfDirectory(runName: string, listing: seq<string>, epochs: set<int>, latest: int)
    requires ListsCheckpoints(listing, epochs)
    requires latest in epochs && forall e :: e in epochs ==> e <= latest
    ensures Discover(runName, true, None, listing) == Ok(Some(PathIn(runName, CheckpointFileName(latest))))
  {
    DiscoverFindsCheckpoint(runName, listing, epochs, latest);
    var r := Discover(runName, true, None, listing);
    ChosenIsLatest(runName, listing, epochs, latest, r.value.value);
  }

  /** The path discovery chooses in such a directory is the latest one. */
  lemma ChosenIsLatest(runName: string, listing: seq<string>, epochs: set<int>, latest: int, chosen: string)
    requires ListsCheckpoints(listing, epochs)
    requires latest in epochs && forall e :: e in epochs ==> e <= latest
    requires chosen in Glob(runName, listing) && EpochKey(chosen).Some?
    requires forall p :: p in Glob(runName, listing) ==> EpochKey(p).Some? && EpochKey(p).value <= EpochKey(chosen).value
    ensures chosen == PathIn(runName, CheckpointFileName(latest))
  {
    GlobOfCheckpointListing(runName, listing, epochs);
    EpochKeyOfCheckpointPath(runName, latest);
    var e :| e in epochs && chosen == PathIn(runName, CheckpointFileName(e)) && EpochKey(chosen) == Some(e);
    assert EpochKey(PathIn(runName, CheckpointFileName(latest))).value <= e;
    assert e <= latest;
    assert e == latest;
  }

  lemma CheckpointTenName()
    ensures CheckpointFileName(10) == "checkpoint_10.pt"
  {
    assert NatToDecimal(1) == "1" && DigitChar(0) == '0';
  }

  /** Three checkpoint files: of `checkpoint_2.pt`, `checkpoint_5.pt` and
      `checkpoint_10.pt`, discovery picks `checkpoint_10.pt`, which a
      comparison of the names as text would have ranked below the other two. */
  lemma DiscoverExample(runName: string)
    ensures Discover(runName, true, None, [CheckpointFileName(2), CheckpointFileName(5), CheckpointFileName(10)])
      == Ok(Some(PathIn(runName, "checkpoint_10.pt")))
  {
    var listing := [CheckpointFileName(2), CheckpointFileName(5), CheckpointFileName(10)];
    var epochs := {2, 5, 10};
    forall f | f in listing
      ensures exists e :: e in epochs && f == CheckpointFileName(e)
    {
      if f == listing[0] { assert 2 in epochs; }
      else if f == listing[1] { assert 5 in epochs; }
      else { assert 10 in epochs; }
    }
    DiscoverLatestOfDirectory(runName, listing, epochs, 10);
    CheckpointTenName();
  }

  /** A discovered file that loads sets the resume point to the epoch after
      the one it holds. */
  lemma ResolveDiscovered(runName: string, dirExists: bool, explicit: Option<string>,
                          listing: seq<string>, store: map<string, Checkpoint>, path: string, epoch: int)
    requires Discover(runName, dirExists, explicit, listing) == Ok(Some(path))
    requires path in store && store[path].epoch == epoch
    ensures ResolveResume(runName, dirExists, explicit, listing, store)
      == Ok(ResumePoint(Some(path), epoch + 1))
  {
  }

  /** A discovered file that does not load stops the script. */
  lemma ResolveUnreadable(runName: string, dirExists: bool, explicit: Option<string>,
                          listing: seq<string>, store: map<string, Checkpoint>, path: string)
    requires Discover(runName, dirExists, explicit, listing) == Ok(Some(path))
    requires path !in store
    ensures ResolveResume(runName, dirExists, explicit, listing, store) == Err(CheckpointUnreadable(path))
  {
  }

  /** Resuming from the latest checkpoint of a directory the loop wrote
      restarts at the epoch after it, provided the file holds that epoch. */
  lemma ResumeAfterLatest(runName: string, listing: seq<string>, epochs: set<int>, latest: int,
                          store: map<string, Checkpoint>)
    requires ListsCheckpoints(listing, epochs)
    requires latest in epochs && forall e :: e in epochs ==> e <= latest
    requires PathIn(runName, CheckpointFileName(latest)) in store
    requires store[PathIn(runName, CheckpointFileName(latest))].epoch == latest
    ensures ResolveResume(runName, true, None, listing, store)
      == Ok(ResumePoint(Some(PathIn(runName, CheckpointFileName(latest))), latest + 1))
  {
    DiscoverLatestOfDirectory(runName, listing, epochs, latest);
    ResolveDiscovered(runName, true, None, listing, store, PathIn(runName, CheckpointFileName(latest)), latest);
  }

  /** Without a checkpoint to load, the run starts at epoch 0. */
  lemma FreshStart(runName: string, dirExists: bool, listing: seq<string>, store: map<string, Checkpoint>)
    requires !dirExists || |Glob(runName, listing)| == 0
    ensures ResolveResume(runName, dirExists, None, listing, store) == Ok(ResumePoint(None, 0))
  {
  }
}

/** `random_seed` and the device choice of the training script. */
module Seeding {
  import opened Common

  /** The default `rank=0` of `random_seed`, which the first call relies on. */
  const DefaultRank := 0

  /** The seeds `torch.manual_seed` accepts (it raises `RuntimeError`
      outside them) and those `np.random.seed` accepts (it raises
      `ValueError` outside 32-bit unsigned integers). Python's
      `random.seed` accepts every integer. */
  const TorchSeedMin := -0x8000_0000_0000_0000
  const TorchSeedMax := 0xffff_ffff_ffff_ffff
  const NumpySeedLimit := 0x1_0000_0000

  predicate TorchAccepts(s: int) {
    TorchSeedMin <= s <= TorchSeedMax
  }

  predicate NumpyAccepts(s: int) {
    0 <= s < NumpySeedLimit
  }

  /** The seed given to every generator by `random_seed(seed, rank)`. */
  function EffectiveSeed(seed: int, rank: int): int {
    seed + rank
  }

  /** The seeds the script sets, in call order: before the model is built,
      with the default rank, and after it, with this process's rank. */
  function SeedSchedule(seed: int, rank: int): (r: (int, int))
    ensures r.0 == seed && r.1 - r.0 == rank
  {
    (EffectiveSeed(seed, DefaultRank), EffectiveSeed(seed, rank))
  }

  /** Every rank builds its model from the same seed. */
  lemma PreModelSeedSharedByRanks(seed: int, rank1: int, rank2: int)
    ensures SeedSchedule(seed, rank1).0 == SeedSchedule(seed, rank2).0
  {
  }

  /** `random_seed(seed, rank)` returns rather than raises: every seed numpy
      accepts torch accepts too, so numpy's range decides. */
  predicate SeedAccepted(seed: int, rank: int) {
    NumpyAccepts(EffectiveSeed(seed, rank))
  }

  /** Both calls of the script return: the one before the model is built
      and the one with this process's rank. */
  predicate SeedsAccepted(seed: int, rank: int) {
    SeedAccepted(seed, DefaultRank) && SeedAccepted(seed, rank)
  }

  /** Every rank of a world of `worldSize` processes gets past seeding
      exactly when the configured seed and the largest rank's seed are both
      32-bit unsigned integers. */
  lemma SeedsAcceptedByWorld(seed: int, worldSize: int)
    requires worldSize > 0
    ensures (forall rank :: 0 <= rank < worldSize ==> SeedsAccepted(seed, rank))
        <==> 0 <= seed && seed + worldSize <= NumpySeedLimit
  {
    if forall rank :: 0 <= rank < worldSize ==> SeedsAccepted(seed, rank) {
      assert SeedsAccepted(seed, worldSize - 1);
    }
  }

  /** `--seed 4294967295` seeds rank 0 and stops rank 1 at its second call. */
  lemma LargestSeedStopsRankOne()
    ensures SeedsAccepted(0xffff_ffff, 0) && !SeedsAccepted(0xffff_ffff, 1)
  {
  }

  /** Distinct ranks draw from distinct seeds once the model exists. */
  lemma PostModelSeedDistinctPerRank(seed: int, rank1: int, rank2: int)
    ensures SeedSchedule(seed, rank1).1 == SeedSchedule(seed, rank2).1 <==> rank1 == rank2
  {
  }

  /** The three process-wide generators `random_seed` reseeds: torch's,
      numpy's and Python's `random`. Each field is the seed it was last given. */
  class RandomSources {
    var torchSeed: int
    var numpySeed: int
    var pythonSeed: int

    constructor (torchSeed: int, numpySeed: int, pythonSeed: int)
      ensures this.torchSeed == torchSeed && this.numpySeed == numpySeed
      ensures this.pythonSeed == pythonSeed
    {
      this.torchSeed := torchSeed;
      this.numpySeed := numpySeed;
      this.pythonSeed := pythonSeed;
    }

    /** `random_seed(seed, rank)`: torch, then numpy, then Python's
        generator, stopping at the first that raises; `ok` is false when one
        raised. A generator that was reached and accepted the seed holds it;
        the others keep the seed they had. */
    method RandomSeed(seed: int, rank: int) returns (ok: bool)
      modifies this
      ensures ok <==> SeedAccepted(seed, rank)
      ensures torchSeed == if TorchAccepts(EffectiveSeed(seed, rank)) then EffectiveSeed(seed, rank) else old(torchSeed)
      ensures numpySeed == if ok then EffectiveSeed(seed, rank) else old(numpySeed)
      ensures pythonSeed == if ok then EffectiveSeed(seed, rank) else old(pythonSeed)
    {
      var s := seed + rank;
      if !(TorchSeedMin <= s <= TorchSeedMax) {
        return false;
      }
      torchSeed := s;
      if !(0 <= s < NumpySeedLimit) {
        return false;
      }
      numpySeed := s;
      pythonSeed := s;
      ok := true;
    }
  }

  /** `rank % torch.cuda.device_count()`. Python's `%` with a positive
      divisor agrees with Dafny's; a zero device count raises
      `ZeroDivisionError`, modelled as `None`. */
  function DeviceIndex(rank: int, deviceCount: nat): (r: Option<int>)
    ensures r.None? <==> deviceCount == 0
    ensures r.Some? ==> 0 <= r.value < deviceCount
    ensures r.Some? ==> rank == (rank / deviceCount) * deviceCount + r.value
  {
    if deviceCount == 0 then None else Some(rank % deviceCount)
  }

  /** On a node with at least as many devices as the ranks placed on it,
      rank `r` gets device `r`. */
  lemma DeviceIndexOfSmallRank(rank: int, deviceCount: nat)
    requires 0 <= rank < deviceCount
    ensures DeviceIndex(rank, deviceCount) == Some(rank)
  {
  }
}

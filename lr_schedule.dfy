/**
 * `learning_rate(init, epoch)` of the wide-ResNet experiment: the initial rate multiplied by 0.2
 * once for every milestone epoch (60, 120 and 160) that the epoch has passed.
 */
module LrSchedule {
  import opened Sums

  /** The epochs after which the rate drops, in increasing order. */
  const Milestones: seq<int> := [60, 120, 160]

  /** The factor applied per milestone passed. */
  const DropFactor := 0.2

  /** The `if`/`elif` chain choosing `optim_factor`: the highest milestone passed decides. */
  function OptimFactor(epoch: int): (k: nat)
    ensures k <= |Milestones|
  {
    if epoch > 160 then 3
    else if epoch > 120 then 2
    else if epoch > 60 then 1
    else 0
  }

  /** How many of `ms` lie strictly below `epoch`. */
  function CountBelow(ms: seq<int>, epoch: int): (c: nat)
    ensures c <= |ms|
  {
    if ms == [] then 0 else (if ms[0] < epoch then 1 else 0) + CountBelow(ms[1..], epoch)
  }

  function LearningRate(init: real, epoch: int): real
  {
    init * Pow(DropFactor, OptimFactor(epoch))
  }

  /** The chain counts exactly the milestones strictly below the epoch. */
  lemma OptimFactorCountsMilestones(epoch: int)
    ensures OptimFactor(epoch) == CountBelow(Milestones, epoch)
  {
    var ms := Milestones;
    assert ms[1..] == [120, 160] && ms[1..][1..] == [160] && ms[1..][1..][1..] == [];
    assert CountBelow([160], epoch) == (if 160 < epoch then 1 else 0) + CountBelow([], epoch);
    assert CountBelow([120, 160], epoch) == (if 120 < epoch then 1 else 0) + CountBelow([160], epoch);
    assert CountBelow(ms, epoch) == (if 60 < epoch then 1 else 0) + CountBelow([120, 160], epoch);
  }

  /** The four stages of the schedule. */
  lemma LearningRateStages(init: real, epoch: int)
    ensures epoch <= 60 ==> LearningRate(init, epoch) == init
    ensures 60 < epoch <= 120 ==> LearningRate(init, epoch) == init * 0.2
    ensures 120 < epoch <= 160 ==> LearningRate(init, epoch) == init * 0.04
    ensures 160 < epoch ==> LearningRate(init, epoch) == init * 0.008
  {
    assert Pow(DropFactor, 0) == 1.0;
    assert Pow(DropFactor, 1) == 0.2;
    assert Pow(DropFactor, 2) == 0.04;
    assert Pow(DropFactor, 3) == 0.008;
  }

  /** Powers of a factor in [0, 1] lie in [0, 1] and shrink as the exponent grows. */
  lemma {:induction false} PowShrinks(x: real, p: nat, q: nat)
    requires 0.0 <= x <= 1.0 && p <= q
    ensures 0.0 <= Pow(x, q) <= Pow(x, p) <= 1.0
    decreases q
  {
    if q == 0 {
    } else if p == q {
      PowShrinks(x, p - 1, q - 1);
    } else {
      PowShrinks(x, p, q - 1);
      assert Pow(x, q) == x * Pow(x, q - 1);
      assert x * Pow(x, q - 1) <= Pow(x, q - 1) by {
        assert (1.0 - x) * Pow(x, q - 1) >= 0.0;
      }
    }
  }

  /** More epochs never pass fewer milestones. */
  lemma OptimFactorMonotone(epoch: int, later: int)
    requires epoch <= later
    ensures OptimFactor(epoch) <= OptimFactor(later)
  {
  }

  /** For a non-negative initial rate the rate is non-negative, at most `init` and never rises. */
  lemma LearningRateNonIncreasing(init: real, epoch: int, later: int)
    requires init >= 0.0 && epoch <= later
    ensures 0.0 <= LearningRate(init, later) <= LearningRate(init, epoch) <= init
  {
    var k, l := OptimFactor(epoch), OptimFactor(later);
    OptimFactorMonotone(epoch, later);
    PowShrinks(DropFactor, 0, k);
    PowShrinks(DropFactor, k, l);
    var pk, pl := Pow(DropFactor, k), Pow(DropFactor, l);
    assert init * pl <= init * pk by {
      assert init * (pk - pl) >= 0.0;
    }
    assert init * pk <= init by {
      assert init * (1.0 - pk) >= 0.0;
    }
    assert init * pl >= 0.0;
  }
}

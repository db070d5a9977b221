/**
 * The bandwidth allocator of `update_bandwidth_limits`: a soft limit derived from the
 * measured congestion send speed and the hard limit, split across the windows by weight.
 */
module Bandwidth {
  import opened Common
  import opened Arith

  /** A measured congestion send speed above 20*1024*1024 ("20Mbps" in the source's words) is taken as "no constraint". */
  const CONGESTION_SPEED_CEILING: int := 20 * 1024 * 1024

  /**
   * The soft limit: the measured speed (when detection is on and it is not above the
   * ceiling, 0 otherwise), tightened by a positive hard limit through `min`.
   */
  function SoftLimit(detection: bool, avgSpeed: int, hardLimit: int): (r: int)
    ensures hardLimit > 0 ==> r <= hardLimit
    ensures hardLimit <= 0 ==> r <= CONGESTION_SPEED_CEILING
    ensures !detection || avgSpeed > CONGESTION_SPEED_CEILING ==> r == 0
    ensures detection && avgSpeed <= CONGESTION_SPEED_CEILING && (hardLimit <= 0 || avgSpeed <= hardLimit) ==> r == avgSpeed
    ensures detection && avgSpeed <= CONGESTION_SPEED_CEILING && hardLimit > 0 && avgSpeed > hardLimit ==> r == hardLimit
  {
    var detected := if detection && avgSpeed <= CONGESTION_SPEED_CEILING then avgSpeed else 0;
    if hardLimit > 0 then Min(hardLimit, detected) else detected
  }

  /** A suspended window weighs nothing; any other its pixel area plus its recently damaged pixels. */
  function WindowWeight(suspended: bool, width: nat, height: nat, damagePixels: nat): (w: nat)
    ensures suspended ==> w == 0
    ensures !suspended ==> w >= width * height && w >= damagePixels
  {
    if suspended then 0 else width * height + damagePixels
  }

  /** `max(1, soft * weight // total)`: Dafny's `/` agrees with Python's `//` for a positive divisor. */
  function Share(soft: int, weight: int, total: int): (r: int)
    requires total > 0
    ensures r >= 1
    ensures soft >= 0 && 0 <= weight <= total && soft >= 1 ==> r <= soft
    ensures weight == 0 ==> r == 1
    ensures r == Max(1, FloorShare(soft, weight, total))
  {
    ShareWithinSoft(soft, weight, total);
    Max(1, FloorShare(soft, weight, total))
  }

  function FloorShare(soft: int, weight: int, total: int): int
    requires total > 0
  {
    soft * weight / total
  }

  lemma ShareWithinSoft(soft: int, weight: int, total: int)
    requires total > 0
    ensures soft >= 0 && 0 <= weight <= total ==> 0 <= FloorShare(soft, weight, total) <= soft
  {
    if soft >= 0 && 0 <= weight <= total {
      MulMono(soft, weight, total);
      MulMono(soft, 0, weight);
      DivMonotone(soft * weight, soft * total, total);
      MulDiv(soft, total);
      assert soft * total == total * soft;
    }
  }

  function Sum(ws: seq<int>): int
  {
    if ws == [] then 0 else ws[0] + Sum(ws[1..])
  }

  /** Adding one more weight at the end adds it to the sum. */
  lemma {:induction false} SumSnoc(ws: seq<int>, w: int)
    ensures Sum(ws + [w]) == Sum(ws) + w
  {
    if ws == [] {
      assert [w][1..] == [];
    } else {
      assert (ws + [w])[1..] == ws[1..] + [w];
      SumSnoc(ws[1..], w);
    }
  }

  /** The limits written to the windows, in window order. */
  function Shares(soft: int, weights: seq<int>, total: int): (r: seq<int>)
    requires total > 0
    ensures |r| == |weights|
    ensures forall k :: 0 <= k < |weights| ==> r[k] == Share(soft, weights[k], total)
  {
    if weights == [] then [] else [Share(soft, weights[0], total)] + Shares(soft, weights[1..], total)
  }

  function FloorShares(soft: int, weights: seq<int>, total: int): seq<int>
    requires total > 0
  {
    if weights == [] then [] else [FloorShare(soft, weights[0], total)] + FloorShares(soft, weights[1..], total)
  }

  predicate NonNegative(ws: seq<int>) { forall k :: 0 <= k < |ws| ==> ws[k] >= 0 }

  /** Every window, suspended or not, gets a limit between 1 and the soft limit. */
  lemma SharesWithinSoft(soft: int, weights: seq<int>)
    requires soft >= 1 && NonNegative(weights) && Sum(weights) > 0
    ensures forall k :: 0 <= k < |weights| ==> 1 <= Shares(soft, weights, Sum(weights))[k] <= soft
  {
    forall k | 0 <= k < |weights|
      ensures weights[k] <= Sum(weights)
    {
      ElementBelowSum(weights, k);
    }
  }

  lemma {:induction false} ElementBelowSum(ws: seq<int>, k: nat)
    requires NonNegative(ws) && k < |ws|
    ensures 0 <= ws[k] <= Sum(ws)
  {
    SumNonNegative(ws[1..]);
    if k > 0 {
      ElementBelowSum(ws[1..], k - 1);
    }
  }

  lemma {:induction false} SumNonNegative(ws: seq<int>)
    requires NonNegative(ws)
    ensures Sum(ws) >= 0
  {
    if ws != [] {
      SumNonNegative(ws[1..]);
    }
  }

  /** Rounding every share down never hands out more than `soft * Sum(weights) / total` together. */
  lemma {:induction false} FloorSharesBelow(soft: int, weights: seq<int>, total: int)
    requires total > 0
    ensures Sum(FloorShares(soft, weights, total)) <= soft * Sum(weights) / total
  {
    if weights != [] {
      FloorSharesBelow(soft, weights[1..], total);
      FloorStep(soft, weights[0], Sum(weights[1..]), total, Sum(FloorShares(soft, weights[1..], total)));
    }
  }

  /** One window more: its rounded-down share plus the others' stays within the rounded-down whole. */
  lemma FloorStep(soft: int, head: int, rest: int, total: int, restShares: int)
    requires total > 0 && restShares <= soft * rest / total
    ensures FloorShare(soft, head, total) + restShares <= soft * (head + rest) / total
  {
    FloorAdd(soft * head, soft * rest, total);
    MulAdd(soft, head, rest);
  }

  /** Before the floor of one unit, the shares add up to no more than the soft limit. */
  lemma FloorSharesWithinSoft(soft: int, weights: seq<int>)
    requires Sum(weights) > 0
    ensures Sum(FloorShares(soft, weights, Sum(weights))) <= soft
  {
    FloorSharesBelow(soft, weights, Sum(weights));
    MulDiv(soft, Sum(weights));
  }

  /** The floor of one unit adds at most one unit per window to the total handed out. */
  lemma {:induction false} SharesOvercommitBound(soft: int, weights: seq<int>, total: int)
    requires total > 0 && soft >= 0 && NonNegative(weights)
    ensures Sum(Shares(soft, weights, total)) <= Sum(FloorShares(soft, weights, total)) + |weights|
    ensures Sum(Shares(soft, weights, total)) >= |weights|
  {
    if weights != [] {
      SharesOvercommitBound(soft, weights[1..], total);
      MulMono(soft, 0, weights[0]);
      assert FloorShare(soft, weights[0], total) >= 0;
    }
  }

  /** Together: the limits sum to at most the soft limit plus one unit per window. */
  lemma SharesTotal(soft: int, weights: seq<int>)
    requires soft >= 0 && NonNegative(weights) && Sum(weights) > 0
    ensures Sum(Shares(soft, weights, Sum(weights))) <= soft + |weights|
  {
    FloorSharesWithinSoft(soft, weights);
    SharesOvercommitBound(soft, weights, Sum(weights));
  }

  /** Weights 100 and 300 with a soft limit of 1000 give limits 250 and 750. */
  lemma TwoWindowsExample()
    ensures Shares(1000, [100, 300], Sum([100, 300])) == [250, 750]
  {
    assert Sum([100, 300]) == 400 by {
      assert [100, 300][1..] == [300];
    }
  }

  /** The floor of one unit can overcommit: soft limit 10, weights 1, 1 and 1000000 give 1 + 1 + 9 = 11. */
  lemma SharesCanOvercommit()
    ensures Sum(Shares(10, [1, 1, 1000000], Sum([1, 1, 1000000]))) == 11
  {
    var ws := [1, 1, 1000000];
    assert ws[1..] == [1, 1000000] && ws[1..][1..] == [1000000];
    assert Sum(ws) == 1000002;
    var s := Shares(10, ws, 1000002);
    assert s[0] == 1 && s[1] == 1 && s[2] == 9;
    assert s == [1, 1, 9];
    assert s[1..] == [1, 9] && s[1..][1..] == [9];
  }

  /** A measured speed of 25*1024*1024 with detection on and no hard limit leaves the soft limit at 0. */
  lemma FastLinkIsUnconstrained()
    ensures SoftLimit(true, 25 * 1024 * 1024, 0) == 0
  {
  }
}

/**
 * Side pots: contributions are cut into layers at the amounts of the players still in the hand,
 * and the last layer takes everything above the last cut.
 */
module SidePots {
  import opened Sums
  import opened TableTypes

  /** A seat that may win chips: it has put chips in and has not folded. */
  predicate Contender(x: Seat) {
    InHand(x) && x.player.totalContributed > 0
  }

  function InsertLevel(levels: seq<int>, v: int): seq<int> {
    if |levels| == 0 then [v]
    else if levels[0] < v then [levels[0]] + InsertLevel(levels[1..], v)
    else if levels[0] == v then levels
    else [v] + levels
  }

  /** The distinct contributions of the contenders, ascending. */
  function Levels(ss: seq<Seat>): seq<int> {
    if |ss| == 0 then []
    else
      var x := ss[|ss| - 1];
      var rest := Levels(ss[..|ss| - 1]);
      if Contender(x) then InsertLevel(rest, x.player.totalContributed) else rest
  }

  ghost predicate Ascending(levels: seq<int>) {
    forall a, b :: 0 <= a < b < |levels| ==> levels[a] < levels[b]
  }

  ghost predicate IsLevel(ss: seq<Seat>, v: int) {
    exists i :: 0 <= i < |ss| && Contender(ss[i]) && Contributed(ss[i]) == v
  }

  lemma {:induction false} InsertLevelKeepsAscending(levels: seq<int>, v: int)
    requires Ascending(levels)
    ensures Ascending(InsertLevel(levels, v))
    ensures forall w :: w in InsertLevel(levels, v) <==> w == v || w in levels
  {
    if |levels| > 0 && levels[0] < v {
      InsertLevelKeepsAscending(levels[1..], v);
      var r := InsertLevel(levels[1..], v);
      assert InsertLevel(levels, v) == [levels[0]] + r;
      assert levels == [levels[0]] + levels[1..];
      forall b | 0 <= b < |r| ensures levels[0] < r[b] {
        assert r[b] in r;
      }
    } else if |levels| > 0 && v < levels[0] {
      assert InsertLevel(levels, v) == [v] + levels;
    }
  }

  /** The cuts are exactly the contenders' contributions, strictly ascending. */
  lemma {:induction false} LevelsAreTheContributions(ss: seq<Seat>)
    ensures Ascending(Levels(ss))
    ensures forall v :: v in Levels(ss) <==> IsLevel(ss, v)
    ensures forall k :: 0 <= k < |Levels(ss)| ==> Levels(ss)[k] > 0
    ensures Levels(ss) == [] <==> forall i :: 0 <= i < |ss| ==> !Contender(ss[i])
  {
    if |ss| > 0 {
      var n := |ss| - 1;
      LevelsAreTheContributions(ss[..n]);
      if Contender(ss[n]) {
        InsertLevelKeepsAscending(Levels(ss[..n]), Contributed(ss[n]));
      }
      forall v ensures v in Levels(ss) <==> IsLevel(ss, v) {
        if IsLevel(ss[..n], v) {
          var i :| 0 <= i < n && Contender(ss[..n][i]) && Contributed(ss[..n][i]) == v;
          assert Contender(ss[i]) && Contributed(ss[i]) == v;
        }
        if IsLevel(ss, v) && !(Contender(ss[n]) && Contributed(ss[n]) == v) {
          var i :| 0 <= i < |ss| && Contender(ss[i]) && Contributed(ss[i]) == v;
          assert ss[..n][i] == ss[i];
        }
      }
    }
    forall k | 0 <= k < |Levels(ss)| ensures Levels(ss)[k] > 0 {
      assert IsLevel(ss, Levels(ss)[k]);
    }
    if Levels(ss) == [] {
      forall i | 0 <= i < |ss| ensures !Contender(ss[i]) {
        assert Contender(ss[i]) ==> IsLevel(ss, Contributed(ss[i]));
      }
    } else {
      assert IsLevel(ss, Levels(ss)[0]);
    }
  }

  /** What one seat has in the layer from `lo` to `hi`; the top layer has no upper cut. */
  function LayerShare(x: Seat, lo: int, hi: int, top: bool): int {
    Max(0, (if top then Contributed(x) else Min(Contributed(x), hi)) - lo)
  }

  function LayerShares(ss: seq<Seat>, lo: int, hi: int, top: bool): (r: seq<int>)
    ensures |r| == |ss|
    ensures forall i :: 0 <= i < |ss| ==> r[i] == LayerShare(ss[i], lo, hi, top)
  {
    seq(|ss|, i requires 0 <= i < |ss| => LayerShare(ss[i], lo, hi, top))
  }

  function EligibleIds(ss: seq<Seat>, level: int): seq<PlayerId> {
    if |ss| == 0 then []
    else
      var x := ss[|ss| - 1];
      EligibleIds(ss[..|ss| - 1], level) + (if Contender(x) && Contributed(x) >= level then [x.player.id] else [])
  }

  function Floor(levels: seq<int>, k: nat): int
    requires k <= |levels|
  {
    if k == 0 then 0 else levels[k - 1]
  }

  function ShareInPot(x: Seat, levels: seq<int>, k: nat): int
    requires k < |levels|
  {
    LayerShare(x, Floor(levels, k), levels[k], k == |levels| - 1)
  }

  function PotAt(ss: seq<Seat>, levels: seq<int>, k: nat): SidePot
    requires k < |levels|
  {
    SidePot(
      Sum(LayerShares(ss, Floor(levels, k), levels[k], k == |levels| - 1)),
      EligibleIds(ss, levels[k]))
  }

  /** `calculateSidePots`. */
  function SidePotsOf(ss: seq<Seat>): (pots: seq<SidePot>)
    ensures |pots| == |Levels(ss)|
  {
    var levels := Levels(ss);
    seq(|levels|, k requires 0 <= k < |levels| => PotAt(ss, levels, k))
  }

  function Amounts(pots: seq<SidePot>): (r: seq<int>)
    ensures |r| == |pots|
    ensures forall k :: 0 <= k < |pots| ==> r[k] == pots[k].amount
  {
    seq(|pots|, k requires 0 <= k < |pots| => pots[k].amount)
  }

  ghost predicate NonNegative(ss: seq<Seat>) {
    forall i :: 0 <= i < |ss| ==> 0 <= Contributed(ss[i])
  }

  lemma {:induction false} EligibleIdsExact(ss: seq<Seat>, level: int)
    ensures forall id :: id in EligibleIds(ss, level) <==>
              exists i :: 0 <= i < |ss| && Contender(ss[i]) && Contributed(ss[i]) >= level && ss[i].player.id == id
  {
    if |ss| > 0 {
      var n := |ss| - 1;
      EligibleIdsExact(ss[..n], level);
      forall id ensures id in EligibleIds(ss, level) <==>
                exists i :: 0 <= i < |ss| && Contender(ss[i]) && Contributed(ss[i]) >= level && ss[i].player.id == id
      {
        if id in EligibleIds(ss[..n], level) {
          var i :| 0 <= i < n && Contender(ss[..n][i]) && Contributed(ss[..n][i]) >= level
            && ss[..n][i].player.id == id;
          assert ss[i] == ss[..n][i];
        }
        if exists i :: 0 <= i < |ss| && Contender(ss[i]) && Contributed(ss[i]) >= level && ss[i].player.id == id {
          var i :| 0 <= i < |ss| && Contender(ss[i]) && Contributed(ss[i]) >= level && ss[i].player.id == id;
          if i < n {
            assert ss[..n][i] == ss[i];
          }
        }
      }
    }
  }

  /** Whether the player at seat `i` is named as eligible for pot `k`. */
  predicate Eligible(ss: seq<Seat>, i: nat, k: nat)
    requires i < |ss| && k < |SidePotsOf(ss)|
  {
    ss[i].Taken? && ss[i].player.id in SidePotsOf(ss)[k].relevantPlayerIds
  }

  /** Eligibility is decided by the level alone: folded players are never eligible. */
  lemma EligibleIffReached(ss: seq<Seat>, i: nat, k: nat)
    requires i < |ss| && k < |SidePotsOf(ss)| && DistinctIds(ss)
    ensures Eligible(ss, i, k) <==> Contender(ss[i]) && Contributed(ss[i]) >= Levels(ss)[k]
  {
    EligibleIdsExact(ss, Levels(ss)[k]);
  }

  function CappedContributions(ss: seq<Seat>, cap: int): (r: seq<int>)
    ensures |r| == |ss|
    ensures forall i :: 0 <= i < |ss| ==> r[i] == Min(Contributed(ss[i]), cap)
  {
    seq(|ss|, i requires 0 <= i < |ss| => Min(Contributed(ss[i]), cap))
  }

  /** The layers below cut `k` hold what everybody put in up to that cut. */
  lemma {:induction false} LowerLayersSum(ss: seq<Seat>, k: nat)
    requires NonNegative(ss) && k < |Levels(ss)|
    ensures Sum(Amounts(SidePotsOf(ss)[..k])) == Sum(CappedContributions(ss, Floor(Levels(ss), k)))
  {
    var levels := Levels(ss);
    var pots := SidePotsOf(ss);
    LevelsAreTheContributions(ss);
    if k == 0 {
      SumConstant(CappedContributions(ss, 0), 0);
    } else {
      LowerLayersSum(ss, k - 1);
      assert Amounts(pots[..k])[..k - 1] == Amounts(pots[..k - 1]);
      var lo := Floor(levels, k - 1);
      SumLinear(CappedContributions(ss, lo), LayerShares(ss, lo, levels[k - 1], false),
                CappedContributions(ss, levels[k - 1]));
    }
  }

  /** No chip is outside the side pots, whatever was put in, as long as somebody can win. */
  lemma SidePotsHoldEverything(ss: seq<Seat>)
    requires NonNegative(ss)
    requires exists i :: 0 <= i < |ss| && Contender(ss[i])
    ensures Sum(Amounts(SidePotsOf(ss))) == Sum(Contributions(ss))
  {
    LevelsAreTheContributions(ss);
    var levels := Levels(ss);
    var pots := SidePotsOf(ss);
    var k := |levels| - 1;
    LowerLayersSum(ss, k);
    assert Amounts(pots)[..k] == Amounts(pots[..k]);
    var lo := Floor(levels, k);
    SumLinear(CappedContributions(ss, lo), LayerShares(ss, lo, levels[k], true), Contributions(ss));
  }

  lemma SidePotsArePositive(ss: seq<Seat>, k: nat)
    requires NonNegative(ss) && k < |SidePotsOf(ss)|
    ensures SidePotsOf(ss)[k].amount > 0
  {
    LevelsAreTheContributions(ss);
    var levels := Levels(ss);
    assert IsLevel(ss, levels[k]);
    var i :| 0 <= i < |ss| && Contender(ss[i]) && Contributed(ss[i]) == levels[k];
    var shares := LayerShares(ss, Floor(levels, k), levels[k], k == |levels| - 1);
    SumNonNegative(shares);
    assert shares[i] > 0;
  }

  /** Each pot can be won by strictly fewer players than the one below it. */
  lemma EligibleSetsStrictlyNest(ss: seq<Seat>, k: nat)
    requires k + 1 < |SidePotsOf(ss)| && DistinctIds(ss)
    ensures forall i :: 0 <= i < |ss| && Eligible(ss, i, k + 1) ==> Eligible(ss, i, k)
    ensures exists i :: 0 <= i < |ss| && Eligible(ss, i, k) && !Eligible(ss, i, k + 1)
  {
    LevelsAreTheContributions(ss);
    var levels := Levels(ss);
    forall i | 0 <= i < |ss| && Eligible(ss, i, k + 1) ensures Eligible(ss, i, k) {
      EligibleIffReached(ss, i, k + 1);
      EligibleIffReached(ss, i, k);
    }
    assert IsLevel(ss, levels[k]);
    var i :| 0 <= i < |ss| && Contender(ss[i]) && Contributed(ss[i]) == levels[k];
    EligibleIffReached(ss, i, k + 1);
    EligibleIffReached(ss, i, k);
  }

  /** The chips of seat `j` that lie in the pots seat `i` may win. */
  ghost function Winnable(ss: seq<Seat>, i: nat, j: nat, k: nat): int
    requires i < |ss| && j < |ss| && k <= |SidePotsOf(ss)|
  {
    if k == 0 then 0
    else Winnable(ss, i, j, k - 1)
         + if Eligible(ss, i, k - 1) then ShareInPot(ss[j], Levels(ss), k - 1) else 0
  }

  /** The layer of a seat's own contribution; exactly the pots up to it are open to that seat. */
  lemma OwnLayer(ss: seq<Seat>, i: nat) returns (m: nat)
    requires i < |ss| && DistinctIds(ss) && Contender(ss[i])
    ensures m < |Levels(ss)| && Levels(ss)[m] == Contributed(ss[i])
    ensures forall k :: 0 <= k < |SidePotsOf(ss)| ==> (Eligible(ss, i, k) <==> k <= m)
    ensures m == |Levels(ss)| - 1 <==>
            forall j :: 0 <= j < |ss| && Contender(ss[j]) ==> Contributed(ss[j]) <= Contributed(ss[i])
  {
    LevelsAreTheContributions(ss);
    var levels := Levels(ss);
    assert IsLevel(ss, Contributed(ss[i]));
    m :| 0 <= m < |levels| && levels[m] == Contributed(ss[i]);
    forall k | 0 <= k < |levels| ensures Eligible(ss, i, k) <==> k <= m {
      EligibleIffReached(ss, i, k);
    }
    assert IsLevel(ss, levels[|levels| - 1]);
    forall j | 0 <= j < |ss| && Contender(ss[j]) ensures Contributed(ss[j]) <= levels[|levels| - 1] {
      assert IsLevel(ss, Contributed(ss[j]));
    }
  }

  lemma ShareIsDifference(x: Seat, levels: seq<int>, k: nat)
    requires Ascending(levels) && k < |levels| && 0 <= Contributed(x) && 0 < levels[0]
    ensures ShareInPot(x, levels, k) ==
            (if k == |levels| - 1 then Contributed(x) else Min(Contributed(x), levels[k]))
            - Min(Contributed(x), Floor(levels, k))
  {
  }

  lemma {:induction false} WinnableUpTo(ss: seq<Seat>, i: nat, j: nat, m: nat, k: nat)
    requires i < |ss| && j < |ss| && k <= |SidePotsOf(ss)| && m < |SidePotsOf(ss)| && NonNegative(ss)
    requires forall q :: 0 <= q < |SidePotsOf(ss)| ==> (Eligible(ss, i, q) <==> q <= m)
    ensures Winnable(ss, i, j, k) ==
            if m < k then (if m == |Levels(ss)| - 1 then Contributed(ss[j]) else Min(Contributed(ss[j]), Levels(ss)[m]))
            else Min(Contributed(ss[j]), Floor(Levels(ss), k))
    decreases k
  {
    if k > 0 {
      WinnableUpTo(ss, i, j, m, k - 1);
      LevelsAreTheContributions(ss);
      ShareIsDifference(ss[j], Levels(ss), k - 1);
    }
  }

  /**
   * The entitlement rule: of every opponent's chips a player can win exactly the part that player
   * matched. Only the chips a folded player put in above every contender go to the top pot as well.
   */
  lemma Entitlement(ss: seq<Seat>, i: nat, j: nat)
    requires i < |ss| && j < |ss| && DistinctIds(ss) && NonNegative(ss)
    requires Contender(ss[i])
    ensures var won := Winnable(ss, i, j, |SidePotsOf(ss)|);
            && (InHand(ss[j]) ==> won == Min(Contributed(ss[i]), Contributed(ss[j])))
            && (!InHand(ss[j]) ==>
                  won == if forall m :: 0 <= m < |ss| && Contender(ss[m]) ==> Contributed(ss[m]) <= Contributed(ss[i])
                         then Contributed(ss[j]) else Min(Contributed(ss[i]), Contributed(ss[j])))
  {
    var m := OwnLayer(ss, i);
    WinnableUpTo(ss, i, j, m, |SidePotsOf(ss)|);
    if Contender(ss[j]) && m == |Levels(ss)| - 1 {
      assert Contributed(ss[j]) <= Contributed(ss[i]);
    }
  }
}

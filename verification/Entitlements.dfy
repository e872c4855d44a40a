/** Who is paid in a settled hand, and how much at most. */
module Entitlements {
  import opened Sums
  import opened TableTypes
  import opened Ring
  import opened SidePots
  import opened Betting
  import opened TurnOrder
  import opened HandStart
  import opened Contributors
  import opened Settlement
  import opened Showdown

  /** The seats that the settlement pays from: contributions after the refund. */
  function Cut(s: TableState): seq<Seat> {
    Refund(s).seats
  }

  ghost predicate NamesOneOf(tiers: seq<seq<PlayerId>>, ids: seq<PlayerId>) {
    exists t, id :: 0 <= t < |tiers| && id in tiers[t] && id in ids
  }

  /** A nomination is accepted exactly when it names, for every side pot, somebody who may win it. */
  lemma AcceptedIff(s: TableState, tiers: seq<seq<PlayerId>>)
    requires ShowdownInv(s)
    ensures Resolve(s, tiers).HandSettled? <==>
            forall k :: 0 <= k < |SidePotsOf(Cut(s))| ==> NamesOneOf(tiers, SidePotsOf(Cut(s))[k].relevantPlayerIds)
  {
    var pots := SidePotsOf(Cut(s));
    forall k | 0 <= k < |pots|
      ensures |ClaimOf(pots[k].relevantPlayerIds, tiers)| > 0 <==> NamesOneOf(tiers, pots[k].relevantPlayerIds)
    {
      ClaimIsBestTier(pots[k].relevantPlayerIds, tiers, "");
    }
  }

  /** Naming every player who is still in is always enough. */
  lemma NamingEverybodySuffices(s: TableState, tiers: seq<seq<PlayerId>>)
    requires ShowdownInv(s)
    requires forall i :: 0 <= i < |s.seats| && InHand(s.seats[i]) ==> NamesOneOf(tiers, [s.seats[i].player.id])
    ensures Resolve(s, tiers).HandSettled?
  {
    AcceptedIff(s, tiers);
    RefundKeeps(s);
    var ss := Cut(s);
    forall k | 0 <= k < |SidePotsOf(ss)| ensures NamesOneOf(tiers, SidePotsOf(ss)[k].relevantPlayerIds) {
      LevelsAreTheContributions(ss);
      assert IsLevel(ss, Levels(ss)[k]);
      var i :| 0 <= i < |ss| && Contender(ss[i]) && Contributed(ss[i]) == Levels(ss)[k];
      EligibleIffReached(ss, i, k);
      assert InHand(s.seats[i]) && ss[i].player.id == s.seats[i].player.id;
      var t, id :| 0 <= t < |tiers| && id in tiers[t] && id in [s.seats[i].player.id];
      assert id in SidePotsOf(ss)[k].relevantPlayerIds;
    }
  }

  /** The best tier that names this player, for a pot this player may win. */
  ghost predicate BestNamed(ids: seq<PlayerId>, tiers: seq<seq<PlayerId>>, id: PlayerId) {
    exists t :: 0 <= t < |tiers| && id in tiers[t] && id in ids
                && forall b, other :: 0 <= b < t && other in tiers[b] ==> other !in ids
  }

  /**
   * Chips of a side pot reach only a player who is eligible for it and whose tier is the best one
   * naming anybody eligible: a lower tier never takes what a higher eligible player could claim.
   */
  lemma OnlyBestTierIsPaid(s: TableState, tiers: seq<seq<PlayerId>>, k: nat, i: nat)
    requires ShowdownInv(s) && i < |s.seats| && k < |SidePotsOf(Cut(s))|
    requires WonFromPot(Cut(s), s.buttonUser, SidePotsOf(Cut(s))[k].amount,
                        ClaimOf(SidePotsOf(Cut(s))[k].relevantPlayerIds, tiers), i) > 0
    ensures Contender(Cut(s)[i]) && Contributed(Cut(s)[i]) >= Levels(Cut(s))[k]
    ensures BestNamed(SidePotsOf(Cut(s))[k].relevantPlayerIds, tiers, Cut(s)[i].player.id)
  {
    RefundKeeps(s);
    var pot := SidePotsOf(Cut(s))[k];
    SidePotsNonNegative(Cut(s));
    SplitPotPays(Cut(s), s.buttonUser, pot.amount, ClaimOf(pot.relevantPlayerIds, tiers), i);
    ClaimIsBestTier(pot.relevantPlayerIds, tiers, Cut(s)[i].player.id);
    EligibleIffReached(Cut(s), i, k);
  }

  /** Seat by seat, a settled hand pays the refunded stack plus what was won, and changes no seat otherwise. */
  lemma SettledStacks(s: TableState, tiers: seq<seq<PlayerId>>, i: nat)
    requires ShowdownInv(s) && i < |s.seats| && Resolve(s, tiers).HandSettled?
    ensures var r := Resolve(s, tiers).state;
            && |r.seats| == |s.seats|
            && (r.seats[i].Taken? <==> s.seats[i].Taken?)
            && (s.seats[i].Taken? ==> r.seats[i].player.id == s.seats[i].player.id)
            && StackOf(r.seats[i]) ==
               StackOf(Cut(s)[i])
               + if s.seats[i].Taken?
                 then Won(Cut(s), s.buttonUser, SidePotsOf(Cut(s)), tiers, |SidePotsOf(Cut(s))|, i) else 0
  {
    RefundKeeps(s);
    var pots := SidePotsOf(Cut(s));
    SidePotsNonNegative(Cut(s));
    PayPotsPays(Cut(s), s.buttonUser, pots, tiers, |pots|, i);
  }

  ghost function WinnableFrom(ss: seq<Seat>, i: nat, k: nat): (r: seq<int>)
    requires i < |ss| && k <= |SidePotsOf(ss)|
    ensures |r| == |ss|
    ensures forall j :: 0 <= j < |ss| ==> r[j] == Winnable(ss, i, j, k)
  {
    seq(|ss|, j requires 0 <= j < |ss| => Winnable(ss, i, j, k))
  }

  lemma {:induction false} WonAtMostWinnable(ss: seq<Seat>, button: int, tiers: seq<seq<PlayerId>>, i: nat, k: nat)
    requires 0 <= button < |ss| && i < |ss| && NonNegative(ss) && k <= |SidePotsOf(ss)|
    ensures Won(ss, button, SidePotsOf(ss), tiers, k, i) <= Sum(WinnableFrom(ss, i, k))
  {
    if k == 0 {
      SumConstant(WinnableFrom(ss, i, 0), 0);
    } else {
      WonAtMostWinnable(ss, button, tiers, i, k - 1);
      var pot := SidePotsOf(ss)[k - 1];
      var levels := Levels(ss);
      var claim := ClaimOf(pot.relevantPlayerIds, tiers);
      SidePotsArePositive(ss, k - 1);
      SplitPotPays(ss, button, pot.amount, claim, i);
      var shares := LayerShares(ss, Floor(levels, k - 1), levels[k - 1], k - 1 == |levels| - 1);
      if Eligible(ss, i, k - 1) {
        SumLinear(WinnableFrom(ss, i, k - 1), shares, WinnableFrom(ss, i, k));
      } else {
        assert WinnableFrom(ss, i, k) == WinnableFrom(ss, i, k - 1);
        if ss[i].Taken? {
          ClaimIsBestTier(pot.relevantPlayerIds, tiers, ss[i].player.id);
        }
      }
    }
  }

  function MatchedBy(ss: seq<Seat>, c: int): (r: seq<int>)
    ensures |r| == |ss|
    ensures forall j :: 0 <= j < |ss| ==> r[j] == Min(c, Contributed(ss[j]))
  {
    seq(|ss|, j requires 0 <= j < |ss| => Min(c, Contributed(ss[j])))
  }

  /** A player who is not the deepest in the hand; such a player's all-in is a side pot of its own. */
  ghost predicate Covered(ss: seq<Seat>, i: nat)
    requires i < |ss|
  {
    exists m :: 0 <= m < |ss| && Contender(ss[m]) && Contributed(ss[m]) > Contributed(ss[i])
  }

  /** All that a contender can win: at most everything, and for a covered one what it matched of each other. */
  lemma WinnableTotal(ss: seq<Seat>, i: nat)
    requires NonNegative(ss) && DistinctIds(ss) && i < |ss| && Contender(ss[i])
    ensures Sum(WinnableFrom(ss, i, |SidePotsOf(ss)|)) <= Sum(Contributions(ss))
    ensures Covered(ss, i) ==> WinnableFrom(ss, i, |SidePotsOf(ss)|) == MatchedBy(ss, Contributed(ss[i]))
  {
    var n := |SidePotsOf(ss)|;
    forall j | 0 <= j < |ss|
      ensures Winnable(ss, i, j, n) <= Contributed(ss[j])
      ensures Covered(ss, i) ==> Winnable(ss, i, j, n) == Min(Contributed(ss[i]), Contributed(ss[j]))
    {
      Entitlement(ss, i, j);
    }
    SumMonotone(WinnableFrom(ss, i, n), Contributions(ss));
  }

  /**
   * Whatever the dealer nominates, a covered player wins at most what that player matched of each
   * other player's chips, and a folded player or an empty seat wins nothing.
   */
  lemma WonAtMostMatched(s: TableState, tiers: seq<seq<PlayerId>>, i: nat)
    requires ShowdownInv(s) && i < |s.seats|
    ensures var won := Won(Cut(s), s.buttonUser, SidePotsOf(Cut(s)), tiers, |SidePotsOf(Cut(s))|, i);
            && 0 <= won
            && (!Contender(Cut(s)[i]) ==> won == 0)
            && (Contender(Cut(s)[i]) && Covered(Cut(s), i) ==> won <= Sum(MatchedBy(Cut(s), Contributed(Cut(s)[i]))))
            && won <= Refund(s).pot
  {
    RefundKeeps(s);
    var ss := Cut(s);
    var n := |SidePotsOf(ss)|;
    SidePotsNonNegative(ss);
    PayPotsPays(ss, s.buttonUser, SidePotsOf(ss), tiers, n, i);
    WonAtMostWinnable(ss, s.buttonUser, tiers, i, n);
    if Contender(ss[i]) {
      WinnableTotal(ss, i);
    } else {
      NothingWinnable(ss, i, n);
      SumNonNegative(Contributions(ss));
    }
  }

  lemma {:induction false} NothingWinnable(ss: seq<Seat>, i: nat, k: nat)
    requires i < |ss| && DistinctIds(ss) && !Contender(ss[i]) && k <= |SidePotsOf(ss)|
    ensures Sum(WinnableFrom(ss, i, k)) == 0
  {
    if k > 0 {
      NothingWinnable(ss, i, k - 1);
      EligibleIffReached(ss, i, k - 1);
      assert WinnableFrom(ss, i, k) == WinnableFrom(ss, i, k - 1);
    } else {
      SumConstant(WinnableFrom(ss, i, 0), 0);
    }
  }

  /** With nobody paid twice, the k-th winner clockwise gets the share, and an odd chip while they last. */
  lemma {:induction false} EvenSplit(order: seq<int>, share: int, remainder: int, k: nat)
    requires k < |order| && forall a, b :: 0 <= a < b < |order| ==> order[a] != order[b]
    ensures PaidTo(order, share, remainder, order[k]) == share + if k < remainder then 1 else 0
    decreases |order|
  {
    var extra := if remainder > 0 then 1 else 0;
    if k == 0 {
      PaidOnlyIfNamed(order[1..], share, remainder - extra, order[0]);
    } else {
      EvenSplit(order[1..], share, remainder - extra, k - 1);
    }
  }

  lemma {:induction false} PaidOnlyIfNamed(order: seq<int>, share: int, remainder: int, i: int)
    requires i !in order
    ensures PaidTo(order, share, remainder, i) == 0
    decreases |order|
  {
    if |order| > 0 {
      PaidOnlyIfNamed(order[1..], share, remainder - (if remainder > 0 then 1 else 0), i);
    }
  }

  lemma TiesInOrder(order: seq<int>, share: int, remainder: int, i: int, j: int) returns (a: nat, b: nat)
    requires forall a, b :: 0 <= a < b < |order| ==> order[a] != order[b]
    requires i in order && j in order
    ensures a < |order| && b < |order| && order[a] == i && order[b] == j
    ensures var wi := PaidTo(order, share, remainder, i);
            var wj := PaidTo(order, share, remainder, j);
            wj - 1 <= wi <= wj + 1 && (wi > wj ==> a < b)
  {
    a :| 0 <= a < |order| && order[a] == i;
    b :| 0 <= b < |order| && order[b] == j;
    EvenSplit(order, share, remainder, a);
    EvenSplit(order, share, remainder, b);
  }

  /**
   * Tied winners split a pot evenly: two different winners' parts differ by at most one chip, and
   * the one who has the extra chip sits first going clockwise from the button.
   */
  lemma TiesSplitEvenly(ss: seq<Seat>, button: int, amount: int, winnerIds: seq<PlayerId>, i: int, j: int)
    requires 0 <= button < |ss|
    requires forall a, b :: 0 <= a < b < |SeatsOf(ss, winnerIds)| ==>
             SeatsOf(ss, winnerIds)[a] != SeatsOf(ss, winnerIds)[b]
    requires i in SeatsOf(ss, winnerIds) && j in SeatsOf(ss, winnerIds)
    ensures var wi := WonFromPot(ss, button, amount, winnerIds, i);
            var wj := WonFromPot(ss, button, amount, winnerIds, j);
            && wj - 1 <= wi <= wj + 1
            && (wi > wj ==> FromButton(i, button, |ss|) <= FromButton(j, button, |ss|))
  {
    var seats := SeatsOf(ss, winnerIds);
    ByButtonSorts(seats, button, |ss|);
    var order := ByButton(seats, button, |ss|);
    NoRepeats(seats, order);
    assert i in multiset(seats) && j in multiset(seats);
    assert i in multiset(order) && j in multiset(order);
    var a, b := TiesInOrder(order, amount / |seats|, amount - amount / |seats| * |seats|, i, j);
  }

  lemma NoRepeats(xs: seq<int>, ys: seq<int>)
    requires multiset(xs) == multiset(ys)
    requires forall a, b :: 0 <= a < b < |xs| ==> xs[a] != xs[b]
    ensures forall a, b :: 0 <= a < b < |ys| ==> ys[a] != ys[b]
  {
    forall a, b | 0 <= a < b < |ys| ensures ys[a] != ys[b] {
      if ys[a] == ys[b] {
        assert ys == ys[..a] + [ys[a]] + ys[a + 1..b] + [ys[b]] + ys[b + 1..];
        assert multiset(ys)[ys[a]] >= 2;
        AtMostOnce(xs, ys[a]);
      }
    }
  }

  lemma {:induction false} AtMostOnce(xs: seq<int>, v: int)
    requires forall a, b :: 0 <= a < b < |xs| ==> xs[a] != xs[b]
    ensures multiset(xs)[v] <= 1
  {
    if |xs| > 0 {
      var n := |xs| - 1;
      AtMostOnce(xs[..n], v);
      assert xs == xs[..n] + [xs[n]];
      if xs[n] == v {
        assert v !in xs[..n];
      }
    }
  }

  function Player(id: PlayerId, stack: int, bet: int, folded: bool): Seat {
    Taken(TablePlayer(id, stack, bet, folded, false, false, bet))
  }

  /** Three stacks of 1000 before the deal; blinds 50 and 100, no ante. */
  function ThreePlayers(): TableState {
    TableState(WAITING, [Player("sb", 1000, 0, false), Player("bb", 1000, 0, false), Player("btn", 1000, 0, false)],
               1, -1, 0, [], 0, 50, 0, None, 0, None, None)
  }

  /** The same table dealt, with the button to act. */
  function ThreeDealt(): TableState {
    TableState(PRE_FLOP, [Player("sb", 950, 50, false), Player("bb", 900, 100, false), Player("btn", 1000, 0, false)],
               2, 2, 150, [], 100, 50, 0, Some(100), 0, None, None)
  }

  /** The dealer has folded both blinds before the button acted. */
  function DeadMoney(): TableState {
    TableState(SHOWDOWN, [Player("sb", 950, 50, true), Player("bb", 900, 100, true), Player("btn", 1000, 0, false)],
               2, -1, 150, [], 100, 50, 0, Some(100), 0, None, None)
  }

  lemma ThreeActive(ss: seq<Seat>)
    requires |ss| == 3 && HasChips(ss[0]) && HasChips(ss[1]) && HasChips(ss[2])
    ensures ActiveCount(ss) == 3
  {
    assert ss[..2][..1] == ss[..1] && ss[..1][..0] == [];
    assert ActiveCount(ss[..1]) == 1;
    assert ActiveCount(ss[..2]) == 2;
  }

  lemma ThreePlayersDealt()
    ensures HandReady(ThreePlayers())
    ensures StartPreFlop(ThreePlayers()) == Started(ThreeDealt())
  {
    var s := ThreePlayers();
    ThreeActive(s.seats);
    assert NextLive(s.seats, 2) == 2 && NextLive(s.seats, 0) == 0 && NextLive(s.seats, 1) == 1;
    assert SmallBlindSeat(s.seats, 2) == 0;
    var posted := BlindsPosted(s.(buttonUser := 2), 0, 1);
    assert posted.seats == ThreeDealt().seats;
    assert NextLive(posted.seats, 2) == 2;
    assert CanAct(posted.seats[0]) && CanAct(posted.seats[1]);
  }

  lemma BothBlindsFolded()
    ensures var one := Act(ThreeDealt(), 0, DEALER_FOLD, None);
            && one.Applied? && Shape(one.state)
            && Act(one.state, 1, DEALER_FOLD, None) == Applied(DeadMoney())
  {
    var s := ThreeDealt();
    var one := Folded(s, 0);
    assert CanAct(one.seats[1]) && CanAct(one.seats[2]) && InHand(one.seats[2]);
    assert !one.seats[2].player.hasChecked;
    var two := Folded(one, 1);
    assert two.seats == DeadMoney().seats;
    LevelsAreTheContributions(two.seats);
  }

  lemma DeadMoneyInOrder()
    ensures ShowdownInv(DeadMoney())
  {
    var s := DeadMoney();
    assert InHand(s.seats[2]);
    assert Contributions(s.seats) == [50, 100, 0];
    assert [50, 100, 0][..2] == [50, 100] && [50, 100][..1] == [50] && [50][..0] == [];
    assert Sum([50]) == 50 && Sum([50, 100]) == 150;
  }

  lemma DeadMoneyUncalled()
    ensures TopSeat(DeadMoney().seats) == 1 && UncalledAmount(DeadMoney().seats) == 50
  {
    var ss := DeadMoney().seats;
    assert Contributed(ss[0]) == 50 && Contributed(ss[1]) == 100 && Contributed(ss[2]) == 0;
    assert TopSeat(ss) == 1;
    assert SecondHighest(ss, 1) == 50;
  }

  lemma DeadMoneyRefund()
    ensures ShowdownInv(DeadMoney())
    ensures SidePotsOf(Cut(DeadMoney())) == [] && Refund(DeadMoney()).pot == 100
    ensures !SomeContender(Cut(DeadMoney()))
  {
    DeadMoneyInOrder();
    DeadMoneyUncalled();
    LevelsAreTheContributions(Cut(DeadMoney()));
  }

  lemma DeadMoneySettles(tiers: seq<seq<PlayerId>>)
    ensures ShowdownInv(DeadMoney())
    ensures Resolve(DeadMoney(), tiers).HandSettled?
    ensures Chips(Resolve(DeadMoney(), tiers).state) == Chips(DeadMoney()) - 100
  {
    DeadMoneyRefund();
    SettledChips(DeadMoney(), tiers);
  }

  /**
   * The pot does not always find a winner. From a table of three, by two dealer folds out of turn,
   * the settlement accepts every nomination, returns the uncalled 50, and the other 100 chips are
   * on no stack and in no pot.
   */
  lemma DeadMoneyVanishes(tiers: seq<seq<PlayerId>>)
    ensures HandReady(ThreePlayers()) && StartPreFlop(ThreePlayers()) == Started(ThreeDealt())
    ensures var one := Act(ThreeDealt(), 0, DEALER_FOLD, None);
            one.Applied? && Shape(one.state) && Act(one.state, 1, DEALER_FOLD, None) == Applied(DeadMoney())
    ensures ShowdownInv(DeadMoney())
    ensures Resolve(DeadMoney(), tiers).HandSettled?
    ensures Chips(Resolve(DeadMoney(), tiers).state) == Chips(DeadMoney()) - 100
  {
    ThreePlayersDealt();
    BothBlindsFolded();
    DeadMoneySettles(tiers);
  }
}

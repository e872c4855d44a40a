/** What a settled hand means: no chip lost, nobody paid out of turn, nobody paid beyond what they matched. */
module Showdown {
  import opened Sums
  import opened TableTypes
  import opened SidePots
  import opened TurnOrder
  import opened HandStart
  import opened Contributors
  import opened Settlement

  ghost predicate AtMostOneContributed(ss: seq<Seat>) {
    forall i, j :: 0 <= i < j < |ss| ==> !(Contributed(ss[i]) > 0 && Contributed(ss[j]) > 0)
  }

  /** A showdown after the refund: the side pots are cut from these contributions. */
  ghost predicate Refunded(s: TableState) {
    && Shape(s) && s.phase == SHOWDOWN && s.turn == -1
    && DistinctIds(s.seats) && NonNegative(s.seats)
    && s.pot == Sum(Contributions(s.seats))
    && forall i :: 0 <= i < |s.seats| ==> 0 <= StackOf(s.seats[i])
  }

  lemma ShowdownNonNegative(s: TableState)
    requires ShowdownInv(s)
    ensures NonNegative(s.seats) && forall i :: 0 <= i < |s.seats| ==> 0 <= StackOf(s.seats[i])
  {
    forall i | 0 <= i < |s.seats| ensures 0 <= Contributed(s.seats[i]) && 0 <= StackOf(s.seats[i]) {
      assert SeatOk(s.seats[i], s.currentBet);
    }
  }

  /** The refund moves chips from the pot to their owner and nothing else. */
  lemma RefundKeeps(s: TableState)
    requires ShowdownInv(s)
    ensures Refunded(Refund(s)) && Chips(Refund(s)) == Chips(s)
  {
    ShowdownNonNegative(s);
    var top := TopSeat(s.seats);
    var amount := UncalledAmount(s.seats);
    if top != -1 && amount != 0 {
      SeatUpdateSums(s.seats, top, Refund(s).seats[top]);
      assert Contributed(s.seats[top]) >= amount;
    }
  }

  lemma RefundLevels(s: TableState)
    requires NonNegative(s.seats)
    ensures UncalledAmount(Refund(s).seats) == 0
  {
    var top := TopSeat(s.seats);
    var amount := UncalledAmount(s.seats);
    if top != -1 && amount != 0 {
      var r := Refund(s).seats;
      var second := SecondHighest(s.seats, top);
      assert Contributed(r[top]) == second;
      assert forall i :: 0 <= i < |r| && i != top ==> r[i] == s.seats[i];
      var newTop := TopSeat(r);
      if newTop != -1 {
        if newTop == top {
          var i :| 0 <= i < |r| && i != top && Contributed(s.seats[i]) == second;
          assert Contributed(r[i]) == second;
        }
        assert SecondHighest(r, newTop) >= Contributed(r[newTop]);
      }
    }
  }

  /** Running the refund twice is running it once; so a refused nomination can be submitted again. */
  lemma RefundIdempotent(s: TableState)
    requires NonNegative(s.seats)
    ensures Refund(Refund(s)) == Refund(s)
  {
    RefundLevels(s);
  }

  /** After a refusal the same hand settles exactly as if the refused nomination had never come. */
  lemma ResubmitSettlesTheSame(s: TableState, refused: seq<seq<PlayerId>>, tiers: seq<seq<PlayerId>>)
    requires ShowdownInv(s) && Resolve(s, refused).Unclaimed?
    ensures var after := Resolve(s, refused).state;
            && Shape(after)
            && Stacks(after.seats) == Stacks(Refund(s).seats)
            && Resolve(after, tiers) == Resolve(s, tiers)
  {
    ShowdownNonNegative(s);
    var pots := SidePotsOf(Refund(s).seats);
    var after := Refund(s).(sidePots := pots);
    RefundLevels(s);
    assert UncalledAmount(after.seats) == 0;
    assert Refund(after) == after;
  }

  /** A lone contribution comes back in full. */
  lemma RefundOfOne(s: TableState)
    requires ShowdownInv(s) && AtMostOneContributed(s.seats)
    ensures Sum(Contributions(Refund(s).seats)) == 0
  {
    ShowdownNonNegative(s);
    var r := Refund(s).seats;
    var top := TopSeat(s.seats);
    forall i | 0 <= i < |r| && i != top ensures Contributed(s.seats[i]) == 0 {
      if top != -1 {
        var a, b := Min(i, top), Max(i, top);
        assert !(Contributed(s.seats[a]) > 0 && Contributed(s.seats[b]) > 0);
      }
    }
    SumConstant(Contributions(r), 0);
  }

  /** With two contributions nobody's refund reaches the bottom. */
  lemma RefundLeavesContributions(s: TableState)
    requires NonNegative(s.seats) && !AtMostOneContributed(s.seats)
    ensures forall k :: 0 <= k < |s.seats| ==>
              && (Contributed(Refund(s).seats[k]) > 0 <==> Contributed(s.seats[k]) > 0)
              && (InHand(Refund(s).seats[k]) <==> InHand(s.seats[k]))
  {
    var top := TopSeat(s.seats);
    var i, j :| 0 <= i < j < |s.seats| && Contributed(s.seats[i]) > 0 && Contributed(s.seats[j]) > 0;
    var other := if i == top then j else i;
    assert Contributed(s.seats[other]) <= SecondHighest(s.seats, top);
  }

  /** With two contributions the refund changes nothing about who can win. */
  lemma RefundOfMany(s: TableState)
    requires ShowdownInv(s) && !AtMostOneContributed(s.seats)
    ensures SomeContender(Refund(s).seats) <==> SomeContender(s.seats)
    ensures Sum(Contributions(Refund(s).seats)) > 0
  {
    ShowdownNonNegative(s);
    RefundLeavesContributions(s);
    RefundKeeps(s);
    SameContenders(s.seats, Refund(s).seats);
    SumNonNegative(Contributions(Refund(s).seats));
    var i, j :| 0 <= i < j < |s.seats| && Contributed(s.seats[i]) > 0 && Contributed(s.seats[j]) > 0;
    assert Contributions(Refund(s).seats)[i] > 0;
  }

  lemma SameContenders(ss: seq<Seat>, rs: seq<Seat>)
    requires |ss| == |rs|
    requires forall k :: 0 <= k < |ss| ==>
               (Contributed(rs[k]) > 0 <==> Contributed(ss[k]) > 0) && (InHand(rs[k]) <==> InHand(ss[k]))
    ensures SomeContender(rs) <==> SomeContender(ss)
  {
    if SomeContender(ss) {
      var i :| 0 <= i < |ss| && Contender(ss[i]);
      assert Contender(rs[i]);
    }
    if SomeContender(rs) {
      var i :| 0 <= i < |rs| && Contender(rs[i]);
      assert Contender(ss[i]);
    }
  }

  /** Two tables whose seats differ in the stacks only. */
  ghost predicate SameButStacks(ss: seq<Seat>, rs: seq<Seat>) {
    && |ss| == |rs|
    && forall i :: 0 <= i < |ss| ==> rs[i] == WithStack(ss[i], StackOf(rs[i]) - StackOf(ss[i]))
  }

  lemma {:induction false} SeatOfFromSame(ss: seq<Seat>, rs: seq<Seat>, id: PlayerId, k: nat)
    requires SameButStacks(ss, rs) && k <= |ss|
    ensures SeatOfFrom(ss, id, k) == SeatOfFrom(rs, id, k)
    decreases |ss| - k
  {
    if k < |ss| {
      assert rs[k] == WithStack(ss[k], StackOf(rs[k]) - StackOf(ss[k]));
      SeatOfFromSame(ss, rs, id, k + 1);
    }
  }

  lemma {:induction false} SeatsOfSame(ss: seq<Seat>, rs: seq<Seat>, ids: seq<PlayerId>)
    requires SameButStacks(ss, rs)
    ensures SeatsOf(ss, ids) == SeatsOf(rs, ids)
  {
    if |ids| > 0 {
      SeatOfFromSame(ss, rs, ids[0], 0);
      SeatsOfSame(ss, rs, ids[1..]);
    }
  }

  /** What seat `i` receives of the first `k` pots. */
  function Won(ss: seq<Seat>, button: int, pots: seq<SidePot>, tiers: seq<seq<PlayerId>>, k: nat, i: int): int
    requires 0 <= button < |ss| && k <= |pots|
  {
    if k == 0 then 0
    else Won(ss, button, pots, tiers, k - 1, i)
         + WonFromPot(ss, button, pots[k - 1].amount, ClaimOf(pots[k - 1].relevantPlayerIds, tiers), i)
  }

  lemma SameButStacksTrans(ss: seq<Seat>, rs: seq<Seat>, ts: seq<Seat>)
    requires SameButStacks(ss, rs) && SameButStacks(rs, ts)
    ensures SameButStacks(ss, ts)
  {
    forall i | 0 <= i < |ss| ensures ts[i] == WithStack(ss[i], StackOf(ts[i]) - StackOf(ss[i])) {
      assert rs[i] == WithStack(ss[i], StackOf(rs[i]) - StackOf(ss[i]));
    }
  }

  lemma SplitPotSame(ss: seq<Seat>, button: int, amount: int, winnerIds: seq<PlayerId>)
    requires 0 <= button < |ss| && 0 <= amount
    ensures SameButStacks(ss, SplitPot(ss, button, amount, winnerIds))
  {
    var r := SplitPot(ss, button, amount, winnerIds);
    forall i | 0 <= i < |ss| ensures r[i] == WithStack(ss[i], StackOf(r[i]) - StackOf(ss[i])) {
      SplitPotPays(ss, button, amount, winnerIds, i);
    }
  }

  lemma {:induction false} PayPotsSame(ss: seq<Seat>, button: int, pots: seq<SidePot>, tiers: seq<seq<PlayerId>>,
                                       k: nat)
    requires 0 <= button < |ss| && k <= |pots|
    requires forall q :: 0 <= q < |pots| ==> 0 <= pots[q].amount
    ensures SameButStacks(ss, PayPots(ss, button, pots, tiers, k))
  {
    if k > 0 {
      PayPotsSame(ss, button, pots, tiers, k - 1);
      var before := PayPots(ss, button, pots, tiers, k - 1);
      var claim := ClaimOf(pots[k - 1].relevantPlayerIds, tiers);
      SplitPotSame(before, button, pots[k - 1].amount, claim);
      SameButStacksTrans(ss, before, PayPots(ss, button, pots, tiers, k));
    }
  }

  /** The payout seat by seat: the stack grows by what was won, and nothing else changes. */
  lemma {:induction false} PayPotsPays(ss: seq<Seat>, button: int, pots: seq<SidePot>, tiers: seq<seq<PlayerId>>,
                                       k: nat, i: int)
    requires 0 <= button < |ss| && k <= |pots| && 0 <= i < |ss|
    requires forall q :: 0 <= q < |pots| ==> 0 <= pots[q].amount
    ensures PayPots(ss, button, pots, tiers, k)[i] == WithStack(ss[i], Won(ss, button, pots, tiers, k, i))
    ensures 0 <= Won(ss, button, pots, tiers, k, i)
  {
    if k > 0 {
      PayPotsPays(ss, button, pots, tiers, k - 1, i);
      PayPotsSame(ss, button, pots, tiers, k - 1);
      var before := PayPots(ss, button, pots, tiers, k - 1);
      var claim := ClaimOf(pots[k - 1].relevantPlayerIds, tiers);
      SeatsOfSame(ss, before, claim);
      SplitPotPays(before, button, pots[k - 1].amount, claim, i);
    }
  }

  /** If every claim finds a seat, the payout adds up to the pots. */
  lemma {:induction false} PayPotsSum(ss: seq<Seat>, button: int, pots: seq<SidePot>, tiers: seq<seq<PlayerId>>, k: nat)
    requires 0 <= button < |ss| && k <= |pots|
    requires forall q :: 0 <= q < |pots| ==>
               0 <= pots[q].amount && |SeatsOf(ss, ClaimOf(pots[q].relevantPlayerIds, tiers))| > 0
    ensures Sum(Stacks(PayPots(ss, button, pots, tiers, k))) == Sum(Stacks(ss)) + Sum(Amounts(pots[..k]))
  {
    if k > 0 {
      PayPotsSum(ss, button, pots, tiers, k - 1);
      PayPotsSame(ss, button, pots, tiers, k - 1);
      var before := PayPots(ss, button, pots, tiers, k - 1);
      var claim := ClaimOf(pots[k - 1].relevantPlayerIds, tiers);
      SeatsOfSame(ss, before, claim);
      SplitPotSum(before, button, pots[k - 1].amount, claim);
      assert Amounts(pots[..k])[..k - 1] == Amounts(pots[..k - 1]);
    }
  }

  lemma SidePotsNonNegative(ss: seq<Seat>)
    requires NonNegative(ss)
    ensures forall k :: 0 <= k < |SidePotsOf(ss)| ==> SidePotsOf(ss)[k].amount > 0
  {
    forall k | 0 <= k < |SidePotsOf(ss)| ensures SidePotsOf(ss)[k].amount > 0 {
      SidePotsArePositive(ss, k);
    }
  }

  /** A claim on a side pot always names somebody at the table. */
  lemma ClaimsAreSeated(ss: seq<Seat>, tiers: seq<seq<PlayerId>>, k: nat)
    requires k < |SidePotsOf(ss)| && |ClaimOf(SidePotsOf(ss)[k].relevantPlayerIds, tiers)| > 0
    ensures |SeatsOf(ss, ClaimOf(SidePotsOf(ss)[k].relevantPlayerIds, tiers))| > 0
  {
    var ids := SidePotsOf(ss)[k].relevantPlayerIds;
    var claim := ClaimOf(ids, tiers);
    ClaimIsBestTier(ids, tiers, claim[0]);
    assert claim[0] in claim;
    EligibleIdsExact(ss, Levels(ss)[k]);
    SeatsOfFinds(ss, claim);
  }

  /** The payout of a settled hand, in total. */
  lemma PayoutTotal(s: TableState, tiers: seq<seq<PlayerId>>)
    requires Refunded(s) && AllClaimed(SidePotsOf(s.seats), tiers)
    ensures var pots := SidePotsOf(s.seats);
            Sum(Stacks(PayPots(s.seats, s.buttonUser, pots, tiers, |pots|))) ==
            Sum(Stacks(s.seats)) + if SomeContender(s.seats) then s.pot else 0
  {
    var pots := SidePotsOf(s.seats);
    SidePotsNonNegative(s.seats);
    forall q | 0 <= q < |pots| ensures |SeatsOf(s.seats, ClaimOf(pots[q].relevantPlayerIds, tiers))| > 0 {
      ClaimsAreSeated(s.seats, tiers, q);
    }
    PayPotsSum(s.seats, s.buttonUser, pots, tiers, |pots|);
    assert pots[..|pots|] == pots;
    if SomeContender(s.seats) {
      SidePotsHoldEverything(s.seats);
    } else {
      LevelsAreTheContributions(s.seats);
      assert pots == [];
    }
  }

  lemma ResetStatusKeepsStacks(ss: seq<Seat>)
    ensures Stacks(ResetStatus(ss)) == Stacks(ss)
    ensures DistinctIds(ss) ==> DistinctIds(ResetStatus(ss))
  {
  }

  lemma SameButStacksKeepsIds(ss: seq<Seat>, rs: seq<Seat>)
    requires SameButStacks(ss, rs) && DistinctIds(ss)
    ensures DistinctIds(rs)
  {
  }

  lemma PaidStacksNonNegative(s: TableState, tiers: seq<seq<PlayerId>>)
    requires Refunded(s)
    ensures var pots := SidePotsOf(s.seats);
            var paid := PayPots(s.seats, s.buttonUser, pots, tiers, |pots|);
            && DistinctIds(paid)
            && forall i :: 0 <= i < |paid| ==> 0 <= StackOf(paid[i])
  {
    var pots := SidePotsOf(s.seats);
    SidePotsNonNegative(s.seats);
    PayPotsSame(s.seats, s.buttonUser, pots, tiers, |pots|);
    SameButStacksKeepsIds(s.seats, PayPots(s.seats, s.buttonUser, pots, tiers, |pots|));
    forall i | 0 <= i < |s.seats|
      ensures 0 <= StackOf(PayPots(s.seats, s.buttonUser, pots, tiers, |pots|)[i])
    {
      PayPotsPays(s.seats, s.buttonUser, pots, tiers, |pots|, i);
    }
  }

  /** What the table is worth after settling; the pot is lost exactly when nobody can win it. */
  lemma SettledChips(s: TableState, tiers: seq<seq<PlayerId>>)
    requires ShowdownInv(s) && Resolve(s, tiers).HandSettled?
    ensures var r := Resolve(s, tiers).state;
            && HandEndInv(r)
            && Chips(r) == Chips(s) - if SomeContender(Refund(s).seats) then 0 else Refund(s).pot
  {
    RefundKeeps(s);
    var refunded := Refund(s);
    PayoutTotal(refunded, tiers);
    PaidStacksNonNegative(refunded, tiers);
    var pots := SidePotsOf(refunded.seats);
    var paid := PayPots(refunded.seats, refunded.buttonUser, pots, tiers, |pots|);
    ResetStatusKeepsStacks(paid);
    assert Stacks(Resolve(s, tiers).state.seats) == Stacks(paid);
    forall i | 0 <= i < |paid| ensures 0 <= StackOf(ResetStatus(paid)[i]) {
      assert 0 <= StackOf(paid[i]);
    }
  }

  /**
   * Settlement conserves the chips if and only if some player still in the hand has put chips in,
   * or at most one player has put any in (whose bet then comes back uncalled).
   */
  lemma SettlementConservesIff(s: TableState, tiers: seq<seq<PlayerId>>)
    requires ShowdownInv(s) && Resolve(s, tiers).HandSettled?
    ensures Chips(Resolve(s, tiers).state) == Chips(s)
            <==> SomeContender(s.seats) || AtMostOneContributed(s.seats)
  {
    SettledChips(s, tiers);
    RefundKeeps(s);
    if AtMostOneContributed(s.seats) {
      RefundOfOne(s);
    } else {
      RefundOfMany(s);
    }
    if SomeContender(Refund(s).seats) && AtMostOneContributed(s.seats) {
      var i :| 0 <= i < |s.seats| && Contender(Refund(s).seats[i]);
      SumNonNegative(Contributions(Refund(s).seats));
      assert Contributions(Refund(s).seats)[i] > 0;
    }
  }
}

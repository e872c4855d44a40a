/** What the refund, the settlement, the clearing and a rebuy do, seat by seat. */
module SettleRules {
  import opened TableTypes
  import opened Sums
  import opened Ring
  import opened SidePots
  import opened TurnOrder
  import opened HandStart
  import opened Settlement
  import opened Showdown
  import opened Entitlements

  /** The largest contribution of anybody but seat `i`, 0 when there is none. */
  ghost predicate HighestOther(ss: seq<Seat>, i: int, c: int) {
    && (forall j :: 0 <= j < |ss| && j != i ==> Contributed(ss[j]) <= c)
    && (c == 0 || exists j :: 0 <= j < |ss| && j != i && Contributed(ss[j]) == c)
  }

  /** The same player with chips moved back from the pot, and nothing else about the seat changed. */
  predicate TookBack(x: Seat, y: Seat, amount: int) {
    if x.Taken?
    then y == Taken(x.player.(stack := x.player.stack + amount, totalContributed := x.player.totalContributed - amount))
    else y == x && amount == 0
  }

  lemma RefundOfSeat(s: TableState, i: nat, highest: int)
    requires ShowdownInv(s) && i < |s.seats| && HighestOther(s.seats, i, highest)
    ensures |Refund(s).seats| == |s.seats|
    ensures TookBack(s.seats[i], Refund(s).seats[i], Max(0, Contributed(s.seats[i]) - highest))
  {
    ShowdownNonNegative(s);
    assert 0 <= highest;
    var top := TopSeat(s.seats);
    if i == top {
      assert SecondHighest(s.seats, top) == highest;
    } else if top != -1 {
      assert Contributed(s.seats[top]) <= highest;
      assert Contributed(s.seats[i]) <= Contributed(s.seats[top]);
    }
    if s.seats[i].Taken? && (i != top || UncalledAmount(s.seats) == 0) {
      assert Refund(s).seats[i] == s.seats[i];
    }
  }

  /**
   * The refund. Everybody takes back exactly what nobody else has matched, which is nothing for all but
   * the highest contributor; the pot is what is left, and nothing else about the table changes.
   */
  lemma RefundIsWhatNobodyMatched(s: TableState, i: nat, highest: int)
    requires ShowdownInv(s) && i < |s.seats| && HighestOther(s.seats, i, highest)
    ensures var r := Refund(s);
            && |r.seats| == |s.seats|
            && TookBack(s.seats[i], r.seats[i], Max(0, Contributed(s.seats[i]) - highest))
            && r.pot == Sum(Contributions(r.seats))
            && r == s.(seats := r.seats, pot := r.pot)
  {
    RefundOfSeat(s, i, highest);
    RefundKeeps(s);
  }

  /** A settled seat: the stack has grown by what was won, and the three marks of the hand are gone. */
  predicate SettledSeat(x: Seat, y: Seat, won: int) {
    if x.Taken?
    then y == Taken(x.player.(stack := x.player.stack + won, hasFolded := false, hasChecked := false, isAllIn := false))
    else y == x
  }

  /** The settled table: the pot and the side pots are gone, the hand has ended, and no seat has moved. */
  lemma SettledTable(s: TableState, tiers: seq<seq<PlayerId>>, i: nat)
    requires ShowdownInv(s) && Resolve(s, tiers).HandSettled? && i < |s.seats|
    ensures var r := Resolve(s, tiers).state;
            && r == s.(seats := r.seats, pot := 0, sidePots := [], phase := HAND_END)
            && |r.seats| == |s.seats| == |Cut(s)|
            && 0 <= Won(Cut(s), s.buttonUser, SidePotsOf(Cut(s)), tiers, |SidePotsOf(Cut(s))|, i)
            && SettledSeat(Cut(s)[i], r.seats[i],
                           Won(Cut(s), s.buttonUser, SidePotsOf(Cut(s)), tiers, |SidePotsOf(Cut(s))|, i))
  {
    RefundKeeps(s);
    var pots := SidePotsOf(Cut(s));
    SidePotsNonNegative(Cut(s));
    PayPotsPays(Cut(s), s.buttonUser, pots, tiers, |pots|, i);
  }

  /** A refused nomination leaves the refunded hand, with its side pots cut, for the next one. */
  lemma RefusedTable(s: TableState, tiers: seq<seq<PlayerId>>)
    requires ShowdownInv(s) && Resolve(s, tiers).Unclaimed?
    ensures var r := Resolve(s, tiers).state;
            && r == s.(seats := Cut(s), pot := r.pot, sidePots := SidePotsOf(r.seats))
            && r.pot == Sum(Contributions(r.seats))
  {
    RefundKeeps(s);
  }

  /** Clearing for the next hand: whoever has chips keeps seat, name and stack, and the button stays. */
  lemma NextHandKeepsPlayers(s: TableState, i: nat)
    requires HandEndInv(s) && i < |s.seats|
    ensures var r := InitTable(s);
            && |r.seats| == |s.seats| && r.buttonUser == s.buttonUser && r.turn == s.turn && r.phase == WAITING
            && (if StackOf(s.seats[i]) > 0
                then r.seats[i] == Taken(TablePlayer(s.seats[i].player.id, s.seats[i].player.stack,
                                                     0, false, false, false, 0))
                else r.seats[i].Empty?)
  {
  }

  /** A rebuy puts its amount on the named player's stack and brings that player back in; no other seat changes. */
  lemma RebuyGoesToTheSeat(s: TableState, i: nat, amount: int)
    requires DistinctIds(s.seats) && i < |s.seats| && s.seats[i].Taken? && amount > 0
    ensures var r := ApplyRebuy(s, s.seats[i].player.id, amount);
            && |r.seats| == |s.seats| && r.pot == s.pot && r.phase == s.phase
            && r.seats[i].Taken? && r.seats[i].player.id == s.seats[i].player.id
            && StackOf(r.seats[i]) == StackOf(s.seats[i]) + amount && r.seats[i].player.bet == 0
            && !r.seats[i].player.hasFolded && !r.seats[i].player.isAllIn
            && r.seats[i].player.hasChecked == s.seats[i].player.hasChecked
            && r.seats[i].player.totalContributed == s.seats[i].player.totalContributed
            && forall k :: 0 <= k < |s.seats| && k != i ==> r.seats[k] == s.seats[k]
  {
    assert SeatOf(s.seats, s.seats[i].player.id) == i;
  }

  /** The winners who sit closer, clockwise from the seat after the button, than seat `i`. */
  function CloserWinners(seats: seq<int>, button: int, n: int, i: int): set<int>
    requires 0 <= button < n && 0 <= i < n && forall k :: 0 <= k < |seats| ==> 0 <= seats[k] < n
  {
    set w | w in seats && Dist(Succ(button, n), w, n) < Dist(Succ(button, n), i, n)
  }

  ghost predicate NoneTwice(xs: seq<int>) {
    forall a, b :: 0 <= a < b < |xs| ==> xs[a] != xs[b]
  }

  lemma {:induction false} SizeOfDistinct(xs: seq<int>)
    requires NoneTwice(xs)
    ensures |set x | x in xs| == |xs|
  {
    if |xs| > 0 {
      var n := |xs| - 1;
      SizeOfDistinct(xs[..n]);
      assert xs == xs[..n] + [xs[n]];
      assert (set x | x in xs) == (set x | x in xs[..n]) + {xs[n]};
      assert xs[n] !in xs[..n];
    }
  }

  /** In clockwise order the position of a winner is the number of winners who sit closer. */
  lemma PositionIsCloser(order: seq<int>, button: int, n: int, k: nat)
    requires 0 <= button < n && k < |order| && NoneTwice(order)
    requires (forall q :: 0 <= q < |order| ==> 0 <= order[q] < n) && Clockwise(order, button, n)
    ensures |CloserWinners(order, button, n, order[k])| == k
  {
    DistDistinct(Succ(button, n), n);
    assert CloserWinners(order, button, n, order[k]) == (set x | x in order[..k]) by {
      forall w | w in CloserWinners(order, button, n, order[k]) ensures w in order[..k] {
        var q :| 0 <= q < |order| && order[q] == w;
        assert q < k || FromButton(order[k], button, n) <= FromButton(order[q], button, n);
        assert order[..k][q] == w;
      }
      forall w | w in order[..k] ensures w in CloserWinners(order, button, n, order[k]) {
        var q :| 0 <= q < k && order[..k][q] == w;
        assert FromButton(order[q], button, n) <= FromButton(order[k], button, n);
        assert order[q] != order[k];
      }
    }
    SizeOfDistinct(order[..k]);
  }

  lemma CloserInAnyOrder(xs: seq<int>, ys: seq<int>, button: int, n: int, i: int)
    requires 0 <= button < n && 0 <= i < n && multiset(xs) == multiset(ys)
    requires (forall k :: 0 <= k < |xs| ==> 0 <= xs[k] < n) && forall k :: 0 <= k < |ys| ==> 0 <= ys[k] < n
    ensures CloserWinners(xs, button, n, i) == CloserWinners(ys, button, n, i)
  {
    assert forall w :: (w in xs <==> w in multiset(xs)) && (w in ys <==> w in multiset(ys));
  }

  /** In the order of payment: the share, and an odd chip while they last. */
  lemma PaidInOrder(seats: seq<int>, button: int, n: int, share: int, odd: int, i: int)
    requires 0 <= button < n && (forall k :: 0 <= k < |seats| ==> 0 <= seats[k] < n)
    requires NoneTwice(seats) && i in seats
    ensures PaidTo(ByButton(seats, button, n), share, odd, i) ==
            share + if |CloserWinners(seats, button, n, i)| < odd then 1 else 0
  {
    ByButtonSorts(seats, button, n);
    var order := ByButton(seats, button, n);
    NoRepeats(seats, order);
    assert i in multiset(seats) && i in multiset(order);
    var k :| 0 <= k < |order| && order[k] == i;
    CloserInAnyOrder(seats, order, button, n, i);
    PositionIsCloser(order, button, n, k);
    EvenSplit(order, share, odd, k);
  }

  /**
   * A winner's part of one pot, to the chip: the pot divided by the number of winners, and one of the odd
   * chips if fewer winners than there are odd chips sit closer clockwise from the button.
   */
  lemma WinnerGets(ss: seq<Seat>, button: int, amount: int, winnerIds: seq<PlayerId>, i: int)
    requires 0 <= button < |ss| && 0 <= amount && 0 <= i < |ss|
    requires NoneTwice(SeatsOf(ss, winnerIds)) && i in SeatsOf(ss, winnerIds)
    ensures var n := |SeatsOf(ss, winnerIds)|;
            && |SplitPot(ss, button, amount, winnerIds)| == |ss|
            && n > 0
            && StackOf(SplitPot(ss, button, amount, winnerIds)[i]) ==
               StackOf(ss[i]) + amount / n
               + if |CloserWinners(SeatsOf(ss, winnerIds), button, |ss|, i)| < amount % n then 1 else 0
  {
    var seats := SeatsOf(ss, winnerIds);
    OddChips(amount, |seats|);
    PaidInOrder(seats, button, |ss|, amount / |seats|, amount % |seats|, i);
    WonIsPaid(ss, button, amount, winnerIds, i, amount / |seats|, amount % |seats|);
    SplitPotPays(ss, button, amount, winnerIds, i);
  }

  lemma OddChips(amount: int, n: nat)
    requires n > 0
    ensures amount - amount / n * n == amount % n
  {
  }

  lemma WonIsPaid(ss: seq<Seat>, button: int, amount: int, winnerIds: seq<PlayerId>, i: int, share: int, odd: int)
    requires 0 <= button < |ss| && |SeatsOf(ss, winnerIds)| > 0
    requires share == amount / |SeatsOf(ss, winnerIds)| && odd == amount - share * |SeatsOf(ss, winnerIds)|
    ensures WonFromPot(ss, button, amount, winnerIds, i) ==
            PaidTo(ByButton(SeatsOf(ss, winnerIds), button, |ss|), share, odd, i)
  {
  }

  /** Whoever is not named gets nothing of it, and nothing but stacks changes. */
  lemma OthersGetNothing(ss: seq<Seat>, button: int, amount: int, winnerIds: seq<PlayerId>, i: int)
    requires 0 <= button < |ss| && 0 <= amount && 0 <= i < |ss|
    requires ss[i].Taken? ==> ss[i].player.id !in winnerIds
    ensures SplitPot(ss, button, amount, winnerIds)[i] == ss[i]
  {
    SplitPotPays(ss, button, amount, winnerIds, i);
  }
}

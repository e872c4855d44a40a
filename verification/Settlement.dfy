/** Settling a hand: the uncalled bet goes back, and every side pot goes to its best-ranked players. */
module Settlement {
  import opened Sums
  import opened TableTypes
  import opened Ring
  import opened SidePots
  import opened Betting
  import opened HandStart

  /** The first of the seats with the highest contribution, or -1 when nobody put chips in. */
  function TopSeat(ss: seq<Seat>): (r: int)
    ensures r == -1 || (0 <= r < |ss| && ss[r].Taken? && Contributed(ss[r]) > 0)
    ensures r == -1 ==> forall i :: 0 <= i < |ss| ==> Contributed(ss[i]) <= 0
    ensures r != -1 ==> forall i :: 0 <= i < |ss| ==> Contributed(ss[i]) <= Contributed(ss[r])
  {
    if |ss| == 0 then -1
    else
      var n := |ss| - 1;
      var r := TopSeat(ss[..n]);
      assert forall i :: 0 <= i < n ==> ss[..n][i] == ss[i];
      if Contributed(ss[n]) > (if r == -1 then 0 else Contributed(ss[r])) then n else r
  }

  /** The highest contribution besides that of seat `top`, 0 when there is none. */
  function SecondHighest(ss: seq<Seat>, top: int): (r: int)
    ensures 0 <= r
    ensures forall i :: 0 <= i < |ss| && i != top ==> Contributed(ss[i]) <= r
    ensures r == 0 || exists i :: 0 <= i < |ss| && i != top && Contributed(ss[i]) == r
  {
    if |ss| == 0 then 0
    else
      var n := |ss| - 1;
      var r := SecondHighest(ss[..n], top);
      assert forall i :: 0 <= i < n ==> ss[..n][i] == ss[i];
      if n != top && Contributed(ss[n]) > r then Contributed(ss[n]) else r
  }

  function UncalledAmount(ss: seq<Seat>): (r: int)
    ensures 0 <= r
  {
    var top := TopSeat(ss);
    if top == -1 then 0 else Max(0, Contributed(ss[top]) - SecondHighest(ss, top))
  }

  /** `refundUncalledBets`. */
  function Refund(s: TableState): TableState {
    var top := TopSeat(s.seats);
    var amount := UncalledAmount(s.seats);
    if top == -1 || amount == 0 then s
    else
      var p := s.seats[top].player;
      SetPlayer(s, top, p.(stack := p.stack + amount, totalContributed := p.totalContributed - amount))
      .(pot := s.pot - amount)
  }

  function EligibleOf(tier: seq<PlayerId>, ids: seq<PlayerId>): (r: seq<PlayerId>)
    ensures forall id :: id in r <==> id in tier && id in ids
  {
    if |tier| == 0 then []
    else if tier[0] in ids then [tier[0]] + EligibleOf(tier[1..], ids)
    else EligibleOf(tier[1..], ids)
  }

  /** The players a pot goes to: of the first tier that names somebody eligible, those eligible. */
  function ClaimOf(ids: seq<PlayerId>, tiers: seq<seq<PlayerId>>): seq<PlayerId> {
    if |tiers| == 0 then []
    else
      var group := EligibleOf(tiers[0], ids);
      if |group| > 0 then group else ClaimOf(ids, tiers[1..])
  }

  function SeatsOf(ss: seq<Seat>, ids: seq<PlayerId>): (r: seq<int>)
    ensures forall k :: 0 <= k < |r| ==> 0 <= r[k] < |ss| && ss[r[k]].Taken? && ss[r[k]].player.id in ids
  {
    if |ids| == 0 then []
    else
      var i := SeatOf(ss, ids[0]);
      if i == -1 then SeatsOf(ss, ids[1..]) else [i] + SeatsOf(ss, ids[1..])
  }

  /** Clockwise position counted from the seat after the button. */
  function FromButton(seat: int, button: int, n: int): int
    requires 0 <= button < n && 0 <= seat < n
  {
    Dist(Succ(button, n), seat, n)
  }

  /** The sort key of the source: a remainder, which for seats of the table is the clockwise distance. */
  lemma FromButtonIsMod(seat: int, button: int, n: int)
    requires 0 <= button < n && 0 <= seat < n
    ensures (seat - button - 1 + n) % n == FromButton(seat, button, n)
  {
    var d := FromButton(seat, button, n);
    SmallMod(d, n);
    if seat - button - 1 >= 0 {
      assert seat - button - 1 + n == d + n;
      assert (d + n) % n == d % n;
    }
  }

  function InsertByButton(order: seq<int>, seat: int, button: int, n: int): (r: seq<int>)
    requires 0 <= button < n && 0 <= seat < n && forall k :: 0 <= k < |order| ==> 0 <= order[k] < n
    ensures |r| == |order| + 1
    ensures forall k :: 0 <= k < |r| ==> 0 <= r[k] < n
  {
    if |order| == 0 then [seat]
    else if FromButton(seat, button, n) < FromButton(order[0], button, n) then [seat] + order
    else [order[0]] + InsertByButton(order[1..], seat, button, n)
  }

  /** The winners in the order in which odd chips are dealt out. */
  function ByButton(seats: seq<int>, button: int, n: int): (r: seq<int>)
    requires 0 <= button < n && forall k :: 0 <= k < |seats| ==> 0 <= seats[k] < n
    ensures |r| == |seats|
    ensures forall k :: 0 <= k < |r| ==> 0 <= r[k] < n
  {
    if |seats| == 0 then []
    else InsertByButton(ByButton(seats[..|seats| - 1], button, n), seats[|seats| - 1], button, n)
  }

  ghost predicate Clockwise(order: seq<int>, button: int, n: int)
    requires 0 <= button < n && forall k :: 0 <= k < |order| ==> 0 <= order[k] < n
  {
    forall a, b :: 0 <= a < b < |order| ==> FromButton(order[a], button, n) <= FromButton(order[b], button, n)
  }

  lemma {:induction false} InsertByButtonKeeps(order: seq<int>, seat: int, button: int, n: int)
    requires 0 <= button < n && 0 <= seat < n && forall k :: 0 <= k < |order| ==> 0 <= order[k] < n
    ensures multiset(InsertByButton(order, seat, button, n)) == multiset(order) + multiset{seat}
  {
    if |order| > 0 && FromButton(seat, button, n) >= FromButton(order[0], button, n) {
      InsertByButtonKeeps(order[1..], seat, button, n);
      assert order == [order[0]] + order[1..];
    }
  }

  lemma {:induction false} InsertByButtonSorts(order: seq<int>, seat: int, button: int, n: int)
    requires 0 <= button < n && 0 <= seat < n && forall k :: 0 <= k < |order| ==> 0 <= order[k] < n
    requires Clockwise(order, button, n)
    ensures Clockwise(InsertByButton(order, seat, button, n), button, n)
    ensures multiset(InsertByButton(order, seat, button, n)) == multiset(order) + multiset{seat}
  {
    InsertByButtonKeeps(order, seat, button, n);
    if |order| > 0 && FromButton(seat, button, n) >= FromButton(order[0], button, n) {
      var tail := InsertByButton(order[1..], seat, button, n);
      InsertByButtonSorts(order[1..], seat, button, n);
      forall k | 0 <= k < |tail| ensures FromButton(order[0], button, n) <= FromButton(tail[k], button, n) {
        assert tail[k] in multiset(tail);
        if tail[k] != seat {
          assert tail[k] in order[1..];
        }
      }
    }
  }

  /** Sorting loses no winner and puts them in clockwise order. */
  lemma {:induction false} ByButtonSorts(seats: seq<int>, button: int, n: int)
    requires 0 <= button < n && forall k :: 0 <= k < |seats| ==> 0 <= seats[k] < n
    ensures Clockwise(ByButton(seats, button, n), button, n)
    ensures multiset(ByButton(seats, button, n)) == multiset(seats)
  {
    if |seats| > 0 {
      var init := seats[..|seats| - 1];
      ByButtonSorts(init, button, n);
      InsertByButtonSorts(ByButton(init, button, n), seats[|seats| - 1], button, n);
      assert seats == init + [seats[|seats| - 1]];
    }
  }

  function WithStack(x: Seat, amount: int): Seat {
    if x.Taken? then Taken(x.player.(stack := x.player.stack + amount)) else x
  }

  /** The payout loop of `splitPot`. */
  function PayOrder(ss: seq<Seat>, order: seq<int>, share: int, remainder: int): (r: seq<Seat>)
    requires forall k :: 0 <= k < |order| ==> 0 <= order[k] < |ss|
    ensures |r| == |ss|
    decreases |order|
  {
    if |order| == 0 then ss
    else
      var extra := if remainder > 0 then 1 else 0;
      PayOrder(ss[order[0] := WithStack(ss[order[0]], share + extra)], order[1..], share, remainder - extra)
  }

  /** `splitPot`. */
  function SplitPot(ss: seq<Seat>, button: int, amount: int, winnerIds: seq<PlayerId>): (r: seq<Seat>)
    requires 0 <= button < |ss|
    ensures |r| == |ss|
  {
    var seats := SeatsOf(ss, winnerIds);
    if |seats| == 0 then ss
    else
      var share := amount / |seats|;
      PayOrder(ss, ByButton(seats, button, |ss|), share, amount - share * |seats|)
  }

  /** The payout of the first `k` pots. */
  function PayPots(ss: seq<Seat>, button: int, pots: seq<SidePot>, tiers: seq<seq<PlayerId>>, k: nat): (r: seq<Seat>)
    requires 0 <= button < |ss| && k <= |pots|
    ensures |r| == |ss|
  {
    if k == 0 then ss
    else SplitPot(PayPots(ss, button, pots, tiers, k - 1), button, pots[k - 1].amount,
                  ClaimOf(pots[k - 1].relevantPlayerIds, tiers))
  }

  predicate AllClaimed(pots: seq<SidePot>, tiers: seq<seq<PlayerId>>) {
    forall k :: 0 <= k < |pots| ==> |ClaimOf(pots[k].relevantPlayerIds, tiers)| > 0
  }

  function StatusReset(x: Seat): Seat {
    if x.Taken? then Taken(x.player.(hasFolded := false, hasChecked := false, isAllIn := false)) else x
  }

  function ResetStatus(ss: seq<Seat>): (r: seq<Seat>)
    ensures |r| == |ss|
    ensures forall i :: 0 <= i < |ss| ==> r[i] == StatusReset(ss[i])
  {
    seq(|ss|, i requires 0 <= i < |ss| => StatusReset(ss[i]))
  }

  /** The answer of `resolveWinner`; both refusals are exceptions, the second one after the refund. */
  datatype Settled = NotShowdown | Unclaimed(state: TableState) | HandSettled(state: TableState)

  /** `resolveWinner`. */
  function Resolve(s: TableState, tiers: seq<seq<PlayerId>>): Settled
    requires Shape(s)
  {
    if s.phase != SHOWDOWN then NotShowdown
    else
      var refunded := Refund(s);
      var pots := SidePotsOf(refunded.seats);
      if !AllClaimed(pots, tiers) then Unclaimed(refunded.(sidePots := pots))
      else
        HandSettled(refunded.(
          seats := ResetStatus(PayPots(refunded.seats, refunded.buttonUser, pots, tiers, |pots|)),
          pot := 0, sidePots := [], phase := HAND_END))
  }

  /** A pot's winners: eligible, named, and no better tier names anybody eligible. */
  lemma {:induction false} ClaimIsBestTier(ids: seq<PlayerId>, tiers: seq<seq<PlayerId>>, id: PlayerId)
    ensures id in ClaimOf(ids, tiers) <==>
            exists t :: 0 <= t < |tiers| && id in tiers[t] && id in ids
                        && forall b, other :: 0 <= b < t && other in tiers[b] ==> other !in ids
    ensures |ClaimOf(ids, tiers)| > 0 <==> exists t, x :: 0 <= t < |tiers| && x in tiers[t] && x in ids
  {
    if |tiers| > 0 {
      var group := EligibleOf(tiers[0], ids);
      var rest := tiers[1..];
      ClaimIsBestTier(ids, rest, id);
      if |group| > 0 {
        assert group[0] in group;
        if exists t :: 0 <= t < |tiers| && id in tiers[t] && id in ids
                       && forall b, other :: 0 <= b < t && other in tiers[b] ==> other !in ids {
          var t :| 0 <= t < |tiers| && id in tiers[t] && id in ids
                   && forall b, other :: 0 <= b < t && other in tiers[b] ==> other !in ids;
          assert t == 0;
        }
      } else {
        assert forall other :: other in tiers[0] && other in ids ==> other in group;
        assert forall t :: 0 <= t < |rest| ==> rest[t] == tiers[t + 1];
        if id in ClaimOf(ids, rest) {
          var t :| 0 <= t < |rest| && id in rest[t] && id in ids
                   && forall b, other :: 0 <= b < t && other in rest[b] ==> other !in ids;
          assert id in tiers[t + 1];
          forall b, other | 0 <= b < t + 1 && other in tiers[b] ensures other !in ids {
            if b > 0 {
              assert other in rest[b - 1];
            }
          }
        }
        if exists t :: 0 <= t < |tiers| && id in tiers[t] && id in ids
                       && forall b, other :: 0 <= b < t && other in tiers[b] ==> other !in ids {
          var t :| 0 <= t < |tiers| && id in tiers[t] && id in ids
                   && forall b, other :: 0 <= b < t && other in tiers[b] ==> other !in ids;
          assert id in rest[t - 1];
          forall b, other | 0 <= b < t - 1 && other in rest[b] ensures other !in ids {
            assert other in tiers[b + 1];
          }
        }
        if exists t, x :: 0 <= t < |tiers| && x in tiers[t] && x in ids {
          var t, x :| 0 <= t < |tiers| && x in tiers[t] && x in ids;
          assert x in rest[t - 1];
        }
        if |ClaimOf(ids, rest)| > 0 {
          var t, x :| 0 <= t < |rest| && x in rest[t] && x in ids;
          assert x in tiers[t + 1];
        }
      }
    }
  }

  /** How many chips seat `i` receives when `order` is paid. */
  function PaidTo(order: seq<int>, share: int, remainder: int, i: int): int
    decreases |order|
  {
    if |order| == 0 then 0
    else
      var extra := if remainder > 0 then 1 else 0;
      (if order[0] == i then share + extra else 0) + PaidTo(order[1..], share, remainder - extra, i)
  }

  lemma {:induction false} PayOrderPaysSeats(ss: seq<Seat>, order: seq<int>, share: int, remainder: int, i: int)
    requires forall k :: 0 <= k < |order| ==> 0 <= order[k] < |ss| && ss[order[k]].Taken?
    requires 0 <= i < |ss|
    ensures PayOrder(ss, order, share, remainder)[i] == WithStack(ss[i], PaidTo(order, share, remainder, i))
    decreases |order|
  {
    if |order| > 0 {
      var extra := if remainder > 0 then 1 else 0;
      var next := ss[order[0] := WithStack(ss[order[0]], share + extra)];
      PayOrderPaysSeats(next, order[1..], share, remainder - extra, i);
    }
  }

  /** The chips dealt to `n` winners in a row. */
  function Dealt(n: nat, share: int, remainder: int): int {
    if n == 0 then 0
    else
      var extra := if remainder > 0 then 1 else 0;
      share + extra + Dealt(n - 1, share, remainder - extra)
  }

  lemma {:induction false} DealtInTotal(n: nat, share: int, remainder: int)
    requires 0 <= remainder
    ensures Dealt(n, share, remainder) == share * n + Min(remainder, n)
  {
    if n > 0 {
      DealtInTotal(n - 1, share, remainder - (if remainder > 0 then 1 else 0));
      assert share * n == share * (n - 1) + share;
    }
  }

  lemma PaidSeatSum(ss: seq<Seat>, i: int, amount: int)
    requires 0 <= i < |ss| && ss[i].Taken?
    ensures Sum(Stacks(ss[i := WithStack(ss[i], amount)])) == Sum(Stacks(ss)) + amount
  {
    SeatUpdateSums(ss, i, WithStack(ss[i], amount));
  }

  lemma {:induction false} PayOrderPaysSum(ss: seq<Seat>, order: seq<int>, share: int, remainder: int)
    requires forall k :: 0 <= k < |order| ==> 0 <= order[k] < |ss| && ss[order[k]].Taken?
    ensures Sum(Stacks(PayOrder(ss, order, share, remainder))) == Sum(Stacks(ss)) + Dealt(|order|, share, remainder)
    decreases |order|
  {
    if |order| > 0 {
      var extra := if remainder > 0 then 1 else 0;
      var next := ss[order[0] := WithStack(ss[order[0]], share + extra)];
      PaidSeatSum(ss, order[0], share + extra);
      PayOrderPaysSum(next, order[1..], share, remainder - extra);
    }
  }

  lemma {:induction false} PaidToBounds(order: seq<int>, share: int, remainder: int, i: int)
    requires 0 <= share
    ensures 0 <= PaidTo(order, share, remainder, i) <= Dealt(|order|, share, remainder)
    ensures PaidTo(order, share, remainder, i) > 0 ==> i in order
    decreases |order|
  {
    if |order| > 0 {
      PaidToBounds(order[1..], share, remainder - (if remainder > 0 then 1 else 0), i);
    }
  }

  lemma {:induction false} SeatsOfFinds(ss: seq<Seat>, ids: seq<PlayerId>)
    ensures (exists i, k :: 0 <= i < |ss| && ss[i].Taken? && 0 <= k < |ids| && ids[k] == ss[i].player.id) ==>
            |SeatsOf(ss, ids)| > 0
  {
    if |ids| > 0 {
      SeatsOfFinds(ss, ids[1..]);
      if exists i, k :: 0 <= i < |ss| && ss[i].Taken? && 0 <= k < |ids| && ids[k] == ss[i].player.id {
        var i, k :| 0 <= i < |ss| && ss[i].Taken? && 0 <= k < |ids| && ids[k] == ss[i].player.id;
        if k > 0 {
          assert ids[1..][k - 1] == ss[i].player.id;
        }
      }
    }
  }

  /** What seat `i` receives of one pot. */
  function WonFromPot(ss: seq<Seat>, button: int, amount: int, winnerIds: seq<PlayerId>, i: int): int
    requires 0 <= button < |ss|
  {
    var seats := SeatsOf(ss, winnerIds);
    if |seats| == 0 then 0
    else
      var share := amount / |seats|;
      PaidTo(ByButton(seats, button, |ss|), share, amount - share * |seats|, i)
  }

  /** Equal shares and the odd chips together are the whole amount. */
  lemma SplitDealsAll(amount: int, n: int)
    requires 0 <= amount && 0 < n
    ensures 0 <= amount / n
    ensures Dealt(n, amount / n, amount - amount / n * n) == amount
  {
    DealtInTotal(n, amount / n, amount - amount / n * n);
  }

  lemma WinnersInOrder(ss: seq<Seat>, button: int, winnerIds: seq<PlayerId>) returns (order: seq<int>)
    requires 0 <= button < |ss|
    ensures order == ByButton(SeatsOf(ss, winnerIds), button, |ss|)
    ensures forall k :: 0 <= k < |order| ==>
            0 <= order[k] < |ss| && ss[order[k]].Taken? && ss[order[k]].player.id in winnerIds
  {
    var seats := SeatsOf(ss, winnerIds);
    ByButtonSorts(seats, button, |ss|);
    order := ByButton(seats, button, |ss|);
    forall k | 0 <= k < |order| ensures ss[order[k]].Taken? && ss[order[k]].player.id in winnerIds {
      assert order[k] in multiset(order);
      assert order[k] in seats;
    }
  }

  /** Paying one pot changes nothing but stacks, and only the named winners receive anything. */
  lemma SplitPotPays(ss: seq<Seat>, button: int, amount: int, winnerIds: seq<PlayerId>, i: int)
    requires 0 <= button < |ss| && 0 <= amount && 0 <= i < |ss|
    ensures var w := WonFromPot(ss, button, amount, winnerIds, i);
            && SplitPot(ss, button, amount, winnerIds)[i] == WithStack(ss[i], w)
            && 0 <= w <= amount
            && (w > 0 ==> ss[i].Taken? && ss[i].player.id in winnerIds)
  {
    var n := |SeatsOf(ss, winnerIds)|;
    if n > 0 {
      var order := WinnersInOrder(ss, button, winnerIds);
      SplitDealsAll(amount, n);
      PayOrderPaysSeats(ss, order, amount / n, amount - amount / n * n, i);
      PaidToBounds(order, amount / n, amount - amount / n * n, i);
    }
  }

  /** Every chip of the pot is paid out. */
  lemma SplitPotSum(ss: seq<Seat>, button: int, amount: int, winnerIds: seq<PlayerId>)
    requires 0 <= button < |ss| && 0 <= amount && |SeatsOf(ss, winnerIds)| > 0
    ensures Sum(Stacks(SplitPot(ss, button, amount, winnerIds))) == Sum(Stacks(ss)) + amount
  {
    var n := |SeatsOf(ss, winnerIds)|;
    var order := WinnersInOrder(ss, button, winnerIds);
    SplitDealsAll(amount, n);
    PayOrderPaysSum(ss, order, amount / n, amount - amount / n * n);
  }
}

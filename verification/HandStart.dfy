/** Between hands: dealing the blinds and antes (`startPreFlop`), rebuys, and clearing the table. */
module HandStart {
  import opened Sums
  import opened TableTypes
  import opened Ring
  import opened Betting
  import opened TurnOrder

  datatype StartOutcome = CannotStart | Started(state: TableState)

  /** `p && !p.hasFolded && p.stack > 0`. */
  predicate HasChips(x: Seat) {
    InHand(x) && x.player.stack > 0
  }

  function ActiveCount(ss: seq<Seat>): (c: nat)
    ensures c <= |ss|
  {
    if |ss| == 0 then 0
    else ActiveCount(ss[..|ss| - 1]) + if HasChips(ss[|ss| - 1]) then 1 else 0
  }

  /** One seat of `payAnte`: the ante goes through `executeBet`, and does not count as a bet. */
  function AnteAt(s: TableState, i: int): TableState
    requires 0 <= i < |s.seats|
  {
    if !InHand(s.seats[i]) then s
    else
      var paid := ExecuteBet(s, i, s.ante);
      SetPlayer(paid, i, paid.seats[i].player.(bet := 0))
  }

  /** `payAnte` over the first `k` seats. */
  function PayAnteUpTo(s: TableState, k: nat): (r: TableState)
    requires k <= |s.seats|
    ensures |r.seats| == |s.seats| && r.ante == s.ante
    ensures forall i :: 0 <= i < |s.seats| ==> (r.seats[i].Taken? <==> s.seats[i].Taken?)
  {
    if k == 0 then s else AnteAt(PayAnteUpTo(s, k - 1), k - 1)
  }

  /** Heads-up the button posts the small blind, otherwise the seat after it. */
  function SmallBlindSeat(ss: seq<Seat>, button: int): (r: int)
    requires 0 <= button < |ss| && Live(ss[button])
    ensures r == -1 || (0 <= r < |ss| && Live(ss[r]))
  {
    if ActiveCount(ss) == 2 then button else NextLive(ss, Succ(button, |ss|))
  }

  /** The blinds, the bet to call and the first turn, once button, antes and seats are settled. */
  function PostBlinds(s: TableState, sb: int, bb: int): TableState
    requires SeatTaken(s, sb) && SeatTaken(s, bb)
  {
    var posted := ExecuteBet(ExecuteBet(s, sb, s.smallBlind), bb, s.smallBlind * 2);
    var ready := posted.(currentBet := s.smallBlind * 2,
                          lastRaiseSize := Some(s.smallBlind * 2),
                          turn := NextLive(posted.seats, Succ(bb, |posted.seats|)),
                          phase := PRE_FLOP);
    if ShouldGoToShowdown(ready) then ToShowdown(ready) else ready
  }

  function WithAntes(s: TableState): (r: TableState)
    ensures |r.seats| == |s.seats|
    ensures forall i :: 0 <= i < |s.seats| ==> (r.seats[i].Taken? <==> s.seats[i].Taken?)
  {
    if s.ante > 0 then PayAnteUpTo(s, |s.seats|) else s
  }

  lemma AnteAtShape(s: TableState, i: int)
    requires 0 <= i < |s.seats|
    ensures AnteAt(s, i) ==
            s.(seats := s.seats[i := Anted(s.seats[i], s.ante)],
               pot := s.pot + Contributed(Anted(s.seats[i], s.ante)) - Contributed(s.seats[i]))
    ensures StackOf(Anted(s.seats[i], s.ante)) + Contributed(Anted(s.seats[i], s.ante))
            == StackOf(s.seats[i]) + Contributed(s.seats[i])
  {
    if !InHand(s.seats[i]) {
      assert s.seats[i := s.seats[i]] == s.seats;
    }
  }

  /** `payAnte` seat by seat: the first `k` seats have paid, into the pot and nowhere else. */
  lemma {:induction false} AntesSeatBySeat(s: TableState, k: nat)
    requires k <= |s.seats|
    ensures var r := PayAnteUpTo(s, k);
            && r == s.(seats := r.seats, pot := r.pot)
            && (forall i :: k <= i < |s.seats| ==> r.seats[i] == s.seats[i])
            && (forall i :: 0 <= i < k ==> r.seats[i] == Anted(s.seats[i], s.ante))
            && r.pot - s.pot == Sum(Contributions(r.seats)) - Sum(Contributions(s.seats))
            && Chips(r) == Chips(s)
  {
    if k > 0 {
      AntesSeatBySeat(s, k - 1);
      var q := PayAnteUpTo(s, k - 1);
      AnteAtShape(q, k - 1);
      SeatUpdateSums(q.seats, k - 1, Anted(q.seats[k - 1], q.ante));
    }
  }

  function Anted(x: Seat, ante: int): Seat {
    if InHand(x) then Taken(Paid(x.player, ante).(bet := 0)) else x
  }

  /** `startPreFlop`, with the level's blind and ante already in the state. */
  function StartPreFlop(s: TableState): StartOutcome
    requires Shape(s)
  {
    if ActiveCount(s.seats) < 2 then CannotStart
    else
      var button := NextLive(s.seats, Succ(s.buttonUser, |s.seats|));
      if button == -1 then CannotStart
      else
        var sb := SmallBlindSeat(s.seats, button);
        var bb := if sb == -1 then -1 else NextLive(s.seats, Succ(sb, |s.seats|));
        if sb == -1 || bb == -1 then CannotStart
        else Started(PostBlinds(WithAntes(s.(buttonUser := button)), sb, bb))
  }

  /** A seat between hands: chips in front of it, and nothing left over from the last hand. */
  ghost predicate SeatReady(x: Seat) {
    x.Taken? ==>
      && x.player.stack > 0 && x.player.bet == 0 && x.player.totalContributed == 0
      && !x.player.hasFolded && !x.player.hasChecked && !x.player.isAllIn
  }

  ghost predicate HandReady(s: TableState) {
    && Shape(s)
    && s.phase == WAITING
    && DistinctIds(s.seats)
    && s.pot == 0
    && forall i :: 0 <= i < |s.seats| ==> SeatReady(s.seats[i])
  }

  ghost predicate TwoHaveChips(ss: seq<Seat>) {
    exists i, j :: 0 <= i < j < |ss| && HasChips(ss[i]) && HasChips(ss[j])
  }

  lemma {:induction false} ActiveCountOne(ss: seq<Seat>)
    ensures ActiveCount(ss) >= 1 <==> exists i :: 0 <= i < |ss| && HasChips(ss[i])
  {
    if |ss| > 0 {
      var n := |ss| - 1;
      ActiveCountOne(ss[..n]);
      assert forall i :: 0 <= i < n ==> ss[..n][i] == ss[i];
    }
  }

  lemma {:induction false} ActiveCountTwo(ss: seq<Seat>)
    ensures ActiveCount(ss) >= 2 <==> TwoHaveChips(ss)
  {
    if |ss| > 0 {
      var n := |ss| - 1;
      ActiveCountTwo(ss[..n]);
      ActiveCountOne(ss[..n]);
      assert forall i :: 0 <= i < n ==> ss[..n][i] == ss[i];
      if ActiveCount(ss) >= 2 && !TwoHaveChips(ss[..n]) {
        var i :| 0 <= i < n && HasChips(ss[..n][i]);
        assert HasChips(ss[i]) && HasChips(ss[n]);
      } else if TwoHaveChips(ss[..n]) {
        var i, j :| 0 <= i < j < n && HasChips(ss[..n][i]) && HasChips(ss[..n][j]);
        assert HasChips(ss[i]) && HasChips(ss[j]);
      }
    }
  }

  /** With three or more stacks there is one besides any two given seats. */
  lemma {:induction false} ActiveCountThree(ss: seq<Seat>, a: int, b: int) returns (w: int)
    requires ActiveCount(ss) >= 3
    ensures 0 <= w < |ss| && HasChips(ss[w]) && w != a && w != b
  {
    var n := |ss| - 1;
    if HasChips(ss[n]) && n != a && n != b {
      w := n;
    } else if ActiveCount(ss[..n]) >= 3 {
      w := ActiveCountThree(ss[..n], a, b);
    } else {
      ActiveCountTwo(ss[..n]);
      var i, j :| 0 <= i < j < n && HasChips(ss[..n][i]) && HasChips(ss[..n][j]);
      w := if i == a || i == b then j else i;
    }
  }

  /** The search from the next seat never comes back to `k` while somebody else is live. */
  lemma NextLiveOther(ss: seq<Seat>, k: int, w: int)
    requires 0 <= k < |ss| && 0 <= w < |ss| && w != k && Live(ss[w])
    ensures var r := NextLive(ss, Succ(k, |ss|));
            0 <= r < |ss| && r != k && Live(ss[r])
            && (forall i :: 0 <= i < |ss| && 0 < Dist(k, i, |ss|) < Dist(k, r, |ss|) ==> !Live(ss[i]))
  {
    NextLiveIsFirst(ss, Succ(k, |ss|));
    DistFromSucc(k, |ss|);
  }

  /** A seat after the antes and before the blinds. */
  ghost predicate SeatAnted(x: Seat) {
    x.Taken? ==>
      && 0 <= x.player.stack && x.player.bet == 0 && 0 <= x.player.totalContributed
      && !x.player.hasFolded && !x.player.hasChecked
      && (x.player.isAllIn <==> x.player.stack == 0)
      && x.player.stack + x.player.totalContributed > 0
  }

  ghost predicate AntesPaid(s: TableState) {
    && Shape(s) && DistinctIds(s.seats)
    && s.pot == Sum(Contributions(s.seats))
    && forall i :: 0 <= i < |s.seats| ==> SeatAnted(s.seats[i])
  }

  lemma WithAntesPaid(s: TableState)
    requires HandReady(s) && 0 <= s.ante
    ensures AntesPaid(WithAntes(s)) && Chips(WithAntes(s)) == Chips(s)
    ensures WithAntes(s) == s.(seats := WithAntes(s).seats, pot := WithAntes(s).pot)
    ensures s.ante > 0 ==> forall i :: 0 <= i < |s.seats| && WithAntes(s).seats[i].Taken? ==>
            WithAntes(s).seats[i].player.totalContributed > 0
    ensures s.ante == 0 ==> WithAntes(s) == s
  {
    AntesSeatBySeat(s, |s.seats|);
    assert forall i :: 0 <= i < |s.seats| ==> SeatReady(s.seats[i]);
    assert forall i :: 0 <= i < |s.seats| ==> Contributions(s.seats)[i] == 0;
    SumConstant(Contributions(s.seats), 0);
  }

  lemma ExecuteBetKeepsSums(s: TableState, i: int, amount: int)
    requires SeatTaken(s, i)
    ensures var r := ExecuteBet(s, i, amount);
            && r == s.(seats := s.seats[i := Taken(Paid(s.seats[i].player, amount))], pot := r.pot)
            && r.pot - Sum(Contributions(r.seats)) == s.pot - Sum(Contributions(s.seats))
            && Chips(r) == Chips(s)
  {
    SeatUpdateSums(s.seats, i, Taken(Paid(s.seats[i].player, amount)));
  }

  function BlindsPosted(s: TableState, sb: int, bb: int): (r: TableState)
    requires SeatTaken(s, sb) && SeatTaken(s, bb)
    ensures |r.seats| == |s.seats|
  {
    ExecuteBet(ExecuteBet(s, sb, s.smallBlind), bb, s.smallBlind * 2)
  }

  lemma BlindsPostedKeep(s: TableState, sb: int, bb: int)
    requires AntesPaid(s) && SeatTaken(s, sb) && SeatTaken(s, bb) && sb != bb && s.smallBlind > 0
    ensures var r := BlindsPosted(s, sb, bb);
            && r == s.(seats := r.seats, pot := r.pot)
            && r.seats == s.seats[sb := Taken(Paid(s.seats[sb].player, s.smallBlind))]
                                 [bb := Taken(Paid(s.seats[bb].player, s.smallBlind * 2))]
            && r.pot == Sum(Contributions(r.seats)) && Chips(r) == Chips(s)
            && DistinctIds(r.seats)
            && (forall i :: 0 <= i < |r.seats| ==> SeatOk(r.seats[i], s.smallBlind * 2))
            && (forall i :: 0 <= i < |r.seats| && r.seats[i].Taken? ==>
                  !r.seats[i].player.hasFolded && !r.seats[i].player.hasChecked)
  {
    var first := ExecuteBet(s, sb, s.smallBlind);
    ExecuteBetKeepsSums(s, sb, s.smallBlind);
    ExecuteBetKeepsSums(first, bb, s.smallBlind * 2);
    assert SeatAnted(s.seats[sb]) && SeatAnted(s.seats[bb]);
  }

  lemma PostBlindsInv(s: TableState, sb: int, bb: int)
    requires AntesPaid(s) && SeatTaken(s, sb) && SeatTaken(s, bb) && sb != bb && s.smallBlind > 0
    ensures var r := PostBlinds(s, sb, bb);
            (BettingInv(r) || ShowdownInv(r)) && Chips(r) == Chips(s)
  {
    BlindsPostedKeep(s, sb, bb);
    var posted := BlindsPosted(s, sb, bb);
    var ready := posted.(currentBet := s.smallBlind * 2,
                         lastRaiseSize := Some(s.smallBlind * 2),
                         turn := NextLive(posted.seats, Succ(bb, |posted.seats|)),
                         phase := PRE_FLOP);
    assert HandInv(ready);
    assert InHand(ready.seats[bb]);
    if !ShouldGoToShowdown(ready) {
      NextLiveIsFirst(posted.seats, Succ(bb, |posted.seats|));
      SomeoneCanAct(ready);
      assert forall k :: 0 <= k < |ready.seats| && Live(ready.seats[k]) ==> Owes(ready.seats[k], ready.currentBet);
    }
  }

  lemma SomeoneCanAct(s: TableState)
    requires HandInv(s) && !ShouldGoToShowdown(s)
    ensures exists i :: 0 <= i < |s.seats| && Live(s.seats[i])
  {
    if AtMostOneCanAct(s.seats) {
      var i :| 0 <= i < |s.seats| && CanAct(s.seats[i]) && s.seats[i].player.bet != s.currentBet;
      assert SeatOk(s.seats[i], s.currentBet) && Live(s.seats[i]);
    } else {
      var i, j :| 0 <= i < j < |s.seats| && CanAct(s.seats[i]) && CanAct(s.seats[j]);
      assert SeatOk(s.seats[i], s.currentBet) && Live(s.seats[i]);
    }
  }

  /** Where `startPreFlop` puts button and blinds. */
  ghost predicate BlindSeats(ss: seq<Seat>, button: int, sb: int, bb: int) {
    && 0 <= button < |ss| && 0 <= sb < |ss| && 0 <= bb < |ss|
    && Live(ss[button]) && Live(ss[sb]) && Live(ss[bb]) && sb != bb
    && (ActiveCount(ss) == 2 ==> sb == button)
    && (ActiveCount(ss) >= 3 ==>
          && button != sb && button != bb
          && Dist(button, sb, |ss|) < Dist(button, bb, |ss|)
          && forall i :: 0 <= i < |ss| && Live(ss[i]) && i != button && i != sb ==>
                Dist(button, bb, |ss|) <= Dist(button, i, |ss|))
  }

  lemma BlindsConsecutive(s: TableState, button: int, sb: int, bb: int)
    requires HandReady(s) && ActiveCount(s.seats) >= 3
    requires 0 <= button < |s.seats| && Live(s.seats[button])
    requires sb == NextLive(s.seats, Succ(button, |s.seats|)) && 0 <= sb < |s.seats|
    requires bb == NextLive(s.seats, Succ(sb, |s.seats|)) && 0 <= bb < |s.seats|
    requires sb != button && sb != bb
    ensures BlindSeats(s.seats, button, sb, bb)
  {
    var n := |s.seats|;
    var w := ActiveCountThree(s.seats, button, sb);
    assert SeatReady(s.seats[w]);
    NextLiveOther(s.seats, button, w);
    NextLiveOther(s.seats, sb, w);
    DistRebase(button, sb, n);
    DistDistinct(button, n);
    assert Dist(button, sb, n) < Dist(button, w, n);
    forall i | 0 <= i < n && Live(s.seats[i]) && i != button && i != sb
      ensures Dist(button, sb, n) < Dist(button, i, n)
      ensures Dist(sb, bb, n) <= Dist(sb, i, n)
    {
    }
  }

  /** With two stacks seated there is a button, and two distinct blinds. */
  lemma ButtonAndBlinds(s: TableState) returns (button: int, sb: int, bb: int)
    requires HandReady(s) && TwoHaveChips(s.seats)
    ensures button == NextLive(s.seats, Succ(s.buttonUser, |s.seats|)) && 0 <= button < |s.seats|
    ensures sb == SmallBlindSeat(s.seats, button) && 0 <= sb < |s.seats|
    ensures bb == NextLive(s.seats, Succ(sb, |s.seats|))
    ensures BlindSeats(s.seats, button, sb, bb)
  {
    var i, j :| 0 <= i < j < |s.seats| && HasChips(s.seats[i]) && HasChips(s.seats[j]);
    assert SeatReady(s.seats[i]) && SeatReady(s.seats[j]);
    NextLiveIsFirst(s.seats, Succ(s.buttonUser, |s.seats|));
    button := NextLive(s.seats, Succ(s.buttonUser, |s.seats|));
    NextLiveOther(s.seats, button, if i == button then j else i);
    sb := SmallBlindSeat(s.seats, button);
    NextLiveOther(s.seats, sb, if i == sb then j else i);
    bb := NextLive(s.seats, Succ(sb, |s.seats|));
    ActiveCountTwo(s.seats);
    if ActiveCount(s.seats) >= 3 {
      BlindsConsecutive(s, button, sb, bb);
    }
  }

  /**
   * A hand starts exactly when two stacks are seated, and nobody posts twice: heads-up the button
   * is the small blind, otherwise button and blinds are three consecutive live seats.
   */
  lemma StartSeats(s: TableState) returns (button: int, sb: int, bb: int)
    requires HandReady(s)
    ensures StartPreFlop(s).Started? <==> TwoHaveChips(s.seats)
    ensures StartPreFlop(s).Started? ==>
              && BlindSeats(s.seats, button, sb, bb)
              && SeatTaken(WithAntes(s.(buttonUser := button)), sb)
              && SeatTaken(WithAntes(s.(buttonUser := button)), bb)
              && StartPreFlop(s).state == PostBlinds(WithAntes(s.(buttonUser := button)), sb, bb)
  {
    ActiveCountTwo(s.seats);
    if TwoHaveChips(s.seats) {
      button, sb, bb := ButtonAndBlinds(s);
    } else {
      button, sb, bb := -1, -1, -1;
    }
  }

  /** Starting a hand: a street waiting for a seat that owes, or a showdown; no chip is lost. */
  lemma StartKeepsOrder(s: TableState)
    requires HandReady(s) && s.smallBlind > 0 && 0 <= s.ante && StartPreFlop(s).Started?
    ensures var r := StartPreFlop(s).state;
            (BettingInv(r) || ShowdownInv(r)) && Chips(r) == Chips(s)
  {
    var button, sb, bb := StartSeats(s);
    var s0 := s.(buttonUser := button);
    assert HandReady(s0);
    WithAntesPaid(s0);
    PostBlindsInv(WithAntes(s0), sb, bb);
  }

  function SeatForNextHand(x: Seat): Seat {
    if x.Taken? && x.player.stack > 0
    then Taken(x.player.(bet := 0, totalContributed := 0, hasFolded := false, isAllIn := false, hasChecked := false))
    else Empty
  }

  function SeatsForNextHand(ss: seq<Seat>): (r: seq<Seat>)
    ensures |r| == |ss|
    ensures forall i :: 0 <= i < |ss| ==> r[i] == SeatForNextHand(ss[i])
  {
    seq(|ss|, i requires 0 <= i < |ss| => SeatForNextHand(ss[i]))
  }

  /** `initTable`. */
  function InitTable(s: TableState): TableState {
    s.(seats := SeatsForNextHand(s.seats), pot := 0, currentBet := 0, lastRaiseSize := None,
       sidePots := [], actionDeadline := None, phase := WAITING)
  }

  /** A settled hand: the pot is empty and nobody's stack is negative. */
  ghost predicate HandEndInv(s: TableState) {
    && Shape(s)
    && s.phase == HAND_END
    && s.turn == -1
    && DistinctIds(s.seats)
    && s.pot == 0
    && forall i :: 0 <= i < |s.seats| ==> 0 <= StackOf(s.seats[i])
  }

  /** Clearing the table removes exactly the empty stacks and keeps every chip. */
  lemma InitTableReady(s: TableState)
    requires HandEndInv(s)
    ensures HandReady(InitTable(s)) && Chips(InitTable(s)) == Chips(s)
    ensures forall i :: 0 <= i < |s.seats| ==>
              StackOf(InitTable(s).seats[i]) == StackOf(s.seats[i])
              && (InitTable(s).seats[i].Taken? <==> StackOf(s.seats[i]) > 0)
  {
    assert Stacks(InitTable(s).seats) == Stacks(s.seats);
  }

  /** The seat of a player, or -1. */
  function SeatOf(ss: seq<Seat>, id: PlayerId): (r: int)
    ensures r == -1 || (0 <= r < |ss| && ss[r].Taken? && ss[r].player.id == id)
    ensures r == -1 ==> forall i :: 0 <= i < |ss| && ss[i].Taken? ==> ss[i].player.id != id
  {
    SeatOfFrom(ss, id, 0)
  }

  /** `findIndex(p => p?.id === id)`. */
  function SeatOfFrom(ss: seq<Seat>, id: PlayerId, k: nat): (r: int)
    requires k <= |ss|
    ensures r == -1 || (k <= r < |ss| && ss[r].Taken? && ss[r].player.id == id)
    ensures r == -1 ==> forall i :: k <= i < |ss| && ss[i].Taken? ==> ss[i].player.id != id
    decreases |ss| - k
  {
    if k == |ss| then -1
    else if ss[k].Taken? && ss[k].player.id == id then k
    else SeatOfFrom(ss, id, k + 1)
  }

  /** `applyRebuy`. */
  function ApplyRebuy(s: TableState, id: PlayerId, amount: int): TableState {
    var i := SeatOf(s.seats, id);
    if amount <= 0 || i == -1 then s
    else SetPlayer(s, i,
      s.seats[i].player.(stack := s.seats[i].player.stack + amount, bet := 0, hasFolded := false, isAllIn := false))
  }

  lemma ApplyRebuyAdds(s: TableState, id: PlayerId, amount: int)
    requires HandEndInv(s)
    ensures HandEndInv(ApplyRebuy(s, id, amount))
    ensures Chips(ApplyRebuy(s, id, amount)) ==
            Chips(s) + if amount > 0 && SeatOf(s.seats, id) != -1 then amount else 0
  {
    var i := SeatOf(s.seats, id);
    if amount > 0 && i != -1 {
      SeatUpdateSums(s.seats, i, ApplyRebuy(s, id, amount).seats[i]);
      forall k | 0 <= k < |s.seats| ensures 0 <= StackOf(ApplyRebuy(s, id, amount).seats[k]) {
        assert 0 <= StackOf(s.seats[k]);
      }
    }
  }
}

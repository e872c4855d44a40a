/** What dealing a hand does, seat by seat: the button, who posts what, and who is first to act. */
module DealRules {
  import opened TableTypes
  import opened Sums
  import opened Ring
  import opened Betting
  import opened TurnOrder
  import opened HandStart
  import opened TurnRules

  function AnteOf(x: Seat, ante: int): int {
    if ante > 0 then Min(StackOf(x), ante) else 0
  }

  /** What seat `k` posts as a blind, out of what the ante has left it. */
  function BlindOf(s: TableState, sb: int, bb: int, k: nat): int
    requires k < |s.seats|
  {
    var rest := StackOf(s.seats[k]) - AnteOf(s.seats[k], s.ante);
    if k == sb then Min(rest, s.smallBlind) else if k == bb then Min(rest, s.smallBlind * 2) else 0
  }

  /** Seat `k` after the deal: ante and blind have left the stack, and only the blind is a bet. */
  ghost predicate Dealt(s: TableState, r: TableState, sb: int, bb: int, k: nat)
    requires k < |s.seats| == |r.seats|
  {
    && (r.seats[k].Taken? <==> s.seats[k].Taken?)
    && (s.seats[k].Taken? ==>
          var p, q := s.seats[k].player, r.seats[k].player;
          var ante, blind := AnteOf(s.seats[k], s.ante), BlindOf(s, sb, bb, k);
          && q.id == p.id && q.stack == p.stack - ante - blind && q.bet == blind
          && q.totalContributed == ante + blind
          && !q.hasFolded && !q.hasChecked && (q.isAllIn <==> q.stack == 0))
  }

  /** The blinds follow the button; with two players the button is the small blind. */
  ghost predicate BlindsAfterButton(ss: seq<Seat>, button: int, sb: int, bb: int)
    requires 0 <= button < |ss| && 0 <= sb < |ss| && 0 <= bb < |ss|
  {
    && sb != bb && FirstLive(ss, Succ(sb, |ss|), bb)
    && (if exists k :: 0 <= k < |ss| && k != sb && k != bb && Live(ss[k])
        then button != sb && button != bb && FirstLive(ss, Succ(button, |ss|), sb)
        else sb == button)
  }

  lemma AntedSeat(s: TableState, k: nat)
    requires HandReady(s) && k < |s.seats|
    ensures |WithAntes(s).seats| == |s.seats|
    ensures var x, y := s.seats[k], WithAntes(s).seats[k];
            && (y.Taken? <==> x.Taken?)
            && (x.Taken? ==>
                  && y.player.id == x.player.id && y.player.bet == 0 && !y.player.hasFolded && !y.player.hasChecked
                  && y.player.stack == x.player.stack - AnteOf(x, s.ante)
                  && y.player.totalContributed == AnteOf(x, s.ante)
                  && (s.ante >= 0 ==> (y.player.isAllIn <==> y.player.stack == 0)))
  {
    AntesSeatBySeat(s, |s.seats|);
    assert SeatReady(s.seats[k]);
  }

  lemma PostedSeat(s: TableState, sb: int, bb: int, k: nat)
    requires SeatTaken(s, sb) && SeatTaken(s, bb) && sb != bb && k < |s.seats|
    ensures var r := PostBlinds(s, sb, bb);
            && |r.seats| == |s.seats|
            && r.seats[k] == (if k == sb then Taken(Paid(s.seats[sb].player, s.smallBlind))
                              else if k == bb then Taken(Paid(s.seats[bb].player, s.smallBlind * 2))
                              else s.seats[k])
            && r.currentBet == s.smallBlind * 2 && r.buttonUser == s.buttonUser
            && (r.phase == PRE_FLOP || r.phase == SHOWDOWN)
            && (r.phase == PRE_FLOP ==> r.turn == NextLive(r.seats, Succ(bb, |r.seats|)))
            && (r.phase == SHOWDOWN ==> r.turn == -1)
  {
  }

  lemma DealtSeat(s: TableState, button: int, sb: int, bb: int, k: nat)
    requires HandReady(s) && 0 <= s.ante && s.smallBlind > 0 && k < |s.seats|
    requires 0 <= button < |s.seats| && 0 <= sb < |s.seats| && 0 <= bb < |s.seats| && sb != bb
    requires SeatTaken(s, sb) && SeatTaken(s, bb)
    ensures var anted := WithAntes(s.(buttonUser := button));
            && SeatTaken(anted, sb) && SeatTaken(anted, bb)
            && |PostBlinds(anted, sb, bb).seats| == |s.seats|
            && Dealt(s, PostBlinds(anted, sb, bb), sb, bb, k)
  {
    var s0 := s.(buttonUser := button);
    assert HandReady(s0);
    AntedSeat(s0, k);
    AntedSeat(s0, sb);
    AntedSeat(s0, bb);
    WithAntesPaid(s0);
    PostedSeat(WithAntes(s0), sb, bb, k);
  }

  lemma BlindsFollow(s: TableState, button: int, sb: int, bb: int)
    requires HandReady(s) && BlindSeats(s.seats, button, sb, bb)
    requires sb == SmallBlindSeat(s.seats, button) && bb == NextLive(s.seats, Succ(sb, |s.seats|))
    ensures BlindsAfterButton(s.seats, button, sb, bb)
  {
    NextLiveIsFirstLive(s.seats, Succ(sb, |s.seats|));
    ActiveCountTwo(s.seats);
    if k :| 0 <= k < |s.seats| && k != sb && k != bb && Live(s.seats[k]) {
      ThirdMeansThree(s, sb, bb, k);
      NextLiveIsFirstLive(s.seats, Succ(button, |s.seats|));
    } else {
      ThreeMeansThird(s, sb, bb);
      TwoMeansTwo(s.seats, Min(sb, bb), Max(sb, bb));
    }
  }

  lemma ThreeMeansThird(s: TableState, a: int, b: int)
    requires HandReady(s)
    ensures ActiveCount(s.seats) >= 3 ==> exists k :: 0 <= k < |s.seats| && k != a && k != b && Live(s.seats[k])
  {
    if ActiveCount(s.seats) >= 3 {
      var w := ActiveCountThree(s.seats, a, b);
      assert SeatReady(s.seats[w]) && Live(s.seats[w]);
    }
  }

  lemma TwoMeansTwo(ss: seq<Seat>, i: int, j: int)
    requires 0 <= i < j < |ss| && HasChips(ss[i]) && HasChips(ss[j])
    ensures ActiveCount(ss) >= 2
  {
    ActiveCountTwo(ss);
  }

  lemma {:induction false} CountOfOthers(ss: seq<Seat>, i: int, j: int, k: int)
    requires 0 <= i < j < k < |ss| && HasChips(ss[i]) && HasChips(ss[j]) && HasChips(ss[k])
    ensures ActiveCount(ss) >= 3
  {
    var n := |ss| - 1;
    if k < n {
      CountOfOthers(ss[..n], i, j, k);
    } else {
      TwoMeansTwo(ss[..n], i, j);
    }
  }

  lemma ThirdMeansThree(s: TableState, a: int, b: int, c: int)
    requires HandReady(s) && 0 <= a < |s.seats| && 0 <= b < |s.seats| && 0 <= c < |s.seats|
    requires a != b && a != c && b != c && Live(s.seats[a]) && Live(s.seats[b]) && Live(s.seats[c])
    ensures ActiveCount(s.seats) >= 3
  {
    var lo, hi := Min(a, Min(b, c)), Max(a, Max(b, c));
    var mid := a + b + c - lo - hi;
    CountOfOthers(s.seats, lo, mid, hi);
  }

  /**
   * The deal. A hand starts exactly when two stacks are seated. The button moves to the first live seat
   * after the old one, the blinds follow it, every seat pays its ante and its blind or all it has, the bet
   * to match is the big blind, and the first live seat after the big blind is to act, unless nobody has
   * anything to decide and it is a showdown at once.
   */
  lemma HandIsDealt(s: TableState) returns (sb: int, bb: int)
    requires HandReady(s) && s.smallBlind > 0 && 0 <= s.ante
    ensures StartPreFlop(s).Started? <==> TwoHaveChips(s.seats)
    ensures StartPreFlop(s).Started? ==>
              var r := StartPreFlop(s).state;
              && |r.seats| == |s.seats| && 0 <= sb < |s.seats| && 0 <= bb < |s.seats|
              && FirstLive(s.seats, Succ(s.buttonUser, |s.seats|), r.buttonUser)
              && BlindsAfterButton(s.seats, r.buttonUser, sb, bb)
              && (forall k :: 0 <= k < |s.seats| ==> Dealt(s, r, sb, bb, k))
              && r.currentBet == s.smallBlind * 2
              && (r.phase == PRE_FLOP || (r.phase == SHOWDOWN && r.turn == -1))
              && (r.phase == PRE_FLOP ==> FirstLive(r.seats, Succ(bb, |r.seats|), r.turn))
              && (r.phase == PRE_FLOP <==> SomebodyDecides(r))
  {
    ActiveCountTwo(s.seats);
    if TwoHaveChips(s.seats) {
      var button;
      button, sb, bb := ButtonAndBlinds(s);
      NextLiveIsFirstLive(s.seats, Succ(s.buttonUser, |s.seats|));
      BlindsFollow(s, button, sb, bb);
      forall k | 0 <= k < |s.seats|
        ensures |StartPreFlop(s).state.seats| == |s.seats| && Dealt(s, StartPreFlop(s).state, sb, bb, k)
      {
        DealtSeat(s, button, sb, bb, k);
      }
      DealtFirst(s, button, sb, bb);
    } else {
      sb, bb := -1, -1;
    }
  }

  /** Who is first to act in the dealt hand, if anybody is. */
  lemma DealtFirst(s: TableState, button: int, sb: int, bb: int)
    requires HandReady(s) && s.smallBlind > 0 && 0 <= s.ante && StartPreFlop(s).Started?
    requires button == NextLive(s.seats, Succ(s.buttonUser, |s.seats|)) && 0 <= button < |s.seats|
    requires sb == SmallBlindSeat(s.seats, button) && 0 <= sb < |s.seats|
    requires bb == NextLive(s.seats, Succ(sb, |s.seats|)) && 0 <= bb < |s.seats| && sb != bb
    ensures var r := StartPreFlop(s).state;
            && |r.seats| == |s.seats| && r.buttonUser == button && r.currentBet == s.smallBlind * 2
            && (r.phase == PRE_FLOP || (r.phase == SHOWDOWN && r.turn == -1))
            && (r.phase == PRE_FLOP ==> FirstLive(r.seats, Succ(bb, |r.seats|), r.turn))
            && (r.phase == PRE_FLOP <==> SomebodyDecides(r))
  {
    var s0 := s.(buttonUser := button);
    assert HandReady(s0);
    WithAntesPaid(s0);
    PostedSeat(WithAntes(s0), sb, bb, bb);
    StartKeepsOrder(s);
    var r := StartPreFlop(s).state;
    assert HandInv(r);
    if r.phase == PRE_FLOP {
      NextLiveIsFirstLive(r.seats, Succ(bb, |r.seats|));
      OwingDecides(r, r.turn);
    } else {
      PostedShowdown(WithAntes(s0), sb, bb);
    }
  }

  /** A hand that is a showdown at once has two players in it, and nobody with anything to decide. */
  lemma PostedShowdown(s: TableState, sb: int, bb: int)
    requires AntesPaid(s) && SeatTaken(s, sb) && SeatTaken(s, bb) && sb != bb && s.smallBlind > 0
    requires PostBlinds(s, sb, bb).phase == SHOWDOWN && HandInv(PostBlinds(s, sb, bb))
    ensures !SomebodyDecides(PostBlinds(s, sb, bb))
  {
    BlindsPostedKeep(s, sb, bb);
    var r := PostBlinds(s, sb, bb);
    assert InHand(r.seats[Min(sb, bb)]) && InHand(r.seats[Max(sb, bb)]);
    assert TwoInHand(r.seats);
    if SomebodyDecides(r) {
      var k :| 0 <= k < |r.seats| && ToDecide(r.seats, r.seats, r.currentBet, k);
      ToDecideMeansNoShowdown(r, k);
      assert false;
    }
  }
}

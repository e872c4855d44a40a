/**
 * Who acts next and when the betting ends, in terms of the seats alone: the seat that opens a street, the
 * seat after the one that acted, the order of the streets, and what ends a street or the hand.
 */
module TurnRules {
  import opened TableTypes
  import opened Sums
  import opened Ring
  import opened SidePots
  import opened Betting
  import opened TurnOrder
  import opened RaiseRules
  import opened ActionRules

  /** The first seat clockwise from `start` that can still act. */
  ghost predicate FirstLive(ss: seq<Seat>, start: int, t: int)
    requires 0 <= start < |ss|
  {
    && 0 <= t < |ss| && Live(ss[t])
    && forall k :: 0 <= k < |ss| && Live(ss[k]) ==> Dist(start, t, |ss|) <= Dist(start, k, |ss|)
  }

  lemma NextLiveIsFirstLive(ss: seq<Seat>, start: int)
    requires 0 <= start < |ss| && NextLive(ss, start) != -1
    ensures FirstLive(ss, start, NextLive(ss, start))
  {
    NextLiveIsFirst(ss, start);
  }

  /** The streets in their order. */
  predicate NextStreet(before: GamePhase, after: GamePhase) {
    || (before == PRE_FLOP && after == FLOP)
    || (before == FLOP && after == GamePhase.TURN)
    || (before == GamePhase.TURN && after == RIVER)
  }

  /** A street as it opens: nobody has bet or checked, and the first live seat after the button is to act. */
  ghost predicate OpensAfterButton(s: TableState, r: TableState) {
    && Shape(r) && NextStreet(s.phase, r.phase) && r.buttonUser == s.buttonUser
    && FirstLive(r.seats, Succ(r.buttonUser, |r.seats|), r.turn)
    && r.currentBet == 0 && r.lastRaiseSize == Some(r.smallBlind * 2)
    && forall k :: 0 <= k < |r.seats| && r.seats[k].Taken? ==>
          r.seats[k].player.bet == 0 && !r.seats[k].player.hasChecked
  }

  lemma NextPhaseOpens(s: TableState)
    requires Shape(s) && BettingPhase(s.phase) && s.phase != RIVER && 0 <= NextPhase(s).turn
    ensures OpensAfterButton(s, NextPhase(s))
  {
    var ss := NewStreet(s.seats);
    NextLiveIsFirstLive(ss, Succ(s.buttonUser, |ss|));
    forall k | 0 <= k < |ss| && ss[k].Taken? ensures ss[k].player.bet == 0 && !ss[k].player.hasChecked {
      assert ss[k] == StreetCleared(s.seats[k]);
    }
  }

  lemma AdvanceOpens(s: TableState, wasTurn: bool)
    requires Shape(s) && BettingPhase(s.phase) && (wasTurn ==> 0 <= s.turn)
    requires Advance(s, wasTurn).phase != s.phase && BettingInv(Advance(s, wasTurn))
    ensures OpensAfterButton(s, Advance(s, wasTurn))
  {
    NewPhaseIsNext(s, wasTurn);
    NextPhaseOpens(s);
  }

  lemma SameStart(s: TableState, m: TableState, r: TableState)
    requires OpensAfterButton(m, r) && m.phase == s.phase && m.buttonUser == s.buttonUser
    ensures OpensAfterButton(s, r)
  {
  }

  /**
   * Whichever action leads from one street to a later one, the later street is the next one, and it waits
   * for the first live seat clockwise after the button.
   */
  lemma StreetOpensAfterButton(s: TableState, i: int, action: ActionType, amount: Option<int>)
    requires BettingInv(s) && Act(s, i, action, amount).Applied?
    requires var r := Act(s, i, action, amount).state; r.phase != s.phase && BettingPhase(r.phase)
    ensures OpensAfterButton(s, Act(s, i, action, amount).state)
  {
    ActKeepsOrder(s, i, action, amount);
    if DealerAction(action) {
      AdvanceOpens(Folded(s, i), s.turn == i);
      SameStart(s, Folded(s, i), Act(s, i, action, amount).state);
    } else {
      var m := Play(s, i, action, amount).state;
      PlayTakesTurn(s, action, amount);
      PlayKeepsButton(s, action, amount);
      AdvanceOpens(m, true);
      SameStart(s, m, Act(s, i, action, amount).state);
    }
  }

  lemma PlayKeepsButton(s: TableState, action: ActionType, amount: Option<int>)
    requires BettingInv(s) && !DealerAction(action) && Play(s, s.turn, action, amount).Done?
    ensures Play(s, s.turn, action, amount).state.buttonUser == s.buttonUser
  {
    if action == RAISE {
      RaiseShape(s, amount.value);
    }
  }

  /** Within a street the turn goes from the seat that acted to the first live seat after it. */
  lemma TurnGoesClockwise(s: TableState, action: ActionType, amount: Option<int>)
    requires BettingInv(s) && Act(s, s.turn, action, amount).Applied?
    requires Act(s, s.turn, action, amount).state.phase == s.phase
    ensures var r := Act(s, s.turn, action, amount).state;
            |r.seats| == |s.seats| && FirstLive(r.seats, Succ(s.turn, |s.seats|), r.turn)
  {
    ActKeepsOrder(s, s.turn, action, amount);
    if DealerAction(action) {
      AdvanceStays(Folded(s, s.turn));
    } else {
      PlayTakesTurn(s, action, amount);
      AdvanceStays(Play(s, s.turn, action, amount).state);
    }
  }

  lemma AdvanceStays(s: TableState)
    requires Shape(s) && BettingPhase(s.phase) && 0 <= s.turn
    requires Advance(s, true).phase == s.phase && 0 <= Advance(s, true).turn
    ensures var r := Advance(s, true);
            |r.seats| == |s.seats| && FirstLive(r.seats, Succ(s.turn, |s.seats|), r.turn)
  {
    WaysOn(s, NextLive(s.seats, Succ(s.turn, |s.seats|)));
    NextLiveIsFirstLive(s.seats, Succ(s.turn, |s.seats|));
  }

  /** A turn that stands at a seat already out is passed on, whatever that seat sends; no chip moves. */
  lemma FoldedTurnIsPassedOn(s: TableState, action: ActionType, amount: Option<int>)
    requires Shape(s) && BettingPhase(s.phase) && SeatTaken(s, s.turn) && s.seats[s.turn].player.hasFolded
    requires !DealerAction(action)
    ensures Act(s, s.turn, action, amount).Applied?
    ensures var r := Act(s, s.turn, action, amount).state;
            && |r.seats| == |s.seats| && r.pot == s.pot
            && (forall k :: 0 <= k < |s.seats| ==> SamePlayer(s.seats[k], r.seats[k]))
            && (r.phase == s.phase && r.turn != -1 ==> FirstLive(r.seats, Succ(s.turn, |s.seats|), r.turn))
  {
    AdvanceMovesNobody(s, true);
    var r := Advance(s, true);
    if r.phase == s.phase && 0 <= r.turn {
      AdvanceStays(s);
    }
  }

  /** A dealer fold of another seat leaves the turn where it is. */
  lemma OutOfTurnKeepsTheTurn(s: TableState, i: int, action: ActionType, amount: Option<int>)
    requires BettingInv(s) && DealerAction(action) && SeatTaken(s, i) && i != s.turn
    ensures Act(s, i, action, amount).Applied?
    ensures var r := Act(s, i, action, amount).state;
            (r.phase == s.phase && r.turn == s.turn) || (r.phase == SHOWDOWN && r.turn == -1)
  {
    FoldOutOfTurn(s, i);
  }

  ghost predicate TwoInHand(ss: seq<Seat>) {
    exists a, b :: 0 <= a < b < |ss| && InHand(ss[a]) && InHand(ss[b])
  }

  ghost predicate TwoCanActHere(ss: seq<Seat>) {
    exists a, b :: 0 <= a < b < |ss| && CanAct(ss[a]) && CanAct(ss[b])
  }

  ghost predicate AnotherCanAct(ss: seq<Seat>, k: int) {
    exists m :: 0 <= m < |ss| && m != k && CanAct(ss[m])
  }

  /**
   * Seat `k` has something left to decide: it owes chips, or it has not acted and somebody else could still
   * answer. `before` holds the bets and the check marks, `ss` who is still in and able to act.
   */
  ghost predicate ToDecide(before: seq<Seat>, ss: seq<Seat>, bet: int, k: int)
    requires 0 <= k < |ss| == |before|
  {
    && before[k].Taken? && Live(ss[k])
    && (before[k].player.bet < bet || (!before[k].player.hasChecked && AnotherCanAct(ss, k)))
  }

  /** Somebody other than seat `i` has something left to decide. */
  ghost predicate OthersDecide(before: seq<Seat>, ss: seq<Seat>, bet: int, i: int)
    requires |ss| == |before|
  {
    exists k :: 0 <= k < |ss| && k != i && ToDecide(before, ss, bet, k)
  }

  lemma NotShowdownMeans(s: TableState)
    requires HandInv(s) && !ShouldGoToShowdown(s)
    ensures TwoInHand(s.seats)
    ensures TwoCanActHere(s.seats)
         || exists k :: 0 <= k < |s.seats| && Live(s.seats[k]) && s.seats[k].player.bet < s.currentBet
  {
    if AtMostOneCanAct(s.seats) {
      var k :| 0 <= k < |s.seats| && CanAct(s.seats[k]) && s.seats[k].player.bet != s.currentBet;
      assert SeatOk(s.seats[k], s.currentBet);
    }
  }

  lemma ToDecideMeansNoShowdown(s: TableState, k: int)
    requires HandInv(s) && TwoInHand(s.seats) && 0 <= k < |s.seats|
    requires ToDecide(s.seats, s.seats, s.currentBet, k)
    ensures !ShouldGoToShowdown(s) && Owes(s.seats[k], s.currentBet)
  {
    if AnotherCanAct(s.seats, k) {
      var m :| 0 <= m < |s.seats| && m != k && CanAct(s.seats[m]);
      assert CanAct(s.seats[Min(m, k)]) && CanAct(s.seats[Max(m, k)]);
    }
  }

  /** In a street that goes on, somebody has something left to decide. */
  lemma OwingDecides(s: TableState, t: int)
    requires HandInv(s) && !ShouldGoToShowdown(s) && 0 <= t < |s.seats| && Owes(s.seats[t], s.currentBet)
    ensures exists k :: 0 <= k < |s.seats| && ToDecide(s.seats, s.seats, s.currentBet, k)
  {
    NotShowdownMeans(s);
    if TwoCanActHere(s.seats) {
      var a, b :| 0 <= a < b < |s.seats| && CanAct(s.seats[a]) && CanAct(s.seats[b]);
      assert CanAct(s.seats[if a == t then b else a]);
      assert ToDecide(s.seats, s.seats, s.currentBet, t);
    } else {
      var k :| 0 <= k < |s.seats| && Live(s.seats[k]) && s.seats[k].player.bet < s.currentBet;
      assert ToDecide(s.seats, s.seats, s.currentBet, k);
    }
  }

  ghost predicate SomebodyDecides(s: TableState) {
    exists k :: 0 <= k < |s.seats| && ToDecide(s.seats, s.seats, s.currentBet, k)
  }

  /** A turn handed on stays in the street if and only if two are in and somebody has something to decide. */
  lemma HandedOnGoesOnIff(m: TableState)
    requires TurnTaken(m)
    ensures Advance(m, true).phase == m.phase <==> TwoInHand(m.seats) && SomebodyDecides(m)
  {
    var next := NextLive(m.seats, Succ(m.turn, |m.seats|));
    WaysOn(m, next);
    AdvanceAfterTurn(m);
    if TwoInHand(m.seats) && SomebodyDecides(m) {
      var k :| 0 <= k < |m.seats| && ToDecide(m.seats, m.seats, m.currentBet, k);
      ToDecideMeansNoShowdown(m, k);
      NextLiveIsFirst(m.seats, Succ(m.turn, |m.seats|));
      assert !ShouldGoToNextPhase(m, next);
    } else if Advance(m, true).phase == m.phase {
      NotShowdownMeans(m);
      OwingDecides(m, Advance(m, true).turn);
    }
  }

  /** The same when the turn stays where it is. */
  lemma KeptGoesOnIff(m: TableState)
    requires HandInv(m) && BettingPhase(m.phase) && 0 <= m.turn && Owes(m.seats[m.turn], m.currentBet)
    ensures Advance(m, false).phase == m.phase <==> TwoInHand(m.seats) && SomebodyDecides(m)
    ensures Advance(m, false).phase == m.phase || Advance(m, false).phase == SHOWDOWN
  {
    assert SeatOk(m.seats[m.turn], m.currentBet) && CanAct(m.seats[m.turn]);
    assert !ShouldGoToNextPhase(m, m.turn);
    if TwoInHand(m.seats) && SomebodyDecides(m) {
      var k :| 0 <= k < |m.seats| && ToDecide(m.seats, m.seats, m.currentBet, k);
      ToDecideMeansNoShowdown(m, k);
    } else if !ShouldGoToShowdown(m) {
      NotShowdownMeans(m);
      OwingDecides(m, m.turn);
    }
  }

  /** A street that is over leads to the showdown after the river, or when fewer than two are in or can act. */
  lemma HandedOnEndsIff(m: TableState)
    requires TurnTaken(m) && Advance(m, true).phase != m.phase
    ensures Advance(m, true).phase == SHOWDOWN <==>
              m.phase == RIVER || !TwoInHand(m.seats) || !TwoCanActHere(m.seats)
  {
    var next := NextLive(m.seats, Succ(m.turn, |m.seats|));
    WaysOn(m, next);
    if !ShouldGoToShowdown(m) {
      NotShowdownMeans(m);
      assert AllMatched(m);
    }
  }

  /** The table between an action of seat `i` and the end of its turn. */
  ghost predicate Between(s: TableState, m: TableState, i: int) {
    && |m.seats| == |s.seats| && 0 <= i < |s.seats| && m.phase == s.phase
    && (forall k :: 0 <= k < |s.seats| && k != i ==>
          && SamePlayer(s.seats[k], m.seats[k])
          && (s.seats[k].Taken? ==>
                && m.seats[k].player.bet == s.seats[k].player.bet
                && (m.seats[k].player.hasChecked == s.seats[k].player.hasChecked
                    || s.seats[k].player.bet < m.currentBet)))
    && !ToDecide(m.seats, m.seats, m.currentBet, i)
  }

  lemma SameStanding(ss: seq<Seat>, rs: seq<Seat>)
    requires |ss| == |rs| && forall k :: 0 <= k < |ss| ==> SamePlayer(ss[k], rs[k])
    ensures TwoInHand(ss) <==> TwoInHand(rs)
    ensures TwoCanActHere(ss) <==> TwoCanActHere(rs)
    ensures forall k :: AnotherCanAct(ss, k) <==> AnotherCanAct(rs, k)
  {
    assert forall k :: 0 <= k < |ss| ==> (InHand(ss[k]) <==> InHand(rs[k])) && (CanAct(ss[k]) <==> CanAct(rs[k]));
    forall k ensures AnotherCanAct(ss, k) <==> AnotherCanAct(rs, k) {
      if AnotherCanAct(ss, k) {
        var m :| 0 <= m < |ss| && m != k && CanAct(ss[m]);
        assert CanAct(rs[m]);
      }
      if AnotherCanAct(rs, k) {
        var m :| 0 <= m < |rs| && m != k && CanAct(rs[m]);
        assert CanAct(ss[m]);
      }
    }
  }

  lemma DecidesBefore(s: TableState, m: TableState, rs: seq<Seat>, i: int)
    requires Between(s, m, i) && |rs| == |m.seats|
    requires forall k :: 0 <= k < |rs| ==> SamePlayer(m.seats[k], rs[k])
    ensures SomebodyDecides(m) <==> OthersDecide(s.seats, rs, m.currentBet, i)
  {
    SameStanding(m.seats, rs);
    forall k | 0 <= k < |rs| && k != i
      ensures ToDecide(m.seats, m.seats, m.currentBet, k) <==> ToDecide(s.seats, rs, m.currentBet, k)
    {
      assert SamePlayer(s.seats[k], m.seats[k]) && SamePlayer(m.seats[k], rs[k]);
    }
    if SomebodyDecides(m) {
      var k :| 0 <= k < |m.seats| && ToDecide(m.seats, m.seats, m.currentBet, k);
      assert k != i && ToDecide(s.seats, rs, m.currentBet, k);
    }
    if OthersDecide(s.seats, rs, m.currentBet, i) {
      var k :| 0 <= k < |rs| && k != i && ToDecide(s.seats, rs, m.currentBet, k);
      assert ToDecide(m.seats, m.seats, m.currentBet, k);
    }
  }

  /** The bet everybody has to match after the action. */
  function BetToMatch(s: TableState, action: ActionType, amount: Option<int>): int
    requires SeatTaken(s, s.turn)
  {
    var p := s.seats[s.turn].player;
    if action == RAISE && amount.Some? then Max(s.currentBet, p.bet + Min(amount.value - p.bet, p.stack))
    else s.currentBet
  }

  lemma FoldedBetween(s: TableState, i: int)
    requires HandInv(s) && SeatTaken(s, i)
    ensures Between(s, Folded(s, i), i)
  {
  }

  lemma TurnTakenBetween(s: TableState, m: TableState)
    requires BettingInv(s) && TurnTaken(m) && m.turn == s.turn && m.phase == s.phase && |m.seats| == |s.seats|
    requires m.currentBet == s.currentBet
    requires forall k :: 0 <= k < |s.seats| && k != s.turn ==> m.seats[k] == s.seats[k]
    ensures Between(s, m, s.turn)
  {
  }

  /** A raise may take back check marks, and only of seats that have not matched it. */
  lemma RaisedOthers(s: TableState, amount: int, k: int)
    requires BettingInv(s) && HandleRaise(s, s.turn, amount).Done? && 0 <= k < |s.seats| && k != s.turn
    ensures var m := HandleRaise(s, s.turn, amount).state;
            && |m.seats| == |s.seats| && SamePlayer(s.seats[k], m.seats[k])
            && (s.seats[k].Taken? ==>
                  && m.seats[k].player.bet == s.seats[k].player.bet
                  && (m.seats[k].player.hasChecked == s.seats[k].player.hasChecked
                      || s.seats[k].player.bet < m.currentBet))
  {
    RaiseShape(s, amount);
    assert SeatOk(s.seats[k], s.currentBet);
  }

  lemma RaisedToMatch(s: TableState, amount: int)
    requires BettingInv(s) && HandleRaise(s, s.turn, amount).Done?
    ensures var m := HandleRaise(s, s.turn, amount).state;
            && m.currentBet == BetToMatch(s, RAISE, Some(amount)) && m.phase == s.phase && m.turn == s.turn
  {
    RaiseShape(s, amount);
  }

  lemma RaisedBetween(s: TableState, m: TableState, amount: int)
    requires BettingInv(s) && HandleRaise(s, s.turn, amount) == Done(m) && TurnTaken(m)
    ensures Between(s, m, s.turn) && m.currentBet == BetToMatch(s, RAISE, Some(amount))
  {
    RaisedToMatch(s, amount);
    RaisedOthersAll(s, m, amount);
  }

  lemma RaisedOthersAll(s: TableState, m: TableState, amount: int)
    requires BettingInv(s) && HandleRaise(s, s.turn, amount) == Done(m)
    ensures |m.seats| == |s.seats|
    ensures forall k :: 0 <= k < |s.seats| && k != s.turn ==>
              && SamePlayer(s.seats[k], m.seats[k])
              && (s.seats[k].Taken? ==>
                    && m.seats[k].player.bet == s.seats[k].player.bet
                    && (m.seats[k].player.hasChecked == s.seats[k].player.hasChecked
                        || s.seats[k].player.bet < m.currentBet))
  {
    RaiseShape(s, amount);
    forall k | 0 <= k < |s.seats| && k != s.turn
      ensures SamePlayer(s.seats[k], m.seats[k])
      ensures s.seats[k].Taken? ==> m.seats[k].player.bet == s.seats[k].player.bet
      ensures s.seats[k].Taken? ==> m.seats[k].player.hasChecked == s.seats[k].player.hasChecked
                                    || s.seats[k].player.bet < m.currentBet
    {
      RaisedOthers(s, amount, k);
    }
  }

  lemma PlayedBetween(s: TableState, action: ActionType, amount: Option<int>)
    requires BettingInv(s) && !DealerAction(action) && Play(s, s.turn, action, amount).Done?
    ensures var m := Play(s, s.turn, action, amount).state;
            Between(s, m, s.turn) && m.currentBet == BetToMatch(s, action, amount)
  {
    PlayTakesTurn(s, action, amount);
    if action == RAISE {
      RaisedBetween(s, Play(s, s.turn, action, amount).state, amount.value);
    } else {
      TurnTakenBetween(s, Play(s, s.turn, action, amount).state);
    }
  }

  lemma GoesOnAfter(s: TableState, m: TableState, i: int, wasTurn: bool)
    requires Between(s, m, i) && BettingPhase(m.phase)
    requires if wasTurn then TurnTaken(m) else HandInv(m) && 0 <= m.turn && Owes(m.seats[m.turn], m.currentBet)
    ensures var r := Advance(m, wasTurn);
            && |r.seats| == |s.seats|
            && (r.phase == s.phase <==> TwoInHand(r.seats) && OthersDecide(s.seats, r.seats, m.currentBet, i))
            && (r.phase != s.phase ==>
                  (r.phase == SHOWDOWN <==> s.phase == RIVER || !TwoInHand(r.seats) || !TwoCanActHere(r.seats)))
  {
    var r := Advance(m, wasTurn);
    AdvanceMovesNobody(m, wasTurn);
    SameStanding(m.seats, r.seats);
    DecidesBefore(s, m, r.seats, i);
    if wasTurn {
      HandedOnGoesOnIff(m);
      if r.phase != m.phase {
        HandedOnEndsIff(m);
      }
    } else {
      KeptGoesOnIff(m);
      KeptEnds(m);
    }
  }

  lemma KeptEnds(m: TableState)
    requires HandInv(m) && BettingPhase(m.phase) && 0 <= m.turn && Owes(m.seats[m.turn], m.currentBet)
    ensures Advance(m, false).phase != m.phase ==> !TwoInHand(m.seats) || !TwoCanActHere(m.seats)
  {
    KeptGoesOnIff(m);
    if TwoInHand(m.seats) && TwoCanActHere(m.seats) {
      assert SeatOk(m.seats[m.turn], m.currentBet) && CanAct(m.seats[m.turn]);
      var a, b :| 0 <= a < b < |m.seats| && CanAct(m.seats[a]) && CanAct(m.seats[b]);
      assert CanAct(m.seats[if a == m.turn then b else a]);
      assert ToDecide(m.seats, m.seats, m.currentBet, m.turn);
    }
  }

  /**
   * What ends a street, whatever the action: it goes on if and only if two players are still in and
   * somebody other than the seat that moved has something left to decide. If it does not, the hand is over
   * exactly on the river, with one player left, or with at most one who can still act; otherwise the next
   * street opens.
   */
  lemma StreetGoesOnIff(s: TableState, i: int, action: ActionType, amount: Option<int>)
    requires BettingInv(s) && Act(s, i, action, amount).Applied?
    ensures var r := Act(s, i, action, amount).state;
            && |r.seats| == |s.seats|
            && (r.phase == s.phase <==>
                  TwoInHand(r.seats) && OthersDecide(s.seats, r.seats, BetToMatch(s, action, amount), i))
            && (r.phase != s.phase ==>
                  (r.phase == SHOWDOWN <==> s.phase == RIVER || !TwoInHand(r.seats) || !TwoCanActHere(r.seats)))
            && (r.phase == s.phase || r.phase == SHOWDOWN || NextStreet(s.phase, r.phase))
  {
    ActEndsWhere(s, i, action, amount);
    if DealerAction(action) {
      FoldedBetween(s, i);
      FoldedStanding(s, i);
      GoesOnAfter(s, Folded(s, i), i, s.turn == i);
    } else {
      PlayTakesTurn(s, action, amount);
      PlayedBetween(s, action, amount);
      GoesOnAfter(s, Play(s, i, action, amount).state, i, true);
    }
  }

  lemma FoldedStanding(s: TableState, i: int)
    requires BettingInv(s) && SeatTaken(s, i)
    ensures if s.turn == i then TurnTaken(Folded(s, i))
            else var f := Folded(s, i); HandInv(f) && 0 <= f.turn && Owes(f.seats[f.turn], f.currentBet)
  {
    if i == s.turn {
      FoldTakesTurn(s);
    } else {
      SetPlayerKeepsHand(s, i, s.seats[i].player.(hasFolded := true), 0);
    }
  }

  lemma ActEndsWhere(s: TableState, i: int, action: ActionType, amount: Option<int>)
    requires BettingInv(s) && Act(s, i, action, amount).Applied?
    ensures var r := Act(s, i, action, amount).state;
            r.phase == s.phase || r.phase == SHOWDOWN || NextStreet(s.phase, r.phase)
  {
    ActKeepsOrder(s, i, action, amount);
    var r := Act(s, i, action, amount).state;
    if r.phase != s.phase && BettingPhase(r.phase) {
      StreetOpensAfterButton(s, i, action, amount);
    }
  }

  lemma {:induction false} SameLevels(ss: seq<Seat>, rs: seq<Seat>, level: int)
    requires |ss| == |rs| && forall k :: 0 <= k < |ss| ==> SamePlayer(ss[k], rs[k])
    ensures Levels(ss) == Levels(rs) && EligibleIds(ss, level) == EligibleIds(rs, level)
  {
    if |ss| > 0 {
      var n := |ss| - 1;
      assert SamePlayer(ss[n], rs[n]);
      SameLevels(ss[..n], rs[..n], level);
    }
  }

  /** Side pots depend on who has put in how much and who is still in. */
  lemma SameSidePots(ss: seq<Seat>, rs: seq<Seat>)
    requires |ss| == |rs| && forall k :: 0 <= k < |ss| ==> SamePlayer(ss[k], rs[k])
    ensures SidePotsOf(ss) == SidePotsOf(rs)
  {
    SameLevels(ss, rs, 0);
    var levels := Levels(ss);
    forall k | 0 <= k < |levels| ensures PotAt(ss, levels, k) == PotAt(rs, levels, k) {
      SameLevels(ss, rs, levels[k]);
      var lo, hi, top := Floor(levels, k), levels[k], k == |levels| - 1;
      assert LayerShares(ss, lo, hi, top) == LayerShares(rs, lo, hi, top);
    }
  }

  lemma AdvanceCutsPots(m: TableState, wasTurn: bool)
    requires Shape(m) && BettingPhase(m.phase) && (wasTurn ==> 0 <= m.turn)
    ensures Advance(m, wasTurn).phase != m.phase ==> Advance(m, wasTurn).sidePots == SidePotsOf(m.seats)
  {
  }

  /** Whenever a street ends, the snapshot shows the side pots of what has been put in so far. */
  lemma SidePotsAreCut(s: TableState, i: int, action: ActionType, amount: Option<int>)
    requires BettingInv(s) && Act(s, i, action, amount).Applied?
    ensures var r := Act(s, i, action, amount).state;
            r.phase != s.phase ==> r.sidePots == SidePotsOf(r.seats)
  {
    var m := if DealerAction(action) then Folded(s, i) else Play(s, i, action, amount).state;
    if !DealerAction(action) {
      PlayTakesTurn(s, action, amount);
    }
    var wasTurn := !DealerAction(action) || s.turn == i;
    AdvanceMovesNobody(m, wasTurn);
    AdvanceCutsPots(m, wasTurn);
    SameSidePots(m.seats, Advance(m, wasTurn).seats);
  }
}

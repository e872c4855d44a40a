/**
 * What each action does to the table, in terms of stacks, bets and seats alone: who pays how much, who is
 * out of the hand, who acts next, and when a street or the hand is over.
 */
module ActionRules {
  import opened TableTypes
  import opened Sums
  import opened Ring
  import opened Betting
  import opened TurnOrder

  /** The same player with the same chips and the same standing in the hand; bet and check mark aside. */
  predicate SamePlayer(x: Seat, y: Seat) {
    && (x.Taken? <==> y.Taken?)
    && (x.Taken? ==>
          && y.player.id == x.player.id && y.player.stack == x.player.stack
          && y.player.totalContributed == x.player.totalContributed
          && y.player.hasFolded == x.player.hasFolded && y.player.isAllIn == x.player.isAllIn)
  }

  /**
   * Seat `i` has put `paid` chips from its stack into the pot and is out of the hand or still in it.
   * Nobody else has moved a chip or left the hand, and within a street nobody else's bet has changed.
   */
  ghost predicate Moved(s: TableState, r: TableState, i: int, paid: int, out: bool)
    requires SeatTaken(s, i)
  {
    && |r.seats| == |s.seats| && r.seats[i].Taken?
    && r.buttonUser == s.buttonUser && r.smallBlind == s.smallBlind && r.ante == s.ante
    && r.pot == s.pot + paid
    && (var p, q := s.seats[i].player, r.seats[i].player;
        && q.id == p.id && q.stack == p.stack - paid && q.totalContributed == p.totalContributed + paid
        && q.hasFolded == out && q.isAllIn == (p.isAllIn || q.stack == 0)
        && (r.phase == s.phase ==> q.bet == p.bet + paid && (q.hasChecked || out)))
    && (forall k :: 0 <= k < |s.seats| && k != i ==> SamePlayer(s.seats[k], r.seats[k]))
    && (r.phase == s.phase ==>
          forall k :: 0 <= k < |s.seats| && k != i && s.seats[k].Taken? ==>
            r.seats[k].player.bet == s.seats[k].player.bet)
  }

  /** Ending a turn moves no chip and puts nobody out; within the street only the turn changes. */
  lemma AdvanceMovesNobody(s: TableState, wasTurn: bool)
    requires Shape(s) && (wasTurn ==> 0 <= s.turn)
    ensures var r := Advance(s, wasTurn);
            && |r.seats| == |s.seats| && r.pot == s.pot
            && r.buttonUser == s.buttonUser && r.smallBlind == s.smallBlind && r.ante == s.ante
            && (forall k :: 0 <= k < |s.seats| ==> SamePlayer(s.seats[k], r.seats[k]))
            && (r.phase == s.phase && BettingPhase(s.phase) ==> r == s.(turn := r.turn))
  {
  }

  lemma MovedOn(s: TableState, m: TableState, i: int, paid: int, out: bool, wasTurn: bool)
    requires SeatTaken(s, i) && Moved(s, m, i, paid, out) && m.phase == s.phase && BettingPhase(s.phase)
    requires Shape(m) && (wasTurn ==> 0 <= m.turn)
    ensures Moved(s, Advance(m, wasTurn), i, paid, out)
  {
    AdvanceMovesNobody(m, wasTurn);
  }

  /** What the turn seat's accepted action did is still so when the turn has been handed on. */
  lemma PlayedOn(s: TableState, action: ActionType, amount: Option<int>, paid: int, out: bool)
    requires BettingInv(s) && !DealerAction(action) && Play(s, s.turn, action, amount).Done?
    requires Moved(s, Play(s, s.turn, action, amount).state, s.turn, paid, out)
    ensures Act(s, s.turn, action, amount).Applied?
    ensures Moved(s, Act(s, s.turn, action, amount).state, s.turn, paid, out)
  {
    PlayTakesTurn(s, action, amount);
    MovedOn(s, Play(s, s.turn, action, amount).state, s.turn, paid, out, true);
  }

  lemma FoldedMoves(s: TableState)
    requires BettingInv(s)
    ensures Moved(s, Folded(s, s.turn), s.turn, 0, true)
  {
    assert SeatOk(s.seats[s.turn], s.currentBet);
  }

  lemma CheckedMoves(s: TableState)
    requires BettingInv(s)
    ensures Moved(s, Checked(s, s.turn), s.turn, 0, false)
  {
    assert SeatOk(s.seats[s.turn], s.currentBet);
  }

  lemma CalledMoves(s: TableState)
    requires BettingInv(s)
    ensures var p := s.seats[s.turn].player;
            Moved(s, HandleCall(s, s.turn), s.turn, Min(s.currentBet - p.bet, p.stack), false)
  {
    var p := s.seats[s.turn].player;
    assert SeatOk(s.seats[s.turn], s.currentBet);
    CallIs(s, s.turn);
    CallerOk(p, s.currentBet);
  }

  lemma RaisedMoves(s: TableState, amount: int)
    requires BettingInv(s) && HandleRaise(s, s.turn, amount).Done?
    ensures var p := s.seats[s.turn].player;
            Moved(s, HandleRaise(s, s.turn, amount).state, s.turn, Min(amount - p.bet, p.stack), false)
  {
    assert SeatOk(s.seats[s.turn], s.currentBet);
    RaiseShape(s, amount);
  }

  /** A fold puts the player out and moves no chip, whatever the bet. */
  lemma FoldIsAlwaysOut(s: TableState, amount: Option<int>)
    requires BettingInv(s)
    ensures Act(s, s.turn, FOLD, amount).Applied?
    ensures Moved(s, Act(s, s.turn, FOLD, amount).state, s.turn, 0, true)
  {
    FoldedMoves(s);
    PlayedOn(s, FOLD, amount, 0, true);
  }

  /** Running out of time puts the player out if and only if a call was owed; otherwise it is a check. */
  lemma TimeOutFoldsIff(s: TableState, amount: Option<int>)
    requires BettingInv(s)
    ensures Act(s, s.turn, TIME_OUT, amount).Applied?
    ensures Moved(s, Act(s, s.turn, TIME_OUT, amount).state, s.turn, 0, s.seats[s.turn].player.bet < s.currentBet)
  {
    FoldedMoves(s);
    CheckedMoves(s);
    PlayedOn(s, TIME_OUT, amount, 0, s.seats[s.turn].player.bet < s.currentBet);
  }

  /** A check is accepted if and only if no call is owed, and moves no chip. */
  lemma CheckAcceptedIff(s: TableState, amount: Option<int>)
    requires BettingInv(s)
    ensures Act(s, s.turn, CHECK, amount).Applied? <==> s.seats[s.turn].player.bet == s.currentBet
    ensures s.seats[s.turn].player.bet != s.currentBet ==> Act(s, s.turn, CHECK, amount) == Rejected(MUST_CALL)
    ensures Act(s, s.turn, CHECK, amount).Applied? ==>
              Moved(s, Act(s, s.turn, CHECK, amount).state, s.turn, 0, false)
  {
    assert SeatOk(s.seats[s.turn], s.currentBet);
    CheckedMoves(s);
    if s.seats[s.turn].player.bet == s.currentBet {
      PlayedOn(s, CHECK, amount, 0, false);
    }
  }

  /** A call costs what is missing, or the whole stack, and the caller stays in. */
  lemma CallPaysWhatIsMissing(s: TableState, amount: Option<int>)
    requires BettingInv(s)
    ensures Act(s, s.turn, CALL, amount).Applied?
    ensures var p := s.seats[s.turn].player;
            Moved(s, Act(s, s.turn, CALL, amount).state, s.turn, Min(s.currentBet - p.bet, p.stack), false)
  {
    var p := s.seats[s.turn].player;
    CalledMoves(s);
    PlayedOn(s, CALL, amount, Min(s.currentBet - p.bet, p.stack), false);
  }

  /** An accepted raise brings the bet up to the amount, or puts in the whole stack. */
  lemma RaisePaysUpTo(s: TableState, amount: int)
    requires BettingInv(s) && Act(s, s.turn, RAISE, Some(amount)).Applied?
    ensures var p, r := s.seats[s.turn].player, Act(s, s.turn, RAISE, Some(amount)).state;
            && Moved(s, r, s.turn, Min(amount - p.bet, p.stack), false)
            && (r.phase == s.phase ==> r.currentBet == Max(s.currentBet, p.bet + Min(amount - p.bet, p.stack)))
  {
    var p := s.seats[s.turn].player;
    RaisedMoves(s, amount);
    PlayedOn(s, RAISE, Some(amount), Min(amount - p.bet, p.stack), false);
    RaisedBet(s, amount);
  }

  lemma RaisedBet(s: TableState, amount: int)
    requires BettingInv(s) && HandleRaise(s, s.turn, amount).Done?
    ensures var p, r := s.seats[s.turn].player, Advance(HandleRaise(s, s.turn, amount).state, true);
            r.phase == s.phase ==> r.currentBet == Max(s.currentBet, p.bet + Min(amount - p.bet, p.stack))
  {
    RaiseShape(s, amount);
    RaiseTakesTurn(s, amount);
    AdvanceMovesNobody(HandleRaise(s, s.turn, amount).state, true);
  }

  /** The dealer's fold and kick put out the seat they name, in turn or not. */
  lemma DealerPutsOut(s: TableState, i: int, action: ActionType, amount: Option<int>)
    requires BettingInv(s) && DealerAction(action) && SeatTaken(s, i)
    ensures Act(s, i, action, amount).Applied?
    ensures var r := Act(s, i, action, amount).state;
            && |r.seats| == |s.seats| && r.pot == s.pot && r.buttonUser == s.buttonUser
            && r.seats[i].Taken? && r.seats[i].player.hasFolded
            && r.seats[i].player.id == s.seats[i].player.id
            && StackOf(r.seats[i]) == StackOf(s.seats[i]) && Contributed(r.seats[i]) == Contributed(s.seats[i])
            && forall k :: 0 <= k < |s.seats| && k != i ==> SamePlayer(s.seats[k], r.seats[k])
  {
    AdvanceMovesNobody(Folded(s, i), s.turn == i);
  }
}

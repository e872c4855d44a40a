/**
 * Who is left when the betting ends. Settlement can pay the pot only if some player still in the
 * hand has put chips in; here are the hands in which that is certain.
 */
module Contributors {
  import opened TableTypes
  import opened Ring
  import opened SidePots
  import opened Betting
  import opened TurnOrder
  import opened HandStart
  import opened RaiseRules

  ghost predicate SomeContender(ss: seq<Seat>) {
    exists i :: 0 <= i < |ss| && Contender(ss[i])
  }

  /** Every player still in the hand has put chips in. */
  ghost predicate AllPaidIn(ss: seq<Seat>) {
    forall i :: 0 <= i < |ss| && InHand(ss[i]) ==> ss[i].player.totalContributed > 0
  }

  /** Before the flop: the big blind `bb` is still in, and whoever has not paid yet acts before it. */
  ghost predicate BigBlindHolds(s: TableState, bb: int)
    requires Shape(s)
  {
    && s.phase == PRE_FLOP
    && 0 <= s.turn && 0 <= bb < |s.seats|
    && Contender(s.seats[bb])
    && forall i :: 0 <= i < |s.seats| && InHand(s.seats[i]) && Contributed(s.seats[i]) == 0
         ==> Dist(s.turn, i, |s.seats|) < Dist(s.turn, bb, |s.seats|)
  }

  /** The pot is certain to find a winner. */
  ghost predicate PotIsSafe(s: TableState, bb: int)
    requires Shape(s)
  {
    AllPaidIn(s.seats) || BigBlindHolds(s, bb)
  }

  ghost predicate PreFlopBet(s: TableState) {
    s.phase == PRE_FLOP ==> s.currentBet > 0
  }

  /** A street that ends with every bet matched leaves only players who have paid. */
  lemma MatchedStreetPaid(s: TableState)
    requires HandInv(s) && s.currentBet > 0 && AllMatched(s)
    ensures AllPaidIn(s.seats)
  {
    forall i | 0 <= i < |s.seats| && InHand(s.seats[i]) ensures s.seats[i].player.totalContributed > 0 {
      assert SeatOk(s.seats[i], s.currentBet);
    }
  }

  lemma NewStreetStaysPaid(s: TableState)
    requires Shape(s) && AllPaidIn(s.seats)
    ensures AllPaidIn(NextPhase(s).seats)
  {
    forall i | 0 <= i < |s.seats| && InHand(NextPhase(s).seats[i])
      ensures NextPhase(s).seats[i].player.totalContributed > 0
    {
      assert InHand(s.seats[i]);
    }
  }

  lemma AdvanceStaysPaid(s: TableState, wasTurn: bool)
    requires Shape(s) && (wasTurn ==> 0 <= s.turn) && AllPaidIn(s.seats)
    ensures AllPaidIn(Advance(s, wasTurn).seats)
  {
    NewStreetStaysPaid(s);
  }

  /** After any accepted play, nobody has taken chips back and the seat that acted has paid or folded. */
  lemma PlayPaysOrFolds(s: TableState, action: ActionType, raiseAmount: Option<int>)
    requires BettingInv(s) && PreFlopBet(s) && !DealerAction(action)
    requires Play(s, s.turn, action, raiseAmount).Done?
    ensures var s' := Play(s, s.turn, action, raiseAmount).state;
            && |s'.seats| == |s.seats|
            && PreFlopBet(s')
            && (forall i :: 0 <= i < |s.seats| ==>
                  && (InHand(s'.seats[i]) ==> InHand(s.seats[i]))
                  && Contributed(s'.seats[i]) >= Contributed(s.seats[i]))
            && (forall i :: 0 <= i < |s.seats| && i != s.turn ==>
                  && (InHand(s'.seats[i]) <==> InHand(s.seats[i]))
                  && Contributed(s'.seats[i]) == Contributed(s.seats[i]))
            && (s.phase == PRE_FLOP && InHand(s'.seats[s.turn]) ==> Contributed(s'.seats[s.turn]) > 0)
  {
    assert SeatOk(s.seats[s.turn], s.currentBet);
    if action == RAISE {
      RaiseShape(s, raiseAmount.value);
    }
  }

  lemma SomeContenderIfPaid(ss: seq<Seat>)
    requires AllPaidIn(ss) && SomeoneInHand(ss)
    ensures SomeContender(ss)
  {
    var i :| 0 <= i < |ss| && InHand(ss[i]);
    assert Contender(ss[i]);
  }

  /** Handing on the turn before the flop keeps the unpaid seats between the turn and the big blind. */
  lemma TurnMovesTowardsBigBlind(s: TableState, next: int, bb: int)
    requires TurnTaken(s) && s.phase == PRE_FLOP && 0 <= bb < |s.seats| && bb != s.turn && Contender(s.seats[bb])
    requires next == NextLive(s.seats, Succ(s.turn, |s.seats|)) && next != -1
    requires InHand(s.seats[s.turn]) ==> Contributed(s.seats[s.turn]) > 0
    requires forall i :: 0 <= i < |s.seats| && i != s.turn && InHand(s.seats[i]) && Contributed(s.seats[i]) == 0
               ==> Dist(s.turn, i, |s.seats|) < Dist(s.turn, bb, |s.seats|)
    ensures PotIsSafe(s.(turn := next), bb)
  {
    var n := |s.seats|;
    NextLiveIsFirst(s.seats, Succ(s.turn, n));
    DistFromSucc(s.turn, n);
    DistRebase(s.turn, next, n);
    if !AllPaidIn(s.seats) {
      forall i | 0 <= i < n && InHand(s.seats[i]) && Contributed(s.seats[i]) == 0
        ensures Dist(next, i, n) < Dist(next, bb, n)
      {
        assert SeatOk(s.seats[i], s.currentBet) && Live(s.seats[i]);
        assert Dist(s.turn, next, n) <= Dist(s.turn, i, n);
      }
    }
  }

  lemma AdvanceKeepsPotSafe(s: TableState, bb: int)
    requires TurnTaken(s) && PreFlopBet(s) && s.phase == PRE_FLOP
    requires 0 <= bb < |s.seats| && bb != s.turn && Contender(s.seats[bb])
    requires InHand(s.seats[s.turn]) ==> Contributed(s.seats[s.turn]) > 0
    requires forall i :: 0 <= i < |s.seats| && i != s.turn && InHand(s.seats[i]) && Contributed(s.seats[i]) == 0
               ==> Dist(s.turn, i, |s.seats|) < Dist(s.turn, bb, |s.seats|)
    ensures var r := Advance(s, true);
            SomeContender(r.seats) && (r.phase == PRE_FLOP ==> PotIsSafe(r, bb))
              && (r.phase != PRE_FLOP && BettingInv(r) ==> AllPaidIn(r.seats))
  {
    AdvanceAfterTurn(s);
    var next := NextLive(s.seats, Succ(s.turn, |s.seats|));
    if !ShouldGoToShowdown(s) {
      if ShouldGoToNextPhase(s, next) {
        MatchedStreetPaid(s);
        NewStreetStaysPaid(s);
        SomeContenderIfPaid(NextPhase(s).seats);
      } else {
        SomeoneActsNext(s, next);
        TurnMovesTowardsBigBlind(s, next, bb);
      }
    }
  }

  lemma SomeoneActsNext(s: TableState, next: int)
    requires TurnTaken(s) && !ShouldGoToShowdown(s)
    requires next == NextLive(s.seats, Succ(s.turn, |s.seats|)) && !ShouldGoToNextPhase(s, next)
    ensures next != -1
  {
    if next == -1 {
      NobodyOwes(s, next);
    }
  }

  /** What is known of a state reached without folding anybody out of turn before the flop. */
  ghost predicate Safe(s: TableState, bb: int) {
    && (BettingInv(s) || ShowdownInv(s))
    && PreFlopBet(s)
    && SomeContender(s.seats)
    && (BettingInv(s) ==> PotIsSafe(s, bb))
  }

  lemma PaidStaysSafe(s: TableState, bb: int)
    requires (BettingInv(s) || ShowdownInv(s)) && PreFlopBet(s) && AllPaidIn(s.seats)
    ensures Safe(s, bb)
  {
    if BettingInv(s) {
      assert InHand(s.seats[s.turn]);
    }
    SomeContenderIfPaid(s.seats);
  }

  lemma AdvanceKeepsPreFlopBet(s: TableState, wasTurn: bool)
    requires Shape(s) && (wasTurn ==> 0 <= s.turn) && BettingPhase(s.phase) && PreFlopBet(s)
    ensures PreFlopBet(Advance(s, wasTurn))
  {
  }

  /** After the turn: nobody took chips back, and the seat that acted has paid or folded. */
  ghost predicate PaidOrFolded(s: TableState, s': TableState) {
    && s'.turn == s.turn && s'.phase == s.phase && |s'.seats| == |s.seats|
    && PreFlopBet(s')
    && (forall i :: 0 <= i < |s.seats| ==>
          && (InHand(s'.seats[i]) ==> InHand(s.seats[i]))
          && Contributed(s'.seats[i]) >= Contributed(s.seats[i]))
    && (forall i :: 0 <= i < |s.seats| && i != s.turn ==>
          && (InHand(s'.seats[i]) <==> InHand(s.seats[i]))
          && Contributed(s'.seats[i]) == Contributed(s.seats[i]))
    && (s.phase == PRE_FLOP && 0 <= s.turn < |s.seats| && InHand(s'.seats[s.turn]) ==>
          Contributed(s'.seats[s.turn]) > 0)
  }

  lemma PaidTableStaysPaid(s: TableState, s': TableState)
    requires PaidOrFolded(s, s') && AllPaidIn(s.seats)
    ensures AllPaidIn(s'.seats)
  {
    forall i | 0 <= i < |s'.seats| && InHand(s'.seats[i]) ensures s'.seats[i].player.totalContributed > 0 {
      assert InHand(s.seats[i]);
      assert Contributed(s'.seats[i]) >= Contributed(s.seats[i]);
    }
  }

  lemma BigBlindTurnMeansPaid(s: TableState, bb: int)
    requires BettingInv(s) && PotIsSafe(s, bb) && bb == s.turn
    ensures AllPaidIn(s.seats)
  {
    forall i | 0 <= i < |s.seats| && InHand(s.seats[i]) ensures Contributed(s.seats[i]) > 0 {
      assert SeatOk(s.seats[i], s.currentBet);
    }
  }

  lemma TakenTurnIsSafe(s: TableState, s': TableState, bb: int)
    requires BettingInv(s) && Safe(s, bb) && TurnTaken(s') && PaidOrFolded(s, s')
    ensures Safe(Advance(s', true), bb)
  {
    AdvanceAfterTurn(s');
    AdvanceKeepsPreFlopBet(s', true);
    if bb == s.turn {
      BigBlindTurnMeansPaid(s, bb);
    }
    if AllPaidIn(s.seats) {
      PaidTableStaysPaid(s, s');
      AdvanceStaysPaid(s', true);
      PaidStaysSafe(Advance(s', true), bb);
    } else {
      BigBlindTurn(s, s', bb);
    }
  }

  lemma BigBlindTurn(s: TableState, s': TableState, bb: int)
    requires BettingInv(s) && BigBlindHolds(s, bb) && bb != s.turn && TurnTaken(s') && PaidOrFolded(s, s')
    ensures Safe(Advance(s', true), bb)
  {
    AdvanceAfterTurn(s');
    AdvanceKeepsPreFlopBet(s', true);
    assert InHand(s'.seats[bb]) && Contributed(s'.seats[bb]) == Contributed(s.seats[bb]);
    AdvanceKeepsPotSafe(s', bb);
  }

  lemma PlayPaidOrFolded(s: TableState, action: ActionType, raiseAmount: Option<int>)
    requires BettingInv(s) && PreFlopBet(s) && !DealerAction(action)
    requires Play(s, s.turn, action, raiseAmount).Done?
    ensures var s' := Play(s, s.turn, action, raiseAmount).state;
            TurnTaken(s') && PaidOrFolded(s, s')
  {
    PlayPaysOrFolds(s, action, raiseAmount);
    PlayTakesTurn(s, action, raiseAmount);
  }

  /** A move of the seat to act, or a dealer action on it, is in turn; from the flop on anything is. */
  predicate InTurn(s: TableState, m: Move) {
    s.phase != PRE_FLOP || !DealerAction(m.action) || m.seat == s.turn
  }

  lemma FoldOutOfTurnStaysPaid(s: TableState, bb: int, m: Move)
    requires BettingInv(s) && Safe(s, bb) && AllPaidIn(s.seats)
    requires DealerAction(m.action) && SeatTaken(s, m.seat) && m.seat != s.turn
    ensures Safe(StateAfter(s, m), bb) && AllPaidIn(StateAfter(s, m).seats)
  {
    FoldOutOfTurn(s, m.seat);
    var f := Folded(s, m.seat);
    forall i | 0 <= i < |f.seats| && InHand(f.seats[i]) ensures f.seats[i].player.totalContributed > 0 {
      assert InHand(s.seats[i]);
    }
    AdvanceStaysPaid(f, false);
    AdvanceKeepsPreFlopBet(f, false);
    PaidStaysSafe(StateAfter(s, m), bb);
  }

  lemma PlayedMoveIsSafe(s: TableState, bb: int, m: Move)
    requires BettingInv(s) && Safe(s, bb) && !DealerAction(m.action)
    requires Act(s, m.seat, m.action, m.raiseAmount).Applied?
    ensures Safe(StateAfter(s, m), bb)
  {
    PlayPaidOrFolded(s, m.action, m.raiseAmount);
    TakenTurnIsSafe(s, Play(s, s.turn, m.action, m.raiseAmount).state, bb);
  }

  lemma FoldedTurnIsSafe(s: TableState, bb: int)
    requires BettingInv(s) && Safe(s, bb)
    ensures Safe(Advance(Folded(s, s.turn), true), bb)
  {
    FoldTakesTurn(s);
    TakenTurnIsSafe(s, Folded(s, s.turn), bb);
  }

  /** A move that folds nobody out of turn before the flop keeps the pot winnable. */
  lemma MoveIsSafe(s: TableState, bb: int, m: Move)
    requires BettingInv(s) && Safe(s, bb) && (InTurn(s, m) || AllPaidIn(s.seats))
    ensures Safe(StateAfter(s, m), bb)
  {
    if Act(s, m.seat, m.action, m.raiseAmount).Applied? {
      if !DealerAction(m.action) {
        PlayedMoveIsSafe(s, bb, m);
      } else if m.seat == s.turn {
        FoldedTurnIsSafe(s, bb);
      } else {
        FoldOutOfTurnStaysPaid(s, bb, m);
      }
    }
  }

  lemma PaidPlayStaysPaid(s: TableState, action: ActionType, raiseAmount: Option<int>)
    requires BettingInv(s) && PreFlopBet(s) && AllPaidIn(s.seats) && !DealerAction(action)
    requires Play(s, s.turn, action, raiseAmount).Done?
    ensures var r := Advance(Play(s, s.turn, action, raiseAmount).state, true);
            PreFlopBet(r) && AllPaidIn(r.seats)
  {
    PlayPaidOrFolded(s, action, raiseAmount);
    var s' := Play(s, s.turn, action, raiseAmount).state;
    PaidTableStaysPaid(s, s');
    AdvanceStaysPaid(s', true);
    AdvanceKeepsPreFlopBet(s', true);
  }

  lemma PaidFoldStaysPaid(s: TableState)
    requires BettingInv(s) && PreFlopBet(s) && AllPaidIn(s.seats)
    ensures var r := Advance(Folded(s, s.turn), true);
            PreFlopBet(r) && AllPaidIn(r.seats)
  {
    FoldTakesTurn(s);
    PaidTableStaysPaid(s, Folded(s, s.turn));
    AdvanceStaysPaid(Folded(s, s.turn), true);
    AdvanceKeepsPreFlopBet(Folded(s, s.turn), true);
  }

  lemma PaidMoveStaysPaid(s: TableState, m: Move)
    requires BettingInv(s) && PreFlopBet(s) && AllPaidIn(s.seats)
    ensures PreFlopBet(StateAfter(s, m)) && AllPaidIn(StateAfter(s, m).seats)
  {
    if Act(s, m.seat, m.action, m.raiseAmount).Applied? {
      if !DealerAction(m.action) {
        PaidPlayStaysPaid(s, m.action, m.raiseAmount);
      } else if m.seat == s.turn {
        PaidFoldStaysPaid(s);
      } else {
        PaidStaysSafe(s, s.turn);
        FoldOutOfTurnStaysPaid(s, s.turn, m);
      }
    }
  }

  lemma AdvanceKeepsAnte(s: TableState, wasTurn: bool)
    requires Shape(s) && (wasTurn ==> 0 <= s.turn)
    ensures Advance(s, wasTurn).ante == s.ante
  {
  }

  lemma PlayedAnte(s: TableState, i: int, action: ActionType, amount: Option<int>)
    requires SeatTaken(s, i) && Play(s, i, action, amount).Done?
    ensures Play(s, i, action, amount).state.ante == s.ante
  {
  }

  lemma MoveKeepsAnte(s: TableState, m: Move)
    requires BettingInv(s)
    ensures StateAfter(s, m).ante == s.ante
  {
    if Act(s, m.seat, m.action, m.raiseAmount).Applied? {
      if DealerAction(m.action) {
        AdvanceKeepsAnte(Folded(s, m.seat), s.turn == m.seat);
      } else {
        PlayTakesTurn(s, m.action, m.raiseAmount);
        PlayedAnte(s, s.turn, m.action, m.raiseAmount);
        AdvanceKeepsAnte(Play(s, s.turn, m.action, m.raiseAmount).state, true);
      }
    }
  }

  /** Whether a run folds nobody out of turn before the flop. */
  predicate AllInTurn(s: TableState, moves: seq<Move>)
    requires Shape(s)
    decreases |moves|
  {
    |moves| == 0 || !Shape(StateAfter(s, moves[0]))
    || (InTurn(s, moves[0]) && AllInTurn(StateAfter(s, moves[0]), moves[1..]))
  }

  lemma {:induction false} RunIsSafe(s: TableState, bb: int, acted: set<int>, moves: seq<Move>)
    requires Safe(s, bb)
    requires AllPaidIn(s.seats) || AllInTurn(s, moves)
    ensures Safe(Replay(s, acted, moves).0, bb)
    decreases |moves|
  {
    if |moves| > 0 {
      if BettingInv(s) {
        MoveIsSafe(s, bb, moves[0]);
        if AllPaidIn(s.seats) {
          PaidMoveStaysPaid(s, moves[0]);
        }
      }
      RunIsSafe(StateAfter(s, moves[0]), bb, ActedAfter(s, acted, moves[0]), moves[1..]);
    }
  }

  /** The dealt hand: who has paid. */
  lemma DealtContributions(s: TableState, sb: int, bb: int)
    requires AntesPaid(s) && SeatTaken(s, sb) && SeatTaken(s, bb) && sb != bb && s.smallBlind > 0
    ensures var r := PostBlinds(s, sb, bb);
            && |r.seats| == |s.seats|
            && Contender(r.seats[bb])
            && (forall i :: 0 <= i < |s.seats| ==>
                  && (r.seats[i].Taken? <==> s.seats[i].Taken?)
                  && Contributed(r.seats[i]) >= Contributed(s.seats[i]))
  {
    BlindsPostedKeep(s, sb, bb);
    assert SeatAnted(s.seats[bb]) && SeatAnted(s.seats[sb]);
    assert PostBlinds(s, sb, bb).seats == BlindsPosted(s, sb, bb).seats;
  }

  /** The dealt hand: the bet to call, and where the first turn is. */
  lemma DealtTurn(s: TableState, sb: int, bb: int)
    requires SeatTaken(s, sb) && SeatTaken(s, bb) && s.smallBlind > 0
    ensures var r := PostBlinds(s, sb, bb);
            && |r.seats| == |s.seats|
            && r.currentBet > 0
            && (r.phase == PRE_FLOP || r.phase == SHOWDOWN)
            && (r.phase == PRE_FLOP ==> r.turn == NextLive(r.seats, Succ(bb, |r.seats|)))
  {
  }

  lemma PostedIsSafe(s: TableState, sb: int, bb: int)
    requires AntesPaid(s) && SeatTaken(s, sb) && SeatTaken(s, bb) && sb != bb && s.smallBlind > 0
    ensures Safe(PostBlinds(s, sb, bb), bb)
    ensures (forall i :: 0 <= i < |s.seats| && s.seats[i].Taken? ==> s.seats[i].player.totalContributed > 0)
              ==> AllPaidIn(PostBlinds(s, sb, bb).seats)
  {
    PostBlindsInv(s, sb, bb);
    DealtContributions(s, sb, bb);
    DealtTurn(s, sb, bb);
    var r := PostBlinds(s, sb, bb);
    if BettingInv(r) {
      StartTurnBeforeBigBlind(r, bb);
    }
    if forall i :: 0 <= i < |s.seats| && s.seats[i].Taken? ==> s.seats[i].player.totalContributed > 0 {
      DealtAllPaid(s, r);
    }
  }

  lemma StartIsSafe(s: TableState) returns (bb: int)
    requires HandReady(s) && s.smallBlind > 0 && 0 <= s.ante && StartPreFlop(s).Started?
    ensures Safe(StartPreFlop(s).state, bb)
    ensures s.ante > 0 ==> AllPaidIn(StartPreFlop(s).state.seats)
  {
    var button, sb;
    button, sb, bb := StartSeats(s);
    var s0 := s.(buttonUser := button);
    assert HandReady(s0);
    WithAntesPaid(s0);
    PostedIsSafe(WithAntes(s0), sb, bb);
  }

  lemma DealtAllPaid(s: TableState, r: TableState)
    requires |r.seats| == |s.seats|
    requires forall i :: 0 <= i < |s.seats| ==> Contributed(r.seats[i]) >= Contributed(s.seats[i])
    requires forall i :: 0 <= i < |s.seats| && s.seats[i].Taken? ==> s.seats[i].player.totalContributed > 0
    requires forall i :: 0 <= i < |s.seats| ==> (r.seats[i].Taken? <==> s.seats[i].Taken?)
    ensures AllPaidIn(r.seats)
  {
    forall i | 0 <= i < |r.seats| && InHand(r.seats[i]) ensures r.seats[i].player.totalContributed > 0 {
      assert Contributed(r.seats[i]) >= Contributed(s.seats[i]);
    }
  }

  lemma StartTurnBeforeBigBlind(r: TableState, bb: int)
    requires BettingInv(r) && r.phase == PRE_FLOP && 0 <= bb < |r.seats| && Contender(r.seats[bb])
    requires r.turn == NextLive(r.seats, Succ(bb, |r.seats|))
    ensures BigBlindHolds(r, bb)
  {
    var n := |r.seats|;
    NextLiveIsFirst(r.seats, Succ(bb, n));
    DistFromSucc(bb, n);
    DistRebase(Succ(bb, n), r.turn, n);
    forall i | 0 <= i < n && InHand(r.seats[i]) && Contributed(r.seats[i]) == 0
      ensures Dist(r.turn, i, n) < Dist(r.turn, bb, n)
    {
      assert SeatOk(r.seats[i], r.currentBet) && Live(r.seats[i]);
    }
  }

  /**
   * From the deal on, over any run of moves: with an ante, or as long as nobody is folded out of
   * turn before the flop, some player still in the hand has chips in the pot.
   */
  lemma SomebodyCanWin(s: TableState, moves: seq<Move>)
    requires HandReady(s) && s.smallBlind > 0 && 0 <= s.ante && StartPreFlop(s).Started?
    requires Shape(StartPreFlop(s).state)
    requires s.ante > 0 || AllInTurn(StartPreFlop(s).state, moves)
    ensures SomeContender(Replay(StartPreFlop(s).state, {}, moves).0.seats)
  {
    var bb := StartIsSafe(s);
    RunIsSafe(StartPreFlop(s).state, bb, {}, moves);
  }

  /** The move that opens the flop leaves only players who have paid. */
  lemma FlopOpensPaid(s: TableState, m: Move)
    requires BettingInv(s) && s.phase == PRE_FLOP && PreFlopBet(s)
    requires BettingInv(StateAfter(s, m)) && StateAfter(s, m).phase != PRE_FLOP
    ensures AllPaidIn(StateAfter(s, m).seats) && PreFlopBet(StateAfter(s, m))
  {
    if DealerAction(m.action) && m.seat != s.turn {
      FoldOutOfTurn(s, m.seat);
    } else {
      if DealerAction(m.action) {
        FoldTakesTurn(s);
        TurnIntoFlop(Folded(s, m.seat));
      } else {
        PlayPaidOrFolded(s, m.action, m.raiseAmount);
        TurnIntoFlop(Play(s, s.turn, m.action, m.raiseAmount).state);
      }
    }
  }

  lemma {:induction false} PaidRunStaysPaid(s: TableState, acted: set<int>, moves: seq<Move>)
    requires (BettingInv(s) || ShowdownInv(s)) && PreFlopBet(s) && AllPaidIn(s.seats)
    ensures var end := Replay(s, acted, moves).0;
            AllPaidIn(end.seats) && SomeContender(end.seats)
    decreases |moves|
  {
    PaidStaysSafe(s, 0);
    if |moves| > 0 {
      if BettingInv(s) {
        MoveIsSafe(s, 0, moves[0]);
        PaidMoveStaysPaid(s, moves[0]);
      }
      PaidRunStaysPaid(StateAfter(s, moves[0]), ActedAfter(s, acted, moves[0]), moves[1..]);
    }
  }

  /**
   * Whatever happened before the flop, dealer folds out of turn included: from the move that opens the
   * flop on, over all later streets and moves, everybody still in the hand has paid, and so somebody can win.
   */
  lemma FromTheFlopOn(s: TableState, m: Move, acted: set<int>, moves: seq<Move>)
    requires BettingInv(s) && s.phase == PRE_FLOP && PreFlopBet(s)
    requires BettingInv(StateAfter(s, m)) && StateAfter(s, m).phase != PRE_FLOP
    ensures var end := Replay(StateAfter(s, m), acted, moves).0;
            AllPaidIn(end.seats) && SomeContender(end.seats)
  {
    FlopOpensPaid(s, m);
    PaidRunStaysPaid(StateAfter(s, m), acted, moves);
  }

  lemma TurnIntoFlop(s: TableState)
    requires TurnTaken(s) && s.phase == PRE_FLOP && PreFlopBet(s)
    requires BettingInv(Advance(s, true)) && Advance(s, true).phase != PRE_FLOP
    ensures AllPaidIn(Advance(s, true).seats)
  {
    AdvanceAfterTurn(s);
    MatchedStreetPaid(s);
    NewStreetStaysPaid(s);
  }
}

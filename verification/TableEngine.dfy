/**
 * The table engine itself: a class whose methods update the snapshot in place, step by step and with
 * the loops of the original, each proved to compute the function of the snapshot that the theorems
 * are about.
 */
module Engine {
  import opened Sums
  import opened TableTypes
  import Ring
  import SidePots
  import Betting
  import HandStart
  import Settlement

  datatype ActAnswer = Threw(why: Betting.Refusal) | NotApplied | WasApplied

  datatype ResolveAnswer = Resolved | NotInShowdown | PotUnclaimed

  class TableEngine {
    var state: TableState

    constructor (state: TableState)
      ensures this.state == state
    {
      this.state := state;
    }

    /** Circular search for the next seat that can act; -1 if there is none. */
    method FindNextActiveSeat(startIndex: int) returns (seat: int)
      requires 0 <= startIndex < |state.seats|
      ensures seat == Ring.NextLive(state.seats, startIndex)
    {
      var total := |state.seats|;
      var curr := startIndex;
      var i := 0;
      while i < total
        invariant 0 <= i <= total && 0 <= curr < total
        invariant Ring.NextLive(state.seats, startIndex) == Ring.NextLiveFrom(state.seats, curr, total - i)
      {
        var p := state.seats[curr];
        if p.Taken? && !p.player.hasFolded && !p.player.isAllIn && p.player.stack > 0 {
          return curr;
        }
        Ring.SuccIsMod(curr, total);
        curr := (curr + 1) % total;
        i := i + 1;
      }
      return -1;
    }

    method ExecuteBet(seat: int, amount: int)
      requires SeatTaken(state, seat)
      modifies this
      ensures state == Betting.ExecuteBet(old(state), seat, amount)
    {
      var player := state.seats[seat].player;
      var actual := Min(player.stack, amount);
      player := player.(stack := player.stack - actual);
      player := player.(bet := player.bet + actual);
      player := player.(totalContributed := player.totalContributed + actual);
      state := state.(pot := state.pot + actual);
      if player.stack <= 0 {
        player := player.(isAllIn := true);
      }
      state := state.(seats := state.seats[seat := Taken(player)]);
    }

    method HandleCall(seat: int)
      requires SeatTaken(state, seat)
      modifies this
      ensures state == Betting.HandleCall(old(state), seat)
    {
      var needed := state.currentBet - state.seats[seat].player.bet;
      var amount := Min(needed, state.seats[seat].player.stack);
      ExecuteBet(seat, amount);
      state := state.(seats := state.seats[seat := Taken(state.seats[seat].player.(hasChecked := true))]);
    }

    /** Takes back the check of everybody who can still act. */
    method ResetChecked()
      modifies this
      ensures state == old(state).(seats := Betting.ResetChecked(old(state.seats)))
    {
      var i := 0;
      while i < |state.seats|
        invariant 0 <= i <= |state.seats| == |old(state.seats)|
        invariant state == old(state).(seats := state.seats)
        invariant forall k :: 0 <= k < i ==> state.seats[k] == Betting.Reopened(old(state.seats)[k])
        invariant forall k :: i <= k < |state.seats| ==> state.seats[k] == old(state.seats)[k]
      {
        var p := state.seats[i];
        if p.Taken? && !p.player.hasFolded && !p.player.isAllIn {
          state := state.(seats := state.seats[i := Taken(p.player.(hasChecked := false))]);
        }
        i := i + 1;
      }
    }

    method HandleRaise(seat: int, betAmount: int) returns (refusal: Option<Betting.Refusal>)
      requires SeatTaken(state, seat)
      modifies this
      ensures Betting.HandleRaise(old(state), seat, betAmount) ==
              if refusal.Some? then Betting.Refused(refusal.value) else Betting.Done(state)
      ensures refusal.Some? ==> state == old(state)
    {
      var previousBet := state.currentBet;
      var player := state.seats[seat].player;
      if player.hasChecked {
        return Some(Betting.BETTING_CLOSED);
      }
      if betAmount <= previousBet {
        return Some(Betting.NOT_A_RAISE);
      }
      var needed := betAmount - player.bet;
      if needed <= 0 {
        return Some(Betting.BAD_AMOUNT);
      }
      var minRaiseSize := if state.lastRaiseSize.Some? then state.lastRaiseSize.value else state.smallBlind * 2;
      var isAllIn := needed >= player.stack;
      if !isAllIn && betAmount - previousBet < minRaiseSize {
        return Some(Betting.BELOW_MINIMUM);
      }
      ExecuteBet(seat, Min(needed, player.stack));
      var bet := state.seats[seat].player.bet;
      if bet > previousBet {
        var raiseSize := bet - previousBet;
        if raiseSize >= minRaiseSize {
          ResetChecked();
          state := state.(lastRaiseSize := Some(raiseSize));
        }
        state := state.(currentBet := bet);
      }
      state := state.(seats := state.seats[seat := Taken(state.seats[seat].player.(hasChecked := true))]);
      return None;
    }

    /** The amounts at which the side pots are cut. */
    method ContributionLevels() returns (levels: seq<int>)
      ensures levels == SidePots.Levels(state.seats)
    {
      levels := [];
      var i := 0;
      while i < |state.seats|
        invariant 0 <= i <= |state.seats|
        invariant levels == SidePots.Levels(state.seats[..i])
      {
        assert state.seats[..i + 1][..i] == state.seats[..i];
        var p := state.seats[i];
        if p.Taken? && p.player.totalContributed > 0 && !p.player.hasFolded {
          levels := SidePots.InsertLevel(levels, p.player.totalContributed);
        }
        i := i + 1;
      }
      assert state.seats[..|state.seats|] == state.seats;
    }

    /** One layer: what everybody put in between two cuts, and who reaches the upper one. */
    method CutLayer(lastLevel: int, level: int, isTopLevel: bool) returns (pot: SidePot)
      requires 0 <= lastLevel
      ensures pot == SidePot(Sum(SidePots.LayerShares(state.seats, lastLevel, level, isTopLevel)),
                             SidePots.EligibleIds(state.seats, level))
    {
      var amount := 0;
      var ids: seq<PlayerId> := [];
      ghost var shares := SidePots.LayerShares(state.seats, lastLevel, level, isTopLevel);
      var i := 0;
      while i < |state.seats|
        invariant 0 <= i <= |state.seats|
        invariant amount == Sum(shares[..i])
        invariant ids == SidePots.EligibleIds(state.seats[..i], level)
      {
        assert shares[..i + 1][..i] == shares[..i];
        assert state.seats[..i + 1][..i] == state.seats[..i];
        var p := state.seats[i];
        if p.Taken? && p.player.totalContributed > 0 {
          var capped := if isTopLevel then p.player.totalContributed else Min(p.player.totalContributed, level);
          amount := amount + Max(0, capped - lastLevel);
          if !p.player.hasFolded && p.player.totalContributed >= level {
            ids := ids + [p.player.id];
          }
        }
        i := i + 1;
      }
      assert shares[..|shares|] == shares && state.seats[..|state.seats|] == state.seats;
      return SidePot(amount, ids);
    }

    method CalculateSidePots()
      modifies this
      ensures state == old(state).(sidePots := SidePots.SidePotsOf(old(state.seats)))
    {
      state := state.(sidePots := []);
      var levels := ContributionLevels();
      SidePots.LevelsAreTheContributions(state.seats);
      var lastLevel := 0;
      var index := 0;
      while index < |levels|
        invariant 0 <= index <= |levels|
        invariant levels == SidePots.Levels(old(state.seats))
        invariant lastLevel == SidePots.Floor(levels, index) && 0 <= lastLevel
        invariant state == old(state).(sidePots := SidePots.SidePotsOf(old(state.seats))[..index])
      {
        var pot := CutLayer(lastLevel, levels[index], index == |levels| - 1);
        assert pot == SidePots.PotAt(state.seats, levels, index);
        state := state.(sidePots := state.sidePots + [pot]);
        lastLevel := levels[index];
        index := index + 1;
      }
    }

    /** At most one player left, or at most one who can still act and nothing left to call. */
    method ShouldGoToShowdown() returns (yes: bool)
      ensures yes == Betting.ShouldGoToShowdown(state)
    {
      var active, notAllIn, lastPlayer := 0, 0, -1;
      var i := 0;
      while i < |state.seats|
        invariant 0 <= i <= |state.seats|
        invariant 0 <= active && 0 <= notAllIn
        invariant active == 0 <==> forall k :: 0 <= k < i ==> !InHand(state.seats[k])
        invariant active <= 1 <==> Betting.AtMostOneInHand(state.seats[..i])
        invariant notAllIn == 0 <==> forall k :: 0 <= k < i ==> !CanAct(state.seats[k])
        invariant notAllIn <= 1 <==> Betting.AtMostOneCanAct(state.seats[..i])
        invariant notAllIn == 0 ==> lastPlayer == -1
        invariant notAllIn > 0 ==> 0 <= lastPlayer < i && CanAct(state.seats[lastPlayer])
      {
        var p := state.seats[i];
        if p.Taken? && !p.player.hasFolded {
          if exists k :: 0 <= k < i && InHand(state.seats[k]) {
            ghost var k :| 0 <= k < i && InHand(state.seats[k]);
            assert InHand(state.seats[..i + 1][k]) && InHand(state.seats[..i + 1][i]);
          }
          active := active + 1;
          if !p.player.isAllIn {
            if notAllIn == 0 {
              lastPlayer := i;
            } else {
              assert CanAct(state.seats[..i + 1][lastPlayer]) && CanAct(state.seats[..i + 1][i]);
            }
            notAllIn := notAllIn + 1;
          }
        }
        PrefixStep(state.seats, i);
        i := i + 1;
      }
      assert state.seats[..|state.seats|] == state.seats;
      if active <= 1 {
        return true;
      }
      if notAllIn <= 1 {
        if lastPlayer == -1 || state.seats[lastPlayer].player.bet == state.currentBet {
          return true;
        }
      }
      return false;
    }

    static lemma PrefixStep(ss: seq<Seat>, i: nat)
      requires i < |ss|
      ensures Betting.AtMostOneInHand(ss[..i + 1]) <==>
                Betting.AtMostOneInHand(ss[..i]) && (InHand(ss[i]) ==> forall k :: 0 <= k < i ==> !InHand(ss[k]))
      ensures Betting.AtMostOneCanAct(ss[..i + 1]) <==>
                Betting.AtMostOneCanAct(ss[..i]) && (CanAct(ss[i]) ==> forall k :: 0 <= k < i ==> !CanAct(ss[k]))
    {
      assert forall k :: 0 <= k < i ==> ss[..i + 1][k] == ss[k] && ss[..i][k] == ss[k];
      assert ss[..i + 1][i] == ss[i];
    }

    method NextPhase()
      requires Shape(state)
      modifies this
      ensures state == Betting.NextPhase(old(state))
    {
      if state.phase == WAITING || state.phase == HAND_END {
        return;
      }
      CalculateSidePots();
      if state.phase != SHOWDOWN {
        state := state.(phase := Betting.Following(state.phase));
        ClearStreet();
        state := state.(currentBet := 0);
        state := state.(lastRaiseSize := Some(state.smallBlind * 2));
        if state.phase == SHOWDOWN {
          state := state.(turn := -1);
        } else {
          Ring.SuccIsMod(state.buttonUser, |state.seats|);
          var first := FindNextActiveSeat((state.buttonUser + 1) % |state.seats|);
          state := state.(turn := first);
        }
      }
    }

    /** A new street: no bets, no checks. */
    method ClearStreet()
      modifies this
      ensures state == old(state).(seats := Betting.NewStreet(old(state.seats)))
    {
      var i := 0;
      while i < |state.seats|
        invariant 0 <= i <= |state.seats| == |old(state.seats)|
        invariant state == old(state).(seats := state.seats)
        invariant forall k :: 0 <= k < i ==> state.seats[k] == Betting.StreetCleared(old(state.seats)[k])
        invariant forall k :: i <= k < |state.seats| ==> state.seats[k] == old(state.seats)[k]
      {
        var p := state.seats[i];
        if p.Taken? {
          state := state.(seats := state.seats[i := Taken(p.player.(bet := 0, hasChecked := false))]);
        }
        i := i + 1;
      }
    }

    /** The switch on the action of the player whose turn it is; a refusal changes nothing. */
    method PlayAction(seat: int, action: ActionType, raiseAmount: Option<int>)
      returns (refusal: Option<Betting.Refusal>)
      requires SeatTaken(state, seat)
      modifies this
      ensures Betting.Play(old(state), seat, action, raiseAmount) ==
              if refusal.Some? then Betting.Refused(refusal.value) else Betting.Done(state)
      ensures refusal.Some? ==> state == old(state)
    {
      var player := state.seats[seat].player;
      refusal := None;
      match action
      case FOLD =>
        state := state.(seats := state.seats[seat := Taken(player.(hasFolded := true))]);
      case TIME_OUT =>
        if player.isAllIn {
          return None;
        }
        if player.bet < state.currentBet {
          state := state.(seats := state.seats[seat := Taken(player.(hasFolded := true))]);
        } else {
          state := state.(seats := state.seats[seat := Taken(player.(hasChecked := true))]);
        }
      case CHECK =>
        if player.bet < state.currentBet {
          return Some(Betting.MUST_CALL);
        }
        state := state.(seats := state.seats[seat := Taken(player.(hasChecked := true))]);
      case CALL =>
        HandleCall(seat);
      case RAISE =>
        if raiseAmount.None? || raiseAmount.value <= 0 {
          return Some(Betting.BAD_AMOUNT);
        }
        refusal := HandleRaise(seat, raiseAmount.value);
      case DEALER_KICK =>
      case DEALER_FOLD =>
    }

    /** An action at the table; the answer says whether it was applied, and a throw changes nothing. */
    method Act(playerIndex: int, action: ActionType, raiseAmount: Option<int>) returns (answer: ActAnswer)
      requires Shape(state)
      modifies this
      ensures match Betting.Act(old(state), playerIndex, action, raiseAmount)
              case Rejected(why) => answer == Threw(why) && state == old(state)
              case Ignored => answer == NotApplied && state == old(state)
              case Applied(s) => answer == WasApplied && state == s
    {
      if !(0 <= playerIndex < |state.seats|) || state.seats[playerIndex].Empty? {
        return Threw(Betting.INVALID_PLAYER);
      }
      if !BettingPhase(state.phase) {
        return Threw(Betting.NOT_BETTING);
      }
      var isDealerAction := action == DEALER_FOLD || action == DEALER_KICK;
      var isPlayerTurn := state.turn == playerIndex;
      var player := state.seats[playerIndex].player;
      if isDealerAction {
        state := state.(seats := state.seats[playerIndex := Taken(player.(hasFolded := true))]);
      } else if !isPlayerTurn {
        return NotApplied;
      } else if !player.hasFolded {
        var refusal := PlayAction(playerIndex, action, raiseAmount);
        if refusal.Some? {
          return Threw(refusal.value);
        }
      }
      Advance(isPlayerTurn);
      return WasApplied;
    }

    /** The end of `act`: showdown, the next street, or the next turn. */
    method Advance(isPlayerTurn: bool)
      requires Shape(state) && (isPlayerTurn ==> 0 <= state.turn)
      modifies this
      ensures state == Betting.Advance(old(state), isPlayerTurn)
    {
      var over := ShouldGoToShowdown();
      if over {
        CalculateSidePots();
        state := state.(phase := SHOWDOWN);
        state := state.(turn := -1);
        return;
      }
      var nextTurn := state.turn;
      if isPlayerTurn {
        Ring.SuccIsMod(state.turn, |state.seats|);
        nextTurn := FindNextActiveSeat((state.turn + 1) % |state.seats|);
      }
      if Betting.ShouldGoToNextPhase(state, nextTurn) {
        NextPhase();
        return;
      }
      state := state.(turn := nextTurn);
    }

    /** Collects the ante from everybody dealt in; it counts as contributed but not as a bet. */
    method PayAnte(ante: int)
      requires ante == state.ante
      modifies this
      ensures state == HandStart.PayAnteUpTo(old(state), |old(state).seats|)
    {
      var i := 0;
      while i < |state.seats|
        invariant 0 <= i <= |state.seats| == |old(state.seats)|
        invariant state == HandStart.PayAnteUpTo(old(state), i)
      {
        var p := state.seats[i];
        if p.Taken? && !p.player.hasFolded {
          ExecuteBet(i, ante);
          state := state.(seats := state.seats[i := Taken(state.seats[i].player.(bet := 0))]);
        }
        i := i + 1;
      }
    }

    method CountActive() returns (activeCount: nat)
      ensures activeCount == HandStart.ActiveCount(state.seats)
    {
      activeCount := 0;
      var i := 0;
      while i < |state.seats|
        invariant 0 <= i <= |state.seats|
        invariant activeCount == HandStart.ActiveCount(state.seats[..i])
      {
        assert state.seats[..i + 1][..i] == state.seats[..i];
        var p := state.seats[i];
        if p.Taken? && !p.player.hasFolded && p.player.stack > 0 {
          activeCount := activeCount + 1;
        }
        i := i + 1;
      }
      assert state.seats[..|state.seats|] == state.seats;
    }

    /** Deals the hand: button, antes, blinds, first turn. False when the hand cannot start. */
    method StartPreFlop() returns (started: bool)
      requires Shape(state)
      modifies this
      ensures match HandStart.StartPreFlop(old(state))
              case CannotStart => !started && state == old(state)
              case Started(s) => started && state == s
    {
      var activeCount := CountActive();
      if activeCount < 2 {
        return false;
      }
      Ring.SuccIsMod(state.buttonUser, |state.seats|);
      var btnIdx := FindNextActiveSeat((state.buttonUser + 1) % |state.seats|);
      if btnIdx == -1 {
        return false;
      }
      var sbIdx := btnIdx;
      Ring.SuccIsMod(btnIdx, |state.seats|);
      if activeCount != 2 {
        sbIdx := FindNextActiveSeat((btnIdx + 1) % |state.seats|);
      }
      if sbIdx == -1 {
        return false;
      }
      Ring.SuccIsMod(sbIdx, |state.seats|);
      var bbIdx := FindNextActiveSeat((sbIdx + 1) % |state.seats|);
      if bbIdx == -1 {
        return false;
      }
      state := state.(buttonUser := btnIdx);
      if state.ante > 0 {
        PayAnte(state.ante);
      }
      PayBlindsAndOpen(sbIdx, bbIdx);
      return true;
    }

    method PayBlindsAndOpen(sbIdx: int, bbIdx: int)
      requires SeatTaken(state, sbIdx) && SeatTaken(state, bbIdx)
      modifies this
      ensures state == HandStart.PostBlinds(old(state), sbIdx, bbIdx)
    {
      var amount := state.smallBlind;
      ExecuteBet(sbIdx, amount);
      ExecuteBet(bbIdx, amount * 2);
      state := state.(currentBet := state.smallBlind * 2);
      state := state.(lastRaiseSize := Some(state.smallBlind * 2));
      Ring.SuccIsMod(bbIdx, |state.seats|);
      var first := FindNextActiveSeat((bbIdx + 1) % |state.seats|);
      state := state.(turn := first);
      state := state.(phase := PRE_FLOP);
      var over := ShouldGoToShowdown();
      if over {
        CalculateSidePots();
        state := state.(phase := SHOWDOWN);
        state := state.(turn := -1);
      }
    }

    /** Clears the table for the next hand; seats without chips are given up. */
    method InitTable()
      modifies this
      ensures state == HandStart.InitTable(old(state))
    {
      var i := 0;
      while i < |state.seats|
        invariant 0 <= i <= |state.seats| == |old(state.seats)|
        invariant state == old(state).(seats := state.seats)
        invariant forall k :: 0 <= k < i ==> state.seats[k] == HandStart.SeatForNextHand(old(state.seats)[k])
        invariant forall k :: i <= k < |state.seats| ==> state.seats[k] == old(state.seats)[k]
      {
        var p := state.seats[i];
        if p.Taken? && p.player.stack > 0 {
          var player := p.player.(bet := 0, totalContributed := 0);
          player := player.(hasFolded := false, isAllIn := false, hasChecked := false);
          state := state.(seats := state.seats[i := Taken(player)]);
        } else {
          state := state.(seats := state.seats[i := Empty]);
        }
        i := i + 1;
      }
      state := state.(pot := 0, currentBet := 0, lastRaiseSize := None, sidePots := [], actionDeadline := None);
      state := state.(phase := WAITING);
    }

    method FindPlayer(id: PlayerId) returns (seat: int)
      ensures seat == HandStart.SeatOf(state.seats, id)
    {
      var i := 0;
      while i < |state.seats|
        invariant 0 <= i <= |state.seats|
        invariant HandStart.SeatOf(state.seats, id) == HandStart.SeatOfFrom(state.seats, id, i)
      {
        var p := state.seats[i];
        if p.Taken? && p.player.id == id {
          return i;
        }
        i := i + 1;
      }
      return -1;
    }

    method ApplyRebuy(playerId: PlayerId, amount: int)
      modifies this
      ensures state == HandStart.ApplyRebuy(old(state), playerId, amount)
    {
      if amount <= 0 {
        return;
      }
      var i := FindPlayer(playerId);
      if i == -1 {
        return;
      }
      var player := state.seats[i].player.(stack := state.seats[i].player.stack + amount);
      player := player.(bet := 0);
      player := player.(hasFolded := false);
      player := player.(isAllIn := false);
      state := state.(seats := state.seats[i := Taken(player)]);
    }

    static lemma TopOfPrefix(ss: seq<Seat>, i: nat)
      requires i < |ss|
      ensures Settlement.SecondHighest(ss[..i], i) ==
              if Settlement.TopSeat(ss[..i]) == -1 then 0 else Contributed(ss[Settlement.TopSeat(ss[..i])])
    {
    }

    /** The first seat with the highest contribution, and the highest contribution of the others. */
    method FindOverachiever() returns (overachiever: int, secondHighest: int)
      ensures overachiever == Settlement.TopSeat(state.seats)
      ensures secondHighest == if overachiever == -1 then 0 else Settlement.SecondHighest(state.seats, overachiever)
    {
      overachiever, secondHighest := -1, 0;
      var i := 0;
      while i < |state.seats|
        invariant 0 <= i <= |state.seats|
        invariant overachiever == Settlement.TopSeat(state.seats[..i])
        invariant secondHighest ==
                  if overachiever == -1 then 0 else Settlement.SecondHighest(state.seats[..i], overachiever)
      {
        assert state.seats[..i + 1][..i] == state.seats[..i];
        TopOfPrefix(state.seats, i);
        var c := Contributed(state.seats[i]);
        var highest := if overachiever == -1 then 0 else Contributed(state.seats[overachiever]);
        if c > highest {
          secondHighest := highest;
          overachiever := i;
        } else if overachiever != -1 && c > secondHighest {
          secondHighest := c;
        }
        i := i + 1;
      }
      assert state.seats[..|state.seats|] == state.seats;
    }

    /** Returns what nobody called: the highest contribution above the second highest. */
    method RefundUncalledBets()
      modifies this
      ensures state == Settlement.Refund(old(state))
    {
      var overachiever, secondHighest := FindOverachiever();
      if overachiever == -1 {
        return;
      }
      var player := state.seats[overachiever].player;
      if player.totalContributed > secondHighest {
        var refundAmount := player.totalContributed - secondHighest;
        player := player.(stack := player.stack + refundAmount);
        player := player.(totalContributed := player.totalContributed - refundAmount);
        state := state.(seats := state.seats[overachiever := Taken(player)]);
        state := state.(pot := state.pot - refundAmount);
      }
    }

    /** The winners' seats in the order in which they are named. */
    method FindWinners(winnerIds: seq<PlayerId>) returns (seats: seq<int>)
      ensures seats == Settlement.SeatsOf(state.seats, winnerIds)
    {
      seats := [];
      var w := 0;
      while w < |winnerIds|
        invariant 0 <= w <= |winnerIds|
        invariant Settlement.SeatsOf(state.seats, winnerIds) == seats + Settlement.SeatsOf(state.seats, winnerIds[w..])
      {
        var seat := FindPlayer(winnerIds[w]);
        assert winnerIds[w..][1..] == winnerIds[w + 1..] && winnerIds[w..][0] == winnerIds[w];
        if seat != -1 {
          seats := seats + [seat];
        }
        w := w + 1;
      }
    }

    /** Pays one pot to tied winners; odd chips go clockwise from the seat after the button. */
    method SplitPot(amount: int, winnerIds: seq<PlayerId>)
      requires 0 <= state.buttonUser < |state.seats|
      modifies this
      ensures state ==
              old(state).(seats := Settlement.SplitPot(old(state).seats, old(state).buttonUser, amount, winnerIds))
    {
      var seats := FindWinners(winnerIds);
      if |seats| == 0 {
        return;
      }
      var share := amount / |seats|;
      var remainder := amount - share * |seats|;
      var order := Settlement.ByButton(seats, state.buttonUser, |state.seats|);
      ghost var winners := Settlement.WinnersInOrder(state.seats, state.buttonUser, winnerIds);
      PayInOrder(order, share, remainder);
    }

    method PayInOrder(order: seq<int>, share: int, initialRemainder: int)
      requires forall k :: 0 <= k < |order| ==> 0 <= order[k] < |state.seats| && state.seats[order[k]].Taken?
      modifies this
      ensures state == old(state).(seats := Settlement.PayOrder(old(state).seats, order, share, initialRemainder))
    {
      var remainder := initialRemainder;
      var k := 0;
      while k < |order|
        invariant 0 <= k <= |order| && |state.seats| == |old(state).seats|
        invariant state == old(state).(seats := state.seats)
        invariant forall j :: k <= j < |order| ==> state.seats[order[j]].Taken?
        invariant Settlement.PayOrder(old(state).seats, order, share, initialRemainder)
                  == Settlement.PayOrder(state.seats, order[k..], share, remainder)
      {
        var seat := order[k];
        var extra := if remainder > 0 then 1 else 0;
        remainder := remainder - extra;
        var player := state.seats[seat].player;
        assert order[k..][1..] == order[k + 1..] && order[k..][0] == seat;
        state := state.(seats := state.seats[seat := Taken(player.(stack := player.stack + (share + extra)))]);
        k := k + 1;
      }
      assert order[|order|..] == [];
    }

    method ResetStatus()
      modifies this
      ensures state == old(state).(seats := Settlement.ResetStatus(old(state).seats))
    {
      var i := 0;
      while i < |state.seats|
        invariant 0 <= i <= |state.seats| == |old(state.seats)|
        invariant state == old(state).(seats := state.seats)
        invariant forall k :: 0 <= k < i ==> state.seats[k] == Settlement.StatusReset(old(state.seats)[k])
        invariant forall k :: i <= k < |state.seats| ==> state.seats[k] == old(state.seats)[k]
      {
        var p := state.seats[i];
        if p.Taken? {
          var reset := p.player.(hasFolded := false, hasChecked := false, isAllIn := false);
          state := state.(seats := state.seats[i := Taken(reset)]);
        }
        i := i + 1;
      }
    }

    /** The claims on all side pots, or that some pot has none. */
    method CollectClaims(rankedWinners: seq<seq<PlayerId>>) returns (claims: seq<seq<PlayerId>>, complete: bool)
      ensures |claims| == |state.sidePots|
      ensures forall k :: 0 <= k < |claims| ==>
              claims[k] == Settlement.ClaimOf(state.sidePots[k].relevantPlayerIds, rankedWinners)
      ensures complete <==> Settlement.AllClaimed(state.sidePots, rankedWinners)
    {
      claims, complete := [], true;
      var k := 0;
      while k < |state.sidePots|
        invariant 0 <= k == |claims| <= |state.sidePots|
        invariant forall q :: 0 <= q < k ==>
                  claims[q] == Settlement.ClaimOf(state.sidePots[q].relevantPlayerIds, rankedWinners)
        invariant complete <==> forall q :: 0 <= q < k ==> |claims[q]| > 0
      {
        var claim := Settlement.ClaimOf(state.sidePots[k].relevantPlayerIds, rankedWinners);
        claims := claims + [claim];
        if |claim| == 0 {
          complete := false;
        }
        k := k + 1;
      }
    }

    /** Settles the hand: refund, side pots, all claims checked before the first chip moves, payout. */
    method ResolveWinner(rankedWinners: seq<seq<PlayerId>>) returns (answer: ResolveAnswer)
      requires Shape(state)
      modifies this
      ensures match Settlement.Resolve(old(state), rankedWinners)
              case NotShowdown => answer == NotInShowdown && state == old(state)
              case Unclaimed(s) => answer == PotUnclaimed && state == s
              case HandSettled(s) => answer == Resolved && state == s
    {
      if state.phase != SHOWDOWN {
        return NotInShowdown;
      }
      RefundUncalledBets();
      CalculateSidePots();
      ghost var refunded := Settlement.Refund(old(state));
      var claims, complete := CollectClaims(rankedWinners);
      if !complete {
        return PotUnclaimed;
      }
      var pots := state.sidePots;
      var k := 0;
      while k < |pots|
        invariant 0 <= k <= |pots| && |state.seats| == |refunded.seats|
        invariant state == refunded.(sidePots := pots, seats := state.seats)
        invariant state.seats == Settlement.PayPots(refunded.seats, refunded.buttonUser, pots, rankedWinners, k)
      {
        SplitPot(pots[k].amount, claims[k]);
        k := k + 1;
      }
      state := state.(pot := 0);
      state := state.(sidePots := []);
      state := state.(phase := HAND_END);
      ResetStatus();
      return Resolved;
    }
  }
}

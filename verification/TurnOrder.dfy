/**
 * What every action keeps: the money of the hand, and the order of the turns. The seats that still
 * owe an action are one clockwise run that starts at the seat to act.
 */
module TurnOrder {
  import opened Sums
  import opened TableTypes
  import opened Ring
  import opened Betting

  ghost predicate SeatOk(x: Seat, currentBet: int) {
    x.Taken? ==>
      && 0 <= x.player.stack
      && 0 <= x.player.bet <= currentBet
      && x.player.bet <= x.player.totalContributed
      && (!x.player.hasFolded ==>
            && (x.player.isAllIn <==> x.player.stack == 0)
            && x.player.stack + x.player.totalContributed > 0)
  }

  /** The money side of a hand in progress: the pot is exactly what the players put in. */
  ghost predicate HandInv(s: TableState) {
    && Shape(s)
    && DistinctIds(s.seats)
    && (forall i :: 0 <= i < |s.seats| ==> SeatOk(s.seats[i], s.currentBet))
    && s.pot == Sum(Contributions(s.seats))
    && s.smallBlind > 0
    && 0 <= s.currentBet
    && s.lastRaiseSize.Some? && s.lastRaiseSize.value >= s.smallBlind * 2
  }

  /** The seat can still act and has not yet acted on the current bet. */
  ghost predicate Owes(x: Seat, currentBet: int) {
    Live(x) && (!x.player.hasChecked || x.player.bet < currentBet)
  }

  /** Going clockwise from `start`, the live seats that owe come before all that do not. */
  ghost predicate OwingRun(ss: seq<Seat>, currentBet: int, start: int)
    requires 0 <= start < |ss|
  {
    forall i, j ::
      && 0 <= i < |ss| && 0 <= j < |ss|
      && Live(ss[i]) && Owes(ss[j], currentBet)
      && Dist(start, i, |ss|) < Dist(start, j, |ss|)
      ==> Owes(ss[i], currentBet)
  }

  ghost predicate SomeoneInHand(ss: seq<Seat>) {
    exists i :: 0 <= i < |ss| && InHand(ss[i])
  }

  /** A betting street waiting for the seat `turn`. */
  ghost predicate BettingInv(s: TableState) {
    && HandInv(s)
    && BettingPhase(s.phase)
    && 0 <= s.turn
    && Owes(s.seats[s.turn], s.currentBet)
    && OwingRun(s.seats, s.currentBet, s.turn)
    && !ShouldGoToShowdown(s)
  }

  ghost predicate ShowdownInv(s: TableState) {
    && HandInv(s)
    && s.phase == SHOWDOWN
    && s.turn == -1
    && SomeoneInHand(s.seats)
  }

  /** The moment after the seat `turn` has acted and before the turn is handed on. */
  ghost predicate TurnTaken(s: TableState) {
    && HandInv(s)
    && BettingPhase(s.phase)
    && 0 <= s.turn
    && !Owes(s.seats[s.turn], s.currentBet)
    && OwingRun(s.seats, s.currentBet, Succ(s.turn, |s.seats|))
    && SomeoneInHand(s.seats)
  }

  lemma DistFromSucc(t: int, n: int)
    requires 0 <= t < n
    ensures forall i :: 0 <= i < n && i != t ==> Dist(t, i, n) == Dist(Succ(t, n), i, n) + 1
    ensures Dist(Succ(t, n), t, n) == n - 1 && Dist(t, t, n) == 0
  {
  }

  lemma DistRebase(a: int, b: int, n: int)
    requires 0 <= a < n && 0 <= b < n
    ensures forall i :: 0 <= i < n && Dist(a, i, n) >= Dist(a, b, n) ==> Dist(b, i, n) == Dist(a, i, n) - Dist(a, b, n)
  {
  }

  lemma DistDistinct(a: int, n: int)
    requires 0 <= a < n
    ensures forall i, j :: 0 <= i < n && 0 <= j < n && i != j ==> Dist(a, i, n) != Dist(a, j, n)
  {
  }

  /** Replacing a player by the same player with chips moved to the pot keeps the money side. */
  lemma SetPlayerKeepsHand(s: TableState, i: int, p: TablePlayer, paid: int)
    requires HandInv(s) && SeatTaken(s, i)
    requires SeatOk(Taken(p), s.currentBet) && p.id == s.seats[i].player.id
    requires p.totalContributed == s.seats[i].player.totalContributed + paid
    requires p.stack == s.seats[i].player.stack - paid
    ensures HandInv(SetPlayer(s, i, p).(pot := s.pot + paid))
    ensures Chips(SetPlayer(s, i, p).(pot := s.pot + paid)) == Chips(s)
  {
    SeatUpdateSums(s.seats, i, Taken(p));
  }

  /** After the seat at `turn` acted and nobody else's seat changed, only that seat left the run. */
  lemma OwingRunWithout(s: TableState, s': TableState)
    requires BettingInv(s) && |s'.seats| == |s.seats| && s'.turn == s.turn
    requires forall i :: 0 <= i < |s.seats| && i != s.turn ==> s'.seats[i] == s.seats[i]
    requires s'.currentBet == s.currentBet && !Owes(s'.seats[s.turn], s.currentBet)
    ensures OwingRun(s'.seats, s'.currentBet, Succ(s.turn, |s.seats|))
  {
    DistFromSucc(s.turn, |s.seats|);
  }

  /** When everybody else who can act owes, the run is complete whatever the order. */
  lemma OwingRunOfAll(ss: seq<Seat>, currentBet: int, t: int)
    requires 0 <= t < |ss|
    requires forall i :: 0 <= i < |ss| && i != t && Live(ss[i]) ==> Owes(ss[i], currentBet)
    requires !Owes(ss[t], currentBet)
    ensures OwingRun(ss, currentBet, Succ(t, |ss|))
  {
    DistFromSucc(t, |ss|);
  }

  lemma SomeoneElse(s: TableState, t: int) returns (w: int)
    requires !AtMostOneInHand(s.seats)
    ensures 0 <= w < |s.seats| && w != t && InHand(s.seats[w])
  {
    var i, j :| 0 <= i < j < |s.seats| && InHand(s.seats[i]) && InHand(s.seats[j]);
    w := if i == t then j else i;
  }

  lemma FoldTakesTurn(s: TableState)
    requires BettingInv(s)
    ensures TurnTaken(Folded(s, s.turn)) && Chips(Folded(s, s.turn)) == Chips(s)
  {
    var p := s.seats[s.turn].player;
    SetPlayerKeepsHand(s, s.turn, p.(hasFolded := true), 0);
    OwingRunWithout(s, Folded(s, s.turn));
    var w := SomeoneElse(s, s.turn);
    assert InHand(Folded(s, s.turn).seats[w]);
  }

  lemma CheckTakesTurn(s: TableState)
    requires BettingInv(s) && s.seats[s.turn].player.bet == s.currentBet
    ensures TurnTaken(Checked(s, s.turn)) && Chips(Checked(s, s.turn)) == Chips(s)
  {
    var p := s.seats[s.turn].player;
    SetPlayerKeepsHand(s, s.turn, p.(hasChecked := true), 0);
    OwingRunWithout(s, Checked(s, s.turn));
    assert InHand(Checked(s, s.turn).seats[s.turn]);
  }

  /** One seat has acted, paid `paid` into the pot and owes nothing more. */
  lemma OneSeatTookTurn(s: TableState, p: TablePlayer, paid: int)
    requires BettingInv(s) && SeatOk(Taken(p), s.currentBet) && p.id == s.seats[s.turn].player.id
    requires p.totalContributed == s.seats[s.turn].player.totalContributed + paid
    requires p.stack == s.seats[s.turn].player.stack - paid
    requires !p.hasFolded && !Owes(Taken(p), s.currentBet)
    ensures var s' := SetPlayer(s, s.turn, p).(pot := s.pot + paid);
            TurnTaken(s') && Chips(s') == Chips(s)
  {
    var s' := SetPlayer(s, s.turn, p).(pot := s.pot + paid);
    SetPlayerKeepsHand(s, s.turn, p, paid);
    OwingRunWithout(s, s');
    assert InHand(s'.seats[s.turn]);
  }

  /** The player after a call. */
  function Caller(p: TablePlayer, currentBet: int): TablePlayer {
    Paid(p, Min(currentBet - p.bet, p.stack)).(hasChecked := true)
  }

  lemma CallIs(s: TableState, i: int)
    requires SeatTaken(s, i)
    ensures var p := s.seats[i].player;
            HandleCall(s, i) ==
              SetPlayer(s, i, Caller(p, s.currentBet)).(pot := s.pot + Min(s.currentBet - p.bet, p.stack))
  {
  }

  lemma CallerOk(p: TablePlayer, currentBet: int)
    requires SeatOk(Taken(p), currentBet) && Live(Taken(p))
    ensures var p' := Caller(p, currentBet);
            && SeatOk(Taken(p'), currentBet) && !Owes(Taken(p'), currentBet)
            && p'.id == p.id && !p'.hasFolded
            && p'.totalContributed == p.totalContributed + Min(currentBet - p.bet, p.stack)
            && p'.stack == p.stack - Min(currentBet - p.bet, p.stack)
  {
  }

  lemma CallTakesTurn(s: TableState)
    requires BettingInv(s)
    ensures TurnTaken(HandleCall(s, s.turn)) && Chips(HandleCall(s, s.turn)) == Chips(s)
  {
    var p := s.seats[s.turn].player;
    assert SeatOk(s.seats[s.turn], s.currentBet);
    CallerOk(p, s.currentBet);
    OneSeatTookTurn(s, Caller(p, s.currentBet), Min(s.currentBet - p.bet, p.stack));
    CallIs(s, s.turn);
  }

  /** The player after an accepted raise. */
  function Raiser(p: TablePlayer, betAmount: int): TablePlayer {
    Paid(p, Min(betAmount - p.bet, p.stack)).(hasChecked := true)
  }

  /** The state after an accepted raise, seat by seat. */
  lemma RaiseShape(s: TableState, betAmount: int)
    requires BettingInv(s) && HandleRaise(s, s.turn, betAmount).Done?
    ensures var s' := HandleRaise(s, s.turn, betAmount).state;
            var p := s.seats[s.turn].player;
            var p' := Raiser(p, betAmount);
            var full := p'.bet - s.currentBet >= MinRaiseSize(s);
            && !p.hasChecked
            && s' == s.(seats := s'.seats, pot := s.pot + Min(betAmount - p.bet, p.stack),
                        currentBet := Max(s.currentBet, p'.bet),
                        lastRaiseSize := if full then Some(p'.bet - s.currentBet) else s.lastRaiseSize)
            && |s'.seats| == |s.seats|
            && s'.seats[s.turn] == Taken(p')
            && (forall i :: 0 <= i < |s.seats| && i != s.turn ==>
                  s'.seats[i] == if full then Reopened(s.seats[i]) else s.seats[i])
            && (!full ==> p'.isAllIn)
            && (p'.isAllIn <==> p'.stack == 0)
  {
  }

  lemma RaiserOk(s: TableState, betAmount: int)
    requires BettingInv(s) && HandleRaise(s, s.turn, betAmount).Done?
    ensures var p' := Raiser(s.seats[s.turn].player, betAmount);
            SeatOk(Taken(p'), Max(s.currentBet, p'.bet))
  {
    assert SeatOk(s.seats[s.turn], s.currentBet);
  }

  lemma ReopenedOk(x: Seat, currentBet: int, raised: int)
    requires SeatOk(x, currentBet) && currentBet <= raised
    ensures SeatOk(x, raised) && SeatOk(Reopened(x), raised)
  {
  }

  lemma RaiseKeepsSeats(s: TableState, betAmount: int)
    requires BettingInv(s) && HandleRaise(s, s.turn, betAmount).Done?
    ensures var s' := HandleRaise(s, s.turn, betAmount).state;
            && DistinctIds(s'.seats)
            && forall i :: 0 <= i < |s'.seats| ==> SeatOk(s'.seats[i], s'.currentBet)
  {
    RaiseShape(s, betAmount);
    var s' := HandleRaise(s, s.turn, betAmount).state;
    forall i | 0 <= i < |s'.seats| ensures SeatOk(s'.seats[i], s'.currentBet) {
      if i == s.turn {
        RaiserOk(s, betAmount);
      } else {
        ReopenedOk(s.seats[i], s.currentBet, s'.currentBet);
      }
    }
  }

  lemma RaiseKeepsSums(s: TableState, betAmount: int)
    requires BettingInv(s) && HandleRaise(s, s.turn, betAmount).Done?
    ensures var s' := HandleRaise(s, s.turn, betAmount).state;
            s'.pot == Sum(Contributions(s'.seats)) && Chips(s') == Chips(s)
  {
    RaiseShape(s, betAmount);
    var s' := HandleRaise(s, s.turn, betAmount).state;
    var p' := Raiser(s.seats[s.turn].player, betAmount);
    var moved := s.seats[s.turn := Taken(p')];
    SeatUpdateSums(s.seats, s.turn, Taken(p'));
    assert Stacks(s'.seats) == Stacks(moved);
    assert Contributions(s'.seats) == Contributions(moved);
  }

  lemma RaiseKeepsHand(s: TableState, betAmount: int)
    requires BettingInv(s) && HandleRaise(s, s.turn, betAmount).Done?
    ensures var s' := HandleRaise(s, s.turn, betAmount).state;
            HandInv(s') && Chips(s') == Chips(s)
  {
    RaiseKeepsSeats(s, betAmount);
    RaiseKeepsSums(s, betAmount);
    RaiseShape(s, betAmount);
  }

  lemma RaiseTakesTurn(s: TableState, betAmount: int)
    requires BettingInv(s) && HandleRaise(s, s.turn, betAmount).Done?
    ensures var s' := HandleRaise(s, s.turn, betAmount).state;
            TurnTaken(s') && Chips(s') == Chips(s)
  {
    RaiseKeepsHand(s, betAmount);
    RaiseShape(s, betAmount);
    var s' := HandleRaise(s, s.turn, betAmount).state;
    var p' := Raiser(s.seats[s.turn].player, betAmount);
    assert InHand(s'.seats[s.turn]);
    if p'.bet > s.currentBet {
      OwingRunOfAll(s'.seats, s'.currentBet, s.turn);
    } else {
      OwingRunWithout(s, s');
    }
  }

  /** Every accepted action of the seat to act ends its turn and moves no chip off the table. */
  lemma PlayTakesTurn(s: TableState, action: ActionType, raiseAmount: Option<int>)
    requires BettingInv(s) && !DealerAction(action)
    requires Play(s, s.turn, action, raiseAmount).Done?
    ensures var s' := Play(s, s.turn, action, raiseAmount).state;
            TurnTaken(s') && Chips(s') == Chips(s)
            && s'.phase == s.phase && s'.turn == s.turn && |s'.seats| == |s.seats|
  {
    match action
    case FOLD => FoldTakesTurn(s);
    case TIME_OUT =>
      if s.seats[s.turn].player.bet < s.currentBet {
        FoldTakesTurn(s);
      } else {
        CheckTakesTurn(s);
      }
    case CHECK => CheckTakesTurn(s);
    case CALL => CallTakesTurn(s);
    case RAISE =>
      RaiseTakesTurn(s, raiseAmount.value);
      RaiseShape(s, raiseAmount.value);
  }

  /** If the next live seat owes nothing, nobody does: the street is complete. */
  lemma NobodyOwes(s: TableState, next: int)
    requires TurnTaken(s)
    requires next == NextLive(s.seats, Succ(s.turn, |s.seats|))
    requires 0 <= next < |s.seats| ==> !Owes(s.seats[next], s.currentBet)
    ensures forall i :: 0 <= i < |s.seats| ==> !Owes(s.seats[i], s.currentBet)
    ensures AllMatched(s) && EveryoneActed(s)
  {
    var start := Succ(s.turn, |s.seats|);
    NextLiveIsFirst(s.seats, start);
    DistDistinct(start, |s.seats|);
    forall i | 0 <= i < |s.seats| ensures !Owes(s.seats[i], s.currentBet) {
    }
    forall i | 0 <= i < |s.seats| && InHand(s.seats[i])
      ensures s.seats[i].player.bet == s.currentBet || s.seats[i].player.isAllIn
      ensures CanAct(s.seats[i]) ==> s.seats[i].player.hasChecked
    {
      assert SeatOk(s.seats[i], s.currentBet) && !Owes(s.seats[i], s.currentBet);
    }
  }

  lemma StreetClearedKeeps(ss: seq<Seat>)
    ensures Stacks(NewStreet(ss)) == Stacks(ss)
    ensures Contributions(NewStreet(ss)) == Contributions(ss)
  {
  }

  lemma NextPhaseKeepsHand(s: TableState)
    requires HandInv(s) && BettingPhase(s.phase)
    ensures HandInv(NextPhase(s)) && Chips(NextPhase(s)) == Chips(s)
  {
    var r := NextPhase(s);
    StreetClearedKeeps(s.seats);
    NextLiveIsFirst(r.seats, Succ(s.buttonUser, |s.seats|));
    forall i | 0 <= i < |r.seats| ensures SeatOk(r.seats[i], 0) {
      assert SeatOk(s.seats[i], s.currentBet);
    }
  }

  /** If the street is complete and there is no showdown yet, two players can still act. */
  lemma TwoCanAct(s: TableState)
    requires !ShouldGoToShowdown(s) && AllMatched(s)
    ensures !AtMostOneCanAct(s.seats)
  {
  }

  lemma FreshStreetInv(s: TableState)
    requires HandInv(s) && BettingPhase(s.phase) && s.currentBet == 0
    requires forall i :: 0 <= i < |s.seats| && s.seats[i].Taken? ==>
             s.seats[i].player.bet == 0 && !s.seats[i].player.hasChecked
    requires s.turn == NextLive(s.seats, Succ(s.buttonUser, |s.seats|))
    requires !AtMostOneCanAct(s.seats)
    ensures BettingInv(s)
  {
    NextLiveIsFirst(s.seats, Succ(s.buttonUser, |s.seats|));
    var i, j :| 0 <= i < j < |s.seats| && CanAct(s.seats[i]) && CanAct(s.seats[j]);
    assert SeatOk(s.seats[i], 0) && Live(s.seats[i]) && InHand(s.seats[j]);
    forall k | 0 <= k < |s.seats| && Live(s.seats[k]) ensures Owes(s.seats[k], 0) {
    }
  }

  lemma NewStreetKeepsActors(ss: seq<Seat>)
    requires !AtMostOneCanAct(ss)
    ensures !AtMostOneCanAct(NewStreet(ss)) && SomeoneInHand(NewStreet(ss))
  {
    var i, j :| 0 <= i < j < |ss| && CanAct(ss[i]) && CanAct(ss[j]);
    assert CanAct(NewStreet(ss)[i]) && CanAct(NewStreet(ss)[j]);
    assert InHand(NewStreet(ss)[i]);
  }

  /** A completed street with no showdown opens the next one in good order. */
  lemma NextPhaseInv(s: TableState)
    requires HandInv(s) && BettingPhase(s.phase) && !ShouldGoToShowdown(s) && AllMatched(s)
    ensures BettingInv(NextPhase(s)) || ShowdownInv(NextPhase(s))
    ensures Chips(NextPhase(s)) == Chips(s) && NextPhase(s).phase == Following(s.phase)
  {
    NextPhaseKeepsHand(s);
    TwoCanAct(s);
    NewStreetKeepsActors(s.seats);
    if s.phase != RIVER {
      FreshStreetInv(NextPhase(s));
    } else {
      assert ShowdownInv(NextPhase(s));
    }
  }

  lemma RebasedRun(ss: seq<Seat>, currentBet: int, start: int, t: int)
    requires 0 <= start < |ss| && 0 <= t < |ss|
    requires OwingRun(ss, currentBet, start)
    requires forall i :: 0 <= i < |ss| && Dist(start, i, |ss|) < Dist(start, t, |ss|) ==> !Live(ss[i])
    ensures OwingRun(ss, currentBet, t)
  {
    DistRebase(start, t, |ss|);
  }

  lemma NextSeatKeepsRun(s: TableState, next: int)
    requires TurnTaken(s) && !ShouldGoToShowdown(s)
    requires next == NextLive(s.seats, Succ(s.turn, |s.seats|)) && next != -1 && Owes(s.seats[next], s.currentBet)
    ensures !ShouldGoToNextPhase(s, next) && BettingInv(s.(turn := next))
  {
    var start := Succ(s.turn, |s.seats|);
    NextLiveIsFirst(s.seats, start);
    assert SeatOk(s.seats[next], s.currentBet);
    assert !ShouldGoToNextPhase(s, next);
    RebasedRun(s.seats, s.currentBet, start, next);
    assert HandInv(s.(turn := next));
  }

  lemma NextStreetFollows(s: TableState, next: int)
    requires TurnTaken(s) && !ShouldGoToShowdown(s)
    requires next == NextLive(s.seats, Succ(s.turn, |s.seats|)) && (next == -1 || !Owes(s.seats[next], s.currentBet))
    ensures ShouldGoToNextPhase(s, next) && HandedOn(s, NextPhase(s))
  {
    NextLiveIsFirst(s.seats, Succ(s.turn, |s.seats|));
    NobodyOwes(s, next);
    NextPhaseInv(s);
  }

  /** What handing on the turn leads to. */
  ghost predicate HandedOn(s: TableState, r: TableState) {
    && (BettingInv(r) || ShowdownInv(r)) && Chips(r) == Chips(s)
    && (r.phase == s.phase ==> r == s.(turn := r.turn))
    && (r.phase != s.phase ==> r.phase == SHOWDOWN || r.phase == Following(s.phase))
  }

  lemma ShowdownFollows(s: TableState)
    requires TurnTaken(s)
    ensures HandedOn(s, ToShowdown(s))
  {
  }

  lemma TurnGoesOn(s: TableState, next: int)
    requires TurnTaken(s) && BettingInv(s.(turn := next))
    ensures HandedOn(s, s.(turn := next))
  {
  }

  /** The three ways on, as `act` chooses them. */
  lemma WaysOn(s: TableState, next: int)
    requires Shape(s) && 0 <= s.turn && next == NextLive(s.seats, Succ(s.turn, |s.seats|))
    ensures Advance(s, true) ==
            if ShouldGoToShowdown(s) then ToShowdown(s)
            else if ShouldGoToNextPhase(s, next) then NextPhase(s)
            else s.(turn := next)
  {
  }

  /** Handing the turn on: the result is a street waiting for the right seat, or a showdown. */
  lemma AdvanceAfterTurn(s: TableState)
    requires TurnTaken(s)
    ensures HandedOn(s, Advance(s, true))
  {
    var next := NextLive(s.seats, Succ(s.turn, |s.seats|));
    WaysOn(s, next);
    if ShouldGoToShowdown(s) {
      ShowdownFollows(s);
    } else {
      NextLiveIsFirst(s.seats, Succ(s.turn, |s.seats|));
      if next == -1 || !Owes(s.seats[next], s.currentBet) {
        NextStreetFollows(s, next);
      } else {
        NextSeatKeepsRun(s, next);
        TurnGoesOn(s, next);
      }
    }
  }

  /** A dealer fold out of turn leaves the turn where it is, unless it ends the hand. */
  lemma FoldOutOfTurn(s: TableState, i: int)
    requires BettingInv(s) && SeatTaken(s, i) && i != s.turn
    ensures var r := Advance(Folded(s, i), false);
            (BettingInv(r) || ShowdownInv(r)) && Chips(r) == Chips(s)
            && (r.phase == s.phase ==> r == Folded(s, i))
            && (r.phase != s.phase ==> r == ToShowdown(Folded(s, i)))
  {
    var f := Folded(s, i);
    SetPlayerKeepsHand(s, i, s.seats[i].player.(hasFolded := true), 0);
    assert OwingRun(f.seats, f.currentBet, f.turn);
    assert SomeoneInHand(f.seats) by {
      var w := SomeoneElse(s, i);
      assert InHand(f.seats[w]);
    }
    assert SeatOk(f.seats[f.turn], f.currentBet) && CanAct(f.seats[f.turn]);
    assert !ShouldGoToNextPhase(f, f.turn);
  }

  /**
   * One step of a betting street, whoever takes it: an applied action leaves either a street waiting
   * for a seat that owes, or a showdown without a turn, and the chips on the table are the same.
   */
  lemma ActKeepsOrder(s: TableState, i: int, action: ActionType, raiseAmount: Option<int>)
    requires BettingInv(s) && Act(s, i, action, raiseAmount).Applied?
    ensures var r := Act(s, i, action, raiseAmount).state;
            (BettingInv(r) || ShowdownInv(r)) && Chips(r) == Chips(s)
  {
    if DealerAction(action) {
      if i == s.turn {
        FoldTakesTurn(s);
        AdvanceAfterTurn(Folded(s, i));
      } else {
        FoldOutOfTurn(s, i);
      }
    } else {
      PlayTakesTurn(s, action, raiseAmount);
      AdvanceAfterTurn(Play(s, i, action, raiseAmount).state);
    }
  }
}

/**
 * The betting round as functions of the snapshot: what one action does, when the street ends and
 * when the hand goes to showdown.
 */
module Betting {
  import opened Sums
  import opened TableTypes
  import opened Ring
  import opened SidePots

  datatype Refusal =
    | INVALID_PLAYER
    | NOT_BETTING
    | MUST_CALL
    | BAD_AMOUNT
    | BETTING_CLOSED
    | NOT_A_RAISE
    | BELOW_MINIMUM

  /** What the switch on the action made of the state; a refusal is an exception in the source. */
  datatype Played = Refused(why: Refusal) | Done(state: TableState)

  /** The answer of `act`: it threw, it returned false, or it returned true with a new state. */
  datatype ActOutcome = Rejected(why: Refusal) | Ignored | Applied(state: TableState)

  function SetPlayer(s: TableState, i: int, p: TablePlayer): TableState
    requires 0 <= i < |s.seats|
  {
    s.(seats := s.seats[i := Taken(p)])
  }

  function Paid(p: TablePlayer, amount: int): TablePlayer {
    var actual := Min(p.stack, amount);
    p.(stack := p.stack - actual,
       bet := p.bet + actual,
       totalContributed := p.totalContributed + actual,
       isAllIn := p.isAllIn || p.stack - actual <= 0)
  }

  /** `executeBet`: the one place where chips move from a stack into the pot. */
  function ExecuteBet(s: TableState, i: int, amount: int): TableState
    requires SeatTaken(s, i)
  {
    var p := s.seats[i].player;
    SetPlayer(s, i, Paid(p, amount)).(pot := s.pot + Min(p.stack, amount))
  }

  function Folded(s: TableState, i: int): TableState
    requires SeatTaken(s, i)
  {
    SetPlayer(s, i, s.seats[i].player.(hasFolded := true))
  }

  function Checked(s: TableState, i: int): TableState
    requires SeatTaken(s, i)
  {
    SetPlayer(s, i, s.seats[i].player.(hasChecked := true))
  }

  function HandleCall(s: TableState, i: int): TableState
    requires SeatTaken(s, i)
  {
    Checked(ExecuteBet(s, i, Min(s.currentBet - s.seats[i].player.bet, s.seats[i].player.stack)), i)
  }

  function Reopened(x: Seat): Seat {
    if CanAct(x) then Taken(x.player.(hasChecked := false)) else x
  }

  /** `resetChecked`: a full raise takes back everybody's check. */
  function ResetChecked(ss: seq<Seat>): (r: seq<Seat>)
    ensures |r| == |ss|
    ensures forall i :: 0 <= i < |ss| ==> r[i] == Reopened(ss[i])
  {
    seq(|ss|, i requires 0 <= i < |ss| => Reopened(ss[i]))
  }

  function MinRaiseSize(s: TableState): int {
    if s.lastRaiseSize.Some? then s.lastRaiseSize.value else s.smallBlind * 2
  }

  function HandleRaise(s: TableState, i: int, betAmount: int): Played
    requires SeatTaken(s, i)
  {
    var p := s.seats[i].player;
    var needed := betAmount - p.bet;
    if p.hasChecked then Refused(BETTING_CLOSED)
    else if betAmount <= s.currentBet then Refused(NOT_A_RAISE)
    else if needed <= 0 then Refused(BAD_AMOUNT)
    else if needed < p.stack && betAmount - s.currentBet < MinRaiseSize(s) then Refused(BELOW_MINIMUM)
    else Done(Checked(AfterRaise(ExecuteBet(s, i, Min(needed, p.stack)), i, MinRaiseSize(s)), i))
  }

  /** What a raise changes beyond the chips: the bet to call, and for a full raise the round itself. */
  function AfterRaise(s: TableState, i: int, minRaiseSize: int): (r: TableState)
    requires SeatTaken(s, i)
    ensures SeatTaken(r, i)
  {
    var bet := s.seats[i].player.bet;
    if bet <= s.currentBet then s
    else if bet - s.currentBet >= minRaiseSize then
      s.(seats := ResetChecked(s.seats), lastRaiseSize := Some(bet - s.currentBet), currentBet := bet)
    else s.(currentBet := bet)
  }

  function TimeOut(s: TableState, i: int): TableState
    requires SeatTaken(s, i)
  {
    var p := s.seats[i].player;
    if p.isAllIn then s
    else if p.bet < s.currentBet then Folded(s, i)
    else Checked(s, i)
  }

  /** The switch inside `act`, for the player whose turn it is. */
  function Play(s: TableState, i: int, action: ActionType, raiseAmount: Option<int>): Played
    requires SeatTaken(s, i)
  {
    match action
    case FOLD => Done(Folded(s, i))
    case TIME_OUT => Done(TimeOut(s, i))
    case CHECK => if s.seats[i].player.bet < s.currentBet then Refused(MUST_CALL) else Done(Checked(s, i))
    case CALL => Done(HandleCall(s, i))
    case RAISE =>
      if raiseAmount.None? || raiseAmount.value <= 0 then Refused(BAD_AMOUNT)
      else HandleRaise(s, i, raiseAmount.value)
    case DEALER_KICK => Done(s)
    case DEALER_FOLD => Done(s)
  }

  predicate AtMostOneInHand(ss: seq<Seat>) {
    forall i, j :: 0 <= i < j < |ss| ==> !(InHand(ss[i]) && InHand(ss[j]))
  }

  predicate AtMostOneCanAct(ss: seq<Seat>) {
    forall i, j :: 0 <= i < j < |ss| ==> !(CanAct(ss[i]) && CanAct(ss[j]))
  }

  /** `shouldGoToShowdown`. */
  predicate ShouldGoToShowdown(s: TableState) {
    || AtMostOneInHand(s.seats)
    || (&& AtMostOneCanAct(s.seats)
        && forall i :: 0 <= i < |s.seats| && CanAct(s.seats[i]) ==> s.seats[i].player.bet == s.currentBet)
  }

  predicate AllMatched(s: TableState) {
    forall i :: 0 <= i < |s.seats| && InHand(s.seats[i]) ==>
      s.seats[i].player.bet == s.currentBet || s.seats[i].player.isAllIn
  }

  predicate EveryoneActed(s: TableState) {
    forall i :: 0 <= i < |s.seats| && CanAct(s.seats[i]) ==> s.seats[i].player.hasChecked
  }

  predicate ShouldGoToNextPhase(s: TableState, nextTurn: int) {
    AllMatched(s) && (EveryoneActed(s) || nextTurn == -1)
  }

  function Following(p: GamePhase): GamePhase {
    match p
    case PRE_FLOP => FLOP
    case FLOP => TURN
    case TURN => RIVER
    case RIVER => SHOWDOWN
    case WAITING => WAITING
    case SHOWDOWN => SHOWDOWN
    case HAND_END => HAND_END
  }

  function StreetCleared(x: Seat): Seat {
    if x.Taken? then Taken(x.player.(bet := 0, hasChecked := false)) else x
  }

  function NewStreet(ss: seq<Seat>): (r: seq<Seat>)
    ensures |r| == |ss|
    ensures forall i :: 0 <= i < |ss| ==> r[i] == StreetCleared(ss[i])
  {
    seq(|ss|, i requires 0 <= i < |ss| => StreetCleared(ss[i]))
  }

  /** `nextPhase`. */
  function NextPhase(s: TableState): TableState
    requires Shape(s)
  {
    if s.phase == WAITING || s.phase == HAND_END then s
    else if s.phase == SHOWDOWN then s.(sidePots := SidePotsOf(s.seats))
    else
      var ss := NewStreet(s.seats);
      s.(sidePots := SidePotsOf(s.seats),
         phase := Following(s.phase),
         seats := ss,
         currentBet := 0,
         lastRaiseSize := Some(s.smallBlind * 2),
         turn := if s.phase == RIVER then -1 else NextLive(ss, Succ(s.buttonUser, |ss|)))
  }

  function ToShowdown(s: TableState): TableState {
    s.(sidePots := SidePotsOf(s.seats), phase := SHOWDOWN, turn := -1)
  }

  /** The end of `act`: showdown, the next street, or the next seat to act. */
  function Advance(s: TableState, wasTurn: bool): TableState
    requires Shape(s) && (wasTurn ==> 0 <= s.turn)
  {
    if ShouldGoToShowdown(s) then ToShowdown(s)
    else
      var nextTurn := if wasTurn then NextLive(s.seats, Succ(s.turn, |s.seats|)) else s.turn;
      if ShouldGoToNextPhase(s, nextTurn) then NextPhase(s) else s.(turn := nextTurn)
  }

  predicate DealerAction(action: ActionType) {
    action == DEALER_FOLD || action == DEALER_KICK
  }

  /** `act`. */
  function Act(s: TableState, i: int, action: ActionType, raiseAmount: Option<int>): ActOutcome
    requires Shape(s)
  {
    if !SeatTaken(s, i) then Rejected(INVALID_PLAYER)
    else if !BettingPhase(s.phase) then Rejected(NOT_BETTING)
    else if DealerAction(action) then Applied(Advance(Folded(s, i), s.turn == i))
    else if s.turn != i then Ignored
    else if s.seats[i].player.hasFolded then Applied(Advance(s, true))
    else
      match Play(s, i, action, raiseAmount)
      case Refused(why) => Rejected(why)
      case Done(s') => Applied(Advance(s', true))
  }
}

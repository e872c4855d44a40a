/** Every hand ends: whatever the players and the dealer choose, the betting reaches a showdown. */
module Termination {
  import opened Sums
  import opened TableTypes
  import opened Betting
  import opened TurnOrder

  function StreetsLeft(p: GamePhase): nat {
    match p
    case PRE_FLOP => 4
    case FLOP => 3
    case TURN => 2
    case RIVER => 1
    case WAITING => 0
    case SHOWDOWN => 0
    case HAND_END => 0
  }

  function InHandFlags(ss: seq<Seat>): (r: seq<int>)
    ensures |r| == |ss|
    ensures forall i :: 0 <= i < |ss| ==> r[i] == if InHand(ss[i]) then 1 else 0
  {
    seq(|ss|, i requires 0 <= i < |ss| => if InHand(ss[i]) then 1 else 0)
  }

  ghost function OwesFlags(ss: seq<Seat>, currentBet: int): (r: seq<int>)
    ensures |r| == |ss|
    ensures forall i :: 0 <= i < |ss| ==> r[i] == if Owes(ss[i], currentBet) then 1 else 0
  {
    seq(|ss|, i requires 0 <= i < |ss| => if Owes(ss[i], currentBet) then 1 else 0)
  }

  ghost function ChipsBehind(s: TableState): nat
    requires HandInv(s)
  {
    assert forall i :: 0 <= i < |s.seats| ==> SeatOk(s.seats[i], s.currentBet);
    SumNonNegative(Stacks(s.seats));
    Sum(Stacks(s.seats))
  }

  ghost function PlayersLeft(s: TableState): nat {
    SumNonNegative(InHandFlags(s.seats));
    Sum(InHandFlags(s.seats))
  }

  ghost function ActionsOwed(s: TableState): nat {
    SumNonNegative(OwesFlags(s.seats, s.currentBet));
    Sum(OwesFlags(s.seats, s.currentBet))
  }

  /** The hand has come closer to its end: streets left, chips behind, players left, actions owed. */
  ghost predicate Closer(s': TableState, s: TableState)
    requires HandInv(s) && HandInv(s')
  {
    || StreetsLeft(s'.phase) < StreetsLeft(s.phase)
    || (StreetsLeft(s'.phase) == StreetsLeft(s.phase)
        && (|| ChipsBehind(s') < ChipsBehind(s)
            || (ChipsBehind(s') == ChipsBehind(s)
                && (|| PlayersLeft(s') < PlayersLeft(s)
                    || (PlayersLeft(s') == PlayersLeft(s) && ActionsOwed(s') < ActionsOwed(s))))))
  }

  lemma FoldIsCloser(s: TableState, i: int)
    requires HandInv(s) && SeatTaken(s, i) && InHand(s.seats[i])
    requires HandInv(Folded(s, i))
    ensures Closer(Folded(s, i), s)
  {
    var f := Folded(s, i);
    assert Stacks(f.seats) == Stacks(s.seats);
    assert InHandFlags(f.seats) == InHandFlags(s.seats)[i := 0];
    SumUpdate(InHandFlags(s.seats), i, 0);
  }

  /** A check, or a call that costs nothing, settles one owed action. */
  lemma CheckIsCloser(s: TableState)
    requires BettingInv(s) && s.seats[s.turn].player.bet == s.currentBet
    requires HandInv(Checked(s, s.turn))
    ensures Closer(Checked(s, s.turn), s)
  {
    var c := Checked(s, s.turn);
    assert Stacks(c.seats) == Stacks(s.seats);
    assert InHandFlags(c.seats) == InHandFlags(s.seats);
    assert OwesFlags(c.seats, c.currentBet) == OwesFlags(s.seats, s.currentBet)[s.turn := 0];
    SumUpdate(OwesFlags(s.seats, s.currentBet), s.turn, 0);
  }

  lemma PayingIsCloser(s: TableState, s': TableState, i: nat)
    requires HandInv(s) && HandInv(s') && s'.phase == s.phase && |s'.seats| == |s.seats| && i < |s.seats|
    requires forall k :: 0 <= k < |s.seats| ==> StackOf(s'.seats[k]) <= StackOf(s.seats[k])
    requires StackOf(s'.seats[i]) < StackOf(s.seats[i])
    ensures Closer(s', s)
  {
    assert Stacks(s'.seats)[i] < Stacks(s.seats)[i];
    SumMonotone(Stacks(s'.seats), Stacks(s.seats));
  }

  lemma CallIsCloser(s: TableState)
    requires BettingInv(s) && HandInv(HandleCall(s, s.turn))
    ensures Closer(HandleCall(s, s.turn), s)
  {
    var p := s.seats[s.turn].player;
    var c := HandleCall(s, s.turn);
    if p.bet == s.currentBet {
      assert Paid(p, 0) == p;
      assert s.seats[s.turn := Taken(p)] == s.seats;
      assert ExecuteBet(s, s.turn, 0) == s;
      assert c == Checked(s, s.turn);
      CheckIsCloser(s);
    } else {
      PayingIsCloser(s, c, s.turn);
    }
  }

  lemma RaiseIsCloser(s: TableState, betAmount: int)
    requires BettingInv(s) && HandleRaise(s, s.turn, betAmount).Done?
    requires HandInv(HandleRaise(s, s.turn, betAmount).state)
    ensures Closer(HandleRaise(s, s.turn, betAmount).state, s)
  {
    RaiseShape(s, betAmount);
    PayingIsCloser(s, HandleRaise(s, s.turn, betAmount).state, s.turn);
  }

  lemma PlayIsCloser(s: TableState, action: ActionType, raiseAmount: Option<int>)
    requires BettingInv(s) && !DealerAction(action)
    requires Play(s, s.turn, action, raiseAmount).Done?
    ensures HandInv(Play(s, s.turn, action, raiseAmount).state)
    ensures Closer(Play(s, s.turn, action, raiseAmount).state, s)
  {
    PlayTakesTurn(s, action, raiseAmount);
    match action
    case FOLD => FoldIsCloser(s, s.turn);
    case TIME_OUT =>
      if s.seats[s.turn].player.bet < s.currentBet {
        FoldIsCloser(s, s.turn);
      } else {
        CheckIsCloser(s);
      }
    case CHECK => CheckIsCloser(s);
    case CALL => CallIsCloser(s);
    case RAISE => RaiseIsCloser(s, raiseAmount.value);
  }

  lemma TurnIsFree(s: TableState, s': TableState, turn: int)
    requires HandInv(s) && HandInv(s') && HandInv(s'.(turn := turn)) && Closer(s', s)
    ensures Closer(s'.(turn := turn), s)
  {
  }

  lemma LaterStreetIsCloser(s: TableState, r: TableState)
    requires HandInv(s) && HandInv(r) && BettingPhase(s.phase)
    requires r.phase == SHOWDOWN || r.phase == Following(s.phase)
    ensures Closer(r, s)
  {
  }

  lemma AdvanceIsNoFarther(s: TableState, s': TableState)
    requires HandInv(s) && BettingPhase(s.phase)
    requires TurnTaken(s') && s'.phase == s.phase && Closer(s', s)
    requires HandInv(Advance(s', true))
    ensures Closer(Advance(s', true), s)
  {
    AdvanceAfterTurn(s');
    var r := Advance(s', true);
    if r.phase == s'.phase {
      TurnIsFree(s, s', r.turn);
    } else {
      LaterStreetIsCloser(s, r);
    }
  }

  /** An applied action of the seat to act, and a dealer fold of anybody still in, make progress. */
  lemma ActIsCloser(s: TableState, i: int, action: ActionType, raiseAmount: Option<int>)
    requires BettingInv(s) && Act(s, i, action, raiseAmount).Applied?
    requires DealerAction(action) ==> InHand(s.seats[i])
    ensures var r := Act(s, i, action, raiseAmount).state;
            HandInv(r) && Closer(r, s)
  {
    ActKeepsOrder(s, i, action, raiseAmount);
    if DealerAction(action) {
      if i == s.turn {
        FoldTakesTurn(s);
        FoldIsCloser(s, i);
        AdvanceIsNoFarther(s, Folded(s, i));
      } else {
        FoldOutOfTurn(s, i);
        SetPlayerKeepsHand(s, i, s.seats[i].player.(hasFolded := true), 0);
        FoldIsCloser(s, i);
      }
    } else {
      PlayTakesTurn(s, action, raiseAmount);
      PlayIsCloser(s, action, raiseAmount);
      AdvanceIsNoFarther(s, Play(s, i, action, raiseAmount).state);
    }
  }

  /** The clock always has an answer: a time-out of the seat to act is accepted and applied. */
  lemma TimeOutAlwaysApplies(s: TableState)
    requires BettingInv(s)
    ensures Act(s, s.turn, TIME_OUT, None).Applied?
  {
  }

  /** What may happen next at a betting table: the seat to act plays, or the dealer folds somebody. */
  datatype Choice = PlayerActs(action: ActionType, raiseAmount: Option<int>) | DealerFolds(seat: int)

  /** The table's answer to a choice; a choice that is refused leaves the turn to the clock. */
  function Answer(s: TableState, c: Choice): TableState
    requires Shape(s)
  {
    var timedOut := Act(s, s.turn, TIME_OUT, None);
    var wanted :=
      match c
      case PlayerActs(action, raiseAmount) =>
        if DealerAction(action) then timedOut else Act(s, s.turn, action, raiseAmount)
      case DealerFolds(seat) =>
        if SeatTaken(s, seat) && InHand(s.seats[seat]) then Act(s, seat, DEALER_FOLD, None) else timedOut;
    if wanted.Applied? then wanted.state
    else if timedOut.Applied? then timedOut.state
    else s
  }

  lemma AnswerIsCloser(s: TableState, c: Choice)
    requires BettingInv(s)
    ensures var r := Answer(s, c);
            (BettingInv(r) || ShowdownInv(r)) && Closer(r, s) && Chips(r) == Chips(s)
  {
    TimeOutAlwaysApplies(s);
    ActKeepsOrder(s, s.turn, TIME_OUT, None);
    ActIsCloser(s, s.turn, TIME_OUT, None);
    match c
    case PlayerActs(action, raiseAmount) =>
      if !DealerAction(action) && Act(s, s.turn, action, raiseAmount).Applied? {
        ActKeepsOrder(s, s.turn, action, raiseAmount);
        ActIsCloser(s, s.turn, action, raiseAmount);
      }
    case DealerFolds(seat) =>
      if SeatTaken(s, seat) && InHand(s.seats[seat]) {
        ActKeepsOrder(s, seat, DEALER_FOLD, None);
        ActIsCloser(s, seat, DEALER_FOLD, None);
      }
  }

  /**
   * The rest of the hand under any strategy, which may depend on the table and on how many actions
   * have passed. That this function is total is the theorem: the hand always reaches a showdown.
   */
  ghost function PlayOut(s: TableState, choose: (nat, TableState) -> Choice, step: nat): (r: TableState)
    requires BettingInv(s) || ShowdownInv(s)
    ensures ShowdownInv(r)
    ensures Chips(r) == Chips(s)
    decreases StreetsLeft(s.phase), ChipsBehind(s), PlayersLeft(s), ActionsOwed(s)
  {
    if s.phase == SHOWDOWN then s
    else
      AnswerIsCloser(s, choose(step, s));
      PlayOut(Answer(s, choose(step, s)), choose, step + 1)
  }
}

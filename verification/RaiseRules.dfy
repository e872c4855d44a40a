/**
 * The no-limit raise rules along a street, stated against the history of the street: who has acted
 * since the last full raise, and how large that raise was.
 */
module RaiseRules {
  import opened TableTypes
  import opened Betting
  import opened TurnOrder
  import opened HandStart
  import opened Termination

  datatype Move = Move(seat: int, action: ActionType, raiseAmount: Option<int>)

  /** The raise of this move, if any, was at least the last full raise. */
  predicate FullRaise(s: TableState, s': TableState) {
    s'.currentBet - s.currentBet >= MinRaiseSize(s)
  }

  /** The seats that have acted since the street began or since its last full raise. */
  function ActedAfter(s: TableState, acted: set<int>, m: Move): set<int>
    requires Shape(s)
  {
    match Act(s, m.seat, m.action, m.raiseAmount)
    case Applied(s') =>
      if s'.phase != s.phase then {}
      else if m.action == RAISE && FullRaise(s, s') then {m.seat}
      else if DealerAction(m.action) then acted
      else acted + {m.seat}
    case Rejected(_) => acted
    case Ignored => acted
  }

  function StateAfter(s: TableState, m: Move): TableState
    requires Shape(s)
  {
    match Act(s, m.seat, m.action, m.raiseAmount)
    case Applied(s') => s'
    case Rejected(_) => s
    case Ignored => s
  }

  /** Among the seats that can still act, the check mark tells exactly who is in that history. */
  ghost predicate ChecksAreHistory(s: TableState, acted: set<int>) {
    forall i :: 0 <= i < |s.seats| && Live(s.seats[i]) ==> (s.seats[i].player.hasChecked <==> i in acted)
  }

  /** A street that has just been opened: nobody has acted, and the smallest raise is a big blind. */
  ghost predicate StreetOpen(s: TableState) {
    && BettingInv(s)
    && ChecksAreHistory(s, {})
    && s.lastRaiseSize == Some(s.smallBlind * 2)
  }

  lemma NewPhaseIsNext(s: TableState, wasTurn: bool)
    requires Shape(s) && BettingPhase(s.phase) && (wasTurn ==> 0 <= s.turn)
    requires Advance(s, wasTurn).phase != s.phase && BettingPhase(Advance(s, wasTurn).phase)
    ensures Advance(s, wasTurn) == NextPhase(s) && s.phase != RIVER
  {
  }

  lemma NextPhaseIsOpen(s: TableState)
    requires HandInv(s) && BettingPhase(s.phase) && s.phase != RIVER && BettingInv(NextPhase(s))
    ensures StreetOpen(NextPhase(s))
  {
    var r := NextPhase(s);
    forall i | 0 <= i < |r.seats| && r.seats[i].Taken? ensures !r.seats[i].player.hasChecked {
      assert r.seats[i] == StreetCleared(s.seats[i]);
    }
  }

  lemma NewPhaseIsOpen(s: TableState, wasTurn: bool)
    requires HandInv(s) && BettingPhase(s.phase) && (wasTurn ==> 0 <= s.turn)
    requires Advance(s, wasTurn).phase != s.phase && BettingInv(Advance(s, wasTurn))
    ensures StreetOpen(Advance(s, wasTurn))
  {
    NewPhaseIsNext(s, wasTurn);
    NextPhaseIsOpen(s);
  }

  lemma RaiseKeepsHistory(s: TableState, acted: set<int>, betAmount: int)
    requires BettingInv(s) && ChecksAreHistory(s, acted) && HandleRaise(s, s.turn, betAmount).Done?
    ensures var s' := HandleRaise(s, s.turn, betAmount).state;
            && s'.lastRaiseSize.Some?
            && (FullRaise(s, s') ==>
                  ChecksAreHistory(s', {s.turn}) && s'.lastRaiseSize.value == s'.currentBet - s.currentBet)
            && (!FullRaise(s, s') ==> ChecksAreHistory(s', acted + {s.turn}) && s'.lastRaiseSize == s.lastRaiseSize)
            && s'.lastRaiseSize.value >= s.lastRaiseSize.value
            && s'.currentBet >= s.currentBet
  {
    RaiseShape(s, betAmount);
  }

  /** What one accepted play of the seat to act does to the history and to the raise size. */
  lemma PlayKeepsHistory(s: TableState, acted: set<int>, action: ActionType, raiseAmount: Option<int>)
    requires BettingInv(s) && ChecksAreHistory(s, acted) && !DealerAction(action)
    requires Play(s, s.turn, action, raiseAmount).Done?
    ensures var s' := Play(s, s.turn, action, raiseAmount).state;
            && s'.lastRaiseSize.Some?
            && ChecksAreHistory(s', if action == RAISE && FullRaise(s, s') then {s.turn} else acted + {s.turn})
            && s'.lastRaiseSize.value >= s.lastRaiseSize.value
            && s'.currentBet >= s.currentBet
  {
    if action == RAISE {
      RaiseKeepsHistory(s, acted, raiseAmount.value);
    }
  }

  /** What a step from `s` to `r` may do to the history of the street. */
  ghost predicate HistoryKept(s: TableState, r: TableState, acted': set<int>) {
    && (BettingInv(r) || ShowdownInv(r))
    && s.lastRaiseSize.Some?
    && StreetsLeft(r.phase) <= StreetsLeft(s.phase)
    && (StreetsLeft(r.phase) == StreetsLeft(s.phase) ==> r.phase == s.phase)
    && (r.phase == s.phase ==>
          && (BettingInv(r) ==> ChecksAreHistory(r, acted'))
          && r.lastRaiseSize.value >= s.lastRaiseSize.value
          && r.currentBet >= s.currentBet)
    && (r.phase != s.phase && BettingInv(r) ==> StreetOpen(r))
  }

  lemma SamePhaseKeepsHistory(s: TableState, r: TableState, acted: set<int>)
    requires HandInv(s) && ChecksAreHistory(s, acted)
    requires BettingInv(r) || ShowdownInv(r)
    requires r.phase == s.phase && r == s.(turn := r.turn)
    ensures HistoryKept(s, r, acted)
  {
  }

  lemma NewPhaseKeepsHistory(s: TableState, r: TableState, acted: set<int>)
    requires HandInv(s) && BettingPhase(s.phase)
    requires r.phase == SHOWDOWN || r.phase == Following(s.phase)
    requires (BettingInv(r) && StreetOpen(r)) || ShowdownInv(r)
    ensures HistoryKept(s, r, acted)
  {
  }

  lemma AdvanceKeepsHistory(s: TableState, acted: set<int>)
    requires TurnTaken(s) && ChecksAreHistory(s, acted)
    ensures HistoryKept(s, Advance(s, true), acted)
  {
    AdvanceAfterTurn(s);
    var r := Advance(s, true);
    if r.phase == s.phase {
      SamePhaseKeepsHistory(s, r, acted);
    } else {
      if BettingInv(r) {
        NewPhaseIsOpen(s, true);
      }
      NewPhaseKeepsHistory(s, r, acted);
    }
  }

  /** A history kept from the state after a play is kept from the state before it. */
  lemma HistoryFromBefore(s: TableState, s': TableState, r: TableState, acted: set<int>, all: set<int>)
    requires s.lastRaiseSize.Some? && s'.phase == s.phase
    requires HistoryKept(s', r, acted)
    requires s'.lastRaiseSize.value >= s.lastRaiseSize.value && s'.currentBet >= s.currentBet
    requires r.phase == s.phase ==> all == acted
    ensures HistoryKept(s, r, all)
  {
  }

  lemma PlayedMoveKeepsHistory(s: TableState, acted: set<int>, m: Move)
    requires BettingInv(s) && ChecksAreHistory(s, acted) && !DealerAction(m.action)
    requires Act(s, m.seat, m.action, m.raiseAmount).Applied?
    ensures HistoryKept(s, StateAfter(s, m), ActedAfter(s, acted, m))
  {
    PlayKeepsHistory(s, acted, m.action, m.raiseAmount);
    PlayTakesTurn(s, m.action, m.raiseAmount);
    var s' := Play(s, s.turn, m.action, m.raiseAmount).state;
    var history := if m.action == RAISE && FullRaise(s, s') then {s.turn} else acted + {s.turn};
    AdvanceKeepsHistory(s', history);
    AdvanceAfterTurn(s');
    HistoryFromBefore(s, s', Advance(s', true), history, ActedAfter(s, acted, m));
  }

  lemma DealerTurnKeepsHistory(s: TableState, acted: set<int>)
    requires BettingInv(s) && ChecksAreHistory(s, acted)
    ensures HistoryKept(s, Advance(Folded(s, s.turn), true), acted)
  {
    var f := Folded(s, s.turn);
    FoldTakesTurn(s);
    assert ChecksAreHistory(f, acted);
    AdvanceKeepsHistory(f, acted);
    HistoryFromBefore(s, f, Advance(f, true), acted, acted);
  }

  lemma OutOfTurnKeepsHistory(s: TableState, acted: set<int>, i: int)
    requires BettingInv(s) && ChecksAreHistory(s, acted) && SeatTaken(s, i) && i != s.turn
    ensures HistoryKept(s, Advance(Folded(s, i), false), acted)
  {
    FoldOutOfTurn(s, i);
    assert ChecksAreHistory(Folded(s, i), acted);
  }

  lemma DealerMoveKeepsHistory(s: TableState, acted: set<int>, m: Move)
    requires BettingInv(s) && ChecksAreHistory(s, acted) && SeatTaken(s, m.seat) && DealerAction(m.action)
    ensures HistoryKept(s, StateAfter(s, m), acted)
  {
    if m.seat == s.turn {
      DealerTurnKeepsHistory(s, acted);
    } else {
      OutOfTurnKeepsHistory(s, acted, m.seat);
    }
  }

  /** One move: the history goes on, or a new street begins with an empty one. */
  lemma MoveKeepsHistory(s: TableState, acted: set<int>, m: Move)
    requires BettingInv(s) && ChecksAreHistory(s, acted)
    ensures HistoryKept(s, StateAfter(s, m), ActedAfter(s, acted, m))
    ensures BettingInv(StateAfter(s, m)) ==> ChecksAreHistory(StateAfter(s, m), ActedAfter(s, acted, m))
  {
    if Act(s, m.seat, m.action, m.raiseAmount).Applied? {
      if DealerAction(m.action) {
        DealerMoveKeepsHistory(s, acted, m);
      } else {
        PlayedMoveKeepsHistory(s, acted, m);
      }
    }
  }

  /** The state and the history after a run of moves; the run ends early at a showdown. */
  ghost function Replay(s: TableState, acted: set<int>, moves: seq<Move>): (TableState, set<int>)
    requires Shape(s)
    decreases |moves|
  {
    if |moves| == 0 || !Shape(StateAfter(s, moves[0])) then (s, acted)
    else Replay(StateAfter(s, moves[0]), ActedAfter(s, acted, moves[0]), moves[1..])
  }

  /**
   * Over any run of moves: the check marks are the history, and within a street the raise size
   * never shrinks, so that it is always at least the big blind the street began with.
   */
  lemma {:induction false} RaiseHistory(s: TableState, acted: set<int>, moves: seq<Move>)
    requires (BettingInv(s) && ChecksAreHistory(s, acted)) || ShowdownInv(s)
    ensures var (r, history) := Replay(s, acted, moves);
            && (BettingInv(r) || ShowdownInv(r))
            && (BettingInv(r) ==> ChecksAreHistory(r, history))
            && (r.phase == s.phase ==> r.lastRaiseSize.value >= s.lastRaiseSize.value)
            && StreetsLeft(r.phase) <= StreetsLeft(s.phase)
    decreases |moves|
  {
    if |moves| > 0 {
      if BettingInv(s) {
        MoveKeepsHistory(s, acted, moves[0]);
      }
      RaiseHistory(StateAfter(s, moves[0]), ActedAfter(s, acted, moves[0]), moves[1..]);
    }
  }

  lemma RaiseAppliedIff(r: TableState, history: set<int>, amount: int)
    requires BettingInv(r) && ChecksAreHistory(r, history)
    ensures Act(r, r.turn, RAISE, Some(amount)).Applied? <==>
              && r.turn !in history
              && amount > r.currentBet
              && (amount - r.seats[r.turn].player.bet >= r.seats[r.turn].player.stack
                  || amount - r.currentBet >= r.lastRaiseSize.value)
  {
  }

  /**
   * When a raise is accepted, at any point of any run: the seat has not acted since the last full
   * raise, the amount tops the bet, and it is all-in or at least as large as the last full raise.
   */
  lemma RaiseAcceptedIff(s: TableState, moves: seq<Move>, amount: int)
    requires StreetOpen(s)
    ensures var (r, history) := Replay(s, {}, moves);
            BettingInv(r) ==>
              && r.lastRaiseSize.value >= r.smallBlind * 2
              && (Act(r, r.turn, RAISE, Some(amount)).Applied? <==>
                    && r.turn !in history
                    && amount > r.currentBet
                    && (amount - r.seats[r.turn].player.bet >= r.seats[r.turn].player.stack
                        || amount - r.currentBet >= r.lastRaiseSize.value))
  {
    RaiseHistory(s, {}, moves);
    var (r, history) := Replay(s, {}, moves);
    if BettingInv(r) {
      RaiseAppliedIff(r, history, amount);
    }
  }

  /** In a snapshot that records no raise yet, the least raise is the big blind. */
  lemma FirstRaiseIsTheBigBlind(s: TableState, amount: int)
    requires Shape(s) && BettingPhase(s.phase) && SeatTaken(s, s.turn) && s.lastRaiseSize.None?
    requires !s.seats[s.turn].player.hasFolded && !s.seats[s.turn].player.hasChecked && 0 <= s.currentBet
    ensures var p := s.seats[s.turn].player;
            Act(s, s.turn, RAISE, Some(amount)).Applied? <==>
              && amount > s.currentBet && amount > p.bet
              && (amount - p.bet >= p.stack || amount - s.currentBet >= s.smallBlind * 2)
  {
  }

  lemma ActedCallsOrFolds(r: TableState, amount: Option<int>)
    requires BettingInv(r) && r.seats[r.turn].player.hasChecked
    ensures r.seats[r.turn].player.bet < r.currentBet
    ensures Act(r, r.turn, RAISE, amount).Rejected? && Act(r, r.turn, CHECK, amount).Rejected?
    ensures Act(r, r.turn, CALL, amount).Applied? && Act(r, r.turn, FOLD, amount).Applied?
  {
  }

  /**
   * A seat that has acted since the last full raise and is asked again owes a call to a short
   * all-in: it can call or fold, and nothing else.
   */
  lemma OnlyCallOrFold(s: TableState, moves: seq<Move>, amount: Option<int>)
    requires StreetOpen(s)
    ensures var (r, history) := Replay(s, {}, moves);
            BettingInv(r) && r.turn in history ==>
              && r.seats[r.turn].player.bet < r.currentBet
              && Act(r, r.turn, RAISE, amount).Rejected? && Act(r, r.turn, CHECK, amount).Rejected?
              && Act(r, r.turn, CALL, amount).Applied? && Act(r, r.turn, FOLD, amount).Applied?
  {
    RaiseHistory(s, {}, moves);
    var (r, history) := Replay(s, {}, moves);
    if BettingInv(r) && r.turn in history {
      ActedCallsOrFolds(r, amount);
    }
  }

  /** The first street of a hand opens like every other one. */
  lemma PostedOpensStreet(s: TableState, sb: int, bb: int)
    requires AntesPaid(s) && SeatTaken(s, sb) && SeatTaken(s, bb) && sb != bb && s.smallBlind > 0
    requires BettingInv(PostBlinds(s, sb, bb))
    ensures StreetOpen(PostBlinds(s, sb, bb))
  {
    BlindsPostedKeep(s, sb, bb);
    assert PostBlinds(s, sb, bb).seats == BlindsPosted(s, sb, bb).seats;
  }

  lemma StartOpensStreet(s: TableState)
    requires HandReady(s) && s.smallBlind > 0 && 0 <= s.ante && StartPreFlop(s).Started?
    requires BettingInv(StartPreFlop(s).state)
    ensures StreetOpen(StartPreFlop(s).state)
  {
    var button, sb, bb := StartSeats(s);
    WithAntesPaid(s.(buttonUser := button));
    PostedOpensStreet(WithAntes(s.(buttonUser := button)), sb, bb);
  }
}

/**
 * A table over its whole life: hands are dealt, played, settled and cleared, players sit down in the
 * middle of a hand and rebuy after one. Every snapshot that can be reached is in order, and the chips
 * are exactly those that were brought to the table.
 */
module TableRuns {
  import opened TableTypes
  import opened SidePots
  import opened Betting
  import opened TurnOrder
  import opened HandStart
  import opened RaiseRules
  import opened Contributors
  import opened Settlement
  import opened Showdown

  datatype Event =
    | Deal(smallBlind: int, ante: int)
    | Play(move: Move)
    | Nominate(tiers: seq<seq<PlayerId>>)
    | Rebuy(id: PlayerId, amount: int)
    | NextHand
    | Sit(seat: int, id: PlayerId, stack: int)

  /** What holds of a snapshot in each phase. */
  ghost predicate TableInv(s: TableState) {
    match s.phase
    case WAITING => HandReady(s)
    case PRE_FLOP => BettingInv(s)
    case FLOP => BettingInv(s)
    case TURN => BettingInv(s)
    case RIVER => BettingInv(s)
    case SHOWDOWN => ShowdownInv(s)
    case HAND_END => HandEndInv(s)
  }

  /** A newcomer may take an empty seat, or after the hand the seat of a broke player. */
  predicate CanSit(s: TableState, seat: int, id: PlayerId, stack: int) {
    && 0 <= seat < |s.seats|
    && stack > 0
    && SeatOf(s.seats, id) == -1
    && (s.seats[seat].Empty? || (s.phase == HAND_END && StackOf(s.seats[seat]) == 0))
  }

  /** The seat as the entry writes it: folded unless the table is waiting for the next hand. */
  function Newcomer(s: TableState, id: PlayerId, stack: int): TablePlayer {
    TablePlayer(id, stack, 0, s.phase != WAITING, false, false, 0)
  }

  function Step(s: TableState, e: Event): TableState
    requires Shape(s)
  {
    match e
    case Deal(smallBlind, ante) =>
      if s.phase != WAITING || smallBlind <= 0 || ante < 0 then s
      else (match StartPreFlop(s.(smallBlind := smallBlind, ante := ante))
            case CannotStart => s
            case Started(dealt) => dealt)
    case Play(move) => StateAfter(s, move)
    case Nominate(tiers) =>
      (match Resolve(s, tiers)
       case HandSettled(settled) => settled
       case NotShowdown => s
       case Unclaimed(_) => s)
    case Rebuy(id, amount) => if s.phase == HAND_END then ApplyRebuy(s, id, amount) else s
    case NextHand => if s.phase == HAND_END then InitTable(s) else s
    case Sit(seat, id, stack) => if CanSit(s, seat, id, stack) then SetPlayer(s, seat, Newcomer(s, id, stack)) else s
  }

  /** The chips an event brings to the table. */
  function Brought(s: TableState, e: Event): int {
    match e
    case Rebuy(id, amount) => if s.phase == HAND_END && amount > 0 && SeatOf(s.seats, id) != -1 then amount else 0
    case Sit(seat, id, stack) => if CanSit(s, seat, id, stack) then stack else 0
    case Deal(_, _) => 0
    case Play(_) => 0
    case Nominate(_) => 0
    case NextHand => 0
  }

  /** The one event that may cost chips: settling a pot that nobody still in the hand has paid into. */
  ghost predicate PotHasOwner(s: TableState, e: Event) {
    e.Nominate? && s.phase == SHOWDOWN ==> SomeContender(s.seats) || AtMostOneContributed(s.seats)
  }

  lemma NewcomerKeepsHand(s: TableState, seat: int, id: PlayerId, stack: int)
    requires HandInv(s) && BettingPhase(s.phase) && CanSit(s, seat, id, stack)
    ensures HandInv(SetPlayer(s, seat, Newcomer(s, id, stack)))
  {
    SeatUpdateSums(s.seats, seat, Taken(Newcomer(s, id, stack)));
  }

  lemma NewcomerKeepsRun(s: TableState, seat: int, id: PlayerId, stack: int)
    requires BettingInv(s) && CanSit(s, seat, id, stack)
    ensures BettingInv(SetPlayer(s, seat, Newcomer(s, id, stack)))
  {
    var r := SetPlayer(s, seat, Newcomer(s, id, stack));
    assert !InHand(s.seats[seat]) && !InHand(r.seats[seat]);
    NewcomerKeepsHand(s, seat, id, stack);
    assert OwingRun(r.seats, r.currentBet, r.turn);
    NoNewShowdown(s, r, seat);
  }

  lemma NoNewShowdown(s: TableState, r: TableState, seat: int)
    requires !ShouldGoToShowdown(s) && |r.seats| == |s.seats| && 0 <= seat < |s.seats| && r.currentBet == s.currentBet
    requires forall i :: 0 <= i < |s.seats| && i != seat ==> r.seats[i] == s.seats[i]
    requires !InHand(s.seats[seat]) && !InHand(r.seats[seat])
    ensures !ShouldGoToShowdown(r)
  {
    var i, j :| 0 <= i < j < |s.seats| && InHand(s.seats[i]) && InHand(s.seats[j]);
    assert InHand(r.seats[i]) && InHand(r.seats[j]);
    if !AtMostOneCanAct(s.seats) {
      var a, b :| 0 <= a < b < |s.seats| && CanAct(s.seats[a]) && CanAct(s.seats[b]);
      assert CanAct(r.seats[a]) && CanAct(r.seats[b]);
    } else {
      var a :| 0 <= a < |s.seats| && CanAct(s.seats[a]) && s.seats[a].player.bet != s.currentBet;
      assert CanAct(r.seats[a]) && r.seats[a].player.bet != r.currentBet;
    }
  }

  lemma NewcomerKeepsShowdown(s: TableState, seat: int, id: PlayerId, stack: int)
    requires ShowdownInv(s) && CanSit(s, seat, id, stack)
    ensures ShowdownInv(SetPlayer(s, seat, Newcomer(s, id, stack)))
  {
    var r := SetPlayer(s, seat, Newcomer(s, id, stack));
    SeatUpdateSums(s.seats, seat, r.seats[seat]);
    var i :| 0 <= i < |s.seats| && InHand(s.seats[i]);
    assert InHand(r.seats[i]);
  }

  lemma SitKeepsTable(s: TableState, seat: int, id: PlayerId, stack: int)
    requires TableInv(s) && Shape(s) && CanSit(s, seat, id, stack)
    ensures var r := SetPlayer(s, seat, Newcomer(s, id, stack));
            TableInv(r) && Chips(r) == Chips(s) + stack
  {
    var r := SetPlayer(s, seat, Newcomer(s, id, stack));
    SeatUpdateSums(s.seats, seat, r.seats[seat]);
    if s.phase == SHOWDOWN {
      NewcomerKeepsShowdown(s, seat, id, stack);
    } else if s.phase == HAND_END {
      forall i | 0 <= i < |r.seats| ensures 0 <= StackOf(r.seats[i]) {
        assert 0 <= StackOf(s.seats[i]);
      }
    } else if s.phase != WAITING {
      NewcomerKeepsRun(s, seat, id, stack);
    }
  }

  lemma DealKeepsTable(s: TableState, smallBlind: int, ante: int)
    requires TableInv(s) && Shape(s)
    ensures var r := Step(s, Deal(smallBlind, ante));
            TableInv(r) && Chips(r) == Chips(s)
  {
    if s.phase == WAITING && smallBlind > 0 && ante >= 0 {
      var level := s.(smallBlind := smallBlind, ante := ante);
      assert HandReady(level);
      if StartPreFlop(level).Started? {
        StartKeepsOrder(level);
      }
    }
  }

  lemma NominateKeepsTable(s: TableState, tiers: seq<seq<PlayerId>>)
    requires TableInv(s) && Shape(s)
    ensures var r := Step(s, Nominate(tiers));
            TableInv(r) && (PotHasOwner(s, Nominate(tiers)) ==> Chips(r) == Chips(s))
  {
    if Resolve(s, tiers).HandSettled? {
      SettledChips(s, tiers);
      SettlementConservesIff(s, tiers);
    }
  }

  lemma PlayKeepsTable(s: TableState, move: Move)
    requires TableInv(s) && Shape(s)
    ensures TableInv(StateAfter(s, move)) && Chips(StateAfter(s, move)) == Chips(s)
  {
    if BettingInv(s) && Act(s, move.seat, move.action, move.raiseAmount).Applied? {
      ActKeepsOrder(s, move.seat, move.action, move.raiseAmount);
    }
  }

  /** Every event keeps the table in order and accounts for every chip. */
  lemma StepKeepsTable(s: TableState, e: Event)
    requires TableInv(s)
    ensures Shape(s) && TableInv(Step(s, e))
    ensures PotHasOwner(s, e) ==> Chips(Step(s, e)) == Chips(s) + Brought(s, e)
  {
    match e
    case Deal(smallBlind, ante) => DealKeepsTable(s, smallBlind, ante);
    case Play(move) => PlayKeepsTable(s, move);
    case Nominate(tiers) => NominateKeepsTable(s, tiers);
    case Rebuy(id, amount) =>
      if s.phase == HAND_END {
        ApplyRebuyAdds(s, id, amount);
      }
    case NextHand =>
      if s.phase == HAND_END {
        InitTableReady(s);
      }
    case Sit(seat, id, stack) =>
      if CanSit(s, seat, id, stack) {
        SitKeepsTable(s, seat, id, stack);
      }
  }

  /**
   * Each event happens in its own phase and ends in it or leads to the next: a hand is dealt while waiting,
   * moves are made while betting, a nomination settles the showdown, and the table is cleared after the hand.
   */
  lemma PhasesInOrder(s: TableState, e: Event)
    requires TableInv(s)
    ensures var r := Step(s, e);
            && (r != s ==> match e
                           case Deal(_, _) => s.phase == WAITING
                           case Play(_) => BettingPhase(s.phase)
                           case Nominate(_) => s.phase == SHOWDOWN && r.phase == HAND_END
                           case Rebuy(_, _) => s.phase == HAND_END && r.phase == HAND_END
                           case NextHand => s.phase == HAND_END
                           case Sit(_, _, _) => r.phase == s.phase)
            && (e.NextHand? && s.phase == HAND_END ==> r.phase == WAITING)
  {
  }

  ghost function Run(s: TableState, events: seq<Event>): TableState
    requires TableInv(s)
    decreases |events|
  {
    if |events| == 0 then s
    else
      StepKeepsTable(s, events[0]);
      Run(Step(s, events[0]), events[1..])
  }

  ghost function TotalBrought(s: TableState, events: seq<Event>): int
    requires TableInv(s)
    decreases |events|
  {
    if |events| == 0 then 0
    else
      StepKeepsTable(s, events[0]);
      Brought(s, events[0]) + TotalBrought(Step(s, events[0]), events[1..])
  }

  ghost predicate PotsHaveOwners(s: TableState, events: seq<Event>)
    requires TableInv(s)
    decreases |events|
  {
    |events| == 0
    || (PotHasOwner(s, events[0])
        && (StepKeepsTable(s, events[0]); PotsHaveOwners(Step(s, events[0]), events[1..])))
  }

  ghost predicate NobodyInDebt(s: TableState) {
    forall i :: 0 <= i < |s.seats| ==> 0 <= StackOf(s.seats[i])
  }

  lemma TableInvNobodyInDebt(s: TableState)
    requires TableInv(s)
    ensures NobodyInDebt(s)
  {
    forall i | 0 <= i < |s.seats| ensures 0 <= StackOf(s.seats[i]) {
      if s.phase == WAITING {
        assert SeatReady(s.seats[i]);
      } else if s.phase != HAND_END {
        assert SeatOk(s.seats[i], s.currentBet);
      }
    }
  }

  /**
   * Chip conservation over whole runs: after any sequence of events the snapshot is in order, nobody
   * is in debt, and stacks and pot together are what was there plus what was brought.
   */
  lemma {:induction false} RunConserves(s: TableState, events: seq<Event>)
    requires TableInv(s)
    ensures TableInv(Run(s, events)) && NobodyInDebt(Run(s, events))
    ensures PotsHaveOwners(s, events) ==> Chips(Run(s, events)) == Chips(s) + TotalBrought(s, events)
    decreases |events|
  {
    if |events| == 0 {
      TableInvNobodyInDebt(s);
    } else {
      StepKeepsTable(s, events[0]);
      RunConserves(Step(s, events[0]), events[1..]);
    }
  }

  /** The pot is certain to find a winner; with an ante everybody dealt in has paid. */
  ghost predicate PotFindsWinner(s: TableState) {
    && (exists bb :: Safe(s, bb))
    && (s.ante > 0 ==> AllPaidIn(s.seats))
  }

  /** The table in order, and in the middle of a hand a pot that somebody can win. */
  ghost predicate WinnableInv(s: TableState) {
    TableInv(s) && (BettingPhase(s.phase) || s.phase == SHOWDOWN ==> PotFindsWinner(s))
  }

  /**
   * Before the event: it is not a dealer fold of somebody out of turn before the flop, at a table without
   * an ante.
   */
  predicate Careful(s: TableState, e: Event) {
    e.Play? ==> s.ante > 0 || InTurn(s, e.move)
  }

  lemma PlayKeepsWinnable(s: TableState, m: Move)
    requires WinnableInv(s) && Careful(s, Play(m))
    ensures WinnableInv(StateAfter(s, m))
  {
    PlayKeepsTable(s, m);
    if BettingInv(s) {
      MoveKeepsAnte(s, m);
      var bb :| Safe(s, bb);
      MoveIsSafe(s, bb, m);
      if s.ante > 0 {
        PaidMoveStaysPaid(s, m);
      }
    }
  }

  lemma DealtAnte(s: TableState)
    requires HandReady(s) && 0 <= s.ante && StartPreFlop(s).Started?
    ensures StartPreFlop(s).state.ante == s.ante
  {
    var button, sb, bb := StartSeats(s);
    WithAntesPaid(s.(buttonUser := button));
  }

  lemma DealKeepsWinnable(s: TableState, smallBlind: int, ante: int)
    requires WinnableInv(s)
    ensures WinnableInv(Step(s, Deal(smallBlind, ante)))
  {
    DealKeepsTable(s, smallBlind, ante);
    if s.phase == WAITING && smallBlind > 0 && ante >= 0 {
      var level := s.(smallBlind := smallBlind, ante := ante);
      assert HandReady(level);
      if StartPreFlop(level).Started? {
        var bb := StartIsSafe(level);
        DealtAnte(level);
      }
    }
  }

  lemma SeatedKeepsSafe(s: TableState, bb: int, seat: int, p: TablePlayer)
    requires Safe(s, bb) && 0 <= seat < |s.seats| && s.seats[seat].Empty? && p.hasFolded
    requires var r := SetPlayer(s, seat, p);
             (BettingInv(s) ==> BettingInv(r)) && (ShowdownInv(s) ==> ShowdownInv(r))
    ensures Safe(SetPlayer(s, seat, p), bb)
    ensures AllPaidIn(s.seats) ==> AllPaidIn(SetPlayer(s, seat, p).seats)
  {
    var r := SetPlayer(s, seat, p);
    var i :| 0 <= i < |s.seats| && Contender(s.seats[i]);
    assert Contender(r.seats[i]);
    assert forall k :: 0 <= k < |s.seats| && k != seat ==> r.seats[k] == s.seats[k];
  }

  lemma SitKeepsWinnable(s: TableState, seat: int, id: PlayerId, stack: int)
    requires WinnableInv(s) && Shape(s) && CanSit(s, seat, id, stack)
    ensures WinnableInv(SetPlayer(s, seat, Newcomer(s, id, stack)))
  {
    SitKeepsTable(s, seat, id, stack);
    if BettingPhase(s.phase) || s.phase == SHOWDOWN {
      var bb :| Safe(s, bb);
      SeatedKeepsSafe(s, bb, seat, Newcomer(s, id, stack));
    }
  }

  lemma StepKeepsWinnable(s: TableState, e: Event)
    requires WinnableInv(s) && Shape(s) && Careful(s, e)
    ensures WinnableInv(Step(s, e)) && PotHasOwner(s, e)
  {
    StepKeepsTable(s, e);
    match e
    case Deal(smallBlind, ante) => DealKeepsWinnable(s, smallBlind, ante);
    case Play(move) => PlayKeepsWinnable(s, move);
    case Nominate(tiers) =>
      if s.phase == SHOWDOWN {
        var bb :| Safe(s, bb);
      }
    case Rebuy(id, amount) =>
    case NextHand =>
    case Sit(seat, id, stack) =>
      if CanSit(s, seat, id, stack) {
        SitKeepsWinnable(s, seat, id, stack);
      }
  }

  ghost predicate CarefulRun(s: TableState, events: seq<Event>)
    requires TableInv(s)
    decreases |events|
  {
    |events| == 0
    || (Careful(s, events[0]) && (StepKeepsTable(s, events[0]); CarefulRun(Step(s, events[0]), events[1..])))
  }

  /**
   * Conservation from what can be seen before each event: as long as no dealer folds somebody out of turn
   * before the flop at a table without an ante, stacks and pot together are, after any number of hands,
   * settlements, rebuys and newcomers, what was there plus what was brought.
   */
  lemma {:induction false} CarefulRunsConserve(s: TableState, events: seq<Event>)
    requires WinnableInv(s) && CarefulRun(s, events)
    ensures PotsHaveOwners(s, events) && WinnableInv(Run(s, events))
    ensures Chips(Run(s, events)) == Chips(s) + TotalBrought(s, events)
    decreases |events|
  {
    if |events| > 0 {
      StepKeepsTable(s, events[0]);
      StepKeepsWinnable(s, events[0]);
      CarefulRunsConserve(Step(s, events[0]), events[1..]);
    }
  }
}

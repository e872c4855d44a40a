/**
 * What is actually played when somebody acts: the action that was sent, a time-out when it comes too late,
 * or a fold for a player the dealer has kicked; and what the clock and the dealer do to the snapshot.
 */
module ClockActions {
  import opened TableTypes
  import opened Sums
  import opened Betting
  import opened TurnOrder
  import opened HandStart
  import opened ActionRules
  import opened TurnTimer
  import opened TimerRuns
  import opened TimerSafety
  import T = TableRuns

  /**
   * The answer `outcome` of the engine has become the snapshot: the same hand, one epoch on, with half a
   * minute for whoever is to act next. An action that was refused or ignored has changed nothing.
   */
  ghost predicate CarriedOut(w: World, h: Handled, outcome: ActOutcome) {
    match outcome
    case Rejected(_) => h == Handled(w, Threw)
    case Ignored => h == Handled(w, Unchanged)
    case Applied(s') =>
      && h.reply == Acted && Shape(s') && SameHand(s', h.world.table)
      && h.world.table.timerEpoch == w.table.timerEpoch + 1
      && h.world.table.resumePending == s'.resumePending
      && h.world.table.actionDeadline == (if TurnOwner(s').None? then None else Some(w.now + 30000))
  }

  lemma ScheduledIs(w: World, s: TableState, removed: bool)
    requires Shape(s) && s.timerEpoch == w.table.timerEpoch
    ensures CarriedOut(w, Handled(Schedule(w, s, removed), Acted), Applied(s))
    ensures var r := Schedule(w, s, removed); r == w.(table := r.table, jobs := r.jobs, issued := r.issued)
  {
  }

  lemma OwnerIsInTurn(w: World, user: PlayerId)
    requires TimerInv(w) && TurnOwner(w.table) == Some(user)
    ensures BettingInv(w.table) && SeatOf(w.table.seats, user) == w.table.turn
  {
    InvDistinctIds(w.table);
    SeatOfOwner(w.table, w.table.turn);
  }

  lemma ActedOn(w: World, i: int, action: ActionType, amount: Option<int>, removed: bool, h: Handled)
    requires TimerInv(w) && BettingInv(w.table)
    requires match Act(w.table, i, action, amount)
             case Rejected(_) => h == Handled(w, Threw)
             case Ignored => h == Handled(w, Unchanged)
             case Applied(s') => Shape(s') && h == Handled(Schedule(w, s', removed), Acted)
    ensures CarriedOut(w, h, Act(w.table, i, action, amount))
  {
    if Act(w.table, i, action, amount).Applied? {
      ActKeepsClock(w.table, i, action, amount);
      ScheduledIs(w, Act(w.table, i, action, amount).state, removed);
    }
  }

  /** Nothing stands between the turn owner and the table. */
  ghost predicate GatesOpen(w: World, user: PlayerId, seen: nat)
    requires Shape(w.table)
  {
    w.up && seen == w.generation && w.table.resumePending.None? && TurnOwner(w.table) == Some(user)
  }

  predicate InTime(w: World) {
    w.table.actionDeadline.Some? ==> w.now <= w.table.actionDeadline.value
  }

  /** An action sent in time by a player who has not been kicked is played as it was sent. */
  lemma TimelyActionIsPlayed(w: World, user: PlayerId, action: ActionType, amount: Option<int>, seen: nat,
                             removed: bool)
    requires TimerInv(w) && GatesOpen(w, user, seen) && !DealerAction(action) && action != TIME_OUT
    requires user !in w.kicked && InTime(w)
    ensures CarriedOut(w, HandleAction(w, user, action, amount, None, seen, removed),
                       Act(w.table, w.table.turn, action, amount))
  {
    OwnerIsInTurn(w, user);
    ActKeepsShape(w.table, w.table.turn, action, amount);
    ActedOn(w, w.table.turn, action, amount, removed, HandleAction(w, user, action, amount, None, seen, removed));
  }

  /** One that comes after the deadline is a time-out, whatever was sent. */
  lemma LateActionIsATimeOut(w: World, user: PlayerId, action: ActionType, amount: Option<int>, seen: nat,
                             removed: bool)
    requires TimerInv(w) && GatesOpen(w, user, seen) && !DealerAction(action) && action != TIME_OUT
    requires user !in w.kicked && !InTime(w)
    ensures CarriedOut(w, HandleAction(w, user, action, amount, None, seen, removed),
                       Act(w.table, w.table.turn, TIME_OUT, None))
  {
    OwnerIsInTurn(w, user);
    ActKeepsShape(w.table, w.table.turn, TIME_OUT, None);
    ActedOn(w, w.table.turn, TIME_OUT, None, removed, HandleAction(w, user, action, amount, None, seen, removed));
  }

  lemma FoldsAreFolds(s: TableState, i: int, amount: Option<int>)
    requires Shape(s)
    ensures Act(s, i, FOLD, amount) == Act(s, i, FOLD, None)
  {
  }

  /** Whatever a kicked player sends, in time or not, is a fold. */
  lemma KickedPlayerFolds(w: World, user: PlayerId, action: ActionType, amount: Option<int>, seen: nat, removed: bool)
    requires TimerInv(w) && GatesOpen(w, user, seen) && !DealerAction(action) && action != TIME_OUT
    requires user in w.kicked
    ensures CarriedOut(w, HandleAction(w, user, action, amount, None, seen, removed),
                       Act(w.table, w.table.turn, FOLD, None))
  {
    OwnerIsInTurn(w, user);
    var effectiveAmount := if action == FOLD then amount else None;
    ActKeepsShape(w.table, w.table.turn, FOLD, effectiveAmount);
    FoldsAreFolds(w.table, w.table.turn, amount);
    ActedOn(w, w.table.turn, FOLD, effectiveAmount, removed,
      HandleAction(w, user, action, amount, None, seen, removed));
  }

  /** A job that acts plays the time-out of the seat to act, or its fold if the player has been kicked. */
  lemma JobPlaysTheTimeOut(w: World, user: PlayerId, epoch: nat, seen: nat, removed: bool)
    requires TimerInv(w) && FiresNow(w, user, epoch, seen)
    ensures CarriedOut(w, HandleAction(w, user, TIME_OUT, None, Some(epoch), seen, removed),
                       Act(w.table, w.table.turn, if user in w.kicked then FOLD else TIME_OUT, None))
  {
    OwnerIsInTurn(w, user);
    var effective := if user in w.kicked then FOLD else TIME_OUT;
    ActKeepsShape(w.table, w.table.turn, effective, None);
    ActedOn(w, w.table.turn, effective, None, removed,
            HandleAction(w, user, TIME_OUT, None, Some(epoch), seen, removed));
  }

  /** The chips of seat `i` after a turn that did nothing, in time or not: out if a call was owed, in otherwise. */
  lemma ClockFoldsIff(w: World, user: PlayerId, epoch: nat, seen: nat, removed: bool)
    requires TimerInv(w) && FiresNow(w, user, epoch, seen) && user !in w.kicked
    ensures var i, r := w.table.turn, HandleAction(w, user, TIME_OUT, None, Some(epoch), seen, removed).world.table;
            && BettingInv(w.table) && |r.seats| == |w.table.seats| && r.seats[i].Taken?
            && (r.seats[i].player.hasFolded <==> w.table.seats[i].player.bet < w.table.currentBet)
            && StackOf(r.seats[i]) == StackOf(w.table.seats[i]) && r.pot == w.table.pot
  {
    OwnerIsInTurn(w, user);
    JobPlaysTheTimeOut(w, user, epoch, seen, removed);
    TimeOutFoldsIff(w.table, None);
  }

  /**
   * The dealer's fold and kick: accepted exactly while a hand is being bet on an unpaused table with that
   * player in it. The named player is out of the hand, nobody's chips move, and a kick marks the player.
   */
  lemma DealerActsIff(w: World, target: PlayerId, kick: bool, removed: bool)
    requires TimerInv(w)
    ensures var i, h := SeatOf(w.table.seats, target), HandleDealer(w, target, kick, removed);
            && (h.reply == Acted <==> w.table.resumePending.None? && i != -1 && BettingPhase(w.table.phase))
            && (h.reply != Acted ==> h == Handled(w, Threw))
            && (h.reply == Acted ==>
                  && |h.world.table.seats| == |w.table.seats| && h.world.table.pot == w.table.pot
                  && h.world.table.seats[i].Taken? && h.world.table.seats[i].player.hasFolded
                  && (forall k :: 0 <= k < |w.table.seats| && k != i ==>
                        SamePlayer(w.table.seats[k], h.world.table.seats[k]))
                  && h.world.kicked == w.kicked + (if kick then {target} else {}))
  {
    var i := SeatOf(w.table.seats, target);
    if w.table.resumePending.None? && i != -1 && BettingPhase(w.table.phase) {
      var action := if kick then DEALER_KICK else DEALER_FOLD;
      DealerPutsOut(w.table, i, action, None);
      ActKeepsShape(w.table, i, action, None);
      ActKeepsClock(w.table, i, action, None);
      ScheduledIs(w, Act(w.table, i, action, None).state, removed);
    }
  }

  /** The clock while nobody is asked: a server outage is the reason of a pause that any server sweep reached. */
  lemma PauseSays(w: World, sweep: Option<nat>, overwrite: bool, downMs: int, line: bool)
    requires Shape(w.table) && Waiting(w.table) && (sweep.None? || sweep == Some(w.generation))
    ensures var r := PauseTable(w, sweep, overwrite, downMs, line).table;
            && SameHand(w.table, r) && r.timerEpoch == w.table.timerEpoch + 1 && r.actionDeadline.None?
            && r.resumePending == Some(Pause(downMs, if line then LINE_DOWN else SERVER_DOWN))
  {
  }

  /** A line's pause that a server sweep finds becomes a server's, and keeps its length; nothing else is rewritten. */
  lemma ServerOutageWins(w: World, sweep: Option<nat>, downMs: int, line: bool)
    requires Shape(w.table) && w.table.resumePending.Some?
    ensures var before, r := w.table.resumePending.value, PauseTable(w, sweep, false, downMs, line).table;
            && r == w.table.(resumePending := r.resumePending)
            && r.resumePending.Some? && r.resumePending.value.downMs == before.downMs
            && r.resumePending.value.reason ==
               (if before.reason == LINE_DOWN && !line then SERVER_DOWN else before.reason)
  {
  }

  /** The dealer's resume lets the same hand go on, with a new epoch and a fresh deadline. */
  lemma ResumeRestartsTheClock(w: World, removed: bool)
    requires TimerInv(w)
    ensures var h := ResumeTable(w, removed);
            && (h.reply == Acted <==> w.table.resumePending.Some?)
            && (h.reply != Acted ==> h == Handled(w, Threw))
            && (h.reply == Acted ==>
                  && SameHand(w.table, h.world.table) && h.world.table.resumePending.None?
                  && h.world.table.timerEpoch == w.table.timerEpoch + 1
                  && h.world.table.actionDeadline ==
                     (if TurnOwner(w.table).None? then None else Some(w.now + 30000)))
  {
    if w.table.resumePending.Some? {
      ScheduledIs(w, w.table.(resumePending := None), removed);
    }
  }

  /**
   * A hand is dealt exactly on a waiting table with two to play it, paused or not, at the blind and ante of
   * the level; the first to act has half a minute.
   */
  lemma DealtAtTheLevel(w: World, smallBlind: int, ante: int, removed: bool)
    requires TimerInv(w)
    ensures var h, level := DealHand(w, smallBlind, ante, removed), w.table.(smallBlind := smallBlind, ante := ante);
            && (h.reply == Acted <==> w.table.phase == GamePhase.WAITING && StartPreFlop(level).Started?)
            && (h.reply != Acted ==> h == Handled(w, Threw))
            && (h.reply == Acted ==> CarriedOut(w, h, Applied(StartPreFlop(level).state)))
            && (h.reply == Acted ==> h.world.table.resumePending == w.table.resumePending)
  {
    var level := w.table.(smallBlind := smallBlind, ante := ante);
    if w.table.phase == GamePhase.WAITING && StartPreFlop(level).Started? {
      StartKeepsShape(level);
      StartKeepsClock(level);
      ScheduledIs(w, StartPreFlop(level).state, removed);
    }
  }

  /** The job is for the turn that is now being waited for. */
  predicate ForThisTurn(w: World, epoch: nat)
    requires Shape(w.table) && epoch in w.issued
  {
    && epoch == w.table.timerEpoch && w.table.turn != -1
    && w.table.seats[w.table.turn].Taken? && w.table.seats[w.table.turn].player.id == w.issued[epoch]
  }

  /**
   * A due job is taken on exactly if it is for this turn, the dealer answers and the store is up; it stays
   * queued exactly if it is for this turn and the dealer is silent. The table is not touched.
   */
  lemma JobIsPickedIff(w: World, epoch: nat, dealerConfirmed: bool)
    requires Shape(w.table) && epoch in w.issued && epoch in w.jobs && (epoch, w.generation) !in w.deliveries
    ensures var r := PickJob(w, epoch, dealerConfirmed);
            && r == w.(jobs := r.jobs, deliveries := r.deliveries)
            && ((epoch, w.generation) in r.deliveries <==> ForThisTurn(w, epoch) && dealerConfirmed && w.up)
            && (forall d :: d in r.deliveries && d != (epoch, w.generation) ==> d in w.deliveries)
            && (epoch in r.jobs <==> ForThisTurn(w, epoch) && (dealerConfirmed ==> w.up))
            && (forall other :: other != epoch ==> (other in r.jobs <==> other in w.jobs))
  {
  }

  /** A job that is carried out leaves the queue, whatever comes of it. */
  lemma FiredJobIsGone(w: World, epoch: nat, seen: nat, removed: bool)
    requires Shape(w.table) && epoch in w.issued
    ensures epoch !in FireJob(w, epoch, seen, removed).world.jobs
  {
  }

  /** An interrupted rebuy pauses a table that is not paused, and leaves every other pause as it is. */
  lemma InterruptedRebuyPauses(w: World, pause: Pause)
    ensures var r := MarkInterrupted(w, pause);
            && r == w.(table := w.table.(resumePending := r.table.resumePending))
            && r.table.resumePending == if w.table.resumePending.None? then Some(pause) else w.table.resumePending
  {
  }
}

/** Runs of the turn clock: deliveries, player and dealer actions, outages, sweeps and resumes in any order. */
module TimerRuns {
  import opened TableTypes
  import opened Ring
  import opened Betting
  import opened TurnOrder
  import opened HandStart
  import opened TurnTimer
  import T = TableRuns

  datatype Event =
    | Player(user: PlayerId, action: ActionType, amount: Option<int>, seen: nat, removed: bool)
    | Pick(epoch: nat, dealerConfirmed: bool)
    | Fire(job: nat, sawGeneration: nat, removedOld: bool)
    | Dealer(target: PlayerId, kick: bool, removedJob: bool)
    | Deal(smallBlind: int, ante: int, removedIdle: bool)
    | AtTable(event: T.Event)
    | Interrupted(pause: Pause)
    | Sweep(generation: Option<nat>, overwrite: bool, downMs: int, line: bool)
    | Resume(removedStale: bool)
    | Lost
    | Recovered
    | LineLost
    | LineBack
    | Tick(ms: nat)

  /** The table events that are not actions: settling, rebuying, clearing and sitting down. */
  predicate BetweenActions(e: T.Event) {
    e.Nominate? || e.Rebuy? || e.NextHand? || e.Sit?
  }

  function Step(w: World, e: Event): World
    requires Shape(w.table)
    requires (e.Pick? ==> e.epoch in w.issued) && (e.Fire? ==> e.job in w.issued)
  {
    match e
    case Player(user, action, amount, seen, removed) => HandleAction(w, user, action, amount, None, seen, removed).world
    case Pick(epoch, confirmed) => PickJob(w, epoch, confirmed)
    case Fire(epoch, seen, removed) => FireJob(w, epoch, seen, removed).world
    case Dealer(target, kick, removed) => HandleDealer(w, target, kick, removed).world
    case Deal(smallBlind, ante, removed) => DealHand(w, smallBlind, ante, removed).world
    case AtTable(event) => w.(table := T.Step(w.table, event))
    case Interrupted(pause) => MarkInterrupted(w, pause)
    case Sweep(generation, overwrite, downMs, line) =>
      var swept := PauseTable(w, generation, overwrite, downMs, line);
      swept.(swept := w.swept || generation == Some(w.generation), lineSwept := w.lineSwept || line)
    case Resume(removed) => ResumeTable(w, removed).world
    case Lost => w.(up := false, generation := w.generation + 1, swept := false, lineDown := false)
    case Recovered => w.(up := true)
    case LineLost => w.(lineDown := true, lineSwept := false)
    case LineBack => w.(lineDown := false)
    case Tick(ms) => w.(now := w.now + ms)
  }

  /**
   * What the surroundings guarantee: the gateway lets players send the four betting actions only; a
   * job runs only while it is queued; dealer commands are refused while the tournament is syncing. An
   * outage and a lost line may end whether or not a sweep has reached the table.
   */
  ghost predicate Possible(w: World, e: Event) {
    match e
    case Player(_, action, _, _, _) => action == CHECK || action == CALL || action == FOLD || action == RAISE
    case Pick(epoch, _) => epoch in w.jobs
    case Fire(epoch, seen, _) => (epoch, seen) in w.deliveries
    case Dealer(_, _, _) => w.up && !w.lineDown
    case Deal(smallBlind, ante, _) => w.up && !w.lineDown && smallBlind > 0 && ante >= 0
    case AtTable(event) => BetweenActions(event)
    case Interrupted(_) => w.table.phase == HAND_END
    case Sweep(generation, _, _, line) => line ==> generation.None?
    case Resume(_) => w.up && !w.lineDown
    case Lost => true
    case Recovered => true
    case LineLost => w.up
    case LineBack => true
    case Tick(_) => true
  }

  ghost predicate TurnOnlyWhileBetting(s: TableState) {
    BettingPhase(s.phase) || s.turn == -1
  }

  ghost predicate Waiting(s: TableState)
    requires Shape(s)
  {
    TurnOwner(s).Some? && s.resumePending.None?
  }

  /** The current epoch was issued to the seat to act, with a deadline. */
  ghost predicate TimerIssued(w: World)
    requires Shape(w.table)
  {
    && w.table.timerEpoch in w.issued
    && TurnOwner(w.table) == Some(w.issued[w.table.timerEpoch])
    && w.table.actionDeadline.Some?
  }

  /** The job of the current epoch is queued or executing, and it is for the seat to act. */
  ghost predicate TimerRunning(w: World)
    requires Shape(w.table)
  {
    w.table.timerEpoch in w.jobs && TimerIssued(w)
  }

  ghost predicate EpochsInOrder(w: World) {
    && (forall e :: e in w.jobs ==> e in w.issued)
    && (forall e :: e in w.issued ==> e <= w.table.timerEpoch)
    && (forall d :: d in w.deliveries ==> d.0 in w.issued && d.1 <= w.generation)
  }

  ghost predicate NoCurrentJob(w: World) {
    forall e :: e in w.issued ==> e < w.table.timerEpoch
  }

  /** No delivery from before the last outage is of the current epoch. */
  ghost predicate OldDeliveriesStale(w: World) {
    forall d :: d in w.deliveries && d.1 < w.generation ==> d.0 < w.table.timerEpoch
  }

  ghost predicate TimerInv(w: World) {
    && Shape(w.table)
    && T.TableInv(w.table)
    && TurnOnlyWhileBetting(w.table)
    && EpochsInOrder(w)
    && (TurnOwner(w.table).None? ==> NoCurrentJob(w) && w.table.actionDeadline.None?)
    && (Waiting(w.table) ==> TimerIssued(w))
    && (!w.up && w.swept ==> !Waiting(w.table))
    && (w.lineDown && w.lineSwept ==> !Waiting(w.table))
  }

  lemma ClockFieldsFree(s: TableState, r: TableState)
    requires T.TableInv(s)
    requires r == s.(timerEpoch := r.timerEpoch, actionDeadline := r.actionDeadline, resumePending := r.resumePending)
    ensures T.TableInv(r)
  {
    if BettingPhase(s.phase) {
      assert HandInv(r);
      assert ShouldGoToShowdown(r) == ShouldGoToShowdown(s);
    } else if s.phase == SHOWDOWN {
      assert HandInv(r);
    }
  }

  lemma ScheduleEpochs(w: World, s: TableState, removed: bool)
    requires Shape(s) && EpochsInOrder(w) && s.timerEpoch == w.table.timerEpoch
    ensures var r := Schedule(w, s, removed);
            && EpochsInOrder(r) && OldDeliveriesStale(r)
            && (if TurnOwner(s).None? then NoCurrentJob(r) && r.table.actionDeadline.None? else TimerRunning(r))
  {
  }

  lemma ScheduleTable(w: World, s: TableState, removed: bool)
    requires Shape(s) && T.TableInv(s) && TurnOnlyWhileBetting(s)
    ensures var r := Schedule(w, s, removed).table;
            Shape(r) && T.TableInv(r) && TurnOnlyWhileBetting(r)
  {
    ClockFieldsFree(s, Schedule(w, s, removed).table);
  }

  lemma ScheduleKeepsTimer(w: World, s: TableState, removed: bool)
    requires TimerInv(w) && T.TableInv(s) && Shape(s) && TurnOnlyWhileBetting(s) && s.timerEpoch == w.table.timerEpoch
    requires (!w.up && w.swept) || (w.lineDown && w.lineSwept) ==> !Waiting(s)
    ensures TimerInv(Schedule(w, s, removed))
  {
    ScheduleEpochs(w, s, removed);
    ScheduleTable(w, s, removed);
  }

  ghost predicate SameClock(s: TableState, r: TableState) {
    r.timerEpoch == s.timerEpoch && r.resumePending == s.resumePending && r.actionDeadline == s.actionDeadline
  }

  lemma PlayKeepsClock(s: TableState, i: int, action: ActionType, amount: Option<int>)
    requires SeatTaken(s, i) && Play(s, i, action, amount).Done?
    ensures SameClock(s, Play(s, i, action, amount).state) && Play(s, i, action, amount).state.turn == s.turn
  {
  }

  lemma AdvanceKeepsClock(s: TableState, wasTurn: bool)
    requires Shape(s) && (wasTurn ==> 0 <= s.turn)
    ensures SameClock(s, Advance(s, wasTurn))
  {
  }

  /** An applied action does not touch the clock fields itself. */
  lemma ActKeepsClock(s: TableState, i: int, action: ActionType, amount: Option<int>)
    requires Shape(s) && Act(s, i, action, amount).Applied?
    ensures SameClock(s, Act(s, i, action, amount).state)
  {
    if DealerAction(action) {
      AdvanceKeepsClock(Folded(s, i), s.turn == i);
    } else if s.seats[i].player.hasFolded {
      AdvanceKeepsClock(s, true);
    } else {
      PlayKeepsShape(s, i, action, amount);
      PlayKeepsClock(s, i, action, amount);
      AdvanceKeepsClock(Play(s, i, action, amount).state, true);
    }
  }

  lemma BettingOrShowdown(s: TableState)
    requires BettingInv(s) || ShowdownInv(s)
    ensures Shape(s) && T.TableInv(s) && TurnOnlyWhileBetting(s)
  {
  }

  lemma ActKeepsTable(s: TableState, i: int, action: ActionType, amount: Option<int>)
    requires T.TableInv(s) && Shape(s) && Act(s, i, action, amount).Applied?
    ensures var r := Act(s, i, action, amount).state;
            Shape(r) && T.TableInv(r) && TurnOnlyWhileBetting(r)
  {
    assert BettingInv(s);
    ActKeepsOrder(s, i, action, amount);
    BettingOrShowdown(Act(s, i, action, amount).state);
  }

  lemma HandleActionKeeps(w: World, user: PlayerId, action: ActionType, amount: Option<int>, expected: Option<nat>,
                          seen: nat, removed: bool)
    requires TimerInv(w)
    ensures TimerInv(HandleAction(w, user, action, amount, expected, seen, removed).world)
  {
    var h := HandleAction(w, user, action, amount, expected, seen, removed);
    if h.reply == Acted {
      var s, i := w.table, SeatOf(w.table.seats, user);
      var expired := s.actionDeadline.Some? && w.now > s.actionDeadline.value;
      var effective := if user in w.kicked then FOLD else if expired then TIME_OUT else action;
      var effectiveAmount := if effective == action then amount else None;
      ActKeepsTable(s, i, effective, effectiveAmount);
      ActKeepsClock(s, i, effective, effectiveAmount);
      ScheduleKeepsTimer(w, Act(s, i, effective, effectiveAmount).state, removed);
    }
  }

  /** A job that leaves the queue takes nothing else with it. */
  lemma JobsFree(w: World, epoch: nat)
    requires TimerInv(w)
    ensures TimerInv(w.(jobs := w.jobs - {epoch}))
  {
  }

  lemma PickKeeps(w: World, epoch: nat, confirmed: bool)
    requires TimerInv(w) && epoch in w.jobs
    ensures TimerInv(PickJob(w, epoch, confirmed))
  {
    JobsFree(w, epoch);
  }

  /** When exactly a time-out job acts: it is of the current epoch, it is for the seat to act, and no gate is closed. */
  ghost predicate FiresNow(w: World, user: PlayerId, epoch: nat, seen: nat)
    requires Shape(w.table)
  {
    && w.up && seen == w.generation && !w.lineDown
    && w.table.resumePending.None?
    && epoch == w.table.timerEpoch
    && BettingPhase(w.table.phase) && TurnOwner(w.table) == Some(user)
  }

  lemma SeatOfOwner(s: TableState, i: int)
    requires DistinctIds(s.seats) && SeatTaken(s, i)
    ensures SeatOf(s.seats, s.seats[i].player.id) == i
  {
    var k := SeatOf(s.seats, s.seats[i].player.id);
    assert k != -1;
  }

  lemma InvDistinctIds(s: TableState)
    requires T.TableInv(s)
    ensures DistinctIds(s.seats)
  {
  }

  /** The clock's own fold, and the kick's, are never refused to the seat to act. */
  lemma FoldAlwaysApplies(s: TableState, i: int)
    requires BettingInv(s) && s.turn == i
    ensures Act(s, i, FOLD, None).Applied? && Act(s, i, TIME_OUT, None).Applied?
  {
  }

  /**
   * A time-out that carries an epoch acts exactly when its epoch and its user are current and nothing is
   * paused, down or recovering; otherwise it changes nothing at all.
   */
  lemma TimeoutActsIff(w: World, user: PlayerId, epoch: nat, seen: nat, removed: bool)
    requires TimerInv(w)
    ensures var h := HandleAction(w, user, TIME_OUT, None, Some(epoch), seen, removed);
            && (h.reply == Acted <==> FiresNow(w, user, epoch, seen))
            && (h.reply != Acted ==> h.world == w)
  {
    var s, i := w.table, SeatOf(w.table.seats, user);
    InvDistinctIds(s);
    if TurnOwner(s) == Some(user) {
      SeatOfOwner(s, s.turn);
    }
    if i != -1 && s.turn == i {
      FoldAlwaysApplies(s, i);
    }
  }

  lemma FireKeeps(w: World, epoch: nat, seen: nat, removed: bool)
    requires TimerInv(w) && (epoch, seen) in w.deliveries
    ensures TimerInv(FireJob(w, epoch, seen, removed).world)
  {
    var user := w.issued[epoch];
    HandleActionKeeps(w, user, TIME_OUT, None, Some(epoch), seen, removed);
    JobsFree(HandleAction(w, user, TIME_OUT, None, Some(epoch), seen, removed).world, epoch);
  }

  lemma DealerKeeps(w: World, target: PlayerId, kick: bool, removed: bool)
    requires TimerInv(w) && w.up && !w.lineDown
    ensures TimerInv(HandleDealer(w, target, kick, removed).world)
  {
    var h := HandleDealer(w, target, kick, removed);
    if h.reply == Acted {
      var i, action := SeatOf(w.table.seats, target), if kick then DEALER_KICK else DEALER_FOLD;
      var s' := Act(w.table, i, action, None).state;
      ActKeepsTable(w.table, i, action, None);
      ActKeepsClock(w.table, i, action, None);
      ScheduleKeepsTimer(w, s', removed);
      KickedFree(Schedule(w, s', removed), target);
    }
  }

  lemma KickedFree(w: World, target: PlayerId)
    requires TimerInv(w)
    ensures TimerInv(w.(kicked := w.kicked + {target}))
  {
  }

  lemma DealKeeps(w: World, smallBlind: int, ante: int, removed: bool)
    requires TimerInv(w) && w.up && !w.lineDown && smallBlind > 0 && ante >= 0
    ensures TimerInv(DealHand(w, smallBlind, ante, removed).world)
  {
    if w.table.phase == WAITING {
      var level := w.table.(smallBlind := smallBlind, ante := ante);
      assert HandReady(level);
      if StartPreFlop(level).Started? {
        StartKeepsOrder(level);
        BettingOrShowdown(StartPreFlop(level).state);
        StartKeepsClock(level);
        ScheduleKeepsTimer(w, StartPreFlop(level).state, removed);
      }
    }
  }

  lemma StartKeepsClock(s: TableState)
    requires Shape(s) && StartPreFlop(s).Started?
    ensures SameClock(s, StartPreFlop(s).state)
  {
    var button := NextLive(s.seats, Succ(s.buttonUser, |s.seats|));
    AntesSeatBySeat(s.(buttonUser := button), |s.seats|);
  }

  ghost predicate SameTurn(s: TableState, r: TableState)
    requires Shape(s) && Shape(r)
  {
    && TurnOnlyWhileBetting(r)
    && TurnOwner(r) == TurnOwner(s) && r.timerEpoch == s.timerEpoch && r.resumePending == s.resumePending
    && (r.actionDeadline == s.actionDeadline || (r.actionDeadline.None? && TurnOwner(s).None?))
  }

  lemma SitKeepsTurn(s: TableState, seat: int, id: PlayerId, stack: int)
    requires Shape(s) && TurnOnlyWhileBetting(s) && T.TableInv(s)
    ensures Shape(T.Step(s, T.Sit(seat, id, stack))) && SameTurn(s, T.Step(s, T.Sit(seat, id, stack)))
  {
  }

  lemma NominateKeepsTurn(s: TableState, tiers: seq<seq<PlayerId>>)
    requires Shape(s) && TurnOnlyWhileBetting(s) && T.TableInv(s)
    ensures Shape(T.Step(s, T.Nominate(tiers))) && SameTurn(s, T.Step(s, T.Nominate(tiers)))
  {
    T.StepKeepsTable(s, T.Nominate(tiers));
  }

  lemma AfterHandKeepsTurn(s: TableState, e: T.Event)
    requires Shape(s) && TurnOnlyWhileBetting(s) && T.TableInv(s) && (e.Rebuy? || e.NextHand?)
    ensures Shape(T.Step(s, e)) && SameTurn(s, T.Step(s, e))
  {
  }

  /** The events between the actions do not touch the seat to act. */
  lemma BetweenKeepsTurn(s: TableState, e: T.Event)
    requires T.TableInv(s) && Shape(s) && BetweenActions(e) && TurnOnlyWhileBetting(s)
    ensures Shape(T.Step(s, e)) && T.TableInv(T.Step(s, e)) && SameTurn(s, T.Step(s, e))
  {
    T.StepKeepsTable(s, e);
    if e.Sit? {
      SitKeepsTurn(s, e.seat, e.id, e.stack);
    } else if e.Nominate? {
      NominateKeepsTurn(s, e.tiers);
    } else {
      AfterHandKeepsTurn(s, e);
    }
  }

  lemma AtTableKeeps(w: World, e: T.Event)
    requires TimerInv(w) && BetweenActions(e)
    ensures TimerInv(w.(table := T.Step(w.table, e)))
  {
    BetweenKeepsTurn(w.table, e);
  }

  lemma InterruptedKeeps(w: World, pause: Pause)
    requires TimerInv(w) && w.table.phase == HAND_END
    ensures TimerInv(MarkInterrupted(w, pause))
  {
    ClockFieldsFree(w.table, MarkInterrupted(w, pause).table);
  }

  /** What a sweep leaves behind: the table as it was, a changed reason, or a pause. */
  lemma PauseTableIs(w: World, sweep: Option<nat>, overwrite: bool, downMs: int, line: bool)
    requires Shape(w.table)
    ensures var r := PauseTable(w, sweep, overwrite, downMs, line);
            && r == w.(table := r.table)
            && (|| r == w
                || r.table == w.table.(resumePending := r.table.resumePending)
                || r.table == w.table.(timerEpoch := w.table.timerEpoch + 1, actionDeadline := None,
                                       resumePending := r.table.resumePending))
            && TurnOwner(r.table) == TurnOwner(w.table)
            && (r == w || (r.table.resumePending.Some? && (w.table.resumePending.Some? || TurnOwner(w.table).Some?)))
            && (r == w && (sweep.None? || sweep.value == w.generation) ==> !Waiting(w.table))
  {
  }

  lemma PausedKeeps(w: World, r: World)
    requires TimerInv(w) && r == w.(table := r.table)
    requires r.table == w.table.(resumePending := r.table.resumePending)
             || r.table == w.table.(timerEpoch := w.table.timerEpoch + 1, actionDeadline := None,
                                    resumePending := r.table.resumePending)
    requires r.table.resumePending.Some?
    ensures TimerInv(r) && !Waiting(r.table)
  {
    ClockFieldsFree(w.table, r.table);
  }

  lemma PauseKeeps(w: World, generation: Option<nat>, overwrite: bool, downMs: int, line: bool)
    requires TimerInv(w)
    ensures var r := PauseTable(w, generation, overwrite, downMs, line);
            && TimerInv(r) && r.swept == w.swept && r.lineSwept == w.lineSwept && r.generation == w.generation
            && (generation.None? || generation.value == w.generation ==> !Waiting(r.table))
  {
    var r := PauseTable(w, generation, overwrite, downMs, line);
    PauseTableIs(w, generation, overwrite, downMs, line);
    if r != w {
      PausedKeeps(w, r);
    }
  }

  lemma SweepKeeps(w: World, generation: Option<nat>, overwrite: bool, downMs: int, line: bool)
    requires TimerInv(w) && (line ==> generation.None?)
    ensures TimerInv(Step(w, Sweep(generation, overwrite, downMs, line)))
  {
    PauseKeeps(w, generation, overwrite, downMs, line);
    SweptFree(PauseTable(w, generation, overwrite, downMs, line),
              w.swept || generation == Some(w.generation), w.lineSwept || line);
  }

  lemma SweptFree(w: World, swept: bool, lineSwept: bool)
    requires TimerInv(w)
    requires swept ==> w.swept || !Waiting(w.table)
    requires lineSwept ==> w.lineSwept || !Waiting(w.table)
    ensures TimerInv(w.(swept := swept, lineSwept := lineSwept))
  {
  }

  lemma ResumeKeeps(w: World, removed: bool)
    requires TimerInv(w) && w.up && !w.lineDown
    ensures TimerInv(ResumeTable(w, removed).world)
  {
    if w.table.resumePending.Some? {
      var s := w.table.(resumePending := None);
      ClockFieldsFree(w.table, s);
      ScheduleKeepsTimer(w, s, removed);
    }
  }

  /** Every step keeps the clock in order: a waiting turn has the current epoch, issued to its owner. */
  lemma StepKeepsTimer(w: World, e: Event)
    requires TimerInv(w) && Possible(w, e)
    ensures TimerInv(Step(w, e))
  {
    match e
    case Player(user, action, amount, seen, removed) => HandleActionKeeps(w, user, action, amount, None, seen, removed);
    case Pick(epoch, confirmed) => PickKeeps(w, epoch, confirmed);
    case Fire(epoch, seen, removed) => FireKeeps(w, epoch, seen, removed);
    case Dealer(target, kick, removed) => DealerKeeps(w, target, kick, removed);
    case Deal(smallBlind, ante, removed) => DealKeeps(w, smallBlind, ante, removed);
    case AtTable(event) => AtTableKeeps(w, event);
    case Interrupted(pause) => InterruptedKeeps(w, pause);
    case Sweep(generation, overwrite, downMs, line) => SweepKeeps(w, generation, overwrite, downMs, line);
    case Resume(removed) => ResumeKeeps(w, removed);
    case Lost =>
    case Recovered =>
    case LineLost =>
    case LineBack =>
    case Tick(_) =>
  }
}

/** What the turn clock promises over whole runs: frozen tables, dead jobs, and epochs that never fall. */
module TimerSafety {
  import opened TableTypes
  import opened Betting
  import opened HandStart
  import opened TurnTimer
  import opened TimerRuns
  import T = TableRuns

  ghost predicate PossibleRun(w: World, events: seq<Event>)
    requires TimerInv(w)
    decreases |events|
  {
    |events| == 0
    || (Possible(w, events[0]) && (StepKeepsTimer(w, events[0]); PossibleRun(Step(w, events[0]), events[1..])))
  }

  ghost function Run(w: World, events: seq<Event>): (r: World)
    requires TimerInv(w) && PossibleRun(w, events)
    ensures TimerInv(r)
    decreases |events|
  {
    if |events| == 0 then w
    else
      StepKeepsTimer(w, events[0]);
      Run(Step(w, events[0]), events[1..])
  }

  /** Somebody who is not to act can send whatever they like: no epoch, deadline or job moves. */
  lemma OnlyTheTurnMovesTheClock(w: World, user: PlayerId, action: ActionType, amount: Option<int>,
                                 expected: Option<nat>, seen: nat, removed: bool)
    requires TimerInv(w) && !DealerAction(action) && TurnOwner(w.table) != Some(user)
    ensures HandleAction(w, user, action, amount, expected, seen, removed).world == w
  {
  }

  /** The hand is the same: nothing but the clock fields differs. */
  ghost predicate SameHand(s: TableState, r: TableState) {
    r == s.(timerEpoch := r.timerEpoch, actionDeadline := r.actionDeadline, resumePending := r.resumePending)
  }

  ghost predicate Frozen(w: World)
    requires Shape(w.table)
  {
    TurnOwner(w.table).Some? && w.table.resumePending.Some?
  }

  /** A seat that somebody has taken while the hand stood still: folded, with nothing in the pot. */
  predicate Latecomer(x: Seat) {
    x.Taken? && x.player.hasFolded && x.player.bet == 0 && x.player.totalContributed == 0
  }

  /** The hand is the same for everybody in it; an empty seat may have been taken by a latecomer. */
  ghost predicate HandStandsStill(s: TableState, r: TableState) {
    && r == s.(seats := r.seats, timerEpoch := r.timerEpoch, actionDeadline := r.actionDeadline,
               resumePending := r.resumePending)
    && |r.seats| == |s.seats|
    && (forall i :: 0 <= i < |s.seats| && s.seats[i].Taken? ==> r.seats[i] == s.seats[i])
    && (forall i :: 0 <= i < |s.seats| && s.seats[i].Empty? ==> r.seats[i].Empty? || Latecomer(r.seats[i]))
  }

  lemma PausedRefuses(w: World, user: PlayerId, action: ActionType, amount: Option<int>, expected: Option<nat>,
                      seen: nat, removed: bool)
    requires Shape(w.table) && w.table.resumePending.Some?
    ensures HandleAction(w, user, action, amount, expected, seen, removed).world == w
  {
  }

  lemma PausedRefusesDealer(w: World, target: PlayerId, kick: bool, removed: bool)
    requires Shape(w.table) && w.table.resumePending.Some?
    ensures HandleDealer(w, target, kick, removed).world == w
  {
  }

  lemma FrozenTable(w: World, e: T.Event)
    requires TimerInv(w) && BettingPhase(w.table.phase) && BetweenActions(e)
    ensures HandStandsStill(w.table, T.Step(w.table, e))
  {
    if e.Sit? && T.CanSit(w.table, e.seat, e.id, e.stack) {
      assert w.table.seats[e.seat].Empty?;
    }
  }

  lemma FrozenStep(w: World, e: Event)
    requires TimerInv(w) && Possible(w, e) && Frozen(w) && !e.Resume?
    ensures HandStandsStill(w.table, Step(w, e).table) && Frozen(Step(w, e))
  {
    assert BettingPhase(w.table.phase);
    match e
    case Player(user, action, amount, seen, removed) => PausedRefuses(w, user, action, amount, None, seen, removed);
    case Pick(_, _) =>
    case Fire(epoch, seen, removed) => PausedRefuses(w, w.issued[epoch], TIME_OUT, None, Some(epoch), seen, removed);
    case Dealer(target, kick, removed) => PausedRefusesDealer(w, target, kick, removed);
    case Deal(_, _, _) =>
    case AtTable(event) => FrozenTable(w, event); BetweenKeepsTurn(w.table, event);
    case Interrupted(_) =>
    case Sweep(generation, overwrite, downMs, line) => PauseTableIs(w, generation, overwrite, downMs, line);
    case Resume(_) => assert false;
    case Lost =>
    case Recovered =>
    case LineLost =>
    case LineBack =>
    case Tick(_) =>
  }

  lemma StandsStillOn(s: TableState, r: TableState, q: TableState)
    requires HandStandsStill(s, r) && HandStandsStill(r, q)
    ensures HandStandsStill(s, q)
  {
  }

  /**
   * Until the dealer resumes, a paused hand stands still: no player action, no time-out job, no dealer
   * fold, no sweep, no newcomer and no later outage moves a chip, a flag or the turn of anybody seated.
   */
  lemma {:induction false} FrozenUntilResume(w: World, events: seq<Event>)
    requires TimerInv(w) && PossibleRun(w, events) && Frozen(w)
    requires forall k :: 0 <= k < |events| ==> !events[k].Resume?
    ensures HandStandsStill(w.table, Run(w, events).table) && Frozen(Run(w, events))
    decreases |events|
  {
    if |events| > 0 {
      StepKeepsTimer(w, events[0]);
      FrozenStep(w, events[0]);
      FrozenUntilResume(Step(w, events[0]), events[1..]);
      StandsStillOn(w.table, Step(w, events[0]).table, Run(w, events).table);
    }
  }

  /** A new epoch, whose job is in the queue if somebody is to act; nothing else of the clock has changed. */
  ghost predicate Rescheduled(w: World, r: World) {
    && Shape(w.table) && Shape(r.table)
    && r.table.timerEpoch == w.table.timerEpoch + 1
    && (Waiting(r.table) ==> r.table.timerEpoch in r.jobs)
    && r.deliveries == w.deliveries && r.up == w.up && r.generation == w.generation
    && r.lineDown == w.lineDown && r.swept == w.swept && r.lineSwept == w.lineSwept
  }

  lemma ScheduleReschedules(w: World, s: TableState, removed: bool)
    requires Shape(w.table) && Shape(s) && s.timerEpoch == w.table.timerEpoch
    ensures Rescheduled(w, Schedule(w, s, removed))
  {
  }

  /** `handleAction`: nothing at all, or a new epoch with its job, and then the table was not paused. */
  lemma ActionReschedules(w: World, user: PlayerId, action: ActionType, amount: Option<int>, expected: Option<nat>,
                          seen: nat, removed: bool)
    requires TimerInv(w)
    ensures var h := HandleAction(w, user, action, amount, expected, seen, removed);
            if h.reply == Acted
            then w.up && w.table.resumePending.None? && Rescheduled(w, h.world)
            else h.world == w
  {
    var h := HandleAction(w, user, action, amount, expected, seen, removed);
    if h.reply == Acted {
      var s, i := w.table, SeatOf(w.table.seats, user);
      var expired := s.actionDeadline.Some? && w.now > s.actionDeadline.value;
      var effective := if user in w.kicked then FOLD else if expired then TIME_OUT else action;
      var effectiveAmount := if effective == action then amount else None;
      ActKeepsShape(s, i, effective, effectiveAmount);
      ActKeepsClock(s, i, effective, effectiveAmount);
      ScheduleReschedules(w, Act(s, i, effective, effectiveAmount).state, removed);
    }
  }

  lemma DealerReschedules(w: World, target: PlayerId, kick: bool, removed: bool)
    requires TimerInv(w)
    ensures var h := HandleDealer(w, target, kick, removed);
            if h.reply == Acted then w.table.resumePending.None? && Rescheduled(w, h.world) else h.world == w
  {
    if HandleDealer(w, target, kick, removed).reply == Acted {
      var i, action := SeatOf(w.table.seats, target), if kick then DEALER_KICK else DEALER_FOLD;
      ActKeepsShape(w.table, i, action, None);
      ActKeepsClock(w.table, i, action, None);
      ScheduleReschedules(w, Act(w.table, i, action, None).state, removed);
    }
  }

  lemma DealReschedules(w: World, smallBlind: int, ante: int, removed: bool)
    requires TimerInv(w)
    ensures var h := DealHand(w, smallBlind, ante, removed);
            if h.reply == Acted then Rescheduled(w, h.world) else h.world == w
  {
    var level := w.table.(smallBlind := smallBlind, ante := ante);
    if w.table.phase == GamePhase.WAITING && StartPreFlop(level).Started? {
      StartKeepsShape(level);
      StartKeepsClock(level);
      ScheduleReschedules(w, StartPreFlop(level).state, removed);
    }
  }

  lemma ResumeReschedules(w: World, removed: bool)
    requires TimerInv(w)
    ensures var h := ResumeTable(w, removed);
            if h.reply == Acted then Rescheduled(w, h.world) else h.world == w
  {
    if w.table.resumePending.Some? {
      ScheduleReschedules(w, w.table.(resumePending := None), removed);
    }
  }

  lemma EpochNeverFalls(w: World, e: Event)
    requires TimerInv(w) && Possible(w, e)
    ensures w.table.timerEpoch <= Step(w, e).table.timerEpoch
  {
    match e
    case Player(user, action, amount, seen, removed) => ActionReschedules(w, user, action, amount, None, seen, removed);
    case Pick(_, _) =>
    case Fire(epoch, seen, removed) =>
      ActionReschedules(w, w.issued[epoch], TIME_OUT, None, Some(epoch), seen, removed);
    case Dealer(target, kick, removed) => DealerReschedules(w, target, kick, removed);
    case Deal(smallBlind, ante, removed) => DealReschedules(w, smallBlind, ante, removed);
    case AtTable(event) => BetweenKeepsTurn(w.table, event);
    case Interrupted(_) =>
    case Sweep(generation, overwrite, downMs, line) => PauseTableIs(w, generation, overwrite, downMs, line);
    case Resume(_) =>
    case Lost =>
    case Recovered =>
    case LineLost =>
    case LineBack =>
    case Tick(_) =>
  }

  lemma {:induction false} RunEpochNeverFalls(w: World, events: seq<Event>)
    requires TimerInv(w) && PossibleRun(w, events)
    ensures w.table.timerEpoch <= Run(w, events).table.timerEpoch
    decreases |events|
  {
    if |events| > 0 {
      StepKeepsTimer(w, events[0]);
      EpochNeverFalls(w, events[0]);
      RunEpochNeverFalls(Step(w, events[0]), events[1..]);
    }
  }

  lemma PausedEpoch(w: World, sweep: Option<nat>, overwrite: bool, downMs: int, line: bool, epoch: nat)
    requires TimerInv(w) && epoch in w.issued
    requires PauseTable(w, sweep, overwrite, downMs, line).table.timerEpoch != w.table.timerEpoch
    ensures epoch < PauseTable(w, sweep, overwrite, downMs, line).table.timerEpoch
  {
  }

  lemma PassedEpochIsDead(w: World, events: seq<Event>, epoch: nat, user: PlayerId, seen: nat, removed: bool)
    requires TimerInv(w) && PossibleRun(w, events) && epoch < w.table.timerEpoch
    ensures HandleAction(Run(w, events), user, TIME_OUT, None, Some(epoch), seen, removed).world == Run(w, events)
  {
    RunEpochNeverFalls(w, events);
    TimeoutActsIff(Run(w, events), user, epoch, seen, removed);
  }

  /**
   * After a pause no job added before it can ever fold anyone: not while the table is paused, not after
   * the dealer has resumed it, and not after any number of further turns and outages.
   */
  lemma OldJobsAreDead(w: World, e: Event, paused: World, events: seq<Event>, epoch: nat, user: PlayerId, seen: nat,
                       removed: bool)
    requires TimerInv(w) && Possible(w, e) && e.Sweep? && paused == Step(w, e)
    requires paused.table.timerEpoch != w.table.timerEpoch && epoch in w.issued
    requires TimerInv(paused) && PossibleRun(paused, events)
    ensures HandleAction(Run(paused, events), user, TIME_OUT, None, Some(epoch), seen, removed).world ==
            Run(paused, events)
  {
    PausedEpoch(w, e.generation, e.overwrite, e.downMs, e.line, epoch);
    PassedEpochIsDead(paused, events, epoch, user, seen, removed);
  }

  /** One sweep of the runtime kind. */
  predicate RuntimeSweep(e: Event) {
    e.Sweep? && !e.overwrite && (e.line ==> e.generation.None?)
  }

  predicate CurrentSweep(w: World, e: Event) {
    e.Sweep? && (e.generation.None? || e.generation.value == w.generation)
  }

  lemma RuntimePause(w: World, sweep: Option<nat>, downMs: int, line: bool)
    requires Shape(w.table)
    ensures var r := PauseTable(w, sweep, false, downMs, line);
            && r == w.(table := r.table) && SameHand(w.table, r.table)
            && (if Waiting(w.table) && (sweep.None? || sweep.value == w.generation)
                then r.table.timerEpoch == w.table.timerEpoch + 1 && r.table.resumePending.Some?
                else
                  && r.table.timerEpoch == w.table.timerEpoch
                  && (r.table.resumePending.Some? <==> w.table.resumePending.Some?))
  {
  }

  lemma SameHandSameOwner(s: TableState, r: TableState)
    requires Shape(s) && SameHand(s, r)
    ensures TurnOwner(r) == TurnOwner(s)
  {
  }

  lemma RuntimeSweepStep(w: World, e: Event)
    requires TimerInv(w) && RuntimeSweep(e)
    ensures var r := Step(w, e);
            && TimerInv(r) && r.generation == w.generation && SameHand(w.table, r.table)
            && (if Waiting(w.table) && CurrentSweep(w, e)
                then r.table.timerEpoch == w.table.timerEpoch + 1 && !Waiting(r.table)
                else r.table.timerEpoch == w.table.timerEpoch && (Waiting(r.table) <==> Waiting(w.table)))
  {
    SweepKeeps(w, e.generation, e.overwrite, e.downMs, e.line);
    RuntimePause(w, e.generation, e.downMs, e.line);
    SameHandSameOwner(w.table, PauseTable(w, e.generation, false, e.downMs, e.line).table);
  }

  ghost predicate AllPossible(w: World, sweeps: seq<Event>)
    requires TimerInv(w)
  {
    (forall k :: 0 <= k < |sweeps| ==> RuntimeSweep(sweeps[k])) && PossibleRun(w, sweeps)
  }

  /**
   * However many runtime sweeps pass over a table, they raise its epoch once if it was running and one
   * of them is of the current generation, and not at all otherwise: a sweep of an older outage never
   * pauses a table that was resumed in the meantime.
   */
  lemma {:induction false} SweepsRaiseEpochOnce(w: World, sweeps: seq<Event>)
    requires TimerInv(w) && AllPossible(w, sweeps)
    ensures var r := Run(w, sweeps);
            && SameHand(w.table, r.table)
            && r.table.timerEpoch == w.table.timerEpoch +
               if Waiting(w.table) && (exists k :: 0 <= k < |sweeps| && CurrentSweep(w, sweeps[k])) then 1 else 0
    ensures (forall k :: 0 <= k < |sweeps| ==> !CurrentSweep(w, sweeps[k])) ==>
            (Waiting(Run(w, sweeps).table) <==> Waiting(w.table))
    decreases |sweeps|
  {
    if |sweeps| > 0 {
      var next := Step(w, sweeps[0]);
      RuntimeSweepStep(w, sweeps[0]);
      SweepsRaiseEpochOnce(next, sweeps[1..]);
      assert forall k :: 1 <= k < |sweeps| ==> sweeps[k] == sweeps[1..][k - 1];
      assert forall k :: 0 <= k < |sweeps| ==> CurrentSweep(next, sweeps[k]) == CurrentSweep(w, sweeps[k]);
      if exists k :: 0 <= k < |sweeps| && CurrentSweep(w, sweeps[k]) {
        var k :| 0 <= k < |sweeps| && CurrentSweep(w, sweeps[k]);
        assert k == 0 || CurrentSweep(next, sweeps[1..][k - 1]);
      }
    }
  }
}

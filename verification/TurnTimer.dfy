/**
 * The turn clock of one table: the snapshot, the queue of time-out jobs, and the gates that an outage,
 * a lost line and a pause put in front of them. One function is one `mutateSnapshot` callback.
 */
module TurnTimer {
  import opened TableTypes
  import opened Ring
  import opened Betting
  import opened HandStart

  const TURN_TIMEOUT_MS: int := 30000

  /**
   * `jobs` are the epochs of the queued or executing jobs; `issued` remembers for every job ever added
   * the user it is for, and `deliveries` the executions that have passed the processor's own checks,
   * each with the outage generation it saw. A delivery may be carried out any number of times.
   */
  datatype World = World(
    table: TableState,
    jobs: set<nat>,
    issued: map<nat, PlayerId>,
    deliveries: set<(nat, nat)>,
    kicked: set<PlayerId>,
    up: bool,
    generation: nat,
    swept: bool,
    lineDown: bool,
    lineSwept: bool,
    now: int)

  datatype Reply = Threw | Unchanged | Acted

  datatype Handled = Handled(world: World, reply: Reply)

  /** `turnOwner`. */
  function TurnOwner(s: TableState): Option<PlayerId>
    requires Shape(s)
  {
    if s.phase == SHOWDOWN || s.turn == -1 || s.seats[s.turn].Empty? then None
    else Some(s.seats[s.turn].player.id)
  }

  /** `scheduleTurnTimeout`: `removed` says whether the old job could be taken out of the queue. */
  function Schedule(w: World, s: TableState, removed: bool): World
    requires Shape(s)
  {
    var epoch := s.timerEpoch + 1;
    var jobs := if removed then w.jobs - {s.timerEpoch} else w.jobs;
    match TurnOwner(s)
    case None => w.(table := s.(timerEpoch := epoch, actionDeadline := None), jobs := jobs)
    case Some(user) =>
      w.(table := s.(timerEpoch := epoch, actionDeadline := Some(w.now + TURN_TIMEOUT_MS)),
         jobs := jobs + {epoch},
         issued := if epoch in jobs then w.issued else w.issued[epoch := user])
  }

  /** Whatever `act` makes of a snapshot, its turn and button are seats of the table. */
  lemma ActKeepsShape(s: TableState, i: int, action: ActionType, amount: Option<int>)
    requires Shape(s)
    ensures Act(s, i, action, amount).Applied? ==> Shape(Act(s, i, action, amount).state)
  {
    if Act(s, i, action, amount).Applied? {
      if DealerAction(action) {
        AdvanceKeepsShape(Folded(s, i), s.turn == i);
      } else if s.seats[i].player.hasFolded {
        AdvanceKeepsShape(s, true);
      } else {
        PlayKeepsShape(s, i, action, amount);
        AdvanceKeepsShape(Play(s, i, action, amount).state, true);
      }
    }
  }

  lemma AdvanceKeepsShape(s: TableState, wasTurn: bool)
    requires Shape(s) && (wasTurn ==> 0 <= s.turn)
    ensures Shape(Advance(s, wasTurn))
  {
  }

  lemma PlayKeepsShape(s: TableState, i: int, action: ActionType, amount: Option<int>)
    requires Shape(s) && SeatTaken(s, i)
    ensures Play(s, i, action, amount).Done? ==>
              Shape(Play(s, i, action, amount).state) && Play(s, i, action, amount).state.turn == s.turn
  {
  }

  lemma StartKeepsShape(s: TableState)
    requires Shape(s)
    ensures StartPreFlop(s).Started? ==> Shape(StartPreFlop(s).state)
  {
    if StartPreFlop(s).Started? {
      var button := NextLive(s.seats, Succ(s.buttonUser, |s.seats|));
      AntesSeatBySeat(s.(buttonUser := button), |s.seats|);
    }
  }

  /** `handleAction`, for a call that saw the outage generation `seen`. */
  function HandleAction(w: World, user: PlayerId, action: ActionType, amount: Option<int>, expected: Option<nat>,
                        seen: nat, removed: bool): Handled
    requires Shape(w.table)
  {
    var s := w.table;
    var i := SeatOf(s.seats, user);
    if !w.up || seen != w.generation || i == -1 then Handled(w, Threw)
    else if action == TIME_OUT && (s.turn != i || (expected.Some? && expected.value != s.timerEpoch))
    then Handled(w, Unchanged)
    else if action == TIME_OUT && w.lineDown then Handled(w, Unchanged)
    else if s.resumePending.Some? then Handled(w, Threw)
    else
      var expired := s.actionDeadline.Some? && w.now > s.actionDeadline.value;
      var effective := if user in w.kicked then FOLD else if expired then TIME_OUT else action;
      var effectiveAmount := if effective == action then amount else None;
      ActKeepsShape(s, i, effective, effectiveAmount);
      match Act(s, i, effective, effectiveAmount)
      case Rejected(_) => Handled(w, Threw)
      case Ignored => Handled(w, Unchanged)
      case Applied(s') => Handled(Schedule(w, s', removed), Acted)
  }

  /** The check the time-out processor makes outside the lock. */
  predicate StillWanted(w: World, epoch: nat)
    requires Shape(w.table) && epoch in w.issued
  {
    && epoch == w.table.timerEpoch
    && 0 <= w.table.turn && w.table.seats[w.table.turn].Taken?
    && w.table.seats[w.table.turn].player.id == w.issued[epoch]
  }

  /** `process` up to the call of `handleAction`: the job is dropped, put back, or taken on. */
  function PickJob(w: World, epoch: nat, dealerConfirmed: bool): World
    requires Shape(w.table) && epoch in w.issued
  {
    if !StillWanted(w, epoch) then w.(jobs := w.jobs - {epoch})
    else if !dealerConfirmed then w
    else if !w.up then w.(jobs := w.jobs - {epoch})
    else w.(deliveries := w.deliveries + {(epoch, w.generation)})
  }

  /** The rest of `process`; the job leaves the queue whether it completes or fails. */
  function FireJob(w: World, epoch: nat, seen: nat, removed: bool): Handled
    requires Shape(w.table) && epoch in w.issued
  {
    var h := HandleAction(w, w.issued[epoch], TIME_OUT, None, Some(epoch), seen, removed);
    Handled(h.world.(jobs := h.world.jobs - {epoch}), h.reply)
  }

  /** The callback of `handleDealerAction`. */
  function HandleDealer(w: World, target: PlayerId, kick: bool, removed: bool): Handled
    requires Shape(w.table)
  {
    var i := SeatOf(w.table.seats, target);
    if w.table.resumePending.Some? || i == -1 then Handled(w, Threw)
    else
      ActKeepsShape(w.table, i, if kick then DEALER_KICK else DEALER_FOLD, None);
      match Act(w.table, i, if kick then DEALER_KICK else DEALER_FOLD, None)
      case Rejected(_) => Handled(w, Threw)
      case Ignored => Handled(Schedule(w, w.table, removed), Acted)
      case Applied(s') =>
        var scheduled := Schedule(w, s', removed);
        Handled(if kick then scheduled.(kicked := scheduled.kicked + {target}) else scheduled, Acted)
  }

  /** The callback of `startPreFlop`: it does not look at `resumePending`. */
  function DealHand(w: World, smallBlind: int, ante: int, removed: bool): Handled
    requires Shape(w.table)
  {
    if w.table.phase != WAITING then Handled(w, Threw)
    else
      var level := w.table.(smallBlind := smallBlind, ante := ante);
      StartKeepsShape(level);
      match StartPreFlop(level)
      case CannotStart => Handled(w, Threw)
      case Started(dealt) => Handled(Schedule(w, dealt, removed), Acted)
  }

  /** `pauseTable`: without a reason of its own it is a server outage; a runtime sweep does not overwrite. */
  function PauseTable(w: World, sweep: Option<nat>, overwrite: bool, downMs: int, lineDown: bool): World
    requires Shape(w.table)
  {
    var s := w.table;
    if s.resumePending.Some? && !overwrite then
      if s.resumePending.value.reason == LINE_DOWN && !lineDown
      then w.(table := s.(resumePending := Some(Pause(s.resumePending.value.downMs, SERVER_DOWN))))
      else w
    else if sweep.Some? && sweep.value != w.generation then w
    else if TurnOwner(s).None? then w
    else w.(table := s.(timerEpoch := s.timerEpoch + 1, actionDeadline := None,
                        resumePending := Some(Pause(downMs, if lineDown then LINE_DOWN else SERVER_DOWN))))
  }

  /** `resumeTable`. */
  function ResumeTable(w: World, removed: bool): Handled
    requires Shape(w.table)
  {
    if w.table.resumePending.None? then Handled(w, Threw)
    else Handled(Schedule(w, w.table.(resumePending := None), removed), Acted)
  }

  /** `markRebuyInterrupted`: an existing pause is kept. */
  function MarkInterrupted(w: World, pause: Pause): World {
    if w.table.resumePending.Some? then w else w.(table := w.table.(resumePending := Some(pause)))
  }
}

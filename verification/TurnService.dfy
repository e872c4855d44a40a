/** The turn clock's callbacks as the services run them, step by step on the snapshot and the queue. */
module TurnServices {
  import opened TableTypes
  import opened Betting
  import opened HandStart
  import opened TurnTimer

  class TurnService {
    var table: TableState
    var jobs: set<nat>
    var issued: map<nat, PlayerId>
    var deliveries: set<(nat, nat)>
    var kicked: set<PlayerId>
    var up: bool
    var generation: nat
    var swept: bool
    var lineDown: bool
    var lineSwept: bool
    var now: int

    /** The world these fields stand for. */
    function AsWorld(): World
      reads this
    {
      World(table, jobs, issued, deliveries, kicked, up, generation, swept, lineDown, lineSwept, now)
    }

    constructor (initial: World)
      requires Shape(initial.table)
      ensures AsWorld() == initial
    {
      table, jobs, issued, deliveries, kicked :=
        initial.table, initial.jobs, initial.issued, initial.deliveries, initial.kicked;
      up, generation, swept := initial.up, initial.generation, initial.swept;
      lineDown, lineSwept, now := initial.lineDown, initial.lineSwept, initial.now;
    }

    /** The queue's `add`: a job whose id is already there is silently kept as it is. */
    method AddJob(epoch: nat, user: PlayerId)
      modifies this
      ensures AsWorld() == old(AsWorld()).(
                jobs := old(jobs) + {epoch},
                issued := if epoch in old(jobs) then old(issued) else old(issued)[epoch := user])
    {
      if epoch in jobs {
        assert jobs + {epoch} == jobs;
        return;
      }
      jobs := jobs + {epoch};
      issued := issued[epoch := user];
    }

    /** `scheduleTurnTimeout` on the snapshot `state`, and the write of that snapshot. */
    method ScheduleTurnTimeout(state: TableState, removed: bool)
      requires Shape(state)
      modifies this
      ensures AsWorld() == Schedule(old(AsWorld()), state, removed)
    {
      var prevEpoch := state.timerEpoch;
      if removed {
        jobs := jobs - {prevEpoch};
      }
      var s := state.(timerEpoch := prevEpoch + 1);
      var next := TurnOwner(s);
      if next.None? {
        s := s.(actionDeadline := None);
      } else {
        AddJob(s.timerEpoch, next.value);
        s := s.(actionDeadline := Some(now + TURN_TIMEOUT_MS));
      }
      table := s;
    }

    method HandleAction(user: PlayerId, action: ActionType, amount: Option<int>, expected: Option<nat>, seen: nat,
                        removed: bool)
      returns (reply: Reply)
      requires Shape(table)
      modifies this
      ensures Handled(AsWorld(), reply) ==
              TurnTimer.HandleAction(old(AsWorld()), user, action, amount, expected, seen, removed)
    {
      if !up || seen != generation {
        return Threw;
      }
      var s := table;
      var i := SeatOf(s.seats, user);
      if i == -1 {
        return Threw;
      }
      if action == TIME_OUT {
        var isStaleTurn := s.turn != i;
        var isStaleEpoch := expected.Some? && expected.value != s.timerEpoch;
        if isStaleTurn || isStaleEpoch || lineDown {
          return Unchanged;
        }
      }
      if s.resumePending.Some? {
        return Threw;
      }
      var isExpired := s.actionDeadline.Some? && now > s.actionDeadline.value;
      var effective := action;
      if user in kicked {
        effective := FOLD;
      } else if isExpired {
        effective := TIME_OUT;
      }
      var effectiveAmount := if effective == action then amount else None;
      reply := ActAndSchedule(i, effective, effectiveAmount, removed);
    }

    /** The engine call of `handleAction`, and the timer of the next turn if it was applied. */
    method ActAndSchedule(i: int, action: ActionType, amount: Option<int>, removed: bool) returns (reply: Reply)
      requires Shape(table)
      modifies this
      ensures match Act(old(table), i, action, amount)
              case Rejected(_) => reply == Threw && AsWorld() == old(AsWorld())
              case Ignored => reply == Unchanged && AsWorld() == old(AsWorld())
              case Applied(s') => reply == Acted && Shape(s') && AsWorld() == Schedule(old(AsWorld()), s', removed)
    {
      ActKeepsShape(table, i, action, amount);
      var outcome := Act(table, i, action, amount);
      match outcome
      case Rejected(_) => reply := Threw;
      case Ignored => reply := Unchanged;
      case Applied(s') =>
        ScheduleTurnTimeout(s', removed);
        reply := Acted;
    }

    /** `process`: one delivery of the job, when nothing comes between its own checks and the lock. */
    method Process(epoch: nat, dealerConfirmed: bool, removed: bool)
      requires Shape(table) && epoch in issued
      modifies this
      ensures AsWorld() == var picked := PickJob(old(AsWorld()), epoch, dealerConfirmed);
                   if StillWanted(old(AsWorld()), epoch) && dealerConfirmed && old(AsWorld()).up
                   then FireJob(picked, epoch, old(AsWorld()).generation, removed).world else picked
    {
      if table.turn < 0 || table.seats[table.turn].Empty?
         || table.seats[table.turn].player.id != issued[epoch] || epoch != table.timerEpoch
      {
        jobs := jobs - {epoch};
        return;
      }
      if !dealerConfirmed {
        return;
      }
      var seen := generation;
      if up {
        deliveries := deliveries + {(epoch, seen)};
        var reply := HandleAction(issued[epoch], TIME_OUT, None, Some(epoch), seen, removed);
      }
      jobs := jobs - {epoch};
    }

    method PauseTable(sweep: Option<nat>, overwrite: bool, downMs: int, line: bool) returns (epoch: Option<nat>)
      requires Shape(table)
      modifies this
      ensures AsWorld() == TurnTimer.PauseTable(old(AsWorld()), sweep, overwrite, downMs, line)
      ensures epoch.Some? <==> table.timerEpoch != old(AsWorld()).table.timerEpoch
      ensures epoch.Some? ==> epoch.value == table.timerEpoch
    {
      var s := table;
      epoch := None;
      if s.resumePending.Some? && !overwrite {
        if s.resumePending.value.reason == LINE_DOWN && !line {
          table := s.(resumePending := Some(Pause(s.resumePending.value.downMs, SERVER_DOWN)));
        }
        return;
      }
      if sweep.Some? && sweep.value != generation {
        return;
      }
      if TurnOwner(s).None? {
        return;
      }
      s := s.(timerEpoch := s.timerEpoch + 1);
      s := s.(actionDeadline := None);
      s := s.(resumePending := Some(Pause(downMs, if line then LINE_DOWN else SERVER_DOWN)));
      epoch := Some(s.timerEpoch);
      table := s;
    }

    method ResumeTable(removed: bool) returns (reply: Reply)
      requires Shape(table)
      modifies this
      ensures Handled(AsWorld(), reply) == TurnTimer.ResumeTable(old(AsWorld()), removed)
    {
      if table.resumePending.None? {
        return Threw;
      }
      ScheduleTurnTimeout(table.(resumePending := None), removed);
      reply := Acted;
    }

    method HandleDealerAction(target: PlayerId, kick: bool, removed: bool) returns (reply: Reply)
      requires Shape(table)
      modifies this
      ensures Handled(AsWorld(), reply) == HandleDealer(old(AsWorld()), target, kick, removed)
    {
      if table.resumePending.Some? {
        return Threw;
      }
      var i := SeatOf(table.seats, target);
      if i == -1 {
        return Threw;
      }
      var action := if kick then DEALER_KICK else DEALER_FOLD;
      ActKeepsShape(table, i, action, None);
      var outcome := Act(table, i, action, None);
      if outcome.Rejected? {
        return Threw;
      }
      assert outcome.Applied?;
      ScheduleTurnTimeout(outcome.state, removed);
      if kick {
        kicked := kicked + {target};
      }
      reply := Acted;
    }
  }
}

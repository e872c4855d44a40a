/** The two halves of `claimSeat` as the entry service runs them. */
module SeatDesks {
  import opened TableTypes
  import opened SeatClaims
  import L = Ledger
  import T = TableRuns

  class SeatDesk {
    var rows: map<nat, PlayerId>
    var elsewhere: set<PlayerId>
    var status: map<PlayerId, L.PlayerStatus>
    var closed: bool
    var table: Option<TableState>
    var claims: map<nat, Claim>

    /** The world these fields stand for. */
    function AsWorld(): World
      reads this
    {
      World(rows, elsewhere, status, closed, table, claims)
    }

    constructor (initial: World)
      ensures AsWorld() == initial
    {
      rows, elsewhere, status := initial.rows, initial.elsewhere, initial.status;
      closed, table, claims := initial.closed, initial.table, initial.claims;
    }

    /** The seat row of the user; false stands for a conflict. */
    method ReadSeat(id: nat) returns (ok: bool)
      requires id in claims && claims[id].stage.Checked?
      modifies `claims
      ensures AsWorld() == ReadSeatStep(old(AsWorld()), id)
      ensures ok <==> id in claims
    {
      var c := claims[id];
      var sameSeat := c.seat in rows && rows[c.seat] == c.user;
      if !sameSeat {
        if HasRow(AsWorld(), c.user) {
          claims := claims - {id};
          return false;
        }
      }
      claims := claims[id := c.(stage := SeatRead(sameSeat))];
      ok := true;
    }

    /** The transaction outside the lock; false stands for a conflict. */
    method CommitRow(id: nat) returns (ok: bool)
      requires id in claims && claims[id].stage.Cleared?
      modifies this
      ensures AsWorld() == CommitStep(old(AsWorld()), id)
      ensures ok <==> id in claims
    {
      var c := claims[id];
      if !c.stage.alreadySeated {
        if c.seat in rows || HasRow(AsWorld(), c.user) {
          claims := claims - {id};
          return false;
        }
        rows := rows[c.seat := c.user];
        if c.user in status {
          if status[c.user] == L.PlayerStatus.WAITING {
            status := status[c.user := L.PLAYING];
          } else if status[c.user] == L.RELEASED {
            status := status[c.user := L.PLAYING];
          } else {
            assert status[c.user := Promoted(status[c.user])] == status;
          }
        }
      }
      claims := claims[id := c.(stage := Committed(c.stage.rowsThen))];
      ok := true;
    }

    /** The callback under the lock; false stands for a conflict. */
    method WriteSeat(id: nat) returns (ok: bool)
      requires id in claims && claims[id].stage.Committed?
      modifies this
      ensures AsWorld() == WriteStep(old(AsWorld()), id)
      ensures ok ==> rows == old(AsWorld()).rows && claims == old(AsWorld()).claims - {id}
      ensures ok <==> LockedWrite(old(AsWorld()), old(AsWorld()).claims[id]).Some?
    {
      var c := claims[id];
      claims := claims - {id};
      if c.seat !in rows || rows[c.seat] != c.user {
        return false;
      }
      if ShouldBlockEmptySnapshot(AsWorld(), c.stage.rowsThen) {
        return false;
      }
      var state := if table.Some? then table.value else EmptyTable();
      if c.seat >= |state.seats| {
        return false;
      }
      var occupant := state.seats[c.seat];
      if occupant.Empty? || occupant.player.id != c.user {
        state := state.(seats := state.seats[c.seat := Taken(T.Newcomer(state, c.user, c.stack))]);
        table := Some(state);
        return true;
      }
      return table.Some?;
    }
  }
}

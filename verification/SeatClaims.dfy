/**
 * Taking a seat: the participation, the seat row and the table are read one after the other, the row is
 * committed outside the table lock, the snapshot seat is written inside it, and eliminations delete rows
 * under the same lock. Any number of claims interleave.
 */
module SeatClaims {
  import opened TableTypes
  import opened HandStart
  import opened Occupants
  import L = Ledger
  import T = TableRuns

  const SEAT_COUNT: nat := 9

  /**
   * How far an `enterSeat` has come. `alreadySeated` is what the read of its seat row found, `rowsThen`
   * the number of seat rows of the table it read; nothing is read again before the lock.
   */
  datatype Stage =
    | Checked
    | SeatRead(alreadySeated: bool)
    | TableRead(alreadySeated: bool, rowsThen: nat)
    | Cleared(alreadySeated: bool, rowsThen: nat)
    | Committed(rowsThen: nat)

  /** One `enterSeat` whose participation has passed the check; `stack` is the stack it read with it. */
  datatype Claim = Claim(user: PlayerId, seat: nat, stack: int, stage: Stage)

  /**
   * `rows` are the seat rows of this table, `elsewhere` the users with a row at another table of the
   * tournament. Seat and user are unique in the rows.
   */
  datatype World = World(
    rows: map<nat, PlayerId>,
    elsewhere: set<PlayerId>,
    status: map<PlayerId, L.PlayerStatus>,
    closed: bool,
    table: Option<TableState>,
    claims: map<nat, Claim>)

  datatype Event =
    | Enter(id: nat, user: PlayerId, seat: nat, stack: int)
    | ReadSeat(seatReader: nat)
    | ReadTable(tableReader: nat)
    | ReadSnapshot(snapshotReader: nat)
    | CommitRow(claim: nat)
    | WriteSeat(writer: nat)
    | GiveUp(dropped: nat)
    | Hand(event: T.Event)
    | Bust
    | FinishHand
    | Kick(target: PlayerId)
    | SnapshotLost

  function EmptyTable(): TableState {
    TableState(WAITING, seq(SEAT_COUNT, _ => Empty), 0, -1, 0, [], 0, 100, 0, None, 0, None, None)
  }

  predicate HasRow(w: World, u: PlayerId) {
    u in w.rows.Values || u in w.elsewhere
  }

  predicate IsFinished(w: World, u: PlayerId) {
    u in w.status && L.Finished(w.status[u])
  }

  /** `shouldBlockEmptySnapshot`: rows without a snapshot mean that the snapshot was lost. */
  predicate ShouldBlockEmptySnapshot(w: World, rowsThen: nat) {
    w.table.None? && !w.closed && rowsThen > 0
  }

  /** The participation is read: none, a closed tournament or a finished one is refused. */
  function EnterStep(w: World, id: nat, u: PlayerId, seat: nat, stack: int): World {
    if u !in w.status || w.closed || IsFinished(w, u) || id in w.claims then w
    else w.(claims := w.claims[id := Claim(u, seat, stack, Checked)])
  }

  function MoveOn(w: World, id: nat, stage: Stage): World
    requires id in w.claims
  {
    w.(claims := w.claims[id := w.claims[id].(stage := stage)])
  }

  /** The seat row of the user is read: one that is not this seat is refused. */
  function ReadSeatStep(w: World, id: nat): World {
    if id !in w.claims || !w.claims[id].stage.Checked? then w
    else
      var c := w.claims[id];
      var sameSeat := c.seat in w.rows && w.rows[c.seat] == c.user;
      if HasRow(w, c.user) && !sameSeat then w.(claims := w.claims - {id}) else MoveOn(w, id, SeatRead(sameSeat))
  }

  function ReadTableStep(w: World, id: nat): World {
    if id !in w.claims || !w.claims[id].stage.SeatRead? then w
    else MoveOn(w, id, TableRead(w.claims[id].stage.alreadySeated, |w.rows|))
  }

  /** The snapshot is read before the transaction: a lost one is refused. */
  function ReadSnapshotStep(w: World, id: nat): World {
    if id !in w.claims || !w.claims[id].stage.TableRead? then w
    else if ShouldBlockEmptySnapshot(w, w.claims[id].stage.rowsThen) then w.(claims := w.claims - {id})
    else MoveOn(w, id, Cleared(w.claims[id].stage.alreadySeated, w.claims[id].stage.rowsThen))
  }

  /** The first seat makes a no-show a player, and a released player one again. */
  function Promoted(status: L.PlayerStatus): L.PlayerStatus {
    if status == L.PlayerStatus.WAITING || status == L.RELEASED then L.PLAYING else status
  }

  /** What the transaction writes for a claim that found its seat empty. */
  function RowWritten(w: World, id: nat): World
    requires id in w.claims && w.claims[id].stage.Cleared?
  {
    var c := w.claims[id];
    w.(rows := w.rows[c.seat := c.user],
       status := if c.user in w.status then w.status[c.user := Promoted(w.status[c.user])] else w.status,
       claims := w.claims[id := c.(stage := Committed(c.stage.rowsThen))])
  }

  /** The transaction of `claimSeat`, skipped on a re-entry; the unique keys refuse a taken seat or a second row. */
  function CommitStep(w: World, id: nat): World {
    if id !in w.claims || !w.claims[id].stage.Cleared? then w
    else
      var c := w.claims[id];
      if c.stage.alreadySeated then MoveOn(w, id, Committed(c.stage.rowsThen))
      else if c.seat in w.rows || HasRow(w, c.user) then w.(claims := w.claims - {id})
      else RowWritten(w, id)
  }

  /** The seat as the entry writes it. */
  function Newcomer(s: TableState, u: PlayerId, stack: int): TablePlayer {
    T.Newcomer(s, u, stack)
  }

  /** What the locked half of `claimSeat` makes of the table; `None` is a refusal. */
  function LockedWrite(w: World, c: Claim): Option<TableState>
    requires c.stage.Committed?
  {
    if c.seat !in w.rows || w.rows[c.seat] != c.user then None
    else if ShouldBlockEmptySnapshot(w, c.stage.rowsThen) then None
    else
      var s := if w.table.Some? then w.table.value else EmptyTable();
      if c.seat >= |s.seats| then None
      else if s.seats[c.seat].Taken? && s.seats[c.seat].player.id == c.user then w.table
      else Some(s.(seats := s.seats[c.seat := Taken(Newcomer(s, c.user, c.stack))]))
  }

  function WriteStep(w: World, id: nat): World {
    if id !in w.claims || !w.claims[id].stage.Committed? then w
    else
      var written := LockedWrite(w, w.claims[id]);
      w.(claims := w.claims - {id}, table := if written.Some? then written else w.table)
  }

  /** The users seated without chips, whom an elimination takes out. */
  function BrokeUsers(s: TableState): set<PlayerId> {
    set i | 0 <= i < |s.seats| && s.seats[i].Taken? && s.seats[i].player.stack <= 0 :: s.seats[i].player.id
  }

  /** An elimination under the lock: the rows are deleted and the participations finished. */
  function BustStep(w: World): World {
    if w.table.None? || w.table.value.phase != HAND_END then w
    else
      var broke := BrokeUsers(w.table.value);
      w.(rows := map i | i in w.rows && w.rows[i] !in broke :: w.rows[i],
         status := map u | u in w.status ::
           if u in broke && !L.Finished(w.status[u]) then L.ELIMINATED else w.status[u])
  }

  function Step(w: World, e: Event): World {
    match e
    case Enter(id, user, seat, stack) => EnterStep(w, id, user, seat, stack)
    case ReadSeat(id) => ReadSeatStep(w, id)
    case ReadTable(id) => ReadTableStep(w, id)
    case ReadSnapshot(id) => ReadSnapshotStep(w, id)
    case CommitRow(id) => CommitStep(w, id)
    case WriteSeat(id) => WriteStep(w, id)
    case GiveUp(id) => w.(claims := w.claims - {id})
    case Hand(event) =>
      if w.table.Some? && Shape(w.table.value) then w.(table := Some(T.Step(w.table.value, event))) else w
    case Bust => BustStep(w)
    case FinishHand =>
      var busted := BustStep(w);
      if busted.table.Some? && busted.table.value.phase == HAND_END
      then busted.(table := Some(InitTable(busted.table.value))) else busted
    case Kick(u) => if u in w.status then w.(status := w.status[u := L.ELIMINATED]) else w
    case SnapshotLost => w.(table := None)
  }

  /** Finished, and without a seat row anywhere. */
  ghost predicate Out(w: World, u: PlayerId) {
    IsFinished(w, u) && !HasRow(w, u)
  }

  /** The participation has passed its check, and the transaction is still to come. */
  predicate Open(c: Claim) {
    c.stage.Checked? || (!c.stage.Committed? && !c.stage.alreadySeated)
  }

  /** An entry of this user has passed the check of the participation and may still write a row. */
  ghost predicate RaceOpen(w: World, u: PlayerId) {
    exists id :: id in w.claims && w.claims[id].user == u && Open(w.claims[id])
  }

  /**
   * A seat of the snapshot belongs to the user of its row, or is what an elimination has left behind:
   * no chips, after the hand, of a user who is out.
   */
  ghost predicate SeatBacked(w: World, i: nat)
    requires w.table.Some? && i < |w.table.value.seats| && w.table.value.seats[i].Taken?
  {
    var p := w.table.value.seats[i].player;
    || (i in w.rows && w.rows[i] == p.id)
    || (w.table.value.phase == HAND_END && p.stack <= 0 && Out(w, p.id))
  }

  ghost predicate RowsUnique(w: World) {
    && (forall i, j :: i in w.rows && j in w.rows && i != j ==> w.rows[i] != w.rows[j])
    && (forall i :: i in w.rows ==> i < SEAT_COUNT && w.rows[i] !in w.elsewhere && w.rows[i] in w.status)
  }

  ghost predicate TableRight(w: World) {
    w.table.Some? ==>
      && Shape(w.table.value) && T.TableInv(w.table.value) && |w.table.value.seats| == SEAT_COUNT
      && forall i :: 0 <= i < SEAT_COUNT && w.table.value.seats[i].Taken? ==> SeatBacked(w, i)
  }

  ghost predicate ClaimsRight(w: World) {
    && (forall id :: id in w.claims ==>
          w.claims[id].seat < SEAT_COUNT && w.claims[id].stack > 0 && w.claims[id].user in w.status)
    && (forall u :: Out(w, u) ==> !RaceOpen(w, u))
  }

  ghost predicate ClaimInv(w: World) {
    RowsUnique(w) && TableRight(w) && ClaimsRight(w)
  }

  /**
   * What the surroundings guarantee: seats and stacks are positive numbers of this table, dealt with by
   * its hands; and a rebuy or a kick is for somebody who has a row, a rebuy for one still playing.
   */
  ghost predicate Possible(w: World, e: Event) {
    match e
    case Enter(_, _, seat, stack) => seat < SEAT_COUNT && stack > 0
    case Hand(event) =>
      && WithinHand(event)
      && (event.Rebuy? ==> event.id in w.rows.Values && !IsFinished(w, event.id))
    case Kick(u) => HasRow(w, u)
    case ReadSeat(_) => true
    case ReadTable(_) => true
    case ReadSnapshot(_) => true
    case CommitRow(_) => true
    case WriteSeat(_) => true
    case GiveUp(_) => true
    case Bust => true
    case FinishHand => true
    case SnapshotLost => true
  }

  /** No elimination overtakes an entry: whoever it takes out has none between its check and its row. */
  ghost predicate Calm(w: World, e: Event) {
    (e.Bust? || e.FinishHand?) && w.table.Some? ==>
      forall u :: u in BrokeUsers(w.table.value) ==> !RaceOpen(w, u)
  }

  /** A claim writes only what the row of that moment allows: its own seat, and no seat but that. */
  lemma WritesOnlyItsOwnRow(w: World, id: nat)
    requires id in w.claims && WriteStep(w, id).table != w.table
    ensures var c := w.claims[id];
            && c.seat in w.rows && w.rows[c.seat] == c.user
            && WriteStep(w, id).table.Some? && WriteStep(w, id).rows == w.rows
            && (w.table.Some? ==>
                  var s, r := w.table.value, WriteStep(w, id).table.value;
                  && c.seat < |s.seats| == |r.seats|
                  && !(s.seats[c.seat].Taken? && s.seats[c.seat].player.id == c.user)
                  && r == s.(seats := r.seats)
                  && (forall i :: 0 <= i < |s.seats| && i != c.seat ==> r.seats[i] == s.seats[i])
                  && r.seats[c.seat].Taken? && r.seats[c.seat].player.id == c.user
                  && (r.seats[c.seat].player.hasFolded <==> s.phase != WAITING))
  {
  }

  /** A claim by the player who already sits there changes nothing of the hand. */
  lemma ReentryKeepsTheHand(w: World, id: nat)
    requires id in w.claims && w.table.Some? && w.claims[id].seat < |w.table.value.seats|
    requires var x := w.table.value.seats[w.claims[id].seat]; x.Taken? && x.player.id == w.claims[id].user
    ensures WriteStep(w, id).table == w.table
  {
  }

  lemma EmptyTableReady()
    ensures Shape(EmptyTable()) && T.TableInv(EmptyTable()) && |EmptyTable().seats| == SEAT_COUNT
  {
  }

  lemma OtherSeatsBacked(w: World, w': World)
    requires TableRight(w) && w'.table == w.table
    requires forall i :: i in w.rows ==> i in w'.rows && w'.rows[i] == w.rows[i]
    requires forall u :: Out(w, u) ==> Out(w', u)
    ensures TableRight(w')
  {
    if w.table.Some? {
      forall i | 0 <= i < SEAT_COUNT && w'.table.value.seats[i].Taken? ensures SeatBacked(w', i) {
        assert SeatBacked(w, i);
      }
    }
  }

  lemma RowWrittenRows(w: World, id: nat)
    requires id in w.claims && w.claims[id].stage.Cleared? && w.claims[id].seat !in w.rows
    ensures forall u :: HasRow(RowWritten(w, id), u) <==> HasRow(w, u) || u == w.claims[id].user
  {
    var c, w' := w.claims[id], RowWritten(w, id);
    forall u | HasRow(w, u) || u == c.user ensures HasRow(w', u) {
      if u == c.user {
        assert c.seat in w'.rows && w'.rows[c.seat] == u;
      } else if u !in w.elsewhere {
        var i :| i in w.rows && w.rows[i] == u;
        assert i in w'.rows && w'.rows[i] == u;
      }
    }
  }

  lemma RowWrittenKeeps(w: World, id: nat)
    requires ClaimInv(w) && id in w.claims && w.claims[id].stage.Cleared? && !w.claims[id].stage.alreadySeated
    requires w.claims[id].seat !in w.rows && !HasRow(w, w.claims[id].user)
    ensures ClaimInv(RowWritten(w, id))
    ensures forall u :: Out(w, u) ==> Out(RowWritten(w, id), u)
  {
    var w' := RowWritten(w, id);
    assert Open(w.claims[id]);
    assert RaceOpen(w, w.claims[id].user);
    RowWrittenRows(w, id);
    RacesOnlyClose(w, w');
    OtherSeatsBacked(w, w');
  }

  /** No claim is new, and none is open again. */
  ghost predicate Narrowed(w: World, w': World) {
    forall id :: id in w'.claims ==>
      && id in w.claims && w'.claims[id] == w.claims[id].(stage := w'.claims[id].stage)
      && (Open(w'.claims[id]) ==> Open(w.claims[id]))
  }

  lemma ClaimMoved(w: World, w': World)
    requires ClaimInv(w) && w' == w.(claims := w'.claims) && Narrowed(w, w')
    ensures ClaimInv(w') && forall u :: Out(w, u) <==> Out(w', u)
  {
    RacesOnlyClose(w, w');
    OtherSeatsBacked(w, w');
  }

  lemma CommitKeeps(w: World, id: nat)
    requires ClaimInv(w)
    ensures ClaimInv(CommitStep(w, id))
    ensures forall u :: Out(w, u) ==> Out(CommitStep(w, id), u)
  {
    if id in w.claims && w.claims[id].stage.Cleared? {
      var c := w.claims[id];
      if c.stage.alreadySeated || c.seat in w.rows || HasRow(w, c.user) {
        ClaimMoved(w, CommitStep(w, id));
      } else {
        RowWrittenKeeps(w, id);
      }
    }
  }

  /** If no claim opens and nobody newly leaves, the races stay as they were. */
  lemma RacesOnlyClose(w: World, w': World)
    requires ClaimsRight(w) && Narrowed(w, w')
    requires forall u :: Out(w', u) ==> Out(w, u) || !RaceOpen(w, u)
    requires w'.status.Keys == w.status.Keys
    ensures ClaimsRight(w')
  {
    forall u, id | Out(w', u) && id in w'.claims && w'.claims[id].user == u ensures !Open(w'.claims[id]) {
      assert !RaceOpen(w, u);
      assert !Open(w.claims[id]);
    }
  }

  lemma WriteTable(w: World, c: Claim)
    requires ClaimInv(w) && c.seat < SEAT_COUNT && c.stack > 0 && c.stage.Committed?
    requires LockedWrite(w, c).Some? && LockedWrite(w, c) != w.table
    ensures var before := if w.table.Some? then w.table.value else EmptyTable();
            && T.CanSit(before, c.seat, c.user, c.stack)
            && T.TableInv(before) && Shape(before)
            && LockedWrite(w, c).value == T.Step(before, T.Sit(c.seat, c.user, c.stack))
  {
    var s := if w.table.Some? then w.table.value else EmptyTable();
    EmptyTableReady();
    forall i | 0 <= i < |s.seats| && s.seats[i].Taken? ensures s.seats[i].player.id != c.user {
      assert SeatBacked(w, i);
      assert HasRow(w, c.user);
    }
    if s.seats[c.seat].Taken? {
      assert SeatBacked(w, c.seat);
      T.TableInvNobodyInDebt(s);
    }
  }

  /**
   * A claim that writes is a player sitting down: the seat was empty, or held by somebody without chips
   * who is out of the tournament, and the table gains exactly the newcomer's stack.
   */
  lemma WriteBringsTheStack(w: World, id: nat)
    requires ClaimInv(w) && id in w.claims && WriteStep(w, id).table != w.table
    ensures var c := w.claims[id];
            var before := if w.table.Some? then w.table.value else EmptyTable();
            Chips(WriteStep(w, id).table.value) == Chips(before) + c.stack
  {
    var c := w.claims[id];
    WriteTable(w, c);
    var before := if w.table.Some? then w.table.value else EmptyTable();
    T.StepKeepsTable(before, T.Sit(c.seat, c.user, c.stack));
  }

  lemma WriteKeeps(w: World, id: nat)
    requires ClaimInv(w)
    ensures ClaimInv(WriteStep(w, id))
    ensures forall u :: Out(w, u) <==> Out(WriteStep(w, id), u)
  {
    var w' := WriteStep(w, id);
    RacesOnlyClose(w, w');
    if w'.table == w.table {
      OtherSeatsBacked(w, w');
    } else {
      var c := w.claims[id];
      WriteTable(w, c);
      var before := if w.table.Some? then w.table.value else EmptyTable();
      T.StepKeepsTable(before, T.Sit(c.seat, c.user, c.stack));
      forall i | 0 <= i < SEAT_COUNT && w'.table.value.seats[i].Taken? ensures SeatBacked(w', i) {
        if i != c.seat {
          assert w.table.Some? && SeatBacked(w, i);
        }
      }
    }
  }

  lemma EnterKeeps(w: World, id: nat, u: PlayerId, seat: nat, stack: int)
    requires ClaimInv(w) && seat < SEAT_COUNT && stack > 0
    ensures ClaimInv(EnterStep(w, id, u, seat, stack))
    ensures forall v :: Out(w, v) <==> Out(EnterStep(w, id, u, seat, stack), v)
  {
    var w' := EnterStep(w, id, u, seat, stack);
    OtherSeatsBacked(w, w');
    forall v, k | Out(w', v) && k in w'.claims && w'.claims[k].user == v ensures !Open(w'.claims[k]) {
      assert Out(w, v) && !RaceOpen(w, v);
      assert k in w.claims;
    }
  }

  /** The rows and statuses of an elimination: everybody broke is finished, and has no row here. */
  lemma BustedOut(w: World, u: PlayerId)
    requires ClaimInv(w) && w.table.Some? && w.table.value.phase == HAND_END && u in BrokeUsers(w.table.value)
    ensures Out(BustStep(w), u)
  {
    var w' := BustStep(w);
    var i :| 0 <= i < SEAT_COUNT && w.table.value.seats[i].Taken? && w.table.value.seats[i].player.stack <= 0
             && w.table.value.seats[i].player.id == u;
    assert SeatBacked(w, i);
    assert u in w.status && u !in w.elsewhere;
    assert u !in w'.rows.Values;
  }

  lemma BustRows(w: World)
    requires ClaimInv(w)
    ensures forall u :: Out(w, u) ==> Out(BustStep(w), u)
    ensures BustStep(w).status.Keys == w.status.Keys && BustStep(w).claims == w.claims && BustStep(w).table == w.table
    ensures w.table.Some? && w.table.value.phase == HAND_END ==>
              forall u :: Out(BustStep(w), u) ==> Out(w, u) || u in BrokeUsers(w.table.value)
  {
    var w' := BustStep(w);
    if w.table.Some? && w.table.value.phase == HAND_END {
      forall u | Out(w', u) && u !in BrokeUsers(w.table.value) ensures Out(w, u) {
        forall i | i in w.rows ensures w.rows[i] != u {
          assert i in w'.rows ==> w'.rows[i] in w'.rows.Values;
        }
      }
    }
  }

  lemma BustSeats(w: World)
    requires ClaimInv(w)
    ensures TableRight(BustStep(w))
  {
    var w' := BustStep(w);
    BustRows(w);
    if w.table.Some? {
      forall i | 0 <= i < SEAT_COUNT && w'.table.value.seats[i].Taken? ensures SeatBacked(w', i) {
        assert SeatBacked(w, i);
        var p := w.table.value.seats[i].player;
        if w.table.value.phase == HAND_END && p.stack <= 0 {
          assert p.id in BrokeUsers(w.table.value);
          BustedOut(w, p.id);
        } else if w.table.value.phase == HAND_END {
          StackedIsNotBroke(w.table.value, i);
        }
      }
    }
  }

  lemma StackedIsNotBroke(s: TableState, i: nat)
    requires DistinctIds(s.seats) && i < |s.seats| && s.seats[i].Taken? && s.seats[i].player.stack > 0
    ensures s.seats[i].player.id !in BrokeUsers(s)
  {
  }

  lemma BustKeeps(w: World)
    requires ClaimInv(w) && Calm(w, Bust)
    ensures ClaimInv(BustStep(w))
    ensures forall u :: Out(w, u) ==> Out(BustStep(w), u)
  {
    BustRows(w);
    BustSeats(w);
    RacesOnlyClose(w, BustStep(w));
  }

  lemma FinishKeeps(w: World)
    requires ClaimInv(w) && Calm(w, FinishHand)
    ensures ClaimInv(Step(w, FinishHand))
    ensures forall u :: Out(w, u) ==> Out(Step(w, FinishHand), u)
  {
    BustKeeps(w);
    var b, w' := BustStep(w), Step(w, FinishHand);
    if b.table.Some? && b.table.value.phase == HAND_END {
      InitTableReady(b.table.value);
      forall i | 0 <= i < SEAT_COUNT && w'.table.value.seats[i].Taken? ensures SeatBacked(w', i) {
        assert SeatBacked(b, i);
        assert w'.table.value.seats[i].player.id == b.table.value.seats[i].player.id;
      }
    }
    RacesOnlyClose(b, w');
  }

  /** While a hand goes on the seats keep their players, and only the end of a hand empties a stack for good. */
  lemma HandSeats(w: World, e: T.Event)
    requires ClaimInv(w) && w.table.Some? && WithinHand(e)
    requires e.Rebuy? ==> e.id in w.rows.Values
    ensures TableRight(w.(table := Some(T.Step(w.table.value, e))))
  {
    var s := w.table.value;
    var w' := w.(table := Some(T.Step(s, e)));
    T.StepKeepsTable(s, e);
    HandKeepsOccupants(s, e);
    forall i | 0 <= i < SEAT_COUNT && w'.table.value.seats[i].Taken? ensures SeatBacked(w', i) {
      assert SameOccupant(s.seats[i], w'.table.value.seats[i]);
      assert SeatBacked(w, i);
      if !(i in w.rows && w.rows[i] == s.seats[i].player.id) {
        LeftoverStays(s, e, i);
      }
    }
  }

  /** After the hand only a rebuy moves chips, and it goes to the seat of the named player. */
  lemma LeftoverStays(s: TableState, e: T.Event, i: nat)
    requires Shape(s) && T.TableInv(s) && WithinHand(e) && s.phase == HAND_END
    requires i < |s.seats| && s.seats[i].Taken? && (e.Rebuy? ==> e.id != s.seats[i].player.id)
    ensures T.Step(s, e).phase == HAND_END && |T.Step(s, e).seats| == |s.seats| && T.Step(s, e).seats[i] == s.seats[i]
  {
  }

  lemma HandKeeps(w: World, e: T.Event)
    requires ClaimInv(w) && Possible(w, Hand(e))
    ensures ClaimInv(Step(w, Hand(e)))
    ensures forall u :: Out(w, u) <==> Out(Step(w, Hand(e)), u)
  {
    if w.table.Some? {
      HandSeats(w, e);
    }
    RacesOnlyClose(w, Step(w, Hand(e)));
  }

  lemma KickKeeps(w: World, u: PlayerId)
    requires ClaimInv(w) && HasRow(w, u)
    ensures ClaimInv(Step(w, Kick(u)))
    ensures forall v :: Out(w, v) ==> Out(Step(w, Kick(u)), v)
  {
    var w' := Step(w, Kick(u));
    OtherSeatsBacked(w, w');
    RacesOnlyClose(w, w');
  }

  /** Every calm step keeps the seats of the snapshot backed by the rows, and nobody who is out comes back. */
  lemma StepKeepsClaims(w: World, e: Event)
    requires ClaimInv(w) && Possible(w, e) && Calm(w, e)
    ensures ClaimInv(Step(w, e))
    ensures forall u :: Out(w, u) ==> Out(Step(w, e), u)
  {
    match e
    case Enter(id, user, seat, stack) => EnterKeeps(w, id, user, seat, stack);
    case ReadSeat(id) => ClaimMoved(w, Step(w, e));
    case ReadTable(id) => ClaimMoved(w, Step(w, e));
    case ReadSnapshot(id) => ClaimMoved(w, Step(w, e));
    case CommitRow(id) => CommitKeeps(w, id);
    case WriteSeat(id) => WriteKeeps(w, id);
    case GiveUp(id) => ClaimMoved(w, Step(w, e));
    case Hand(event) => HandKeeps(w, event);
    case Bust => BustKeeps(w);
    case FinishHand => FinishKeeps(w);
    case Kick(u) => KickKeeps(w, u);
    case SnapshotLost => RacesOnlyClose(w, Step(w, e));
  }

  function Run(w: World, events: seq<Event>): World {
    if |events| == 0 then w else Step(Run(w, events[..|events| - 1]), events[|events| - 1])
  }

  ghost predicate PossibleRun(w: World, events: seq<Event>) {
    |events| == 0
    || (PossibleRun(w, events[..|events| - 1]) && Possible(Run(w, events[..|events| - 1]), events[|events| - 1]))
  }

  ghost predicate CalmRun(w: World, events: seq<Event>) {
    |events| == 0
    || (CalmRun(w, events[..|events| - 1]) && Calm(Run(w, events[..|events| - 1]), events[|events| - 1]))
  }

  /**
   * Over any interleaving of claims, hands, eliminations and kicks in which no elimination overtakes an
   * entry: every seat of the snapshot belongs to the user of its row or is a leftover without chips, and
   * whoever is out stays out.
   */
  lemma {:induction false} RunKeepsClaims(w: World, events: seq<Event>)
    requires ClaimInv(w) && PossibleRun(w, events) && CalmRun(w, events)
    ensures ClaimInv(Run(w, events))
    ensures forall u :: Out(w, u) ==> Out(Run(w, events), u)
  {
    if |events| > 0 {
      RunKeepsClaims(w, events[..|events| - 1]);
      StepKeepsClaims(Run(w, events[..|events| - 1]), events[|events| - 1]);
    }
  }

  /** Nobody writes over the user of a row: the claims of anybody else leave the seat as it is. */
  lemma NewOwnerIsSafe(w: World, id: nat, seat: nat)
    requires id in w.claims && seat in w.rows && w.rows[seat] != w.claims[id].user
    requires w.table.Some? && seat < |w.table.value.seats|
    ensures WriteStep(w, id).table.Some? && seat < |WriteStep(w, id).table.value.seats|
    ensures WriteStep(w, id).table.value.seats[seat] == w.table.value.seats[seat]
  {
  }
}

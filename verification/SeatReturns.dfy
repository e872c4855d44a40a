/**
 * Who can come back to a seat after being eliminated. An entry looks at the participation once, when it
 * begins, so an entry that has passed that check is a way back in; and there is no other.
 */
module SeatReturns {
  import opened TableTypes
  import opened SeatClaims
  import T = TableRuns

  /** An entry of `u` between the check of the participation and the transaction. */
  predicate OpenEntry(w: World, id: nat, u: PlayerId) {
    id in w.claims && w.claims[id].user == u && Open(w.claims[id])
  }

  /** The number of rows the entry goes by when it looks at the snapshot. */
  function RowsSeen(w: World, c: Claim): nat {
    match c.stage
    case Checked => |w.rows|
    case SeatRead(_) => |w.rows|
    case TableRead(_, rowsThen) => rowsThen
    case Cleared(_, rowsThen) => rowsThen
    case Committed(rowsThen) => rowsThen
  }

  /** The seat of the entry has no row, and the snapshot does not hold the entry up. */
  predicate SeatFree(w: World, id: nat)
    requires id in w.claims
  {
    var c := w.claims[id];
    c.seat !in w.rows && (c.stage.Cleared? || !ShouldBlockEmptySnapshot(w, RowsSeen(w, c)))
  }

  /** Every entry of `u` open now was open before, for the same seat. */
  ghost predicate NoNewEntry(w: World, w': World, u: PlayerId) {
    forall id :: OpenEntry(w', id, u) ==> OpenEntry(w, id, u) && w'.claims[id].seat == w.claims[id].seat
  }

  lemma FinishedStays(w: World, e: Event, u: PlayerId)
    requires IsFinished(w, u)
    ensures IsFinished(Step(w, e), u)
  {
  }

  lemma NoEntryOfTheFinished(w: World, e: Event, u: PlayerId)
    requires IsFinished(w, u)
    ensures NoNewEntry(w, Step(w, e), u)
  {
  }

  /** A row appears by one event only. */
  lemma RowsComeFromEntries(w: World, e: Event, u: PlayerId)
    requires !HasRow(w, u) && HasRow(Step(w, e), u)
    ensures e.CommitRow? && OpenEntry(w, e.claim, u) && SeatFree(w, e.claim)
  {
    if e.CommitRow? && e.claim in w.claims && w.claims[e.claim].stage.Cleared? {
      var c := w.claims[e.claim];
      if !c.stage.alreadySeated && c.seat !in w.rows && !HasRow(w, c.user) {
        RowWrittenRows(w, e.claim);
      }
    } else {
      RowsOnlyShrink(w, e);
    }
  }

  lemma RowsOnlyShrink(w: World, e: Event)
    requires !e.CommitRow?
    ensures forall i :: i in Step(w, e).rows ==> i in w.rows && Step(w, e).rows[i] == w.rows[i]
    ensures Step(w, e).elsewhere == w.elsewhere
  {
  }

  /** Some possible course of events gives `u` a seat row. */
  ghost predicate CanReturn(w: World, u: PlayerId) {
    exists events :: PossibleRun(w, events) && HasRow(Run(w, events), u)
  }

  /** Some possible course of events leaves the entry open and frees its seat; `[]` is one of them. */
  ghost predicate SeatCanBeHad(w: World, id: nat, u: PlayerId) {
    exists events :: PossibleRun(w, events) && SeatFreeAfter(w, events, id, u)
  }

  ghost predicate SeatFreeAfter(w: World, events: seq<Event>, id: nat, u: PlayerId) {
    OpenEntry(Run(w, events), id, u) && SeatFree(Run(w, events), id)
  }

  /** An entry of `u` that passed the status check is under way, and its seat can be had. */
  ghost predicate WayBack(w: World, u: PlayerId) {
    exists id :: OpenEntry(w, id, u) && SeatCanBeHad(w, id, u)
  }

  /** Along any run from a world where `u` is out: still out, with no new entry, or there was a way back. */
  lemma {:induction false} OutOrWayBack(w: World, events: seq<Event>, u: PlayerId)
    requires Out(w, u) && PossibleRun(w, events)
    ensures IsFinished(Run(w, events), u)
    ensures WayBack(w, u) || (!HasRow(Run(w, events), u) && NoNewEntry(w, Run(w, events), u))
  {
    if |events| > 0 {
      var before, e := events[..|events| - 1], events[|events| - 1];
      OutOrWayBack(w, before, u);
      var mid := Run(w, before);
      FinishedStays(mid, e, u);
      NoEntryOfTheFinished(mid, e, u);
      if !WayBack(w, u) && HasRow(Step(mid, e), u) {
        RowsComeFromEntries(mid, e, u);
        assert SeatFreeAfter(w, before, e.claim, u);
        assert OpenEntry(w, e.claim, u) && SeatCanBeHad(w, e.claim, u);
      }
    }
  }

  /** What is left of an entry up to its row; a step that is behind it already changes nothing. */
  function RestOf(id: nat): seq<Event> {
    [ReadSeat(id)] + [ReadTable(id)] + [ReadSnapshot(id)] + [CommitRow(id)]
  }

  lemma RunOfMore(w: World, events: seq<Event>, e: Event)
    ensures Run(w, events + [e]) == Step(Run(w, events), e)
    ensures PossibleRun(w, events) && Possible(Run(w, events), e) ==> PossibleRun(w, events + [e])
  {
    assert (events + [e])[..|events|] == events;
  }

  /** The entry goes on by itself. */
  function Finishing(w: World, id: nat): World {
    CommitStep(ReadSnapshotStep(ReadTableStep(ReadSeatStep(w, id), id), id), id)
  }

  lemma FinishingRun(w: World, events: seq<Event>, id: nat)
    requires PossibleRun(w, events)
    ensures PossibleRun(w, events + RestOf(id)) && Run(w, events + RestOf(id)) == Finishing(Run(w, events), id)
  {
    RunOfMore(w, events, ReadSeat(id));
    RunOfMore(w, events + [ReadSeat(id)], ReadTable(id));
    RunOfMore(w, events + [ReadSeat(id)] + [ReadTable(id)], ReadSnapshot(id));
    RunOfMore(w, events + [ReadSeat(id)] + [ReadTable(id)] + [ReadSnapshot(id)], CommitRow(id));
    assert events + RestOf(id)
        == events + [ReadSeat(id)] + [ReadTable(id)] + [ReadSnapshot(id)] + [CommitRow(id)];
  }

  /** What the three reads make of an entry: it is cleared, unless the snapshot is lost. */
  ghost predicate ReadsDone(w: World, id: nat, r: World)
    requires id in w.claims
  {
    var c := w.claims[id];
    if c.stage.Cleared? || !ShouldBlockEmptySnapshot(w, RowsSeen(w, c))
    then r == MoveOn(w, id, Cleared(false, RowsSeen(w, c)))
    else r == w.(claims := w.claims - {id})
  }

  lemma FromTheSnapshot(w: World, id: nat, u: PlayerId)
    requires OpenEntry(w, id, u) && (w.claims[id].stage.TableRead? || w.claims[id].stage.Cleared?)
    ensures ReadsDone(w, id, ReadSnapshotStep(w, id))
  {
    if w.claims[id].stage.Cleared? {
      assert MoveOn(w, id, w.claims[id].stage) == w;
    }
  }

  /** Where the read of the table led, the entry's reads lead. */
  lemma ReadsDoneAfterTable(w: World, id: nat, r: World)
    requires id in w.claims && w.claims[id].stage == SeatRead(false)
    requires ReadsDone(MoveOn(w, id, TableRead(false, |w.rows|)), id, r)
    ensures ReadsDone(w, id, r)
  {
    var w1 := MoveOn(w, id, TableRead(false, |w.rows|));
    assert w1.claims - {id} == w.claims - {id};
    assert MoveOn(w1, id, Cleared(false, |w.rows|)) == MoveOn(w, id, Cleared(false, |w.rows|));
  }

  lemma FromTheTable(w: World, id: nat, u: PlayerId)
    requires OpenEntry(w, id, u) && !w.claims[id].stage.Checked?
    ensures ReadsDone(w, id, ReadSnapshotStep(ReadTableStep(w, id), id))
  {
    var w1 := ReadTableStep(w, id);
    FromTheSnapshot(w1, id, u);
    if w.claims[id].stage.SeatRead? {
      ReadsDoneAfterTable(w, id, ReadSnapshotStep(w1, id));
    }
  }

  lemma NoSeatRowFound(w: World, id: nat, u: PlayerId)
    requires OpenEntry(w, id, u) && !HasRow(w, u) && w.claims[id].stage.Checked?
    ensures ReadSeatStep(w, id) == MoveOn(w, id, SeatRead(false))
  {
  }

  lemma ReadsDoneLater(w: World, id: nat, r: World)
    requires id in w.claims && w.claims[id].stage.Checked? && ReadsDone(MoveOn(w, id, SeatRead(false)), id, r)
    ensures ReadsDone(w, id, r)
  {
    var w1 := MoveOn(w, id, SeatRead(false));
    assert w1.claims - {id} == w.claims - {id};
    assert MoveOn(w1, id, Cleared(false, |w.rows|)) == MoveOn(w, id, Cleared(false, |w.rows|));
  }

  lemma ReadsClear(w: World, id: nat, u: PlayerId)
    requires OpenEntry(w, id, u) && !HasRow(w, u)
    ensures ReadsDone(w, id, ReadSnapshotStep(ReadTableStep(ReadSeatStep(w, id), id), id))
  {
    var w1 := ReadSeatStep(w, id);
    if w.claims[id].stage.Checked? {
      NoSeatRowFound(w, id, u);
      FromTheTable(w1, id, u);
      ReadsDoneLater(w, id, ReadSnapshotStep(ReadTableStep(w1, id), id));
    } else {
      FromTheTable(w, id, u);
    }
  }

  /**
   * Before anything else happens: an entry of somebody who is out, left to itself, gives that user a row
   * if and only if its seat has none and the snapshot does not hold the entry up.
   */
  lemma EntryAloneRevivesIff(w: World, id: nat, u: PlayerId)
    requires Out(w, u) && OpenEntry(w, id, u)
    ensures HasRow(Finishing(w, id), u) <==> SeatFree(w, id)
    ensures IsFinished(Finishing(w, id), u)
    ensures SeatFree(w, id) ==>
              && Finishing(w, id).rows == w.rows[w.claims[id].seat := u] && Finishing(w, id).table == w.table
              && id in Finishing(w, id).claims
              && Finishing(w, id).claims[id] == w.claims[id].(stage := Committed(RowsSeen(w, w.claims[id])))
  {
    ReadsClear(w, id, u);
    var c, r := w.claims[id], ReadSnapshotStep(ReadTableStep(ReadSeatStep(w, id), id), id);
    if c.stage.Cleared? || !ShouldBlockEmptySnapshot(w, RowsSeen(w, c)) {
      if c.seat !in w.rows {
        RowWrittenRows(r, id);
      }
    }
  }

  /**
   * The way back, exactly. From any world in which `u` is eliminated and has no seat, some course of
   * events gives `u` a row again if and only if an entry of `u` that passed the status check is still
   * under way and its seat can be had.
   */
  lemma ReturnsIff(w: World, u: PlayerId)
    requires Out(w, u)
    ensures CanReturn(w, u) <==> WayBack(w, u)
  {
    if CanReturn(w, u) {
      var events :| PossibleRun(w, events) && HasRow(Run(w, events), u);
      OutOrWayBack(w, events, u);
    }
    if WayBack(w, u) {
      var id :| OpenEntry(w, id, u) && SeatCanBeHad(w, id, u);
      var events :| PossibleRun(w, events) && SeatFreeAfter(w, events, id, u);
      OutOrWayBack(w, events, u);
      if !HasRow(Run(w, events), u) {
        EntryAloneRevivesIff(Run(w, events), id, u);
        FinishingRun(w, events, id);
        assert HasRow(Run(w, events + RestOf(id)), u);
      }
    }
  }

  /**
   * With no entry under way an elimination is final: over every run, in whatever order claims, hands and
   * eliminations come, the user never has a row and no claim of the user ever writes into the snapshot.
   */
  lemma EliminatedStaysOut(w: World, events: seq<Event>, u: PlayerId, id: nat)
    requires Out(w, u) && !RaceOpen(w, u) && PossibleRun(w, events)
    ensures Out(Run(w, events), u)
    ensures var end := Run(w, events);
            id in end.claims && end.claims[id].user == u ==> WriteStep(end, id).table == end.table
  {
    OutOrWayBack(w, events, u);
    assert !WayBack(w, u);
    assert !HasRow(Run(w, events), u);
  }

  /** The entry left to itself up to its seat in the snapshot. */
  function Seating(w: World, id: nat): World {
    WriteStep(Finishing(w, id), id)
  }

  /**
   * Where the row comes, the seat comes with it: unless the snapshot was lost after it was looked at, the
   * eliminated user is written into it with the stack read before the elimination.
   */
  lemma RevivedWithTheOldStack(w: World, id: nat, u: PlayerId)
    requires Out(w, u) && OpenEntry(w, id, u) && SeatFree(w, id)
    requires !ShouldBlockEmptySnapshot(w, RowsSeen(w, w.claims[id]))
    requires var c := w.claims[id];
             var before := if w.table.Some? then w.table.value else EmptyTable();
             c.seat < |before.seats| && (before.seats[c.seat].Taken? ==> before.seats[c.seat].player.id != u)
    ensures var c, end := w.claims[id], Seating(w, id);
            var before := if w.table.Some? then w.table.value else EmptyTable();
            && IsFinished(end, u) && c.seat in end.rows && end.rows[c.seat] == u
            && end.table == Some(before.(seats := before.seats[c.seat := Taken(T.Newcomer(before, u, c.stack))]))
  {
    EntryAloneRevivesIff(w, id, u);
  }

  /** What the unique keys guarantee, whatever else happens. */
  ghost predicate RowsSound(w: World) {
    && RowsUnique(w)
    && forall id :: id in w.claims ==> w.claims[id].seat < SEAT_COUNT && w.claims[id].user in w.status
  }

  lemma ClaimsKeepRows(w: World, w': World)
    requires RowsSound(w) && w'.elsewhere == w.elsewhere && w'.status.Keys == w.status.Keys
    requires forall i :: i in w'.rows ==> i in w.rows && w'.rows[i] == w.rows[i]
    requires forall id :: id in w'.claims ==>
               w'.claims[id].seat < SEAT_COUNT && w'.claims[id].user in w.status
    ensures RowsSound(w')
  {
  }

  /** The claims of a step: those there were, and an entry that begins. */
  lemma ClaimsOfStep(w: World, e: Event, id: nat)
    requires id in Step(w, e).claims
    ensures var c := Step(w, e).claims[id];
            || (id in w.claims && c.user == w.claims[id].user && c.seat == w.claims[id].seat)
            || (e.Enter? && e.user in w.status && c == Claim(e.user, e.seat, e.stack, Checked))
  {
  }

  lemma StepKeepsRows(w: World, e: Event)
    requires RowsSound(w) && Possible(w, e)
    ensures RowsSound(Step(w, e))
  {
    if e.CommitRow? {
      CommitKeepsRows(w, e.claim);
    } else {
      RowsOnlyShrink(w, e);
      StatusKeys(w, e);
      forall id | id in Step(w, e).claims
        ensures Step(w, e).claims[id].seat < SEAT_COUNT && Step(w, e).claims[id].user in w.status
      {
        ClaimsOfStep(w, e, id);
      }
      ClaimsKeepRows(w, Step(w, e));
    }
  }

  lemma StatusKeys(w: World, e: Event)
    ensures Step(w, e).status.Keys == w.status.Keys
  {
  }

  lemma CommitKeepsRows(w: World, id: nat)
    requires RowsSound(w)
    ensures RowsSound(CommitStep(w, id))
  {
  }

  /** Over every run a user has at most one row in the tournament, and a seat at most one user. */
  lemma {:induction false} RunKeepsRows(w: World, events: seq<Event>)
    requires RowsSound(w) && PossibleRun(w, events)
    ensures RowsSound(Run(w, events))
  {
    if |events| > 0 {
      RunKeepsRows(w, events[..|events| - 1]);
      StepKeepsRows(Run(w, events[..|events| - 1]), events[|events| - 1]);
    }
  }
}

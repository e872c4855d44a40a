/** What each moment of an entry admits and refuses, and what eliminations and kicks do to rows and participations. */
module ClaimSteps {
  import opened TableTypes
  import opened HandStart
  import opened SeatClaims
  import L = Ledger
  import T = TableRuns

  /** An entry begins exactly for a participation that is there and not finished, in an open tournament. */
  lemma EntryBeginsIff(w: World, id: nat, u: PlayerId, seat: nat, stack: int)
    requires id !in w.claims
    ensures var r := Step(w, Enter(id, u, seat, stack));
            && (id in r.claims <==>
                  u in w.status && !w.closed && w.status[u] != L.ELIMINATED && w.status[u] != L.AWARDED)
            && (id in r.claims ==> r.claims == w.claims[id := Claim(u, seat, stack, Checked)])
            && r.rows == w.rows && r.status == w.status && r.table == w.table
            && (id !in r.claims ==> r == w)
  {
  }

  /** It goes on past its seat row exactly if the user has none, or the one of this very seat. */
  lemma SeatRowPassedIff(w: World, id: nat)
    requires id in w.claims && w.claims[id].stage.Checked?
    ensures var c, r := w.claims[id], Step(w, ReadSeat(id));
            var here := c.seat in w.rows && w.rows[c.seat] == c.user;
            var anywhere := (exists i :: i in w.rows && w.rows[i] == c.user) || c.user in w.elsewhere;
            && (id in r.claims <==> here || !anywhere)
            && (id in r.claims ==> r.claims[id] == c.(stage := SeatRead(here)))
            && r.rows == w.rows && r.status == w.status && r.table == w.table
  {
    var c := w.claims[id];
    assert c.user in w.rows.Values <==> exists i :: i in w.rows && w.rows[i] == c.user;
  }

  /** The seat rows of the table are counted as they are at that moment. */
  lemma RowsAreCounted(w: World, id: nat)
    requires id in w.claims && w.claims[id].stage.SeatRead?
    ensures var c, r := w.claims[id], Step(w, ReadTable(id));
            && r == w.(claims := r.claims)
            && r.claims == w.claims[id := c.(stage := TableRead(c.stage.alreadySeated, |w.rows|))]
  {
  }

  /** It is held up exactly where the table has seat rows and no snapshot while the tournament is open. */
  lemma SnapshotPassedIff(w: World, id: nat)
    requires id in w.claims && w.claims[id].stage.TableRead?
    ensures var c, r := w.claims[id], Step(w, ReadSnapshot(id));
            && (id in r.claims <==> w.table.Some? || w.closed || c.stage.rowsThen == 0)
            && (id in r.claims ==> r.claims[id] == c.(stage := Cleared(c.stage.alreadySeated, c.stage.rowsThen)))
            && r.rows == w.rows && r.status == w.status && r.table == w.table
  {
  }

  /**
   * The transaction writes a row exactly if seat and user are both without one, and then the participation
   * is playing unless it has finished meanwhile; a re-entry writes nothing, and a conflict ends the entry.
   */
  lemma RowWrittenIff(w: World, id: nat)
    requires id in w.claims && w.claims[id].stage.Cleared?
    ensures var c, r := w.claims[id], Step(w, CommitRow(id));
            var taken := c.seat in w.rows;
            var anywhere := (exists i :: i in w.rows && w.rows[i] == c.user) || c.user in w.elsewhere;
            && (id in r.claims <==> c.stage.alreadySeated || (!taken && !anywhere))
            && (c.stage.alreadySeated || taken || anywhere ==> r.rows == w.rows && r.status == w.status)
            && (!c.stage.alreadySeated && !taken && !anywhere ==>
                  && r.rows == w.rows[c.seat := c.user]
                  && (c.user in w.status ==>
                        r.status == w.status[c.user :=
                          if w.status[c.user] == L.ELIMINATED || w.status[c.user] == L.AWARDED
                          then w.status[c.user] else L.PLAYING]))
            && r.table == w.table
  {
    var c := w.claims[id];
    assert c.user in w.rows.Values <==> exists i :: i in w.rows && w.rows[i] == c.user;
  }

  /**
   * The locked half writes the seat exactly if its row is the user's, the snapshot is not lost, and somebody
   * else or nobody sits there; the newcomer has the stack that was read, and is out of a hand that is on.
   */
  lemma SeatWrittenIff(w: World, id: nat)
    requires id in w.claims && w.claims[id].stage.Committed? && w.table.Some?
    requires w.claims[id].seat < |w.table.value.seats|
    ensures var c, s, r := w.claims[id], w.table.value, Step(w, WriteSeat(id));
            var owned := c.seat in w.rows && w.rows[c.seat] == c.user;
            var there := s.seats[c.seat].Taken? && s.seats[c.seat].player.id == c.user;
            && id !in r.claims && r.rows == w.rows && r.status == w.status
            && r.table == (if owned && !there
                           then Some(s.(seats := s.seats[c.seat :=
                                  Taken(TablePlayer(c.user, c.stack, 0, s.phase != WAITING, false, false, 0))]))
                           else w.table)
  {
  }

  /** Without a snapshot the first seat makes one, of nine seats, unless the snapshot has been lost. */
  lemma FirstSeatMakesTheTable(w: World, id: nat)
    requires id in w.claims && w.claims[id].stage.Committed? && w.table.None? && w.claims[id].seat < SEAT_COUNT
    ensures var c, r := w.claims[id], Step(w, WriteSeat(id));
            var owned := c.seat in w.rows && w.rows[c.seat] == c.user;
            && id !in r.claims && r.rows == w.rows && r.status == w.status
            && (r.table.Some? <==> owned && (w.closed || c.stage.rowsThen == 0))
            && (r.table.Some? ==>
                  var t := r.table.value;
                  && |t.seats| == 9 && t.phase == WAITING && t.pot == 0 && t.turn == -1
                  && t.seats[c.seat] == Taken(TablePlayer(c.user, c.stack, 0, false, false, false, 0))
                  && forall k :: 0 <= k < 9 && k != c.seat ==> t.seats[k].Empty?)
  {
  }

  /** An elimination takes out exactly those seated without chips after a hand: rows and participations alike. */
  lemma EliminationIs(w: World, u: PlayerId, i: nat)
    requires w.table.Some? && w.table.value.phase == HAND_END
    ensures var r := Step(w, Bust);
            var broke := exists k :: 0 <= k < |w.table.value.seats| && w.table.value.seats[k].Taken?
                               && w.table.value.seats[k].player.id == u && w.table.value.seats[k].player.stack <= 0;
            && (broke ==> (i in w.rows && w.rows[i] == u ==> i !in r.rows))
            && (!broke ==> (i in w.rows && w.rows[i] == u ==> i in r.rows && r.rows[i] == u))
            && (i in r.rows ==> i in w.rows && r.rows[i] == w.rows[i])
            && (u in w.status <==> u in r.status)
            && (u in w.status ==>
                  r.status[u] == if broke && w.status[u] != L.AWARDED then L.ELIMINATED else w.status[u])
            && r.table == w.table && r.claims == w.claims
  {
    var s := w.table.value;
    assert u in BrokeUsers(s) <==> exists k :: 0 <= k < |s.seats| && s.seats[k].Taken?
                                        && s.seats[k].player.id == u && s.seats[k].player.stack <= 0;
  }

  /**
   * The end of a hand is an elimination and the next hand's table: whoever has chips stays in the seat with
   * them and no marks, and every other seat is empty.
   */
  lemma HandFinishes(w: World, i: nat)
    requires w.table.Some? && HandEndInv(w.table.value) && i < |w.table.value.seats|
    ensures var s, r := w.table.value, Step(w, FinishHand);
            && r.rows == Step(w, Bust).rows && r.status == Step(w, Bust).status && r.claims == w.claims
            && r.table.Some? && r.table.value.phase == GamePhase.WAITING && |r.table.value.seats| == |s.seats|
            && r.table.value.seats[i] ==
               if StackOf(s.seats[i]) > 0
               then Taken(TablePlayer(s.seats[i].player.id, s.seats[i].player.stack, 0, false, false, false, 0))
               else Empty
  {
  }

  /** A kick finishes the participation it names and leaves row, seat and everybody else alone. */
  lemma KickIs(w: World, u: PlayerId)
    requires u in w.status
    ensures var r := Step(w, Kick(u));
            && r == w.(status := r.status) && r.status.Keys == w.status.Keys && r.status[u] == L.ELIMINATED
            && forall v :: v in w.status && v != u ==> r.status[v] == w.status[v]
  {
  }
}

/** The place and the prize that end up in a participation's row, and who can ever be first. */
module FinalPlaces {
  import opened Sums
  import opened TableTypes
  import opened Prizes
  import opened BustedRanks
  import opened Ledger
  import opened LedgerRuns

  /**
   * Those of the batch who started the hand with more than `p`, those who started with the same, and those
   * of the latter who sit on a lower seat.
   */
  function MoreThan(busted: seq<BustedPlayer>, p: BustedPlayer): set<BustedPlayer> {
    set q | q in busted && q.handStartStack > p.handStartStack
  }

  function LevelWith(busted: seq<BustedPlayer>, p: BustedPlayer): set<BustedPlayer> {
    set q | q in busted && q.handStartStack == p.handStartStack
  }

  function OnLowerSeat(busted: seq<BustedPlayer>, p: BustedPlayer): set<BustedPlayer> {
    set q | q in busted && q.handStartStack == p.handStartStack && q.seatIndex < p.seatIndex
  }

  lemma {:induction false} SizeOfDistinct(ps: seq<BustedPlayer>)
    requires NoDuplicates(ps)
    ensures |set p | p in ps| == |ps|
  {
    if |ps| > 0 {
      var n := |ps| - 1;
      SizeOfDistinct(ps[..n]);
      assert ps == ps[..n] + [ps[n]];
      assert (set p | p in ps) == (set p | p in ps[..n]) + {ps[n]};
      assert ps[n] !in ps[..n];
    }
  }

  /** The slice of a sequence without repetitions has as many elements as it is long. */
  lemma SizeOfSlice(ps: seq<BustedPlayer>, lo: nat, hi: nat)
    requires NoDuplicates(ps) && lo <= hi <= |ps|
    ensures |set p | p in ps[lo..hi]| == hi - lo
  {
    SizeOfDistinct(ps[lo..hi]);
  }

  lemma GroupIsLevel(ordered: seq<BustedPlayer>, start: nat, end: nat, k: nat)
    requires NoDuplicates(ordered) && GroupIs(ordered, start, end) && start <= k < end && AllLarger(ordered, start)
    ensures |MoreThan(ordered, ordered[k])| == start && |LevelWith(ordered, ordered[k])| == end - start
  {
    var p := ordered[k];
    assert MoreThan(ordered, p) == (set q | q in ordered[0..start]) by {
      forall q | q in MoreThan(ordered, p) ensures q in ordered[0..start] {
        var j :| 0 <= j < |ordered| && ordered[j] == q;
        assert ordered[0..start][j] == q;
      }
    }
    assert LevelWith(ordered, p) == (set q | q in ordered[start..end]) by {
      forall q | q in LevelWith(ordered, p) ensures q in ordered[start..end] {
        var j :| 0 <= j < |ordered| && ordered[j] == q;
        assert ordered[start..end][j - start] == q;
      }
    }
    SizeOfSlice(ordered, 0, start);
    SizeOfSlice(ordered, start, end);
  }

  lemma SeatsInGroup(ordered: seq<BustedPlayer>, start: nat, end: nat, k: nat)
    requires Ordered(ordered) && DistinctSeats(ordered) && NoDuplicates(ordered)
    requires GroupIs(ordered, start, end) && start <= k < end && AllLarger(ordered, start)
    ensures |OnLowerSeat(ordered, ordered[k])| == k - start
  {
    var p := ordered[k];
    assert OnLowerSeat(ordered, p) == (set q | q in ordered[start..k]) by {
      forall q | q in OnLowerSeat(ordered, p) ensures q in ordered[start..k] {
        var j :| 0 <= j < |ordered| && ordered[j] == q;
        assert k < j ==> Before(p, q);
        assert ordered[start..k][j - start] == q;
      }
      forall q | q in ordered[start..k] ensures q in OnLowerSeat(ordered, p) {
        var j :| start <= j < k && ordered[j] == q;
        assert Before(q, p);
      }
    }
    SizeOfSlice(ordered, start, k);
  }

  /**
   * A place and a prize as the rules of a simultaneous bust give them: the first place of the batch plus the
   * number who started the hand with more, and an even share of the places that the equal stacks hold
   * together, an odd unit going to the lower seats.
   */
  ghost predicate FairlyRanked(busted: seq<BustedPlayer>, p: BustedPlayer, first: int, prize: int -> int, a: Award) {
    var n := |LevelWith(busted, p)|;
    var total := PrizeRange(prize, a.place, a.place + n);
    && a.userId == p.userId
    && a.place == first + |MoreThan(busted, p)|
    && n > 0
    && total / n <= a.amount <= total / n + 1
    && (DistinctSeats(busted) ==> a.amount == total / n + if |OnLowerSeat(busted, p)| < total % n then 1 else 0)
  }

  lemma RankedInOrder(ordered: seq<BustedPlayer>, first: int, prize: int -> int, k: nat)
    requires Ordered(ordered) && NoDuplicates(ordered) && k < |ordered|
    ensures FairlyRanked(ordered, ordered[k], first, prize, AwardsFrom(ordered, first, prize, 0)[k])
  {
    var start, end := AwardGroupOf(ordered, first, prize, 0, k);
    GroupIsLevel(ordered, start, end, k);
    if DistinctSeats(ordered) {
      SeatsInGroup(ordered, start, end, k);
    }
  }

  lemma SameElements(ps: seq<BustedPlayer>, qs: seq<BustedPlayer>, p: BustedPlayer)
    requires multiset(ps) == multiset(qs)
    ensures MoreThan(ps, p) == MoreThan(qs, p) && LevelWith(ps, p) == LevelWith(qs, p)
    ensures OnLowerSeat(ps, p) == OnLowerSeat(qs, p)
  {
    assert forall q :: (q in ps <==> q in multiset(ps)) && (q in qs <==> q in multiset(qs));
  }

  lemma RankedInAnyOrder(busted: seq<BustedPlayer>, ordered: seq<BustedPlayer>, p: BustedPlayer, first: int,
                         prize: int -> int, a: Award)
    requires multiset(busted) == multiset(ordered) && FairlyRanked(ordered, p, first, prize, a)
    ensures FairlyRanked(busted, p, first, prize, a)
  {
    SameElements(busted, ordered, p);
    if DistinctSeats(busted) {
      DistinctSeatsOfPermutation(busted, ordered);
    }
  }

  lemma OrderedPosition(busted: seq<BustedPlayer>, p: BustedPlayer) returns (k: nat)
    requires DistinctUsers(busted) && p in busted
    ensures var ordered := OrderBusted(busted);
            && Ordered(ordered) && NoDuplicates(ordered) && multiset(ordered) == multiset(busted)
            && k < |ordered| && ordered[k] == p
  {
    var ordered := OrderBusted(busted);
    OrderBustedSorts(busted);
    DistinctUsersOfPermutation(busted, ordered);
    assert p in multiset(ordered);
    k :| 0 <= k < |ordered| && ordered[k] == p;
  }

  /** Of a batch without repetitions every player is awarded a fair place and prize. */
  lemma BatchIsRankedFairly(busted: seq<BustedPlayer>, lastPlace: int, prize: int -> int, p: BustedPlayer)
    returns (k: nat)
    requires DistinctUsers(busted) && p in busted
    ensures k < |SplitBustedRanks(busted, lastPlace, prize)|
    ensures FairlyRanked(busted, p, lastPlace - |busted| + 1, prize, SplitBustedRanks(busted, lastPlace, prize)[k])
  {
    k := OrderedPosition(busted, p);
    var ordered, first := OrderBusted(busted), lastPlace - |busted| + 1;
    RankedInOrder(ordered, first, prize, k);
    RankedInAnyOrder(busted, ordered, p, first, prize, AwardsFrom(ordered, first, prize, 0)[k]);
  }

  /** What is recorded of a player who busts: a fair place, counted from those who remain, and a fair prize. */
  ghost predicate RecordedFairly(busted: seq<BustedPlayer>, p: BustedPlayer, remaining: int, prize: int -> int,
                                 row: Participation)
  {
    && row.finalPlace.Some?
    && FairlyRanked(busted, p, remaining + 1, prize, Award(p.userId, row.finalPlace.value, row.prizeAmount))
    && row.status == (if row.prizeAmount > 0 then AWARDED else ELIMINATED)
  }

  lemma PendingRecorded(db: TournamentDb, busted: seq<BustedPlayer>, prize: int -> int, p: BustedPlayer)
    requires !db.closed && DistinctUsers(busted) && p in busted && (forall q :: 0 <= prize(q))
    requires forall q :: q in busted ==> Pending(db, q.userId)
    ensures var db' := EliminatePending(db, busted, prize);
            && db'.activePlayers == db.activePlayers - |busted|
            && p.userId in db'.rows && RecordedFairly(busted, p, db'.activePlayers, prize, db'.rows[p.userId])
  {
    var awards := SplitBustedRanks(busted, db.activePlayers, prize);
    var cut := db.(activePlayers := db.activePlayers - |busted|);
    EliminatePendingIs(db, busted, prize, awards);
    SplitIsFair(busted, db.activePlayers, prize);
    AwardsArePending(cut, busted, awards);
    AwardAllIsExact(cut, awards);
    var k := BatchIsRankedFairly(busted, db.activePlayers, prize, p);
    assert Records(AwardAll(cut, awards).rows[awards[k].userId], awards[k]);
  }

  /**
   * The rows after an elimination. Every player of the batch who was still in has the place that follows
   * from the players that remain and from who started the hand with more, and an even share of the prizes of
   * the places that the equal stacks hold; everybody else's row is as it was.
   */
  lemma EliminationIsRecorded(db: TournamentDb, batch: seq<BustedPlayer>, prize: int -> int, u: PlayerId)
    requires !db.closed && DistinctUsers(batch) && (forall q :: 0 <= prize(q)) && u in db.rows
    ensures var db' := EliminateTx(db, batch, prize);
            && u in db'.rows
            && (forall p :: p in batch && p.userId == u && Pending(db, u) ==>
                  RecordedFairly(PendingOf(db, batch), p, db'.activePlayers, prize, db'.rows[u]))
            && ((forall p :: p in batch ==> p.userId != u) || !Pending(db, u) ==> db'.rows[u] == db.rows[u])
  {
    PendingOfIs(db, batch);
    var busted := PendingOf(db, batch);
    forall p | p in batch && p.userId == u && Pending(db, u)
      ensures u in EliminateTx(db, batch, prize).rows
      ensures RecordedFairly(busted, p, EliminateTx(db, batch, prize).activePlayers, prize,
                             EliminateTx(db, batch, prize).rows[u])
    {
      PendingRecorded(db, busted, prize, p);
    }
    OthersKeepTheirRows(db, busted, prize, u);
  }

  lemma OthersKeepTheirRows(db: TournamentDb, busted: seq<BustedPlayer>, prize: int -> int, u: PlayerId)
    requires !db.closed && DistinctUsers(busted) && (forall q :: 0 <= prize(q)) && u in db.rows
    requires forall q :: q in busted ==> Pending(db, q.userId)
    ensures u in EliminatePending(db, busted, prize).rows
    ensures (forall q :: q in busted ==> q.userId != u) ==> EliminatePending(db, busted, prize).rows[u] == db.rows[u]
  {
    if |busted| > 0 {
      var awards := SplitBustedRanks(busted, db.activePlayers, prize);
      var cut := db.(activePlayers := db.activePlayers - |busted|);
      EliminatePendingIs(db, busted, prize, awards);
      SplitIsFair(busted, db.activePlayers, prize);
      AwardsArePending(cut, busted, awards);
      AwardAllIsExact(cut, awards);
    }
  }

  /** The champion's row. */
  lemma ChampionIsRecorded(db: TournamentDb, winner: PlayerId, prize: int -> int)
    requires Pending(db, winner) && 0 <= prize(1)
    ensures var db' := CrownTx(db, winner, prize);
            && winner in db'.rows && db'.rows[winner].finalPlace == Some(1)
            && db'.rows[winner].prizeAmount == prize(1)
            && db'.rows[winner].status == (if prize(1) > 0 then AWARDED else ELIMINATED)
            && PointsOf(db'.points, winner) == PointsOf(db.points, winner) + prize(1)
            && db'.activePlayers == db.activePlayers
            && forall u :: u in db.rows && u != winner ==> u in db'.rows && db'.rows[u] == db.rows[u]
  {
  }

  /** A kick ends a participation without a place or a prize; a seat starts or resumes one. */
  lemma KickAndSeatRecorded(db: TournamentDb, u: PlayerId)
    requires Pending(db, u) && !db.closed
    ensures var kicked := KickTx(db, u);
            && kicked.rows == db.rows[u := db.rows[u].(status := ELIMINATED)]
            && kicked.activePlayers == db.activePlayers - 1 && kicked.points == db.points
            && kicked.payments == db.payments
    ensures var seated := SeatTx(db, u);
            && seated.rows == db.rows[u := db.rows[u].(status := PLAYING)]
            && seated.activePlayers == db.activePlayers + (if db.rows[u].status == PlayerStatus.WAITING then 1 else 0)
            && seated.points == db.points && seated.payments == db.payments
  {
  }

  predicate IsFirst(db: TournamentDb, u: PlayerId) {
    u in db.rows && db.rows[u].finalPlace == Some(1)
  }

  /** The event makes `u` first: the crowning of `u`, or a batch with `u` in it that leaves nobody. */
  ghost predicate MakesFirst(p: Progress, e: Event, prize: int -> int, u: PlayerId) {
    && Pending(p.db, u)
    && (|| e == Crown(u)
        || (e.Eliminate? && (exists q :: q in e.batch && q.userId == u) && Step(p, e, prize).db.activePlayers == 0))
  }

  lemma RowOutsideBatch(db: TournamentDb, batch: seq<BustedPlayer>, prize: int -> int, u: PlayerId)
    requires DistinctUsers(batch) && (forall q :: 0 <= prize(q)) && u in db.rows
    requires db.closed || !Pending(db, u) || forall q :: q in batch ==> q.userId != u
    ensures u in EliminateTx(db, batch, prize).rows && EliminateTx(db, batch, prize).rows[u] == db.rows[u]
  {
    if !db.closed {
      EliminationIsRecorded(db, batch, prize, u);
    }
  }

  lemma EliminationMakesFirst(p: Progress, batch: seq<BustedPlayer>, prize: int -> int, u: PlayerId)
    requires DistinctUsers(batch) && (forall q :: 0 <= prize(q)) && u in p.db.rows && !IsFirst(p.db, u)
    requires 0 <= EliminateTx(p.db, batch, prize).activePlayers
    ensures IsFirst(EliminateTx(p.db, batch, prize), u) ==> MakesFirst(p, Eliminate(batch), prize, u)
  {
    if !p.db.closed && Pending(p.db, u) && exists q :: q in batch && q.userId == u {
      var q :| q in batch && q.userId == u;
      EliminationIsRecorded(p.db, batch, prize, u);
    } else {
      RowOutsideBatch(p.db, batch, prize, u);
    }
  }

  lemma StepMakesFirst(p: Progress, e: Event, before: map<PlayerId, int>, prize: int -> int, pool: int, places: nat,
                       u: PlayerId)
    requires LedgerInv(p, before, prize, pool) && FixedPrizes(prize, pool, places) && Possible(p, e, places)
    requires !IsFirst(p.db, u) && IsFirst(Step(p, e, prize).db, u) && u in p.db.rows
    ensures MakesFirst(p, e, prize, u)
  {
    StepKeepsLedger(p, e, before, prize, pool, places);
    match e {
      case Eliminate(batch) => EliminationMakesFirst(p, batch, prize, u);
      case Crown(winner) =>
      case ReadWinner(_) =>
      case Kick(_) =>
      case Claim(_) =>
    }
  }

  lemma RowsStay(p: Progress, e: Event, before: map<PlayerId, int>, prize: int -> int, pool: int, places: nat)
    requires LedgerInv(p, before, prize, pool) && FixedPrizes(prize, pool, places) && Possible(p, e, places)
    ensures Step(p, e, prize).db.rows.Keys == p.db.rows.Keys
  {
    match e {
      case Eliminate(batch) => EliminateClaims(p.db, batch, prize, before);
      case Crown(winner) =>
      case ReadWinner(_) =>
      case Kick(_) =>
      case Claim(_) =>
    }
  }

  lemma {:induction false} RunKeepsRows(db: TournamentDb, events: seq<Event>, prize: int -> int, pool: int, places: nat)
    requires InPlay(db, places) && FixedPrizes(prize, pool, places)
    requires PossibleRun(Progress(db, {}), events, prize, places)
    ensures Run(Progress(db, {}), events, prize).db.rows.Keys == db.rows.Keys
  {
    if |events| > 0 {
      var front := events[..|events| - 1];
      RunKeepsRows(db, front, prize, pool, places);
      RunKeepsLedger(db, front, prize, pool, places);
      RowsStay(Run(Progress(db, {}), front, prize), events[|events| - 1], db.points, prize, pool, places);
    }
  }

  /**
   * Who is ever first. Over any run from a field in which nobody has been placed yet: whoever has place 1
   * in the end was crowned, or was still in when a batch took everybody who was left.
   */
  lemma {:induction false} OnlyTheLastAreFirst(db: TournamentDb, events: seq<Event>, prize: int -> int, pool: int,
                                               places: nat, u: PlayerId)
    requires InPlay(db, places) && FixedPrizes(prize, pool, places)
    requires forall v :: v in db.rows ==> db.rows[v].finalPlace.None?
    requires PossibleRun(Progress(db, {}), events, prize, places)
    requires IsFirst(Run(Progress(db, {}), events, prize).db, u)
    ensures exists k :: 0 <= k < |events| && MakesFirst(Run(Progress(db, {}), events[..k], prize), events[k], prize, u)
  {
    if |events| > 0 {
      var front := events[..|events| - 1];
      var mid := Run(Progress(db, {}), front, prize);
      if IsFirst(mid.db, u) {
        OnlyTheLastAreFirst(db, front, prize, pool, places, u);
        var k :| 0 <= k < |front| && MakesFirst(Run(Progress(db, {}), front[..k], prize), front[k], prize, u);
        assert events[..k] == front[..k] && events[k] == front[k];
      } else {
        RunKeepsLedger(db, front, prize, pool, places);
        RunKeepsRows(db, front, prize, pool, places);
        RunKeepsRows(db, events, prize, pool, places);
        StepMakesFirst(mid, events[|events| - 1], db.points, prize, pool, places, u);
      }
    }
  }
}

/** The whole tournament: every run of eliminations, kicks, seat claims and winner awards pays out the pool. */
module LedgerRuns {
  import opened Sums
  import opened TableTypes
  import opened Prizes
  import opened BustedRanks
  import opened Ledger

  /** Prizes that are fixed for the rest of the tournament: `places` of them are paid and they add up to the pool. */
  ghost predicate FixedPrizes(prize: int -> int, pool: int, places: nat) {
    && 1 <= places
    && (forall p :: 0 <= prize(p))
    && (forall p :: p < 1 || p > places ==> prize(p) == 0)
    && PrizeRange(prize, 1, places + 1) == pool
  }

  /** A stored payout list gives such prizes. */
  lemma StoredPrizesAreFixed(pool: int, payouts: seq<PrizePayout>)
    requires ValidPayouts(payouts) && 0 <= pool
    ensures FixedPrizes(PrizeTable(pool, payouts), pool, |payouts|)
  {
    forall p
      ensures 0 <= PrizeTable(pool, payouts)(p) && (p < 1 || p > |payouts| ==> PrizeTable(pool, payouts)(p) == 0)
    {
      PrizesNonNegative(pool, payouts, p);
      PrizeOfPlace(pool, payouts, p);
    }
    PrizesAddUp(pool, payouts, |payouts|);
  }

  lemma {:induction false} UnpaidPlaces(prize: int -> int, pool: int, places: nat, n: nat)
    requires FixedPrizes(prize, pool, places) && places <= n
    ensures PrizeRange(prize, 1, n + 1) == pool
    decreases n
  {
    if places < n {
      UnpaidPlaces(prize, pool, places, n - 1);
    }
  }

  /** `winners` are the users `tournamentFinished` has read outside its transaction and not yet awarded. */
  datatype Progress = Progress(db: TournamentDb, winners: set<PlayerId>)

  datatype Event =
    | Eliminate(batch: seq<BustedPlayer>)
    | ReadWinner(user: PlayerId)
    | Crown(winner: PlayerId)
    | Kick(target: PlayerId)
    | Claim(claimant: PlayerId)

  function Step(p: Progress, e: Event, prize: int -> int): Progress {
    match e
    case Eliminate(batch) => p.(db := EliminateTx(p.db, batch, prize))
    case ReadWinner(user) => p.(winners := p.winners + {user})
    case Crown(winner) => p.(db := CrownTx(p.db, winner, prize))
    case Kick(target) => p.(db := KickTx(p.db, target))
    case Claim(claimant) => p.(db := SeatTx(p.db, claimant))
  }

  /** Nobody in the batch is a no-show: they were dealt a hand. */
  ghost predicate WereSeated(db: TournamentDb, batch: seq<BustedPlayer>) {
    forall q :: q in batch && q.userId in db.rows ==> db.rows[q.userId].status != PlayerStatus.WAITING
  }

  /**
   * When an event can happen. An elimination may arrive any number of times, in any order, for any
   * users; the winner is read once at most one player remains. The kick gate holds when the kick
   * commits, and a no-show takes a first seat only while more than one and at least `places` play.
   */
  ghost predicate Possible(p: Progress, e: Event, places: nat) {
    match e
    case Eliminate(batch) => DistinctUsers(batch) && WereSeated(p.db, batch)
    case ReadWinner(user) => p.db.activePlayers <= 1 && user in LiveUsers(p.db)
    case Crown(winner) => winner in p.winners
    case Kick(target) =>
      places < p.db.activePlayers && target in p.db.rows && p.db.rows[target].status != PlayerStatus.WAITING
    case Claim(claimant) =>
      claimant in p.db.rows && p.db.rows[claimant].status == PlayerStatus.WAITING ==>
        Max(places, 2) <= p.db.activePlayers
  }

  /** What is still to be paid is exactly what the places of the players still in are worth. */
  ghost predicate PoolSplit(db: TournamentDb, prize: int -> int, pool: int) {
    TotalPaid(db.payments) + PrizeRange(prize, 1, |LiveUsers(db)| + 1) == pool
  }

  /** The counter counts the live participations, except that the champion is not counted out. */
  ghost predicate CounterRight(db: TournamentDb) {
    db.activePlayers == |LiveUsers(db)| || (LiveUsers(db) == {} && db.activePlayers == 1)
  }

  ghost predicate WinnersRight(p: Progress) {
    forall u :: u in p.winners ==>
      u in p.db.rows && LiveUsers(p.db) <= {u} && (u in LiveUsers(p.db) || Finished(p.db.rows[u].status))
  }

  ghost predicate LedgerInv(p: Progress, before: map<PlayerId, int>, prize: int -> int, pool: int) {
    && Books(p.db, before)
    && PoolSplit(p.db, prize, pool)
    && CounterRight(p.db)
    && WinnersRight(p)
  }

  lemma AwardsLeave(db: TournamentDb, db': TournamentDb, awards: seq<Award>)
    requires AwardedExactly(db, db', awards)
    ensures LiveUsers(db') == LiveUsers(db) - AwardedUsers(awards)
  {
    forall u | u in AwardedUsers(awards) ensures u !in LiveUsers(db') {
      FinishedByAward(db, db', awards, u);
    }
  }

  lemma SubsetCount<T>(a: set<T>, b: set<T>)
    requires a <= b
    ensures |b - a| == |b| - |a|
  {
    assert b == a + (b - a);
  }

  /** The players of a batch that are really finished by it are live ones. */
  lemma PendingAreLive(db: TournamentDb, batch: seq<BustedPlayer>)
    requires WereSeated(db, batch)
    ensures UsersOf(PendingOf(db, batch)) <= LiveUsers(db)
  {
    PendingOfIs(db, batch);
  }

  /** The places a batch takes lie directly below the players that remain, and it is paid what they are worth. */
  ghost predicate ClaimsInterval(db: TournamentDb, db': TournamentDb, busted: seq<BustedPlayer>, prize: int -> int) {
    && db'.rows.Keys == db.rows.Keys && db'.closed == db.closed
    && db'.activePlayers == db.activePlayers - |busted|
    && LiveUsers(db') == LiveUsers(db) - UsersOf(busted)
    && TotalPaid(db'.payments) ==
          TotalPaid(db.payments) + PrizeRange(prize, db'.activePlayers + 1, db.activePlayers + 1)
    && (forall u :: u in UsersOf(busted) ==> u in db'.rows && Finished(db'.rows[u].status))
    && (forall u :: u in db.rows && u !in UsersOf(busted) ==> u in db'.rows && db'.rows[u] == db.rows[u])
  }

  lemma FinishedByAward(db: TournamentDb, db': TournamentDb, awards: seq<Award>, u: PlayerId)
    requires AwardedExactly(db, db', awards) && u in AwardedUsers(awards)
    ensures u in db'.rows && Finished(db'.rows[u].status)
  {
    var k :| 0 <= k < |awards| && awards[k].userId == u;
    assert Records(db'.rows[u], awards[k]);
  }

  lemma AwardsArePending(db: TournamentDb, busted: seq<BustedPlayer>, awards: seq<Award>)
    requires AwardedUsers(awards) == UsersOf(busted)
    requires forall q :: q in busted ==> Pending(db, q.userId)
    requires forall k :: 0 <= k < |awards| ==> 0 <= awards[k].amount
    ensures AllPending(db, awards)
  {
    forall k | 0 <= k < |awards| ensures Pending(db, awards[k].userId) {
      assert awards[k] in awards;
      assert awards[k].userId in AwardedUsers(awards);
    }
  }

  lemma ClaimedByAwards(db: TournamentDb, cut: TournamentDb, db': TournamentDb, busted: seq<BustedPlayer>,
                        awards: seq<Award>, prize: int -> int)
    requires cut == db.(activePlayers := db.activePlayers - |busted|)
    requires FairAwards(awards, busted, db.activePlayers, prize) && AwardedExactly(cut, db', awards)
    ensures ClaimsInterval(db, db', busted, prize)
  {
    AwardsLeave(cut, db', awards);
    assert LiveUsers(cut) == LiveUsers(db);
    forall u | u in UsersOf(busted) ensures u in db'.rows && Finished(db'.rows[u].status) {
      FinishedByAward(cut, db', awards, u);
    }
  }

  lemma CutKeepsBooks(db: TournamentDb, active: int, before: map<PlayerId, int>)
    requires Books(db, before)
    ensures Books(db.(activePlayers := active), before)
  {
    var cut := db.(activePlayers := active);
    forall u | u in cut.rows ensures UserBooked(cut, before, u) {
      assert UserBooked(db, before, u);
    }
  }

  lemma AwardBatch(db: TournamentDb, busted: seq<BustedPlayer>, awards: seq<Award>, prize: int -> int,
                   before: map<PlayerId, int>)
    requires (forall q :: q in busted ==> Pending(db, q.userId)) && Books(db, before)
    requires FairAwards(awards, busted, db.activePlayers, prize)
    ensures var db' := AwardAll(db.(activePlayers := db.activePlayers - |busted|), awards);
            ClaimsInterval(db, db', busted, prize) && Books(db', before)
  {
    var cut := db.(activePlayers := db.activePlayers - |busted|);
    AwardsArePending(cut, busted, awards);
    AwardAllIsExact(cut, awards);
    ClaimedByAwards(db, cut, AwardAll(cut, awards), busted, awards, prize);
    CutKeepsBooks(db, cut.activePlayers, before);
    AwardAllKeepsBooks(cut, before, awards);
  }

  /** What an elimination did for the players it found pending. */
  ghost predicate EliminationDone(db: TournamentDb, busted: seq<BustedPlayer>, db': TournamentDb, prize: int -> int,
                                  before: map<PlayerId, int>)
  {
    && Books(db', before)
    && if db.closed || |busted| == 0 then db' == db else ClaimsInterval(db, db', busted, prize)
  }

  lemma AwardBatchDone(db: TournamentDb, busted: seq<BustedPlayer>, awards: seq<Award>, prize: int -> int,
                       before: map<PlayerId, int>)
    requires !db.closed && |busted| > 0
    requires (forall q :: q in busted ==> Pending(db, q.userId)) && Books(db, before)
    requires FairAwards(awards, busted, db.activePlayers, prize)
    ensures EliminationDone(db, busted, AwardAll(db.(activePlayers := db.activePlayers - |busted|), awards), prize,
            before)
  {
    AwardBatch(db, busted, awards, prize, before);
  }

  lemma EliminatePendingIs(db: TournamentDb, busted: seq<BustedPlayer>, prize: int -> int, awards: seq<Award>)
    requires !db.closed && |busted| > 0 && awards == SplitBustedRanks(busted, db.activePlayers, prize)
    ensures EliminatePending(db, busted, prize) == AwardAll(db.(activePlayers := db.activePlayers - |busted|), awards)
  {
    assert db.activePlayers - |busted| + |busted| == db.activePlayers;
  }

  lemma PendingEliminated(db: TournamentDb, busted: seq<BustedPlayer>, prize: int -> int, before: map<PlayerId, int>)
    requires !db.closed && |busted| > 0
    requires DistinctUsers(busted) && (forall q :: q in busted ==> Pending(db, q.userId))
    requires (forall p :: 0 <= prize(p)) && Books(db, before)
    ensures EliminationDone(db, busted, EliminatePending(db, busted, prize), prize, before)
  {
    var awards := SplitBustedRanks(busted, db.activePlayers, prize);
    SplitIsFair(busted, db.activePlayers, prize);
    AwardBatchDone(db, busted, awards, prize, before);
    EliminatePendingIs(db, busted, prize, awards);
  }

  /** One elimination, delivered for whatever users: either it changes nothing or it claims the next interval. */
  lemma EliminateClaims(db: TournamentDb, batch: seq<BustedPlayer>, prize: int -> int, before: map<PlayerId, int>)
    requires DistinctUsers(batch) && (forall p :: 0 <= prize(p)) && Books(db, before)
    ensures EliminationDone(db, PendingOf(db, batch), EliminateTx(db, batch, prize), prize, before)
  {
    PendingOfIs(db, batch);
    if !db.closed && |PendingOf(db, batch)| > 0 {
      PendingEliminated(db, PendingOf(db, batch), prize, before);
    }
  }

  /** A second delivery of an elimination changes nothing at all. */
  lemma EliminateIsIdempotent(db: TournamentDb, batch: seq<BustedPlayer>, prize: int -> int, before: map<PlayerId, int>)
    requires DistinctUsers(batch) && (forall p :: 0 <= prize(p)) && Books(db, before)
    ensures var db' := EliminateTx(db, batch, prize);
            EliminateTx(db', batch, prize) == db'
  {
    var db' := EliminateTx(db, batch, prize);
    var busted := PendingOf(db, batch);
    EliminateClaims(db, batch, prize, before);
    PendingOfIs(db, batch);
    if !db.closed && |busted| > 0 {
      forall q | q in batch ensures !Pending(db', q.userId) {
        if Pending(db, q.userId) {
          assert q in busted;
          assert q.userId in UsersOf(busted);
        }
      }
      NobodyPendingAgain(db, batch, db');
    }
  }

  lemma EliminateKeeps(p: Progress, batch: seq<BustedPlayer>, before: map<PlayerId, int>, prize: int -> int, pool: int,
                       places: nat)
    requires LedgerInv(p, before, prize, pool) && FixedPrizes(prize, pool, places)
    requires Possible(p, Eliminate(batch), places)
    ensures LedgerInv(Step(p, Eliminate(batch), prize), before, prize, pool)
  {
    var busted := PendingOf(p.db, batch);
    EliminateClaims(p.db, batch, prize, before);
    if !p.db.closed && |busted| > 0 {
      IntervalKeeps(p, EliminateTx(p.db, batch, prize), batch, before, prize, pool);
    }
  }

  /** A batch takes its players out of the live ones, so the counter is right before and after it. */
  lemma BatchCount(db: TournamentDb, batch: seq<BustedPlayer>)
    requires DistinctUsers(batch) && WereSeated(db, batch) && |PendingOf(db, batch)| > 0
    ensures |LiveUsers(db) - UsersOf(PendingOf(db, batch))| == |LiveUsers(db)| - |PendingOf(db, batch)|
    ensures LiveUsers(db) != {}
  {
    var busted := PendingOf(db, batch);
    PendingOfIs(db, batch);
    PendingAreLive(db, batch);
    DistinctUsersCount(busted);
    assert busted[0].userId in UsersOf(busted);
    SubsetCount(UsersOf(busted), LiveUsers(db));
  }

  lemma WinnersStayRight(p: Progress, db': TournamentDb, busted: seq<BustedPlayer>, prize: int -> int)
    requires WinnersRight(p) && ClaimsInterval(p.db, db', busted, prize)
    ensures WinnersRight(p.(db := db'))
  {
    forall u | u in p.winners
      ensures u in db'.rows && LiveUsers(db') <= {u} && (u in LiveUsers(db') || Finished(db'.rows[u].status))
    {
      assert u in p.db.rows;
    }
  }

  lemma IntervalKeeps(p: Progress, db': TournamentDb, batch: seq<BustedPlayer>, before: map<PlayerId, int>,
                      prize: int -> int, pool: int)
    requires LedgerInv(p, before, prize, pool) && DistinctUsers(batch) && WereSeated(p.db, batch)
    requires |PendingOf(p.db, batch)| > 0 && ClaimsInterval(p.db, db', PendingOf(p.db, batch), prize)
             && Books(db', before)
    ensures LedgerInv(p.(db := db'), before, prize, pool)
  {
    BatchCount(p.db, batch);
    WinnersStayRight(p, db', PendingOf(p.db, batch), prize);
    PrizeRangeSplits(prize, 1, db'.activePlayers + 1, p.db.activePlayers + 1);
  }

  lemma CrownPays(db: TournamentDb, winner: PlayerId, prize: int -> int)
    requires LiveUsers(db) == {winner} && 0 <= prize(1)
    ensures var db' := CrownTx(db, winner, prize);
            && LiveUsers(db') == {} && db'.rows.Keys == db.rows.Keys && db'.activePlayers == db.activePlayers
            && Records(db'.rows[winner], Award(winner, 1, prize(1)))
            && (forall u :: u in db.rows && u != winner ==> db'.rows[u] == db.rows[u])
            && TotalPaid(db'.payments) == TotalPaid(db.payments) + prize(1)
  {
    var db' := CrownTx(db, winner, prize);
    assert winner in LiveUsers(db);
    PaymentAppended(db.payments, Payment(winner, prize(1)), winner);
    assert db'.rows == db.rows[winner := AwardedRow(Award(winner, 1, prize(1)))];
    forall u | u in db'.rows ensures u !in LiveUsers(db') {
      assert u == winner || u !in LiveUsers(db);
    }
  }

  lemma CrownKeeps(p: Progress, winner: PlayerId, before: map<PlayerId, int>, prize: int -> int, pool: int, places: nat)
    requires LedgerInv(p, before, prize, pool) && FixedPrizes(prize, pool, places)
    requires Possible(p, Crown(winner), places)
    ensures LedgerInv(Step(p, Crown(winner), prize), before, prize, pool)
  {
    AwardOneKeepsBooks(p.db, before, Award(winner, 1, prize(1)));
    if Pending(p.db, winner) {
      assert LiveUsers(p.db) == {winner};
      CrownPays(p.db, winner, prize);
      assert PrizeRange(prize, 1, 2) == PrizeRange(prize, 1, 1) + prize(1);
    }
  }

  /** A kick of a live player moves the ledger by exactly the prize of the place it swallows. */
  lemma KickSwallows(db: TournamentDb, target: PlayerId, before: map<PlayerId, int>, prize: int -> int)
    requires target in LiveUsers(db) && !db.closed && Books(db, before)
    ensures var db' := KickTx(db, target);
            && LiveUsers(db') == LiveUsers(db) - {target}
            && TotalPaid(db'.payments) + PrizeRange(prize, 1, |LiveUsers(db')| + 1) ==
               TotalPaid(db.payments) + PrizeRange(prize, 1, |LiveUsers(db)| + 1) - prize(|LiveUsers(db)|)
    ensures Books(KickTx(db, target), before)
  {
    var db' := KickTx(db, target);
    assert LiveUsers(db') == LiveUsers(db) - {target};
    forall u | u in db'.rows ensures UserBooked(db', before, u) {
      assert UserBooked(db, before, u);
    }
  }

  /** Exactly when the place it swallows is worth nothing does a kick keep the pool whole. */
  lemma KickKeepsPoolIff(db: TournamentDb, target: PlayerId, before: map<PlayerId, int>, prize: int -> int, pool: int)
    requires target in LiveUsers(db) && !db.closed && Books(db, before)
    requires PoolSplit(db, prize, pool) && db.activePlayers == |LiveUsers(db)|
    ensures PoolSplit(KickTx(db, target), prize, pool) <==> prize(db.activePlayers) == 0
  {
    KickSwallows(db, target, before, prize);
  }

  lemma KickKeeps(p: Progress, target: PlayerId, before: map<PlayerId, int>, prize: int -> int, pool: int, places: nat)
    requires LedgerInv(p, before, prize, pool) && FixedPrizes(prize, pool, places)
    requires Possible(p, Kick(target), places)
    ensures LedgerInv(Step(p, Kick(target), prize), before, prize, pool)
  {
    if Pending(p.db, target) && !p.db.closed {
      assert target in LiveUsers(p.db);
      KickSwallows(p.db, target, before, prize);
    }
  }

  /** A first seat moves the ledger by exactly the prize of the place it reopens. */
  lemma SeatReopens(db: TournamentDb, u: PlayerId, before: map<PlayerId, int>, prize: int -> int)
    requires u in db.rows && db.rows[u].status == PlayerStatus.WAITING && Books(db, before)
    ensures var db' := SeatTx(db, u);
            && LiveUsers(db') == LiveUsers(db) + {u}
            && |LiveUsers(db')| == |LiveUsers(db)| + 1
            && TotalPaid(db'.payments) + PrizeRange(prize, 1, |LiveUsers(db')| + 1) ==
               TotalPaid(db.payments) + PrizeRange(prize, 1, |LiveUsers(db)| + 1) + prize(|LiveUsers(db)| + 1)
    ensures Books(SeatTx(db, u), before)
  {
    var db' := SeatTx(db, u);
    assert LiveUsers(db') == LiveUsers(db) + {u};
    forall v | v in db'.rows ensures UserBooked(db', before, v) {
      assert UserBooked(db, before, v);
    }
  }

  /** Exactly when the place it reopens is worth nothing does a first seat keep the pool whole. */
  lemma SeatKeepsPoolIff(db: TournamentDb, u: PlayerId, before: map<PlayerId, int>, prize: int -> int, pool: int)
    requires u in db.rows && db.rows[u].status == PlayerStatus.WAITING && Books(db, before)
    requires PoolSplit(db, prize, pool) && db.activePlayers == |LiveUsers(db)|
    ensures PoolSplit(SeatTx(db, u), prize, pool) <==> prize(db.activePlayers + 1) == 0
  {
    SeatReopens(db, u, before, prize);
  }

  lemma ReseatKeeps(db: TournamentDb, u: PlayerId, before: map<PlayerId, int>)
    requires Books(db, before) && (u in db.rows ==> db.rows[u].status != PlayerStatus.WAITING)
    ensures Books(SeatTx(db, u), before) && LiveUsers(SeatTx(db, u)) == LiveUsers(db)
    ensures SeatTx(db, u).activePlayers == db.activePlayers && SeatTx(db, u).payments == db.payments
  {
    var db' := SeatTx(db, u);
    forall v | v in db'.rows ensures UserBooked(db', before, v) {
      assert UserBooked(db, before, v);
    }
  }

  /** A released player who sits down again is as live as before. */
  lemma ReseatKeepsLedger(p: Progress, u: PlayerId, before: map<PlayerId, int>, prize: int -> int, pool: int)
    requires LedgerInv(p, before, prize, pool) && (u in p.db.rows ==> p.db.rows[u].status != PlayerStatus.WAITING)
    ensures LedgerInv(Step(p, Claim(u), prize), before, prize, pool)
  {
    ReseatKeeps(p.db, u, before);
  }

  lemma ClaimKeeps(p: Progress, u: PlayerId, before: map<PlayerId, int>, prize: int -> int, pool: int, places: nat)
    requires LedgerInv(p, before, prize, pool) && FixedPrizes(prize, pool, places)
    requires Possible(p, Claim(u), places)
    ensures LedgerInv(Step(p, Claim(u), prize), before, prize, pool)
  {
    if u in p.db.rows && p.db.rows[u].status == PlayerStatus.WAITING {
      assert p.db.activePlayers == |LiveUsers(p.db)| >= 2;
      if p.winners != {} {
        var w :| w in p.winners;
        assert LiveUsers(p.db) <= {w};
        assert |LiveUsers(p.db)| <= |{w}| by { SubsetCount(LiveUsers(p.db), {w}); }
        assert false;
      }
      SeatReopens(p.db, u, before, prize);
    } else {
      ReseatKeepsLedger(p, u, before, prize, pool);
    }
  }

  lemma ReadWinnerKeeps(p: Progress, user: PlayerId, before: map<PlayerId, int>, prize: int -> int, pool: int,
                        places: nat)
    requires LedgerInv(p, before, prize, pool)
    requires Possible(p, ReadWinner(user), places)
    ensures LedgerInv(Step(p, ReadWinner(user), prize), before, prize, pool)
  {
    assert {user} <= LiveUsers(p.db);
    SubsetCount({user}, LiveUsers(p.db));
    assert LiveUsers(p.db) == {user} + (LiveUsers(p.db) - {user});
  }

  lemma StepKeepsLedger(p: Progress, e: Event, before: map<PlayerId, int>, prize: int -> int, pool: int, places: nat)
    requires LedgerInv(p, before, prize, pool) && FixedPrizes(prize, pool, places)
    requires Possible(p, e, places)
    ensures LedgerInv(Step(p, e, prize), before, prize, pool)
  {
    match e {
      case Eliminate(batch) => EliminateKeeps(p, batch, before, prize, pool, places);
      case ReadWinner(user) => ReadWinnerKeeps(p, user, before, prize, pool, places);
      case Crown(winner) => CrownKeeps(p, winner, before, prize, pool, places);
      case Kick(target) => KickKeeps(p, target, before, prize, pool, places);
      case Claim(claimant) => ClaimKeeps(p, claimant, before, prize, pool, places);
    }
  }

  lemma StepFinishedStay(p: Progress, e: Event, prize: int -> int)
    ensures FinishedStay(p.db, Step(p, e, prize).db)
  {
    match e {
      case Eliminate(batch) =>
        var busted := PendingOf(p.db, batch);
        if |busted| > 0 && !p.db.closed {
          var cut := p.db.(activePlayers := p.db.activePlayers - |busted|);
          AwardAllFinishedStay(cut, SplitBustedRanks(busted, cut.activePlayers + |busted|, prize));
        }
      case _ =>
    }
  }

  function Run(p: Progress, events: seq<Event>, prize: int -> int): Progress {
    if |events| == 0 then p
    else Step(Run(p, events[..|events| - 1], prize), events[|events| - 1], prize)
  }

  ghost predicate PossibleRun(p: Progress, events: seq<Event>, prize: int -> int, places: nat) {
    |events| == 0
    || (PossibleRun(p, events[..|events| - 1], prize, places)
        && Possible(Run(p, events[..|events| - 1], prize), events[|events| - 1], places))
  }

  /** The prizes are settled, at least as many play as are paid, and no prize has been paid yet. */
  ghost predicate InPlay(db: TournamentDb, places: nat) {
    && places <= db.activePlayers == |LiveUsers(db)|
    && db.payments == []
    && forall u :: u in db.rows ==> db.rows[u].prizeAmount == 0 && db.rows[u].status != AWARDED
  }

  lemma InPlayStarts(db: TournamentDb, prize: int -> int, pool: int, places: nat)
    requires InPlay(db, places) && FixedPrizes(prize, pool, places)
    ensures LedgerInv(Progress(db, {}), db.points, prize, pool)
  {
    UnpaidPlaces(prize, pool, places, db.activePlayers);
    forall u | u in db.rows ensures UserBooked(db, db.points, u) {
      assert PaidTo([], u) == 0 && TimesPaid([], u) == 0;
    }
  }

  lemma {:induction false} RunKeepsLedger(db: TournamentDb, events: seq<Event>, prize: int -> int, pool: int,
                                          places: nat)
    requires InPlay(db, places) && FixedPrizes(prize, pool, places)
    requires PossibleRun(Progress(db, {}), events, prize, places)
    ensures LedgerInv(Run(Progress(db, {}), events, prize), db.points, prize, pool)
  {
    if |events| == 0 {
      InPlayStarts(db, prize, pool, places);
    } else {
      var front := events[..|events| - 1];
      RunKeepsLedger(db, front, prize, pool, places);
      StepKeepsLedger(Run(Progress(db, {}), front, prize), events[|events| - 1], db.points, prize, pool, places);
    }
  }

  /**
   * However the field is split into eliminations, in whatever order they commit and however often they
   * are delivered: never more than the pool is paid, the points gained, the recorded prizes and the
   * transactions agree user by user, and once nobody is left in, the whole pool has been paid out.
   */
  lemma RunPaysPool(db: TournamentDb, events: seq<Event>, prize: int -> int, pool: int, places: nat)
    requires InPlay(db, places) && FixedPrizes(prize, pool, places)
    requires PossibleRun(Progress(db, {}), events, prize, places)
    ensures var end := Run(Progress(db, {}), events, prize).db;
            && Books(end, db.points)
            && TotalPaid(end.payments) <= pool
            && (LiveUsers(end) == {} ==> TotalPaid(end.payments) == pool)
  {
    RunKeepsLedger(db, events, prize, pool, places);
    var end := Run(Progress(db, {}), events, prize).db;
    PrizeRangeNonNegative(prize, 1, |LiveUsers(end)| + 1);
    if LiveUsers(end) == {} {
      assert PrizeRange(prize, 1, 1) == 0;
    }
  }

  /** A participation that is finished is never written again. */
  lemma {:induction false} RunFinishedStay(p: Progress, events: seq<Event>, more: seq<Event>, prize: int -> int)
    ensures FinishedStay(Run(p, events, prize).db, Run(p, events + more, prize).db)
    decreases |more|
  {
    if |more| == 0 {
      assert events + more == events;
    } else {
      var front := more[..|more| - 1];
      RunFinishedStay(p, events, front, prize);
      assert (events + more)[..|events + more| - 1] == events + front;
      StepFinishedStay(Run(p, events + front, prize), more[|more| - 1], prize);
    }
  }

  /** When the field is down to one live player, reading and crowning that player empties it. */
  lemma CrowningEndsIt(p: Progress, user: PlayerId, before: map<PlayerId, int>, prize: int -> int, pool: int,
                       places: nat)
    requires LedgerInv(p, before, prize, pool) && FixedPrizes(prize, pool, places)
    requires Possible(p, ReadWinner(user), places)
    ensures var read := Step(p, ReadWinner(user), prize);
            var end := Step(read, Crown(user), prize).db;
            && Possible(read, Crown(user), places)
            && LiveUsers(end) == {}
            && TotalPaid(end.payments) == pool
            && end.rows[user].finalPlace == Some(1)
  {
    var read := Step(p, ReadWinner(user), prize);
    ReadWinnerKeeps(p, user, before, prize, pool, places);
    assert user in read.winners;
    assert LiveUsers(p.db) == {user};
    CrownPays(p.db, user, prize);
    assert PrizeRange(prize, 1, 2) == PrizeRange(prize, 1, 1) + prize(1);
  }

  /** The event gives away the prize of this place: the place lies in the interval of a batch, or is the champion's. */
  predicate Takes(p: Progress, e: Event, place: int) {
    match e
    case Eliminate(batch) =>
      !p.db.closed && p.db.activePlayers - |PendingOf(p.db, batch)| < place <= p.db.activePlayers
    case Crown(winner) => place == 1 && Pending(p.db, winner)
    case ReadWinner(_) => false
    case Kick(_) => false
    case Claim(_) => false
  }

  function TimesTaken(p: Progress, events: seq<Event>, prize: int -> int, place: int): nat {
    if |events| == 0 then 0
    else
      var front := events[..|events| - 1];
      TimesTaken(p, front, prize, place) + if Takes(Run(p, front, prize), events[|events| - 1], place) then 1 else 0
  }

  /** Whether the place has been given away: fewer players are left than would hold it. */
  function Given(p: Progress, place: int): nat {
    if |LiveUsers(p.db)| < place then 1 else 0
  }

  lemma BatchTakes(p: Progress, batch: seq<BustedPlayer>, before: map<PlayerId, int>, prize: int -> int, pool: int,
                   places: nat, place: int)
    requires LedgerInv(p, before, prize, pool) && FixedPrizes(prize, pool, places)
    requires Possible(p, Eliminate(batch), places)
    ensures Given(Step(p, Eliminate(batch), prize), place) ==
            Given(p, place) + if Takes(p, Eliminate(batch), place) then 1 else 0
  {
    EliminateClaims(p.db, batch, prize, before);
    if !p.db.closed && |PendingOf(p.db, batch)| > 0 {
      BatchCount(p.db, batch);
    }
  }

  lemma CrownTakes(p: Progress, winner: PlayerId, before: map<PlayerId, int>, prize: int -> int, pool: int,
                   places: nat, place: int)
    requires LedgerInv(p, before, prize, pool) && FixedPrizes(prize, pool, places) && 1 <= place
    requires Possible(p, Crown(winner), places)
    ensures Given(Step(p, Crown(winner), prize), place) ==
            Given(p, place) + if Takes(p, Crown(winner), place) then 1 else 0
  {
    if Pending(p.db, winner) {
      assert LiveUsers(p.db) == {winner};
      CrownPays(p.db, winner, prize);
    }
  }

  lemma StepTakes(p: Progress, e: Event, before: map<PlayerId, int>, prize: int -> int, pool: int, places: nat,
                  place: int)
    requires LedgerInv(p, before, prize, pool) && FixedPrizes(prize, pool, places) && 1 <= place <= places
    requires Possible(p, e, places)
    ensures Given(Step(p, e, prize), place) == Given(p, place) + if Takes(p, e, place) then 1 else 0
  {
    match e {
      case Eliminate(batch) => BatchTakes(p, batch, before, prize, pool, places, place);
      case Crown(winner) => CrownTakes(p, winner, before, prize, pool, places, place);
      case ReadWinner(_) =>
      case Kick(target) =>
        if Pending(p.db, target) && !p.db.closed {
          assert target in LiveUsers(p.db);
          KickSwallows(p.db, target, before, prize);
        }
      case Claim(u) =>
        if u in p.db.rows && p.db.rows[u].status == PlayerStatus.WAITING {
          SeatReopens(p.db, u, before, prize);
        } else {
          ReseatKeeps(p.db, u, before);
        }
    }
  }

  /**
   * Every paid place is given away once: over any run the prize of a paid place lies in the interval of
   * exactly one batch or is the champion's, if fewer players are left than would hold it, and of none before.
   */
  lemma {:induction false} EveryPaidPlaceOnce(db: TournamentDb, events: seq<Event>, prize: int -> int, pool: int,
                                              places: nat, place: int)
    requires InPlay(db, places) && FixedPrizes(prize, pool, places) && 1 <= place <= places
    requires PossibleRun(Progress(db, {}), events, prize, places)
    ensures TimesTaken(Progress(db, {}), events, prize, place) ==
            if |LiveUsers(Run(Progress(db, {}), events, prize).db)| < place then 1 else 0
  {
    if |events| > 0 {
      var front := events[..|events| - 1];
      EveryPaidPlaceOnce(db, front, prize, pool, places, place);
      RunKeepsLedger(db, front, prize, pool, places);
      StepTakes(Run(Progress(db, {}), front, prize), events[|events| - 1], db.points, prize, pool, places, place);
    }
  }

  function SixtyForty(): int -> int {
    place => if place == 1 then 60 else if place == 2 then 40 else 0
  }

  lemma SixtyFortyIsFixed()
    ensures FixedPrizes(SixtyForty(), 100, 2)
  {
    var prize := SixtyForty();
    assert PrizeRange(prize, 1, 3) == PrizeRange(prize, 1, 2) + prize(2) ==
           PrizeRange(prize, 1, 1) + prize(1) + prize(2);
  }

  function ThreePlaying(a: PlayerId, b: PlayerId, c: PlayerId): TournamentDb {
    var playing := Participation(PLAYING, None, 0);
    TournamentDb(map[a := playing, b := playing, c := playing], map[], [], 3, false)
  }

  lemma ThreeInPlay(a: PlayerId, b: PlayerId, c: PlayerId)
    requires a != b && b != c && a != c
    ensures InPlay(ThreePlaying(a, b, c), 2) && LiveUsers(ThreePlaying(a, b, c)) == {a, b, c}
  {
    assert LiveUsers(ThreePlaying(a, b, c)) == {a, b, c};
    assert |{a, b, c}| == 3;
  }

  lemma TwoKicked(a: PlayerId, b: PlayerId, c: PlayerId)
    requires a != b && b != c && a != c
    ensures var kicked := KickTx(KickTx(ThreePlaying(a, b, c), b), c);
            LiveUsers(kicked) == {a} && kicked.payments == []
  {
    assert LiveUsers(KickTx(KickTx(ThreePlaying(a, b, c), b), c)) == {a};
  }

  /**
   * The kick gate is read outside the transaction. With three players left and two paid places, two
   * kicks that both passed the gate before either committed leave one player, and 40 of 100 unpaid.
   */
  lemma StaleKickGate(a: PlayerId, b: PlayerId, c: PlayerId)
    requires a != b && b != c && a != c
    ensures var db := ThreePlaying(a, b, c);
            var kicked := KickTx(KickTx(db, b), c);
            && FixedPrizes(SixtyForty(), 100, 2)
            && InPlay(db, 2) && Possible(Progress(db, {}), Kick(b), 2) && Possible(Progress(db, {}), Kick(c), 2)
            && LiveUsers(kicked) == {a}
            && LiveUsers(CrownTx(kicked, a, SixtyForty())) == {}
            && TotalPaid(CrownTx(kicked, a, SixtyForty()).payments) == 60
  {
    SixtyFortyIsFixed();
    ThreeInPlay(a, b, c);
    TwoKicked(a, b, c);
    var kicked := KickTx(KickTx(ThreePlaying(a, b, c), b), c);
    assert TotalPaid(kicked.payments) == 0;
    CrownPays(kicked, a, SixtyForty());
  }

  lemma BatchOfOne(db: TournamentDb, q: BustedPlayer)
    requires Pending(db, q.userId)
    ensures PendingOf(db, [q]) == [q] && UsersOf([q]) == {q.userId} && DistinctUsers([q])
  {
    assert [q][..0] == [];
  }

  /** These play, `active` of them, and this much has been paid. */
  ghost predicate Standing(db: TournamentDb, live: set<PlayerId>, active: int, paid: int) {
    && LiveUsers(db) == live && db.activePlayers == active && TotalPaid(db.payments) == paid
    && !db.closed && Books(db, map[])
  }

  lemma IntervalOfOne(db: TournamentDb, db': TournamentDb, q: BustedPlayer, prize: int -> int,
                      live: set<PlayerId>, active: int, paid: int)
    requires Standing(db, live, active, paid) && UsersOf([q]) == {q.userId}
    requires ClaimsInterval(db, db', [q], prize) && Books(db', map[])
    ensures Standing(db', live - {q.userId}, active - 1, paid + prize(active))
    ensures forall u :: u in db.rows && u != q.userId ==> u in db'.rows && db'.rows[u] == db.rows[u]
  {
    assert PrizeRange(prize, active, active + 1) == PrizeRange(prize, active, active) + prize(active);
  }

  /** One live player busts alone: the place is the number of players still in, and it is paid. */
  lemma OneBusts(db: TournamentDb, q: BustedPlayer, prize: int -> int, live: set<PlayerId>, active: int, paid: int)
    requires Standing(db, live, active, paid) && q.userId in live && forall p :: 0 <= prize(p)
    ensures Standing(EliminateTx(db, [q], prize), live - {q.userId}, active - 1, paid + prize(active))
    ensures forall u :: u in db.rows && u != q.userId ==>
              u in EliminateTx(db, [q], prize).rows && EliminateTx(db, [q], prize).rows[u] == db.rows[u]
  {
    assert q.userId in LiveUsers(db);
    BatchOfOne(db, q);
    EliminateClaims(db, [q], prize, map[]);
    IntervalOfOne(db, EliminateTx(db, [q], prize), q, prize, live, active, paid);
  }

  function FiftyThirtyTwenty(): int -> int {
    place => if place == 1 then 50 else if place == 2 then 30 else if place == 3 then 20 else 0
  }

  lemma FiftyThirtyTwentyIsFixed()
    ensures FixedPrizes(FiftyThirtyTwenty(), 100, 3)
  {
    var prize := FiftyThirtyTwenty();
    assert PrizeRange(prize, 1, 4) == PrizeRange(prize, 1, 3) + 20;
    assert PrizeRange(prize, 1, 3) == PrizeRange(prize, 1, 2) + 30;
    assert PrizeRange(prize, 1, 2) == PrizeRange(prize, 1, 1) + 50;
  }

  /** Three play for three prizes, and a fourth has paid and not come yet. */
  function OneNoShow(a: PlayerId, b: PlayerId, c: PlayerId, d: PlayerId): TournamentDb {
    var playing := Participation(PLAYING, None, 0);
    TournamentDb(map[a := playing, b := playing, c := playing, d := Participation(PlayerStatus.WAITING, None, 0)],
                 map[], [], 3, false)
  }

  lemma OneNoShowInPlay(a: PlayerId, b: PlayerId, c: PlayerId, d: PlayerId)
    requires |{a, b, c, d}| == 4
    ensures InPlay(OneNoShow(a, b, c, d), 3) && Standing(OneNoShow(a, b, c, d), {a, b, c}, 3, 0)
    ensures a != b && a != c && b != c && d !in {a, b, c}
  {
    assert {a, b, c, d} == {a, b, c} + {d};
    assert {a, b, c} == {a, b} + {c};
    var db := OneNoShow(a, b, c, d);
    assert LiveUsers(db) == {a, b, c};
    forall u | u in db.rows ensures UserBooked(db, map[], u) {
      assert PaidTo([], u) == 0 && TimesPaid([], u) == 0;
    }
  }

  function Bust(u: PlayerId): BustedPlayer {
    BustedPlayer(u, 0, 1)
  }

  /** The third place is busted, the no-show comes and busts too, and then the rest. */
  function LateSeat(a: PlayerId, b: PlayerId, c: PlayerId, d: PlayerId): seq<Event> {
    [Eliminate([Bust(c)])] + [Claim(d)] + [Eliminate([Bust(d)])] + [Eliminate([Bust(b)])] + [ReadWinner(a)] + [Crown(a)]
  }

  lemma RunOfMore(p: Progress, events: seq<Event>, e: Event, prize: int -> int)
    ensures Run(p, events + [e], prize) == Step(Run(p, events, prize), e, prize)
  {
    assert (events + [e])[..|events|] == events;
  }

  lemma LateSeatStands(db: TournamentDb, u: PlayerId, live: set<PlayerId>, active: int, paid: int)
    requires Standing(db, live, active, paid) && u in db.rows && db.rows[u].status == PlayerStatus.WAITING
    ensures Standing(SeatTx(db, u), live + {u}, active + 1, paid)
  {
    SeatReopens(db, u, map[], FiftyThirtyTwenty());
  }

  /** A late first seat reopens the third place, which is then paid a second time. */
  lemma ThirdPlacePaidTwice(db: TournamentDb, a: PlayerId, b: PlayerId, c: PlayerId, d: PlayerId)
    requires Standing(db, {a, b, c}, 3, 0) && d in db.rows && db.rows[d].status == PlayerStatus.WAITING
    requires a != b && a != c && b != c && d !in {a, b, c}
    ensures var prize := FiftyThirtyTwenty();
            var late := SeatTx(EliminateTx(db, [Bust(c)], prize), d);
            Standing(EliminateTx(EliminateTx(late, [Bust(d)], prize), [Bust(b)], prize), {a}, 1, 70)
  {
    var prize := FiftyThirtyTwenty();
    OneBusts(db, Bust(c), prize, {a, b, c}, 3, 0);
    assert {a, b, c} - {c} == {a, b};
    var two := EliminateTx(db, [Bust(c)], prize);
    LateSeatStands(two, d, {a, b}, 2, 20);
    assert {a, b} + {d} == {a, b, d};
    OneBusts(SeatTx(two, d), Bust(d), prize, {a, b, d}, 3, 20);
    assert {a, b, d} - {d} == {a, b};
    OneBusts(EliminateTx(SeatTx(two, d), [Bust(d)], prize), Bust(b), prize, {a, b}, 2, 40);
    assert {a, b} - {b} == {a};
  }

  lemma LateSeatRun(p: Progress, a: PlayerId, b: PlayerId, c: PlayerId, d: PlayerId, prize: int -> int)
    ensures Run(p, LateSeat(a, b, c, d), prize).db ==
            CrownTx(EliminateTx(EliminateTx(SeatTx(EliminateTx(p.db, [Bust(c)], prize), d), [Bust(d)], prize),
                                [Bust(b)], prize), a, prize)
  {
    var e1, e2, e3, e4 := Eliminate([Bust(c)]), Claim(d), Eliminate([Bust(d)]), Eliminate([Bust(b)]);
    assert [] + [e1] == [e1];
    RunOfMore(p, [], e1, prize);
    RunOfMore(p, [e1], e2, prize);
    RunOfMore(p, [e1] + [e2], e3, prize);
    RunOfMore(p, [e1] + [e2] + [e3], e4, prize);
    RunOfMore(p, [e1] + [e2] + [e3] + [e4], ReadWinner(a), prize);
    RunOfMore(p, [e1] + [e2] + [e3] + [e4] + [ReadWinner(a)], Crown(a), prize);
  }

  /**
   * Nothing keeps a no-show from taking a first seat in the money. With three players left, three paid
   * places and prizes of 50, 30 and 20, such a late seat makes the tournament pay 120 out of a pool of 100.
   */
  lemma LateSeatOverpays(a: PlayerId, b: PlayerId, c: PlayerId, d: PlayerId)
    requires |{a, b, c, d}| == 4
    ensures FixedPrizes(FiftyThirtyTwenty(), 100, 3) && InPlay(OneNoShow(a, b, c, d), 3)
    ensures var end := Run(Progress(OneNoShow(a, b, c, d), {}), LateSeat(a, b, c, d), FiftyThirtyTwenty()).db;
            LiveUsers(end) == {} && TotalPaid(end.payments) == 120
  {
    var prize, db := FiftyThirtyTwenty(), OneNoShow(a, b, c, d);
    FiftyThirtyTwentyIsFixed();
    OneNoShowInPlay(a, b, c, d);
    ThirdPlacePaidTwice(db, a, b, c, d);
    LateSeatRun(Progress(db, {}), a, b, c, d, prize);
    var late := SeatTx(EliminateTx(db, [Bust(c)], prize), d);
    CrownPays(EliminateTx(EliminateTx(late, [Bust(d)], prize), [Bust(b)], prize), a, prize);
  }
}

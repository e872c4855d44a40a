/**
 * The prize ledger: participations, points and PRIZE transactions, and the database transactions
 * that finish a player. `activePlayers` hands out the place intervals.
 */
module Ledger {
  import opened Sums
  import opened TableTypes
  import opened BustedRanks

  datatype PlayerStatus = WAITING | PLAYING | RELEASED | ELIMINATED | AWARDED

  datatype Participation = Participation(status: PlayerStatus, finalPlace: Option<int>, prizeAmount: int)

  /** A `pointTransaction` row of type PRIZE. */
  datatype Payment = Payment(userId: PlayerId, amount: int)

  datatype TournamentDb = TournamentDb(
    rows: map<PlayerId, Participation>,
    points: map<PlayerId, int>,
    payments: seq<Payment>,
    activePlayers: int,
    closed: bool)

  /** `FINISHED_PLAYER_STATUSES`. */
  predicate Finished(status: PlayerStatus) {
    status == ELIMINATED || status == AWARDED
  }

  /** `LIVE_PLAYER_STATUSES`: what `activePlayers` counts. */
  predicate IsLive(status: PlayerStatus) {
    status == PLAYING || status == RELEASED
  }

  /** The participation exists and is not finished: the `where` of every write below. */
  predicate Pending(db: TournamentDb, u: PlayerId) {
    u in db.rows && !Finished(db.rows[u].status)
  }

  function LiveUsers(db: TournamentDb): set<PlayerId> {
    set u | u in db.rows && IsLive(db.rows[u].status)
  }

  function PointsOf(points: map<PlayerId, int>, u: PlayerId): int {
    if u in points then points[u] else 0
  }

  function PaidTo(payments: seq<Payment>, u: PlayerId): int {
    if |payments| == 0 then 0
    else
      var last := payments[|payments| - 1];
      PaidTo(payments[..|payments| - 1], u) + if last.userId == u then last.amount else 0
  }

  function TimesPaid(payments: seq<Payment>, u: PlayerId): nat {
    if |payments| == 0 then 0
    else TimesPaid(payments[..|payments| - 1], u) + if payments[|payments| - 1].userId == u then 1 else 0
  }

  function TotalPaid(payments: seq<Payment>): int {
    if |payments| == 0 then 0
    else TotalPaid(payments[..|payments| - 1]) + payments[|payments| - 1].amount
  }

  /** The row `awardPrize` writes. */
  function AwardedRow(a: Award): Participation {
    Participation(if a.amount > 0 then AWARDED else ELIMINATED, Some(a.place), a.amount)
  }

  /** One round of `awardPrize`: a finished row is skipped, an unpaid place moves no money. */
  function AwardOne(db: TournamentDb, a: Award): TournamentDb {
    if !Pending(db, a.userId) then db
    else if a.amount <= 0 then db.(rows := db.rows[a.userId := AwardedRow(a)])
    else db.(rows := db.rows[a.userId := AwardedRow(a)],
             points := db.points[a.userId := PointsOf(db.points, a.userId) + a.amount],
             payments := db.payments + [Payment(a.userId, a.amount)])
  }

  /** `awardPrize`. */
  function AwardAll(db: TournamentDb, awards: seq<Award>): TournamentDb {
    if |awards| == 0 then db
    else AwardOne(AwardAll(db, awards[..|awards| - 1]), awards[|awards| - 1])
  }

  /** The players of the batch whose participation is still open (`FOR UPDATE`). */
  function PendingOf(db: TournamentDb, batch: seq<BustedPlayer>): seq<BustedPlayer> {
    if |batch| == 0 then []
    else PendingOf(db, batch[..|batch| - 1]) +
         if Pending(db, batch[|batch| - 1].userId) then [batch[|batch| - 1]] else []
  }

  function EliminatePending(db: TournamentDb, busted: seq<BustedPlayer>, prize: int -> int): TournamentDb {
    if |busted| == 0 || db.closed then db
    else
      var after := db.activePlayers - |busted|;
      AwardAll(db.(activePlayers := after), SplitBustedRanks(busted, after + |busted|, prize))
  }

  /** The transaction of `eliminatePlayer`; a closed tournament throws and rolls it back. */
  function EliminateTx(db: TournamentDb, batch: seq<BustedPlayer>, prize: int -> int): TournamentDb {
    EliminatePending(db, PendingOf(db, batch), prize)
  }

  /** The transaction of `tournamentFinished` for the user it has read. */
  function CrownTx(db: TournamentDb, winner: PlayerId, prize: int -> int): TournamentDb {
    AwardOne(db, Award(winner, 1, prize(1)))
  }

  /** The transaction of a dealer kick. */
  function KickTx(db: TournamentDb, target: PlayerId): TournamentDb {
    if !Pending(db, target) || db.closed then db
    else db.(rows := db.rows[target := db.rows[target].(status := ELIMINATED)], activePlayers := db.activePlayers - 1)
  }

  /** The participation part of a seat claim: the first seat counts the player, a re-entry does not. */
  function SeatTx(db: TournamentDb, u: PlayerId): TournamentDb {
    if u !in db.rows then db
    else if db.rows[u].status == PlayerStatus.WAITING then
      db.(rows := db.rows[u := db.rows[u].(status := PLAYING)], activePlayers := db.activePlayers + 1)
    else if db.rows[u].status == RELEASED then
      db.(rows := db.rows[u := db.rows[u].(status := PLAYING)])
    else db
  }

  lemma PaymentAppended(payments: seq<Payment>, p: Payment, u: PlayerId)
    ensures PaidTo(payments + [p], u) == PaidTo(payments, u) + if p.userId == u then p.amount else 0
    ensures TimesPaid(payments + [p], u) == TimesPaid(payments, u) + if p.userId == u then 1 else 0
    ensures TotalPaid(payments + [p]) == TotalPaid(payments) + p.amount
  {
    assert (payments + [p])[..|payments|] == payments;
  }

  /**
   * One user's books: the points gained, the recorded prize and the PRIZE transactions agree; a prize
   * is paid at most once, and only on a row marked AWARDED.
   */
  ghost predicate UserBooked(db: TournamentDb, before: map<PlayerId, int>, u: PlayerId)
    requires u in db.rows
  {
    var row := db.rows[u];
    && PointsOf(db.points, u) - PointsOf(before, u) == row.prizeAmount == PaidTo(db.payments, u)
    && TimesPaid(db.payments, u) == (if row.status == AWARDED then 1 else 0)
    && (row.status == AWARDED <==> row.prizeAmount > 0)
    && row.prizeAmount >= 0
  }

  ghost predicate Books(db: TournamentDb, before: map<PlayerId, int>) {
    forall u :: u in db.rows ==> UserBooked(db, before, u)
  }

  lemma AwardOneKeepsBooks(db: TournamentDb, before: map<PlayerId, int>, a: Award)
    requires Books(db, before) && 0 <= a.amount
    ensures Books(AwardOne(db, a), before)
  {
    var db' := AwardOne(db, a);
    forall u | u in db'.rows ensures UserBooked(db', before, u) {
      assert UserBooked(db, before, u);
      PaymentAppended(db.payments, Payment(a.userId, a.amount), u);
    }
  }

  lemma {:induction false} AwardAllKeepsBooks(db: TournamentDb, before: map<PlayerId, int>, awards: seq<Award>)
    requires Books(db, before) && forall k :: 0 <= k < |awards| ==> 0 <= awards[k].amount
    ensures Books(AwardAll(db, awards), before)
  {
    if |awards| > 0 {
      var n := |awards| - 1;
      AwardAllKeepsBooks(db, before, awards[..n]);
      AwardOneKeepsBooks(AwardAll(db, awards[..n]), before, awards[n]);
    }
  }

  /** The row records this place and this prize, and is AWARDED exactly if there is one. */
  predicate Records(row: Participation, a: Award) {
    && row.finalPlace == Some(a.place) && row.prizeAmount == a.amount
    && row.status == (if a.amount > 0 then AWARDED else ELIMINATED)
  }

  /** What `awardPrize` does when every award is for a different, unfinished participant. */
  ghost predicate AwardedExactly(db: TournamentDb, db': TournamentDb, awards: seq<Award>) {
    && db'.rows.Keys == db.rows.Keys
    && db'.activePlayers == db.activePlayers && db'.closed == db.closed
    && (forall u :: u in db.rows && u !in AwardedUsers(awards) ==> db'.rows[u] == db.rows[u])
    && (forall k :: 0 <= k < |awards| ==>
          awards[k].userId in db'.rows && Records(db'.rows[awards[k].userId], awards[k]))
    && TotalPaid(db'.payments) == TotalPaid(db.payments) + Sum(AwardAmounts(awards))
  }

  ghost predicate AllPending(db: TournamentDb, awards: seq<Award>) {
    forall k :: 0 <= k < |awards| ==> Pending(db, awards[k].userId) && 0 <= awards[k].amount
  }

  lemma AwardOneMore(db: TournamentDb, mid: TournamentDb, awards: seq<Award>, a: Award)
    requires AwardedExactly(db, mid, awards) && Pending(db, a.userId) && 0 <= a.amount
    requires a.userId !in AwardedUsers(awards)
    ensures AwardedExactly(db, AwardOne(mid, a), awards + [a])
  {
    var all := awards + [a];
    PaymentAppended(mid.payments, Payment(a.userId, a.amount), a.userId);
    assert AwardAmounts(all)[..|awards|] == AwardAmounts(awards);
    assert a in all && forall b :: b in awards ==> b in all;
    forall k | 0 <= k < |all|
      ensures all[k].userId in AwardOne(mid, a).rows && Records(AwardOne(mid, a).rows[all[k].userId], all[k])
    {
      if k < |awards| {
        assert awards[k] in awards;
      }
    }
  }

  lemma {:induction false} AwardAllIsExact(db: TournamentDb, awards: seq<Award>)
    requires AwardsDistinct(awards) && AllPending(db, awards)
    ensures AwardedExactly(db, AwardAll(db, awards), awards)
  {
    if |awards| > 0 {
      var n := |awards| - 1;
      AwardAllIsExact(db, awards[..n]);
      assert awards == awards[..n] + [awards[n]];
      AwardOneMore(db, AwardAll(db, awards[..n]), awards[..n], awards[n]);
    }
  }

  /** Nothing that happens later changes a finished participation. */
  ghost predicate FinishedStay(db: TournamentDb, db': TournamentDb) {
    forall u :: u in db.rows && Finished(db.rows[u].status) ==> u in db'.rows && db'.rows[u] == db.rows[u]
  }

  lemma {:induction false} AwardAllFinishedStay(db: TournamentDb, awards: seq<Award>)
    ensures FinishedStay(db, AwardAll(db, awards))
  {
    if |awards| > 0 {
      AwardAllFinishedStay(db, awards[..|awards| - 1]);
    }
  }

  lemma {:induction false} PendingOfIs(db: TournamentDb, batch: seq<BustedPlayer>)
    ensures forall p :: p in PendingOf(db, batch) <==> p in batch && Pending(db, p.userId)
    ensures DistinctUsers(batch) ==> DistinctUsers(PendingOf(db, batch))
  {
    if |batch| > 0 {
      var n := |batch| - 1;
      PendingOfIs(db, batch[..n]);
      assert batch == batch[..n] + [batch[n]];
      if DistinctUsers(batch) {
        var front := PendingOf(db, batch[..n]);
        forall k | 0 <= k < |front| ensures front[k].userId != batch[n].userId {
          assert front[k] in batch[..n];
        }
      }
    }
  }

  lemma {:induction false} DistinctUsersCount(ps: seq<BustedPlayer>)
    requires DistinctUsers(ps)
    ensures |UsersOf(ps)| == |ps|
  {
    if |ps| > 0 {
      var n := |ps| - 1;
      DistinctUsersCount(ps[..n]);
      assert ps == ps[..n] + [ps[n]];
      assert UsersOf(ps) == UsersOf(ps[..n]) + {ps[n].userId};
      assert ps[n].userId !in UsersOf(ps[..n]);
    }
  }

  /** A second delivery of the same elimination finds nobody pending. */
  lemma NobodyPendingAgain(db: TournamentDb, batch: seq<BustedPlayer>, db': TournamentDb)
    requires forall p :: p in batch ==> !Pending(db', p.userId)
    ensures PendingOf(db', batch) == []
  {
    PendingOfIs(db', batch);
    assert forall p :: p !in PendingOf(db', batch);
  }
}

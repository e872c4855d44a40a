/** The ledger's database as the service updates it, transaction by transaction. */
module LedgerStore {
  import opened TableTypes
  import opened Prizes
  import opened BustedRanks
  import opened Ledger

  class TournamentLedger {
    var rows: map<PlayerId, Participation>
    var points: map<PlayerId, int>
    var payments: seq<Payment>
    var activePlayers: int
    var closed: bool

    /** The database these tables stand for. */
    function Db(): TournamentDb
      reads this
    {
      TournamentDb(rows, points, payments, activePlayers, closed)
    }

    constructor (initial: TournamentDb)
      ensures Db() == initial
    {
      rows, points, payments := initial.rows, initial.points, initial.payments;
      activePlayers, closed := initial.activePlayers, initial.closed;
    }

    /** `awardPrize`: the status condition of the update is what makes it idempotent. */
    method AwardPrize(awards: seq<Award>)
      modifies this
      ensures Db() == AwardAll(old(Db()), awards)
    {
      var k := 0;
      while k < |awards|
        invariant 0 <= k <= |awards|
        invariant Db() == AwardAll(old(Db()), awards[..k])
      {
        var a := awards[k];
        if Pending(Db(), a.userId) {
          var status := if a.amount > 0 then AWARDED else ELIMINATED;
          rows := rows[a.userId := Participation(status, Some(a.place), a.amount)];
          if a.amount > 0 {
            points := points[a.userId := PointsOf(points, a.userId) + a.amount];
            payments := payments + [Payment(a.userId, a.amount)];
          }
        }
        assert awards[..k + 1][..k] == awards[..k];
        k := k + 1;
      }
      assert awards[..|awards|] == awards;
    }

    method FindPending(batch: seq<BustedPlayer>) returns (busted: seq<BustedPlayer>)
      ensures busted == PendingOf(Db(), batch)
    {
      busted := [];
      var k := 0;
      while k < |batch|
        invariant 0 <= k <= |batch|
        invariant busted == PendingOf(Db(), batch[..k])
      {
        assert batch[..k + 1][..k] == batch[..k];
        if Pending(Db(), batch[k].userId) {
          busted := busted + [batch[k]];
        }
        k := k + 1;
      }
      assert batch[..|batch|] == batch;
    }

    /** The transaction of `eliminatePlayer`; `None` stands for the exception of a closed tournament. */
    method Eliminate(batch: seq<BustedPlayer>, pool: int, payouts: seq<PrizePayout>) returns (remaining: Option<int>)
      modifies this
      ensures Db() == EliminateTx(old(Db()), batch, PrizeTable(pool, payouts))
      ensures remaining.None? <==> old(Db()).closed && PendingOf(old(Db()), batch) != []
      ensures remaining.Some? ==> remaining.value == activePlayers
    {
      var busted := FindPending(batch);
      if |busted| == 0 {
        return Some(activePlayers);
      }
      if closed {
        return None;
      }
      activePlayers := activePlayers - |busted|;
      ghost var cut := Db();
      var awards := SplitRanks(busted, activePlayers + |busted|, pool, payouts);
      remaining := Some(activePlayers);
      AwardEach(awards);
      AwardAllKeepsCounter(cut, awards);
    }

    /** The loop over the awards, which calls `awardPrize` for one of them at a time. */
    method AwardEach(awards: seq<Award>)
      modifies this
      ensures Db() == AwardAll(old(Db()), awards)
    {
      var k := 0;
      while k < |awards|
        invariant 0 <= k <= |awards|
        invariant Db() == AwardAll(old(Db()), awards[..k])
      {
        AwardPrize([awards[k]]);
        assert awards[..k + 1][..k] == awards[..k];
        assert [awards[k]][..0] == [];
        k := k + 1;
      }
      assert awards[..|awards|] == awards;
    }

    /** `tournamentFinished`: any live user is taken; without one, a first place must have been awarded already. */
    method Finish(pool: int, payouts: seq<PrizePayout>) returns (ok: bool)
      modifies this
      ensures LiveUsers(old(Db())) == {} ==> Db() == old(Db())
      ensures LiveUsers(old(Db())) == {} ==> (ok <==> exists u :: u in rows && rows[u].finalPlace == Some(1))
      ensures LiveUsers(old(Db())) != {} ==>
                ok && exists u :: u in LiveUsers(old(Db())) && Db() == CrownTx(old(Db()), u, PrizeTable(pool, payouts))
    {
      var live := LiveUsers(Db());
      if live == {} {
        ok := exists u :: u in rows && rows[u].finalPlace == Some(1);
        return;
      }
      var winner :| winner in live;
      var amount := PrizeFor(pool, payouts, 1);
      var awards := [Award(winner, 1, amount)];
      assert awards[..0] == [];
      AwardPrize(awards);
      ok := true;
    }

    /** The transaction of a kick; `None` stands for the exception of a closed tournament. */
    method Kick(target: PlayerId) returns (remaining: Option<int>)
      modifies this
      ensures Db() == KickTx(old(Db()), target)
      ensures remaining.None? <==> old(Db()).closed && Pending(old(Db()), target)
      ensures remaining.Some? ==> remaining.value == activePlayers
    {
      if !Pending(Db(), target) {
        return Some(activePlayers);
      }
      if closed {
        return None;
      }
      rows := rows[target := rows[target].(status := ELIMINATED)];
      activePlayers := activePlayers - 1;
      remaining := Some(activePlayers);
    }
  }

  lemma {:induction false} AwardAllKeepsCounter(db: TournamentDb, awards: seq<Award>)
    ensures AwardAll(db, awards).activePlayers == db.activePlayers && AwardAll(db, awards).closed == db.closed
  {
    if |awards| > 0 {
      AwardAllKeepsCounter(db, awards[..|awards| - 1]);
    }
  }
}

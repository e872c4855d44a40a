/** The atomic parts of a rebuy as the services run them. */
module RebuyServices {
  import opened TableTypes
  import opened Rebuys
  import L = Ledger

  class RebuyService {
    var stacks: Option<map<PlayerId, int>>
    var db: Db
    var up: bool
    var generation: nat

    constructor (stacks: Option<map<PlayerId, int>>, db: Db)
      ensures this.stacks == stacks && this.db == db && up && generation == 0
    {
      this.stacks, this.db := stacks, db;
      up, generation := true, 0;
    }

    /** A world with this snapshot, this database and this state of the gate. */
    ghost predicate Matches(w: World)
      reads this
    {
      w.stacks == stacks && w.db == db && w.up == up && w.generation == generation
    }

    /** `executeRebuyTransaction`: it refuses before it writes, or is rolled back, or writes all of it. */
    method ExecuteRebuyTransaction(u: PlayerId, entryFee: int) returns (ok: bool)
      modifies `db
      ensures ok <==> CanPay(old(db), u, entryFee)
      ensures db == if ok then Debit(old(db), u, entryFee) else old(db)
    {
      var before := db;
      if L.PointsOf(db.points, u) < entryFee {
        return false;
      }
      db := db.(points := db.points[u := L.PointsOf(db.points, u) - entryFee]);
      db := db.(rebuys := db.rebuys + [u]);
      if db.closed {
        db := before;
        return false;
      }
      db := db.(totalBuyin := db.totalBuyin + entryFee);
      ok := true;
    }

    /** The snapshot callback of `processRebuy`. */
    method WriteChips(u: PlayerId, seen: nat, startStack: int, ghost w: World) returns (verdict: Outcome)
      requires Matches(w)
      modifies `stacks
      ensures (w.(stacks := stacks), verdict) == WriteCallback(w, u, seen, startStack)
    {
      if generation != seen || !up {
        return Interrupted;
      }
      if stacks.None? || u !in stacks.value {
        return Skipped;
      }
      var stack := stacks.value[u];
      if startStack > 0 {
        stack := stack + startStack;
      }
      stacks := Some(stacks.value[u := stack]);
      verdict := Applied;
    }

    /** `revertRebuy`: a write that does not land is logged and forgotten, and the chips stay. */
    method Revert(u: PlayerId, amount: int, lands: bool, ghost w: World)
      requires Matches(w)
      modifies `stacks
      ensures w.(stacks := stacks) == TryRevert(w, u, lands, amount)
    {
      if !up || !lands {
        return;
      }
      if stacks.None? || u !in stacks.value || stacks.value[u] < amount {
        return;
      }
      stacks := Some(stacks.value[u := stacks.value[u] - amount]);
    }

    /** `stillBroke`: those of `ids` that are seated without chips, in order. */
    method StillBrokeOf(ids: seq<PlayerId>, ghost w: World) returns (broke: seq<PlayerId>)
      requires Matches(w)
      ensures forall u :: u in broke <==> u in ids && StillBroke(w, u)
      ensures |broke| <= |ids|
    {
      broke := [];
      var k := 0;
      while k < |ids|
        invariant 0 <= k <= |ids| && |broke| <= k
        invariant forall u :: u in broke <==> u in ids[..k] && StillBroke(w, u)
      {
        assert ids[..k + 1] == ids[..k] + [ids[k]];
        if stacks.Some? && ids[k] in stacks.value && stacks.value[ids[k]] <= 0 {
          broke := broke + [ids[k]];
        }
        k := k + 1;
      }
      assert ids[..|ids|] == ids;
    }
  }
}

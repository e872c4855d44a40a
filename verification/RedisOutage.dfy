/** The outage gate as the process holds it: event handlers that update its fields in place. */
module OutageGate {
  import opened TableTypes
  import opened Outage

  class RedisOutage {
    var phase: Phase
    var generation: nat
    var downSince: Option<int>
    var downWaiters: set<nat>
    var upWaiters: set<nat>
    ghost var called: multiset<nat>

    /** The gate these fields stand for. */
    ghost function AsGate(): Gate
      reads this
    {
      Gate(phase, generation, downSince, downWaiters, upWaiters, called)
    }

    constructor (ready: bool)
      ensures AsGate() == NewGate(ready)
    {
      phase := if ready then UP else BOOTING;
      generation := 0;
      downSince := None;
      downWaiters, upWaiters := {}, {};
      called := multiset{};
    }

    predicate IsUp()
      reads this
    {
      phase == UP
    }

    /** Calls every waiter of a copied set, whatever the others do. */
    method CallAll(waiters: set<nat>)
      modifies `called
      ensures called == old(called) + multiset(waiters)
    {
      var left := waiters;
      while left != {}
        invariant left <= waiters
        invariant called == old(called) + multiset(waiters - left)
        decreases |left|
      {
        var waiter :| waiter in left;
        assert waiters - (left - {waiter}) == (waiters - left) + {waiter};
        left := left - {waiter};
        called := called + multiset{waiter};
      }
      assert waiters - {} == waiters;
    }

    method ReleaseUpWaiters()
      modifies this
      ensures AsGate() == ReleaseUp(old(AsGate()))
    {
      var up := upWaiters;
      upWaiters := {};
      CallAll(up);
    }

    method Lost(now: int)
      modifies this
      ensures AsGate() == OnLost(old(AsGate()), now)
    {
      if phase == DOWN {
        return;
      }
      generation := generation + 1;
      if downSince.None? {
        downSince := Some(now);
      }
      phase := DOWN;
      var down := downWaiters;
      downWaiters := {};
      CallAll(down);
    }

    method Ready()
      modifies this
      ensures AsGate() == OnReady(old(AsGate()))
    {
      if phase == BOOTING {
        phase := UP;
        ReleaseUpWaiters();
        return;
      }
      if phase != DOWN {
        return;
      }
      phase := RECOVERING;
    }

    method Recovered()
      modifies this
      ensures AsGate() == MarkRecovered(old(AsGate()))
    {
      if phase != RECOVERING {
        return;
      }
      phase := UP;
      downSince := None;
      ReleaseUpWaiters();
    }

    method WaitForUp(waiter: nat)
      modifies this
      ensures AsGate() == WhenUp(old(AsGate()), waiter)
    {
      if IsUp() {
        called := called + multiset{waiter};
      } else {
        upWaiters := upWaiters + {waiter};
      }
    }

    method WaitForDown(waiter: nat)
      modifies this
      ensures AsGate() == OnceDown(old(AsGate()), waiter)
    {
      downWaiters := downWaiters + {waiter};
    }
  }
}

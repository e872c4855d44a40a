/** The closure of `batched`: its two variables, and the handlers that run between two waits of the loop. */
module BatchingLoaders {
  import opened Batched

  class BatchingLoader<K(!new), V(!new)> {
    var waiting: seq<Waiter<K>>
    var running: bool
    ghost var inFlight: seq<Load<K>>
    ghost var settled: seq<Settlement<K, V>>
    var tick: nat

    /** The loader these fields stand for. */
    ghost function AsLoader(): Loader<K, V>
      reads this
    {
      Loader(waiting, running, inFlight, settled, tick)
    }

    constructor ()
      ensures AsLoader() == New<K, V>()
    {
      waiting, running := [], false;
      inFlight, settled, tick := [], [], 0;
    }

    method Request(id: nat, key: K, ghost lookup: (K, nat) -> V)
      modifies this
      ensures AsLoader() == Step(old(AsLoader()), Ask(id, key), lookup)
    {
      tick := tick + 1;
      waiting := waiting + [Waiter(id, key, tick)];
      if !running {
        running := true;
        DrainOn();
      }
    }

    /** The condition and the first half of one turn of the loop, up to the call of `load`. */
    method DrainOn()
      modifies this
      ensures AsLoader() == Drain(old(AsLoader()))
    {
      if |waiting| > 0 {
        var batch := waiting;
        waiting := [];
        tick := tick + 1;
        inFlight := inFlight + [Load(batch, tick)];
      } else {
        running := false;
      }
    }

    /** The second half: the awaited load has ended with these values, or with an error. */
    method LoadEnds(ghost k: nat, batch: seq<Waiter<K>>, values: seq<V>, ok: bool, ghost lookup: (K, nat) -> V)
      requires k < |inFlight| && batch == inFlight[k].batch && values == Values(lookup, inFlight[k])
      modifies this
      ensures AsLoader() == Step(old(AsLoader()), Done(k, ok), lookup)
    {
      ghost var at := inFlight[k].startedAt;
      inFlight := inFlight[..k] + inFlight[k + 1..];
      ghost var before := settled;
      var i := 0;
      while i < |batch|
        invariant 0 <= i <= |batch|
        invariant waiting == old(waiting) && running == old(running) && tick == old(tick)
        invariant inFlight == old(inFlight)[..k] + old(inFlight)[k + 1..]
        invariant settled == before + Settle(batch, values, ok, at, i)
      {
        SettleOne(batch[i], if ok then Resolved(values[i]) else Rejected, at);
        assert before + Settle(batch, values, ok, at, i + 1)
            == before + Settle(batch, values, ok, at, i)
              + [Settlement(batch[i], if ok then Resolved(values[i]) else Rejected, at)];
        i := i + 1;
      }
      DrainOn();
    }

    /** `w.resolve(...)` or `w.reject(...)`. */
    method SettleOne(w: Waiter<K>, reply: Reply<V>, ghost at: nat)
      modifies `settled
      ensures settled == old(settled) + [Settlement(w, reply, at)]
    {
      settled := settled + [Settlement(w, reply, at)];
    }
  }
}

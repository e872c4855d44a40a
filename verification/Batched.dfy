/**
 * The batching loader: requests that arrive while a load is under way wait for the next one. `lookup`
 * is what a load that starts at a given moment answers for a key.
 */
module Batched {
  datatype Waiter<K> = Waiter(id: nat, key: K, askedAt: nat)

  datatype Load<K> = Load(batch: seq<Waiter<K>>, startedAt: nat)

  datatype Reply<V> = Resolved(value: V) | Rejected

  datatype Settlement<K, V> = Settlement(waiter: Waiter<K>, reply: Reply<V>, loadedAt: nat)

  /** The closure's variables, the loads under way, and all settlements so far. */
  datatype Loader<K, V> = Loader(
    waiting: seq<Waiter<K>>,
    running: bool,
    inFlight: seq<Load<K>>,
    settled: seq<Settlement<K, V>>,
    tick: nat)

  datatype Event<K> = Ask(id: nat, key: K) | Done(load: nat, ok: bool)

  function New<K, V>(): Loader<K, V> {
    Loader([], false, [], [], 0)
  }

  /** One turn of the loop in `drain`: everybody waiting goes into one load. */
  function StartLoad<K, V>(s: Loader<K, V>): Loader<K, V> {
    s.(waiting := [], inFlight := s.inFlight + [Load(s.waiting, s.tick + 1)], tick := s.tick + 1)
  }

  /** The condition of the loop: it goes on while somebody waits. */
  function Drain<K, V>(s: Loader<K, V>): Loader<K, V> {
    if |s.waiting| > 0 then StartLoad(s) else s.(running := false)
  }

  /** The values of one load, in the order of its keys. */
  function Values<K, V>(lookup: (K, nat) -> V, load: Load<K>): (r: seq<V>)
    ensures |r| == |load.batch|
  {
    seq(|load.batch|, i requires 0 <= i < |load.batch| => lookup(load.batch[i].key, load.startedAt))
  }

  /** `batch.forEach((w, i) => w.resolve(values[i]))`, or the same with a rejection. */
  function Settle<K, V>(batch: seq<Waiter<K>>, values: seq<V>, ok: bool, at: nat, n: nat): (r: seq<Settlement<K, V>>)
    requires n <= |batch| == |values|
    ensures |r| == n
  {
    if n == 0 then []
    else Settle(batch, values, ok, at, n - 1) +
         [Settlement(batch[n - 1], if ok then Resolved(values[n - 1]) else Rejected, at)]
  }

  /** The state in which a request has been pushed and nothing else has happened. */
  function Pushed<K, V>(s: Loader<K, V>, id: nat, key: K, running: bool): Loader<K, V> {
    s.(waiting := s.waiting + [Waiter(id, key, s.tick + 1)], tick := s.tick + 1, running := running)
  }

  function Step<K, V>(s: Loader<K, V>, e: Event<K>, lookup: (K, nat) -> V): Loader<K, V> {
    match e
    case Ask(id, key) =>
      if s.running then Pushed(s, id, key, true) else Drain(Pushed(s, id, key, true))
    case Done(k, ok) =>
      if k >= |s.inFlight| then s
      else
        var load := s.inFlight[k];
        Drain(s.(inFlight := s.inFlight[..k] + s.inFlight[k + 1..],
                 settled := s.settled + Settle(load.batch, Values(lookup, load), ok, load.startedAt, |load.batch|)))
  }

  function SettledIds<K, V>(settled: seq<Settlement<K, V>>): seq<nat> {
    seq(|settled|, i requires 0 <= i < |settled| => settled[i].waiter.id)
  }

  function WaiterIds<K>(ws: seq<Waiter<K>>): seq<nat> {
    seq(|ws|, i requires 0 <= i < |ws| => ws[i].id)
  }

  /** Every request ever made, wherever it now is: settled, in a load, or waiting. */
  function AllIds<K, V>(s: Loader<K, V>): multiset<nat> {
    multiset(SettledIds(s.settled)) + InFlightIds(s.inFlight) + multiset(WaiterIds(s.waiting))
  }

  function InFlightIds<K>(loads: seq<Load<K>>): multiset<nat> {
    if |loads| == 0 then multiset{}
    else InFlightIds(loads[..|loads| - 1]) + multiset(WaiterIds(loads[|loads| - 1].batch))
  }

  /** A settled request got the answer to its own key from a load that started after it was made. */
  ghost predicate FreshAnswer<K, V(!new)>(x: Settlement<K, V>, lookup: (K, nat) -> V) {
    && x.loadedAt > x.waiter.askedAt
    && (x.reply.Resolved? ==> x.reply.value == lookup(x.waiter.key, x.loadedAt))
  }

  ghost predicate LoadRight<K>(load: Load<K>, tick: nat) {
    && load.startedAt <= tick && |load.batch| > 0
    && forall i :: 0 <= i < |load.batch| ==> load.batch[i].askedAt < load.startedAt
  }

  ghost predicate LoaderInv<K(!new), V(!new)>(s: Loader<K, V>, lookup: (K, nat) -> V) {
    && |s.inFlight| == (if s.running then 1 else 0)
    && (!s.running ==> s.waiting == [])
    && (s.running ==> LoadRight(s.inFlight[0], s.tick))
    && (forall i :: 0 <= i < |s.waiting| ==> s.waiting[i].askedAt <= s.tick)
    && (forall i :: 0 <= i < |s.settled| ==> FreshAnswer(s.settled[i], lookup))
  }

  lemma {:induction false} SettleAt<K, V>(batch: seq<Waiter<K>>, values: seq<V>, ok: bool, at: nat, n: nat, i: nat)
    requires i < n <= |batch| == |values|
    ensures Settle(batch, values, ok, at, n)[i] ==
            Settlement(batch[i], if ok then Resolved(values[i]) else Rejected, at)
    decreases n
  {
    if i < n - 1 {
      SettleAt(batch, values, ok, at, n - 1, i);
    }
  }

  lemma SettledFresh<K(!new), V(!new)>(load: Load<K>, lookup: (K, nat) -> V, ok: bool, tick: nat)
    requires LoadRight(load, tick)
    ensures forall x :: x in Settle(load.batch, Values(lookup, load), ok, load.startedAt, |load.batch|) ==>
            FreshAnswer(x, lookup)
  {
    var r := Settle(load.batch, Values(lookup, load), ok, load.startedAt, |load.batch|);
    forall i | 0 <= i < |r| ensures FreshAnswer(r[i], lookup) {
      SettleAt(load.batch, Values(lookup, load), ok, load.startedAt, |load.batch|, i);
    }
  }

  /** Every event keeps one load at a time, and every answer fresh. */
  lemma StepKeepsLoader<K(!new), V(!new)>(s: Loader<K, V>, e: Event<K>, lookup: (K, nat) -> V)
    requires LoaderInv(s, lookup)
    ensures LoaderInv(Step(s, e, lookup), lookup)
  {
    if e.Done? && e.load < |s.inFlight| {
      SettledFresh(s.inFlight[0], lookup, e.ok, s.tick);
      var r := Step(s, e, lookup);
      var answers :=
        Settle(s.inFlight[0].batch, Values(lookup, s.inFlight[0]), e.ok, s.inFlight[0].startedAt,
          |s.inFlight[0].batch|);
      forall i | 0 <= i < |r.settled| ensures FreshAnswer(r.settled[i], lookup) {
        if i >= |s.settled| {
          assert r.settled[i] == answers[i - |s.settled|];
        }
      }
    }
  }

  lemma IdsConcat<K>(a: seq<Waiter<K>>, b: seq<Waiter<K>>)
    ensures multiset(WaiterIds(a + b)) == multiset(WaiterIds(a)) + multiset(WaiterIds(b))
  {
    assert WaiterIds(a + b) == WaiterIds(a) + WaiterIds(b);
  }

  lemma SettledIdsConcat<K, V>(a: seq<Settlement<K, V>>, b: seq<Settlement<K, V>>)
    ensures multiset(SettledIds(a + b)) == multiset(SettledIds(a)) + multiset(SettledIds(b))
  {
    assert SettledIds(a + b) == SettledIds(a) + SettledIds(b);
  }

  lemma SettleIds<K, V>(batch: seq<Waiter<K>>, values: seq<V>, ok: bool, at: nat)
    requires |batch| == |values|
    ensures SettledIds(Settle(batch, values, ok, at, |batch|)) == WaiterIds(batch)
  {
    forall i | 0 <= i < |batch| ensures Settle(batch, values, ok, at, |batch|)[i].waiter.id == batch[i].id {
      SettleAt(batch, values, ok, at, |batch|, i);
    }
  }

  lemma OneLoadIds<K>(load: Load<K>)
    ensures InFlightIds([load]) == multiset(WaiterIds(load.batch))
  {
    assert [load][..0] == [];
  }

  lemma DrainKeepsIds<K, V>(s: Loader<K, V>)
    requires s.inFlight == []
    ensures AllIds(Drain(s)) == AllIds(s)
  {
    OneLoadIds(Load(s.waiting, s.tick + 1));
    assert [] + [Load(s.waiting, s.tick + 1)] == [Load(s.waiting, s.tick + 1)];
  }

  lemma PushedIds<K, V>(s: Loader<K, V>, id: nat, key: K, running: bool)
    ensures AllIds(Pushed(s, id, key, running)) == AllIds(s) + multiset{id}
  {
    var waiter := Waiter(id, key, s.tick + 1);
    IdsConcat(s.waiting, [waiter]);
    assert WaiterIds([waiter]) == [id];
  }

  lemma AskKeepsIds<K(!new), V(!new)>(s: Loader<K, V>, id: nat, key: K, lookup: (K, nat) -> V)
    requires LoaderInv(s, lookup)
    ensures AllIds(Step(s, Ask(id, key), lookup)) == AllIds(s) + multiset{id}
  {
    PushedIds(s, id, key, true);
    if !s.running {
      DrainKeepsIds(Pushed(s, id, key, true));
    }
  }

  lemma LoadKeepsIds<K(!new), V(!new)>(s: Loader<K, V>, load: Load<K>, ok: bool, lookup: (K, nat) -> V)
    requires s.inFlight == [load]
    ensures var settled := Settle(load.batch, Values(lookup, load), ok, load.startedAt, |load.batch|);
            AllIds(s.(inFlight := [], settled := s.settled + settled)) == AllIds(s)
  {
    OneLoadIds(load);
    SettleIds(load.batch, Values(lookup, load), ok, load.startedAt);
    SettledIdsConcat(s.settled, Settle(load.batch, Values(lookup, load), ok, load.startedAt, |load.batch|));
  }

  /** No request is lost and none is duplicated: an ask adds itself once, and the end of a load adds nothing. */
  lemma StepKeepsIds<K(!new), V(!new)>(s: Loader<K, V>, e: Event<K>, lookup: (K, nat) -> V)
    requires LoaderInv(s, lookup)
    ensures AllIds(Step(s, e, lookup)) == AllIds(s) + if e.Ask? then multiset{e.id} else multiset{}
  {
    if e.Ask? {
      AskKeepsIds(s, e.id, e.key, lookup);
    } else if e.load < |s.inFlight| {
      var load := s.inFlight[0];
      assert s.inFlight == [load];
      LoadKeepsIds(s, load, e.ok, lookup);
      assert s.inFlight[..0] + s.inFlight[1..] == [];
      var answers := Settle(load.batch, Values(lookup, load), e.ok, load.startedAt, |load.batch|);
      DrainKeepsIds(s.(inFlight := [], settled := s.settled + answers));
    }
  }

  function Run<K, V>(s: Loader<K, V>, events: seq<Event<K>>, lookup: (K, nat) -> V): Loader<K, V> {
    if |events| == 0 then s else Step(Run(s, events[..|events| - 1], lookup), events[|events| - 1], lookup)
  }

  /** The requests made in a run, each as often as it was made. */
  function Asked<K>(events: seq<Event<K>>): multiset<nat> {
    if |events| == 0 then multiset{}
    else Asked(events[..|events| - 1]) +
         if events[|events| - 1].Ask? then multiset{events[|events| - 1].id} else multiset{}
  }

  /**
   * Whatever arrives while whatever loads: at most one load runs; every request is waiting, in that
   * load, or settled, in exactly one of these places and once; every settled one got the answer to its
   * own key from a load that started after it; and when nothing runs, everything has been settled.
   */
  lemma {:induction false} EveryRequestOnce<K(!new), V(!new)>(events: seq<Event<K>>, lookup: (K, nat) -> V)
    ensures var s := Run(New<K, V>(), events, lookup);
            && LoaderInv(s, lookup)
            && |s.inFlight| <= 1
            && AllIds(s) == Asked(events)
            && (!s.running ==> multiset(SettledIds(s.settled)) == Asked(events))
  {
    if |events| == 0 {
      assert SettledIds(New<K, V>().settled) == [] && WaiterIds(New<K, V>().waiting) == [];
    } else {
      var front := events[..|events| - 1];
      EveryRequestOnce<K, V>(front, lookup);
      StepKeepsLoader(Run(New<K, V>(), front, lookup), events[|events| - 1], lookup);
      StepKeepsIds(Run(New<K, V>(), front, lookup), events[|events| - 1], lookup);
      var s := Run(New<K, V>(), events, lookup);
      if !s.running {
        assert s.inFlight == [] && WaiterIds(s.waiting) == [];
      }
    }
  }

  function LoadsDone<K>(events: seq<Event<K>>): nat {
    if |events| == 0 then 0
    else
      LoadsDone(events[..|events| - 1])
      + if events[|events| - 1].Done? && events[|events| - 1].load == 0 then 1 else 0
  }

  /** How many loads have to end before the request is settled. */
  ghost predicate SettledWithin<K, V(!new)>(s: Loader<K, V>, id: nat, loads: int) {
    || id in SettledIds(s.settled)
    || (loads >= 1 && s.running && |s.inFlight| == 1 && id in WaiterIds(s.inFlight[0].batch))
    || (loads >= 2 && s.running && |s.inFlight| == 1 && id in WaiterIds(s.waiting))
  }

  lemma StepBringsCloser<K(!new), V(!new)>(s: Loader<K, V>, e: Event<K>, lookup: (K, nat) -> V, id: nat, loads: int)
    requires LoaderInv(s, lookup) && SettledWithin(s, id, loads)
    ensures SettledWithin(Step(s, e, lookup), id, loads - if e.Done? && e.load == 0 then 1 else 0)
  {
    var r := Step(s, e, lookup);
    if e.Ask? {
      var waiter := Waiter(e.id, e.key, s.tick + 1);
      assert WaiterIds(s.waiting + [waiter]) == WaiterIds(s.waiting) + [e.id];
    } else if e.load < |s.inFlight| {
      var load := s.inFlight[0];
      var settled := Settle(load.batch, Values(lookup, load), e.ok, load.startedAt, |load.batch|);
      SettleIds(load.batch, Values(lookup, load), e.ok, load.startedAt);
      assert SettledIds(s.settled + settled) == SettledIds(s.settled) + SettledIds(settled);
      assert s.inFlight[..0] + s.inFlight[1..] == [];
    }
  }

  /** Nobody waits long: a request is settled by the end of the load under way and the one after it. */
  lemma {:induction false} TwoLoadsAtMost<K(!new), V(!new)>(
    s: Loader<K, V>, id: nat, key: K, events: seq<Event<K>>, lookup: (K, nat) -> V)
    requires LoaderInv(s, lookup)
    ensures var r := Run(Step(s, Ask(id, key), lookup), events, lookup);
            && LoaderInv(r, lookup)
            && SettledWithin(r, id, 2 - LoadsDone(events))
            && (LoadsDone(events) >= 2 ==> id in SettledIds(r.settled))
  {
    if |events| == 0 {
      StepKeepsLoader(s, Ask(id, key), lookup);
      var waiter := Waiter(id, key, s.tick + 1);
      assert WaiterIds(s.waiting + [waiter]) == WaiterIds(s.waiting) + [id];
    } else {
      var front := events[..|events| - 1];
      TwoLoadsAtMost(s, id, key, front, lookup);
      var before := Run(Step(s, Ask(id, key), lookup), front, lookup);
      StepKeepsLoader(before, events[|events| - 1], lookup);
      StepBringsCloser(before, events[|events| - 1], lookup, id, 2 - LoadsDone(front));
    }
  }

  /**
   * The end of a load answers exactly the requests of its batch, in their order: each with the value its own
   * key had when the load started, or every one of them with a rejection if the load failed.
   */
  lemma LoadAnswersItsBatch<K(!new), V(!new)>(s: Loader<K, V>, ok: bool, lookup: (K, nat) -> V, i: nat)
    requires LoaderInv(s, lookup) && s.running && i < |s.inFlight[0].batch|
    ensures var r, load := Step(s, Done(0, ok), lookup), s.inFlight[0];
            && |r.settled| == |s.settled| + |load.batch| && r.settled[..|s.settled|] == s.settled
            && r.settled[|s.settled| + i] ==
               Settlement(load.batch[i],
                          if ok then Resolved(lookup(load.batch[i].key, load.startedAt)) else Rejected,
                          load.startedAt)
  {
    var load := s.inFlight[0];
    SettleAt(load.batch, Values(lookup, load), ok, load.startedAt, |load.batch|, i);
  }

  /** The next load takes everybody who waits, in the order of asking, and starts at once. */
  lemma NextLoadTakesAll<K(!new), V(!new)>(s: Loader<K, V>, ok: bool, lookup: (K, nat) -> V)
    requires LoaderInv(s, lookup) && s.running
    ensures var r := Step(s, Done(0, ok), lookup);
            && r.waiting == [] && (r.running <==> s.waiting != [])
            && (s.waiting != [] ==> r.inFlight == [Load(s.waiting, s.tick + 1)])
  {
  }

  /** A request starts a load of its own exactly when none is running; otherwise it is the last to wait. */
  lemma RequestIsQueued<K(!new), V(!new)>(s: Loader<K, V>, id: nat, key: K, lookup: (K, nat) -> V)
    requires LoaderInv(s, lookup)
    ensures var r, waiter := Step(s, Ask(id, key), lookup), Waiter(id, key, s.tick + 1);
            && r.running && r.settled == s.settled
            && (if s.running then r.waiting == s.waiting + [waiter] && r.inFlight == s.inFlight
                else r.waiting == [] && r.inFlight == [Load([waiter], s.tick + 2)])
  {
    var waiter := Waiter(id, key, s.tick + 1);
    if !s.running {
      assert s.waiting + [waiter] == [waiter];
      assert s.inFlight + [Load([waiter], s.tick + 2)] == [Load([waiter], s.tick + 2)];
    }
  }
}

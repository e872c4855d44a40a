/** The Redis outage gate: its phases, its generation, and those who wait for the next loss or recovery. */
module Outage {
  import opened TableTypes

  datatype Phase = BOOTING | UP | DOWN | RECOVERING

  /** `called` counts, for every waiter, how often it has been called back. */
  datatype Gate = Gate(
    phase: Phase,
    generation: nat,
    downSince: Option<int>,
    downWaiters: set<nat>,
    upWaiters: set<nat>,
    called: multiset<nat>)

  function NewGate(ready: bool): Gate {
    Gate(if ready then UP else BOOTING, 0, None, {}, {}, multiset{})
  }

  /** `releaseUpWaiters`. */
  function ReleaseUp(g: Gate): Gate {
    g.(upWaiters := {}, called := g.called + multiset(g.upWaiters))
  }

  /** `onLost`: further losses while down are not counted, and a loss while recovering keeps the first time. */
  function OnLost(g: Gate, now: int): Gate {
    if g.phase == DOWN then g
    else g.(phase := DOWN, generation := g.generation + 1,
            downSince := if g.downSince.None? then Some(now) else g.downSince,
            downWaiters := {}, called := g.called + multiset(g.downWaiters))
  }

  /** `onReady`: the first connection of the process is up at once, any other one has to recover first. */
  function OnReady(g: Gate): Gate {
    if g.phase == BOOTING then ReleaseUp(g.(phase := UP))
    else if g.phase == DOWN then g.(phase := RECOVERING)
    else g
  }

  /** `markRecovered`. */
  function MarkRecovered(g: Gate): Gate {
    if g.phase != RECOVERING then g else ReleaseUp(g.(phase := UP, downSince := None))
  }

  function WhenUp(g: Gate, waiter: nat): Gate {
    if g.phase == UP then g.(called := g.called + multiset{waiter}) else g.(upWaiters := g.upWaiters + {waiter})
  }

  function OnceDown(g: Gate, waiter: nat): Gate {
    g.(downWaiters := g.downWaiters + {waiter})
  }

  function Unsubscribe(g: Gate, waiter: nat): Gate {
    g.(downWaiters := g.downWaiters - {waiter})
  }

  /** A run of `recoverFromOutage`: the generation it saw when it began, and when that was. */
  datatype Sweep = Sweep(generation: nat, begun: nat)

  /**
   * The gate with its surroundings: the sweeps under way, all losses since the gate was last up, and a
   * count of the events so far, by which `lastLoss` dates the last loss of all.
   */
  datatype World = World(
    gate: Gate,
    sweeps: set<Sweep>,
    lossesSinceUp: seq<int>,
    lastLoss: nat,
    tick: nat,
    askedUp: set<nat>,
    askedDown: set<nat>,
    cancelled: set<nat>)

  datatype Event =
    | Lost(now: int)
    | Ready
    | SweepBegins
    | SweepEnds(sweep: Sweep)
    | AskUp(upWaiter: nat)
    | AskDown(downWaiter: nat)
    | Cancel(cancelled: nat)

  /** The end of `recoverFromOutage`: a sweep of an older generation does not open the gate. */
  function EndSweep(g: Gate, s: Sweep): Gate {
    if g.generation == s.generation then MarkRecovered(g) else g
  }

  function After(w: World, g: Gate): World {
    w.(gate := g, tick := w.tick + 1, lossesSinceUp := if g.phase == UP then [] else w.lossesSinceUp)
  }

  function Step(w: World, e: Event): World {
    match e
    case Lost(now) => After(w.(lossesSinceUp := w.lossesSinceUp + [now], lastLoss := w.tick + 1), OnLost(w.gate, now))
    case Ready => After(w, OnReady(w.gate))
    case SweepBegins =>
      if w.gate.phase != RECOVERING then w
      else After(w.(sweeps := w.sweeps + {Sweep(w.gate.generation, w.tick + 1)}), w.gate)
    case SweepEnds(s) =>
      if s !in w.sweeps then w else After(w.(sweeps := w.sweeps - {s}), EndSweep(w.gate, s))
    case AskUp(waiter) => After(w.(askedUp := w.askedUp + {waiter}), WhenUp(w.gate, waiter))
    case AskDown(waiter) => After(w.(askedDown := w.askedDown + {waiter}), OnceDown(w.gate, waiter))
    case Cancel(waiter) => After(w.(cancelled := w.cancelled + {waiter}), Unsubscribe(w.gate, waiter))
  }

  /** Every waiter is a new one, and only those who wait for a loss can cancel. */
  predicate Possible(w: World, e: Event) {
    && (e.Cancel? ==> e.cancelled in w.askedDown)
    && (e.AskUp? ==> e.upWaiter !in w.askedUp + w.askedDown)
    && (e.AskDown? ==> e.downWaiter !in w.askedUp + w.askedDown)
  }

  ghost predicate WaitersRight(w: World) {
    && w.gate.upWaiters <= w.askedUp && w.gate.downWaiters <= w.askedDown && w.askedUp !! w.askedDown
    && (forall x :: x in w.askedUp ==> w.gate.called[x] == if x in w.gate.upWaiters then 0 else 1)
    && (forall x :: x in w.askedDown ==> w.gate.called[x] + (if x in w.gate.downWaiters then 1 else 0) <= 1)
    && (forall x :: x in w.askedDown - w.cancelled ==>
          w.gate.called[x] + (if x in w.gate.downWaiters then 1 else 0) == 1)
    && (forall x :: x !in w.askedUp + w.askedDown ==> w.gate.called[x] == 0)
  }

  /** `downSince` is the first loss since the gate was last up. */
  ghost predicate DownSinceRight(w: World) {
    && (w.gate.phase == UP || w.gate.phase == BOOTING ==> w.lossesSinceUp == [])
    && (w.gate.phase == DOWN || w.gate.phase == RECOVERING ==> w.lossesSinceUp != [])
    && w.gate.downSince == if w.lossesSinceUp == [] then None else Some(w.lossesSinceUp[0])
  }

  /** A sweep of the present generation began after the last loss, while the gate was recovering. */
  ghost predicate SweepsRight(w: World) {
    && w.lastLoss <= w.tick
    && forall s :: s in w.sweeps ==>
         s.generation <= w.gate.generation
         && (s.generation == w.gate.generation ==> w.gate.phase != DOWN && s.begun > w.lastLoss)
  }

  ghost predicate GateInv(w: World) {
    && WaitersRight(w)
    && DownSinceRight(w)
    && SweepsRight(w)
    && (w.gate.phase == UP ==> w.gate.upWaiters == {})
  }

  lemma StepKeepsGate(w: World, e: Event)
    requires GateInv(w) && Possible(w, e)
    ensures GateInv(Step(w, e))
  {
  }

  /**
   * The gate opens in two ways only: on the very first connection, when nothing has been lost, or at the
   * end of a sweep that began after the last loss.
   */
  lemma OpensOnlyAfterAFreshSweep(w: World, e: Event)
    requires GateInv(w) && Possible(w, e)
    requires w.gate.phase != UP && Step(w, e).gate.phase == UP
    ensures (e == Ready && w.gate.phase == BOOTING && w.lossesSinceUp == [])
         || (e.SweepEnds? && w.gate.phase == RECOVERING && e.sweep in w.sweeps && e.sweep.begun > w.lastLoss)
  {
  }

  function Run(w: World, events: seq<Event>): World {
    if |events| == 0 then w else Step(Run(w, events[..|events| - 1]), events[|events| - 1])
  }

  ghost predicate PossibleRun(w: World, events: seq<Event>) {
    |events| == 0
    || (PossibleRun(w, events[..|events| - 1]) && Possible(Run(w, events[..|events| - 1]), events[|events| - 1]))
  }

  function NewWorld(ready: bool): World {
    World(NewGate(ready), {}, [], 0, 0, {}, {}, {})
  }

  lemma {:induction false} RunKeepsGate(ready: bool, events: seq<Event>)
    requires PossibleRun(NewWorld(ready), events)
    ensures GateInv(Run(NewWorld(ready), events))
  {
    if |events| > 0 {
      RunKeepsGate(ready, events[..|events| - 1]);
      StepKeepsGate(Run(NewWorld(ready), events[..|events| - 1]), events[|events| - 1]);
    }
  }

  /**
   * Over any sequence of losses, connections and sweeps: while the gate is up nobody is left waiting for
   * it, everybody who asked has been called exactly once, and nobody is ever called twice.
   */
  lemma NobodyIsStranded(ready: bool, events: seq<Event>, waiter: nat)
    requires PossibleRun(NewWorld(ready), events)
    ensures var w := Run(NewWorld(ready), events);
            && w.gate.called[waiter] <= 1
            && (w.gate.phase == UP && waiter in w.askedUp ==> w.gate.called[waiter] == 1)
            && (w.gate.phase == UP ==> w.gate.downSince.None?)
            && (w.gate.downSince.Some? ==> w.lossesSinceUp != [] && w.gate.downSince == Some(w.lossesSinceUp[0]))
  {
    RunKeepsGate(ready, events);
  }

  lemma NoSweepNoOpening(w: World, e: Event)
    requires GateInv(w) && Possible(w, e) && w.gate.phase != BOOTING && w.gate.phase != UP && !e.SweepEnds?
    ensures Step(w, e).gate.phase != BOOTING && Step(w, e).gate.phase != UP
  {
  }

  lemma LastOfRun(w: World, events: seq<Event>, more: seq<Event>)
    requires |more| > 0 && PossibleRun(w, events + more)
    ensures var front := events + more[..|more| - 1];
            && PossibleRun(w, front) && Possible(Run(w, front), more[|more| - 1])
            && Run(w, events + more) == Step(Run(w, front), more[|more| - 1])
  {
    assert (events + more)[..|events + more| - 1] == events + more[..|more| - 1];
  }

  /** Without a sweep that ends, no sequence of connections and losses opens a gate that has lost once. */
  lemma {:induction false} ClosedWithoutASweep(ready: bool, events: seq<Event>, more: seq<Event>)
    requires PossibleRun(NewWorld(ready), events + more)
    requires Run(NewWorld(ready), events).gate.phase == DOWN
    requires forall k :: 0 <= k < |more| ==> !more[k].SweepEnds?
    ensures var phase := Run(NewWorld(ready), events + more).gate.phase;
            phase == DOWN || phase == RECOVERING
    decreases |more|
  {
    if |more| == 0 {
      assert events + more == events;
    } else {
      var n := |more| - 1;
      LastOfRun(NewWorld(ready), events, more);
      ClosedWithoutASweep(ready, events, more[..n]);
      RunKeepsGate(ready, events + more[..n]);
      NoSweepNoOpening(Run(NewWorld(ready), events + more[..n]), more[n]);
    }
  }

  /**
   * A loss closes the gate whatever its state. The first one of an outage starts a new generation and calls
   * everybody who has ever asked to hear of it and not cancelled; nobody who waits for the gate is called.
   */
  lemma LossIsHeard(ready: bool, events: seq<Event>, now: int, waiter: nat)
    requires PossibleRun(NewWorld(ready), events)
    ensures var w := Run(NewWorld(ready), events);
            var r := Step(w, Lost(now));
            && r.gate.phase == DOWN
            && r.gate.generation == w.gate.generation + (if w.gate.phase == DOWN then 0 else 1)
            && (w.gate.phase != DOWN && waiter in w.askedDown - w.cancelled ==> r.gate.called[waiter] == 1)
            && (waiter in w.askedUp ==> r.gate.called[waiter] == w.gate.called[waiter])
            && (r.gate.downSince == if w.lossesSinceUp == [] then Some(now) else Some(w.lossesSinceUp[0]))
  {
    RunKeepsGate(ready, events);
  }

  /** Over any run: whoever asked to hear of a loss and has not cancelled has been called once or still waits. */
  lemma NobodyMissesALoss(ready: bool, events: seq<Event>, waiter: nat)
    requires PossibleRun(NewWorld(ready), events) && waiter in Run(NewWorld(ready), events).askedDown
    requires waiter !in Run(NewWorld(ready), events).cancelled
    ensures var g := Run(NewWorld(ready), events).gate;
            (g.called[waiter] == 1 && waiter !in g.downWaiters) || (g.called[waiter] == 0 && waiter in g.downWaiters)
  {
    RunKeepsGate(ready, events);
  }

  /** A connection never leaves the gate down: it opens a new gate, and any other one starts to recover. */
  lemma ConnectionRecovers(w: World)
    requires GateInv(w)
    ensures var r := Step(w, Ready);
            && (r.gate.phase == UP <==> w.gate.phase == UP || w.gate.phase == BOOTING)
            && (r.gate.phase == RECOVERING <==> w.gate.phase == DOWN || w.gate.phase == RECOVERING)
            && r.gate.generation == w.gate.generation && r.gate.downSince == w.gate.downSince
  {
  }

  /**
   * The way out of every outage: after a connection, a sweep that runs through without another loss opens
   * the gate, and everybody who waits for it is called.
   */
  lemma RecoveryOpensTheGate(w: World, waiter: nat)
    requires GateInv(w) && w.gate.phase == DOWN
    ensures var ready := Step(w, Ready);
            var sweeping := Step(ready, SweepBegins);
            var end := Step(sweeping, SweepEnds(Sweep(w.gate.generation, ready.tick + 1)));
            && end.gate.phase == UP && end.gate.downSince.None? && end.lossesSinceUp == []
            && end.gate.generation == w.gate.generation
            && (waiter in w.askedUp ==> end.gate.called[waiter] == 1)
  {
    ConnectionRecovers(w);
    StepKeepsGate(w, Ready);
    var ready := Step(w, Ready);
    StepKeepsGate(ready, SweepBegins);
    var sweeping := Step(ready, SweepBegins);
    StepKeepsGate(sweeping, SweepEnds(Sweep(w.gate.generation, ready.tick + 1)));
  }

  /**
   * Whoever waits for the gate is called at the moment it is up and at no other: at once if it is up when
   * asked, else by the event that brings it up.
   */
  lemma CalledExactlyWhenUp(w: World, e: Event, waiter: nat)
    requires GateInv(w) && Possible(w, e) && waiter in Step(w, e).askedUp && w.gate.called[waiter] == 0
    ensures Step(w, e).gate.called[waiter] == (if Step(w, e).gate.phase == UP then 1 else 0)
  {
    StepKeepsGate(w, e);
  }

  /** Asking to hear of the next loss calls nobody, and cancelling keeps exactly that waiter from being called. */
  lemma AskingCallsNobody(w: World, waiter: nat)
    ensures Step(w, AskDown(waiter)).gate == w.gate.(downWaiters := w.gate.downWaiters + {waiter})
    ensures Step(w, Cancel(waiter)).gate == w.gate.(downWaiters := w.gate.downWaiters - {waiter})
  {
  }

  /** A process that starts unconnected is not up before it connects, whatever it has lost and whoever asks. */
  lemma {:induction false} NotUpBeforeConnecting(events: seq<Event>)
    requires PossibleRun(NewWorld(false), events)
    requires forall k :: 0 <= k < |events| ==> events[k] != Ready
    ensures Run(NewWorld(false), events).gate.phase == BOOTING || Run(NewWorld(false), events).gate.phase == DOWN
    ensures Run(NewWorld(false), events).sweeps == {}
    ensures Run(NewWorld(true), []).gate.phase == UP
  {
    if |events| > 0 {
      NotUpBeforeConnecting(events[..|events| - 1]);
    }
  }
}

/**
 * When a waiting turn has its timer. A delivery carried out while a gate is closed takes the job with it,
 * and nothing but a sweep or the next action makes up for it.
 */
module TimerLoss {
  import opened TableTypes
  import opened TurnOrder
  import opened TurnTimer
  import opened TimerRuns
  import opened TimerSafety
  import T = TableRuns

  /** Of all the jobs in the queue exactly one can still act on this turn: the one of the current epoch. */
  ghost predicate OneTimer(w: World)
    requires Shape(w.table)
  {
    exists e :: e in w.jobs && e in w.issued
             && FiresNow(w, w.issued[e], e, w.generation)
             && forall f :: f in w.jobs && f in w.issued && FiresNow(w, w.issued[f], f, w.generation) ==> f == e
  }

  /** While nothing is closed, that is whether the job of the current epoch is in the queue. */
  lemma OneTimerIff(w: World)
    requires TimerInv(w) && Waiting(w.table) && w.up && !w.lineDown
    ensures OneTimer(w) <==> w.table.timerEpoch in w.jobs
  {
    var epoch := w.table.timerEpoch;
    if epoch in w.jobs {
      assert FiresNow(w, w.issued[epoch], epoch, w.generation);
    }
  }

  /**
   * A delivery of this epoch's job ends without acting: the processor finds the outage gate closed, or
   * the delivery meets an outage since it was picked up, a lost line, or a pause.
   */
  ghost predicate Consumes(w: World, e: Event, epoch: nat)
    requires Shape(w.table)
  {
    || (e.Pick? && e.epoch == epoch && e.dealerConfirmed && !w.up)
    || (e.Fire? && e.job == epoch
        && (!w.up || e.sawGeneration != w.generation || w.lineDown || w.table.resumePending.Some?))
  }

  ghost predicate NoneConsumes(w: World, events: seq<Event>, epoch: nat)
    requires TimerInv(w) && PossibleRun(w, events)
    decreases |events|
  {
    |events| == 0
    || (&& !Consumes(w, events[0], epoch)
        && (StepKeepsTimer(w, events[0]); NoneConsumes(Step(w, events[0]), events[1..], epoch)))
  }

  /** What a delivery does to the job of the waiting turn. */
  lemma FireTakesItsJob(w: World, job: nat, seen: nat, removed: bool)
    requires TimerInv(w) && Waiting(w.table) && (job, seen) in w.deliveries
    ensures var r := FireJob(w, job, seen, removed).world;
            && (r.table.timerEpoch == w.table.timerEpoch ==> r == w.(jobs := w.jobs - {job}))
            && (r.table.timerEpoch == w.table.timerEpoch && job == w.table.timerEpoch <==>
                  Consumes(w, Fire(job, seen, removed), w.table.timerEpoch))
  {
    ActionReschedules(w, w.issued[job], TIME_OUT, None, Some(job), seen, removed);
    TimeoutActsIff(w, w.issued[job], job, seen, removed);
    assert BettingPhase(w.table.phase);
  }

  lemma PickTakesItsJob(w: World, epoch: nat, confirmed: bool)
    requires TimerInv(w) && Waiting(w.table) && epoch in w.jobs
    ensures var r := PickJob(w, epoch, confirmed);
            && r.table == w.table
            && (w.table.timerEpoch in r.jobs <==>
                  w.table.timerEpoch in w.jobs && !Consumes(w, Pick(epoch, confirmed), w.table.timerEpoch))
  {
    assert epoch == w.table.timerEpoch ==> StillWanted(w, epoch);
  }

  /** The table is the same, or it is scheduled anew and the new job is in the queue. */
  ghost predicate OldOrFresh(w: World, r: World)
    requires Shape(w.table) && Shape(r.table)
  {
    || r.table.timerEpoch == w.table.timerEpoch
    || (r.table.timerEpoch > w.table.timerEpoch && (Waiting(r.table) ==> r.table.timerEpoch in r.jobs))
  }

  /** A turn that waits after a step waited before it, unless the step has scheduled it anew. */
  ghost predicate WaitsOn(w: World, e: Event, r: World)
    requires Shape(w.table) && Shape(r.table)
  {
    && OldOrFresh(w, r)
    && (r.table.timerEpoch == w.table.timerEpoch && Waiting(r.table) ==> Waiting(w.table))
    && (r.table.timerEpoch == w.table.timerEpoch && Waiting(w.table) ==>
          (w.table.timerEpoch in r.jobs <==>
             w.table.timerEpoch in w.jobs && !Consumes(w, e, w.table.timerEpoch)))
  }

  lemma FireWaitsOn(w: World, job: nat, seen: nat, removed: bool)
    requires TimerInv(w) && (job, seen) in w.deliveries
    requires Shape(FireJob(w, job, seen, removed).world.table)
    ensures WaitsOn(w, Fire(job, seen, removed), FireJob(w, job, seen, removed).world)
  {
    ActionReschedules(w, w.issued[job], TIME_OUT, None, Some(job), seen, removed);
    assert job <= w.table.timerEpoch;
    if Waiting(w.table) {
      FireTakesItsJob(w, job, seen, removed);
    }
  }

  lemma SweepWaitsOn(w: World, generation: Option<nat>, overwrite: bool, downMs: int, line: bool)
    requires TimerInv(w)
    requires Shape(Step(w, Sweep(generation, overwrite, downMs, line)).table)
    ensures WaitsOn(w, Sweep(generation, overwrite, downMs, line), Step(w, Sweep(generation, overwrite, downMs, line)))
  {
    PauseTableIs(w, generation, overwrite, downMs, line);
  }

  lemma StepWaitsOn(w: World, e: Event)
    requires TimerInv(w) && Possible(w, e)
    ensures TimerInv(Step(w, e)) && WaitsOn(w, e, Step(w, e))
  {
    StepKeepsTimer(w, e);
    match e
    case Player(user, action, amount, seen, removed) => ActionReschedules(w, user, action, amount, None, seen, removed);
    case Pick(epoch, confirmed) =>
      if Waiting(w.table) {
        PickTakesItsJob(w, epoch, confirmed);
      }
    case Fire(job, seen, removed) => FireWaitsOn(w, job, seen, removed);
    case Dealer(target, kick, removed) => DealerReschedules(w, target, kick, removed);
    case Deal(smallBlind, ante, removed) => DealReschedules(w, smallBlind, ante, removed);
    case AtTable(event) => BetweenKeepsTurn(w.table, event);
    case Interrupted(_) =>
    case Sweep(generation, overwrite, downMs, line) => SweepWaitsOn(w, generation, overwrite, downMs, line);
    case Resume(removed) => ResumeReschedules(w, removed);
    case Lost =>
    case Recovered =>
    case LineLost =>
    case LineBack =>
    case Tick(_) =>
  }

  /** A turn that waits at the end with the epoch of the beginning has waited all along. */
  lemma {:induction false} WaitedAllAlong(w: World, events: seq<Event>)
    requires TimerInv(w) && PossibleRun(w, events)
    requires Waiting(Run(w, events).table) && Run(w, events).table.timerEpoch == w.table.timerEpoch
    ensures Waiting(w.table)
    decreases |events|
  {
    if |events| > 0 {
      StepWaitsOn(w, events[0]);
      RunEpochNeverFalls(Step(w, events[0]), events[1..]);
      WaitedAllAlong(Step(w, events[0]), events[1..]);
    }
  }

  /** What is true of a table that waits with its job, of a paused one, and of one between hands. */
  ghost predicate JobHeld(w: World)
    requires Shape(w.table)
  {
    Waiting(w.table) ==> w.table.timerEpoch in w.jobs
  }

  /** The job of this epoch is not missing yet: it is in the queue, or the epoch is still to come. */
  ghost predicate NotMissing(w: World, epoch: nat) {
    w.table.timerEpoch == epoch ==> epoch in w.jobs
  }

  lemma StepMisses(w: World, e: Event, epoch: nat)
    requires TimerInv(w) && Possible(w, e) && TimerInv(Step(w, e)) && WaitsOn(w, e, Step(w, e))
    requires Step(w, e).table.timerEpoch <= epoch
    requires w.table.timerEpoch == epoch ==> Waiting(w.table)
    requires Step(w, e).table.timerEpoch == epoch ==> Waiting(Step(w, e).table)
    ensures NotMissing(Step(w, e), epoch) <==> NotMissing(w, epoch) && !Consumes(w, e, epoch)
  {
    if w.table.timerEpoch < epoch {
      assert epoch !in w.issued;
    }
  }

  lemma {:induction false} RunMisses(w: World, events: seq<Event>)
    requires TimerInv(w) && PossibleRun(w, events) && Waiting(Run(w, events).table)
    ensures var epoch := Run(w, events).table.timerEpoch;
            epoch in Run(w, events).jobs <==> NotMissing(w, epoch) && NoneConsumes(w, events, epoch)
    decreases |events|
  {
    if |events| > 0 {
      var w', epoch := Step(w, events[0]), Run(w, events).table.timerEpoch;
      StepWaitsOn(w, events[0]);
      RunEpochNeverFalls(w', events[1..]);
      if w.table.timerEpoch == epoch {
        WaitedAllAlong(w, events);
      }
      if w'.table.timerEpoch == epoch {
        WaitedAllAlong(w', events[1..]);
      }
      StepMisses(w, events[0], epoch);
      RunMisses(w', events[1..]);
    }
  }

  /**
   * When an unpaused turn has its timer. Over every run, whatever is delivered, dropped, delivered twice
   * or cannot be removed, and however outages, lost lines, sweeps and failed sweeps interleave: a turn
   * that waits at the end while the server is up and the line is there has its one timer if and only if
   * no delivery of its job was carried out while a gate was closed.
   */
  lemma TurnHasItsTimerIff(w: World, events: seq<Event>)
    requires TimerInv(w) && JobHeld(w) && PossibleRun(w, events)
    requires var r := Run(w, events); Waiting(r.table) && r.up && !r.lineDown
    ensures OneTimer(Run(w, events)) <==> NoneConsumes(w, events, Run(w, events).table.timerEpoch)
  {
    OneTimerIff(Run(w, events));
    RunMisses(w, events);
    if Run(w, events).table.timerEpoch == w.table.timerEpoch {
      WaitedAllAlong(w, events);
    }
  }

  /** A table that will keep its timer: the job is there, and no delivery of it predates the last outage. */
  ghost predicate Sound(w: World)
    requires Shape(w.table)
  {
    && (Waiting(w.table) && w.up && !w.lineDown ==> w.table.timerEpoch in w.jobs)
    && (Waiting(w.table) && w.up ==> OldDeliveriesStale(w))
  }

  /** An outage that is over, or a line that is back, only after a sweep of its own has reached the table. */
  ghost predicate SweptFirst(w: World, e: Event) {
    (e.Recovered? ==> w.swept) && (e.LineBack? ==> w.lineSwept)
  }

  ghost predicate SweptRun(w: World, events: seq<Event>)
    requires TimerInv(w) && PossibleRun(w, events)
    decreases |events|
  {
    |events| == 0
    || (SweptFirst(w, events[0]) && (StepKeepsTimer(w, events[0]); SweptRun(Step(w, events[0]), events[1..])))
  }

  /** A delivery is of the generation in which it was picked up. */
  ghost predicate PickedUpNow(w: World, r: World) {
    && r.generation == w.generation
    && forall d :: d in r.deliveries ==> d in w.deliveries || d.1 == w.generation
  }

  lemma StepPicksUpNow(w: World, e: Event)
    requires TimerInv(w) && Possible(w, e) && !e.Lost?
    ensures PickedUpNow(w, Step(w, e))
  {
    match e
    case Player(user, action, amount, seen, removed) => ActionReschedules(w, user, action, amount, None, seen, removed);
    case Pick(epoch, confirmed) =>
    case Fire(job, seen, removed) => ActionReschedules(w, w.issued[job], TIME_OUT, None, Some(job), seen, removed);
    case Dealer(target, kick, removed) => DealerReschedules(w, target, kick, removed);
    case Deal(smallBlind, ante, removed) => DealReschedules(w, smallBlind, ante, removed);
    case AtTable(event) =>
    case Interrupted(_) =>
    case Sweep(generation, overwrite, downMs, line) => PauseTableIs(w, generation, overwrite, downMs, line);
    case Resume(removed) => ResumeReschedules(w, removed);
    case Recovered =>
    case LineLost =>
    case LineBack =>
    case Tick(_) =>
  }

  /** Gates open in two ways only. */
  lemma GatesOpen(w: World, e: Event)
    requires TimerInv(w) && Possible(w, e)
    ensures Step(w, e).up && !w.up ==> e.Recovered?
    ensures !Step(w, e).lineDown && w.lineDown ==> e.LineBack? || !Step(w, e).up
  {
    match e
    case Player(user, action, amount, seen, removed) => ActionReschedules(w, user, action, amount, None, seen, removed);
    case Pick(epoch, confirmed) =>
    case Fire(job, seen, removed) => ActionReschedules(w, w.issued[job], TIME_OUT, None, Some(job), seen, removed);
    case Dealer(target, kick, removed) => DealerReschedules(w, target, kick, removed);
    case Deal(smallBlind, ante, removed) => DealReschedules(w, smallBlind, ante, removed);
    case AtTable(event) =>
    case Interrupted(_) =>
    case Sweep(generation, overwrite, downMs, line) => PauseTableIs(w, generation, overwrite, downMs, line);
    case Resume(removed) => ResumeReschedules(w, removed);
    case Lost =>
    case Recovered =>
    case LineLost =>
    case LineBack =>
    case Tick(_) =>
  }

  lemma OldDeliveriesStayStale(w: World, r: World)
    requires TimerInv(w) && TimerInv(r) && PickedUpNow(w, r) && OldOrFresh(w, r)
    requires r.table.timerEpoch == w.table.timerEpoch ==> OldDeliveriesStale(w)
    ensures OldDeliveriesStale(r)
  {
  }

  lemma SoundDoesNotConsume(w: World, e: Event)
    requires TimerInv(w) && Possible(w, e) && Sound(w) && Waiting(w.table) && w.up && !w.lineDown
    ensures !Consumes(w, e, w.table.timerEpoch)
  {
    assert e.Fire? && e.job == w.table.timerEpoch ==> (e.job, e.sawGeneration).1 == w.generation;
  }

  lemma StepKeepsSound(w: World, e: Event)
    requires TimerInv(w) && Possible(w, e) && Sound(w) && SweptFirst(w, e)
    ensures TimerInv(Step(w, e)) && Sound(Step(w, e))
  {
    var r := Step(w, e);
    StepWaitsOn(w, e);
    GatesOpen(w, e);
    if Waiting(r.table) && r.up {
      assert !e.Lost?;
      if r.table.timerEpoch == w.table.timerEpoch {
        assert w.up;
        if !r.lineDown {
          SoundDoesNotConsume(w, e);
        }
      }
      StepPicksUpNow(w, e);
      OldDeliveriesStayStale(w, r);
    }
  }

  /**
   * Where every outage and every lost line ends behind a sweep that reached the table, no run ever costs
   * a waiting turn its timer.
   */
  lemma {:induction false} RunKeepsTimer(w: World, events: seq<Event>)
    requires TimerInv(w) && Sound(w) && PossibleRun(w, events) && SweptRun(w, events)
    ensures var r := Run(w, events);
            Sound(r) && (Waiting(r.table) && r.up && !r.lineDown ==> OneTimer(r))
    decreases |events|
  {
    if |events| > 0 {
      StepKeepsSound(w, events[0]);
      RunKeepsTimer(Step(w, events[0]), events[1..]);
    } else if Waiting(w.table) && w.up && !w.lineDown {
      OneTimerIff(w);
    }
  }

  /** A sweep that reaches the table while it waits: of no generation, or of the current one. */
  ghost predicate SweptIn(w: World, events: seq<Event>)
    requires TimerInv(w) && PossibleRun(w, events)
    decreases |events|
  {
    |events| > 0
    && (CurrentSweep(w, events[0]) || (StepKeepsTimer(w, events[0]); SweptIn(Step(w, events[0]), events[1..])))
  }

  /** The processor took on or carried out the job of this epoch. */
  predicate JobRuns(e: Event, epoch: nat) {
    || (e.Pick? && e.epoch == epoch && e.dealerConfirmed)
    || (e.Fire? && e.job == epoch)
  }

  predicate AnyJobRuns(events: seq<Event>, epoch: nat) {
    exists k :: 0 <= k < |events| && JobRuns(events[k], epoch)
  }

  /** While the server is away a waiting table waits on, until a sweep pauses it. */
  ghost predicate DownOn(w: World, e: Event, r: World)
    requires Shape(w.table) && Shape(r.table)
  {
    && !r.up
    && (Waiting(w.table) && !CurrentSweep(w, e) ==>
          && Waiting(r.table) && r.table.timerEpoch == w.table.timerEpoch && r.deliveries == w.deliveries
          && (w.table.timerEpoch in r.jobs <==> w.table.timerEpoch in w.jobs && !JobRuns(e, w.table.timerEpoch)))
    && (!Waiting(w.table) || CurrentSweep(w, e) ==> !Waiting(r.table))
  }

  lemma DownFire(w: World, job: nat, seen: nat, removed: bool)
    requires TimerInv(w) && !w.up && (job, seen) in w.deliveries
    ensures FireJob(w, job, seen, removed).world == w.(jobs := w.jobs - {job})
  {
  }

  lemma DownPick(w: World, epoch: nat, confirmed: bool)
    requires TimerInv(w) && !w.up && epoch in w.jobs
    ensures TimerInv(PickJob(w, epoch, confirmed)) && DownOn(w, Pick(epoch, confirmed), PickJob(w, epoch, confirmed))
  {
    PickKeeps(w, epoch, confirmed);
    if Waiting(w.table) {
      assert epoch == w.table.timerEpoch ==> StillWanted(w, epoch);
    }
  }

  lemma DownSweep(w: World, generation: Option<nat>, overwrite: bool, downMs: int, line: bool)
    requires TimerInv(w) && !w.up && Shape(Step(w, Sweep(generation, overwrite, downMs, line)).table)
    ensures DownOn(w, Sweep(generation, overwrite, downMs, line), Step(w, Sweep(generation, overwrite, downMs, line)))
  {
    PauseTableIs(w, generation, overwrite, downMs, line);
  }

  lemma DownBetween(w: World, e: T.Event)
    requires TimerInv(w) && !w.up && BetweenActions(e) && Shape(Step(w, AtTable(e)).table)
    ensures DownOn(w, AtTable(e), Step(w, AtTable(e)))
  {
    BetweenKeepsTurn(w.table, e);
  }

  lemma DownStep(w: World, e: Event)
    requires TimerInv(w) && Possible(w, e) && !w.up && !e.Recovered?
    ensures TimerInv(Step(w, e)) && DownOn(w, e, Step(w, e))
  {
    StepKeepsTimer(w, e);
    match e
    case Player(user, action, amount, seen, removed) => ActionReschedules(w, user, action, amount, None, seen, removed);
    case Pick(epoch, confirmed) => DownPick(w, epoch, confirmed);
    case Fire(job, seen, removed) => DownFire(w, job, seen, removed);
    case Dealer(target, kick, removed) => assert false;
    case Deal(smallBlind, ante, removed) => assert false;
    case AtTable(event) => DownBetween(w, event);
    case Interrupted(_) =>
    case Sweep(generation, overwrite, downMs, line) => DownSweep(w, generation, overwrite, downMs, line);
    case Resume(removed) => assert false;
    case Lost =>
    case LineLost =>
    case LineBack =>
    case Tick(_) =>
  }

  predicate NeverRecovers(events: seq<Event>) {
    forall k :: 0 <= k < |events| ==> !events[k].Recovered?
  }

  /** What an outage has left of a table that waited when it began. */
  ghost predicate OutageLeaves(w: World, events: seq<Event>, r: World)
    requires TimerInv(w) && PossibleRun(w, events) && Shape(r.table)
  {
    && !r.up
    && (Waiting(r.table) <==> !SweptIn(w, events))
    && (!SweptIn(w, events) ==>
          && r.table.timerEpoch == w.table.timerEpoch && r.deliveries == w.deliveries
          && (w.table.timerEpoch in r.jobs <==>
                w.table.timerEpoch in w.jobs && !AnyJobRuns(events, w.table.timerEpoch)))
  }

  lemma {:induction false} PausedWhileDown(w: World, events: seq<Event>)
    requires TimerInv(w) && PossibleRun(w, events) && NeverRecovers(events) && !w.up && !Waiting(w.table)
    ensures !Run(w, events).up && !Waiting(Run(w, events).table)
    decreases |events|
  {
    if |events| > 0 {
      DownStep(w, events[0]);
      PausedWhileDown(Step(w, events[0]), events[1..]);
    }
  }

  lemma JobRunsInTail(events: seq<Event>, epoch: nat)
    requires |events| > 0
    ensures AnyJobRuns(events, epoch) <==> JobRuns(events[0], epoch) || AnyJobRuns(events[1..], epoch)
  {
    if AnyJobRuns(events, epoch) && !JobRuns(events[0], epoch) {
      var k :| 0 <= k < |events| && JobRuns(events[k], epoch);
      assert JobRuns(events[1..][k - 1], epoch);
    }
  }

  lemma {:induction false} OutageRun(w: World, events: seq<Event>)
    requires TimerInv(w) && PossibleRun(w, events) && NeverRecovers(events) && !w.up && Waiting(w.table)
    ensures OutageLeaves(w, events, Run(w, events))
    decreases |events|
  {
    if |events| > 0 {
      DownStep(w, events[0]);
      JobRunsInTail(events, w.table.timerEpoch);
      if CurrentSweep(w, events[0]) {
        PausedWhileDown(Step(w, events[0]), events[1..]);
      } else {
        OutageRun(Step(w, events[0]), events[1..]);
      }
    }
  }

  /**
   * The end of an outage. A turn was waiting with its timer when the server was lost; whatever happened
   * until the gate opened again, the turn still has its timer or is paused for the dealer if and only if
   * a sweep reached the table or the job was not carried out meanwhile. And it keeps that timer for good,
   * if and only if a sweep reached the table or the job had not even been picked up before.
   */
  lemma OutageEndsIff(w: World, events: seq<Event>)
    requires TimerInv(w) && Sound(w) && Waiting(w.table) && w.up && !w.lineDown
    requires TimerInv(Step(w, Lost)) && PossibleRun(Step(w, Lost), events) && NeverRecovers(events)
    ensures var down := Step(w, Lost);
            var end := Step(Run(down, events), Recovered);
            var epoch := w.table.timerEpoch;
            && TimerInv(end) && end.up
            && (Waiting(end.table) <==> !SweptIn(down, events))
            && ((Waiting(end.table) ==> TimerRunning(end)) <==> SweptIn(down, events) || !AnyJobRuns(events, epoch))
            && ((Waiting(end.table) ==> TimerRunning(end) && OldDeliveriesStale(end)) <==>
                  || SweptIn(down, events)
                  || (!AnyJobRuns(events, epoch) && forall g :: (epoch, g) !in w.deliveries))
  {
    var down, epoch := Step(w, Lost), w.table.timerEpoch;
    OutageRun(down, events);
    var last := Run(down, events);
    StepKeepsTimer(last, Recovered);
    RunGenerationNeverFalls(down, events);
    if !SweptIn(down, events) {
      assert forall d :: d in w.deliveries ==> d.1 < last.generation;
      assert forall g :: (epoch, g) in w.deliveries ==> (epoch, g).0 == epoch;
    }
  }

  lemma {:induction false} RunGenerationNeverFalls(w: World, events: seq<Event>)
    requires TimerInv(w) && PossibleRun(w, events)
    ensures w.generation <= Run(w, events).generation
    decreases |events|
  {
    if |events| > 0 {
      StepKeepsTimer(w, events[0]);
      if !events[0].Lost? {
        StepPicksUpNow(w, events[0]);
      }
      RunGenerationNeverFalls(Step(w, events[0]), events[1..]);
    }
  }

  /** The line stays away, and the server is there. */
  predicate LineStaysAway(events: seq<Event>) {
    forall k :: 0 <= k < |events| ==> !events[k].LineBack? && !events[k].Lost?
  }

  predicate AnyFires(events: seq<Event>, epoch: nat) {
    exists k :: 0 <= k < |events| && events[k].Fire? && events[k].job == epoch
  }

  lemma AwayStep(w: World, e: Event)
    requires TimerInv(w) && Possible(w, e) && w.up && w.lineDown && !e.LineBack? && !e.Lost?
    ensures Step(w, e).up && Step(w, e).lineDown
  {
    match e
    case Player(user, action, amount, seen, removed) => ActionReschedules(w, user, action, amount, None, seen, removed);
    case Pick(epoch, confirmed) =>
    case Fire(job, seen, removed) => ActionReschedules(w, w.issued[job], TIME_OUT, None, Some(job), seen, removed);
    case Dealer(target, kick, removed) => assert false;
    case Deal(smallBlind, ante, removed) => assert false;
    case AtTable(event) =>
    case Interrupted(_) =>
    case Sweep(generation, overwrite, downMs, line) => PauseTableIs(w, generation, overwrite, downMs, line);
    case Resume(removed) => assert false;
    case Recovered =>
    case LineLost =>
    case Tick(_) =>
  }

  /** While the line is away a delivery is consumed exactly when it is carried out. */
  lemma {:induction false} AwayConsumes(w: World, events: seq<Event>, epoch: nat)
    requires TimerInv(w) && PossibleRun(w, events) && w.up && w.lineDown && LineStaysAway(events)
    ensures NoneConsumes(w, events, epoch) <==> !AnyFires(events, epoch)
    ensures Run(w, events).up && Run(w, events).lineDown
    decreases |events|
  {
    if |events| > 0 {
      StepKeepsTimer(w, events[0]);
      AwayStep(w, events[0]);
      AwayConsumes(Step(w, events[0]), events[1..], epoch);
      if AnyFires(events, epoch) && !(events[0].Fire? && events[0].job == epoch) {
        var k :| 0 <= k < |events| && events[k].Fire? && events[k].job == epoch;
        assert events[1..][k - 1] == events[k];
      }
    }
  }

  /**
   * The end of a lost line. The players at the table may have gone on acting; when the line is back, the
   * turn that waits then has its timer if and only if its job was not carried out while the line was away.
   */
  lemma LineEndsIff(w: World, events: seq<Event>)
    requires TimerInv(w) && Sound(w) && w.up && !w.lineDown
    requires TimerInv(Step(w, LineLost)) && PossibleRun(Step(w, LineLost), events) && LineStaysAway(events)
    ensures var end := Step(Run(Step(w, LineLost), events), LineBack);
            && TimerInv(end) && end.up && !end.lineDown
            && (Waiting(end.table) ==> (TimerRunning(end) <==> !AnyFires(events, end.table.timerEpoch)))
  {
    var away := Step(w, LineLost);
    var last := Run(away, events);
    AwayConsumes(away, events, last.table.timerEpoch);
    StepKeepsTimer(last, LineBack);
    if Waiting(last.table) {
      RunMisses(away, events);
      if last.table.timerEpoch == away.table.timerEpoch {
        WaitedAllAlong(away, events);
      }
    }
  }

  /** Only a table that waits can be acted on. */
  lemma ActedMeansWaiting(w: World, user: PlayerId, action: ActionType, amount: Option<int>, expected: Option<nat>,
                          seen: nat, removed: bool)
    requires TimerInv(w) && HandleAction(w, user, action, amount, expected, seen, removed).reply == Acted
    ensures Waiting(w.table)
  {
    ActionReschedules(w, user, action, amount, expected, seen, removed);
    assert BettingPhase(w.table.phase);
    assert BettingInv(w.table);
  }

  lemma AwayPausedStep(w: World, e: Event)
    requires TimerInv(w) && Possible(w, e) && w.up && w.lineDown && !e.LineBack? && !e.Lost? && !Waiting(w.table)
    requires TimerInv(Step(w, e))
    ensures !Waiting(Step(w, e).table)
  {
    match e
    case Player(user, action, amount, seen, removed) =>
      ActionReschedules(w, user, action, amount, None, seen, removed);
      if HandleAction(w, user, action, amount, None, seen, removed).reply == Acted {
        ActedMeansWaiting(w, user, action, amount, None, seen, removed);
      }
    case Pick(epoch, confirmed) =>
    case Fire(job, seen, removed) =>
      ActionReschedules(w, w.issued[job], TIME_OUT, None, Some(job), seen, removed);
      TimeoutActsIff(w, w.issued[job], job, seen, removed);
    case Dealer(target, kick, removed) => assert false;
    case Deal(smallBlind, ante, removed) => assert false;
    case AtTable(event) => BetweenKeepsTurn(w.table, event);
    case Interrupted(_) =>
    case Sweep(generation, overwrite, downMs, line) => PauseTableIs(w, generation, overwrite, downMs, line);
    case Resume(removed) => assert false;
    case Recovered =>
    case LineLost =>
    case Tick(_) =>
  }

  lemma {:induction false} PausedWhileAway(w: World, events: seq<Event>)
    requires TimerInv(w) && PossibleRun(w, events) && LineStaysAway(events) && w.up && w.lineDown
    requires !Waiting(w.table)
    ensures !Waiting(Run(w, events).table)
    decreases |events|
  {
    if |events| > 0 {
      StepKeepsTimer(w, events[0]);
      AwayStep(w, events[0]);
      AwayPausedStep(w, events[0]);
      PausedWhileAway(Step(w, events[0]), events[1..]);
    }
  }

  /** A sweep while the line is away pauses the table for the dealer, whatever the players do. */
  lemma {:induction false} SweptLineStaysPaused(w: World, events: seq<Event>)
    requires TimerInv(w) && PossibleRun(w, events) && LineStaysAway(events) && w.up && w.lineDown
    requires SweptIn(w, events)
    ensures !Waiting(Run(w, events).table)
    decreases |events|
  {
    var e := events[0];
    StepKeepsTimer(w, e);
    AwayStep(w, e);
    if CurrentSweep(w, e) {
      PauseTableIs(w, e.generation, e.overwrite, e.downMs, e.line);
      PausedWhileAway(Step(w, e), events[1..]);
    } else {
      SweptLineStaysPaused(Step(w, e), events[1..]);
    }
  }

  lemma OneEvent(w: World, e: Event)
    requires TimerInv(w) && Possible(w, e)
    ensures PossibleRun(w, [e]) && TimerInv(Step(w, e)) && Run(w, [e]) == Step(w, e)
  {
    StepKeepsTimer(w, e);
    assert [e][1..] == [];
  }

  /**
   * The timer can be lost: from any table that waits with its timer, an outage in which the processor
   * drops the job and whose sweep fails ends with the server up, the turn not paused, and no timer.
   */
  lemma FailedSweepLosesTimer(w: World)
    requires TimerInv(w) && Sound(w) && Waiting(w.table) && w.up && !w.lineDown
    ensures var events := [Pick(w.table.timerEpoch, true)];
            && TimerInv(Step(w, Lost)) && PossibleRun(Step(w, Lost), events)
            && var end := Step(Run(Step(w, Lost), events), Recovered);
            && TimerInv(end) && end.up && !end.lineDown && Waiting(end.table) && !OneTimer(end)
  {
    var epoch := w.table.timerEpoch;
    var down := Step(w, Lost);
    StepKeepsTimer(w, Lost);
    OneEvent(down, Pick(epoch, true));
    OutageEndsIff(w, [Pick(epoch, true)]);
    assert JobRuns([Pick(epoch, true)][0], epoch);
    assert Step(down, Pick(epoch, true)) == down.(jobs := down.jobs - {epoch}) by {
      assert StillWanted(down, epoch);
    }
    OneTimerIff(Step(Run(down, [Pick(epoch, true)]), Recovered));
  }

  /** What the line's loss does to a delivery: it is picked up, and meets the lost line. */
  lemma FailedLineSweepLosesTimer(w: World)
    requires TimerInv(w) && Sound(w) && Waiting(w.table) && w.up && !w.lineDown
    ensures var epoch := w.table.timerEpoch;
            var events := [Pick(epoch, true), Fire(epoch, w.generation, false)];
            && TimerInv(Step(w, LineLost)) && PossibleRun(Step(w, LineLost), events)
            && var end := Step(Run(Step(w, LineLost), events), LineBack);
            && TimerInv(end) && end.up && !end.lineDown && Waiting(end.table) && !OneTimer(end)
  {
    var epoch := w.table.timerEpoch;
    var away := Step(w, LineLost);
    StepKeepsTimer(w, LineLost);
    var events := [Pick(epoch, true), Fire(epoch, w.generation, false)];
    PickedUpAway(away);
    var picked := Step(away, events[0]);
    StepKeepsTimer(away, events[0]);
    assert events[1..] == [Fire(epoch, w.generation, false)];
    OneEvent(picked, Fire(epoch, w.generation, false));
    assert Run(away, events) == Step(picked, Fire(epoch, w.generation, false));
    var last := Run(away, events);
    StepKeepsTimer(last, LineBack);
    OneTimerIff(Step(last, LineBack));
  }

  lemma PickedUpAway(away: World)
    requires TimerInv(away) && Waiting(away.table) && away.up && away.lineDown
    ensures var epoch := away.table.timerEpoch;
            var picked := Step(away, Pick(epoch, true));
            && picked == away.(deliveries := away.deliveries + {(epoch, away.generation)})
            && TimerInv(picked)
            && Step(picked, Fire(epoch, away.generation, false)) == picked.(jobs := picked.jobs - {epoch})
  {
    var epoch := away.table.timerEpoch;
    assert StillWanted(away, epoch);
    var picked := away.(deliveries := away.deliveries + {(epoch, away.generation)});
    assert TimerInv(picked);
    ActionReschedules(picked, picked.issued[epoch], TIME_OUT, None, Some(epoch), away.generation, false);
    TimeoutActsIff(picked, picked.issued[epoch], epoch, away.generation, false);
  }

  /** The clock by itself: jobs are picked up and carried out, and time goes on. */
  predicate ClockEvent(e: Event) {
    e.Pick? || e.Fire? || e.Tick?
  }

  /** A turn without its job, of which no delivery was ever picked up. */
  ghost predicate Stranded(w: World)
    requires Shape(w.table)
  {
    && Waiting(w.table) && w.table.timerEpoch !in w.jobs
    && forall d :: d in w.deliveries ==> d.0 != w.table.timerEpoch
  }

  lemma StrandedStep(w: World, e: Event)
    requires TimerInv(w) && Stranded(w) && Possible(w, e) && ClockEvent(e)
    ensures TimerInv(Step(w, e)) && Stranded(Step(w, e)) && Step(w, e).table == w.table
  {
    StepKeepsTimer(w, e);
    match e
    case Pick(_, _) =>
    case Fire(job, seen, removed) =>
      assert (job, seen).0 != w.table.timerEpoch;
      TimeoutActsIff(w, w.issued[job], job, seen, removed);
    case Tick(_) =>
  }

  /** However long such a turn lasts, the clock never moves it. */
  lemma {:induction false} StrandedForever(w: World, events: seq<Event>)
    requires TimerInv(w) && Stranded(w) && PossibleRun(w, events)
    requires forall k :: 0 <= k < |events| ==> ClockEvent(events[k])
    ensures Run(w, events).table == w.table
    decreases |events|
  {
    if |events| > 0 {
      StrandedStep(w, events[0]);
      StrandedForever(Step(w, events[0]), events[1..]);
    }
  }
}

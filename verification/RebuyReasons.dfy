/**
 * Why a rebuy ended as it did: who is asked, who is charged, and what every outcome says about what has
 * happened to that player.
 */
module RebuyReasons {
  import opened TableTypes
  import opened Rebuys

  /** The points of a user; a user without an account has none. */
  function PointsNow(w: World, u: PlayerId): int {
    if u in w.db.points then w.db.points[u] else 0
  }

  /** The player is asked exactly when the points were read and cover the fee, and nothing has interrupted the round. */
  lemma AskedIff(w: World, u: PlayerId, ok: bool, t: Terms)
    requires u in w.sagas && w.sagas[u].Reading?
    ensures var s := Step(w, ReadPoints(u, ok), t).sagas;
            && u in s
            && (s[u].Waiting? <==>
                  && ok && PointsNow(w, u) >= t.entryFee && w.up
                  && w.sagas[u].generation == w.generation && w.sagas[u].line == w.line)
            && (s[u] == Finished(Skipped) <==> ok && PointsNow(w, u) < t.entryFee)
            && (!ok ==> s[u] == Finished(Deferred))
            && (s[u].Waiting? || s[u] == Finished(Skipped) || s[u] == Finished(Deferred)
                || s[u] == Finished(Interrupted))
  {
  }

  /** Answers and deadlines: yes is an acceptance, no is a refusal, silence is judged by the dealer. */
  lemma AnsweredAs(w: World, u: PlayerId, yes: bool, dealerAlive: bool, t: Terms)
    requires u in w.sagas && w.sagas[u].Waiting?
    ensures var s := Step(w, Answer(u, yes), t).sagas;
            && u in s && (s[u].Accepted? <==> yes) && (s[u] == Finished(Declined) <==> !yes)
    ensures var s := Step(w, Deadline(u, dealerAlive), t).sagas;
            && u in s
            && (s[u] == Finished(TimedOut) <==> dealerAlive)
            && (s[u] == Finished(DealerSilent) <==> !dealerAlive)
  {
  }

  /**
   * The debit goes through if and only if the player has at least the fee and the tournament is open; then
   * exactly the fee is taken, from that player alone. Otherwise nothing is taken and the rebuy is undone.
   */
  lemma ChargedIff(w: World, u: PlayerId, t: Terms)
    requires u in w.sagas && w.sagas[u].Paying?
    ensures var r := Step(w, Pay(u, NoDbFault), t);
            && u in r.sagas
            && (r.sagas[u] == Finished(Applied) <==> PointsNow(w, u) >= t.entryFee && !w.db.closed)
            && (r.sagas[u] == Finished(Applied) ==>
                  && PointsNow(r, u) == PointsNow(w, u) - t.entryFee && PointsNow(r, u) >= 0
                  && r.db.totalBuyin == w.db.totalBuyin + t.entryFee && r.db.rebuys == w.db.rebuys + [u]
                  && forall v :: v != u ==> PointsNow(r, v) == PointsNow(w, v))
            && (r.sagas[u] != Finished(Applied) ==> r.sagas[u] == Reverting(Skipped, true) && r.db == w.db)
            && r.stacks == w.stacks
  {
  }

  /** Chips are written exactly while the round is undisturbed and the player seated, and they are one start stack. */
  lemma ChipsWrittenIff(w: World, u: PlayerId, t: Terms)
    requires u in w.sagas && w.sagas[u].Accepted? && t.startStack > 0
    ensures var r := Step(w, Write(u, NoFault), t);
            && u in r.sagas && r.db == w.db
            && (r.sagas[u].Paying? <==> w.up && w.sagas[u].generation == w.generation && Seated(w, u))
            && (r.sagas[u] == Finished(Skipped) <==>
                  w.up && w.sagas[u].generation == w.generation && !Seated(w, u))
            && (r.sagas[u].Paying? ==>
                  Seated(r, u) && r.stacks == Some(w.stacks.value[u := w.stacks.value[u] + t.startStack]))
            && (!r.sagas[u].Paying? ==> r.stacks == w.stacks)
  {
  }

  /**
   * A write that breaks: before its decision it ends the rebuy, as interrupted if the round was overtaken and
   * as an exception if not; after it the chips are in exactly if they landed, and the store decides the rest.
   */
  lemma BrokenWriteEndsAs(w: World, u: PlayerId, landed: bool, t: Terms)
    requires u in w.sagas && w.sagas[u].Accepted? && t.startStack > 0
    ensures var overtaken := !w.up || w.sagas[u].generation != w.generation;
            var before, after := Step(w, Write(u, BeforeCallback), t), Step(w, Write(u, AfterCallback(landed)), t);
            && u in before.sagas && u in after.sagas
            && before.sagas[u] == Finished(if overtaken then Interrupted else Failed) && before.stacks == w.stacks
            && (overtaken || !Seated(w, u) ==> after.sagas[u] == before.sagas[u] && after.stacks == w.stacks)
            && (!overtaken && Seated(w, u) ==>
                  && after.sagas[u] == AwaitingUp(landed)
                  && after.stacks == if landed then Some(w.stacks.value[u := w.stacks.value[u] + t.startStack])
                                     else w.stacks)
  {
  }

  /** A write that broke after its decision waits for the store, and is then undone as interrupted. */
  lemma WokenIsUndone(w: World, u: PlayerId, t: Terms)
    requires u in w.sagas && w.sagas[u].AwaitingUp?
    ensures var r := Step(w, Woken(u), t);
            r == if w.up then w.(sagas := w.sagas[u := Reverting(Interrupted, w.sagas[u].landed)]) else w
  {
  }

  /** A database that does not answer takes nothing: one more try, or the chips go back and the rebuy is put off. */
  lemma SilentDatabase(w: World, u: PlayerId, t: Terms)
    requires u in w.sagas && w.sagas[u].Paying?
    ensures Step(w, Pay(u, TransientThenRetry), t) == w
    ensures var r := Step(w, Pay(u, TransientForGood), t);
            r == w.(sagas := r.sagas) && r.sagas == w.sagas[u := Reverting(Deferred, true)]
  {
  }

  /** Undoing takes one start stack from a seat that has it, if the write lands; the rebuy ends as it was going to. */
  lemma UndoneAs(w: World, u: PlayerId, lands: bool, t: Terms)
    requires u in w.sagas && w.sagas[u].Reverting?
    ensures var r := Step(w, Revert(u, lands), t);
            && r.sagas == w.sagas[u := Finished(w.sagas[u].because)] && r.db == w.db
            && r.stacks ==
               if lands && w.up && Seated(w, u) && w.stacks.value[u] >= t.startStack
               then Some(w.stacks.value[u := w.stacks.value[u] - t.startStack]) else w.stacks
  {
  }

  /** An outage and a lost line end exactly the questions that are open, and neither touches chips or points. */
  lemma OutageSettlesQuestions(w: World, e: Event, u: PlayerId, t: Terms)
    requires (e.Lost? || e.LineLost?) && u in w.sagas
    ensures var r := Step(w, e, t);
            && u in r.sagas && r.stacks == w.stacks && r.db == w.db
            && r.sagas[u] == (if w.sagas[u].Waiting? then Finished(Interrupted) else w.sagas[u])
            && (e.Lost? ==> !r.up && r.generation == w.generation + 1 && r.line == w.line)
            && (e.LineLost? ==> r.up == w.up && r.generation == w.generation && r.line == w.line + 1)
  {
  }

  /** A held table waits for its dealer unless the tournament is over for it; a notice of the end lets it go. */
  lemma HeldAs(w: World, t: Terms)
    requires w.loop == Holding
    ensures var r := Step(w, Hold, t);
            && r == w.(loop := r.loop)
            && (r.loop == AwaitingResume <==> w.up && w.stacks.Some? && !w.noticed)
            && (r.loop == Ended <==> w.up && (w.stacks.None? || w.noticed))
  {
  }

  lemma NoticeReleases(w: World, t: Terms)
    ensures var r := Step(w, CloseNotice, t);
            && r.sagas == w.sagas && r.db == w.db && r.stacks == w.stacks
            && (r.noticed <==> w.noticed || w.db.closed)
            && r.loop == (if w.loop == AwaitingResume && w.db.closed then Ended else w.loop)
  {
  }

  /** An outcome that leaves the question open. */
  predicate LeftOpen(s: Saga) {
    s == Finished(Interrupted) || s == Finished(Deferred) || s == Finished(DealerSilent)
  }

  /**
   * The round is over when every rebuy is: an exception ends the loop, an open question holds the table, and
   * otherwise everything has been said.
   */
  lemma RoundEndsAs(w: World, t: Terms)
    ensures var r := Step(w, RoundEnds, t);
            var over := w.loop == Asking && forall u :: u in w.sagas ==> w.sagas[u].Finished?;
            && r == w.(loop := r.loop)
            && (!over ==> r.loop == w.loop)
            && (over && (exists u :: u in w.sagas && w.sagas[u] == Finished(Failed)) ==> r.loop == Ended)
            && (over && (forall u :: u in w.sagas ==> w.sagas[u] != Finished(Failed)) ==>
                  (r.loop == Holding <==> exists u :: u in w.sagas && LeftOpen(w.sagas[u]))
                  && (r.loop == Holding || r.loop == Ended))
  {
    assert forall u :: u in w.sagas && w.sagas[u].Finished? ==> (AskAgain(w.sagas[u]) <==> LeftOpen(w.sagas[u]));
  }

  /** When the dealer resumes, exactly those with an open question who still sit there without chips are asked. */
  lemma AskedAgainIff(w: World, u: PlayerId, t: Terms)
    requires w.loop == AwaitingResume && !w.noticed && w.stacks.Some? && u in w.sagas && w.sagas[u].Finished?
    ensures var r := Step(w, DealerResumes, t);
            var open := LeftOpen(w.sagas[u]) && u in w.stacks.value && w.stacks.value[u] <= 0;
            && u in r.sagas
            && (open <==> r.sagas[u].Reading?)
            && (open ==> r.sagas[u] == Reading(w.generation, w.line) && r.loop == Asking)
            && (!open ==> r.sagas[u] == w.sagas[u])
            && r.stacks == w.stacks && r.db == w.db
  {
    assert AskAgain(w.sagas[u]) <==> LeftOpen(w.sagas[u]);
  }

  /** At this moment the player cannot rebuy: short of the fee, not seated, or the tournament is closed. */
  predicate CannotRebuy(w: World, u: PlayerId, t: Terms) {
    PointsNow(w, u) < t.entryFee || !Seated(w, u) || w.db.closed
  }

  /** At this moment the player is charged: paying, with the fee, in an open tournament, and the debit commits. */
  predicate IsCharged(w: World, e: Event, u: PlayerId, t: Terms) {
    && e == Pay(u, NoDbFault) && u in w.sagas && w.sagas[u].Paying?
    && PointsNow(w, u) >= t.entryFee && !w.db.closed
  }

  /** The round this saga belongs to has been overtaken by an outage or a lost line. */
  predicate Overtaken(w: World, s: Saga) {
    || ((s.Reading? || s.Waiting?) && (s.generation != w.generation || s.line != w.line))
    || (s.Accepted? && s.generation != w.generation)
  }

  /** An outage or a lost line, now or since the round began, or a write that broke after it was decided. */
  predicate Disturbs(w: World, e: Event, u: PlayerId) {
    || e.Lost? || e.LineLost? || !w.up
    || (u in w.sagas && Overtaken(w, w.sagas[u]))
    || (e.Write? && e.writer == u && e.fault.AfterCallback?)
  }

  /** A write that breaks although the store is there and nothing has interrupted the round. */
  predicate Throws(w: World, e: Event, u: PlayerId) {
    && e.Write? && e.writer == u && e.fault != NoFault && w.up
    && u in w.sagas && w.sagas[u].Accepted? && w.sagas[u].generation == w.generation
  }

  ghost predicate CouldNotOnce(w: World, events: seq<Event>, u: PlayerId, t: Terms) {
    exists k :: 0 <= k < |events| && CannotRebuy(Run(w, events[..k], t), u, t)
  }

  ghost predicate ChargedOnce(w: World, events: seq<Event>, u: PlayerId, t: Terms) {
    exists k :: 0 <= k < |events| && IsCharged(Run(w, events[..k], t), events[k], u, t)
  }

  ghost predicate DisturbedOnce(w: World, events: seq<Event>, u: PlayerId, t: Terms) {
    exists k :: 0 <= k < |events| && Disturbs(Run(w, events[..k], t), events[k], u)
  }

  ghost predicate ThrewOnce(w: World, events: seq<Event>, u: PlayerId, t: Terms) {
    exists k :: 0 <= k < |events| && Throws(Run(w, events[..k], t), events[k], u)
  }

  ghost predicate Happened(events: seq<Event>, e: Event) {
    exists k :: 0 <= k < |events| && events[k] == e
  }

  /** The saga has ended with this outcome, or will once its chips are back. */
  predicate Heading(s: Saga, outcome: Outcome) {
    s == Finished(outcome) || (s.Reverting? && s.because == outcome)
  }

  /** What a saga says about the run so far. */
  ghost predicate ReasonGiven(w: World, events: seq<Event>, u: PlayerId, s: Saga, t: Terms) {
    && (Heading(s, Applied) ==> ChargedOnce(w, events, u, t))
    && (Heading(s, Skipped) ==> CouldNotOnce(w, events, u, t))
    && (Heading(s, Declined) ==> Happened(events, Answer(u, false)))
    && (Heading(s, TimedOut) ==> Happened(events, Deadline(u, true)))
    && (Heading(s, DealerSilent) ==> Happened(events, Deadline(u, false)))
    && (Heading(s, Deferred) ==>
          Happened(events, ReadPoints(u, false)) || Happened(events, Pay(u, TransientForGood)))
    && (Heading(s, Interrupted) || s.AwaitingUp? ==> DisturbedOnce(w, events, u, t))
    && (Heading(s, Failed) ==> ThrewOnce(w, events, u, t))
    && (s.Reverting? ==> s.because == Skipped || s.because == Deferred || s.because == Interrupted)
  }

  /** A moment of a run is a moment of every longer one. */
  lemma SameMoments(w: World, front: seq<Event>, e: Event, t: Terms, k: nat)
    requires k < |front|
    ensures Run(w, (front + [e])[..k], t) == Run(w, front[..k], t) && (front + [e])[k] == front[k]
  {
    assert (front + [e])[..k] == front[..k];
  }

  lemma MoneyMomentsKept(w: World, front: seq<Event>, e: Event, u: PlayerId, t: Terms)
    ensures CouldNotOnce(w, front, u, t) ==> CouldNotOnce(w, front + [e], u, t)
    ensures ChargedOnce(w, front, u, t) ==> ChargedOnce(w, front + [e], u, t)
  {
    if CouldNotOnce(w, front, u, t) {
      var k :| 0 <= k < |front| && CannotRebuy(Run(w, front[..k], t), u, t);
      SameMoments(w, front, e, t, k);
    }
    if ChargedOnce(w, front, u, t) {
      var k :| 0 <= k < |front| && IsCharged(Run(w, front[..k], t), front[k], u, t);
      SameMoments(w, front, e, t, k);
    }
  }

  lemma RoundMomentsKept(w: World, front: seq<Event>, e: Event, u: PlayerId, t: Terms)
    ensures DisturbedOnce(w, front, u, t) ==> DisturbedOnce(w, front + [e], u, t)
    ensures ThrewOnce(w, front, u, t) ==> ThrewOnce(w, front + [e], u, t)
  {
    if DisturbedOnce(w, front, u, t) {
      var k :| 0 <= k < |front| && Disturbs(Run(w, front[..k], t), front[k], u);
      SameMoments(w, front, e, t, k);
    }
    if ThrewOnce(w, front, u, t) {
      var k :| 0 <= k < |front| && Throws(Run(w, front[..k], t), front[k], u);
      SameMoments(w, front, e, t, k);
    }
  }

  /** A reason stays one as the run goes on. */
  lemma ReasonKept(w: World, front: seq<Event>, e: Event, u: PlayerId, s: Saga, t: Terms)
    requires ReasonGiven(w, front, u, s, t)
    ensures ReasonGiven(w, front + [e], u, s, t)
  {
    MoneyMomentsKept(w, front, e, u, t);
    RoundMomentsKept(w, front, e, u, t);
    forall x | Happened(front, x) ensures Happened(front + [e], x) {
      var k :| 0 <= k < |front| && front[k] == x;
      assert (front + [e])[k] == x;
    }
  }

  /** What one event says about the saga it has moved on; a revert ends as it was meant to. */
  ghost predicate NewlyGiven(w: World, e: Event, u: PlayerId, s: Saga, t: Terms)
    requires u in w.sagas
  {
    var was := w.sagas[u];
    && (Heading(s, Applied) ==> IsCharged(w, e, u, t) || Heading(was, Applied))
    && (Heading(s, Skipped) ==> CannotRebuy(w, u, t) || Heading(was, Skipped))
    && (Heading(s, Declined) ==> e == Answer(u, false) || Heading(was, Declined))
    && (Heading(s, TimedOut) ==> e == Deadline(u, true) || Heading(was, TimedOut))
    && (Heading(s, DealerSilent) ==> e == Deadline(u, false) || Heading(was, DealerSilent))
    && (Heading(s, Deferred) ==>
          e == ReadPoints(u, false) || e == Pay(u, TransientForGood) || Heading(was, Deferred))
    && (Heading(s, Interrupted) || s.AwaitingUp? ==>
          Disturbs(w, e, u) || Heading(was, Interrupted) || was.AwaitingUp?)
    && (Heading(s, Failed) ==> Throws(w, e, u) || Heading(was, Failed))
    && (s.Reverting? ==> s.because == Skipped || s.because == Deferred || s.because == Interrupted)
  }

  lemma WriteReason(w: World, u: PlayerId, fault: WriteFault, t: Terms)
    requires u in w.sagas && w.sagas[u].Accepted?
    ensures u in Step(w, Write(u, fault), t).sagas
    ensures NewlyGiven(w, Write(u, fault), u, Step(w, Write(u, fault), t).sagas[u], t)
  {
  }

  lemma PayReason(w: World, u: PlayerId, fault: DbFault, t: Terms)
    requires u in w.sagas && w.sagas[u].Paying?
    ensures u in Step(w, Pay(u, fault), t).sagas
    ensures Step(w, Pay(u, fault), t).sagas[u] != w.sagas[u] ==>
              NewlyGiven(w, Pay(u, fault), u, Step(w, Pay(u, fault), t).sagas[u], t)
  {
  }

  lemma UndoReason(w: World, e: Event, u: PlayerId, t: Terms)
    requires e.Woken? || e.Revert? || e.PointsMove?
    requires u in w.sagas && u in Step(w, e, t).sagas && Step(w, e, t).sagas[u] != w.sagas[u]
    ensures NewlyGiven(w, e, u, Step(w, e, t).sagas[u], t)
  {
  }

  /** A write or a debit moves nobody's rebuy on but its own. */
  lemma OnlyOnesOwn(w: World, e: Event, u: PlayerId, t: Terms)
    requires e.Write? || e.Pay?
    requires u in w.sagas && u in Step(w, e, t).sagas && Step(w, e, t).sagas[u] != w.sagas[u]
    ensures e.Write? ==> e.writer == u && w.sagas[u].Accepted?
    ensures e.Pay? ==> e.payer == u && w.sagas[u].Paying?
  {
  }

  lemma MoneyReason(w: World, e: Event, u: PlayerId, t: Terms)
    requires AboutMoney(e) && u in w.sagas && u in Step(w, e, t).sagas && Step(w, e, t).sagas[u] != w.sagas[u]
    ensures NewlyGiven(w, e, u, Step(w, e, t).sagas[u], t)
  {
    match e
    case Write(_, fault) =>
      OnlyOnesOwn(w, e, u, t);
      WriteReason(w, u, fault, t);
    case Pay(_, fault) =>
      OnlyOnesOwn(w, e, u, t);
      PayReason(w, u, fault, t);
    case _ =>
      UndoReason(w, e, u, t);
  }

  lemma QuestionReason(w: World, e: Event, u: PlayerId, t: Terms)
    requires AboutQuestion(e) && u in w.sagas && u in Step(w, e, t).sagas && Step(w, e, t).sagas[u] != w.sagas[u]
    ensures NewlyGiven(w, e, u, Step(w, e, t).sagas[u], t)
  {
  }

  lemma OtherReason(w: World, e: Event, u: PlayerId, t: Terms)
    requires !AboutMoney(e) && !AboutQuestion(e)
    requires u in w.sagas && u in Step(w, e, t).sagas && Step(w, e, t).sagas[u] != w.sagas[u]
    ensures NewlyGiven(w, e, u, Step(w, e, t).sagas[u], t)
  {
  }

  lemma NewReason(w: World, e: Event, u: PlayerId, t: Terms)
    requires u in w.sagas && u in Step(w, e, t).sagas && Step(w, e, t).sagas[u] != w.sagas[u]
    ensures NewlyGiven(w, e, u, Step(w, e, t).sagas[u], t)
  {
    if AboutMoney(e) {
      MoneyReason(w, e, u, t);
    } else if AboutQuestion(e) {
      QuestionReason(w, e, u, t);
    } else {
      OtherReason(w, e, u, t);
    }
  }

  /** The event just added is the last one, and the world before it the one it met. */
  lemma ReasonOfLast(w: World, front: seq<Event>, e: Event, u: PlayerId, t: Terms)
    ensures CannotRebuy(Run(w, front, t), u, t) ==> CouldNotOnce(w, front + [e], u, t)
    ensures IsCharged(Run(w, front, t), e, u, t) ==> ChargedOnce(w, front + [e], u, t)
    ensures Disturbs(Run(w, front, t), e, u) ==> DisturbedOnce(w, front + [e], u, t)
    ensures Throws(Run(w, front, t), e, u) ==> ThrewOnce(w, front + [e], u, t)
    ensures Happened(front + [e], e)
  {
    var events := front + [e];
    assert events[..|front|] == front && events[|front|] == e;
  }

  /**
   * Every outcome has its reason, over every run. Whoever ends `applied` was charged at a moment when the
   * points covered the fee and the tournament was open; whoever is skipped was at some moment short of the
   * fee, not seated, or in a closed tournament; whoever declined said no; a deadline passed for whoever timed
   * out with the dealer answering, and for whoever is asked again with the dealer silent; a database that did
   * not answer puts off, an outage or a lost line interrupts, and only a write that breaks without one throws.
   */
  lemma {:induction false} OutcomeHasItsReason(w: World, events: seq<Event>, t: Terms, u: PlayerId)
    requires u in w.sagas && w.sagas[u].Reading?
    ensures u in Run(w, events, t).sagas && ReasonGiven(w, events, u, Run(w, events, t).sagas[u], t)
  {
    if |events| > 0 {
      var front, e := events[..|events| - 1], events[|events| - 1];
      OutcomeHasItsReason(w, front, t, u);
      assert events == front + [e];
      var mid := Run(w, front, t);
      StepKeepsPlayers(mid, e, t);
      ReasonKept(w, front, e, u, mid.sagas[u], t);
      if Step(mid, e, t).sagas[u] != mid.sagas[u] {
        NewReason(mid, e, u, t);
        ReasonOfLast(w, front, e, u, t);
      }
    }
  }

  /**
   * Nobody is out for nothing: when the loop has ended in an open tournament without an exception, whoever
   * is still broke was once short of the fee or out of the seat, said no, or let a deadline pass that the
   * dealer saw.
   */
  lemma BrokeForItsReason(w: World, events: seq<Event>, t: Terms, u: PlayerId)
    requires RoundOpens(w) && t.startStack > 0
    requires var end := Run(w, events, t);
             && end.loop == Ended && !end.db.closed
             && (forall v :: v in end.sagas ==> end.sagas[v] != Finished(Failed))
             && u in w.sagas && StillBroke(end, u)
    ensures CouldNotOnce(w, events, u, t) || Happened(events, Answer(u, false)) || Happened(events, Deadline(u, true))
  {
    BrokeForAReason(w, events, t, u);
    OutcomeHasItsReason(w, events, t, u);
  }
}

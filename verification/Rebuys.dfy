/**
 * The rebuy saga: chips into the snapshot first, then the fee out of the database, and chips back out
 * when the database says no. Any number of players, outages, lost lines and re-asked rounds interleave.
 */
module Rebuys {
  import opened TableTypes
  import L = Ledger

  /** `RebuyOutcome`; `Failed` stands for an exception of `processRebuy`. */
  datatype Outcome = Applied | Skipped | Declined | TimedOut | Interrupted | Deferred | DealerSilent | Failed

  /**
   * Where one player's `processRebuy` stands. `AwaitingUp` has written and thrown; `landed` says whether
   * the chips it wrote are in the snapshot. `Reverting` is about to take the chips back out.
   */
  datatype Saga =
    | Reading(generation: nat, line: nat)
    | Waiting(generation: nat, line: nat)
    | Accepted(generation: nat)
    | AwaitingUp(landed: bool)
    | Paying
    | Reverting(because: Outcome, landed: bool)
    | Finished(outcome: Outcome)

  /** Where the loop of `askRebuys` stands. */
  datatype Loop = Asking | Holding | AwaitingResume | Ended

  /**
   * The database part: a `rebuys` entry is one REBUY transaction row. `outside` is what each user's
   * points would be without any rebuy, whatever else moves them.
   */
  datatype Db = Db(
    points: map<PlayerId, int>,
    outside: map<PlayerId, int>,
    rebuys: seq<PlayerId>,
    totalBuyin: int,
    closed: bool)

  /** `stacks` is the snapshot: the stack of every seated player, or `None` once the snapshot is gone. */
  datatype World = World(
    stacks: Option<map<PlayerId, int>>,
    db: Db,
    sagas: map<PlayerId, Saga>,
    loop: Loop,
    up: bool,
    generation: nat,
    line: nat,
    noticed: bool)

  datatype Terms = Terms(entryFee: int, startStack: int)

  datatype WriteFault = NoFault | BeforeCallback | AfterCallback(landed: bool)

  datatype DbFault = NoDbFault | TransientThenRetry | TransientForGood

  datatype Event =
    | ReadPoints(reader: PlayerId, ok: bool)
    | Answer(asked: PlayerId, accept: bool)
    | Deadline(late: PlayerId, dealerAlive: bool)
    | Write(writer: PlayerId, fault: WriteFault)
    | Pay(payer: PlayerId, dbFault: DbFault)
    | Woken(waiter: PlayerId)
    | Revert(reverted: PlayerId, lands: bool)
    | RoundEnds
    | Hold
    | DealerResumes
    | Lost
    | Recovered
    | LineLost
    | Close
    | CloseNotice
    | SnapshotDropped
    | Leave(leaver: PlayerId)
    | PointsMove(owner: PlayerId, delta: int)

  predicate Seated(w: World, u: PlayerId) {
    w.stacks.Some? && u in w.stacks.value
  }

  function Advance(w: World, u: PlayerId, s: Saga): World {
    w.(sagas := w.sagas[u := s])
  }

  function SetStack(w: World, u: PlayerId, stack: int): World
    requires Seated(w, u)
  {
    w.(stacks := Some(w.stacks.value[u := stack]))
  }

  /** `revertRebuy`: chips are taken back only where there are enough of them. */
  function RevertRebuy(w: World, u: PlayerId, startStack: int): World {
    if Seated(w, u) && w.stacks.value[u] >= startStack then SetStack(w, u, w.stacks.value[u] - startStack) else w
  }

  /**
   * `revertRebuy` with its swallowed error: the write that takes the chips back cannot land while the
   * store is away, and may fail at any other time.
   */
  function TryRevert(w: World, u: PlayerId, lands: bool, startStack: int): World {
    if lands && w.up then RevertRebuy(w, u, startStack) else w
  }

  /** The callback of the first write: the verdict, and the snapshot if it is to be written. */
  function WriteCallback(w: World, u: PlayerId, generation: nat, startStack: int): (World, Outcome) {
    if generation != w.generation || !w.up then (w, Interrupted)
    else if !Seated(w, u) then (w, Skipped)
    else (SetStack(w, u, w.stacks.value[u] + if startStack > 0 then startStack else 0), Applied)
  }

  function WriteStep(w: World, u: PlayerId, generation: nat, fault: WriteFault, startStack: int): World {
    var (written, verdict) := WriteCallback(w, u, generation, startStack);
    match fault
    case BeforeCallback => Advance(w, u, Finished(if !w.up || w.generation != generation then Interrupted else Failed))
    case NoFault => if verdict == Applied then Advance(written, u, Paying) else Advance(w, u, Finished(verdict))
    case AfterCallback(landed) =>
      if verdict == Applied then Advance(if landed then written else w, u, AwaitingUp(landed))
      else Advance(w, u, Finished(if !w.up || w.generation != generation then Interrupted else Failed))
  }

  /** The condition on which `executeRebuyTransaction` commits; otherwise it refuses. */
  predicate CanPay(db: Db, u: PlayerId, entryFee: int) {
    L.PointsOf(db.points, u) >= entryFee && !db.closed
  }

  /** `executeRebuyTransaction`: all of it, in one transaction. */
  function Debit(db: Db, u: PlayerId, entryFee: int): Db {
    db.(points := db.points[u := L.PointsOf(db.points, u) - entryFee],
        rebuys := db.rebuys + [u],
        totalBuyin := db.totalBuyin + entryFee)
  }

  function PayStep(w: World, u: PlayerId, fault: DbFault, entryFee: int): World {
    match fault
    case TransientThenRetry => w
    case TransientForGood => Advance(w, u, Reverting(Deferred, true))
    case NoDbFault =>
      if CanPay(w.db, u, entryFee) then Advance(w.(db := Debit(w.db, u, entryFee)), u, Finished(Applied))
      else Advance(w, u, Reverting(Skipped, true))
  }

  /** `processRebuy` up to the popup: the points are read, and a hand that was stopped asks nobody. */
  function ReadStep(w: World, u: PlayerId, generation: nat, line: nat, ok: bool, entryFee: int): World {
    if !ok then Advance(w, u, Finished(Deferred))
    else if L.PointsOf(w.db.points, u) < entryFee then Advance(w, u, Finished(Skipped))
    else if !w.up || w.generation != generation || w.line != line then Advance(w, u, Finished(Interrupted))
    else Advance(w, u, Waiting(generation, line))
  }

  /** An outage or a lost line settles every open question at once. */
  function Interrupt(sagas: map<PlayerId, Saga>): map<PlayerId, Saga> {
    map u | u in sagas :: if sagas[u].Waiting? then Finished(Interrupted) else sagas[u]
  }

  predicate AskAgain(s: Saga) {
    s.Finished? && (s.outcome == Interrupted || s.outcome == Deferred || s.outcome == DealerSilent)
  }

  /** `stillBroke`: seated, and without chips. */
  predicate StillBroke(w: World, u: PlayerId) {
    Seated(w, u) && w.stacks.value[u] <= 0
  }

  function NextRound(w: World): map<PlayerId, Saga> {
    map u | u in w.sagas ::
      if AskAgain(w.sagas[u]) && StillBroke(w, u) then Reading(w.generation, w.line) else w.sagas[u]
  }

  predicate AllFinished(w: World) {
    forall u :: u in w.sagas ==> w.sagas[u].Finished?
  }

  /** One step; an event that cannot happen in this state changes nothing. */
  function Step(w: World, e: Event, t: Terms): World {
    match e
    case ReadPoints(u, ok) =>
      if u in w.sagas && w.sagas[u].Reading?
      then ReadStep(w, u, w.sagas[u].generation, w.sagas[u].line, ok, t.entryFee) else w
    case Answer(u, accept) =>
      if u in w.sagas && w.sagas[u].Waiting?
      then Advance(w, u, if accept then Accepted(w.sagas[u].generation) else Finished(Declined)) else w
    case Deadline(u, dealerAlive) =>
      if u in w.sagas && w.sagas[u].Waiting?
      then Advance(w, u, Finished(if dealerAlive then TimedOut else DealerSilent)) else w
    case Write(u, fault) =>
      if u in w.sagas && w.sagas[u].Accepted? then WriteStep(w, u, w.sagas[u].generation, fault, t.startStack) else w
    case Pay(u, fault) =>
      if u in w.sagas && w.sagas[u].Paying? then PayStep(w, u, fault, t.entryFee) else w
    case Woken(u) =>
      if u in w.sagas && w.sagas[u].AwaitingUp? && w.up
      then Advance(w, u, Reverting(Interrupted, w.sagas[u].landed)) else w
    case Revert(u, lands) =>
      if u in w.sagas && w.sagas[u].Reverting?
      then Advance(TryRevert(w, u, lands, t.startStack), u, Finished(w.sagas[u].because)) else w
    case RoundEnds =>
      if w.loop != Asking || !AllFinished(w) then w
      else if exists u :: u in w.sagas && w.sagas[u] == Finished(Failed) then w.(loop := Ended)
      else if exists u :: u in w.sagas && AskAgain(w.sagas[u]) then w.(loop := Holding)
      else w.(loop := Ended)
    case Hold =>
      if w.loop != Holding || !w.up then w
      else if w.stacks.None? || w.noticed then w.(loop := Ended)
      else w.(loop := AwaitingResume)
    case DealerResumes =>
      if w.loop != AwaitingResume then w
      else if w.noticed || w.stacks.None? then w.(loop := Ended)
      else if exists u :: u in w.sagas && AskAgain(w.sagas[u]) && StillBroke(w, u)
      then w.(sagas := NextRound(w), loop := Asking)
      else w.(loop := Ended)
    case Lost => w.(up := false, generation := w.generation + 1, sagas := Interrupt(w.sagas))
    case Recovered => w.(up := true)
    case LineLost => w.(line := w.line + 1, sagas := Interrupt(w.sagas))
    case Close => w.(db := w.db.(closed := true))
    case CloseNotice =>
      if w.db.closed then w.(noticed := true, loop := if w.loop == AwaitingResume then Ended else w.loop) else w
    case SnapshotDropped => if w.db.closed then w.(stacks := None) else w
    case Leave(u) => if Seated(w, u) then w.(stacks := Some(w.stacks.value - {u})) else w
    case PointsMove(u, delta) =>
      w.(db := w.db.(points := w.db.points[u := L.PointsOf(w.db.points, u) + delta],
                     outside := w.db.outside[u := L.PointsOf(w.db.outside, u) + delta]))
  }

  function Run(w: World, events: seq<Event>, t: Terms): World {
    if |events| == 0 then w else Step(Run(w, events[..|events| - 1], t), events[|events| - 1], t)
  }

  /** How often the user has been debited. */
  function Debits(rebuys: seq<PlayerId>, u: PlayerId): nat {
    if |rebuys| == 0 then 0
    else Debits(rebuys[..|rebuys| - 1], u) + if rebuys[|rebuys| - 1] == u then 1 else 0
  }

  /** Whether the start stack is in the snapshot at this point of the saga. */
  predicate Credited(s: Saga) {
    || s == AwaitingUp(true)
    || s.Paying?
    || (s.Reverting? && s.landed)
    || s == Finished(Applied)
  }

  /** The revert of `u` fails in this event although the chips it should take back were written. */
  predicate RevertFails(w: World, e: Event, u: PlayerId) {
    && e.Revert? && e.reverted == u
    && u in w.sagas && w.sagas[u].Reverting? && w.sagas[u].landed
    && !(e.lands && w.up)
  }

  /** The players one of whose reverts failed while the chips were in. */
  function Stuck(w: World, events: seq<Event>, t: Terms): set<PlayerId> {
    if |events| == 0 then {}
    else
      var before := events[..|events| - 1];
      StuckAfter(Run(w, before, t), events[|events| - 1], Stuck(w, before, t))
  }

  function StuckAfter(w: World, e: Event, stuck: set<PlayerId>): set<PlayerId> {
    if e.Revert? && RevertFails(w, e, e.reverted) then stuck + {e.reverted} else stuck
  }

  /**
   * One player's money: debited exactly once if applied, and credited exactly where the saga says or a
   * revert failed. A failed revert is the end of that player's rebuy.
   */
  ghost predicate PlayerRight(w: World, u: PlayerId, stuck: set<PlayerId>, startStack: int)
    requires u in w.sagas
  {
    && Debits(w.db.rebuys, u) == (if w.sagas[u] == Finished(Applied) then 1 else 0)
    && (Seated(w, u) ==> w.stacks.value[u] == if Credited(w.sagas[u]) || u in stuck then startStack else 0)
    && (u in stuck ==> w.sagas[u].Finished? && w.sagas[u].outcome != Applied)
  }

  /** The database's own books: points and collected fees move together with the transaction rows. */
  ghost predicate BooksRight(db: Db, entryFee: int, collectedBefore: int) {
    && (forall u :: L.PointsOf(db.points, u) == L.PointsOf(db.outside, u) - entryFee * Debits(db.rebuys, u))
    && db.totalBuyin == collectedBefore + entryFee * |db.rebuys|
  }

  /** A saga never reverts into success. */
  ghost predicate SagaSane(s: Saga) {
    && (s.Reverting? ==> s.because == Skipped || s.because == Deferred || s.because == Interrupted)
  }

  ghost predicate RebuyInv(w: World, stuck: set<PlayerId>, t: Terms, collectedBefore: int) {
    && (forall u :: u in w.sagas ==> PlayerRight(w, u, stuck, t.startStack) && SagaSane(w.sagas[u]))
    && (forall u :: u in w.db.rebuys ==> u in w.sagas)
    && BooksRight(w.db, t.entryFee, collectedBefore)
  }

  lemma DebitAppended(rebuys: seq<PlayerId>, p: PlayerId, u: PlayerId)
    ensures Debits(rebuys + [p], u) == Debits(rebuys, u) + if p == u then 1 else 0
  {
    assert (rebuys + [p])[..|rebuys|] == rebuys;
  }

  /** Only the player who moves is touched. */
  lemma OnePlayerMoves(w: World, w': World, u: PlayerId, stuck: set<PlayerId>, stuck': set<PlayerId>,
                       t: Terms, collectedBefore: int)
    requires RebuyInv(w, stuck, t, collectedBefore) && u in w.sagas
    requires stuck' == stuck || stuck' == stuck + {u}
    requires w'.sagas.Keys == w.sagas.Keys && w'.db == w.db
    requires forall v :: v in w.sagas && v != u ==> w'.sagas[v] == w.sagas[v]
    requires forall v :: v != u ==>
               && (Seated(w', v) <==> Seated(w, v))
               && (Seated(w, v) ==> w'.stacks.value[v] == w.stacks.value[v])
    requires PlayerRight(w', u, stuck', t.startStack) && SagaSane(w'.sagas[u])
    ensures RebuyInv(w', stuck', t, collectedBefore)
  {
    forall v | v in w'.sagas ensures PlayerRight(w', v, stuck', t.startStack) && SagaSane(w'.sagas[v]) {
      assert PlayerRight(w, v, stuck, t.startStack) && SagaSane(w.sagas[v]);
    }
  }

  lemma DebitKeepsBooks(db: Db, u: PlayerId, entryFee: int, collectedBefore: int)
    requires BooksRight(db, entryFee, collectedBefore)
    ensures BooksRight(Debit(db, u, entryFee), entryFee, collectedBefore)
  {
    var db' := Debit(db, u, entryFee);
    forall v ensures L.PointsOf(db'.points, v) == L.PointsOf(db'.outside, v) - entryFee * Debits(db'.rebuys, v) {
      DebitAppended(db.rebuys, u, v);
      if v == u {
        assert entryFee * (Debits(db.rebuys, u) + 1) == entryFee * Debits(db.rebuys, u) + entryFee;
      }
    }
    assert entryFee * (|db.rebuys| + 1) == entryFee * |db.rebuys| + entryFee;
  }

  lemma DebitKeeps(w: World, u: PlayerId, stuck: set<PlayerId>, t: Terms, collectedBefore: int)
    requires RebuyInv(w, stuck, t, collectedBefore) && u in w.sagas && w.sagas[u].Paying?
    ensures RebuyInv(Advance(w.(db := Debit(w.db, u, t.entryFee)), u, Finished(Applied)), stuck, t, collectedBefore)
  {
    var w' := Advance(w.(db := Debit(w.db, u, t.entryFee)), u, Finished(Applied));
    DebitKeepsBooks(w.db, u, t.entryFee, collectedBefore);
    forall v | v in w'.sagas ensures PlayerRight(w', v, stuck, t.startStack) && SagaSane(w'.sagas[v]) {
      assert PlayerRight(w, v, stuck, t.startStack) && SagaSane(w.sagas[v]);
      DebitAppended(w.db.rebuys, u, v);
    }
  }

  lemma PayKeeps(w: World, u: PlayerId, fault: DbFault, stuck: set<PlayerId>, t: Terms, collectedBefore: int)
    requires RebuyInv(w, stuck, t, collectedBefore) && u in w.sagas && w.sagas[u].Paying?
    ensures RebuyInv(PayStep(w, u, fault, t.entryFee), stuck, t, collectedBefore)
  {
    if fault == NoDbFault && CanPay(w.db, u, t.entryFee) {
      DebitKeeps(w, u, stuck, t, collectedBefore);
    } else if fault != TransientThenRetry {
      assert PlayerRight(w, u, stuck, t.startStack);
      OnePlayerMoves(w, PayStep(w, u, fault, t.entryFee), u, stuck, stuck, t, collectedBefore);
    }
  }

  /** A revert keeps the money right, and a failed one over written chips makes the player stuck. */
  lemma RevertKeeps(w: World, u: PlayerId, lands: bool, stuck: set<PlayerId>, t: Terms, collectedBefore: int)
    requires RebuyInv(w, stuck, t, collectedBefore) && t.startStack > 0 && u in w.sagas && w.sagas[u].Reverting?
    ensures RebuyInv(Advance(TryRevert(w, u, lands, t.startStack), u, Finished(w.sagas[u].because)),
                     StuckAfter(w, Revert(u, lands), stuck), t, collectedBefore)
  {
    assert PlayerRight(w, u, stuck, t.startStack) && SagaSane(w.sagas[u]);
    OnePlayerMoves(w, Advance(TryRevert(w, u, lands, t.startStack), u, Finished(w.sagas[u].because)), u,
                   stuck, StuckAfter(w, Revert(u, lands), stuck), t, collectedBefore);
  }

  lemma WokenKeeps(w: World, u: PlayerId, stuck: set<PlayerId>, t: Terms, collectedBefore: int)
    requires RebuyInv(w, stuck, t, collectedBefore) && u in w.sagas && w.sagas[u].AwaitingUp?
    ensures RebuyInv(Advance(w, u, Reverting(Interrupted, w.sagas[u].landed)), stuck, t, collectedBefore)
  {
    assert PlayerRight(w, u, stuck, t.startStack);
    OnePlayerMoves(w, Advance(w, u, Reverting(Interrupted, w.sagas[u].landed)), u, stuck, stuck, t, collectedBefore);
  }

  lemma WriteKeeps(w: World, u: PlayerId, fault: WriteFault, stuck: set<PlayerId>, t: Terms, collectedBefore: int)
    requires RebuyInv(w, stuck, t, collectedBefore) && t.startStack > 0 && u in w.sagas && w.sagas[u].Accepted?
    ensures RebuyInv(WriteStep(w, u, w.sagas[u].generation, fault, t.startStack), stuck, t, collectedBefore)
  {
    assert PlayerRight(w, u, stuck, t.startStack);
    OnePlayerMoves(w, WriteStep(w, u, w.sagas[u].generation, fault, t.startStack), u, stuck, stuck, t, collectedBefore);
  }

  /** Moves of the sagas that touch neither chips nor money. */
  lemma QuietKeeps(w: World, w': World, stuck: set<PlayerId>, t: Terms, collectedBefore: int)
    requires RebuyInv(w, stuck, t, collectedBefore)
    requires w'.db.rebuys == w.db.rebuys && BooksRight(w'.db, t.entryFee, collectedBefore)
    requires w'.sagas.Keys == w.sagas.Keys
    requires forall v :: v in w.sagas ==>
               w'.sagas[v] == w.sagas[v]
               || (!Credited(w.sagas[v]) && !Credited(w'.sagas[v]) && !w'.sagas[v].Reverting? && v !in stuck)
    requires forall v :: Seated(w', v) ==> Seated(w, v) && w'.stacks.value[v] == w.stacks.value[v]
    ensures RebuyInv(w', stuck, t, collectedBefore)
  {
    forall v | v in w'.sagas ensures PlayerRight(w', v, stuck, t.startStack) && SagaSane(w'.sagas[v]) {
      assert PlayerRight(w, v, stuck, t.startStack) && SagaSane(w.sagas[v]);
    }
  }

  lemma PointsMoveKeepsBooks(db: Db, u: PlayerId, delta: int, entryFee: int, collectedBefore: int)
    requires BooksRight(db, entryFee, collectedBefore)
    ensures BooksRight(db.(points := db.points[u := L.PointsOf(db.points, u) + delta],
                           outside := db.outside[u := L.PointsOf(db.outside, u) + delta]), entryFee, collectedBefore)
  {
    assert L.PointsOf(db.points, u) == L.PointsOf(db.outside, u) - entryFee * Debits(db.rebuys, u);
  }

  lemma AskedOn(w: World, u: PlayerId, s: Saga, stuck: set<PlayerId>, t: Terms, collectedBefore: int)
    requires RebuyInv(w, stuck, t, collectedBefore) && u in w.sagas
    requires !Credited(w.sagas[u]) && !w.sagas[u].Finished? && !Credited(s) && !s.Reverting?
    ensures RebuyInv(Advance(w, u, s), stuck, t, collectedBefore)
  {
    QuietKeeps(w, Advance(w, u, s), stuck, t, collectedBefore);
  }

  predicate AboutMoney(e: Event) {
    e.Write? || e.Pay? || e.Woken? || e.Revert? || e.PointsMove?
  }

  predicate AboutQuestion(e: Event) {
    e.ReadPoints? || e.Answer? || e.Deadline?
  }

  predicate AboutLoop(e: Event) {
    e.RoundEnds? || e.Hold? || e.DealerResumes?
  }

  lemma MoneyStep(w: World, e: Event, stuck: set<PlayerId>, t: Terms, collectedBefore: int)
    requires RebuyInv(w, stuck, t, collectedBefore) && t.startStack > 0 && AboutMoney(e)
    ensures RebuyInv(Step(w, e, t), StuckAfter(w, e, stuck), t, collectedBefore)
  {
    match e {
      case Write(u, fault) =>
        if u in w.sagas && w.sagas[u].Accepted? {
          WriteKeeps(w, u, fault, stuck, t, collectedBefore);
        }
      case Pay(u, fault) =>
        if u in w.sagas && w.sagas[u].Paying? {
          PayKeeps(w, u, fault, stuck, t, collectedBefore);
        }
      case Woken(u) =>
        if u in w.sagas && w.sagas[u].AwaitingUp? && w.up {
          WokenKeeps(w, u, stuck, t, collectedBefore);
        }
      case Revert(u, lands) =>
        if u in w.sagas && w.sagas[u].Reverting? {
          RevertKeeps(w, u, lands, stuck, t, collectedBefore);
        }
      case PointsMove(u, delta) =>
        PointsMoveKeepsBooks(w.db, u, delta, t.entryFee, collectedBefore);
        QuietKeeps(w, Step(w, e, t), stuck, t, collectedBefore);
    }
  }

  lemma QuestionStep(w: World, e: Event, stuck: set<PlayerId>, t: Terms, collectedBefore: int)
    requires RebuyInv(w, stuck, t, collectedBefore) && AboutQuestion(e)
    ensures RebuyInv(Step(w, e, t), stuck, t, collectedBefore)
  {
    match e {
      case ReadPoints(u, ok) =>
        if u in w.sagas && w.sagas[u].Reading? {
          AskedOn(w, u, Step(w, e, t).sagas[u], stuck, t, collectedBefore);
        }
      case Answer(u, accept) =>
        if u in w.sagas && w.sagas[u].Waiting? {
          AskedOn(w, u, Step(w, e, t).sagas[u], stuck, t, collectedBefore);
        }
      case Deadline(u, alive) =>
        if u in w.sagas && w.sagas[u].Waiting? {
          AskedOn(w, u, Step(w, e, t).sagas[u], stuck, t, collectedBefore);
        }
    }
  }

  lemma NextRoundQuiet(w: World, stuck: set<PlayerId>, t: Terms, collectedBefore: int)
    requires RebuyInv(w, stuck, t, collectedBefore) && t.startStack > 0
    ensures RebuyInv(w.(sagas := NextRound(w), loop := Asking), stuck, t, collectedBefore)
  {
    forall v | v in w.sagas && StillBroke(w, v) ensures v !in stuck {
      assert PlayerRight(w, v, stuck, t.startStack);
    }
    QuietKeeps(w, w.(sagas := NextRound(w), loop := Asking), stuck, t, collectedBefore);
  }

  lemma LoopEventStep(w: World, e: Event, stuck: set<PlayerId>, t: Terms, collectedBefore: int)
    requires RebuyInv(w, stuck, t, collectedBefore) && t.startStack > 0 && AboutLoop(e)
    ensures RebuyInv(Step(w, e, t), stuck, t, collectedBefore)
  {
    NextRoundQuiet(w, stuck, t, collectedBefore);
    forall loop: Loop ensures RebuyInv(w.(loop := loop), stuck, t, collectedBefore) {
      QuietKeeps(w, w.(loop := loop), stuck, t, collectedBefore);
    }
  }

  lemma OutsideStep(w: World, e: Event, stuck: set<PlayerId>, t: Terms, collectedBefore: int)
    requires RebuyInv(w, stuck, t, collectedBefore) && !AboutMoney(e) && !AboutQuestion(e) && !AboutLoop(e)
    ensures RebuyInv(Step(w, e, t), stuck, t, collectedBefore)
  {
    forall v | v in w.sagas && w.sagas[v].Waiting? ensures v !in stuck {
      assert PlayerRight(w, v, stuck, t.startStack);
    }
    QuietKeeps(w, Step(w, e, t), stuck, t, collectedBefore);
  }

  lemma StepKeepsPlayers(w: World, e: Event, t: Terms)
    ensures Step(w, e, t).sagas.Keys == w.sagas.Keys
  {
  }

  /** Every step keeps every player's money right, whatever fails and whatever it interleaves with. */
  lemma StepKeepsRebuys(w: World, e: Event, stuck: set<PlayerId>, t: Terms, collectedBefore: int)
    requires RebuyInv(w, stuck, t, collectedBefore) && t.startStack > 0
    ensures RebuyInv(Step(w, e, t), StuckAfter(w, e, stuck), t, collectedBefore)
  {
    if AboutMoney(e) {
      MoneyStep(w, e, stuck, t, collectedBefore);
    } else if AboutQuestion(e) {
      QuestionStep(w, e, stuck, t, collectedBefore);
    } else if AboutLoop(e) {
      LoopEventStep(w, e, stuck, t, collectedBefore);
    } else {
      OutsideStep(w, e, stuck, t, collectedBefore);
    }
  }

  /** The table when `askRebuys` is called: everybody it asks is broke, and nobody has been charged. */
  ghost predicate RoundOpens(w: World) {
    && w.loop == Asking && w.stacks.Some? && !w.noticed
    && (forall u :: u in w.sagas ==> w.sagas[u].Reading?)
    && (forall u :: u in w.sagas && Seated(w, u) ==> w.stacks.value[u] == 0)
    && w.db.rebuys == []
    && w.db.points == w.db.outside
  }

  lemma {:induction false} RunKeepsRebuys(w: World, events: seq<Event>, t: Terms)
    requires RoundOpens(w) && t.startStack > 0
    ensures RebuyInv(Run(w, events, t), Stuck(w, events, t), t, w.db.totalBuyin)
    ensures Run(w, events, t).sagas.Keys == w.sagas.Keys
  {
    if |events| == 0 {
      assert forall u :: Debits(w.db.rebuys, u) == 0;
    } else {
      RunKeepsRebuys(w, events[..|events| - 1], t);
      StepKeepsPlayers(Run(w, events[..|events| - 1], t), events[|events| - 1], t);
      StepKeepsRebuys(Run(w, events[..|events| - 1], t), events[|events| - 1], Stuck(w, events[..|events| - 1], t),
                      t, w.db.totalBuyin);
    }
  }

  /**
   * Atomicity, for every run. Once a player's rebuy is over, in whatever round and after whatever faults,
   * `applied` means one debit and anything else none; and the start stacks in the seat match the debits,
   * none or one, if and only if no revert of that player failed while the chips were in. Where one did,
   * a whole start stack lies in the seat and nothing was debited.
   */
  lemma RebuyIsAtomicIff(w: World, events: seq<Event>, t: Terms, u: PlayerId)
    requires RoundOpens(w) && t.startStack > 0 && u in w.sagas
    ensures var end := Run(w, events, t);
            && u in end.sagas
            && Debits(end.db.rebuys, u) <= 1
            && L.PointsOf(end.db.points, u) == L.PointsOf(end.db.outside, u) - t.entryFee * Debits(end.db.rebuys, u)
            && (end.sagas[u].Finished? ==>
                  && (end.sagas[u].outcome == Applied <==> Debits(end.db.rebuys, u) == 1)
                  && (Seated(end, u) ==>
                        (end.stacks.value[u] == t.startStack * Debits(end.db.rebuys, u) <==>
                          u !in Stuck(w, events, t))))
            && (u in Stuck(w, events, t) ==>
                  && end.sagas[u].Finished? && Debits(end.db.rebuys, u) == 0
                  && (Seated(end, u) ==> end.stacks.value[u] == t.startStack))
            && end.db.totalBuyin == w.db.totalBuyin + t.entryFee * |end.db.rebuys|
  {
    RunKeepsRebuys(w, events, t);
    var end := Run(w, events, t);
    assert PlayerRight(end, u, Stuck(w, events, t), t.startStack);
  }

  lemma RunOfMore(w: World, events: seq<Event>, e: Event, t: Terms)
    ensures Run(w, events + [e], t) == Step(Run(w, events, t), e, t)
  {
    assert (events + [e])[..|events|] == events;
  }

  /** The player accepts and the chips are written; then the store is lost, and the debit gives up. */
  function UpToTheDebit(u: PlayerId): seq<Event> {
    [ReadPoints(u, true)] + [Answer(u, true)] + [Write(u, NoFault)] + [Lost] + [Pay(u, TransientForGood)]
  }

  /** The revert fails, the store comes back, and the loop finds nobody broke to ask again. */
  function RevertedWhileDown(u: PlayerId): seq<Event> {
    UpToTheDebit(u) + [Revert(u, true)] + [Recovered] + [RoundEnds] + [Hold] + [DealerResumes]
  }

  /** A round asking one seated player who can pay. */
  ghost predicate AsksOne(w: World, t: Terms, u: PlayerId) {
    && RoundOpens(w) && t.startStack > 0 && w.up
    && w.sagas == map[u := Reading(w.generation, w.line)]
    && Seated(w, u) && L.PointsOf(w.db.points, u) >= t.entryFee
  }

  lemma ChipsBeforeTheDebit(w: World, t: Terms, u: PlayerId)
    requires AsksOne(w, t, u)
    ensures var w1 := Run(w, UpToTheDebit(u), t);
            && w1.sagas == map[u := Reverting(Deferred, true)] && !w1.up && w1.loop == Asking && !w1.noticed
            && w1.db == w.db && Seated(w1, u) && w1.stacks.value[u] == t.startStack
  {
    RunOfMore(w, [], ReadPoints(u, true), t);
    assert [] + [ReadPoints(u, true)] == [ReadPoints(u, true)];
    RunOfMore(w, [ReadPoints(u, true)], Answer(u, true), t);
    RunOfMore(w, [ReadPoints(u, true)] + [Answer(u, true)], Write(u, NoFault), t);
    RunOfMore(w, [ReadPoints(u, true)] + [Answer(u, true)] + [Write(u, NoFault)], Lost, t);
    var before := [ReadPoints(u, true)] + [Answer(u, true)] + [Write(u, NoFault)] + [Lost];
    assert Run(w, before, t).sagas == map[u := Paying];
    RunOfMore(w, before, Pay(u, TransientForGood), t);
  }

  /** A deferred player with a start stack in the seat, and nothing debited. */
  ghost predicate PaidNothing(w: World, before: World, t: Terms, u: PlayerId) {
    && w.sagas == map[u := Finished(Deferred)] && w.db == before.db && !w.noticed
    && Seated(w, u) && w.stacks.value[u] == t.startStack && t.startStack > 0
  }

  lemma RoundIsHeld(w: World, before: World, t: Terms, u: PlayerId)
    requires PaidNothing(w, before, t, u) && w.loop == Asking
    ensures var held := Step(Step(w, Recovered, t), RoundEnds, t);
            PaidNothing(held, before, t, u) && held.loop == Holding && held.up
  {
    assert AskAgain(Step(w, Recovered, t).sagas[u]);
  }

  lemma NobodyLeftToAsk(w: World, before: World, t: Terms, u: PlayerId)
    requires PaidNothing(w, before, t, u) && w.loop == Holding && w.up
    ensures var end := Step(Step(w, Hold, t), DealerResumes, t);
            PaidNothing(end, before, t, u) && end.loop == Ended && end.up
  {
  }

  /** A free rebuy: the round is over, a start stack lies in the seat, and the player has paid nothing. */
  lemma FreeRebuy(w: World, t: Terms, u: PlayerId)
    requires AsksOne(w, t, u)
    ensures var end := Run(w, RevertedWhileDown(u), t);
            && end.loop == Ended && end.up
            && end.sagas == map[u := Finished(Deferred)]
            && Seated(end, u) && end.stacks.value[u] == t.startStack
            && end.db == w.db
  {
    ChipsBeforeTheDebit(w, t, u);
    var e1 := UpToTheDebit(u);
    RunOfMore(w, e1, Revert(u, true), t);
    var e2 := e1 + [Revert(u, true)];
    assert PaidNothing(Run(w, e2, t), w, t, u);
    RoundIsHeld(Run(w, e2, t), w, t, u);
    RunOfMore(w, e2, Recovered, t);
    var e3 := e2 + [Recovered];
    RunOfMore(w, e3, RoundEnds, t);
    NobodyLeftToAsk(Run(w, e3 + [RoundEnds], t), w, t, u);
    RunOfMore(w, e3 + [RoundEnds], Hold, t);
    RunOfMore(w, e3 + [RoundEnds] + [Hold], DealerResumes, t);
  }

  lemma AppliedStep(w: World, e: Event, t: Terms, u: PlayerId)
    requires u in w.sagas && w.sagas[u] == Finished(Applied)
    ensures u in Step(w, e, t).sagas && Step(w, e, t).sagas[u] == Finished(Applied)
  {
  }

  /** A player whose rebuy was applied is never asked, credited or charged again. */
  lemma {:induction false} AppliedStays(w: World, events: seq<Event>, t: Terms, u: PlayerId)
    requires u in w.sagas && w.sagas[u] == Finished(Applied)
    ensures u in Run(w, events, t).sagas && Run(w, events, t).sagas[u] == Finished(Applied)
  {
    if |events| > 0 {
      AppliedStays(w, events[..|events| - 1], t, u);
      AppliedStep(Run(w, events[..|events| - 1], t), events[|events| - 1], t, u);
    }
  }

  /**
   * Nobody is dropped by a fault: when the loop ends without an exception while the tournament is open,
   * every player still broke has said no, run out of time or points, or left.
   */
  ghost predicate LoopSane(w: World) {
    && (w.loop != Asking ==> AllFinished(w))
    && (w.loop == Ended && !w.db.closed ==>
          forall u :: u in w.sagas && AskAgain(w.sagas[u]) ==>
            !StillBroke(w, u) || exists v :: v in w.sagas && w.sagas[v] == Finished(Failed))
    && (w.noticed ==> w.db.closed)
    && (w.stacks.None? ==> w.db.closed)
  }

  lemma LoopStep(w: World, e: Event, t: Terms)
    requires LoopSane(w)
    ensures LoopSane(Step(w, e, t))
  {
    if w.loop == Asking {
      AskingStep(w, e, t);
    } else {
      IdleStep(w, e, t);
    }
  }

  lemma AskingStep(w: World, e: Event, t: Terms)
    requires LoopSane(w) && w.loop == Asking
    ensures LoopSane(Step(w, e, t))
  {
  }

  /** Between the rounds no saga moves. */
  lemma NothingUnderWay(w: World, e: Event, t: Terms)
    requires AllFinished(w) && !e.DealerResumes?
    ensures Step(w, e, t).sagas == w.sagas
  {
    assert Interrupt(w.sagas) == w.sagas;
  }

  lemma IdleStep(w: World, e: Event, t: Terms)
    requires LoopSane(w) && w.loop != Asking
    ensures LoopSane(Step(w, e, t))
  {
    if !e.DealerResumes? {
      NothingUnderWay(w, e, t);
    }
  }

  /** With the tournament open and no exception, the loop ends only when nobody is left to ask again. */
  lemma {:induction false} NobodyIsForgotten(w: World, events: seq<Event>, t: Terms)
    requires LoopSane(w)
    ensures LoopSane(Run(w, events, t))
  {
    if |events| > 0 {
      NobodyIsForgotten(w, events[..|events| - 1], t);
      LoopStep(Run(w, events[..|events| - 1], t), events[|events| - 1], t);
    }
  }

  /**
   * Nobody is eliminated by a fault: when the loop has ended in an open tournament without an exception,
   * every player who is still broke could not pay, said no, or let the time run out.
   */
  lemma BrokeForAReason(w: World, events: seq<Event>, t: Terms, u: PlayerId)
    requires RoundOpens(w) && t.startStack > 0
    requires var end := Run(w, events, t);
             && end.loop == Ended && !end.db.closed
             && (forall v :: v in end.sagas ==> end.sagas[v] != Finished(Failed))
             && u in w.sagas && StillBroke(end, u)
    ensures u in Run(w, events, t).sagas
    ensures var s := Run(w, events, t).sagas[u];
            s == Finished(Skipped) || s == Finished(Declined) || s == Finished(TimedOut)
  {
    NobodyIsForgotten(w, events, t);
    RunKeepsRebuys(w, events, t);
    var end := Run(w, events, t);
    assert PlayerRight(end, u, Stuck(w, events, t), t.startStack);
    assert end.sagas[u].Finished? && !AskAgain(end.sagas[u]);
  }
}

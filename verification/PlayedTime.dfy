/**
 * The clock columns of a tournament: pauses stop them, and `completeSync` starts them again. Played time
 * is what the run itself says: the milliseconds since the start that lie in no finished pause.
 */
module PlayedTime {
  import opened Sums
  import opened TableTypes
  import opened BlindClock

  datatype Status = ONGOING | SYNCING | CLOSED

  datatype Clock = Clock(status: Status, startedAt: int, pausedAt: Option<int>, pausedMs: int)

  /** What `completeSync` reads before its conditional update. */
  datatype SyncRead = SyncRead(pausedAt: int, pausedMs: int, readAt: int)

  /** The conditional update that stops the clock: only a tournament that is running is paused. */
  function PauseAt(c: Clock, at: int): Clock {
    if c.status == ONGOING then c.(status := SYNCING, pausedAt := Some(at)) else c
  }

  function Delta(r: SyncRead): int {
    Max(0, r.readAt - r.pausedAt)
  }

  predicate SyncMatches(c: Clock, r: SyncRead) {
    c.status == SYNCING && c.pausedAt == Some(r.pausedAt)
  }

  /** The conditional update of `completeSync`. */
  function CommitSync(c: Clock, r: SyncRead): Clock {
    if !SyncMatches(c, r) then c
    else c.(status := ONGOING, pausedAt := None, pausedMs := c.pausedMs + Delta(r))
  }

  /** The base the levels are counted from. */
  function Base(c: Clock): int {
    c.startedAt + c.pausedMs
  }

  datatype World = World(clock: Clock, open: set<SyncRead>, now: int)

  /**
   * Pauses come from an outage, a lost line or a restart, and may be dated back; `CrashedSync` is a
   * `completeSync` that read and never wrote. Any number of reads may be waiting to commit.
   */
  datatype Event =
    | Tick(ms: nat)
    | Pause(at: int)
    | ReadSync
    | Commit(read: SyncRead)
    | CrashedSync(lost: SyncRead)
    | CloseTournament

  function ReadOf(w: World): SyncRead
    requires w.clock.pausedAt.Some?
  {
    SyncRead(w.clock.pausedAt.value, w.clock.pausedMs, w.now)
  }

  function Step(w: World, e: Event): World {
    match e
    case Tick(ms) => w.(now := w.now + ms)
    case Pause(at) => w.(clock := PauseAt(w.clock, at))
    case ReadSync =>
      if w.clock.status != SYNCING || w.clock.pausedAt.None? then w else w.(open := w.open + {ReadOf(w)})
    case Commit(r) => if r in w.open then w.(clock := CommitSync(w.clock, r), open := w.open - {r}) else w
    case CrashedSync(r) => w.(open := w.open - {r})
    case CloseTournament => w.(clock := w.clock.(status := CLOSED))
  }

  function Run(w: World, events: seq<Event>): World {
    if |events| == 0 then w else Step(Run(w, events[..|events| - 1]), events[|events| - 1])
  }

  /** A pause is never dated into the future. */
  ghost predicate PossibleRun(w: World, events: seq<Event>) {
    |events| == 0
    || (var e, before := events[|events| - 1], Run(w, events[..|events| - 1]);
        && PossibleRun(w, events[..|events| - 1])
        && (e.Pause? ==> e.at <= before.now))
  }

  ghost predicate JustStarted(w: World) {
    && w.clock == Clock(ONGOING, w.clock.startedAt, None, 0)
    && w.clock.startedAt <= w.now && w.open == {}
  }

  /** The event stops the clock. */
  predicate Stops(w: World, e: Event) {
    e.Pause? && w.clock.status == ONGOING
  }

  /** The event is a sync that ends the pause. */
  predicate Ends(w: World, e: Event) {
    e.Commit? && e.read in w.open && SyncMatches(w.clock, e.read)
  }

  /** The date of the last pause of the run. */
  function PausedSince(w: World, events: seq<Event>): int {
    if |events| == 0 then w.clock.startedAt
    else
      var front := events[..|events| - 1];
      if Stops(Run(w, front), events[|events| - 1]) then events[|events| - 1].at else PausedSince(w, front)
  }

  /** A finished pause: from the date it was given to the moment the sync that ended it had read. */
  datatype Interval = Interval(at: int, until: int)

  function Pauses(w: World, events: seq<Event>): seq<Interval> {
    if |events| == 0 then []
    else
      var front := events[..|events| - 1];
      Pauses(w, front) +
      if Ends(Run(w, front), events[|events| - 1])
      then [Interval(PausedSince(w, front), events[|events| - 1].read.readAt)] else []
  }

  predicate Inside(m: int, p: Interval) {
    p.at <= m < p.until
  }

  predicate InPause(m: int, pauses: seq<Interval>) {
    exists k :: 0 <= k < |pauses| && Inside(m, pauses[k])
  }

  /** The milliseconds of play: between the two moments, and in no pause. */
  function PlayedSet(start: int, now: int, pauses: seq<Interval>): set<int> {
    set m | start <= m < now && !InPause(m, pauses)
  }

  function PlayedMs(start: int, now: int, pauses: seq<Interval>): nat {
    |PlayedSet(start, now, pauses)|
  }

  /** The played time of a run up to its last moment. */
  function Played(w: World, events: seq<Event>): nat {
    PlayedMs(w.clock.startedAt, Run(w, events).now, Pauses(w, events))
  }

  function Length(p: Interval): int {
    Max(0, p.until - p.at)
  }

  function Total(pauses: seq<Interval>): int {
    if |pauses| == 0 then 0 else Total(pauses[..|pauses| - 1]) + Length(pauses[|pauses| - 1])
  }

  /** The milliseconds a pause takes, none before the start and none twice. */
  ghost predicate Takes(p: Interval, start: int, before: seq<Interval>) {
    forall m :: Inside(m, p) ==> start <= m && !InPause(m, before)
  }

  ghost predicate Separate(pauses: seq<Interval>, start: int) {
    |pauses| == 0
    || (Separate(pauses[..|pauses| - 1], start) && Takes(pauses[|pauses| - 1], start, pauses[..|pauses| - 1]))
  }

  function Range(a: int, b: int): (r: set<int>)
    ensures forall m :: m in r <==> a <= m < b
    ensures |r| == Max(0, b - a)
    decreases b - a
  {
    if b <= a then {} else Range(a, b - 1) + {b - 1}
  }

  lemma SubsetSize<T>(a: set<T>, b: set<T>)
    requires a <= b
    ensures |a| <= |b| && (|a| == |b| <==> a == b)
  {
    assert b == a + (b - a);
  }

  /** The played milliseconds that one more pause takes away. */
  lemma OnePauseMore(start: int, now: int, before: seq<Interval>, p: Interval)
    requires p.until <= now
    ensures PlayedMs(start, now, before) - Length(p) <= PlayedMs(start, now, before + [p])
    ensures PlayedMs(start, now, before + [p]) <= PlayedMs(start, now, before)
    ensures PlayedMs(start, now, before + [p]) == PlayedMs(start, now, before) - Length(p) <==> Takes(p, start, before)
  {
    var all, rest := PlayedSet(start, now, before), PlayedSet(start, now, before + [p]);
    var taken := all * Range(p.at, p.until);
    InPauseOfMore(before, p);
    assert all == rest + taken && rest !! taken;
    TakenIsAll(start, now, before, p);
    SubsetSize(taken, Range(p.at, p.until));
  }

  lemma InPauseOfMore(before: seq<Interval>, p: Interval)
    ensures forall m :: InPause(m, before + [p]) <==> InPause(m, before) || Inside(m, p)
  {
    var all := before + [p];
    forall m ensures InPause(m, all) <==> InPause(m, before) || Inside(m, p) {
      if InPause(m, before) {
        var k :| 0 <= k < |before| && Inside(m, before[k]);
        assert Inside(m, all[k]);
      }
      if Inside(m, p) {
        assert Inside(m, all[|before|]);
      }
    }
  }

  lemma TakenIsAll(start: int, now: int, before: seq<Interval>, p: Interval)
    requires p.until <= now
    ensures PlayedSet(start, now, before) * Range(p.at, p.until) == Range(p.at, p.until) <==> Takes(p, start, before)
  {
    var taken := PlayedSet(start, now, before) * Range(p.at, p.until);
    if taken == Range(p.at, p.until) {
      forall m | Inside(m, p) ensures start <= m && !InPause(m, before) {
        assert m in Range(p.at, p.until);
      }
    }
    if Takes(p, start, before) {
      forall m | m in Range(p.at, p.until) ensures m in taken {
        assert Inside(m, p);
      }
    }
  }

  /** Subtracting the lengths of the pauses never counts too much, and is exact if and only if they are separate. */
  lemma {:induction false} LengthsCountIff(start: int, now: int, pauses: seq<Interval>)
    requires start <= now && forall k :: 0 <= k < |pauses| ==> pauses[k].until <= now
    ensures now - start - Total(pauses) <= PlayedMs(start, now, pauses)
    ensures now - start - Total(pauses) == PlayedMs(start, now, pauses) <==> Separate(pauses, start)
  {
    if |pauses| == 0 {
      assert PlayedSet(start, now, pauses) == Range(start, now);
    } else {
      var front, p := pauses[..|pauses| - 1], pauses[|pauses| - 1];
      LengthsCountIff(start, now, front);
      OnePauseMore(start, now, front, p);
      assert pauses == front + [p];
    }
  }

  /** When the running stretch of play began: at the end of the last pause of any length. */
  function RunningSince(pauses: seq<Interval>, start: int): int {
    if |pauses| == 0 then start
    else
      var last := pauses[|pauses| - 1];
      if last.at < last.until then last.until else RunningSince(pauses[..|pauses| - 1], start)
  }

  /** Every pause of any length is dated no earlier than the stretch of play it interrupts. */
  ghost predicate InOrder(pauses: seq<Interval>, start: int) {
    |pauses| == 0
    || (var front, p := pauses[..|pauses| - 1], pauses[|pauses| - 1];
        && InOrder(front, start)
        && (p.at < p.until ==> RunningSince(front, start) <= p.at))
  }

  ghost predicate EndsInOrder(pauses: seq<Interval>, start: int) {
    |pauses| == 0
    || (var front, p := pauses[..|pauses| - 1], pauses[|pauses| - 1];
        && EndsInOrder(front, start)
        && RunningSince(front, start) <= p.until)
  }

  lemma {:induction false} BehindTheStretch(pauses: seq<Interval>, start: int)
    requires InOrder(pauses, start)
    ensures start <= RunningSince(pauses, start)
    ensures forall m :: InPause(m, pauses) ==> m < RunningSince(pauses, start)
  {
    if |pauses| > 0 {
      var front, p := pauses[..|pauses| - 1], pauses[|pauses| - 1];
      BehindTheStretch(front, start);
      assert pauses == front + [p];
      InPauseOfMore(front, p);
    }
  }

  lemma {:induction false} InOrderIsSeparate(pauses: seq<Interval>, start: int)
    requires InOrder(pauses, start)
    ensures Separate(pauses, start)
  {
    if |pauses| > 0 {
      var front := pauses[..|pauses| - 1];
      InOrderIsSeparate(front, start);
      BehindTheStretch(front, start);
    }
  }

  /** The last millisecond before the running stretch is paused, unless the stretch began at the start. */
  lemma {:induction false} LastPaused(pauses: seq<Interval>, start: int)
    ensures RunningSince(pauses, start) == start || InPause(RunningSince(pauses, start) - 1, pauses)
  {
    if |pauses| > 0 {
      var front, p := pauses[..|pauses| - 1], pauses[|pauses| - 1];
      assert pauses == front + [p];
      InPauseOfMore(front, p);
      LastPaused(front, start);
    }
  }

  lemma {:induction false} SeparateIsInOrder(pauses: seq<Interval>, start: int)
    requires Separate(pauses, start) && EndsInOrder(pauses, start)
    ensures InOrder(pauses, start)
  {
    if |pauses| > 0 {
      var front, p := pauses[..|pauses| - 1], pauses[|pauses| - 1];
      SeparateIsInOrder(front, start);
      LastPaused(front, start);
      var since := RunningSince(front, start);
      assert !(p.at < p.until && since > p.at) by {
        assert Inside(since - 1, p) || since > p.until || p.at >= since || p.at >= p.until;
        assert Inside(p.at, p) || p.at >= p.until;
      }
    }
  }

  /** The reads that `completeSync` has made of the last pause. */
  function ReadsOfPause(w: World, events: seq<Event>): set<SyncRead> {
    if |events| == 0 then {}
    else
      var front, e := events[..|events| - 1], events[|events| - 1];
      var before := Run(w, front);
      if Stops(before, e) then {}
      else if e.ReadSync? && before.clock.status == SYNCING && before.clock.pausedAt.Some?
      then ReadsOfPause(w, front) + {ReadOf(before)}
      else ReadsOfPause(w, front)
  }

  /** What holds of the columns in every run, however its pauses are dated. */
  ghost predicate ColumnsRight(w: World, events: seq<Event>) {
    var end, pauses := Run(w, events), Pauses(w, events);
    && end.clock.startedAt == w.clock.startedAt <= w.now <= end.now
    && end.clock.pausedMs == Total(pauses)
    && (forall k :: 0 <= k < |pauses| ==> pauses[k].at <= pauses[k].until <= end.now)
    && (end.clock.status == SYNCING ==> end.clock.pausedAt.Some?)
    && (end.clock.status == ONGOING ==> end.clock.pausedAt.None?)
    && (end.clock.pausedAt.Some? ==> end.clock.pausedAt.value == PausedSince(w, events) <= end.now)
    && (forall r :: r in end.open ==> r.pausedAt <= r.readAt <= end.now)
  }

  /** A read of the present pause knows the columns as they are, and was made after every finished pause. */
  ghost predicate ReadsRight(w: World, events: seq<Event>) {
    var end, pauses := Run(w, events), Pauses(w, events);
    end.clock.pausedAt.Some? ==>
      forall r :: r in ReadsOfPause(w, events) ==>
        && r.pausedMs == end.clock.pausedMs && w.clock.startedAt <= r.readAt
        && forall k :: 0 <= k < |pauses| ==> pauses[k].until <= r.readAt
  }

  lemma TotalOfMore(pauses: seq<Interval>, p: Interval)
    ensures Total(pauses + [p]) == Total(pauses) + Length(p)
  {
    assert (pauses + [p])[..|pauses|] == pauses;
  }

  /** What one more event does to the history of the run. */
  lemma HistoryOfMore(w: World, events: seq<Event>)
    requires |events| > 0
    ensures var front, e := events[..|events| - 1], events[|events| - 1];
            var before, end := Run(w, front), Run(w, events);
            && Pauses(w, events) ==
               (if Ends(before, e) then Pauses(w, front) + [Interval(PausedSince(w, front), e.read.readAt)]
                 else Pauses(w, front))
            && PausedSince(w, events) == (if Stops(before, e) then e.at else PausedSince(w, front))
            && end.clock.startedAt == before.clock.startedAt && before.now <= end.now
            && end.clock.pausedAt ==
               (if Stops(before, e) then Some(e.at) else if Ends(before, e) then None else before.clock.pausedAt)
            && end.clock.pausedMs == before.clock.pausedMs + if Ends(before, e) then Delta(e.read) else 0
  {
  }

  lemma {:induction false} RunKeepsColumns(w: World, events: seq<Event>)
    requires JustStarted(w) && PossibleRun(w, events)
    ensures ColumnsRight(w, events)
    decreases |events|
  {
    if |events| > 0 {
      var front, e := events[..|events| - 1], events[|events| - 1];
      RunKeepsColumns(w, front);
      HistoryOfMore(w, events);
      if Ends(Run(w, front), e) {
        TotalOfMore(Pauses(w, front), Interval(PausedSince(w, front), e.read.readAt));
      }
      OpenReadsRight(w, front, e);
    }
  }

  lemma OpenReadsRight(w: World, front: seq<Event>, e: Event)
    requires ColumnsRight(w, front)
    ensures forall r :: r in Step(Run(w, front), e).open ==> r.pausedAt <= r.readAt <= Step(Run(w, front), e).now
  {
  }

  lemma {:induction false} RunKeepsReads(w: World, events: seq<Event>)
    requires JustStarted(w) && PossibleRun(w, events)
    ensures ReadsRight(w, events)
    decreases |events|
  {
    if |events| > 0 {
      var front, e := events[..|events| - 1], events[|events| - 1];
      RunKeepsReads(w, front);
      RunKeepsColumns(w, front);
      HistoryOfMore(w, events);
    }
  }

  /**
   * In every run, however its pauses are dated and its syncs race: the clock never runs ahead of the
   * played time, and equals it if and only if no pause takes a millisecond before the start or one that
   * another pause has taken.
   */
  lemma ClockAgainstPlayedTime(w: World, events: seq<Event>)
    requires JustStarted(w) && PossibleRun(w, events)
    ensures var end := Run(w, events);
            && end.now - Base(end.clock) <= Played(w, events)
            && (end.now - Base(end.clock) == Played(w, events) <==> Separate(Pauses(w, events), w.clock.startedAt))
  {
    RunKeepsColumns(w, events);
    LengthsCountIff(w.clock.startedAt, Run(w, events).now, Pauses(w, events));
  }

  /** No pause of the run is dated before the stretch of play that it interrupts. */
  ghost predicate WellDated(w: World, events: seq<Event>) {
    |events| == 0
    || (var front, e := events[..|events| - 1], events[|events| - 1];
        && WellDated(w, front)
        && (Stops(Run(w, front), e) ==> RunningSince(Pauses(w, front), w.clock.startedAt) <= e.at))
  }

  /** Every sync that ends a pause has read that pause, and not one before it. */
  ghost predicate OwnReads(w: World, events: seq<Event>) {
    |events| == 0
    || (var front, e := events[..|events| - 1], events[|events| - 1];
        && OwnReads(w, front)
        && (Ends(Run(w, front), e) ==> e.read in ReadsOfPause(w, front)))
  }

  /** The pause under way, if any, is dated in order too. */
  ghost predicate OpenInOrder(w: World, events: seq<Event>) {
    Run(w, events).clock.pausedAt.Some? ==> RunningSince(Pauses(w, events), w.clock.startedAt) <= PausedSince(w, events)
  }

  lemma AddedInOrder(pauses: seq<Interval>, p: Interval, start: int)
    ensures InOrder(pauses + [p], start) <==>
            InOrder(pauses, start) && (p.at < p.until ==> RunningSince(pauses, start) <= p.at)
    ensures EndsInOrder(pauses + [p], start) <==> EndsInOrder(pauses, start) && RunningSince(pauses, start) <= p.until
    ensures RunningSince(pauses + [p], start) == if p.at < p.until then p.until else RunningSince(pauses, start)
  {
    assert (pauses + [p])[..|pauses|] == pauses;
  }

  /** Dating the pauses well puts the finished ones in order, and the one under way behind them. */
  lemma {:induction false} WellDatedIsInOrder(w: World, events: seq<Event>)
    requires JustStarted(w) && PossibleRun(w, events) && WellDated(w, events)
    ensures InOrder(Pauses(w, events), w.clock.startedAt) && OpenInOrder(w, events)
    decreases |events|
  {
    if |events| > 0 {
      var front, e := events[..|events| - 1], events[|events| - 1];
      WellDatedIsInOrder(w, front);
      RunKeepsColumns(w, front);
      HistoryOfMore(w, events);
      if Ends(Run(w, front), e) {
        AddedInOrder(Pauses(w, front), Interval(PausedSince(w, front), e.read.readAt), w.clock.startedAt);
      }
    }
  }

  lemma {:induction false} SinceIsAnEnd(pauses: seq<Interval>, start: int)
    ensures RunningSince(pauses, start) == start
            || exists k :: 0 <= k < |pauses| && pauses[k].until == RunningSince(pauses, start)
  {
    if |pauses| > 0 {
      SinceIsAnEnd(pauses[..|pauses| - 1], start);
    }
  }

  lemma {:induction false} EndsAreInOrder(w: World, events: seq<Event>)
    requires JustStarted(w) && PossibleRun(w, events) && OwnReads(w, events)
    ensures EndsInOrder(Pauses(w, events), w.clock.startedAt)
    decreases |events|
  {
    if |events| > 0 {
      var front, e := events[..|events| - 1], events[|events| - 1];
      EndsAreInOrder(w, front);
      HistoryOfMore(w, events);
      if Ends(Run(w, front), e) {
        RunKeepsReads(w, front);
        SinceIsAnEnd(Pauses(w, front), w.clock.startedAt);
        AddedInOrder(Pauses(w, front), Interval(PausedSince(w, front), e.read.readAt), w.clock.startedAt);
      }
    }
  }

  /** If the finished pauses and the one under way are in order, every pause was dated well. */
  lemma {:induction false} InOrderIsWellDated(w: World, events: seq<Event>)
    requires JustStarted(w) && PossibleRun(w, events) && OwnReads(w, events)
    requires InOrder(Pauses(w, events), w.clock.startedAt) && OpenInOrder(w, events)
    ensures WellDated(w, events)
    decreases |events|
  {
    if |events| > 0 {
      var front, e := events[..|events| - 1], events[|events| - 1];
      RunKeepsColumns(w, front);
      HistoryOfMore(w, events);
      if Ends(Run(w, front), e) {
        RunKeepsReads(w, front);
        SinceIsAnEnd(Pauses(w, front), w.clock.startedAt);
        AddedInOrder(Pauses(w, front), Interval(PausedSince(w, front), e.read.readAt), w.clock.startedAt);
      }
      InOrderIsWellDated(w, front);
    }
  }

  /** With well-dated pauses the clock is played time: in every run, and whatever sync ends which pause. */
  lemma ClockIsPlayedTime(w: World, events: seq<Event>)
    requires JustStarted(w) && PossibleRun(w, events) && WellDated(w, events)
    ensures Run(w, events).now - Base(Run(w, events).clock) == Played(w, events)
  {
    WellDatedIsInOrder(w, events);
    InOrderIsSeparate(Pauses(w, events), w.clock.startedAt);
    ClockAgainstPlayedTime(w, events);
  }

  /**
   * Whenever the tournament is running: the time since the base is the played time if and only if no
   * pause was dated before the stretch of play it interrupted.
   */
  lemma ClockIsPlayedTimeIff(w: World, events: seq<Event>)
    requires JustStarted(w) && PossibleRun(w, events) && OwnReads(w, events)
    requires Run(w, events).clock.status == ONGOING
    ensures Run(w, events).now - Base(Run(w, events).clock) == Played(w, events) <==> WellDated(w, events)
  {
    RunKeepsColumns(w, events);
    ClockAgainstPlayedTime(w, events);
    if WellDated(w, events) {
      ClockIsPlayedTime(w, events);
    } else if Separate(Pauses(w, events), w.clock.startedAt) {
      EndsAreInOrder(w, events);
      SeparateIsInOrder(Pauses(w, events), w.clock.startedAt);
      InOrderIsWellDated(w, events);
    }
  }

  /** The level at the moment play resumes is the level at which the pause caught it. */
  lemma ResumesWhereItStopped(w: World, events: seq<Event>, r: SyncRead, structure: seq<BlindLevel>,
                              timing: BlindTiming)
    requires JustStarted(w) && PossibleRun(w, events)
    requires Ends(Run(w, events), Commit(r))
    requires TimingOf(structure, Base(Run(w, events).clock), PausedSince(w, events), timing)
    ensures TimingOf(structure, Base(Run(w, events + [Commit(r)]).clock), r.readAt,
                     timing.(nextLevelAt := timing.nextLevelAt + Delta(r)))
  {
    RunKeepsColumns(w, events);
    assert (events + [Commit(r)])[..|events|] == events;
    ShiftMovesNothing(structure, Base(Run(w, events).clock), PausedSince(w, events), Delta(r), timing);
  }

  /** The base that `completeSync` writes to the cache, from what it read of this pause, is the database's. */
  lemma CacheMatchesDatabase(w: World, events: seq<Event>, r: SyncRead)
    requires JustStarted(w) && PossibleRun(w, events)
    requires Ends(Run(w, events), Commit(r)) && r in ReadsOfPause(w, events)
    ensures w.clock.startedAt + r.pausedMs + Delta(r) == Base(Run(w, events + [Commit(r)]).clock)
  {
    RunKeepsColumns(w, events);
    RunKeepsReads(w, events);
    assert (events + [Commit(r)])[..|events|] == events;
  }

  /** However many syncs have read a pause, only the first of them to commit ends it. */
  lemma RacingSyncsCountOnce(w: World, events: seq<Event>, r: SyncRead, q: SyncRead)
    requires Ends(Run(w, events), Commit(r))
    ensures Pauses(w, events + [Commit(r), Commit(q)]) == Pauses(w, events + [Commit(r)])
    ensures Run(w, events + [Commit(r), Commit(q)]).clock == Run(w, events + [Commit(r)]).clock
  {
    var one, two := events + [Commit(r)], events + [Commit(r), Commit(q)];
    assert one[..|events|] == events && two[..|one|] == one;
  }

  lemma RunOfMore(w: World, front: seq<Event>, e: Event)
    ensures Run(w, front + [e]) == Step(Run(w, front), e)
    ensures PossibleRun(w, front + [e]) <==> PossibleRun(w, front) && (e.Pause? ==> e.at <= Run(w, front).now)
  {
    assert (front + [e])[..|front|] == front;
  }

  /** A clean pause: caught at 62 seconds of play, ten seconds long. */
  function CleanPause(): seq<Event> {
    [Tick(62000), Event.Pause(62000), Tick(10000), ReadSync, Commit(SyncRead(62000, 0, 72000))]
  }

  /** One second later the process dies; at the restart, two seconds on, the last heartbeat is six seconds old. */
  function HeartbeatPause(): seq<Event> {
    [Tick(3000), Event.Pause(69000), ReadSync, Commit(SyncRead(69000, 10000, 75000))]
  }

  function Fresh(): World {
    World(Clock(ONGOING, 0, None, 0), {}, 0)
  }

  lemma AfterCleanPause()
    ensures PossibleRun(Fresh(), CleanPause())
    ensures Run(Fresh(), CleanPause()) == World(Clock(ONGOING, 0, None, 10000), {}, 72000)
  {
    var e, w := CleanPause(), Fresh();
    assert [] + [e[0]] == e[..1] && e[..1] + [e[1]] == e[..2] && e[..2] + [e[2]] == e[..3];
    assert e[..3] + [e[3]] == e[..4] && e[..4] + [e[4]] == e;
    RunOfMore(w, [], e[0]);
    RunOfMore(w, e[..1], e[1]);
    RunOfMore(w, e[..2], e[2]);
    RunOfMore(w, e[..3], e[3]);
    RunOfMore(w, e[..4], e[4]);
  }

  lemma AfterHeartbeatPause()
    ensures PossibleRun(Fresh(), CleanPause() + HeartbeatPause())
    ensures Run(Fresh(), CleanPause() + HeartbeatPause()) == World(Clock(ONGOING, 0, None, 16000), {}, 75000)
  {
    AfterCleanPause();
    var c, h, w := CleanPause(), HeartbeatPause(), Fresh();
    var s1 := c + [h[0]];
    var s2 := s1 + [h[1]];
    var s3 := s2 + [h[2]];
    RunOfMore(w, c, h[0]);
    RunOfMore(w, s1, h[1]);
    RunOfMore(w, s2, h[2]);
    RunOfMore(w, s3, h[3]);
    assert s3 + [h[3]] == c + h;
  }

  /**
   * A restart may date its pause by a heartbeat older than the last resume, and then the level falls:
   * the table resumed in its second level, played on, and resumes next time in its first.
   */
  lemma HeartbeatDatedLevelFalls(structure: seq<BlindLevel>, first: BlindTiming, second: BlindTiming)
    requires |structure| == 2 && structure[0].duration == 1 && structure[1].duration == 1
    requires TimingOf(structure, Base(Run(Fresh(), CleanPause()).clock), Run(Fresh(), CleanPause()).now, first)
    requires var end := Run(Fresh(), CleanPause() + HeartbeatPause());
             TimingOf(structure, Base(end.clock), end.now, second)
    ensures JustStarted(Fresh()) && PossibleRun(Fresh(), CleanPause() + HeartbeatPause())
    ensures first.currentIndex == 1 && second.currentIndex == 0
  {
    AfterCleanPause();
    AfterHeartbeatPause();
    assert EndOf(structure, 0) == 60000 && EndOf(structure, 1) == 120000;
  }
}

/** The blind level as a function of the time since a base. */
module BlindClock {
  import opened TableTypes

  const MS_PER_MINUTE: int := 60 * 1000
  const A_DAY: int := 24 * 60 * 60 * 1000
  const BREAK_LEVEL: int := 99

  datatype BlindLevel = BlindLevel(lv: int, sb: int, ante: bool, duration: int)

  datatype BlindTiming = BlindTiming(currentIndex: int, nextLevelAt: int, isBreak: bool)

  /** The played time at which level `i` ends. */
  function EndOf(structure: seq<BlindLevel>, i: nat): int
    requires i < |structure|
  {
    (if i == 0 then 0 else EndOf(structure, i - 1)) + structure[i].duration * MS_PER_MINUTE
  }

  /** What `getCurrentBlindLevel` promises: the first level not yet over, or the last one for good. */
  ghost predicate TimingOf(structure: seq<BlindLevel>, startedAt: int, now: int, r: BlindTiming) {
    && 0 <= r.currentIndex < |structure|
    && (forall k :: 0 <= k < r.currentIndex ==> now - startedAt >= EndOf(structure, k))
    && (if now - startedAt < EndOf(structure, r.currentIndex)
        then r.nextLevelAt == startedAt + EndOf(structure, r.currentIndex)
        else r.currentIndex == |structure| - 1 && r.nextLevelAt == now + A_DAY)
    && (r.isBreak <==> structure[r.currentIndex].lv == BREAK_LEVEL)
  }

  /** `getCurrentBlindLevel`; `None` stands for its exception on an empty structure. */
  method GetCurrentBlindLevel(structure: seq<BlindLevel>, startedAt: int, now: int) returns (r: Option<BlindTiming>)
    ensures r.None? <==> |structure| == 0
    ensures r.Some? ==> TimingOf(structure, startedAt, now, r.value)
  {
    var elapsedMs := now - startedAt;
    var accumulatedMs := 0;
    var i := 0;
    while i < |structure|
      invariant 0 <= i <= |structure|
      invariant accumulatedMs == if i == 0 then 0 else EndOf(structure, i - 1)
      invariant forall k :: 0 <= k < i ==> elapsedMs >= EndOf(structure, k)
    {
      accumulatedMs := accumulatedMs + structure[i].duration * 60 * 1000;
      if elapsedMs < accumulatedMs {
        return Some(BlindTiming(i, startedAt + accumulatedMs, structure[i].lv == BREAK_LEVEL));
      }
      i := i + 1;
    }
    if |structure| == 0 {
      return None;
    }
    var last := structure[|structure| - 1];
    r := Some(BlindTiming(|structure| - 1, now + 24 * 60 * 60 * 1000, last.lv == BREAK_LEVEL));
  }

  /** As time goes on the level never falls. */
  lemma LevelNeverFalls(structure: seq<BlindLevel>, startedAt: int, now: int, later: int, r: BlindTiming,
                        q: BlindTiming)
    requires TimingOf(structure, startedAt, now, r) && TimingOf(structure, startedAt, later, q) && now <= later
    ensures r.currentIndex <= q.currentIndex
  {
    assert EndOf(structure, q.currentIndex) <= now - startedAt || r.currentIndex <= q.currentIndex;
  }

  /** The answer is determined by the structure and the two times. */
  lemma TimingIsUnique(structure: seq<BlindLevel>, startedAt: int, now: int, r: BlindTiming, q: BlindTiming)
    requires TimingOf(structure, startedAt, now, r) && TimingOf(structure, startedAt, now, q)
    ensures r == q
  {
    LevelNeverFalls(structure, startedAt, now, now, r, q);
    LevelNeverFalls(structure, startedAt, now, now, q, r);
  }

  /** Moving the base and the present together moves the next level with them, and nothing else. */
  lemma ShiftMovesNothing(structure: seq<BlindLevel>, startedAt: int, now: int, shift: int, r: BlindTiming)
    requires TimingOf(structure, startedAt, now, r)
    ensures TimingOf(structure, startedAt + shift, now + shift, r.(nextLevelAt := r.nextLevelAt + shift))
  {
  }

  ghost predicate PositiveDurations(structure: seq<BlindLevel>) {
    forall i :: 0 <= i < |structure| ==> structure[i].duration > 0
  }

  lemma {:induction false} EndsAscend(structure: seq<BlindLevel>, i: nat, j: nat)
    requires PositiveDurations(structure) && i < j < |structure|
    ensures EndOf(structure, i) < EndOf(structure, j)
    decreases j
  {
    if i < j - 1 {
      EndsAscend(structure, i, j - 1);
    }
  }

  /** `nextLevelAt` is the moment the level changes: not a millisecond before, and to the next level exactly. */
  lemma NextLevelIsExact(structure: seq<BlindLevel>, startedAt: int, now: int, later: int, r: BlindTiming,
                         q: BlindTiming)
    requires PositiveDurations(structure) && r.currentIndex < |structure| - 1
    requires TimingOf(structure, startedAt, now, r) && TimingOf(structure, startedAt, later, q) && now <= later
    ensures later < r.nextLevelAt <==> q.currentIndex == r.currentIndex
    ensures later == r.nextLevelAt ==> q.currentIndex == r.currentIndex + 1
  {
    LevelNeverFalls(structure, startedAt, now, later, r, q);
    if q.currentIndex > r.currentIndex {
      assert later - startedAt >= EndOf(structure, r.currentIndex);
    }
    EndsAscend(structure, r.currentIndex, r.currentIndex + 1);
    if q.currentIndex > r.currentIndex + 1 {
      assert later - startedAt >= EndOf(structure, r.currentIndex + 1);
    }
  }
}

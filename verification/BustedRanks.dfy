/** Players who bust in the same hand: their places follow their starting stacks, ties share. */
module BustedRanks {
  import opened Sums
  import opened TableTypes
  import opened Prizes

  datatype BustedPlayer = BustedPlayer(userId: PlayerId, seatIndex: int, handStartStack: int)

  datatype Award = Award(userId: PlayerId, place: int, amount: int)

  /** The order of the awards: larger stacks first, and among equal stacks the lower seat. */
  predicate Before(a: BustedPlayer, b: BustedPlayer) {
    a.handStartStack > b.handStartStack || (a.handStartStack == b.handStartStack && a.seatIndex <= b.seatIndex)
  }

  function InsertBusted(ordered: seq<BustedPlayer>, p: BustedPlayer): (r: seq<BustedPlayer>)
    ensures |r| == |ordered| + 1
  {
    if |ordered| == 0 || Before(ordered[|ordered| - 1], p) then ordered + [p]
    else InsertBusted(ordered[..|ordered| - 1], p) + [ordered[|ordered| - 1]]
  }

  function OrderBusted(busted: seq<BustedPlayer>): (r: seq<BustedPlayer>)
    ensures |r| == |busted|
  {
    if |busted| == 0 then []
    else InsertBusted(OrderBusted(busted[..|busted| - 1]), busted[|busted| - 1])
  }

  ghost predicate Ordered(ps: seq<BustedPlayer>) {
    forall a, b :: 0 <= a < b < |ps| ==> Before(ps[a], ps[b])
  }

  lemma {:induction false} InsertBustedSorts(ordered: seq<BustedPlayer>, p: BustedPlayer)
    requires Ordered(ordered)
    ensures Ordered(InsertBusted(ordered, p))
    ensures multiset(InsertBusted(ordered, p)) == multiset(ordered) + multiset{p}
  {
    var n := |ordered|;
    if n > 0 && !Before(ordered[n - 1], p) {
      var r := InsertBusted(ordered[..n - 1], p);
      InsertBustedSorts(ordered[..n - 1], p);
      assert ordered == ordered[..n - 1] + [ordered[n - 1]];
      forall a | 0 <= a < |r| ensures Before(r[a], ordered[n - 1]) {
        assert r[a] in multiset(r);
        if r[a] != p {
          assert r[a] in ordered[..n - 1];
        }
      }
    } else if n > 0 {
      assert forall a :: 0 <= a < n ==> Before(ordered[a], p);
    }
  }

  lemma {:induction false} OrderBustedSorts(busted: seq<BustedPlayer>)
    ensures Ordered(OrderBusted(busted))
    ensures multiset(OrderBusted(busted)) == multiset(busted)
  {
    var n := |busted|;
    if n > 0 {
      OrderBustedSorts(busted[..n - 1]);
      InsertBustedSorts(OrderBusted(busted[..n - 1]), busted[n - 1]);
      assert busted == busted[..n - 1] + [busted[n - 1]];
    }
  }

  /** No two of them sit in the same seat, as at one table. */
  ghost predicate DistinctSeats(ps: seq<BustedPlayer>) {
    forall a, b :: 0 <= a < b < |ps| ==> ps[a].seatIndex != ps[b].seatIndex
  }

  /** The end of the group of equal stacks that begins at `start`. */
  function GroupEnd(ordered: seq<BustedPlayer>, start: nat, end: nat): (r: nat)
    requires start < end <= |ordered|
    ensures end <= r <= |ordered|
    decreases |ordered| - end
  {
    if end < |ordered| && ordered[end].handStartStack == ordered[start].handStartStack
    then GroupEnd(ordered, start, end + 1) else end
  }

  /** The share of the i-th of `n` members: the rounded-down part, and one unit of the remainder if any is left. */
  function ShareOf(total: int, n: nat, i: nat): int
    requires n > 0
  {
    total / n + if i < total % n then 1 else 0
  }

  function GroupAwards(group: seq<BustedPlayer>, place: int, total: int): (r: seq<Award>)
    ensures |r| == |group|
  {
    seq(|group|, i requires 0 <= i < |group| => Award(group[i].userId, place, ShareOf(total, |group|, i)))
  }

  /** The awards of the group of equal stacks from `start` up to `end`. */
  function GroupOf(ordered: seq<BustedPlayer>, firstPlace: int, prize: int -> int, start: nat,
                   end: nat): (r: seq<Award>)
    requires start < end <= |ordered|
    ensures |r| == end - start
  {
    GroupAwards(ordered[start..end], firstPlace + start, PrizeRange(prize, firstPlace + start, firstPlace + end))
  }

  /** The awards from position `start` on. */
  function AwardsFrom(ordered: seq<BustedPlayer>, firstPlace: int, prize: int -> int, start: nat): (r: seq<Award>)
    requires start <= |ordered|
    ensures |r| == |ordered| - start
    decreases |ordered| - start
  {
    if start == |ordered| then []
    else
      var end := GroupEnd(ordered, start, start + 1);
      GroupOf(ordered, firstPlace, prize, start, end) + AwardsFrom(ordered, firstPlace, prize, end)
  }

  /** `splitBustedRanks`, for any prize per place. */
  function SplitBustedRanks(busted: seq<BustedPlayer>, lastPlace: int, prize: int -> int): (r: seq<Award>)
    ensures |r| == |busted|
  {
    AwardsFrom(OrderBusted(busted), lastPlace - |busted| + 1, prize, 0)
  }

  method SplitRanks(busted: seq<BustedPlayer>, lastPlace: int, pool: int, payouts: seq<PrizePayout>)
    returns (awards: seq<Award>)
    ensures awards == SplitBustedRanks(busted, lastPlace, PrizeTable(pool, payouts))
  {
    var firstPlace := lastPlace - |busted| + 1;
    var ordered := OrderBusted(busted);
    awards := AwardGroups(ordered, firstPlace, PrizeTable(pool, payouts));
  }

  /** What has been awarded, and what the groups from `start` on still have coming, are all the awards. */
  ghost predicate Outstanding(ordered: seq<BustedPlayer>, firstPlace: int, prize: int -> int, awards: seq<Award>,
                              start: nat)
    requires start <= |ordered|
  {
    AwardsFrom(ordered, firstPlace, prize, 0) == awards + AwardsFrom(ordered, firstPlace, prize, start)
  }

  lemma OutstandingStep(ordered: seq<BustedPlayer>, firstPlace: int, prize: int -> int, awards: seq<Award>,
                    members: seq<Award>, start: nat, end: nat)
    requires start < |ordered| && Outstanding(ordered, firstPlace, prize, awards, start)
    requires end == GroupEnd(ordered, start, start + 1)
    requires members == GroupOf(ordered, firstPlace, prize, start, end)
    ensures Outstanding(ordered, firstPlace, prize, awards + members, end)
  {
    var tail := AwardsFrom(ordered, firstPlace, prize, end);
    assert awards + (members + tail) == awards + members + tail;
  }

  lemma OutstandingEnds(ordered: seq<BustedPlayer>, firstPlace: int, prize: int -> int, awards: seq<Award>)
    requires Outstanding(ordered, firstPlace, prize, awards, |ordered|)
    ensures awards == AwardsFrom(ordered, firstPlace, prize, 0)
  {
    assert awards + [] == awards;
  }

  /** The source's outer loop over the groups of equal stacks. */
  method AwardGroups(ordered: seq<BustedPlayer>, firstPlace: int, prize: int -> int) returns (awards: seq<Award>)
    ensures awards == AwardsFrom(ordered, firstPlace, prize, 0)
  {
    awards := [];
    var start := 0;
    while start < |ordered|
      invariant 0 <= start <= |ordered|
      invariant Outstanding(ordered, firstPlace, prize, awards, start)
    {
      var end := FindGroupEnd(ordered, start);
      var members := AwardGroup(ordered, firstPlace, prize, start, end);
      OutstandingStep(ordered, firstPlace, prize, awards, members, start, end);
      awards := awards + members;
      start := end;
    }
    OutstandingEnds(ordered, firstPlace, prize, awards);
  }

  method FindGroupEnd(ordered: seq<BustedPlayer>, start: nat) returns (end: nat)
    requires start < |ordered|
    ensures end == GroupEnd(ordered, start, start + 1)
  {
    end := start + 1;
    while end < |ordered| && ordered[end].handStartStack == ordered[start].handStartStack
      invariant start < end <= |ordered|
      invariant GroupEnd(ordered, start, start + 1) == GroupEnd(ordered, start, end)
    {
      end := end + 1;
    }
  }

  method SumPrizes(prize: int -> int, place: int, size: nat) returns (total: int)
    ensures total == PrizeRange(prize, place, place + size)
  {
    total := 0;
    var p := place;
    while p < place + size
      invariant place <= p <= place + size
      invariant total == PrizeRange(prize, place, p)
    {
      total := total + prize(p);
      p := p + 1;
    }
  }

  lemma DivRest(total: int, n: nat)
    requires n > 0
    ensures total == total / n * n + total % n && 0 <= total % n < n
  {
  }

  method AwardGroup(ordered: seq<BustedPlayer>, firstPlace: int, prize: int -> int, start: nat, end: nat)
    returns (awards: seq<Award>)
    requires start < end <= |ordered|
    ensures awards == GroupOf(ordered, firstPlace, prize, start, end)
  {
    var total := SumPrizes(prize, firstPlace + start, end - start);
    awards := ShareOut(ordered[start..end], firstPlace + start, total);
  }

  /** The source's inner loop: the units of the remainder go to the first members, one each. */
  method ShareOut(group: seq<BustedPlayer>, place: int, total: int) returns (awards: seq<Award>)
    requires |group| > 0
    ensures awards == GroupAwards(group, place, total)
  {
    var each := total / |group|;
    var rest := total - each * |group|;
    DivRest(total, |group|);
    ghost var initialRest := rest;
    awards := [];
    var k := 0;
    while k < |group|
      invariant 0 <= k <= |group| && |awards| == k
      invariant rest == Max(0, initialRest - k)
      invariant forall i :: 0 <= i < k ==>
                awards[i] == Award(group[i].userId, place, each + if i < initialRest then 1 else 0)
    {
      var extra := if rest > 0 then 1 else 0;
      rest := rest - extra;
      awards := awards + [Award(group[k].userId, place, each + extra)];
      k := k + 1;
    }
  }

  function AwardAmounts(awards: seq<Award>): (r: seq<int>)
    ensures |r| == |awards|
    ensures forall k :: 0 <= k < |awards| ==> r[k] == awards[k].amount
  {
    seq(|awards|, k requires 0 <= k < |awards| => awards[k].amount)
  }

  /** `n` equal shares with the first `rest` of them raised by one. */
  lemma {:induction false} DealtSum(amounts: seq<int>, each: int, rest: int, n: nat)
    requires |amounts| == n && 0 <= rest
    requires forall i :: 0 <= i < n ==> amounts[i] == each + if i < rest then 1 else 0
    ensures Sum(amounts) == each * n + Min(rest, n)
    decreases n
  {
    if n > 0 {
      DealtSum(amounts[..n - 1], each, rest, n - 1);
      assert each * n == each * (n - 1) + each;
    }
  }

  lemma GroupSum(ordered: seq<BustedPlayer>, firstPlace: int, prize: int -> int, start: nat, end: nat)
    requires start < end <= |ordered|
    ensures PaysRange(GroupOf(ordered, firstPlace, prize, start, end), prize, firstPlace + start, firstPlace + end)
  {
    var total := PrizeRange(prize, firstPlace + start, firstPlace + end);
    DivRest(total, end - start);
    DealtSum(AwardAmounts(GroupOf(ordered, firstPlace, prize, start, end)), total / (end - start),
      total % (end - start), end - start);
  }

  lemma AmountsConcat(a: seq<Award>, b: seq<Award>)
    ensures Sum(AwardAmounts(a + b)) == Sum(AwardAmounts(a)) + Sum(AwardAmounts(b))
  {
    assert AwardAmounts(a + b) == AwardAmounts(a) + AwardAmounts(b);
    SumConcat(AwardAmounts(a), AwardAmounts(b));
  }

  /** The awards hand out the prizes of the places from `lo` up to but not including `hi`. */
  ghost predicate PaysRange(awards: seq<Award>, prize: int -> int, lo: int, hi: int) {
    Sum(AwardAmounts(awards)) == PrizeRange(prize, lo, hi)
  }

  lemma PaysRangeConcat(a: seq<Award>, b: seq<Award>, prize: int -> int, lo: int, mid: int, hi: int)
    requires lo <= mid <= hi && PaysRange(a, prize, lo, mid) && PaysRange(b, prize, mid, hi)
    ensures PaysRange(a + b, prize, lo, hi)
  {
    AmountsConcat(a, b);
    PrizeRangeSplits(prize, lo, mid, hi);
  }

  lemma {:induction false} AwardsFromSum(ordered: seq<BustedPlayer>, firstPlace: int, prize: int -> int, start: nat)
    requires start <= |ordered|
    ensures PaysRange(AwardsFrom(ordered, firstPlace, prize, start), prize, firstPlace + start, firstPlace + |ordered|)
    decreases |ordered| - start
  {
    if start < |ordered| {
      var end := GroupEnd(ordered, start, start + 1);
      GroupSum(ordered, firstPlace, prize, start, end);
      AwardsFromSum(ordered, firstPlace, prize, end);
      PaysRangeConcat(GroupOf(ordered, firstPlace, prize, start, end), AwardsFrom(ordered, firstPlace, prize, end),
                      prize, firstPlace + start, firstPlace + end, firstPlace + |ordered|);
    }
  }

  /** A batch is paid exactly what the places it takes are worth. */
  lemma SplitPaysInterval(busted: seq<BustedPlayer>, lastPlace: int, prize: int -> int)
    ensures PaysRange(SplitBustedRanks(busted, lastPlace, prize), prize, lastPlace - |busted| + 1, lastPlace + 1)
  {
    AwardsFromSum(OrderBusted(busted), lastPlace - |busted| + 1, prize, 0);
  }

  ghost predicate GroupIs(ordered: seq<BustedPlayer>, start: nat, end: nat) {
    && start < end <= |ordered|
    && (forall k :: start <= k < end ==> ordered[k].handStartStack == ordered[start].handStartStack)
    && (forall k :: end <= k < |ordered| ==> ordered[k].handStartStack < ordered[start].handStartStack)
  }

  lemma {:induction false} GroupEndIs(ordered: seq<BustedPlayer>, start: nat, end: nat)
    requires start < end <= |ordered| && Ordered(ordered)
    requires forall k :: start <= k < end ==> ordered[k].handStartStack == ordered[start].handStartStack
    ensures GroupIs(ordered, start, GroupEnd(ordered, start, end))
    decreases |ordered| - end
  {
    if end < |ordered| {
      assert Before(ordered[start], ordered[end]);
      if ordered[end].handStartStack == ordered[start].handStartStack {
        GroupEndIs(ordered, start, end + 1);
      } else {
        forall k | end <= k < |ordered| ensures ordered[k].handStartStack < ordered[start].handStartStack {
          assert k == end || Before(ordered[end], ordered[k]);
        }
      }
    }
  }

  ghost predicate AllLarger(ordered: seq<BustedPlayer>, start: nat)
    requires start < |ordered|
  {
    forall j :: 0 <= j < start ==> ordered[j].handStartStack > ordered[start].handStartStack
  }

  /** The award of the k-th player in order, seen through the group the player is in. */
  ghost predicate AwardedInGroup(ordered: seq<BustedPlayer>, firstPlace: int, prize: int -> int,
                                 award: Award, start: nat, end: nat, k: nat)
  {
    && GroupIs(ordered, start, end) && start <= k < end
    && award == Award(ordered[k].userId, firstPlace + start,
                      ShareOf(PrizeRange(prize, firstPlace + start, firstPlace + end), end - start, k - start))
    && AllLarger(ordered, start)
  }

  /** Every player is awarded in the group of those who started the hand with the same stack. */
  lemma {:induction false} AwardGroupOf(ordered: seq<BustedPlayer>, firstPlace: int, prize: int -> int,
                                        from: nat, k: nat) returns (start: nat, end: nat)
    requires Ordered(ordered) && from <= k < |ordered| && AllLarger(ordered, from)
    ensures AwardedInGroup(ordered, firstPlace, prize, AwardsFrom(ordered, firstPlace, prize, from)[k - from], start,
            end, k)
    decreases |ordered| - from
  {
    start, end := from, GroupEnd(ordered, from, from + 1);
    GroupEndIs(ordered, from, from + 1);
    if k < end {
      InFirstGroup(ordered, firstPlace, prize, from, end, k);
    } else {
      NextGroupLarger(ordered, from, end);
      start, end := AwardGroupOf(ordered, firstPlace, prize, end, k);
    }
  }

  lemma NextGroupLarger(ordered: seq<BustedPlayer>, start: nat, end: nat)
    requires GroupIs(ordered, start, end) && end < |ordered| && AllLarger(ordered, start)
    ensures AllLarger(ordered, end)
  {
    assert ordered[end].handStartStack < ordered[start].handStartStack;
  }

  lemma InFirstGroup(ordered: seq<BustedPlayer>, firstPlace: int, prize: int -> int, start: nat, end: nat, k: nat)
    requires GroupIs(ordered, start, end) && start <= k < end && AllLarger(ordered, start)
    requires end == GroupEnd(ordered, start, start + 1)
    ensures AwardedInGroup(ordered, firstPlace, prize, AwardsFrom(ordered, firstPlace, prize, start)[k - start],
            start, end, k)
  {
    var group := GroupOf(ordered, firstPlace, prize, start, end);
    assert AwardsFrom(ordered, firstPlace, prize, start)[k - start] == group[k - start];
  }

  /** How many of the players held more than `stack`. */
  function HeldMore(ps: seq<BustedPlayer>, stack: int): nat {
    if |ps| == 0 then 0
    else HeldMore(ps[..|ps| - 1], stack) + if ps[|ps| - 1].handStartStack > stack then 1 else 0
  }

  lemma {:induction false} HeldMoreOfOrdered(ordered: seq<BustedPlayer>, start: nat, n: nat)
    requires Ordered(ordered) && start < |ordered| && n <= |ordered|
    requires forall k :: 0 <= k < start ==> ordered[k].handStartStack > ordered[start].handStartStack
    ensures HeldMore(ordered[..n], ordered[start].handStartStack) == Min(n, start)
  {
    if n > 0 {
      HeldMoreOfOrdered(ordered, start, n - 1);
      assert ordered[..n][..n - 1] == ordered[..n - 1];
      if start < n - 1 {
        assert Before(ordered[start], ordered[n - 1]);
      }
    }
  }

  lemma {:induction false} HeldMoreOfMultiset(ps: seq<BustedPlayer>, qs: seq<BustedPlayer>, stack: int)
    requires multiset(ps) == multiset(qs)
    ensures HeldMore(ps, stack) == HeldMore(qs, stack)
    decreases |ps|
  {
    assert |ps| == |multiset(ps)| == |multiset(qs)| == |qs|;
    if |ps| > 0 {
      var j := MatchLast(ps, qs);
      HeldMoreOfMultiset(ps[..|ps| - 1], qs[..j] + qs[j + 1..], stack);
      HeldMoreWithout(qs, j, stack);
    }
  }

  lemma MatchLast(ps: seq<BustedPlayer>, qs: seq<BustedPlayer>) returns (j: nat)
    requires |ps| > 0 && multiset(ps) == multiset(qs)
    ensures j < |qs| && qs[j] == ps[|ps| - 1]
    ensures multiset(ps[..|ps| - 1]) == multiset(qs[..j] + qs[j + 1..])
  {
    var n := |ps| - 1;
    assert ps[n] in multiset(qs);
    j :| 0 <= j < |qs| && qs[j] == ps[n];
    TakenOut(ps, n);
    TakenOut(qs, j);
    assert ps[..n] + ps[n + 1..] == ps[..n];
  }

  lemma TakenOut(ps: seq<BustedPlayer>, j: nat)
    requires j < |ps|
    ensures multiset(ps[..j] + ps[j + 1..]) == multiset(ps) - multiset{ps[j]}
  {
    assert ps == ps[..j] + [ps[j]] + ps[j + 1..];
  }

  lemma {:induction false} HeldMoreWithout(qs: seq<BustedPlayer>, j: nat, stack: int)
    requires j < |qs|
    ensures HeldMore(qs, stack) ==
            HeldMore(qs[..j] + qs[j + 1..], stack) + if qs[j].handStartStack > stack then 1 else 0
    decreases |qs|
  {
    var n := |qs| - 1;
    if j == n {
      assert qs[..j] + qs[j + 1..] == qs[..n];
    } else {
      HeldMoreWithout(qs[..n], j, stack);
      var rest := qs[..j] + qs[j + 1..];
      assert rest[..|rest| - 1] == qs[..n][..j] + qs[..n][j + 1..];
    }
  }

  lemma PlaceInOrder(ordered: seq<BustedPlayer>, firstPlace: int, prize: int -> int, k: nat)
    requires Ordered(ordered) && k < |ordered|
    ensures var a := AwardsFrom(ordered, firstPlace, prize, 0)[k];
            a.userId == ordered[k].userId && a.place == firstPlace + HeldMore(ordered, ordered[k].handStartStack)
  {
    var start, end := AwardGroupOf(ordered, firstPlace, prize, 0, k);
    HeldMoreOfOrdered(ordered, start, |ordered|);
    assert ordered[..|ordered|] == ordered;
  }

  /**
   * Every busted player gets exactly one award, and its place is the first place of the batch plus
   * the number of players in the batch who started with more chips.
   */
  lemma PlaceIsHeldMore(busted: seq<BustedPlayer>, lastPlace: int, prize: int -> int, k: nat)
    requires k < |busted|
    ensures var a := SplitBustedRanks(busted, lastPlace, prize)[k];
            var p := OrderBusted(busted)[k];
            && multiset(OrderBusted(busted)) == multiset(busted)
            && a.userId == p.userId
            && a.place == lastPlace - |busted| + 1 + HeldMore(busted, p.handStartStack)
  {
    OrderBustedSorts(busted);
    PlaceOfSorted(busted, OrderBusted(busted), lastPlace, prize, k);
  }

  lemma PlaceOfSorted(busted: seq<BustedPlayer>, ordered: seq<BustedPlayer>, lastPlace: int, prize: int -> int, k: nat)
    requires Ordered(ordered) && multiset(ordered) == multiset(busted) && k < |ordered|
    ensures var a := AwardsFrom(ordered, lastPlace - |busted| + 1, prize, 0)[k];
            && a.userId == ordered[k].userId
            && a.place == lastPlace - |busted| + 1 + HeldMore(busted, ordered[k].handStartStack)
  {
    PlaceInOrder(ordered, lastPlace - |busted| + 1, prize, k);
    HeldMoreOfMultiset(ordered, busted, ordered[k].handStartStack);
  }

  lemma {:induction false} HeldMoreStrict(ps: seq<BustedPlayer>, p: BustedPlayer, stack: int)
    requires p in ps && p.handStartStack > stack
    ensures HeldMore(ps, p.handStartStack) < HeldMore(ps, stack)
  {
    if |ps| > 0 {
      var n := |ps| - 1;
      HeldMoreMonotone(ps[..n], p.handStartStack, stack);
      if ps[n] != p {
        assert p in ps[..n];
        HeldMoreStrict(ps[..n], p, stack);
      }
    }
  }

  lemma {:induction false} HeldMoreMonotone(ps: seq<BustedPlayer>, more: int, less: int)
    requires more >= less
    ensures HeldMore(ps, more) <= HeldMore(ps, less)
  {
    if |ps| > 0 {
      HeldMoreMonotone(ps[..|ps| - 1], more, less);
    }
  }

  /** A larger starting stack always takes a strictly better place; equal stacks take the same one. */
  lemma LargerStackRanksHigher(busted: seq<BustedPlayer>, lastPlace: int, prize: int -> int, j: nat, k: nat)
    requires j < |busted| && k < |busted|
    ensures var awards := SplitBustedRanks(busted, lastPlace, prize);
            var ordered := OrderBusted(busted);
            && (ordered[j].handStartStack > ordered[k].handStartStack <==> awards[j].place < awards[k].place)
            && (ordered[j].handStartStack == ordered[k].handStartStack <==> awards[j].place == awards[k].place)
  {
    var ordered := OrderBusted(busted);
    PlaceIsHeldMore(busted, lastPlace, prize, j);
    PlaceIsHeldMore(busted, lastPlace, prize, k);
    assert ordered[j] in multiset(ordered) && ordered[k] in multiset(ordered);
    assert ordered[j] in busted && ordered[k] in busted;
    if ordered[j].handStartStack > ordered[k].handStartStack {
      HeldMoreStrict(busted, ordered[j], ordered[k].handStartStack);
    } else if ordered[k].handStartStack > ordered[j].handStartStack {
      HeldMoreStrict(busted, ordered[k], ordered[j].handStartStack);
    }
  }

  lemma ShareOfDiffers(total: int, n: nat, i: nat, j: nat)
    requires n > 0 && i <= j
    ensures ShareOf(total, n, j) <= ShareOf(total, n, i) <= ShareOf(total, n, j) + 1
  {
  }

  lemma SameGroup(ordered: seq<BustedPlayer>, s1: nat, e1: nat, s2: nat, e2: nat, j: nat, k: nat)
    requires GroupIs(ordered, s1, e1) && s1 <= j < e1 && GroupIs(ordered, s2, e2) && s2 <= k < e2
    requires ordered[j].handStartStack == ordered[k].handStartStack
    requires forall i :: 0 <= i < s1 ==> ordered[i].handStartStack > ordered[s1].handStartStack
    requires forall i :: 0 <= i < s2 ==> ordered[i].handStartStack > ordered[s2].handStartStack
    ensures s1 == s2 && e1 == e2
  {
    assert ordered[s1].handStartStack == ordered[s2].handStartStack;
    assert s1 == s2;
    assert e1 < |ordered| ==> ordered[e1].handStartStack < ordered[s1].handStartStack;
    assert e2 < |ordered| ==> ordered[e2].handStartStack < ordered[s2].handStartStack;
  }

  lemma EvenInGroup(ordered: seq<BustedPlayer>, firstPlace: int, prize: int -> int,
                    a: Award, b: Award, s1: nat, e1: nat, s2: nat, e2: nat, j: nat, k: nat)
    requires j < k < |ordered| && ordered[j].handStartStack == ordered[k].handStartStack
    requires AwardedInGroup(ordered, firstPlace, prize, a, s1, e1, j)
    requires AwardedInGroup(ordered, firstPlace, prize, b, s2, e2, k)
    ensures b.amount <= a.amount <= b.amount + 1
  {
    SameGroup(ordered, s1, e1, s2, e2, j, k);
    ShareOfDiffers(PrizeRange(prize, firstPlace + s1, firstPlace + e1), e1 - s1, j - s1, k - s1);
  }

  predicate SameStack(ordered: seq<BustedPlayer>, j: nat, k: nat)
    requires j < |ordered| && k < |ordered|
  {
    ordered[j].handStartStack == ordered[k].handStartStack
  }

  /** Of two equal stacks the lower seat is paid the same as the other or one unit more. */
  ghost predicate SharedEvenly(awards: seq<Award>, ordered: seq<BustedPlayer>, j: nat, k: nat)
    requires j < k < |ordered| == |awards|
  {
    && awards[k].amount <= awards[j].amount <= awards[k].amount + 1
    && ordered[j].seatIndex <= ordered[k].seatIndex
  }

  /** Equal stacks are paid amounts that differ by at most one unit, the extra one at the lower seat. */
  lemma EqualStacksShareEvenly(busted: seq<BustedPlayer>, ordered: seq<BustedPlayer>, lastPlace: int,
                               prize: int -> int, j: nat, k: nat)
    requires ordered == OrderBusted(busted) && j < k < |ordered| && SameStack(ordered, j, k)
    ensures SharedEvenly(SplitBustedRanks(busted, lastPlace, prize), ordered, j, k)
  {
    OrderBustedSorts(busted);
    EvenInOrder(ordered, lastPlace - |busted| + 1, prize, j, k);
  }

  lemma EvenInOrder(ordered: seq<BustedPlayer>, first: int, prize: int -> int, j: nat, k: nat)
    requires Ordered(ordered) && j < k < |ordered| && SameStack(ordered, j, k)
    ensures SharedEvenly(AwardsFrom(ordered, first, prize, 0), ordered, j, k)
  {
    assert Before(ordered[j], ordered[k]);
    var s1, e1 := AwardGroupOf(ordered, first, prize, 0, j);
    var s2, e2 := AwardGroupOf(ordered, first, prize, 0, k);
    var awards := AwardsFrom(ordered, first, prize, 0);
    EvenInGroup(ordered, first, prize, awards[j - 0], awards[k - 0], s1, e1, s2, e2, j, k);
  }

  lemma {:induction false} OrderedUnique(ps: seq<BustedPlayer>, qs: seq<BustedPlayer>)
    requires Ordered(ps) && Ordered(qs) && multiset(ps) == multiset(qs) && DistinctSeats(ps)
    ensures ps == qs
    decreases |ps|
  {
    assert |ps| == |multiset(ps)| == |multiset(qs)| == |qs|;
    if |ps| > 0 {
      var n := |ps| - 1;
      SameLast(ps, qs);
      FrontOrdered(ps);
      FrontOrdered(qs);
      OrderedUnique(ps[..n], qs[..n]);
      FrontAndLast(ps, qs);
    }
  }

  lemma FrontAndLast(ps: seq<BustedPlayer>, qs: seq<BustedPlayer>)
    requires |ps| == |qs| > 0
    requires ps[..|ps| - 1] == qs[..|qs| - 1] && ps[|ps| - 1] == qs[|qs| - 1]
    ensures ps == qs
  {
    assert ps == ps[..|ps| - 1] + [ps[|ps| - 1]];
  }

  lemma FrontOrdered(ps: seq<BustedPlayer>)
    requires |ps| > 0 && Ordered(ps)
    ensures Ordered(ps[..|ps| - 1])
    ensures multiset(ps[..|ps| - 1]) == multiset(ps) - multiset{ps[|ps| - 1]}
    ensures DistinctSeats(ps) ==> DistinctSeats(ps[..|ps| - 1])
  {
    var n := |ps| - 1;
    TakenOut(ps, n);
    assert ps[..n] + ps[n + 1..] == ps[..n];
  }

  /** The last of an ordered sequence is behind everybody in it. */
  lemma LastIsLast(ps: seq<BustedPlayer>, p: BustedPlayer)
    requires Ordered(ps) && p in multiset(ps)
    ensures |ps| > 0 && (p == ps[|ps| - 1] || Before(p, ps[|ps| - 1]))
  {
    var a :| 0 <= a < |ps| && ps[a] == p;
  }

  lemma SameLast(ps: seq<BustedPlayer>, qs: seq<BustedPlayer>)
    requires Ordered(ps) && Ordered(qs) && multiset(ps) == multiset(qs) && DistinctSeats(ps)
    requires |ps| == |qs| > 0
    ensures ps[|ps| - 1] == qs[|qs| - 1]
  {
    var p, q := ps[|ps| - 1], qs[|qs| - 1];
    assert p in multiset(ps) && q in multiset(qs);
    LastIsLast(ps, q);
    LastIsLast(qs, p);
    var b :| 0 <= b < |ps| && ps[b] == q;
  }

  /** The order in which the players are handed in has no influence on places or amounts. */
  lemma InputOrderIrrelevant(busted: seq<BustedPlayer>, other: seq<BustedPlayer>, lastPlace: int, prize: int -> int)
    requires multiset(busted) == multiset(other) && DistinctSeats(busted)
    ensures SplitBustedRanks(busted, lastPlace, prize) == SplitBustedRanks(other, lastPlace, prize)
  {
    OrderBustedSorts(busted);
    OrderBustedSorts(other);
    assert |busted| == |multiset(busted)| == |multiset(other)| == |other|;
    DistinctSeatsOfPermutation(busted, OrderBusted(busted));
    OrderedUnique(OrderBusted(busted), OrderBusted(other));
  }

  ghost predicate NoDuplicates(ps: seq<BustedPlayer>) {
    forall a, b :: 0 <= a < b < |ps| ==> ps[a] != ps[b]
  }

  /** No user is handed in twice. */
  ghost predicate DistinctUsers(ps: seq<BustedPlayer>) {
    forall a, b :: 0 <= a < b < |ps| ==> ps[a].userId != ps[b].userId
  }

  /** Two positions of a permutation come from two different positions of the original. */
  lemma PositionsIn(ps: seq<BustedPlayer>, qs: seq<BustedPlayer>, a: nat, b: nat) returns (i: nat, j: nat)
    requires multiset(ps) == multiset(qs) && NoDuplicates(ps) && a < b < |qs|
    ensures i < |ps| && j < |ps| && i != j && ps[i] == qs[a] && ps[j] == qs[b]
  {
    assert qs[a] in multiset(ps) && qs[b] in multiset(ps);
    i :| 0 <= i < |ps| && ps[i] == qs[a];
    j :| 0 <= j < |ps| && ps[j] == qs[b];
    if i == j {
      assert qs == qs[..a] + [qs[a]] + qs[a + 1..b] + [qs[b]] + qs[b + 1..];
      assert multiset(qs)[ps[i]] >= 2;
      OnlyOnce(ps, i);
    }
  }

  lemma DistinctSeatsOfPermutation(ps: seq<BustedPlayer>, qs: seq<BustedPlayer>)
    requires multiset(ps) == multiset(qs) && DistinctSeats(ps)
    ensures DistinctSeats(qs)
  {
    forall a, b | 0 <= a < b < |qs| ensures qs[a].seatIndex != qs[b].seatIndex {
      var i, j := PositionsIn(ps, qs, a, b);
    }
  }

  lemma DistinctUsersOfPermutation(ps: seq<BustedPlayer>, qs: seq<BustedPlayer>)
    requires multiset(ps) == multiset(qs) && DistinctUsers(ps)
    ensures DistinctUsers(qs)
  {
    forall a, b | 0 <= a < b < |qs| ensures qs[a].userId != qs[b].userId {
      var i, j := PositionsIn(ps, qs, a, b);
    }
  }

  lemma OnlyOnce(ps: seq<BustedPlayer>, i: nat)
    requires i < |ps| && NoDuplicates(ps)
    ensures multiset(ps)[ps[i]] == 1
  {
    assert ps == ps[..i] + [ps[i]] + ps[i + 1..];
    assert ps[i] !in ps[..i] && ps[i] !in ps[i + 1..];
  }

  function UsersOf(ps: seq<BustedPlayer>): set<PlayerId> {
    set p | p in ps :: p.userId
  }

  function AwardedUsers(awards: seq<Award>): set<PlayerId> {
    set a | a in awards :: a.userId
  }

  ghost predicate AwardsDistinct(awards: seq<Award>) {
    forall a, b :: 0 <= a < b < |awards| ==> awards[a].userId != awards[b].userId
  }

  ghost predicate AwardsFollow(awards: seq<Award>, ordered: seq<BustedPlayer>) {
    |awards| == |ordered| && forall k :: 0 <= k < |ordered| ==> awards[k].userId == ordered[k].userId
  }

  lemma AwardsFollowOrder(busted: seq<BustedPlayer>, lastPlace: int, prize: int -> int)
    ensures AwardsFollow(SplitBustedRanks(busted, lastPlace, prize), OrderBusted(busted))
  {
    forall k | 0 <= k < |busted|
      ensures SplitBustedRanks(busted, lastPlace, prize)[k].userId == OrderBusted(busted)[k].userId
    {
      PlaceIsHeldMore(busted, lastPlace, prize, k);
    }
  }

  lemma FollowersUsers(awards: seq<Award>, ordered: seq<BustedPlayer>, busted: seq<BustedPlayer>)
    requires AwardsFollow(awards, ordered) && multiset(ordered) == multiset(busted)
    ensures AwardedUsers(awards) == UsersOf(busted)
    ensures DistinctUsers(ordered) ==> AwardsDistinct(awards)
  {
    forall u | u in AwardedUsers(awards) ensures u in UsersOf(busted) {
      var k :| 0 <= k < |awards| && awards[k].userId == u;
      assert ordered[k] in multiset(busted);
    }
    forall u | u in UsersOf(busted) ensures u in AwardedUsers(awards) {
      var p :| p in busted && p.userId == u;
      assert p in multiset(ordered);
      var k :| 0 <= k < |ordered| && ordered[k] == p;
      assert awards[k] in awards;
    }
  }

  /** Exactly the busted players are awarded, each of them once. */
  lemma EverybodyAwardedOnce(busted: seq<BustedPlayer>, lastPlace: int, prize: int -> int)
    requires DistinctUsers(busted)
    ensures AwardedUsers(SplitBustedRanks(busted, lastPlace, prize)) == UsersOf(busted)
    ensures AwardsDistinct(SplitBustedRanks(busted, lastPlace, prize))
  {
    AwardsFollowOrder(busted, lastPlace, prize);
    OrderBustedSorts(busted);
    DistinctUsersOfPermutation(busted, OrderBusted(busted));
    FollowersUsers(SplitBustedRanks(busted, lastPlace, prize), OrderBusted(busted), busted);
  }

  lemma {:induction false} AwardsFromNonNegative(ordered: seq<BustedPlayer>, firstPlace: int, prize: int -> int,
                                                 start: nat)
    requires start <= |ordered| && forall p :: firstPlace <= p < firstPlace + |ordered| ==> 0 <= prize(p)
    ensures forall k :: 0 <= k < |ordered| - start ==> 0 <= AwardsFrom(ordered, firstPlace, prize, start)[k].amount
    decreases |ordered| - start
  {
    if start < |ordered| {
      var end := GroupEnd(ordered, start, start + 1);
      PrizeRangeNonNegative(prize, firstPlace + start, firstPlace + end);
      var group := GroupOf(ordered, firstPlace, prize, start, end);
      forall k | 0 <= k < end - start ensures 0 <= group[k].amount {
        ShareNonNegative(PrizeRange(prize, firstPlace + start, firstPlace + end), end - start, k);
      }
      AwardsFromNonNegative(ordered, firstPlace, prize, end);
    }
  }

  /** The awards of one batch: each of its players once, nothing negative, and together the worth of its places. */
  ghost predicate FairAwards(awards: seq<Award>, busted: seq<BustedPlayer>, lastPlace: int, prize: int -> int) {
    && AwardsDistinct(awards)
    && AwardedUsers(awards) == UsersOf(busted)
    && (forall k :: 0 <= k < |awards| ==> 0 <= awards[k].amount)
    && PaysRange(awards, prize, lastPlace - |busted| + 1, lastPlace + 1)
  }

  lemma SplitIsFair(busted: seq<BustedPlayer>, lastPlace: int, prize: int -> int)
    requires DistinctUsers(busted) && forall p :: 0 <= prize(p)
    ensures FairAwards(SplitBustedRanks(busted, lastPlace, prize), busted, lastPlace, prize)
  {
    EverybodyAwardedOnce(busted, lastPlace, prize);
    AwardsFromNonNegative(OrderBusted(busted), lastPlace - |busted| + 1, prize, 0);
    SplitPaysInterval(busted, lastPlace, prize);
  }

  lemma ShareNonNegative(total: int, n: nat, i: nat)
    requires n > 0 && 0 <= total
    ensures 0 <= ShareOf(total, n, i)
  {
  }
}

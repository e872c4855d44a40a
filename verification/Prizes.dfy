/** The prize pool and its division into places: rake, payout tiers and the prize of one place. */
module Prizes {
  import opened Sums
  import opened TableTypes

  datatype PrizePayout = PrizePayout(place: int, percent: int)

  /** `rakeOf`. */
  function RakeOf(totalBuyinAmount: int, rakePercent: int): int {
    if rakePercent <= 0 || totalBuyinAmount <= 0 then 0 else totalBuyinAmount * rakePercent / 100
  }

  /** `prizePoolOf`. */
  function PrizePoolOf(totalBuyinAmount: int, rakePercent: int): int {
    totalBuyinAmount - RakeOf(totalBuyinAmount, rakePercent)
  }

  /** The pool is never negative, never more than was collected, and keeps the rounding. */
  lemma PoolBounds(totalBuyinAmount: int, rakePercent: int)
    requires 0 <= totalBuyinAmount && rakePercent <= 100
    ensures 0 <= PrizePoolOf(totalBuyinAmount, rakePercent) <= totalBuyinAmount
    ensures PrizePoolOf(totalBuyinAmount, rakePercent) * 100 >= totalBuyinAmount * (100 - Max(0, rakePercent))
  {
    if rakePercent > 0 && totalBuyinAmount > 0 {
      assert totalBuyinAmount * rakePercent <= totalBuyinAmount * 100;
      assert totalBuyinAmount * (100 - rakePercent) == totalBuyinAmount * 100 - totalBuyinAmount * rakePercent;
    }
  }

  /** What is kept back is the rake, rounded down to the unit: nothing without a rake, and never a unit more. */
  lemma PoolIsExact(totalBuyinAmount: int, rakePercent: int)
    ensures var kept := totalBuyinAmount - PrizePoolOf(totalBuyinAmount, rakePercent);
            if rakePercent <= 0 || totalBuyinAmount <= 0 then kept == 0
            else kept * 100 <= totalBuyinAmount * rakePercent < kept * 100 + 100
  {
  }

  function InsertByPlace(sorted: seq<PrizePayout>, p: PrizePayout): (r: seq<PrizePayout>)
    ensures |r| == |sorted| + 1
  {
    if |sorted| == 0 || sorted[|sorted| - 1].place <= p.place then sorted + [p]
    else InsertByPlace(sorted[..|sorted| - 1], p) + [sorted[|sorted| - 1]]
  }

  /** The stable sort by place. */
  function SortByPlace(payouts: seq<PrizePayout>): (r: seq<PrizePayout>)
    ensures |r| == |payouts|
  {
    if |payouts| == 0 then []
    else InsertByPlace(SortByPlace(payouts[..|payouts| - 1]), payouts[|payouts| - 1])
  }

  function Percents(payouts: seq<PrizePayout>): (r: seq<int>)
    ensures |r| == |payouts|
    ensures forall k :: 0 <= k < |payouts| ==> r[k] == payouts[k].percent
  {
    seq(|payouts|, k requires 0 <= k < |payouts| => payouts[k].percent)
  }

  predicate Contiguous(sorted: seq<PrizePayout>) {
    forall k :: 0 <= k < |sorted| ==> sorted[k].place == k + 1
  }

  /** `parsePayouts`; `None` stands for its exceptions. */
  function ParsePayouts(payouts: seq<PrizePayout>): Option<seq<PrizePayout>> {
    var sorted := SortByPlace(payouts);
    if |payouts| == 0 || (exists k :: 0 <= k < |payouts| && payouts[k].percent <= 0) then None
    else if !Contiguous(sorted) || Sum(Percents(sorted)) != 100 then None
    else Some(sorted)
  }

  lemma PercentsSnoc(ps: seq<PrizePayout>, p: PrizePayout)
    ensures Sum(Percents(ps + [p])) == Sum(Percents(ps)) + p.percent
  {
    assert Percents(ps + [p])[..|ps|] == Percents(ps);
  }

  lemma {:induction false} InsertByPlaceKeeps(sorted: seq<PrizePayout>, p: PrizePayout)
    ensures multiset(InsertByPlace(sorted, p)) == multiset(sorted) + multiset{p}
    ensures Sum(Percents(InsertByPlace(sorted, p))) == Sum(Percents(sorted)) + p.percent
  {
    var n := |sorted|;
    if n == 0 || sorted[n - 1].place <= p.place {
      PercentsSnoc(sorted, p);
    } else {
      var init := sorted[..n - 1];
      InsertByPlaceKeeps(init, p);
      assert sorted == init + [sorted[n - 1]];
      PercentsSnoc(InsertByPlace(init, p), sorted[n - 1]);
      PercentsSnoc(init, sorted[n - 1]);
    }
  }

  lemma {:induction false} SortByPlaceKeeps(payouts: seq<PrizePayout>)
    ensures multiset(SortByPlace(payouts)) == multiset(payouts)
    ensures Sum(Percents(SortByPlace(payouts))) == Sum(Percents(payouts))
  {
    var n := |payouts|;
    if n > 0 {
      SortByPlaceKeeps(payouts[..n - 1]);
      InsertByPlaceKeeps(SortByPlace(payouts[..n - 1]), payouts[n - 1]);
      assert payouts == payouts[..n - 1] + [payouts[n - 1]];
      PercentsSnoc(payouts[..n - 1], payouts[n - 1]);
    }
  }

  ghost predicate PlacesFrom1(payouts: seq<PrizePayout>) {
    && (forall k :: 0 <= k < |payouts| ==> 1 <= payouts[k].place <= |payouts|)
    && forall a, b :: 0 <= a < b < |payouts| ==> payouts[a].place != payouts[b].place
  }

  ghost predicate ByPlace(payouts: seq<PrizePayout>) {
    forall a, b :: 0 <= a < b < |payouts| ==> payouts[a].place <= payouts[b].place
  }

  lemma {:induction false} InsertByPlaceSorts(sorted: seq<PrizePayout>, p: PrizePayout)
    requires ByPlace(sorted)
    ensures ByPlace(InsertByPlace(sorted, p))
  {
    var n := |sorted|;
    if n > 0 && sorted[n - 1].place > p.place {
      var r := InsertByPlace(sorted[..n - 1], p);
      InsertByPlaceSorts(sorted[..n - 1], p);
      InsertByPlaceKeeps(sorted[..n - 1], p);
      forall a | 0 <= a < |r| ensures r[a].place <= sorted[n - 1].place {
        assert r[a] in multiset(r);
        assert r[a] == p || r[a] in sorted[..n - 1];
      }
    }
  }

  lemma {:induction false} SortByPlaceSorts(payouts: seq<PrizePayout>)
    ensures ByPlace(SortByPlace(payouts))
  {
    if |payouts| > 0 {
      SortByPlaceSorts(payouts[..|payouts| - 1]);
      InsertByPlaceSorts(SortByPlace(payouts[..|payouts| - 1]), payouts[|payouts| - 1]);
    }
  }

  lemma {:induction false} SortedStays(payouts: seq<PrizePayout>)
    requires ByPlace(payouts)
    ensures SortByPlace(payouts) == payouts
  {
    if |payouts| > 0 {
      SortedStays(payouts[..|payouts| - 1]);
    }
  }

  lemma SortedTwice(payouts: seq<PrizePayout>)
    ensures SortByPlace(SortByPlace(payouts)) == SortByPlace(payouts)
  {
    SortByPlaceSorts(payouts);
    SortedStays(SortByPlace(payouts));
  }

  /** Parsing a parsed list changes nothing, so a stored table can be read back. */
  lemma ParseIsStable(payouts: seq<PrizePayout>)
    requires ParsePayouts(payouts).Some?
    ensures ParsePayouts(SortByPlace(payouts)) == ParsePayouts(payouts)
  {
    SortedTwice(payouts);
    ParsedPlaces(payouts);
  }

  /** Every place of a contiguous table is listed, and only once. */
  lemma ParsedPlaces(payouts: seq<PrizePayout>)
    requires ParsePayouts(payouts).Some?
    ensures PlacesFrom1(ParsePayouts(payouts).value)
    ensures multiset(ParsePayouts(payouts).value) == multiset(payouts)
    ensures Sum(Percents(payouts)) == 100
    ensures forall k :: 0 <= k < |ParsePayouts(payouts).value| ==> ParsePayouts(payouts).value[k].percent > 0
  {
    SortByPlaceKeeps(payouts);
    var sorted := SortByPlace(payouts);
    forall k | 0 <= k < |sorted| ensures sorted[k].percent > 0 {
      assert sorted[k] in multiset(sorted);
      assert sorted[k] in payouts;
    }
  }

  /** A value that a list without repeated places holds, it holds once. */
  lemma PlacesHeldOnce(payouts: seq<PrizePayout>, i: nat)
    requires PlacesFrom1(payouts) && i < |payouts|
    ensures multiset(payouts)[payouts[i]] == 1
  {
    assert payouts == payouts[..i] + [payouts[i]] + payouts[i + 1..];
    assert payouts[i] !in payouts[..i] && payouts[i] !in payouts[i + 1..];
  }

  lemma SortedPlacesDiffer(payouts: seq<PrizePayout>, sorted: seq<PrizePayout>)
    requires PlacesFrom1(payouts) && multiset(sorted) == multiset(payouts) && |sorted| == |payouts|
    ensures PlacesFrom1(sorted)
  {
    forall k | 0 <= k < |sorted| ensures 1 <= sorted[k].place <= |sorted| {
      assert sorted[k] in multiset(payouts);
    }
    forall a, b | 0 <= a < b < |sorted| ensures sorted[a].place != sorted[b].place {
      assert sorted[a] in multiset(payouts) && sorted[b] in multiset(payouts);
      var i :| 0 <= i < |payouts| && payouts[i] == sorted[a];
      var j :| 0 <= j < |payouts| && payouts[j] == sorted[b];
      if i == j {
        assert sorted == sorted[..a] + [sorted[a]] + sorted[a + 1..b] + [sorted[b]] + sorted[b + 1..];
        assert multiset(sorted)[sorted[a]] >= 2;
        PlacesHeldOnce(payouts, i);
      }
    }
  }

  lemma {:induction false} PlacesAtLeast(sorted: seq<PrizePayout>, k: nat)
    requires PlacesFrom1(sorted) && ByPlace(sorted) && k < |sorted|
    ensures sorted[k].place >= k + 1
  {
    if k > 0 {
      PlacesAtLeast(sorted, k - 1);
    }
  }

  lemma {:induction false} PlacesAtMost(sorted: seq<PrizePayout>, k: nat)
    requires PlacesFrom1(sorted) && ByPlace(sorted) && k < |sorted|
    ensures sorted[k].place <= k + 1
    decreases |sorted| - k
  {
    if k < |sorted| - 1 {
      PlacesAtMost(sorted, k + 1);
    }
  }

  /** A list is accepted exactly if it names the places from 1 on once each, with positive shares of 100 in all. */
  lemma ParseAcceptsIff(payouts: seq<PrizePayout>)
    ensures ParsePayouts(payouts).Some? <==>
              && |payouts| > 0 && PlacesFrom1(payouts) && Sum(Percents(payouts)) == 100
              && forall k :: 0 <= k < |payouts| ==> payouts[k].percent > 0
  {
    var sorted := SortByPlace(payouts);
    SortByPlaceKeeps(payouts);
    SortByPlaceSorts(payouts);
    if ParsePayouts(payouts).Some? {
      SortedPlacesDiffer(sorted, payouts);
    } else if PlacesFrom1(payouts) {
      SortedPlacesDiffer(payouts, sorted);
      forall k | 0 <= k < |sorted| ensures sorted[k].place == k + 1 {
        PlacesAtLeast(sorted, k);
        PlacesAtMost(sorted, k);
      }
    }
  }

  function Share(pool: int, percent: int): int {
    pool * percent / 100
  }

  /** The prizes below the first place, as the loop of `calculatePrizes` sets them. */
  function RestPrizes(pool: int, rest: seq<PrizePayout>): map<int, int> {
    if |rest| == 0 then map[]
    else RestPrizes(pool, rest[..|rest| - 1])[rest[|rest| - 1].place := Share(pool, rest[|rest| - 1].percent)]
  }

  function RestTotal(pool: int, rest: seq<PrizePayout>): int {
    if |rest| == 0 then 0
    else RestTotal(pool, rest[..|rest| - 1]) + Share(pool, rest[|rest| - 1].percent)
  }

  /** `calculatePrizes`: everybody below the first place is rounded down, and the first place takes the rest. */
  function CalculatePrizes(pool: int, payouts: seq<PrizePayout>): map<int, int>
    requires |payouts| > 0
  {
    var sorted := SortByPlace(payouts);
    RestPrizes(pool, sorted[1..])[sorted[0].place := pool - RestTotal(pool, sorted[1..])]
  }

  /** `prizeFor`: no payouts, or a place outside them, is worth nothing. */
  function PrizeFor(pool: int, payouts: seq<PrizePayout>, place: int): int {
    if |payouts| == 0 then 0
    else
      var prizes := CalculatePrizes(pool, payouts);
      if place in prizes then prizes[place] else 0
  }

  method ComputePrizes(pool: int, payouts: seq<PrizePayout>) returns (prizes: map<int, int>)
    requires |payouts| > 0
    ensures prizes == CalculatePrizes(pool, payouts)
  {
    var sorted := SortByPlace(payouts);
    prizes := map[];
    var rest := 0;
    var tail := sorted[1..];
    var k := 0;
    while k < |tail|
      invariant 0 <= k <= |tail|
      invariant prizes == RestPrizes(pool, tail[..k])
      invariant rest == RestTotal(pool, tail[..k])
    {
      assert tail[..k + 1][..k] == tail[..k];
      var amount := pool * tail[k].percent / 100;
      prizes := prizes[tail[k].place := amount];
      rest := rest + amount;
      k := k + 1;
    }
    assert tail[..|tail|] == tail;
    prizes := prizes[sorted[0].place := pool - rest];
  }

  /** The prize of each place, as a table to look places up in. */
  function PrizeTable(pool: int, payouts: seq<PrizePayout>): int -> int {
    place => PrizeFor(pool, payouts, place)
  }

  /** The prizes of the places from `lo` up to but not including `hi`. */
  function PrizeRange(prize: int -> int, lo: int, hi: int): int
    decreases hi - lo
  {
    if hi <= lo then 0 else PrizeRange(prize, lo, hi - 1) + prize(hi - 1)
  }

  lemma {:induction false} PrizeRangeSplits(prize: int -> int, lo: int, mid: int, hi: int)
    requires lo <= mid <= hi
    ensures PrizeRange(prize, lo, hi) == PrizeRange(prize, lo, mid) + PrizeRange(prize, mid, hi)
    decreases hi - mid
  {
    if mid < hi {
      PrizeRangeSplits(prize, lo, mid, hi - 1);
    }
  }

  lemma {:induction false} PrizeRangeNonNegative(prize: int -> int, lo: int, hi: int)
    requires forall p :: lo <= p < hi ==> 0 <= prize(p)
    ensures 0 <= PrizeRange(prize, lo, hi)
    decreases hi - lo
  {
    if lo < hi {
      PrizeRangeNonNegative(prize, lo, hi - 1);
    }
  }

  /** A payout list that `parsePayouts` accepts. */
  ghost predicate ValidPayouts(payouts: seq<PrizePayout>) {
    ParsePayouts(payouts).Some?
  }

  lemma {:induction false} RestPrizeAt(pool: int, sorted: seq<PrizePayout>, k: nat, place: int)
    requires Contiguous(sorted) && 1 <= k <= |sorted|
    ensures var rest := RestPrizes(pool, sorted[1..k]);
            && (place in rest <==> 2 <= place <= k)
            && (place in rest ==> rest[place] == Share(pool, sorted[place - 1].percent))
  {
    if k > 1 {
      RestPrizeAt(pool, sorted, k - 1, place);
      assert sorted[1..k][..k - 2] == sorted[1..k - 1];
    }
  }

  /** What each place is worth: the listed share, the remainder for the winner, nothing below the money. */
  lemma PrizeOfPlace(pool: int, payouts: seq<PrizePayout>, place: int)
    requires ValidPayouts(payouts)
    ensures var sorted := ParsePayouts(payouts).value;
            PrizeFor(pool, payouts, place) ==
            if place == 1 then pool - RestTotal(pool, sorted[1..])
            else if 2 <= place <= |payouts| then Share(pool, sorted[place - 1].percent)
            else 0
  {
    var sorted := ParsePayouts(payouts).value;
    RestPrizeAt(pool, sorted, |sorted|, place);
    assert sorted[1..|sorted|] == sorted[1..];
  }

  lemma ShareIsFloor(pool: int, percent: int)
    ensures Share(pool, percent) * 100 <= pool * percent < Share(pool, percent) * 100 + 100
  {
  }

  /** The listed entry of a place stands at that place in the parsed list. */
  lemma ListedAtItsPlace(payouts: seq<PrizePayout>, k: nat)
    requires ValidPayouts(payouts) && k < |payouts|
    ensures var sorted := ParsePayouts(payouts).value;
            1 <= payouts[k].place <= |sorted| == |payouts| && sorted[payouts[k].place - 1] == payouts[k]
  {
    var sorted := ParsePayouts(payouts).value;
    ParsedPlaces(payouts);
    assert payouts[k] in multiset(sorted);
    var j :| 0 <= j < |sorted| && sorted[j] == payouts[k];
  }

  /** A place below the first is worth the percentage listed for it, rounded down to the unit. */
  lemma PrizeIsRoundedDown(pool: int, payouts: seq<PrizePayout>, k: nat, prize: int)
    requires ValidPayouts(payouts) && k < |payouts| && payouts[k].place > 1
    requires prize == PrizeFor(pool, payouts, payouts[k].place)
    ensures prize * 100 <= pool * payouts[k].percent < prize * 100 + 100
  {
    ListedAtItsPlace(payouts, k);
    PrizeOfPlace(pool, payouts, payouts[k].place);
    ShareIsFloor(pool, payouts[k].percent);
  }

  lemma {:induction false} RangeOfListed(pool: int, payouts: seq<PrizePayout>, k: nat)
    requires ValidPayouts(payouts) && 1 <= k <= |payouts|
    ensures var sorted := ParsePayouts(payouts).value;
            PrizeRange(PrizeTable(pool, payouts), 1, k + 1) ==
              pool - RestTotal(pool, sorted[1..]) + RestTotal(pool, sorted[1..k])
  {
    var sorted := ParsePayouts(payouts).value;
    PrizeOfPlace(pool, payouts, k);
    if k == 1 {
      assert PrizeRange(PrizeTable(pool, payouts), 1, 1) == 0;
      assert sorted[1..1] == [];
    } else {
      RangeOfListed(pool, payouts, k - 1);
      assert sorted[1..k][..k - 2] == sorted[1..k - 1];
    }
  }

  /** With at least as many places as are paid, the prizes of all places are the pool, to the last unit. */
  lemma {:induction false} PrizesAddUp(pool: int, payouts: seq<PrizePayout>, places: int)
    requires ValidPayouts(payouts) && places >= |payouts|
    ensures PrizeRange(PrizeTable(pool, payouts), 1, places + 1) == pool
    decreases places
  {
    if places == |payouts| {
      RangeOfListed(pool, payouts, |payouts|);
      var sorted := ParsePayouts(payouts).value;
      assert sorted[1..|payouts|] == sorted[1..];
    } else {
      PrizesAddUp(pool, payouts, places - 1);
      PrizeOfPlace(pool, payouts, places);
    }
  }

  lemma ShareBounds(pool: int, percent: int)
    requires 0 <= pool && 0 <= percent
    ensures 0 <= Share(pool, percent) && Share(pool, percent) * 100 <= pool * percent
  {
    assert 0 <= pool * percent;
  }

  lemma {:induction false} RestTotalBound(pool: int, rest: seq<PrizePayout>)
    requires 0 <= pool && forall k :: 0 <= k < |rest| ==> rest[k].percent > 0
    ensures RestTotal(pool, rest) * 100 <= pool * Sum(Percents(rest))
  {
    if |rest| > 0 {
      var n := |rest| - 1;
      RestTotalBound(pool, rest[..n]);
      ShareBounds(pool, rest[n].percent);
      assert Percents(rest)[..n] == Percents(rest[..n]);
      assert pool * Sum(Percents(rest)) == pool * Sum(Percents(rest[..n])) + pool * rest[n].percent;
    }
  }

  lemma PercentsBelowFirst(sorted: seq<PrizePayout>)
    requires |sorted| > 0 && Sum(Percents(sorted)) == 100
    ensures Sum(Percents(sorted[1..])) == 100 - sorted[0].percent
  {
    assert Percents(sorted) == [sorted[0].percent] + Percents(sorted[1..]);
    SumConcat([sorted[0].percent], Percents(sorted[1..]));
    assert [sorted[0].percent][..0] == [];
    assert Sum([sorted[0].percent]) == Sum([]) + sorted[0].percent;
  }

  /** Rounding down below the first place can only favour the winner. */
  lemma WinnerIsFavoured(pool: int, payouts: seq<PrizePayout>)
    requires ValidPayouts(payouts) && 0 <= pool
    ensures PrizeFor(pool, payouts, 1) * 100 >= pool * ParsePayouts(payouts).value[0].percent
    ensures PrizeFor(pool, payouts, 1) >= 0
  {
    ParsedPlaces(payouts);
    PrizeOfPlace(pool, payouts, 1);
    SortByPlaceKeeps(payouts);
    FirstKeepsItsShare(pool, ParsePayouts(payouts).value);
  }

  lemma FirstKeepsItsShare(pool: int, sorted: seq<PrizePayout>)
    requires 0 <= pool && |sorted| > 0 && Sum(Percents(sorted)) == 100
    requires forall k :: 0 <= k < |sorted| ==> sorted[k].percent > 0
    ensures (pool - RestTotal(pool, sorted[1..])) * 100 >= pool * sorted[0].percent >= 0
  {
    RestTotalBound(pool, sorted[1..]);
    PercentsBelowFirst(sorted);
    assert pool * (100 - sorted[0].percent) == pool * 100 - pool * sorted[0].percent;
  }

  /** No place is ever worth a negative amount. */
  lemma PrizesNonNegative(pool: int, payouts: seq<PrizePayout>, place: int)
    requires ValidPayouts(payouts) && 0 <= pool
    ensures 0 <= PrizeFor(pool, payouts, place)
  {
    PrizeOfPlace(pool, payouts, place);
    if place == 1 {
      WinnerIsFavoured(pool, payouts);
    } else if 2 <= place <= |payouts| {
      ParsedPlaces(payouts);
      ShareBounds(pool, ParsePayouts(payouts).value[place - 1].percent);
    }
  }

  datatype PayoutTier = PayoutTier(minEntries: int, payouts: seq<PrizePayout>)

  /** `entryCountOf`. */
  function EntryCountOf(totalBuyinAmount: int, entryFee: int): int {
    if entryFee <= 0 || totalBuyinAmount <= 0 then 0 else totalBuyinAmount / entryFee
  }

  /** The entry count is the number of buy-ins that were collected, not of players. */
  lemma EntryCountCountsBuyIns(buyIns: nat, entryFee: int, rest: int)
    requires 0 <= rest < entryFee
    ensures EntryCountOf(buyIns * entryFee + rest, entryFee) == buyIns
  {
    ScaledStep(0, buyIns, entryFee);
    DivideBack(buyIns, entryFee, rest);
  }

  lemma ScaledStep(a: int, b: int, d: int)
    requires d > 0
    ensures a < b ==> (a + 1) * d <= b * d
  {
  }

  lemma DivideBack(n: nat, d: int, rest: int)
    requires 0 <= rest < d
    ensures (n * d + rest) / d == n
  {
    var q := (n * d + rest) / d;
    assert n * d + rest == q * d + (n * d + rest) % d;
    ScaledStep(q, n, d);
    ScaledStep(n, q, d);
  }

  /** What `parsePayoutTable` demands of a table before it is stored. */
  ghost predicate ValidTable(table: seq<PayoutTier>) {
    && |table| > 0
    && table[0].minEntries == 0
    && (forall i :: 1 <= i < |table| ==> table[i - 1].minEntries < table[i].minEntries)
    && forall i :: 0 <= i < |table| ==> ValidPayouts(table[i].payouts)
  }

  /** One tier and the tier it is stored as. */
  ghost predicate StoredAs(tier: PayoutTier, stored: PayoutTier) {
    stored == PayoutTier(tier.minEntries, SortByPlace(tier.payouts))
  }

  lemma StoredIsValid(tier: PayoutTier, stored: PayoutTier)
    requires ValidPayouts(tier.payouts) && StoredAs(tier, stored)
    ensures ValidPayouts(stored.payouts)
  {
    ParseIsStable(tier.payouts);
  }

  /** The `map` over the tiers, which throws at the first tier that does not parse. */
  function StoredTiers(tiers: seq<PayoutTier>): (r: Option<seq<PayoutTier>>)
    ensures r.Some? ==> |r.value| == |tiers|
  {
    if |tiers| == 0 then Some([])
    else
      var before := StoredTiers(tiers[..|tiers| - 1]);
      var last := StoredTier(tiers[|tiers| - 1]);
      if before.None? || last.None? then None else Some(before.value + [last.value])
  }

  function StoredTier(tier: PayoutTier): Option<PayoutTier> {
    var payouts := ParsePayouts(tier.payouts);
    if payouts.None? then None else Some(PayoutTier(tier.minEntries, payouts.value))
  }

  ghost predicate AllStored(tiers: seq<PayoutTier>, stored: seq<PayoutTier>) {
    |stored| == |tiers| && forall i :: 0 <= i < |tiers| ==> StoredAs(tiers[i], stored[i])
  }

  lemma StoredTierIff(tier: PayoutTier)
    ensures StoredTier(tier).Some? <==> ValidPayouts(tier.payouts)
    ensures StoredTier(tier).Some? ==> StoredAs(tier, StoredTier(tier).value)
  {
  }

  lemma AllStoredAppend(tiers: seq<PayoutTier>, before: seq<PayoutTier>, last: PayoutTier)
    requires |tiers| > 0 && AllStored(tiers[..|tiers| - 1], before) && StoredAs(tiers[|tiers| - 1], last)
    ensures AllStored(tiers, before + [last])
  {
    assert forall i :: 0 <= i < |tiers| - 1 ==> tiers[..|tiers| - 1][i] == tiers[i];
  }

  /** The tiers are stored exactly when each of them parses. */
  lemma {:induction false} StoredTiersIff(tiers: seq<PayoutTier>)
    ensures StoredTiers(tiers).Some? <==> forall i :: 0 <= i < |tiers| ==> ValidPayouts(tiers[i].payouts)
    ensures StoredTiers(tiers).Some? ==> AllStored(tiers, StoredTiers(tiers).value)
  {
    if |tiers| > 0 {
      var n := |tiers| - 1;
      StoredTiersIff(tiers[..n]);
      assert forall i :: 0 <= i < n ==> tiers[..n][i] == tiers[i];
      StoredTierIff(tiers[n]);
      if StoredTiers(tiers).Some? {
        AllStoredAppend(tiers, StoredTiers(tiers[..n]).value, StoredTier(tiers[n]).value);
      }
    }
  }

  ghost predicate TiersAscending(table: seq<PayoutTier>, n: nat) {
    forall i :: 1 <= i < n <= |table| ==> table[i - 1].minEntries < table[i].minEntries
  }

  ghost predicate SameMinimum(tier: PayoutTier, stored: PayoutTier) {
    stored.minEntries == tier.minEntries
  }

  lemma AscendingKept(tiers: seq<PayoutTier>, stored: seq<PayoutTier>)
    requires TiersAscending(tiers, |tiers|) && |stored| == |tiers|
    requires forall i :: 0 <= i < |tiers| ==> SameMinimum(tiers[i], stored[i])
    ensures forall i :: 1 <= i < |stored| ==> stored[i - 1].minEntries < stored[i].minEntries
  {
    forall i | 1 <= i < |stored| ensures stored[i - 1].minEntries < stored[i].minEntries {
      assert SameMinimum(tiers[i - 1], stored[i - 1]) && SameMinimum(tiers[i], stored[i]);
    }
  }

  lemma StoredTableIsValid(tiers: seq<PayoutTier>, stored: seq<PayoutTier>)
    requires |tiers| > 0 && tiers[0].minEntries == 0 && TiersAscending(tiers, |tiers|)
    requires AllStored(tiers, stored) && forall i :: 0 <= i < |tiers| ==> ValidPayouts(tiers[i].payouts)
    ensures ValidTable(stored)
  {
    forall i | 0 <= i < |tiers| ensures SameMinimum(tiers[i], stored[i]) && ValidPayouts(stored[i].payouts) {
      StoredIsValid(tiers[i], stored[i]);
    }
    AscendingKept(tiers, stored);
  }

  /** `parsePayoutTable`: the table with every tier's payouts sorted; `None` stands for its exceptions. */
  method ParsePayoutTable(tiers: seq<PayoutTier>) returns (r: Option<seq<PayoutTier>>)
    ensures r.Some? <==> ValidTable(tiers)
    ensures r.Some? ==> ValidTable(r.value) && AllStored(tiers, r.value)
  {
    if |tiers| == 0 || tiers[0].minEntries != 0 {
      return None;
    }
    var i := 1;
    while i < |tiers|
      invariant 1 <= i <= |tiers| && TiersAscending(tiers, i)
    {
      if tiers[i].minEntries <= tiers[i - 1].minEntries {
        return None;
      }
      i := i + 1;
    }
    r := StoredTiers(tiers);
    StoredTiersIff(tiers);
    if r.Some? {
      StoredTableIsValid(tiers, r.value);
    }
  }

  lemma {:induction false} TiersAscend(table: seq<PayoutTier>, a: nat, b: nat)
    requires ValidTable(table) && a <= b < |table|
    ensures table[a].minEntries <= table[b].minEntries
    ensures a < b ==> table[a].minEntries < table[b].minEntries
    decreases b - a
  {
    if a < b {
      TiersAscend(table, a, b - 1);
    }
  }

  /** `payoutsFor`: the last tier whose minimum the field reaches; every field size has one. */
  method PayoutsFor(entryCount: int, table: seq<PayoutTier>) returns (payouts: seq<PrizePayout>)
    requires ValidTable(table) && 0 <= entryCount
    ensures exists t :: 0 <= t < |table| && payouts == table[t].payouts && table[t].minEntries <= entryCount
                        && forall u :: t < u < |table| ==> entryCount < table[u].minEntries
    ensures ValidPayouts(payouts)
  {
    var chosen := 0;
    var i := 0;
    while i < |table|
      invariant 0 <= i <= |table| && chosen == Max(0, i - 1)
      invariant table[chosen].minEntries <= entryCount
    {
      if table[i].minEntries > entryCount {
        forall u | i <= u < |table| ensures entryCount < table[u].minEntries {
          TiersAscend(table, i, u);
        }
        break;
      }
      chosen := i;
      i := i + 1;
    }
    payouts := table[chosen].payouts;
  }
}

/**
 * An eliminated player who comes back, from a fresh table on: the entry reads the participation before
 * the hand that busts its user, and the seat row after it.
 */
module LateEntry {
  import opened Sums
  import opened TableTypes
  import opened SidePots
  import opened Betting
  import opened TurnOrder
  import opened HandStart
  import opened Settlement
  import opened Showdown
  import opened Entitlements
  import opened SeatClaims
  import opened SeatReturns
  import L = Ledger
  import T = TableRuns

  /** A new tournament with one empty table and two buy-ins. */
  function NewTable(a: PlayerId, b: PlayerId): World {
    World(map[], {}, map[a := L.PlayerStatus.WAITING, b := L.PlayerStatus.WAITING], false, None, map[])
  }

  function Occupied(id: PlayerId, stack: int): Seat {
    Taken(TablePlayer(id, stack, 0, false, false, false, 0))
  }

  function OneSeated(a: PlayerId): TableState {
    EmptyTable().(seats := EmptyTable().seats[0 := Occupied(a, 50)])
  }

  function HeadsUp(a: PlayerId, b: PlayerId): TableState {
    OneSeated(a).(seats := OneSeated(a).seats[1 := Occupied(b, 50)])
  }

  /** The entry that begins and is not held up by anything. */
  function SitDown(id: nat, u: PlayerId, seat: nat, stack: int): seq<Event> {
    [Enter(id, u, seat, stack)] + RestOf(id) + [WriteSeat(id)]
  }

  /** A user may take the seat at once. */
  predicate CanEnter(w: World, id: nat, u: PlayerId, seat: nat) {
    && u in w.status && !w.closed && !IsFinished(w, u) && !HasRow(w, u)
    && id !in w.claims && seat !in w.rows && !ShouldBlockEmptySnapshot(w, |w.rows|)
    && (w.table.Some? ==> seat < |w.table.value.seats| && w.table.value.seats[seat].Empty?)
  }

  /** The world with the user in row and seat. */
  function SatDown(w: World, u: PlayerId, seat: nat, stack: int): World
    requires u in w.status && (w.table.Some? ==> seat < |w.table.value.seats|) && seat < SEAT_COUNT
  {
    var before := if w.table.Some? then w.table.value else EmptyTable();
    World(w.rows[seat := u], w.elsewhere, w.status[u := Promoted(w.status[u])], w.closed,
          Some(before.(seats := before.seats[seat := Taken(T.Newcomer(before, u, stack))])), w.claims)
  }

  lemma RowAndSeat(w: World, entered: World, id: nat, u: PlayerId, seat: nat, stack: int)
    requires CanEnter(w, id, u, seat) && entered == EnterStep(w, id, u, seat, stack) && seat < SEAT_COUNT
    requires ReadsDone(entered, id, ReadSnapshotStep(ReadTableStep(ReadSeatStep(entered, id), id), id))
    ensures Seating(entered, id) == SatDown(w, u, seat, stack)
  {
    var cleared := MoveOn(entered, id, Cleared(false, |w.rows|));
    assert RowsSeen(entered, entered.claims[id]) == |w.rows|;
    assert Finishing(entered, id) == CommitStep(cleared, id);
    assert CommitStep(cleared, id) == RowWritten(cleared, id);
    var committed := RowWritten(cleared, id);
    assert committed.claims[id] == Claim(u, seat, stack, Committed(|w.rows|));
    assert committed.claims - {id} == w.claims;
  }

  lemma EntersAndSits(w: World, id: nat, u: PlayerId, seat: nat, stack: int)
    requires CanEnter(w, id, u, seat) && seat < SEAT_COUNT
    ensures Seating(EnterStep(w, id, u, seat, stack), id) == SatDown(w, u, seat, stack)
  {
    var entered := EnterStep(w, id, u, seat, stack);
    assert OpenEntry(entered, id, u) && !HasRow(entered, u);
    ReadsClear(entered, id, u);
    RowAndSeat(w, entered, id, u, seat, stack);
  }

  lemma ThreeParts(events: seq<Event>, x: seq<Event>, y: seq<Event>, z: seq<Event>)
    ensures events + x + y + z == events + (x + y + z)
  {
  }

  lemma RestRuns(w: World, events: seq<Event>, id: nat)
    requires PossibleRun(w, events)
    ensures PossibleRun(w, events + RestOf(id) + [WriteSeat(id)])
    ensures Run(w, events + RestOf(id) + [WriteSeat(id)]) == Seating(Run(w, events), id)
  {
    FinishingRun(w, events, id);
    RunOfMore(w, events + RestOf(id), WriteSeat(id));
  }

  lemma SitDownRuns(w: World, events: seq<Event>, id: nat, u: PlayerId, seat: nat, stack: int)
    requires PossibleRun(w, events) && seat < SEAT_COUNT && stack > 0
    ensures PossibleRun(w, events + SitDown(id, u, seat, stack))
    ensures Run(w, events + SitDown(id, u, seat, stack)) == Seating(EnterStep(Run(w, events), id, u, seat, stack), id)
  {
    RunOfMore(w, events, Enter(id, u, seat, stack));
    RestRuns(w, events + [Enter(id, u, seat, stack)], id);
    ThreeParts(events, [Enter(id, u, seat, stack)], RestOf(id), [WriteSeat(id)]);
  }

  /** The two players take their seats, and the first one re-enters: that entry reads PLAYING and 50 chips. */
  function UpToTheHand(a: PlayerId, b: PlayerId): seq<Event> {
    SitDown(0, a, 0, 50) + SitDown(1, b, 1, 50) + [Enter(2, a, 0, 50)]
  }

  function BothSeated(a: PlayerId, b: PlayerId): World {
    World(map[0 := a, 1 := b], {}, map[a := L.PLAYING, b := L.PLAYING], false, Some(HeadsUp(a, b)), map[])
  }

  function ReEntering(a: PlayerId, b: PlayerId): World {
    BothSeated(a, b).(claims := map[2 := Claim(a, 0, 50, Checked)])
  }

  function OneIsSeated(a: PlayerId, b: PlayerId): World {
    World(map[0 := a], {}, map[a := L.PLAYING, b := L.PlayerStatus.WAITING], false, Some(OneSeated(a)), map[])
  }

  lemma FirstSits(a: PlayerId, b: PlayerId)
    requires a != b
    ensures CanEnter(NewTable(a, b), 0, a, 0) && SatDown(NewTable(a, b), a, 0, 50) == OneIsSeated(a, b)
  {
    assert NewTable(a, b).rows[0 := a] == map[0 := a];
  }

  lemma SecondSits(a: PlayerId, b: PlayerId)
    requires a != b
    ensures CanEnter(OneIsSeated(a, b), 1, b, 1) && SatDown(OneIsSeated(a, b), b, 1, 50) == BothSeated(a, b)
  {
    var one := OneIsSeated(a, b);
    assert one.rows[1 := b] == map[0 := a, 1 := b];
    assert one.status[b := L.PLAYING] == map[a := L.PLAYING, b := L.PLAYING];
  }

  lemma BothSit(a: PlayerId, b: PlayerId)
    requires a != b
    ensures PossibleRun(NewTable(a, b), SitDown(0, a, 0, 50) + SitDown(1, b, 1, 50))
    ensures Run(NewTable(a, b), SitDown(0, a, 0, 50) + SitDown(1, b, 1, 50)) == BothSeated(a, b)
  {
    var w := NewTable(a, b);
    FirstSits(a, b);
    SitDownRuns(w, [], 0, a, 0, 50);
    assert [] + SitDown(0, a, 0, 50) == SitDown(0, a, 0, 50);
    EntersAndSits(w, 0, a, 0, 50);
    SecondSits(a, b);
    SitDownRuns(w, SitDown(0, a, 0, 50), 1, b, 1, 50);
    EntersAndSits(OneIsSeated(a, b), 1, b, 1, 50);
  }

  lemma ReEnters(a: PlayerId, b: PlayerId)
    requires a != b
    ensures PossibleRun(NewTable(a, b), UpToTheHand(a, b))
    ensures Run(NewTable(a, b), UpToTheHand(a, b)) == ReEntering(a, b)
  {
    BothSit(a, b);
    RunOfMore(NewTable(a, b), SitDown(0, a, 0, 50) + SitDown(1, b, 1, 50), Enter(2, a, 0, 50));
  }

  function AllIn(id: PlayerId): Seat {
    Taken(TablePlayer(id, 0, 50, false, false, true, 50))
  }

  /** Seats 0 and 1 are all-in for 50 each, and nobody else is dealt in. */
  ghost predicate AllInSeats(ss: seq<Seat>, a: PlayerId, b: PlayerId) {
    && |ss| == SEAT_COUNT && ss[0] == AllIn(a) && ss[1] == AllIn(b)
    && forall i :: 2 <= i < SEAT_COUNT ==> ss[i].Empty?
  }

  ghost predicate AllInBoth(s: TableState, a: PlayerId, b: PlayerId) {
    ShowdownInv(s) && Chips(s) == 100 && AllInSeats(s.seats, a, b)
  }

  lemma HeadsUpReady(a: PlayerId, b: PlayerId)
    requires a != b
    ensures var s := HeadsUp(a, b).(smallBlind := 50, ante := 0);
            HandReady(s) && Chips(s) == 100 && TwoHaveChips(s.seats) && |s.seats| == SEAT_COUNT
  {
    var s := HeadsUp(a, b).(smallBlind := 50, ante := 0);
    assert HasChips(s.seats[0]) && HasChips(s.seats[1]);
    var none := EmptyTable().seats;
    assert forall i :: 0 <= i < |none| ==> Stacks(none)[i] == 0;
    SumConstant(Stacks(none), 0);
    SeatUpdateSums(none, 0, Occupied(a, 50));
    SeatUpdateSums(none[0 := Occupied(a, 50)], 1, Occupied(b, 50));
  }

  /** With two stacks the blinds are posted from seats 0 and 1, in either order. */
  lemma HeadsUpBlinds(s: TableState, a: PlayerId, b: PlayerId) returns (button: int, sb: int, bb: int)
    requires HandReady(s) && TwoHaveChips(s.seats) && s.seats == HeadsUp(a, b).seats && s.ante == 0
    ensures 0 <= button < |s.seats| && 0 <= sb < 2 && 0 <= bb < 2 && sb != bb
    ensures StartPreFlop(s) == Started(PostBlinds(s.(buttonUser := button), sb, bb))
  {
    button, sb, bb := StartSeats(s);
    assert forall i :: 2 <= i < SEAT_COUNT ==> s.seats[i].Empty?;
  }

  /** Blinds of 50 and 100 put both players all-in, whoever has the button. */
  lemma HeadsUpDealt(a: PlayerId, b: PlayerId)
    requires a != b
    ensures AllInBoth(T.Step(HeadsUp(a, b), T.Deal(50, 0)), a, b)
  {
    HeadsUpReady(a, b);
    var s := HeadsUp(a, b).(smallBlind := 50, ante := 0);
    var button, sb, bb := HeadsUpBlinds(s, a, b);
    StartKeepsOrder(s);
    PostedAllIn(s.(buttonUser := button), sb, bb, a, b);
  }

  lemma PostedSeats(s: TableState, sb: int, bb: int, a: PlayerId, b: PlayerId)
    requires 0 <= sb < 2 && 0 <= bb < 2 && sb != bb && s.smallBlind == 50
    requires s.seats == HeadsUp(a, b).seats
    ensures AllInSeats(BlindsPosted(s, sb, bb).seats, a, b)
  {
    var first := ExecuteBet(s, sb, 50);
    assert first.seats == s.seats[sb := AllIn(if sb == 0 then a else b)];
    assert BlindsPosted(s, sb, bb).seats == first.seats[bb := AllIn(if bb == 0 then a else b)];
  }

  lemma AllInEndsIt(s: TableState, a: PlayerId, b: PlayerId)
    requires AllInSeats(s.seats, a, b)
    ensures ShouldGoToShowdown(s)
  {
    assert forall i :: 0 <= i < |s.seats| ==> !CanAct(s.seats[i]);
  }

  lemma PostedAllIn(s: TableState, sb: int, bb: int, a: PlayerId, b: PlayerId)
    requires 0 <= sb < 2 && 0 <= bb < 2 && sb != bb && s.smallBlind == 50 && Shape(s)
    requires s.seats == HeadsUp(a, b).seats
    requires BettingInv(PostBlinds(s, sb, bb)) || ShowdownInv(PostBlinds(s, sb, bb))
    requires Chips(PostBlinds(s, sb, bb)) == 100
    ensures AllInBoth(PostBlinds(s, sb, bb), a, b)
  {
    PostedSeats(s, sb, bb, a, b);
    var posted := BlindsPosted(s, sb, bb);
    assert PostBlinds(s, sb, bb).seats == posted.seats;
    AllInEndsIt(PostBlinds(s, sb, bb), a, b);
  }

  /** Whoever no tier names wins nothing. */
  lemma {:induction false} UnnamedWinsNothing(ss: seq<Seat>, button: int, pots: seq<SidePot>,
                                              tiers: seq<seq<PlayerId>>, k: nat, i: int)
    requires 0 <= button < |ss| && k <= |pots| && 0 <= i < |ss| && ss[i].Taken?
    requires forall q :: 0 <= q < |pots| ==> 0 <= pots[q].amount
    requires forall t :: 0 <= t < |tiers| ==> ss[i].player.id !in tiers[t]
    ensures Won(ss, button, pots, tiers, k, i) == 0
  {
    if k > 0 {
      UnnamedWinsNothing(ss, button, pots, tiers, k - 1, i);
      var claim := ClaimOf(pots[k - 1].relevantPlayerIds, tiers);
      ClaimIsBestTier(pots[k - 1].relevantPlayerIds, tiers, ss[i].player.id);
      SplitPotPays(ss, button, pots[k - 1].amount, claim, i);
    }
  }

  lemma NothingToRefund(s: TableState, a: PlayerId, b: PlayerId)
    requires AllInBoth(s, a, b)
    ensures Refund(s) == s
  {
    assert Contributed(s.seats[0]) == 50 && Contributed(s.seats[1]) == 50;
    forall i | 0 <= i < |s.seats| ensures Contributed(s.seats[i]) <= 50 {
    }
    var top := TopSeat(s.seats);
    assert SecondHighest(s.seats, top) >= Contributed(s.seats[if top == 0 then 1 else 0]);
  }

  lemma FirstWinsNothing(s: TableState, a: PlayerId, b: PlayerId)
    requires AllInBoth(s, a, b) && a != b && Refund(s) == s
    ensures Won(s.seats, s.buttonUser, SidePotsOf(s.seats), [[b]], |SidePotsOf(s.seats)|, 0) == 0
  {
    RefundKeeps(s);
    SidePotsNonNegative(s.seats);
    UnnamedWinsNothing(s.seats, s.buttonUser, SidePotsOf(s.seats), [[b]], |SidePotsOf(s.seats)|, 0);
  }

  lemma FirstIsLeftBroke(s: TableState, a: PlayerId, b: PlayerId)
    requires AllInBoth(s, a, b) && a != b && Refund(s) == s && Resolve(s, [[b]]).HandSettled?
    ensures var r := Resolve(s, [[b]]).state;
            && |r.seats| == SEAT_COUNT
            && r.seats[0].Taken? && r.seats[0].player.id == a && StackOf(r.seats[0]) == 0
  {
    FirstWinsNothing(s, a, b);
    assert Cut(s) == s.seats;
    SettledStacks(s, [[b]], 0);
  }

  lemma AllInSettles(s: TableState, a: PlayerId, b: PlayerId)
    requires AllInBoth(s, a, b) && Refund(s) == s && Resolve(s, [[b]]).HandSettled?
    ensures HandEndInv(Resolve(s, [[b]]).state) && Chips(Resolve(s, [[b]]).state) == 100
  {
    assert Contender(s.seats[0]);
    SettledChips(s, [[b]]);
  }

  /** The second player is nominated, and the first is left without chips. */
  lemma FirstBusts(s: TableState, a: PlayerId, b: PlayerId)
    requires AllInBoth(s, a, b) && a != b
    ensures var r := T.Step(s, T.Nominate([[b]]));
            && HandEndInv(r) && Chips(r) == 100 && |r.seats| == SEAT_COUNT
            && r.seats[0].Taken? && r.seats[0].player.id == a && StackOf(r.seats[0]) == 0
  {
    NothingToRefund(s, a, b);
    Accepted(s, a, b);
    FirstIsLeftBroke(s, a, b);
    AllInSettles(s, a, b);
  }

  lemma Accepted(s: TableState, a: PlayerId, b: PlayerId)
    requires AllInBoth(s, a, b) && a != b && Refund(s) == s
    ensures Resolve(s, [[b]]).HandSettled?
  {
    AcceptedIff(s, [[b]]);
    LevelsAreTheContributions(s.seats);
    forall k | 0 <= k < |SidePotsOf(s.seats)| ensures NamesOneOf([[b]], SidePotsOf(s.seats)[k].relevantPlayerIds) {
      assert IsLevel(s.seats, Levels(s.seats)[k]);
      EligibleIffReached(s.seats, 1, k);
      assert b in [[b]][0];
    }
  }

  function TheHand(b: PlayerId): seq<Event> {
    [Hand(T.Deal(50, 0))] + [Hand(T.Nominate([[b]]))] + [FinishHand]
  }

  /** The first player is out and the table is cleared; the entry is still where it was. */
  ghost predicate FirstIsOut(w: World, a: PlayerId) {
    && Out(w, a) && w.claims == map[2 := Claim(a, 0, 50, Checked)] && 0 !in w.rows
    && w.table.Some? && w.table.value.phase == WAITING && |w.table.value.seats| == SEAT_COUNT
    && w.table.value.seats[0].Empty? && Chips(w.table.value) == 100
  }

  lemma Eliminated(w: World, a: PlayerId, b: PlayerId, s: TableState)
    requires a != b && w == ReEntering(a, b).(table := Some(s))
    requires HandEndInv(s) && Chips(s) == 100 && |s.seats| == SEAT_COUNT
    requires s.seats[0].Taken? && s.seats[0].player.id == a && StackOf(s.seats[0]) == 0
    ensures FirstIsOut(Step(w, FinishHand), a)
  {
    InitTableReady(s);
    assert a in BrokeUsers(s);
    assert a in w.status;
  }

  /** The hand of these two players goes on while nothing else happens. */
  lemma HandGoesOn(w: World, events: seq<Event>, s: TableState, e: T.Event, a: PlayerId, b: PlayerId)
    requires PossibleRun(w, events) && Run(w, events) == ReEntering(a, b).(table := Some(s))
    requires Shape(s) && (e.Deal? || e.Nominate?)
    ensures PossibleRun(w, events + [Hand(e)])
    ensures Run(w, events + [Hand(e)]) == ReEntering(a, b).(table := Some(T.Step(s, e)))
  {
    RunOfMore(w, events, Hand(e));
  }

  lemma SettledAndCleared(w: World, events: seq<Event>, s: TableState, a: PlayerId, b: PlayerId)
    requires a != b && AllInBoth(s, a, b)
    requires PossibleRun(w, events) && Run(w, events) == ReEntering(a, b).(table := Some(s))
    ensures PossibleRun(w, events + [Hand(T.Nominate([[b]]))] + [FinishHand])
    ensures FirstIsOut(Run(w, events + [Hand(T.Nominate([[b]]))] + [FinishHand]), a)
  {
    HandGoesOn(w, events, s, T.Nominate([[b]]), a, b);
    FirstBusts(s, a, b);
    var settled := T.Step(s, T.Nominate([[b]]));
    Eliminated(ReEntering(a, b).(table := Some(settled)), a, b, settled);
    RunOfMore(w, events + [Hand(T.Nominate([[b]]))], FinishHand);
  }

  lemma HeadsUpShape(a: PlayerId, b: PlayerId)
    ensures Shape(HeadsUp(a, b)) && ReEntering(a, b).(table := Some(HeadsUp(a, b))) == ReEntering(a, b)
  {
  }

  lemma AfterTheHand(a: PlayerId, b: PlayerId)
    requires a != b
    ensures PossibleRun(NewTable(a, b), UpToTheHand(a, b) + TheHand(b))
    ensures FirstIsOut(Run(NewTable(a, b), UpToTheHand(a, b) + TheHand(b)), a)
  {
    ReEnters(a, b);
    HeadsUpShape(a, b);
    HeadsUpDealt(a, b);
    DealtSettledAndCleared(NewTable(a, b), UpToTheHand(a, b), HeadsUp(a, b), a, b);
  }

  lemma DealtSettledAndCleared(w: World, events: seq<Event>, s: TableState, a: PlayerId, b: PlayerId)
    requires a != b && Shape(s) && AllInBoth(T.Step(s, T.Deal(50, 0)), a, b)
    requires PossibleRun(w, events) && Run(w, events) == ReEntering(a, b).(table := Some(s))
    ensures PossibleRun(w, events + TheHand(b)) && FirstIsOut(Run(w, events + TheHand(b)), a)
  {
    var dealt := T.Step(s, T.Deal(50, 0));
    HandGoesOn(w, events, s, T.Deal(50, 0), a, b);
    SettledAndCleared(w, events + [Hand(T.Deal(50, 0))], dealt, a, b);
    OneByOne(events, [Hand(T.Deal(50, 0))], [Hand(T.Nominate([[b]]))], [FinishHand]);
  }

  lemma OneByOne(events: seq<Event>, x: seq<Event>, y: seq<Event>, z: seq<Event>)
    ensures events + (x + y + z) == events + x + y + z
  {
  }

  /** A whole evening: two players sit down, one re-enters, busts while the entry waits, and the entry goes on. */
  function Evening(a: PlayerId, b: PlayerId): seq<Event> {
    UpToTheHand(a, b) + TheHand(b) + RestOf(2) + [WriteSeat(2)]
  }

  /** Finished, and back on the row and in the seat with 50 chips; 150 chips are on the table. */
  ghost predicate BackInTheSeat(end: World, a: PlayerId) {
    && IsFinished(end, a) && 0 in end.rows && end.rows[0] == a
    && end.table.Some? && |end.table.value.seats| == SEAT_COUNT
    && end.table.value.seats[0] == Occupied(a, 50)
    && Chips(end.table.value) == 150
  }

  lemma SeatsAgain(out: World, a: PlayerId)
    requires FirstIsOut(out, a)
    ensures BackInTheSeat(Seating(out, 2), a)
  {
    assert SeatFree(out, 2);
    RevivedWithTheOldStack(out, 2, a);
    SeatUpdateSums(out.table.value.seats, 0, Occupied(a, 50));
  }

  lemma GoesOn(w: World, events: seq<Event>, a: PlayerId)
    requires PossibleRun(w, events) && FirstIsOut(Run(w, events), a)
    ensures PossibleRun(w, events + RestOf(2) + [WriteSeat(2)])
    ensures BackInTheSeat(Run(w, events + RestOf(2) + [WriteSeat(2)]), a)
  {
    RestRuns(w, events, 2);
    SeatsAgain(Run(w, events), a);
  }

  /**
   * A run from a fresh table that revives an eliminated player: in the end `a` is finished, holds the row
   * of seat 0 again, and sits there with the 50 chips already lost, so that 150 chips are on a table to
   * which 100 were brought.
   */
  lemma LateEntryRevives(a: PlayerId, b: PlayerId)
    requires a != b
    ensures PossibleRun(NewTable(a, b), Evening(a, b))
    ensures BackInTheSeat(Run(NewTable(a, b), Evening(a, b)), a)
    ensures Run(NewTable(a, b), Evening(a, b)).status.Keys == {a, b}
  {
    AfterTheHand(a, b);
    GoesOn(NewTable(a, b), UpToTheHand(a, b) + TheHand(b), a);
    RunStatusKeys(NewTable(a, b), Evening(a, b));
  }

  lemma {:induction false} RunStatusKeys(w: World, events: seq<Event>)
    ensures Run(w, events).status.Keys == w.status.Keys
  {
    if |events| > 0 {
      RunStatusKeys(w, events[..|events| - 1]);
      StatusKeys(Run(w, events[..|events| - 1]), events[|events| - 1]);
    }
  }
}

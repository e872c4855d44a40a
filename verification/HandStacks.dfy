/**
 * What a player had when the hand began. Eliminations rank busted players by `stack + totalContributed`
 * of the settled snapshot; that sum is the stack each of them was dealt in with.
 */
module HandStacks {
  import opened Sums
  import opened TableTypes
  import opened SidePots
  import opened Betting
  import opened TurnOrder
  import opened HandStart
  import opened RaiseRules
  import opened Settlement
  import opened Showdown
  import opened Entitlements
  import T = TableRuns

  /** `stack + totalContributed`. */
  function Holdings(x: Seat): int {
    StackOf(x) + Contributed(x)
  }

  /** The seat belongs to the same player, with the same chips before or in the pot. */
  predicate SameHoldings(x: Seat, y: Seat) {
    x.Taken? ==> y.Taken? && y.player.id == x.player.id && Holdings(y) == Holdings(x)
  }

  ghost predicate AllHoldings(ss: seq<Seat>, rs: seq<Seat>) {
    |rs| == |ss| && forall i :: 0 <= i < |ss| ==> SameHoldings(ss[i], rs[i])
  }

  lemma AllHoldingsTrans(ss: seq<Seat>, rs: seq<Seat>, ts: seq<Seat>)
    requires AllHoldings(ss, rs) && AllHoldings(rs, ts)
    ensures AllHoldings(ss, ts)
  {
    forall i | 0 <= i < |ss| ensures SameHoldings(ss[i], ts[i]) {
      assert SameHoldings(ss[i], rs[i]) && SameHoldings(rs[i], ts[i]);
    }
  }

  lemma BetKeepsHoldings(s: TableState, i: int, amount: int)
    requires SeatTaken(s, i)
    ensures AllHoldings(s.seats, ExecuteBet(s, i, amount).seats)
  {
  }

  lemma RaiseKeepsHoldings(s: TableState, i: int, betAmount: int)
    requires SeatTaken(s, i) && HandleRaise(s, i, betAmount).Done?
    ensures AllHoldings(s.seats, HandleRaise(s, i, betAmount).state.seats)
  {
    var p := s.seats[i].player;
    var paid := ExecuteBet(s, i, Min(betAmount - p.bet, p.stack));
    BetKeepsHoldings(s, i, Min(betAmount - p.bet, p.stack));
    var raised := AfterRaise(paid, i, MinRaiseSize(s));
    assert AllHoldings(paid.seats, raised.seats);
    AllHoldingsTrans(s.seats, paid.seats, raised.seats);
    AllHoldingsTrans(s.seats, raised.seats, Checked(raised, i).seats);
  }

  lemma PlayKeepsHoldings(s: TableState, i: int, action: ActionType, amount: Option<int>)
    requires SeatTaken(s, i) && Play(s, i, action, amount).Done?
    ensures AllHoldings(s.seats, Play(s, i, action, amount).state.seats)
  {
    if action == RAISE {
      RaiseKeepsHoldings(s, i, amount.value);
    }
  }

  lemma AdvanceKeepsHoldings(s: TableState, wasTurn: bool)
    requires Shape(s) && (wasTurn ==> 0 <= s.turn)
    ensures AllHoldings(s.seats, Advance(s, wasTurn).seats)
  {
  }

  lemma ActKeepsHoldings(s: TableState, i: int, action: ActionType, amount: Option<int>)
    requires BettingInv(s) && Act(s, i, action, amount).Applied?
    ensures AllHoldings(s.seats, Act(s, i, action, amount).state.seats)
  {
    if DealerAction(action) {
      AdvanceKeepsHoldings(Folded(s, i), s.turn == i);
      AllHoldingsTrans(s.seats, Folded(s, i).seats, Advance(Folded(s, i), s.turn == i).seats);
    } else {
      PlayTakesTurn(s, action, amount);
      PlayKeepsHoldings(s, i, action, amount);
      var played := Play(s, i, action, amount).state;
      AdvanceKeepsHoldings(played, true);
      AllHoldingsTrans(s.seats, played.seats, Advance(played, true).seats);
    }
  }

  lemma AntesKeepHoldings(s: TableState)
    ensures AllHoldings(s.seats, WithAntes(s).seats)
  {
    AntesSeatBySeat(s, |s.seats|);
    forall i | 0 <= i < |s.seats| ensures SameHoldings(s.seats[i], WithAntes(s).seats[i]) {
      if s.ante > 0 {
        AnteAtShape(s, i);
      }
    }
  }

  lemma BlindsKeepHoldings(s: TableState, sb: int, bb: int)
    requires SeatTaken(s, sb) && SeatTaken(s, bb)
    ensures AllHoldings(s.seats, PostBlinds(s, sb, bb).seats)
  {
    var one := ExecuteBet(s, sb, s.smallBlind);
    BetKeepsHoldings(s, sb, s.smallBlind);
    BetKeepsHoldings(one, bb, s.smallBlind * 2);
    AllHoldingsTrans(s.seats, one.seats, BlindsPosted(s, sb, bb).seats);
  }

  /** Antes and blinds move chips from a stack into the pot, and from nobody else. */
  lemma StartKeepsHoldings(s: TableState)
    requires HandReady(s) && StartPreFlop(s).Started?
    ensures AllHoldings(s.seats, StartPreFlop(s).state.seats)
  {
    var button, sb, bb := StartSeats(s);
    var s0 := s.(buttonUser := button);
    AntesKeepHoldings(s0);
    BlindsKeepHoldings(WithAntes(s0), sb, bb);
    AllHoldingsTrans(s.seats, WithAntes(s0).seats, StartPreFlop(s).state.seats);
  }

  /** An uncalled bet goes back from the contribution to the stack. */
  lemma RefundKeepsHoldings(s: TableState)
    ensures AllHoldings(s.seats, Refund(s).seats)
  {
  }

  /** What happens at a table between the deal and the settlement. */
  predicate DuringHand(e: T.Event) {
    e.Play? || e.Sit?
  }

  ghost predicate HandGoesOn(s: TableState) {
    BettingInv(s) || ShowdownInv(s)
  }

  lemma MoveKeepsHoldings(s: TableState, m: Move)
    requires HandGoesOn(s)
    ensures HandGoesOn(StateAfter(s, m)) && AllHoldings(s.seats, StateAfter(s, m).seats)
  {
    if BettingInv(s) && Act(s, m.seat, m.action, m.raiseAmount).Applied? {
      ActKeepsHoldings(s, m.seat, m.action, m.raiseAmount);
      ActKeepsOrder(s, m.seat, m.action, m.raiseAmount);
    }
  }

  lemma StepKeepsHoldings(s: TableState, e: T.Event)
    requires HandGoesOn(s) && DuringHand(e)
    ensures HandGoesOn(T.Step(s, e)) && AllHoldings(s.seats, T.Step(s, e).seats)
  {
    if e.Play? {
      MoveKeepsHoldings(s, e.move);
    } else if T.CanSit(s, e.seat, e.id, e.stack) {
      T.SitKeepsTable(s, e.seat, e.id, e.stack);
      assert s.seats[e.seat].Empty?;
    }
  }

  lemma {:induction false} RunKeepsHoldings(s: TableState, events: seq<T.Event>)
    requires HandGoesOn(s) && forall k :: 0 <= k < |events| ==> DuringHand(events[k])
    ensures T.TableInv(s) && HandGoesOn(T.Run(s, events)) && AllHoldings(s.seats, T.Run(s, events).seats)
    decreases |events|
  {
    if |events| > 0 {
      StepKeepsHoldings(s, events[0]);
      T.StepKeepsTable(s, events[0]);
      RunKeepsHoldings(T.Step(s, events[0]), events[1..]);
      AllHoldingsTrans(s.seats, T.Step(s, events[0]).seats, T.Run(s, events).seats);
    }
  }

  /** Settling adds what was won to the holdings, and a seat left without chips has won nothing. */
  lemma SettledHoldings(s: TableState, tiers: seq<seq<PlayerId>>, i: nat)
    requires ShowdownInv(s) && Resolve(s, tiers).HandSettled? && i < |s.seats| && s.seats[i].Taken?
    ensures var r := Resolve(s, tiers).state;
            && |r.seats| == |s.seats| && r.seats[i].Taken? && r.seats[i].player.id == s.seats[i].player.id
            && Holdings(r.seats[i]) >= Holdings(s.seats[i])
            && (StackOf(r.seats[i]) == 0 ==> Holdings(r.seats[i]) == Holdings(s.seats[i]))
  {
    SettledStacks(s, tiers, i);
    WonAtMostMatched(s, tiers, i);
    SettledContributions(s, tiers, i);
    RefundKeepsHoldings(s);
    assert SameHoldings(s.seats[i], Cut(s)[i]);
    RefundKeeps(s);
    assert 0 <= StackOf(Refund(s).seats[i]);
  }

  lemma SettledContributions(s: TableState, tiers: seq<seq<PlayerId>>, i: nat)
    requires ShowdownInv(s) && Resolve(s, tiers).HandSettled? && i < |s.seats|
    ensures |Resolve(s, tiers).state.seats| == |s.seats|
    ensures Contributed(Resolve(s, tiers).state.seats[i]) == Contributed(Cut(s)[i])
  {
    RefundKeeps(s);
    var pots := SidePotsOf(Cut(s));
    SidePotsNonNegative(Cut(s));
    PayPotsPays(Cut(s), s.buttonUser, pots, tiers, |pots|, i);
  }

  /** Between the deal and the settlement every player dealt in has, before or in the pot, the stack dealt. */
  lemma DealtHoldings(s: TableState, events: seq<T.Event>, mid: TableState)
    requires HandReady(s) && s.smallBlind > 0 && 0 <= s.ante && StartPreFlop(s).Started?
    requires forall k :: 0 <= k < |events| ==> DuringHand(events[k])
    requires T.TableInv(StartPreFlop(s).state) && mid == T.Run(StartPreFlop(s).state, events)
    ensures HandGoesOn(mid) && AllHoldings(s.seats, mid.seats)
  {
    var dealt := StartPreFlop(s).state;
    StartKeepsOrder(s);
    StartKeepsHoldings(s);
    RunKeepsHoldings(dealt, events);
    AllHoldingsTrans(s.seats, dealt.seats, mid.seats);
  }

  /** Seat `i` of a settled snapshot against the same seat before the deal. */
  predicate HandStartKept(before: Seat, settled: Seat) {
    && settled.Taken? && before.Taken? && settled.player.id == before.player.id
    && Holdings(settled) >= StackOf(before)
    && (StackOf(settled) == 0 ==> Holdings(settled) == StackOf(before))
  }

  lemma SettledHandStart(s: TableState, mid: TableState, tiers: seq<seq<PlayerId>>, i: nat)
    requires HandReady(s) && HandGoesOn(mid) && AllHoldings(s.seats, mid.seats)
    requires i < |s.seats| && s.seats[i].Taken? && Resolve(mid, tiers).HandSettled?
    ensures |Resolve(mid, tiers).state.seats| == |s.seats|
    ensures HandStartKept(s.seats[i], Resolve(mid, tiers).state.seats[i])
  {
    assert SameHoldings(s.seats[i], mid.seats[i]);
    assert SeatReady(s.seats[i]);
    SettledHoldings(mid, tiers, i);
  }

  /**
   * The hand-start stack. From the deal on, over any run of moves and newcomers and any nomination that
   * settles the hand: a player left without chips has in `stack + totalContributed` exactly the stack
   * held before the deal, and nobody has less.
   */
  lemma HandStartStack(s: TableState, events: seq<T.Event>, mid: TableState, tiers: seq<seq<PlayerId>>, i: nat)
    requires HandReady(s) && s.smallBlind > 0 && 0 <= s.ante && StartPreFlop(s).Started?
    requires forall k :: 0 <= k < |events| ==> DuringHand(events[k])
    requires T.TableInv(StartPreFlop(s).state) && mid == T.Run(StartPreFlop(s).state, events)
    requires Shape(mid) && i < |s.seats| && s.seats[i].Taken? && Resolve(mid, tiers).HandSettled?
    ensures |Resolve(mid, tiers).state.seats| == |s.seats|
    ensures HandStartKept(s.seats[i], Resolve(mid, tiers).state.seats[i])
  {
    DealtHoldings(s, events, mid);
    SettledHandStart(s, mid, tiers, i);
  }
}

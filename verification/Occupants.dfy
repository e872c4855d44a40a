/** Who sits where: no event of a hand ever moves a player to another seat or puts a new one in. */
module Occupants {
  import opened Sums
  import opened TableTypes
  import opened Ring
  import opened Betting
  import opened TurnOrder
  import opened HandStart
  import opened Settlement
  import opened Entitlements
  import opened TurnTimer
  import T = TableRuns

  predicate SameOccupant(x: Seat, y: Seat) {
    (x.Taken? <==> y.Taken?) && (x.Taken? ==> x.player.id == y.player.id)
  }

  ghost predicate SameOccupants(ss: seq<Seat>, rs: seq<Seat>) {
    |rs| == |ss| && forall i :: 0 <= i < |ss| ==> SameOccupant(ss[i], rs[i])
  }

  lemma SameOccupantsTrans(ss: seq<Seat>, rs: seq<Seat>, ts: seq<Seat>)
    requires SameOccupants(ss, rs) && SameOccupants(rs, ts)
    ensures SameOccupants(ss, ts)
  {
    forall i | 0 <= i < |ss| ensures SameOccupant(ss[i], ts[i]) {
      assert SameOccupant(ss[i], rs[i]) && SameOccupant(rs[i], ts[i]);
    }
  }

  lemma AdvanceKeepsOccupants(s: TableState, wasTurn: bool)
    requires Shape(s) && (wasTurn ==> 0 <= s.turn)
    ensures SameOccupants(s.seats, Advance(s, wasTurn).seats)
  {
  }

  lemma AfterRaiseKeepsOccupants(s: TableState, i: int, minRaiseSize: int)
    requires SeatTaken(s, i)
    ensures SameOccupants(s.seats, AfterRaise(s, i, minRaiseSize).seats)
  {
    assert SameOccupants(s.seats, ResetChecked(s.seats));
  }

  lemma HandleRaiseKeepsOccupants(s: TableState, i: int, betAmount: int)
    requires SeatTaken(s, i) && HandleRaise(s, i, betAmount).Done?
    ensures SameOccupants(s.seats, HandleRaise(s, i, betAmount).state.seats)
  {
    var p := s.seats[i].player;
    var paid := ExecuteBet(s, i, Min(betAmount - p.bet, p.stack));
    var raised := AfterRaise(paid, i, MinRaiseSize(s));
    AfterRaiseKeepsOccupants(paid, i, MinRaiseSize(s));
    assert SameOccupants(s.seats, paid.seats);
    SameOccupantsTrans(s.seats, paid.seats, raised.seats);
    SameOccupantsTrans(s.seats, raised.seats, Checked(raised, i).seats);
  }

  lemma PlayKeepsOccupants(s: TableState, i: int, action: ActionType, amount: Option<int>)
    requires SeatTaken(s, i) && Play(s, i, action, amount).Done?
    ensures SameOccupants(s.seats, Play(s, i, action, amount).state.seats)
  {
    if action == RAISE {
      HandleRaiseKeepsOccupants(s, i, amount.value);
    }
  }

  lemma ActKeepsOccupants(s: TableState, i: int, action: ActionType, amount: Option<int>)
    requires Shape(s) && Act(s, i, action, amount).Applied?
    ensures SameOccupants(s.seats, Act(s, i, action, amount).state.seats)
  {
    if DealerAction(action) {
      AdvanceKeepsOccupants(Folded(s, i), s.turn == i);
      SameOccupantsTrans(s.seats, Folded(s, i).seats, Advance(Folded(s, i), s.turn == i).seats);
    } else if s.seats[i].player.hasFolded {
      AdvanceKeepsOccupants(s, true);
    } else {
      var played := Play(s, i, action, amount).state;
      PlayKeepsShape(s, i, action, amount);
      PlayKeepsOccupants(s, i, action, amount);
      AdvanceKeepsOccupants(played, true);
      SameOccupantsTrans(s.seats, played.seats, Advance(played, true).seats);
    }
  }

  lemma {:induction false} AntesKeepOccupants(s: TableState, k: nat)
    requires k <= |s.seats|
    ensures SameOccupants(s.seats, PayAnteUpTo(s, k).seats)
  {
    AntesSeatBySeat(s, k);
  }

  lemma PostBlindsKeepsOccupants(s: TableState, sb: int, bb: int)
    requires SeatTaken(s, sb) && SeatTaken(s, bb)
    ensures SameOccupants(s.seats, PostBlinds(s, sb, bb).seats)
  {
    var one := ExecuteBet(s, sb, s.smallBlind);
    assert SameOccupants(s.seats, one.seats);
    assert SameOccupants(one.seats, ExecuteBet(one, bb, s.smallBlind * 2).seats);
    SameOccupantsTrans(s.seats, one.seats, ExecuteBet(one, bb, s.smallBlind * 2).seats);
  }

  lemma StartKeepsOccupants(s: TableState)
    requires Shape(s) && StartPreFlop(s).Started?
    ensures SameOccupants(s.seats, StartPreFlop(s).state.seats)
  {
    var button := NextLive(s.seats, Succ(s.buttonUser, |s.seats|));
    var s0 := s.(buttonUser := button);
    AntesKeepOccupants(s0, |s.seats|);
    var sb := SmallBlindSeat(s.seats, button);
    var bb := NextLive(s.seats, Succ(sb, |s.seats|));
    PostBlindsKeepsOccupants(WithAntes(s0), sb, bb);
    SameOccupantsTrans(s.seats, WithAntes(s0).seats, PostBlinds(WithAntes(s0), sb, bb).seats);
  }

  lemma ResolveKeepsOccupants(s: TableState, tiers: seq<seq<PlayerId>>)
    requires ShowdownInv(s) && Resolve(s, tiers).HandSettled?
    ensures SameOccupants(s.seats, Resolve(s, tiers).state.seats)
  {
    var r := Resolve(s, tiers).state;
    SettledStacks(s, tiers, 0);
    forall i | 0 <= i < |s.seats| ensures SameOccupant(s.seats[i], r.seats[i]) {
      SettledStacks(s, tiers, i);
    }
  }

  /** The events of a hand, from the deal to the settlement and the rebuys after it. */
  predicate WithinHand(e: T.Event) {
    e.Deal? || e.Play? || e.Nominate? || e.Rebuy?
  }

  lemma HandKeepsOccupants(s: TableState, e: T.Event)
    requires T.TableInv(s) && Shape(s) && WithinHand(e)
    ensures SameOccupants(s.seats, T.Step(s, e).seats)
  {
    match e {
      case Deal(smallBlind, ante) =>
        var level := s.(smallBlind := smallBlind, ante := ante);
        if s.phase == WAITING && smallBlind > 0 && ante >= 0 && StartPreFlop(level).Started? {
          StartKeepsOccupants(level);
        }
      case Play(m) =>
        if Act(s, m.seat, m.action, m.raiseAmount).Applied? {
          ActKeepsOccupants(s, m.seat, m.action, m.raiseAmount);
        }
      case Nominate(tiers) =>
        if s.phase == SHOWDOWN && Resolve(s, tiers).HandSettled? {
          ResolveKeepsOccupants(s, tiers);
        }
      case Rebuy(_, _) =>
    }
  }
}

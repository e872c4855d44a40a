/** The table snapshot (`TableState`) and the questions the engine keeps asking about a seat. */
module TableTypes {
  import opened Sums

  type PlayerId = string

  datatype Option<+T> = None | Some(value: T)

  datatype GamePhase = WAITING | PRE_FLOP | FLOP | TURN | RIVER | SHOWDOWN | HAND_END

  datatype ActionType = CHECK | CALL | FOLD | RAISE | TIME_OUT | DEALER_KICK | DEALER_FOLD

  datatype TablePlayer = TablePlayer(
    id: PlayerId,
    stack: int,
    bet: int,
    hasFolded: bool,
    hasChecked: bool,
    isAllIn: bool,
    totalContributed: int)

  /** An element of `state.players`: a seat is null or holds a player. */
  datatype Seat = Empty | Taken(player: TablePlayer)

  datatype SidePot = SidePot(amount: int, relevantPlayerIds: seq<PlayerId>)

  datatype PauseReason = SERVER_DOWN | TRANSIENT_ERROR | LINE_DOWN

  datatype Pause = Pause(downMs: int, reason: PauseReason)

  datatype TableState = TableState(
    phase: GamePhase,
    seats: seq<Seat>,
    buttonUser: int,
    turn: int,
    pot: int,
    sidePots: seq<SidePot>,
    currentBet: int,
    smallBlind: int,
    ante: int,
    lastRaiseSize: Option<int>,
    timerEpoch: nat,
    actionDeadline: Option<int>,
    resumePending: Option<Pause>)

  predicate BettingPhase(p: GamePhase) {
    p == PRE_FLOP || p == FLOP || p == TURN || p == RIVER
  }

  /** Dealt in and not folded: `p && !p.hasFolded`. */
  predicate InHand(x: Seat) {
    x.Taken? && !x.player.hasFolded
  }

  /** `p && !p.hasFolded && !p.isAllIn`. */
  predicate CanAct(x: Seat) {
    InHand(x) && !x.player.isAllIn
  }

  /** The test `findNextActiveSeat` makes. */
  predicate Live(x: Seat) {
    CanAct(x) && x.player.stack > 0
  }

  function Contributed(x: Seat): int {
    if x.Taken? then x.player.totalContributed else 0
  }

  function StackOf(x: Seat): int {
    if x.Taken? then x.player.stack else 0
  }

  function Contributions(ss: seq<Seat>): (r: seq<int>)
    ensures |r| == |ss|
    ensures forall i :: 0 <= i < |ss| ==> r[i] == Contributed(ss[i])
  {
    seq(|ss|, i requires 0 <= i < |ss| => Contributed(ss[i]))
  }

  function Stacks(ss: seq<Seat>): (r: seq<int>)
    ensures |r| == |ss|
    ensures forall i :: 0 <= i < |ss| ==> r[i] == StackOf(ss[i])
  {
    seq(|ss|, i requires 0 <= i < |ss| => StackOf(ss[i]))
  }

  /** Every chip on the table: in front of the players and in the middle. */
  function Chips(s: TableState): int {
    Sum(Stacks(s.seats)) + s.pot
  }

  predicate SeatTaken(s: TableState, i: int) {
    0 <= i < |s.seats| && s.seats[i].Taken?
  }

  predicate Shape(s: TableState) {
    && 0 < |s.seats|
    && 0 <= s.buttonUser < |s.seats|
    && -1 <= s.turn < |s.seats|
  }

  ghost predicate DistinctIds(ss: seq<Seat>) {
    forall i, j :: 0 <= i < j < |ss| && ss[i].Taken? && ss[j].Taken? ==> ss[i].player.id != ss[j].player.id
  }

  /** Replacing one seat changes the two totals by exactly that seat's difference. */
  lemma SeatUpdateSums(ss: seq<Seat>, i: nat, x: Seat)
    requires i < |ss|
    ensures Sum(Stacks(ss[i := x])) == Sum(Stacks(ss)) - StackOf(ss[i]) + StackOf(x)
    ensures Sum(Contributions(ss[i := x])) == Sum(Contributions(ss)) - Contributed(ss[i]) + Contributed(x)
  {
    assert Stacks(ss[i := x]) == Stacks(ss)[i := StackOf(x)];
    assert Contributions(ss[i := x]) == Contributions(ss)[i := Contributed(x)];
    SumUpdate(Stacks(ss), i, StackOf(x));
    SumUpdate(Contributions(ss), i, Contributed(x));
  }
}

/**
 What a game of Liar's Dice tells, stated without its rules: which actions are legal, what
 each turn did, whose dice are gone, and who has won.
 */
module LiarsDiceTells {
  import opened Wrappers
  import opened Folds
  import opened Chance
  import opened Games
  import opened LocalMatches
  import opened LiarsDice
  import opened LiarsDiceGame
  import opened LiarsDiceEnds

  type Match = LocalMatch<Config, State, Action, Roll, Event, Payload>

  type Turn = TurnRecord<State, Action, Roll, Event, Payload>

  predicate BothHoldDice(s: State) {
    s.counts.first > 0 && s.counts.second > 0
  }

  // ---------------------------------------------------------------------------
  // Which actions are legal
  // ---------------------------------------------------------------------------

  /** One bid outranks another exactly when it comes later among the round's bids. */
  lemma OutranksIsRank(low: Bid, high: Bid, faces: int)
    requires low.face <= faces && high.face <= faces
    ensures high.Outranks(low) <==> Rank(low, faces) < Rank(high, faces)
  {
    if high.Outranks(low) {
      RankRises(low, high, faces);
    } else if low.Outranks(high) {
      RankRises(high, low, faces);
    } else {
      assert low == high;
    }
  }

  /** A bid of the dice in play that comes later than the last one; a call of a bid there is. */
  ghost predicate MayTake(s: State, action: Action) {
    match action
    case Call => s.bids != []
    case MakeBid(bid) =>
      && bid.quantity <= s.counts.first + s.counts.second && bid.face <= s.faces
      && (s.bids == [] || Rank(s.bids[|s.bids| - 1], s.faces) < Rank(bid, s.faces))
  }

  /** The seat to move, and no other, may act, while both seats hold dice and they are rolled;
      and each refusal says what was wrong, the first thing first. */
  lemma LegalMeans(s: State, seat: Seat, action: Action)
    ensures ValidateAction(s, seat, action) == Some(GameFinished) <==> !BothHoldDice(s)
    ensures ValidateAction(s, seat, action) == Some(WrongPlayer) <==> BothHoldDice(s) && s.dice.Some? && seat != s.currentSeat
    ensures ValidateAction(s, seat, action) == Some(IllegalAction) <==>
      BothHoldDice(s) && (s.dice.None? || (seat == s.currentSeat && !MayTake(s, action)))
    ensures ValidateAction(s, seat, action).None? <==>
      BothHoldDice(s) && s.dice.Some? && seat == s.currentSeat && MayTake(s, action)
  {
    if action.MakeBid? && s.bids != [] && action.bid.face <= s.faces {
      OutranksIsRank(s.bids[|s.bids| - 1], action.bid, s.faces);
    }
  }

  // ---------------------------------------------------------------------------
  // What one turn does and tells
  // ---------------------------------------------------------------------------

  lemma {:induction false} ShowingIsMultiplicity(hand: seq<int>, face: int)
    ensures Showing(hand, face) == multiset(hand)[face]
  {
    if hand != [] {
      ShowingIsMultiplicity(hand[1..], face);
      assert hand == [hand[0]] + hand[1..];
    }
  }

  /** How many dice on the table show `face`. */
  function OnTable(dice: Hands, face: int): nat {
    multiset(dice.first + dice.second)[face]
  }

  lemma CountFaceIsOnTable(dice: Hands, face: int)
    ensures CountFace(dice, face) == OnTable(dice, face)
  {
    ShowingIsMultiplicity(dice.first, face);
    ShowingIsMultiplicity(dice.second, face);
  }

  /** A call: the caller loses a die if the bid is met and the bidder if it is not. Whoever
      lost it bids first in the next round, or the match is the other seat's. */
  predicate CallTells(before: State, seat: TableSeat, turn: Turn)
  {
    && before.bids != [] && before.dice.Some?
    && var bid := before.bids[|before.bids| - 1];
    var dice := before.dice.value;
    var count := OnTable(dice, bid.face);
    var loser: TableSeat := if count >= bid.quantity then seat else 1 - seat;
    var left := before.counts.Of(loser) - 1;
    var after := turn.postState;
    && after.counts.Of(loser) == left && after.counts.Of(1 - loser) == before.counts.Of(1 - loser)
    && after.dice.None? && after.bids == []
    && after.currentSeat == (if left > 0 then loser else 1 - loser)
    && after.roundNumber == before.roundNumber && after.faces == before.faces
    && after.lastShowdown.Some? && after.lastShowdown.value == Showdown(seat, bid, dice, count, loser)
    && turn.result == (if left > 0 then None else Some(Win(1 - loser)))
    && turn.events == [BidCalled(seat, dice, bid.quantity, bid.face, count, loser), DieLost(loser, left)] +
                      (if left > 0 then [] else [LiarsDiceMatchWon(1 - loser)])
  }

  /** A bid adds itself and passes the turn; a roll opens a round. */
  predicate TurnTells(before: State, turn: Turn) {
    && BothHoldDice(before)
    && var move: Option<Move<Action, Roll>> := MoveOf(turn);
       match move
       case Some(Act(seat, MakeBid(bid))) =>
         && seat == before.currentSeat
         && turn.postState.bids == before.bids + [bid]
         && turn.postState == before.(bids := turn.postState.bids, currentSeat := 1 - seat)
         && turn.events == [BidMade(seat, bid.quantity, bid.face)] && turn.result == None
       case Some(Act(seat, Call)) => seat == before.currentSeat && CallTells(before, seat, turn)
       case Some(Resolve(roll)) =>
         && before.dice.None?
         && turn.postState == before.(dice := Some(roll.dice), roundNumber := before.roundNumber + 1)
         && turn.events == [RoundRolled(before.roundNumber + 1, before.counts), DiceDealt(0, roll.dice.Of(0)), DiceDealt(1, roll.dice.Of(1))]
         && turn.result == None
       case _ => false
  }

  lemma MoveTells(block: Block, c: Config, s: State, move: Move<Action, Roll>)
    requires ApplyMove(LiarsDiceDefinition(block), s, move).Ok?
    ensures TurnTells(s, RecordTurn(LiarsDiceDefinition(block), c, move, ApplyMove(LiarsDiceDefinition(block), s, move).value))
  {
    match move
    case Act(seat, Call) => CountFaceIsOnTable(s.dice.value, StandingBid(s).value.face);
    case _ =>
  }

  // ---------------------------------------------------------------------------
  // What a whole match tells
  // ---------------------------------------------------------------------------

  function StateBefore<S, A, O, E, J>(start: S, turns: seq<TurnRecord<S, A, O, E, J>>, i: nat): S
    requires i <= |turns|
  {
    if i == 0 then start else turns[i - 1].postState
  }

  /** Each turn stands to the state the turn before it left as `tells` says. */
  predicate Chained<S, A, O, E, J>(tells: (S, TurnRecord<S, A, O, E, J>) -> bool, start: S, turns: seq<TurnRecord<S, A, O, E, J>>) {
    forall i :: 0 <= i < |turns| ==> tells(StateBefore(start, turns, i), turns[i])
  }

  lemma OneMoreTurn<S, A, O, E, J>(
      tells: (S, TurnRecord<S, A, O, E, J>) -> bool, start: S, turns: seq<TurnRecord<S, A, O, E, J>>, turn: TurnRecord<S, A, O, E, J>)
    requires Chained(tells, start, turns) && tells(StateBefore(start, turns, |turns|), turn)
    ensures Chained(tells, start, turns + [turn])
    ensures StateBefore(start, turns + [turn], |turns| + 1) == turn.postState
  {
    var more := turns + [turn];
    forall i | 0 <= i < |more|
      ensures tells(StateBefore(start, more, i), more[i])
    {
      if i < |turns| {
        assert tells(StateBefore(start, turns, i), turns[i]);
      }
    }
  }

  lemma OneTurnFewer<S, A, O, E, J>(
      tells: (S, TurnRecord<S, A, O, E, J>) -> bool, start: S, turns: seq<TurnRecord<S, A, O, E, J>>)
    requires Chained(tells, start, turns) && turns != []
    ensures var n := |turns| - 1;
            && Chained(tells, start, turns[..n])
            && tells(StateBefore(start, turns[..n], n), turns[n])
            && StateBefore(start, turns, |turns|) == turns[n].postState
  {
    var n := |turns| - 1;
    forall i | 0 <= i < n
      ensures tells(StateBefore(start, turns[..n], i), turns[..n][i])
    {
      assert tells(StateBefore(start, turns, i), turns[i]);
    }
    assert tells(StateBefore(start, turns, n), turns[n]);
  }

  /** Every move the rules accept is recorded as `tells` says. */
  ghost predicate HoldsOfMoves(block: Block, c: Config, tells: (State, Turn) -> bool) {
    forall s: State, move: Move<Action, Roll> :: ApplyMove(LiarsDiceDefinition(block), s, move).Ok? ==>
      tells(s, RecordTurn(LiarsDiceDefinition(block), c, move, ApplyMove(LiarsDiceDefinition(block), s, move).value))
  }

  predicate MatchChains(tells: (State, Turn) -> bool, m: Match) {
    Chained(tells, InitialState(m.config), m.turns) && StateBefore(InitialState(m.config), m.turns, |m.turns|) == m.state
  }

  lemma {:induction false} DrainChains(
      tells: (State, Turn) -> bool, block: Block, c: Config, s: State, turns: seq<Turn>, rng: Option<Rng>, steps: nat)
    requires steps <= MAX_CONSECUTIVE_CHANCE_STEPS && HoldsOfMoves(block, c, tells)
    requires DrainFrom(LiarsDiceDefinition(block), c, s, turns, rng, steps).Ok?
    requires Chained(tells, InitialState(c), turns) && StateBefore(InitialState(c), turns, |turns|) == s
    ensures var d := DrainFrom(LiarsDiceDefinition(block), c, s, turns, rng, steps).value;
            Chained(tells, InitialState(c), d.turns) && StateBefore(InitialState(c), d.turns, |d.turns|) == d.state
    decreases MAX_CONSECUTIVE_CHANCE_STEPS - steps
  {
    var g := LiarsDiceDefinition(block);
    if rng.Some? && g.isChanceNode(s) {
      var (roll, next) := g.sampleChance(s, rng.value);
      var t := g.applyChance(s, roll).value;
      var turn := RecordTurn(g, c, Resolve(roll), t);
      assert ApplyMove(g, s, Resolve(roll)) == Ok(t);
      OneMoreTurn(tells, InitialState(c), turns, turn);
      DrainChains(tells, block, c, t.state, turns + [turn], Some(next), steps + 1);
    }
  }

  lemma StepChains(tells: (State, Turn) -> bool, block: Block, m: Match, move: Move<Action, Roll>)
    requires HoldsOfMoves(block, m.config, tells) && MatchChains(tells, m) && StepMatch(LiarsDiceDefinition(block), m, move).Ok?
    ensures MatchChains(tells, StepMatch(LiarsDiceDefinition(block), m, move).value)
  {
    var g := LiarsDiceDefinition(block);
    var t := ApplyMove(g, m.state, move).value;
    var turn := RecordTurn(g, m.config, move, t);
    OneMoreTurn(tells, InitialState(m.config), m.turns, turn);
    DrainChains(tells, block, m.config, t.state, m.turns + [turn], m.rng, 0);
  }

  lemma {:induction false} RunChains(tells: (State, Turn) -> bool, block: Block, m: Match, moves: seq<Move<Action, Roll>>)
    requires HoldsOfMoves(block, m.config, tells) && MatchChains(tells, m) && RunMoves(LiarsDiceDefinition(block), m, moves).Ok?
    ensures MatchChains(tells, RunMoves(LiarsDiceDefinition(block), m, moves).value)
    decreases |moves|
  {
    if moves != [] {
      StepChains(tells, block, m, moves[0]);
      StepExtends(LiarsDiceDefinition(block), m, moves[0]);
      RunChains(tells, block, StepMatch(LiarsDiceDefinition(block), m, moves[0]).value, moves[1..]);
    }
  }

  lemma LiveChains(tells: (State, Turn) -> bool, block: Block, c: Config, seed: int, moves: seq<Move<Action, Roll>>)
    requires HoldsOfMoves(block, c, tells) && LiveRun(LiarsDiceDefinition(block), c, seed, moves).Ok?
    ensures var m := LiveRun(LiarsDiceDefinition(block), c, seed, moves).value;
            m.config == c && MatchChains(tells, m)
  {
    var g := LiarsDiceDefinition(block);
    var start := StartMatch(g, c, seed).value;
    DrainChains(tells, block, c, InitialState(c), [], Some(Rng(seed, 0)), 0);
    RunChains(tells, block, start, moves);
    RunExtends(g, start, moves);
  }

  /** In every live match each turn did to the state before it exactly what it records, and
      its events and result say so. */
  lemma EveryTurnTells(block: Block, c: Config, seed: int, moves: seq<Move<Action, Roll>>)
    requires LiveRun(LiarsDiceDefinition(block), c, seed, moves).Ok?
    ensures var m := LiveRun(LiarsDiceDefinition(block), c, seed, moves).value;
            m.config == c && MatchChains(TurnTells, m)
  {
    forall s: State, move: Move<Action, Roll> | ApplyMove(LiarsDiceDefinition(block), s, move).Ok?
      ensures TurnTells(s, RecordTurn(LiarsDiceDefinition(block), c, move, ApplyMove(LiarsDiceDefinition(block), s, move).value))
    {
      MoveTells(block, c, s, move);
    }
    LiveChains(TurnTells, block, c, seed, moves);
  }

  // ---------------------------------------------------------------------------
  // Who has won
  // ---------------------------------------------------------------------------

  /** A turn that names its winner everywhere one is named: the state after it shows the seat
      to hold the table and the other to have lost the call, the result is its win, and the
      last event says so. */
  predicate NamesWinner(turn: Turn, w: TableSeat) {
    && turn.postState.currentSeat == w
    && turn.postState.lastShowdown.Some? && turn.postState.lastShowdown.value.loser == 1 - w
    && turn.result == Some(Win(w))
    && turn.events != [] && turn.events[|turn.events| - 1] == LiarsDiceMatchWon(w)
  }

  predicate NamesNobody(turn: Turn) {
    turn.result.None? && forall e :: e in turn.events ==> !e.LiarsDiceMatchWon?
  }

  lemma TurnNames(before: State, turn: Turn, w: TableSeat)
    requires TurnTells(before, turn)
    ensures BothHoldDice(turn.postState) ==> NamesNobody(turn)
    ensures turn.postState.counts.Of(1 - w) == 0 ==> NamesWinner(turn, w)
  {
  }

  lemma EarlierTurnsNameNobody(start: State, turns: seq<Turn>, i: nat)
    requires Chained(TurnTells, start, turns) && i < |turns|
    requires i + 1 < |turns| || BothHoldDice(turns[i].postState)
    ensures NamesNobody(turns[i])
  {
    assert TurnTells(StateBefore(start, turns, i), turns[i]);
    if i + 1 < |turns| {
      assert TurnTells(StateBefore(start, turns, i + 1), turns[i + 1]);
    }
    TurnNames(StateBefore(start, turns, i), turns[i], 0);
  }

  /** The result is the win of the seat that alone holds dice. */
  lemma ResultMeans(s: State, w: TableSeat)
    ensures ResultOf(s) == Some(Win(w)) <==> s.counts.Of(w) > 0 && s.counts.Of(1 - w) == 0
    ensures ResultOf(s).None? <==> s.counts.Of(w) > 0 && s.counts.Of(1 - w) > 0
    ensures IsTerminal(s) <==> !BothHoldDice(s)
  {
  }

  /** `w` has won exactly if it still holds dice and the other seat none; then the last turn
      names it. No other turn names anybody, and there is no draw. */
  predicate WonByDice(s: State, turns: seq<Turn>, w: TableSeat) {
    && (ResultOf(s) == Some(Win(w)) <==> s.counts.Of(w) > 0 && s.counts.Of(1 - w) == 0)
    && (ResultOf(s).None? <==> s.counts.Of(w) > 0 && s.counts.Of(1 - w) > 0)
    && (ResultOf(s) == Some(Win(w)) ==> turns != [] && turns[|turns| - 1].postState == s && NamesWinner(turns[|turns| - 1], w))
    && (forall i :: 0 <= i < |turns| && (i + 1 < |turns| || ResultOf(s).None?) ==> NamesNobody(turns[i]))
  }

  lemma ChainNamesWinner(start: State, turns: seq<Turn>, s: State, w: TableSeat)
    requires BothHoldDice(start) && Chained(TurnTells, start, turns) && StateBefore(start, turns, |turns|) == s
    ensures WonByDice(s, turns, w)
  {
    ResultMeans(s, w);
    forall i | 0 <= i < |turns| && (i + 1 < |turns| || ResultOf(s).None?)
      ensures NamesNobody(turns[i])
    {
      EarlierTurnsNameNobody(start, turns, i);
    }
    if ResultOf(s) == Some(Win(w)) {
      var last := |turns| - 1;
      assert TurnTells(StateBefore(start, turns, last), turns[last]);
      TurnNames(StateBefore(start, turns, last), turns[last], w);
    }
  }

  /** Every live match is won by the seat that still holds dice when the other holds none, and
      by nobody before that. The winner is left as the seat to move, did not lose the last
      call, and is the one the last turn names in its result and in its event. */
  lemma WinnerIsTheSeatWithDice(block: Block, c: Config, seed: int, moves: seq<Move<Action, Roll>>, w: TableSeat)
    requires LiveRun(LiarsDiceDefinition(block), c, seed, moves).Ok?
    ensures var m := LiveRun(LiarsDiceDefinition(block), c, seed, moves).value;
            WonByDice(m.state, m.turns, w)
  {
    EveryTurnTells(block, c, seed, moves);
    var m := LiveRun(LiarsDiceDefinition(block), c, seed, moves).value;
    ChainNamesWinner(InitialState(c), m.turns, m.state, w);
  }

  // ---------------------------------------------------------------------------
  // Where the dice went
  // ---------------------------------------------------------------------------

  predicate TakesADieFrom(turn: Turn, seat: TableSeat) {
    exists e :: e in turn.events && e.DieLost? && e.seat == seat
  }

  function DiceLost(turns: seq<Turn>, seat: TableSeat): nat {
    if turns == [] then 0
    else DiceLost(turns[..|turns| - 1], seat) + (if TakesADieFrom(turns[|turns| - 1], seat) then 1 else 0)
  }

  function Rounds(turns: seq<Turn>): nat {
    if turns == [] then 0
    else Rounds(turns[..|turns| - 1]) + (if turns[|turns| - 1].kind == TURN_KIND_CHANCE then 1 else 0)
  }

  /** A turn that costs a seat a die says so, and so does one that opens a round. */
  function CountsRight(seat: TableSeat): (State, Turn) -> bool {
    (before: State, turn: Turn) =>
      && turn.postState.counts.Of(seat) == before.counts.Of(seat) - (if TakesADieFrom(turn, seat) then 1 else 0)
      && turn.postState.roundNumber == before.roundNumber + (if turn.kind == TURN_KIND_CHANCE then 1 else 0)
  }

  lemma TurnCountsRight(before: State, turn: Turn, seat: TableSeat)
    requires TurnTells(before, turn)
    ensures CountsRight(seat)(before, turn)
  {
    if MoveOf(turn) == Some(Act(before.currentSeat, Call)) {
      assert turn.events[0].BidCalled? && turn.events[1].DieLost?;
    }
  }

  lemma {:induction false} ChainCountsRight(start: State, turns: seq<Turn>, seat: TableSeat)
    requires Chained(CountsRight(seat), start, turns)
    ensures StateBefore(start, turns, |turns|).counts.Of(seat) == start.counts.Of(seat) - DiceLost(turns, seat)
    ensures StateBefore(start, turns, |turns|).roundNumber == start.roundNumber + Rounds(turns)
    decreases |turns|
  {
    if turns != [] {
      OneTurnFewer(CountsRight(seat), start, turns);
      ChainCountsRight(start, turns[..|turns| - 1], seat);
    }
  }

  /** No die is lost unseen: a seat holds what it began with less one for each die_lost event
      that names it, and the round number counts the rolls. */
  lemma DiceAreAccountedFor(block: Block, c: Config, seed: int, moves: seq<Move<Action, Roll>>, seat: TableSeat)
    requires LiveRun(LiarsDiceDefinition(block), c, seed, moves).Ok?
    ensures var m := LiveRun(LiarsDiceDefinition(block), c, seed, moves).value;
            && m.state.counts.Of(seat) == c.dicePerSeat - DiceLost(m.turns, seat)
            && m.state.roundNumber == Rounds(m.turns)
  {
    forall s: State, move: Move<Action, Roll> | ApplyMove(LiarsDiceDefinition(block), s, move).Ok?
      ensures CountsRight(seat)(s, RecordTurn(LiarsDiceDefinition(block), c, move, ApplyMove(LiarsDiceDefinition(block), s, move).value))
    {
      var turn := RecordTurn(LiarsDiceDefinition(block), c, move, ApplyMove(LiarsDiceDefinition(block), s, move).value);
      MoveTells(block, c, s, move);
      TurnCountsRight(s, turn, seat);
    }
    LiveChains(CountsRight(seat), block, c, seed, moves);
    ChainCountsRight(InitialState(c), LiveRun(LiarsDiceDefinition(block), c, seed, moves).value.turns, seat);
  }
}

/** Every game of Liar's Dice ends, within a bound fixed by its config. */
module LiarsDiceEnds {
  import opened Wrappers
  import opened Folds
  import opened Chance
  import opened Games
  import opened LocalMatches
  import opened LiarsDice
  import opened LiarsDiceGame

  /** Where a bid stands among the `total * faces` bids of a round, from 1. */
  ghost function Rank(bid: Bid, faces: int): int {
    (bid.quantity - 1) * faces + bid.face
  }

  /** The most turns that rounds with `total` dice and fewer can still take: in each, a roll,
      every bid once, and a call. */
  ghost function RoundsLeft(total: int, faces: int): int
    decreases total
  {
    if total < 2 then 0 else total * faces + 2 + RoundsLeft(total - 1, faces)
  }

  /** The most turns a match can still take from a state. */
  ghost function TurnsLeft(s: State): int {
    var total := s.counts.Total();
    if IsTerminal(s) then 0
    else if s.dice.None? then RoundsLeft(total, s.faces)
    else total * s.faces - (if s.bids == [] then 0 else Rank(StandingBid(s).value, s.faces)) + 1 + RoundsLeft(total - 1, s.faces)
  }

  lemma MulAtMost(a: int, b: int, c: int)
    requires a <= b && c >= 0
    ensures a * c <= b * c
  {
  }

  lemma RankRises(low: Bid, high: Bid, faces: int)
    requires high.Outranks(low) && low.face <= faces
    ensures Rank(low, faces) < Rank(high, faces)
  {
    if high.quantity > low.quantity {
      MulAtMost(low.quantity, high.quantity - 1, faces);
      assert (low.quantity - 1) * faces + faces == low.quantity * faces;
    }
  }

  lemma RankIsBounded(bid: Bid, total: int, faces: int)
    requires bid.quantity <= total && bid.face <= faces
    ensures 1 <= Rank(bid, faces) <= total * faces
  {
    MulAtMost(0, bid.quantity - 1, faces);
    MulAtMost(bid.quantity, total, faces);
    assert (bid.quantity - 1) * faces + faces == bid.quantity * faces;
  }

  lemma {:induction false} RoundsLeftIsNatural(total: int, faces: int)
    requires faces >= 0
    ensures RoundsLeft(total, faces) >= 0
    decreases total
  {
    if total >= 2 {
      MulAtMost(0, total, faces);
      RoundsLeftIsNatural(total - 1, faces);
    }
  }

  lemma TurnsLeftIsNatural(s: State)
    ensures TurnsLeft(s) >= 0
    ensures TurnsLeft(s) == 0 <==> IsTerminal(s)
  {
    var total := s.counts.Total();
    RoundsLeftIsNatural(total, s.faces);
    RoundsLeftIsNatural(total - 1, s.faces);
    MulAtMost(0, total, s.faces);
    if s.bids != [] {
      RankIsBounded(StandingBid(s).value, total, s.faces);
    }
  }

  /** Every accepted action and every valid roll leaves fewer turns. */
  lemma EveryMoveLeavesFewerTurns(block: Block, s: State, move: Move<Action, Roll>)
    requires ApplyMove(LiarsDiceDefinition(block), s, move).Ok?
    ensures TurnsLeft(ApplyMove(LiarsDiceDefinition(block), s, move).value.state) < TurnsLeft(s)
  {
    var next := ApplyMove(LiarsDiceDefinition(block), s, move).value.state;
    var total := s.counts.Total();
    match move
    case Resolve(roll) =>
      assert next.bids == [];
    case Act(seat, MakeBid(bid)) =>
      if s.bids != [] {
        RankRises(StandingBid(s).value, bid, s.faces);
      } else {
        RankIsBounded(bid, total, s.faces);
      }
      assert StandingBid(next) == Some(bid);
    case Act(seat, Call) =>
      RankIsBounded(StandingBid(s).value, total, s.faces);
      RoundsLeftIsNatural(total - 1, s.faces);
    case ActJointly(_) =>
  }

  /** Two seats of `n` dice with `f` faces: the bound in closed form. */
  ghost function TurnBound(c: Config): int {
    var n := c.dicePerSeat;
    c.faces * (n * (2 * n + 1) - 1) + 2 * (2 * n - 1)
  }

  lemma {:induction false} RoundsLeftClosed(total: int, faces: int)
    requires total >= 1
    ensures 2 * RoundsLeft(total, faces) == faces * (total * (total + 1) - 2) + 4 * (total - 1)
    decreases total
  {
    if total >= 2 {
      RoundsLeftClosed(total - 1, faces);
      assert faces * (total * (total + 1) - 2) == faces * ((total - 1) * total - 2) + 2 * (total * faces) by {
        assert total * (total + 1) - 2 == ((total - 1) * total - 2) + 2 * total;
      }
    }
  }

  lemma BoundArithmetic(n: int, faces: int)
    requires 1 <= n <= MAX_DICE_PER_SEAT && MIN_FACES <= faces <= MAX_FACES
    ensures faces * (n * (2 * n + 1) - 1) + 2 * (2 * n - 1) <= 715
    ensures 2 * (faces * (n * (2 * n + 1) - 1) + 2 * (2 * n - 1)) == faces * (2 * n * (2 * n + 1) - 2) + 4 * (2 * n - 1)
  {
    if n == 1 {
    } else if n == 2 {
    } else if n == 3 {
    } else if n == 4 {
    } else if n == 5 {
    } else {
      assert n == 6;
    }
  }

  lemma StartWithinBound(c: Config)
    ensures TurnsLeft(InitialState(c)) == TurnBound(c) <= 715
  {
    RoundsLeftClosed(2 * c.dicePerSeat, c.faces);
    BoundArithmetic(c.dicePerSeat, c.faces);
  }

  /** A match never has more turns behind it than its start allowed. */
  ghost predicate WithinBudget(m: LocalMatch<Config, State, Action, Roll, Event, Payload>) {
    |m.turns| + TurnsLeft(m.state) <= TurnBound(m.config)
  }

  lemma {:induction false} DrainKeepsBudget(
      block: Block, c: Config, s: State, turns: seq<TurnRecord<State, Action, Roll, Event, Payload>>, rng: Option<Rng>, steps: nat, budget: int)
    requires steps <= MAX_CONSECUTIVE_CHANCE_STEPS
    requires DrainFrom(LiarsDiceDefinition(block), c, s, turns, rng, steps).Ok?
    requires |turns| + TurnsLeft(s) <= budget
    ensures var d := DrainFrom(LiarsDiceDefinition(block), c, s, turns, rng, steps).value;
            |d.turns| + TurnsLeft(d.state) <= budget
    decreases MAX_CONSECUTIVE_CHANCE_STEPS - steps
  {
    var g := LiarsDiceDefinition(block);
    if rng.Some? && g.isChanceNode(s) {
      var (roll, next) := g.sampleChance(s, rng.value);
      var t := g.applyChance(s, roll).value;
      EveryMoveLeavesFewerTurns(block, s, Resolve(roll));
      DrainKeepsBudget(block, c, t.state, turns + [RecordTurn(g, c, Resolve(roll), t)], Some(next), steps + 1, budget);
    }
  }

  lemma StepKeepsBudget(block: Block, m: LocalMatch<Config, State, Action, Roll, Event, Payload>, move: Move<Action, Roll>)
    requires WithinBudget(m) && StepMatch(LiarsDiceDefinition(block), m, move).Ok?
    ensures WithinBudget(StepMatch(LiarsDiceDefinition(block), m, move).value)
  {
    var g := LiarsDiceDefinition(block);
    var t := ApplyMove(g, m.state, move).value;
    EveryMoveLeavesFewerTurns(block, m.state, move);
    DrainKeepsBudget(block, m.config, t.state, m.turns + [RecordTurn(g, m.config, move, t)], m.rng, 0, TurnBound(m.config));
  }

  lemma {:induction false} RunKeepsBudget(block: Block, m: LocalMatch<Config, State, Action, Roll, Event, Payload>, moves: seq<Move<Action, Roll>>)
    requires WithinBudget(m) && RunMoves(LiarsDiceDefinition(block), m, moves).Ok?
    ensures WithinBudget(RunMoves(LiarsDiceDefinition(block), m, moves).value)
    decreases |moves|
  {
    if moves != [] {
      StepKeepsBudget(block, m, moves[0]);
      RunKeepsBudget(block, StepMatch(LiarsDiceDefinition(block), m, moves[0]).value, moves[1..]);
    }
  }

  /** A Liar's Dice match always starts: its first round dealt, both seats with all their dice
      and seat 0 to open the bidding. */
  lemma EveryMatchStarts(block: Block, c: Config, seed: int)
    ensures StartMatch(LiarsDiceDefinition(block), c, seed).Ok?
    ensures var s := StartMatch(LiarsDiceDefinition(block), c, seed).value.state;
            && s.dice.Some? && s.counts == Counts(c.dicePerSeat, c.dicePerSeat) && s.faces == c.faces
            && s.currentSeat == 0 && s.roundNumber == 1 && s.bids == [] && s.lastShowdown.None?
  {
    var g := LiarsDiceDefinition(block);
    var s := InitialState(c);
    var (roll, next) := g.sampleChance(s, Rng(seed, 0));
    SampledRollFits(block, s, Rng(seed, 0));
    var t := g.applyChance(s, roll).value;
    assert DrainFrom(g, c, t.state, [] + [RecordTurn(g, c, Resolve(roll), t)], Some(next), 1).Ok?;
  }

  /** Liar's Dice always ends. No live match of `n` dice a seat and `f` faces, however it is
      played and rolled, has more than `f * (n * (2n + 1) - 1) + 2 * (2n - 1)` turns, at most
      715 for any config; one that has used them all is won. While it is not won, the seat to
      move has a legal action. */
  lemma LiarsDiceAlwaysEnds(block: Block, c: Config, seed: int, moves: seq<Move<Action, Roll>>)
    requires LiveRun(LiarsDiceDefinition(block), c, seed, moves).Ok?
    ensures var m := LiveRun(LiarsDiceDefinition(block), c, seed, moves).value;
            && |m.turns| <= TurnBound(c) <= 715
            && (|m.turns| == TurnBound(c) ==> IsTerminal(m.state))
            && (!IsTerminal(m.state) ==> LegalActions(m.state, m.state.currentSeat) != [])
  {
    var g := LiarsDiceDefinition(block);
    var start := StartMatch(g, c, seed).value;
    var m := LiveRun(g, c, seed, moves).value;
    StartWithinBound(c);
    DrainKeepsBudget(block, c, InitialState(c), [], Some(Rng(seed, 0)), 0, TurnBound(c));
    RunKeepsBudget(block, start, moves);
    RunExtends(g, start, moves);
    TurnsLeftIsNatural(m.state);
    if !IsTerminal(m.state) {
      RunLeavesChance(block, start, moves);
      SomebodyCanMove(m.state);
    }
  }

  lemma {:induction false} RunLeavesChance(block: Block, m: LocalMatch<Config, State, Action, Roll, Event, Payload>, moves: seq<Move<Action, Roll>>)
    requires m.rng.Some? && !IsChanceNode(m.state) && RunMoves(LiarsDiceDefinition(block), m, moves).Ok?
    ensures !IsChanceNode(RunMoves(LiarsDiceDefinition(block), m, moves).value.state)
    decreases |moves|
  {
    if moves != [] {
      StepExtends(LiarsDiceDefinition(block), m, moves[0]);
      RunLeavesChance(block, StepMatch(LiarsDiceDefinition(block), m, moves[0]).value, moves[1..]);
    }
  }

  // ---------------------------------------------------------------------------
  // Progress and alternation
  // ---------------------------------------------------------------------------

  /** A live match never fails on its own dice: whatever legal action the seat to move
      picks, the match takes it, rolling the next round if one begins. */
  lemma LegalActionsAreTaken(block: Block, m: LocalMatch<Config, State, Action, Roll, Event, Payload>, action: Action)
    requires m.rng.Some? && action in LegalActions(m.state, m.state.currentSeat)
    ensures ApplyMatchAction(LiarsDiceDefinition(block), m, m.state.currentSeat, action).Ok?
  {
    var g := LiarsDiceDefinition(block);
    var s := m.state;
    LegalIffValid(s, s.currentSeat, action);
    var move := Act(s.currentSeat, action);
    var t := ApplyMove(g, s, move).value;
    var turns := m.turns + [RecordTurn(g, m.config, move, t)];
    if g.isChanceNode(t.state) {
      var (roll, next) := g.sampleChance(t.state, m.rng.value);
      SampledRollFits(block, t.state, m.rng.value);
      var rolled := g.applyChance(t.state, roll).value;
      assert DrainFrom(g, m.config, rolled.state, turns + [RecordTurn(g, m.config, Resolve(roll), rolled)], Some(next), 1).Ok?;
    }
  }

  /** The standing bid is always the other seat's: it is the last move, and the seat that
      made it is not the one to move. */
  ghost predicate StandingBidIsTheOthers(m: LocalMatch<Config, State, Action, Roll, Event, Payload>) {
    StandingBid(m.state).Some? ==>
      && m.turns != []
      && MoveOf(m.turns[|m.turns| - 1]) == Some(Act(Other(m.state.currentSeat), MakeBid(StandingBid(m.state).value)))
  }

  lemma StepKeepsStandingBid(block: Block, m: LocalMatch<Config, State, Action, Roll, Event, Payload>, move: Move<Action, Roll>)
    requires StandingBidIsTheOthers(m) && StepMatch(LiarsDiceDefinition(block), m, move).Ok?
    ensures StandingBidIsTheOthers(StepMatch(LiarsDiceDefinition(block), m, move).value)
  {
    var g := LiarsDiceDefinition(block);
    var t := ApplyMove(g, m.state, move).value;
    DrainKeepsStandingBid(block, m.config, t.state, m.turns + [RecordTurn(g, m.config, move, t)], m.rng, 0);
  }

  lemma {:induction false} DrainKeepsStandingBid(
      block: Block, c: Config, s: State, turns: seq<TurnRecord<State, Action, Roll, Event, Payload>>, rng: Option<Rng>, steps: nat)
    requires steps <= MAX_CONSECUTIVE_CHANCE_STEPS
    requires DrainFrom(LiarsDiceDefinition(block), c, s, turns, rng, steps).Ok?
    ensures var d := DrainFrom(LiarsDiceDefinition(block), c, s, turns, rng, steps).value;
            d.state.bids != [] ==> d.turns == turns && d.state == s
    decreases MAX_CONSECUTIVE_CHANCE_STEPS - steps
  {
    var g := LiarsDiceDefinition(block);
    if rng.Some? && g.isChanceNode(s) {
      var (roll, next) := g.sampleChance(s, rng.value);
      var t := g.applyChance(s, roll).value;
      var grown := turns + [RecordTurn(g, c, Resolve(roll), t)];
      DrainKeepsStandingBid(block, c, t.state, grown, Some(next), steps + 1);
      assert t.state.bids == [];
    }
  }

  lemma {:induction false} StandingBidIsAlwaysTheOthers(block: Block, m: LocalMatch<Config, State, Action, Roll, Event, Payload>, moves: seq<Move<Action, Roll>>)
    requires StandingBidIsTheOthers(m) && RunMoves(LiarsDiceDefinition(block), m, moves).Ok?
    ensures StandingBidIsTheOthers(RunMoves(LiarsDiceDefinition(block), m, moves).value)
    decreases |moves|
  {
    if moves != [] {
      StepKeepsStandingBid(block, m, moves[0]);
      StandingBidIsAlwaysTheOthers(block, StepMatch(LiarsDiceDefinition(block), m, moves[0]).value, moves[1..]);
    }
  }

  lemma LiveStandingBid(block: Block, c: Config, seed: int, moves: seq<Move<Action, Roll>>)
    requires LiveRun(LiarsDiceDefinition(block), c, seed, moves).Ok?
    ensures StandingBidIsTheOthers(LiveRun(LiarsDiceDefinition(block), c, seed, moves).value)
  {
    var start := StartMatch(LiarsDiceDefinition(block), c, seed).value;
    DrainKeepsStandingBid(block, c, InitialState(c), [], Some(Rng(seed, 0)), 0);
    StandingBidIsAlwaysTheOthers(block, start, moves);
  }
}

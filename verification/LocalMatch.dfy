/** Pure local match stepping (src/arena/match/local_match.py). */
module LocalMatches {
  import opened Wrappers
  import opened Folds
  import opened Chance
  import opened Games

  const SNAPSHOT_SCHEMA_VERSION: int := 1
  const MAX_CONSECUTIVE_CHANCE_STEPS: nat := 128

  const TURN_KIND_ACTION: string := "action"
  const TURN_KIND_CHANCE: string := "chance"
  const TURN_KIND_JOINT: string := "joint"

  datatype Snapshot<+J> = Snapshot(gameId: string, schemaVersion: int, config: J, state: J)

  datatype TurnRecord<+S, +A, +O, +E, +J> = TurnRecord(
    kind: string,
    seat: Option<Seat>,
    action: Option<A>,
    actions: Option<map<Seat, A>>,
    outcome: Option<O>,
    events: seq<E>,
    result: Option<RuleResult>,
    postState: S,
    postSnapshot: Snapshot<J>)

  datatype LocalMatch<+C, +S, +A, +O, +E, +J> = LocalMatch(
    config: C,
    state: S,
    initialSnapshot: Snapshot<J>,
    turns: seq<TurnRecord<S, A, O, E, J>>,
    rng: Option<Rng>)

  /** One step of a match: what `apply_match_*` was called with. */
  datatype Move<+A, +O> =
    | Act(seat: Seat, action: A)
    | ActJointly(actions: map<Seat, A>)
    | Resolve(outcome: O)

  function BuildSnapshot<C, S, A, O, E, J>(g: Game<C, S, A, O, E, J>, config: C, state: S): Snapshot<J> {
    Snapshot(g.gameId, SNAPSHOT_SCHEMA_VERSION, g.dumpConfig(config), g.dumpState(state))
  }

  function BuildSnapshotFor<C, S, A, O, E, J>(g: Game<C, S, A, O, E, J>, config: C, state: S, viewer: Viewer): Snapshot<J> {
    Snapshot(g.gameId, SNAPSHOT_SCHEMA_VERSION, g.dumpConfigFor(config, viewer), g.dumpStateFor(state, viewer))
  }

  // ---------------------------------------------------------------------------
  // One transition, recorded
  // ---------------------------------------------------------------------------

  /** What one move does to a state, before any chance node it leads to is drained. */
  function ApplyMove<C, S, A, O, E, J>(g: Game<C, S, A, O, E, J>, s: S, move: Move<A, O>): Result<Transition<S, E>, Error> {
    match move
    case Act(seat, action) =>
      if g.isChanceNode(s) then Err(ChanceResolutionError) else
      var seats :- ActingSeats(g, s);
      if |seats| > 1 then Err(WrongPlayer) else g.applyAction(s, seat, action)
    case ActJointly(actions) => ApplyJointAction(g, s, actions)
    case Resolve(outcome) =>
      if !g.isChanceNode(s) then Err(ChanceResolutionError) else g.applyChance(s, outcome)
  }

  function RecordTurn<C, S, A, O, E, J>(g: Game<C, S, A, O, E, J>, config: C, move: Move<A, O>, t: Transition<S, E>): TurnRecord<S, A, O, E, J> {
    var snapshot := BuildSnapshot(g, config, t.state);
    match move
    case Act(seat, action) =>
      TurnRecord(TURN_KIND_ACTION, Some(seat), Some(action), None, None, t.events, t.result, t.state, snapshot)
    case ActJointly(actions) =>
      TurnRecord(TURN_KIND_JOINT, None, None, Some(actions), None, t.events, t.result, t.state, snapshot)
    case Resolve(outcome) =>
      TurnRecord(TURN_KIND_CHANCE, None, None, None, Some(outcome), t.events, t.result, t.state, snapshot)
  }

  // ---------------------------------------------------------------------------
  // Draining chance nodes
  // ---------------------------------------------------------------------------

  datatype Drained<+S, +T> = Drained(state: S, turns: seq<T>, rng: Option<Rng>)

  function DrainFrom<C, S, A, O, E, J>(
      g: Game<C, S, A, O, E, J>, config: C, state: S, turns: seq<TurnRecord<S, A, O, E, J>>, rng: Option<Rng>, steps: nat)
      : (r: Result<Drained<S, TurnRecord<S, A, O, E, J>>, Error>)
    requires steps <= MAX_CONSECUTIVE_CHANCE_STEPS
    ensures r.Ok? && rng.Some? ==> r.value.rng.Some? && !g.isChanceNode(r.value.state)
    ensures r.Ok? ==> turns <= r.value.turns
    ensures rng.None? ==> r == Ok(Drained(state, turns, rng))
    decreases MAX_CONSECUTIVE_CHANCE_STEPS - steps
  {
    if rng.None? || !g.isChanceNode(state) then Ok(Drained(state, turns, rng))
    else if steps + 1 > MAX_CONSECUTIVE_CHANCE_STEPS then Err(ChanceResolutionError)
    else
      var (outcome, next) := g.sampleChance(state, rng.value);
      var t :- g.applyChance(state, outcome);
      DrainFrom(g, config, t.state, turns + [RecordTurn(g, config, Resolve(outcome), t)], Some(next), steps + 1)
  }

  /** The draining loop. It is `DrainFrom` run from no steps taken. */
  method DrainChanceNodes<C, S, A, O, E, J>(
      g: Game<C, S, A, O, E, J>, config: C, start: S, before: seq<TurnRecord<S, A, O, E, J>>, generator: Option<Rng>)
      returns (r: Result<Drained<S, TurnRecord<S, A, O, E, J>>, Error>)
    ensures r == DrainFrom(g, config, start, before, generator, 0)
    ensures r.Ok? && generator.Some? ==> !g.isChanceNode(r.value.state)
  {
    if generator.None? {
      return Ok(Drained(start, before, generator));
    }
    var state, turns, rng := start, before, generator.value;
    var steps := 0;
    while g.isChanceNode(state)
      invariant steps <= MAX_CONSECUTIVE_CHANCE_STEPS
      invariant DrainFrom(g, config, state, turns, Some(rng), steps) == DrainFrom(g, config, start, before, generator, 0)
      decreases MAX_CONSECUTIVE_CHANCE_STEPS - steps
    {
      steps := steps + 1;
      if steps > MAX_CONSECUTIVE_CHANCE_STEPS {
        return Err(ChanceResolutionError);
      }
      var (outcome, next) := g.sampleChance(state, rng);
      var t := g.applyChance(state, outcome);
      if t.Err? {
        return Err(t.error);
      }
      turns := turns + [RecordTurn(g, config, Resolve(outcome), t.value)];
      state, rng := t.value.state, next;
    }
    return Ok(Drained(state, turns, Some(rng)));
  }

  /** From this state, sampling `n` outcomes in a row, each at a chance node, comes to rest. */
  ghost predicate RestsAfter<C, S, A, O, E, J>(g: Game<C, S, A, O, E, J>, state: S, rng: Rng, n: nat)
    decreases n
  {
    if n == 0 then !g.isChanceNode(state)
    else
      && g.isChanceNode(state)
      && var (outcome, next) := g.sampleChance(state, rng);
      var t := g.applyChance(state, outcome);
      t.Ok? && RestsAfter(g, t.value.state, next, n - 1)
  }

  ghost predicate RestsWithin<C, S, A, O, E, J>(g: Game<C, S, A, O, E, J>, state: S, rng: Rng, limit: int) {
    exists n: nat :: n <= limit && RestsAfter(g, state, rng, n)
  }

  lemma RestsWithinStep<C, S, A, O, E, J>(g: Game<C, S, A, O, E, J>, state: S, rng: Rng, limit: nat)
    requires g.isChanceNode(state)
    ensures var (outcome, next) := g.sampleChance(state, rng);
            var t := g.applyChance(state, outcome);
            RestsWithin(g, state, rng, limit) <==> limit > 0 && t.Ok? && RestsWithin(g, t.value.state, next, limit - 1)
  {
    var (outcome, next) := g.sampleChance(state, rng);
    var t := g.applyChance(state, outcome);
    if n: nat :| n <= limit && RestsAfter(g, state, rng, n) {
      assert RestsAfter(g, t.value.state, next, n - 1);
    }
    if t.Ok? {
      if n: nat :| n <= limit - 1 && RestsAfter(g, t.value.state, next, n) {
        assert RestsAfter(g, state, rng, n + 1);
      }
    }
  }

  /** A drain ends well exactly when the match comes to rest within the cap, and takes one turn
      for each outcome until then. */
  lemma {:induction false} DrainsWithinTheCap<C, S, A, O, E, J>(
      g: Game<C, S, A, O, E, J>, config: C, state: S, turns: seq<TurnRecord<S, A, O, E, J>>, rng: Rng, steps: nat)
    requires steps <= MAX_CONSECUTIVE_CHANCE_STEPS
    ensures var r := DrainFrom(g, config, state, turns, Some(rng), steps);
            && (r.Ok? <==> RestsWithin(g, state, rng, 128 - steps))
            && (r.Ok? ==> RestsAfter(g, state, rng, |r.value.turns| - |turns|))
    decreases MAX_CONSECUTIVE_CHANCE_STEPS - steps
  {
    if !g.isChanceNode(state) {
      assert RestsAfter(g, state, rng, 0);
    } else {
      RestsWithinStep(g, state, rng, 128 - steps);
      var (outcome, next) := g.sampleChance(state, rng);
      var t := g.applyChance(state, outcome);
      if steps < MAX_CONSECUTIVE_CHANCE_STEPS && t.Ok? {
        var turn := RecordTurn(g, config, Resolve(outcome), t.value);
        DrainsWithinTheCap(g, config, t.value.state, turns + [turn], next, steps + 1);
      }
    }
  }

  /** What the moves of one kind are: one seat's, a round's or chance's. */
  predicate SameKind<A, O>(x: Move<A, O>, y: Move<A, O>) {
    (x.Act? <==> y.Act?) && (x.ActJointly? <==> y.ActJointly?) && (x.Resolve? <==> y.Resolve?)
  }

  /** A state takes moves of one kind only, whatever the engine behind it would accept: chance
      at chance nodes, rounds where both seats act, and one seat's actions elsewhere. */
  lemma OneKindOfMove<C, S, A, O, E, J>(g: Game<C, S, A, O, E, J>, s: S, x: Move<A, O>, y: Move<A, O>)
    requires ApplyMove(g, s, x).Ok? && ApplyMove(g, s, y).Ok?
    ensures SameKind(x, y)
    ensures x.Resolve? <==> g.isChanceNode(s)
    ensures x.ActJointly? <==> ActingSeats(g, s) == Ok([0, 1])
  {
    assert [0, 1][0] == 0 && |[0, 1]| == 2;
  }

  // ---------------------------------------------------------------------------
  // Starting and stepping a match
  // ---------------------------------------------------------------------------

  function Start<C, S, A, O, E, J>(g: Game<C, S, A, O, E, J>, config: C, rng: Option<Rng>): Result<LocalMatch<C, S, A, O, E, J>, Error> {
    var state := g.initialState(config);
    var d :- DrainFrom(g, config, state, [], rng, 0);
    Ok(LocalMatch(config, d.state, BuildSnapshot(g, config, state), d.turns, d.rng))
  }

  /** A live match: it has a generator exactly when the game has chance nodes. */
  function StartMatch<C, S, A, O, E, J>(g: Game<C, S, A, O, E, J>, config: C, seed: int): Result<LocalMatch<C, S, A, O, E, J>, Error> {
    Start(g, config, if g.hasChanceNodes then Some(Rng(seed, 0)) else None)
  }

  /** Without a generator nothing is sampled, so the match waits at each chance node. */
  function StartReplayMatch<C, S, A, O, E, J>(g: Game<C, S, A, O, E, J>, config: C): (r: Result<LocalMatch<C, S, A, O, E, J>, Error>)
    ensures r == Ok(LocalMatch(config, g.initialState(config), BuildSnapshot(g, config, g.initialState(config)), [], None))
  {
    Start(g, config, None)
  }

  function StepMatch<C, S, A, O, E, J>(g: Game<C, S, A, O, E, J>, m: LocalMatch<C, S, A, O, E, J>, move: Move<A, O>): (r: Result<LocalMatch<C, S, A, O, E, J>, Error>)
  {
    var t :- ApplyMove(g, m.state, move);
    var d :- DrainFrom(g, m.config, t.state, m.turns + [RecordTurn(g, m.config, move, t)], m.rng, 0);
    Ok(m.(state := d.state, turns := d.turns, rng := d.rng))
  }

  function ApplyMatchAction<C, S, A, O, E, J>(g: Game<C, S, A, O, E, J>, m: LocalMatch<C, S, A, O, E, J>, seat: Seat, action: A): Result<LocalMatch<C, S, A, O, E, J>, Error> {
    StepMatch(g, m, Act(seat, action))
  }

  function ApplyMatchJointAction<C, S, A, O, E, J>(g: Game<C, S, A, O, E, J>, m: LocalMatch<C, S, A, O, E, J>, actions: map<Seat, A>): Result<LocalMatch<C, S, A, O, E, J>, Error> {
    StepMatch(g, m, ActJointly(actions))
  }

  /** So a move is taken exactly if its transition is accepted and what it leads to, if the
      match samples, comes to rest within 128 outcomes; and a match starts on the same terms. */
  lemma StepsWithinTheCap<C, S, A, O, E, J>(g: Game<C, S, A, O, E, J>, m: LocalMatch<C, S, A, O, E, J>, move: Move<A, O>)
    ensures StepMatch(g, m, move).Ok? <==>
      && ApplyMove(g, m.state, move).Ok?
      && (m.rng.Some? ==> RestsWithin(g, ApplyMove(g, m.state, move).value.state, m.rng.value, 128))
  {
    if ApplyMove(g, m.state, move).Ok? && m.rng.Some? {
      var t := ApplyMove(g, m.state, move).value;
      DrainsWithinTheCap(g, m.config, t.state, m.turns + [RecordTurn(g, m.config, move, t)], m.rng.value, 0);
    }
  }

  lemma StartsWithinTheCap<C, S, A, O, E, J>(g: Game<C, S, A, O, E, J>, config: C, seed: int)
    ensures StartMatch(g, config, seed).Ok? <==> (g.hasChanceNodes ==> RestsWithin(g, g.initialState(config), Rng(seed, 0), 128))
  {
    DrainsWithinTheCap(g, config, g.initialState(config), [], Rng(seed, 0), 0);
  }

  // ---------------------------------------------------------------------------
  // Whole runs
  // ---------------------------------------------------------------------------

  /** One step of a match as a function of the match and the move. */
  function Stepper<C, S, A, O, E, J>(g: Game<C, S, A, O, E, J>): (LocalMatch<C, S, A, O, E, J>, Move<A, O>) -> Result<LocalMatch<C, S, A, O, E, J>, Error> {
    (m, move) => StepMatch(g, m, move)
  }

  /** A match stepped by a list of moves, from wherever it stands. */
  function RunMoves<C, S, A, O, E, J>(g: Game<C, S, A, O, E, J>, m: LocalMatch<C, S, A, O, E, J>, moves: seq<Move<A, O>>): Result<LocalMatch<C, S, A, O, E, J>, Error> {
    Fold(Stepper(g), m, moves)
  }

  /** A live match after the seats' accepted moves. */
  function LiveRun<C, S, A, O, E, J>(g: Game<C, S, A, O, E, J>, config: C, seed: int, moves: seq<Move<A, O>>): Result<LocalMatch<C, S, A, O, E, J>, Error> {
    var m :- StartMatch(g, config, seed);
    RunMoves(g, m, moves)
  }

  /** A replay of a list of moves, chance outcomes included. */
  function ReplayRun<C, S, A, O, E, J>(g: Game<C, S, A, O, E, J>, config: C, moves: seq<Move<A, O>>): Result<LocalMatch<C, S, A, O, E, J>, Error> {
    var m :- StartReplayMatch(g, config);
    RunMoves(g, m, moves)
  }

  /** A step only adds turns, at least one, and keeps what a match was started with. */
  lemma StepExtends<C, S, A, O, E, J>(g: Game<C, S, A, O, E, J>, m: LocalMatch<C, S, A, O, E, J>, move: Move<A, O>)
    requires StepMatch(g, m, move).Ok?
    ensures var next := StepMatch(g, m, move).value;
            && m.turns < next.turns
            && next.config == m.config && next.initialSnapshot == m.initialSnapshot
            && (next.rng.Some? <==> m.rng.Some?)
            && (m.rng.Some? ==> !g.isChanceNode(next.state))
  {
  }

  lemma {:induction false} RunExtends<C, S, A, O, E, J>(g: Game<C, S, A, O, E, J>, m: LocalMatch<C, S, A, O, E, J>, moves: seq<Move<A, O>>)
    requires RunMoves(g, m, moves).Ok?
    ensures var last := RunMoves(g, m, moves).value;
            && m.turns <= last.turns
            && |last.turns| >= |m.turns| + |moves|
            && last.config == m.config && last.initialSnapshot == m.initialSnapshot
            && (last.rng.Some? <==> m.rng.Some?)
    decreases |moves|
  {
    if moves != [] {
      StepExtends(g, m, moves[0]);
      RunExtends(g, StepMatch(g, m, moves[0]).value, moves[1..]);
    }
  }

  /** The move a turn records, if it records one at all. */
  function MoveOf<S, A, O, E, J>(turn: TurnRecord<S, A, O, E, J>): Option<Move<A, O>> {
    if turn.kind == TURN_KIND_ACTION && turn.seat.Some? && turn.action.Some? then Some(Act(turn.seat.value, turn.action.value))
    else if turn.kind == TURN_KIND_JOINT && turn.actions.Some? then Some(ActJointly(turn.actions.value))
    else if turn.kind == TURN_KIND_CHANCE && turn.outcome.Some? then Some(Resolve(turn.outcome.value))
    else None
  }
}

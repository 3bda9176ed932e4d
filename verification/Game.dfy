/**
 A game definition as the match layer sees it: a pure rules engine and a serializer
 (src/arena/core/game_definition.py, rules_engine.py, serializer.py, chance.py,
 simultaneous.py, public_view.py).

 Types: `C` config, `S` state, `A` action, `O` chance outcome, `E` domain event and
 `J` one JSON payload.
 */
module Games {
  import opened Wrappers
  import opened Chance

  /** A seat id as an engine meets it: any integer, checked by the engine. */
  type Seat = int

  /** Who a payload is for: a real seat, or the public. What `check_viewer` lets through. */
  type TableSeat = s: int | s == 0 || s == 1
  datatype Viewer = Public | OfSeat(seat: TableSeat)

  datatype Error =
    | ChanceResolutionError
    | WrongPlayer
    | GameFinished
    | IllegalAction
    | ValueError

  datatype RuleResult = Win(seat: Seat) | Draw

  datatype Transition<+S, +E> = Transition(state: S, events: seq<E>, result: Option<RuleResult>)

  datatype Game<!C, !S, !A, !O, !E, !J> = Game(
    gameId: string,
    hasChanceNodes: bool,
    hasHiddenInformation: bool,
    // rules engine
    initialState: C -> S,
    isTerminal: S -> bool,
    resultOf: S -> Option<RuleResult>,
    isChanceNode: S -> bool,
    seatsToAct: S -> seq<Seat>,
    validateAction: (S, Seat, A) -> Option<Error>,
    applyAction: (S, Seat, A) -> Result<Transition<S, E>, Error>,
    applyJoint: (S, map<Seat, A>) -> Result<Transition<S, E>, Error>,
    sampleChance: (S, Rng) -> (O, Rng),
    applyChance: (S, O) -> Result<Transition<S, E>, Error>,
    visibleTo: (E, Viewer) -> bool,
    // serializer
    dumpConfig: C -> J,
    loadConfig: J -> Result<C, Error>,
    dumpState: S -> J,
    loadState: J -> Result<S, Error>,
    dumpAction: A -> J,
    loadAction: J -> Result<A, Error>,
    dumpOutcome: O -> J,
    loadOutcome: J -> Result<O, Error>,
    dumpEvent: E -> J,
    // what a viewer may receive
    dumpConfigFor: (C, Viewer) -> J,
    dumpStateFor: (S, Viewer) -> J,
    dumpOutcomeFor: (O, Viewer) -> J)

  /** What registration and the game contract tests demand of a definition: without
      chance nodes nothing is ever a chance node, and loading undoes dumping. */
  ghost predicate WellFormed<C(!new), S(!new), A(!new), O(!new), E(!new), J(!new)>(g: Game<C, S, A, O, E, J>) {
    && (!g.hasChanceNodes ==> forall s: S :: !g.isChanceNode(s))
    && (forall c: C :: g.loadConfig(g.dumpConfig(c)) == Ok(c))
    && (forall s: S :: g.loadState(g.dumpState(s)) == Ok(s))
    && (forall a: A :: g.loadAction(g.dumpAction(a)) == Ok(a))
    && (forall o: O :: g.loadOutcome(g.dumpOutcome(o)) == Ok(o))
  }

  /** A perfect-information serializer: without redaction hooks every viewer's dump falls
      back to the full one. */
  ghost predicate NothingToRedact<C(!new), S(!new), A(!new), O(!new), E(!new), J(!new)>(g: Game<C, S, A, O, E, J>) {
    && (forall c: C, v: Viewer :: g.dumpConfigFor(c, v) == g.dumpConfig(c))
    && (forall s: S, v: Viewer :: g.dumpStateFor(s, v) == g.dumpState(s))
    && (forall o: O, v: Viewer :: g.dumpOutcomeFor(o, v) == g.dumpOutcome(o))
  }

  // ---------------------------------------------------------------------------
  // Simultaneous moves
  // ---------------------------------------------------------------------------

  /** Seats of the table in order, without repeats: with two seats, one of four lists. */
  predicate OrderedSeats(seats: seq<Seat>) {
    seats == [] || seats == [0] || seats == [1] || seats == [0, 1]
  }

  /** Whose actions the state waits for: nobody's once the match is over or chance is to move. */
  function ActingSeats<C, S, A, O, E, J>(g: Game<C, S, A, O, E, J>, s: S): (r: Result<seq<Seat>, Error>)
    ensures r.Ok? ==> OrderedSeats(r.value) && |r.value| <= 2
    ensures r.Ok? && |r.value| == 2 ==> r.value == [0, 1]
    ensures r == Ok([]) <==> g.isTerminal(s) || g.isChanceNode(s)
    ensures r.Err? <==> r != Ok([]) && (g.seatsToAct(s) == [] || !OrderedSeats(g.seatsToAct(s)))
    ensures r.Ok? && r.value != [] ==> r.value == g.seatsToAct(s)
  {
    if g.isTerminal(s) || g.isChanceNode(s) then Ok([])
    else
      var seats := g.seatsToAct(s);
      if seats == [] || !OrderedSeats(seats) then Err(WrongPlayer) else
      Ok(seats)
  }

  /** The actions of a joint round, one per acting seat, in seat order. */
  function PickActions<A>(actions: map<Seat, A>, seats: seq<Seat>): (picked: map<Seat, A>)
    requires forall i :: 0 <= i < |seats| ==> seats[i] in actions
    ensures forall s :: s in picked <==> s in seats
    ensures forall s :: s in picked ==> picked[s] == actions[s]
  {
    map s | s in seats :: actions[s]
  }

  /** The first refusal among the acting seats' own actions, in seat order. */
  function FirstRefusal<C, S, A, O, E, J>(g: Game<C, S, A, O, E, J>, s: S, actions: map<Seat, A>, seats: seq<Seat>): (r: Option<Error>)
    requires forall i :: 0 <= i < |seats| ==> seats[i] in actions
    ensures r.None? <==> forall i :: 0 <= i < |seats| ==> g.validateAction(s, seats[i], actions[seats[i]]).None?
    ensures r.Some? ==> exists i :: 0 <= i < |seats| && r == g.validateAction(s, seats[i], actions[seats[i]]) &&
                          forall j :: 0 <= j < i ==> g.validateAction(s, seats[j], actions[seats[j]]).None?
  {
    if seats == [] then None
    else
      match g.validateAction(s, seats[0], actions[seats[0]])
      case Some(e) => Some(e)
      case None => FirstRefusal(g, s, actions, seats[1..])
  }

  function ApplyJointAction<C, S, A, O, E, J>(g: Game<C, S, A, O, E, J>, s: S, actions: map<Seat, A>): (r: Result<Transition<S, E>, Error>)
    ensures r.Ok? <==>
      && ActingSeats(g, s) == Ok([0, 1])
      && actions.Keys == {0, 1}
      && g.validateAction(s, 0, actions[0]).None? && g.validateAction(s, 1, actions[1]).None?
      && g.applyJoint(s, actions).Ok?
    ensures r.Ok? ==> r == g.applyJoint(s, actions)
    ensures g.isTerminal(s) ==> r == Err(GameFinished)
  {
    if g.isTerminal(s) then Err(GameFinished) else
    var seats :- ActingSeats(g, s);
    if |seats| < 2 then Err(WrongPlayer)
    else if actions.Keys != (set seat | seat in seats) then Err(WrongPlayer)
    else
      match FirstRefusal(g, s, actions, seats)
      case Some(e) => Err(e)
      case None =>
        assert seats == [0, 1];
        assert seats[0] == 0 && seats[1] == 1;
        assert PickActions(actions, seats) == actions;
        g.applyJoint(s, PickActions(actions, seats))
  }
}

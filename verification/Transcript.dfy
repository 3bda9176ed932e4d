/**
 Match transcripts: dumping a match, loading a transcript, validating it by replay, and
 the views each viewer may receive (src/arena/match/transcript.py).
 */
module Transcripts {
  import opened Wrappers
  import opened Folds
  import opened Games
  import opened LocalMatches

  const MATCH_TRANSCRIPT_SCHEMA_VERSION: int := 4

  const VIEW_FULL: string := "full"
  const VIEW_SEAT: string := "seat"
  const VIEW_PUBLIC: string := "public"

  // ---------------------------------------------------------------------------
  // Payloads
  // ---------------------------------------------------------------------------

  /** `marked` says whether the JSON object carries an `is_public` or `audience` key. */
  datatype EventPayload<+J> = EventPayload(body: J, isPublic: bool, audience: Option<seq<int>>, marked: bool)

  datatype ResultPayload = ResultPayload(resultType: string, fields: map<string, int>)

  /** `actions` lists a joint turn's JSON object in key order, each key as the integer
      `_seat_key` reads it: the seat, or -1 where the key names none. */
  datatype TurnPayload<+J> = TurnPayload(
    kind: string,
    seat: Option<int>,
    action: Option<J>,
    actions: Option<seq<(int, J)>>,
    outcome: Option<J>,
    events: seq<EventPayload<J>>,
    result: Option<ResultPayload>,
    postSnapshot: Snapshot<J>)

  datatype TranscriptPayload<+J> = TranscriptPayload(
    gameId: string,
    schemaVersion: int,
    config: J,
    initialSnapshot: Snapshot<J>,
    turns: seq<TurnPayload<J>>,
    view: string,
    viewerSeat: Option<int>)

  // ---------------------------------------------------------------------------
  // Events and results
  // ---------------------------------------------------------------------------

  function Audience<C, S, A, O, E, J>(g: Game<C, S, A, O, E, J>, e: E): (seats: Option<seq<int>>)
    ensures seats.None? <==> g.visibleTo(e, Public)
    ensures seats.Some? ==> forall s: TableSeat :: s in seats.value <==> g.visibleTo(e, OfSeat(s))
  {
    if g.visibleTo(e, Public) then None
    else Some((if g.visibleTo(e, OfSeat(0)) then [0] else []) + (if g.visibleTo(e, OfSeat(1)) then [1] else []))
  }

  function DumpEvent<C, S, A, O, E, J>(g: Game<C, S, A, O, E, J>, e: E): EventPayload<J> {
    EventPayload(g.dumpEvent(e), g.visibleTo(e, Public), Audience(g, e), !g.visibleTo(e, Public))
  }

  function DumpEvents<C, S, A, O, E, J>(g: Game<C, S, A, O, E, J>, events: seq<E>): (r: seq<EventPayload<J>>)
    ensures |r| == |events|
    ensures forall i :: 0 <= i < |events| ==> r[i] == DumpEvent(g, events[i])
  {
    seq(|events|, i requires 0 <= i < |events| => DumpEvent(g, events[i]))
  }

  /** An event as the payload model dumps it again: a public event loses both markers. */
  function NormalEvent<J>(e: EventPayload<J>): EventPayload<J> {
    if e.isPublic then EventPayload(e.body, true, None, false) else e.(marked := true)
  }

  function NormalEvents<J>(events: seq<EventPayload<J>>): (r: seq<EventPayload<J>>)
    ensures |r| == |events|
    ensures forall i :: 0 <= i < |events| ==> r[i] == NormalEvent(events[i])
  {
    seq(|events|, i requires 0 <= i < |events| => NormalEvent(events[i]))
  }

  /** Visibility of a serialized event, from its markers alone. */
  predicate PayloadVisibleTo<J>(e: EventPayload<J>, viewer: Viewer) {
    if e.isPublic then true
    else match viewer
      case Public => false
      case OfSeat(s) => e.audience.Some? && s in e.audience.value
  }

  function FilterEvents<J>(events: seq<EventPayload<J>>, viewer: Viewer): seq<EventPayload<J>> {
    if events == [] then []
    else (if PayloadVisibleTo(events[0], viewer) then [events[0]] else []) + FilterEvents(events[1..], viewer)
  }

  /** What each event's own `visible_to` lets through. */
  function VisibleEvents<C, S, A, O, E, J>(g: Game<C, S, A, O, E, J>, events: seq<E>, viewer: Viewer): seq<E> {
    if events == [] then []
    else (if g.visibleTo(events[0], viewer) then [events[0]] else []) + VisibleEvents(g, events[1..], viewer)
  }

  function DumpResult(r: Option<RuleResult>): Option<ResultPayload> {
    match r
    case None => None
    case Some(Win(seat)) => Some(ResultPayload("Win", map["seat" := seat]))
    case Some(Draw) => Some(ResultPayload("Draw", map[]))
  }

  function LoadResult(p: Option<ResultPayload>): (r: Result<Option<RuleResult>, Error>)
    ensures p.Some? && p.value.resultType == "Win" && "seat" !in p.value.fields ==> r.Err?
  {
    match p
    case None => Ok(None)
    case Some(payload) =>
      if payload.resultType == "Win" then
        if "seat" in payload.fields then Ok(Some(Win(payload.fields["seat"]))) else Err(ValueError)
      else if payload.resultType == "Draw" then Ok(Some(Draw))
      else Ok(None)
  }

  // ---------------------------------------------------------------------------
  // Dumping
  // ---------------------------------------------------------------------------

  function DumpJointActions<C, S, A, O, E, J>(g: Game<C, S, A, O, E, J>, actions: map<Seat, A>): seq<(int, J)> {
    (if 0 in actions then [(0, g.dumpAction(actions[0]))] else []) +
    (if 1 in actions then [(1, g.dumpAction(actions[1]))] else [])
  }

  function DumpTurn<C, S, A, O, E, J>(g: Game<C, S, A, O, E, J>, turn: TurnRecord<S, A, O, E, J>): TurnPayload<J> {
    TurnPayload(
      turn.kind,
      turn.seat,
      if turn.action.Some? then Some(g.dumpAction(turn.action.value)) else None,
      if turn.actions.Some? then Some(DumpJointActions(g, turn.actions.value)) else None,
      if turn.kind == TURN_KIND_CHANCE && turn.outcome.Some? then Some(g.dumpOutcome(turn.outcome.value)) else None,
      DumpEvents(g, turn.events),
      DumpResult(turn.result),
      turn.postSnapshot)
  }

  function DumpTurns<C, S, A, O, E, J>(g: Game<C, S, A, O, E, J>, turns: seq<TurnRecord<S, A, O, E, J>>): (r: seq<TurnPayload<J>>)
    ensures |r| == |turns|
    ensures forall i :: 0 <= i < |turns| ==> r[i] == DumpTurn(g, turns[i])
  {
    seq(|turns|, i requires 0 <= i < |turns| => DumpTurn(g, turns[i]))
  }

  function DumpTranscript<C, S, A, O, E, J>(g: Game<C, S, A, O, E, J>, m: LocalMatch<C, S, A, O, E, J>): TranscriptPayload<J> {
    TranscriptPayload(g.gameId, MATCH_TRANSCRIPT_SCHEMA_VERSION, g.dumpConfig(m.config), m.initialSnapshot,
                      DumpTurns(g, m.turns), VIEW_FULL, None)
  }

  // ---------------------------------------------------------------------------
  // Shapes
  // ---------------------------------------------------------------------------

  predicate EventShapeOk<J>(version: int, e: EventPayload<J>) {
    && !(e.marked && version < 3)
    && !(e.isPublic && e.audience.Some?)
    && !(!e.isPublic && (e.audience.None? || e.audience.value == []))
  }

  predicate JointKeysOk<J>(actions: Option<seq<(int, J)>>) {
    && actions.Some?
    && |actions.value| >= 2
    && (forall i :: 0 <= i < |actions.value| ==> actions.value[i].0 >= 0)
    && (forall i, j :: 0 <= i < j < |actions.value| ==> actions.value[i].0 < actions.value[j].0)
  }

  predicate TurnShapeOk<J>(version: int, turn: TurnPayload<J>) {
    && (forall i :: 0 <= i < |turn.events| ==> EventShapeOk(version, turn.events[i]))
    && (if turn.kind == TURN_KIND_CHANCE then
          version >= 2 && turn.seat.None? && turn.action.None? && turn.outcome.Some?
        else if turn.kind == TURN_KIND_ACTION then
          turn.seat.Some? && turn.action.Some? && turn.outcome.None?
        else if turn.kind == TURN_KIND_JOINT then
          version >= 4 && turn.seat.None? && turn.action.None? && turn.outcome.None? && JointKeysOk(turn.actions)
        else false)
    && (turn.kind != TURN_KIND_JOINT ==> turn.actions.None?)
  }

  predicate EnvelopeShapeOk<J>(p: TranscriptPayload<J>) {
    && 1 <= p.schemaVersion <= 4
    && !(p.schemaVersion < 3 && p.view != VIEW_FULL)
    && !(p.view == VIEW_SEAT && p.viewerSeat.None?)
    && !(p.view != VIEW_SEAT && p.viewerSeat.Some?)
  }

  predicate ShapesOk<J>(p: TranscriptPayload<J>) {
    && EnvelopeShapeOk(p)
    && forall i :: 0 <= i < |p.turns| ==> TurnShapeOk(p.schemaVersion, p.turns[i])
  }

  /** The checking loop over turns and events. */
  method EnsureTurnShapes<J>(p: TranscriptPayload<J>) returns (ok: bool)
    ensures ok == ShapesOk(p)
  {
    if !(1 <= p.schemaVersion <= 4) {
      return false;
    }
    if p.schemaVersion < 3 && p.view != VIEW_FULL {
      return false;
    }
    if p.view == VIEW_SEAT && p.viewerSeat.None? {
      return false;
    }
    if p.view != VIEW_SEAT && p.viewerSeat.Some? {
      return false;
    }
    for i := 0 to |p.turns|
      invariant forall j :: 0 <= j < i ==> TurnShapeOk(p.schemaVersion, p.turns[j])
    {
      var turn := p.turns[i];
      for k := 0 to |turn.events|
        invariant forall j :: 0 <= j < k ==> EventShapeOk(p.schemaVersion, turn.events[j])
      {
        if !EventShapeOk(p.schemaVersion, turn.events[k]) {
          return false;
        }
      }
      if !TurnShapeOk(p.schemaVersion, turn) {
        return false;
      }
    }
    return true;
  }

  predicate IdsMatch<J>(gameId: string, p: TranscriptPayload<J>) {
    && p.gameId == gameId
    && p.initialSnapshot.gameId == gameId
    && forall i :: 0 <= i < |p.turns| ==> p.turns[i].postSnapshot.gameId == gameId
  }

  // ---------------------------------------------------------------------------
  // Loading
  // ---------------------------------------------------------------------------

  datatype LoadedTurn<+S, +A, +O, +J> = LoadedTurn(
    kind: string,
    seat: Option<int>,
    action: Option<A>,
    actions: Option<map<Seat, A>>,
    outcome: Option<O>,
    eventPayloads: seq<EventPayload<J>>,
    result: Option<RuleResult>,
    resultPayload: Option<ResultPayload>,
    postState: S,
    postSnapshot: Snapshot<J>)

  datatype Loaded<+C, +S, +A, +O, +J> = Loaded(
    config: C,
    initialSnapshot: Snapshot<J>,
    initialState: S,
    latestState: S,
    turns: seq<LoadedTurn<S, A, O, J>>)

  function LoadOptional<T, J>(load: J -> Result<T, Error>, p: Option<J>): Result<Option<T>, Error> {
    match p
    case None => Ok(None)
    case Some(j) =>
      var t :- load(j);
      Ok(Some(t))
  }

  function LoadJointActions<C, S, A, O, E, J>(g: Game<C, S, A, O, E, J>, actions: seq<(int, J)>): Result<map<Seat, A>, Error> {
    if actions == [] then Ok(map[])
    else
      var rest :- LoadJointActions(g, actions[..|actions| - 1]);
      var (seat, payload) := actions[|actions| - 1];
      var a :- g.loadAction(payload);
      Ok(rest[seat := a])
  }

  function LoadTurn<C, S, A, O, E, J>(g: Game<C, S, A, O, E, J>, p: TurnPayload<J>): (r: Result<LoadedTurn<S, A, O, J>, Error>)
  {
    var outcome :- LoadOptional(g.loadOutcome, p.outcome);
    var action :- LoadOptional(g.loadAction, p.action);
    var actions :- LoadOptional((a: seq<(int, J)>) => LoadJointActions(g, a), p.actions);
    var result :- LoadResult(p.result);
    var postState :- g.loadState(p.postSnapshot.state);
    Ok(LoadedTurn(p.kind, p.seat, action, actions, outcome, NormalEvents(p.events), result, p.result, postState, p.postSnapshot))
  }

  function LoadTurns<C, S, A, O, E, J>(g: Game<C, S, A, O, E, J>, turns: seq<TurnPayload<J>>): (r: Result<seq<LoadedTurn<S, A, O, J>>, Error>)
    ensures r.Ok? ==> |r.value| == |turns|
    ensures r.Ok? ==> forall i :: 0 <= i < |turns| ==> LoadTurn(g, turns[i]) == Ok(r.value[i])
    ensures r.Err? ==> exists i :: 0 <= i < |turns| && LoadTurn(g, turns[i]).Err?
  {
    if turns == [] then Ok([])
    else
      var rest := LoadTurns(g, turns[..|turns| - 1]);
      if rest.Err? then rest else
      var last := LoadTurn(g, turns[|turns| - 1]);
      if last.Err? then Err(last.error) else
      Ok(rest.value + [last.value])
  }

  function LoadTranscript<C, S, A, O, E, J>(g: Game<C, S, A, O, E, J>, p: TranscriptPayload<J>): Result<Loaded<C, S, A, O, J>, Error> {
    if !IdsMatch(g.gameId, p) || !ShapesOk(p) || p.view != VIEW_FULL then Err(ValueError) else
    var config :- g.loadConfig(p.config);
    var initialState :- g.loadState(p.initialSnapshot.state);
    var turns :- LoadTurns(g, p.turns);
    Ok(Loaded(config, p.initialSnapshot, initialState,
              if turns == [] then initialState else turns[|turns| - 1].postState, turns))
  }

  // ---------------------------------------------------------------------------
  // Validating by replay
  // ---------------------------------------------------------------------------

  /** The move a loaded turn asks the replay to make. */
  function RecordedMove<S, A, O, J>(turn: LoadedTurn<S, A, O, J>): Option<Move<A, O>> {
    if turn.kind == TURN_KIND_CHANCE then
      if turn.outcome.None? then None else Some(Resolve(turn.outcome.value))
    else if turn.kind == TURN_KIND_JOINT then
      if turn.actions.None? || |turn.actions.value| == 0 then None else Some(ActJointly(turn.actions.value))
    else if turn.kind != TURN_KIND_ACTION || turn.seat.None? || turn.action.None? then None
    else Some(Act(turn.seat.value, turn.action.value))
  }

  function ReplayTurn<C, S, A, O, E, J>(g: Game<C, S, A, O, E, J>, m: LocalMatch<C, S, A, O, E, J>, turn: LoadedTurn<S, A, O, J>): Result<LocalMatch<C, S, A, O, E, J>, Error> {
    match RecordedMove(turn)
    case None => Err(ValueError)
    case Some(move) => StepMatch(g, m, move)
  }

  function TurnReplayer<C, S, A, O, E, J>(g: Game<C, S, A, O, E, J>): (LocalMatch<C, S, A, O, E, J>, LoadedTurn<S, A, O, J>) -> Result<LocalMatch<C, S, A, O, E, J>, Error> {
    (m, turn) => ReplayTurn(g, m, turn)
  }

  function ReplayTurns<C, S, A, O, E, J>(g: Game<C, S, A, O, E, J>, m: LocalMatch<C, S, A, O, E, J>, turns: seq<LoadedTurn<S, A, O, J>>): Result<LocalMatch<C, S, A, O, E, J>, Error> {
    Fold(TurnReplayer(g), m, turns)
  }

  predicate TurnMatches<C, S(==), A, O, E, J(==)>(g: Game<C, S, A, O, E, J>, loaded: LoadedTurn<S, A, O, J>, generated: TurnRecord<S, A, O, E, J>) {
    && loaded.kind == generated.kind
    && loaded.postState == generated.postState
    && loaded.postSnapshot == generated.postSnapshot
    && loaded.eventPayloads == DumpEvents(g, generated.events)
    && loaded.result == generated.result
    && loaded.resultPayload == DumpResult(generated.result)
  }

  predicate TurnsMatch<C, S(==), A, O, E, J(==)>(g: Game<C, S, A, O, E, J>, loaded: seq<LoadedTurn<S, A, O, J>>, generated: seq<TurnRecord<S, A, O, E, J>>) {
    && |generated| == |loaded|
    && forall i :: 0 <= i < |loaded| ==> TurnMatches(g, loaded[i], generated[i])
  }

  /** The comparing loop. */
  method CompareTurns<C, S(==), A, O, E, J(==)>(g: Game<C, S, A, O, E, J>, loaded: seq<LoadedTurn<S, A, O, J>>, generated: seq<TurnRecord<S, A, O, E, J>>)
      returns (ok: bool)
    ensures ok == TurnsMatch(g, loaded, generated)
  {
    if |generated| != |loaded| {
      return false;
    }
    for i := 0 to |loaded|
      invariant forall j :: 0 <= j < i ==> TurnMatches(g, loaded[j], generated[j])
    {
      if !TurnMatches(g, loaded[i], generated[i]) {
        return false;
      }
    }
    return true;
  }

  datatype Replayed<+C, +S, +A, +O, +E, +J> = Replayed(loaded: Loaded<C, S, A, O, J>, replay: LocalMatch<C, S, A, O, E, J>)

  function ValidateLoaded<C, S(==), A, O, E, J(==)>(g: Game<C, S, A, O, E, J>, loaded: Loaded<C, S, A, O, J>): Result<Replayed<C, S, A, O, E, J>, Error> {
    var start :- StartReplayMatch(g, loaded.config);
    if loaded.initialSnapshot != start.initialSnapshot || loaded.initialState != start.state then Err(ValueError) else
    var m :- ReplayTurns(g, start, loaded.turns);
    if g.isChanceNode(m.state) || !TurnsMatch(g, loaded.turns, m.turns) then Err(ValueError)
    else Ok(Replayed(loaded, m))
  }

  function ValidateTranscript<C, S(==), A, O, E, J(==)>(g: Game<C, S, A, O, E, J>, p: TranscriptPayload<J>): Result<Replayed<C, S, A, O, E, J>, Error> {
    var loaded :- LoadTranscript(g, p);
    ValidateLoaded(g, loaded)
  }

  /** The replaying loop, turn by turn. */
  method ReplayRecorded<C, S, A, O, E, J>(g: Game<C, S, A, O, E, J>, start: LocalMatch<C, S, A, O, E, J>, turns: seq<LoadedTurn<S, A, O, J>>)
      returns (r: Result<LocalMatch<C, S, A, O, E, J>, Error>)
    ensures r == ReplayTurns(g, start, turns)
  {
    var m := start;
    for i := 0 to |turns|
      invariant ReplayTurns(g, start, turns[..i]) == Ok(m)
    {
      assert turns[..i + 1] == turns[..i] + [turns[i]];
      FoldSnoc(TurnReplayer(g), start, turns[..i], turns[i]);
      var next := ReplayTurn(g, m, turns[i]);
      if next.Err? {
        assert turns == turns[..i + 1] + turns[i + 1..];
        FoldAppend(TurnReplayer(g), start, turns[..i + 1], turns[i + 1..]);
        return next;
      }
      m := next.value;
    }
    assert turns[..|turns|] == turns;
    return Ok(m);
  }

  /** The validator: load, replay turn by turn, then compare turn by turn. */
  method ValidateByReplay<C, S(==), A, O, E, J(==)>(g: Game<C, S, A, O, E, J>, p: TranscriptPayload<J>)
      returns (r: Result<Replayed<C, S, A, O, E, J>, Error>)
    ensures r == ValidateTranscript(g, p)
  {
    var loading := LoadTranscript(g, p);
    if loading.Err? {
      return Err(loading.error);
    }
    var loaded := loading.value;
    var start := StartReplayMatch(g, loaded.config).value;
    if loaded.initialSnapshot != start.initialSnapshot || loaded.initialState != start.state {
      return Err(ValueError);
    }
    var replaying := ReplayRecorded(g, start, loaded.turns);
    if replaying.Err? {
      return Err(replaying.error);
    }
    var m := replaying.value;
    var matching := CompareTurns(g, loaded.turns, m.turns);
    if g.isChanceNode(m.state) || !matching {
      return Err(ValueError);
    }
    return Ok(Replayed(loaded, m));
  }

  // ---------------------------------------------------------------------------
  // Views
  // ---------------------------------------------------------------------------

  function ViewFor<C, S, A, O, E, J>(g: Game<C, S, A, O, E, J>, viewer: Viewer): (string, Option<int>) {
    if !g.hasHiddenInformation then (VIEW_FULL, None)
    else match viewer
      case Public => (VIEW_PUBLIC, None)
      case OfSeat(s) => (VIEW_SEAT, Some(s))
  }

  /** A turn's payload, cut down to what `viewer` is entitled to. */
  function TurnFor<C, S, A, O, E, J>(g: Game<C, S, A, O, E, J>, config: C, turn: TurnRecord<S, A, O, E, J>, viewer: Viewer): TurnPayload<J> {
    TurnPayload(
      turn.kind,
      turn.seat,
      if turn.action.Some? then Some(g.dumpAction(turn.action.value)) else None,
      if turn.actions.Some? then Some(DumpJointActions(g, turn.actions.value)) else None,
      if turn.kind == TURN_KIND_CHANCE && turn.outcome.Some? then Some(g.dumpOutcomeFor(turn.outcome.value, viewer)) else None,
      FilterEvents(DumpEvents(g, turn.events), viewer),
      DumpResult(turn.result),
      BuildSnapshotFor(g, config, turn.postState, viewer))
  }

  function TurnsFor<C, S, A, O, E, J>(g: Game<C, S, A, O, E, J>, config: C, turns: seq<TurnRecord<S, A, O, E, J>>, viewer: Viewer): (r: seq<TurnPayload<J>>)
    ensures |r| == |turns|
    ensures forall i :: 0 <= i < |turns| ==> r[i] == TurnFor(g, config, turns[i], viewer)
  {
    seq(|turns|, i requires 0 <= i < |turns| => TurnFor(g, config, turns[i], viewer))
  }

  function DumpTranscriptFor<C, S, A, O, E, J>(g: Game<C, S, A, O, E, J>, m: LocalMatch<C, S, A, O, E, J>, viewer: Viewer): TranscriptPayload<J> {
    var (view, viewerSeat) := ViewFor(g, viewer);
    if view == VIEW_FULL then DumpTranscript(g, m)
    else
      TranscriptPayload(g.gameId, MATCH_TRANSCRIPT_SCHEMA_VERSION, g.dumpConfigFor(m.config, viewer),
                        BuildSnapshotFor(g, m.config, g.initialState(m.config), viewer),
                        TurnsFor(g, m.config, m.turns, viewer), view, viewerSeat)
  }

  function NormalTranscript<J>(p: TranscriptPayload<J>): TranscriptPayload<J> {
    p.(turns := seq(|p.turns|, i requires 0 <= i < |p.turns| => p.turns[i].(events := NormalEvents(p.turns[i].events))))
  }

  /** A viewer's transcript from a saved full one: replay it, then build the view. */
  function RedactTranscript<C, S(==), A, O, E, J(==)>(g: Game<C, S, A, O, E, J>, p: TranscriptPayload<J>, viewer: Viewer): Result<TranscriptPayload<J>, Error> {
    var replayed :- ValidateTranscript(g, p);
    if ViewFor(g, viewer).0 == VIEW_FULL then Ok(NormalTranscript(p))
    else Ok(DumpTranscriptFor(g, replayed.replay, viewer))
  }
}

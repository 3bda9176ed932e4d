/**
 Runtime sessions and their two envelopes, the transcript and the status, dumped whole or
 for one viewer, and redacted from a saved whole one (src/arena/runtime/payloads.py).
 */
module Runtime {
  import opened Wrappers
  import opened Games
  import opened LocalMatches
  import opened Transcripts

  const RUNTIME_TRANSCRIPT_SCHEMA_VERSION: int := 4
  const RUNTIME_STATUS_SCHEMA_VERSION: int := 4

  datatype Lifecycle = Created | Running | Finished | Aborted

  /** How far along a lifecycle is: a session never goes back. */
  function Stage(lifecycle: Lifecycle): nat {
    if lifecycle == Created then 0 else if lifecycle == Running then 1 else 2
  }

  datatype Player = Player(playerId: string, seat: int, name: Option<string>)

  /** Abort metadata and its payload carry the same fields. */
  datatype Abort = Abort(reason: string, message: string, causeType: Option<string>, causeMessage: Option<string>)

  datatype RuntimeEvent =
    | MatchCreated(players: seq<Player>)
    | MatchStarted
    | TurnRequested(seat: int)
    | TurnAccepted(seat: int, turnIndex: int)
    | MatchFinished
    | MatchAborted(abort: Abort)
    | PolicyRetried(seat: int, attempt: int, reasonSummary: string)
    | PolicyDecided(seat: int, attempt: int, thought: string)

  datatype Session<+C, +S, +A, +O, +E, +J> = Session(
    matchId: string,
    players: seq<Player>,
    lifecycle: Lifecycle,
    events: seq<RuntimeEvent>,
    abort: Option<Abort>,
    localMatch: Option<LocalMatch<C, S, A, O, E, J>>)

  /** The viewer argument of a dump: one viewer, or the full, unredacted view. */
  datatype Scope = FullView | For(viewer: Viewer)

  // ---------------------------------------------------------------------------
  // Events and aborts
  // ---------------------------------------------------------------------------

  /** A runtime event's JSON object: its type and the keys redaction looks at, the rest
      kept whole. */
  datatype RuntimeEventPayload = RuntimeEventPayload(
    eventType: string, seat: Option<int>, abort: Option<Abort>, players: seq<Player>, number: Option<int>, text: Option<string>)

  function RedactAbort(abort: Option<Abort>): Option<Abort> {
    if abort.None? then None else Some(abort.value.(causeMessage := None))
  }

  function DumpAbort(abort: Option<Abort>, view: string): Option<Abort> {
    if view == VIEW_FULL then abort else RedactAbort(abort)
  }

  function DumpRuntimeEvent(e: RuntimeEvent, view: string): RuntimeEventPayload {
    match e
    case MatchCreated(players) => RuntimeEventPayload("MatchCreated", None, None, players, None, None)
    case MatchStarted => RuntimeEventPayload("MatchStarted", None, None, [], None, None)
    case TurnRequested(seat) => RuntimeEventPayload("TurnRequested", Some(seat), None, [], None, None)
    case TurnAccepted(seat, index) => RuntimeEventPayload("TurnAccepted", Some(seat), None, [], Some(index), None)
    case MatchFinished => RuntimeEventPayload("MatchFinished", None, None, [], None, None)
    case MatchAborted(abort) => RuntimeEventPayload("MatchAborted", None, DumpAbort(Some(abort), view), [], None, None)
    case PolicyRetried(seat, attempt, reason) => RuntimeEventPayload("PolicyRetried", Some(seat), None, [], Some(attempt), Some(reason))
    case PolicyDecided(seat, attempt, thought) => RuntimeEventPayload("PolicyDecided", Some(seat), None, [], Some(attempt), Some(thought))
  }

  /** An agent's own reasoning goes to its own seat only. */
  predicate RuntimeEventVisible(e: RuntimeEvent, view: string, scope: Scope) {
    if view == VIEW_FULL || !(e.PolicyDecided? || e.PolicyRetried?) then true
    else view == VIEW_SEAT && scope.For? && scope.viewer.OfSeat? && e.seat == scope.viewer.seat
  }

  function DumpRuntimeEvents(events: seq<RuntimeEvent>, view: string, scope: Scope): seq<RuntimeEventPayload> {
    if events == [] then []
    else (if RuntimeEventVisible(events[0], view, scope) then [DumpRuntimeEvent(events[0], view)] else []) +
         DumpRuntimeEvents(events[1..], view, scope)
  }

  predicate RuntimePayloadVisible(p: RuntimeEventPayload, view: string, viewer: Viewer) {
    if view == VIEW_FULL || !(p.eventType == "PolicyDecided" || p.eventType == "PolicyRetried") then true
    else view == VIEW_SEAT && viewer.OfSeat? && p.seat == Some(viewer.seat)
  }

  function RedactRuntimeEvent(p: RuntimeEventPayload, view: string): RuntimeEventPayload {
    if view == VIEW_FULL || p.eventType != "MatchAborted" || p.abort.None? then p
    else p.(abort := RedactAbort(p.abort))
  }

  function RedactRuntimeEvents(events: seq<RuntimeEventPayload>, view: string, viewer: Viewer): seq<RuntimeEventPayload> {
    if events == [] then []
    else (if RuntimePayloadVisible(events[0], view, viewer) then [RedactRuntimeEvent(events[0], view)] else []) +
         RedactRuntimeEvents(events[1..], view, viewer)
  }

  // ---------------------------------------------------------------------------
  // Envelopes
  // ---------------------------------------------------------------------------

  function ViewOf<C, S, A, O, E, J>(g: Game<C, S, A, O, E, J>, scope: Scope): (string, Option<int>) {
    match scope
    case FullView => (VIEW_FULL, None)
    case For(viewer) => ViewFor(g, viewer)
  }

  /** The fields of an envelope do not contradict each other. */
  predicate EnvelopeOk(lifecycle: Lifecycle, abort: Option<Abort>, players: seq<Player>, view: string, viewerSeat: Option<int>) {
    && (lifecycle == Aborted <==> abort.Some?)
    && (forall i, j :: 0 <= i < j < |players| ==> players[i].seat != players[j].seat && players[i].playerId != players[j].playerId)
    && (if view == VIEW_SEAT then viewerSeat.Some? && 0 <= viewerSeat.value <= 1 else viewerSeat.None?)
    && (view != VIEW_FULL && abort.Some? ==> abort.value.causeMessage.None?)
  }

  datatype RuntimeTranscript<+J> = RuntimeTranscript(
    matchId: string, gameId: string, schemaVersion: int, lifecycle: Lifecycle, players: seq<Player>,
    events: seq<RuntimeEventPayload>, abort: Option<Abort>, matchTranscript: Option<TranscriptPayload<J>>,
    view: string, viewerSeat: Option<int>)

  predicate RuntimeTranscriptOk<J>(p: RuntimeTranscript<J>) {
    && EnvelopeOk(p.lifecycle, p.abort, p.players, p.view, p.viewerSeat)
    && (p.matchTranscript.Some? ==> p.matchTranscript.value.view == p.view && p.matchTranscript.value.viewerSeat == p.viewerSeat)
  }

  function DumpRuntimeTranscript<C, S, A, O, E, J>(g: Game<C, S, A, O, E, J>, s: Session<C, S, A, O, E, J>, scope: Scope): (r: Result<RuntimeTranscript<J>, Error>)
    ensures r.Ok? ==> RuntimeTranscriptOk(r.value)
  {
    var (view, viewerSeat) := ViewOf(g, scope);
    var matchTranscript :=
      match s.localMatch
      case None => None
      case Some(m) => Some(if view == VIEW_FULL || scope.FullView? then DumpTranscript(g, m) else DumpTranscriptFor(g, m, scope.viewer));
    var p := RuntimeTranscript(
      s.matchId, g.gameId, RUNTIME_TRANSCRIPT_SCHEMA_VERSION, s.lifecycle, s.players,
      DumpRuntimeEvents(s.events, view, scope), DumpAbort(s.abort, view), matchTranscript, view, viewerSeat);
    if RuntimeTranscriptOk(p) then Ok(p) else Err(ValueError)
  }

  function RedactRuntimeTranscript<C, S(==), A, O, E, J(==)>(g: Game<C, S, A, O, E, J>, p: RuntimeTranscript<J>, viewer: Viewer): Result<RuntimeTranscript<J>, Error> {
    if !RuntimeTranscriptOk(p) || p.view != VIEW_FULL then Err(ValueError) else
    var (view, viewerSeat) := ViewFor(g, viewer);
    var matchTranscript :- LoadOptional((t: TranscriptPayload<J>) => RedactTranscript(g, t, viewer), p.matchTranscript);
    Ok(p.(schemaVersion := RUNTIME_TRANSCRIPT_SCHEMA_VERSION,
          matchTranscript := matchTranscript,
          events := RedactRuntimeEvents(p.events, view, viewer),
          abort := if view == VIEW_FULL then p.abort else RedactAbort(p.abort),
          view := view, viewerSeat := viewerSeat))
  }

  datatype Status<+J> = Status(
    schemaVersion: int, matchId: string, gameId: string, lifecycle: Lifecycle, players: seq<Player>,
    currentSeat: Option<int>, turnCount: int, result: Option<ResultPayload>, latestSnapshot: Option<Snapshot<J>>,
    abort: Option<Abort>, view: string, viewerSeat: Option<int>)

  function LatestSnapshot<C, S, A, O, E, J>(m: LocalMatch<C, S, A, O, E, J>): Snapshot<J> {
    if m.turns == [] then m.initialSnapshot else m.turns[|m.turns| - 1].postSnapshot
  }

  function CurrentSeat<C, S, A, O, E, J>(g: Game<C, S, A, O, E, J>, state: S): Result<Option<int>, Error> {
    if g.isTerminal(state) then Ok(None) else
    var seats :- ActingSeats(g, state);
    Ok(if |seats| == 1 then Some(seats[0]) else None)
  }

  function DumpStatus<C, S, A, O, E, J>(g: Game<C, S, A, O, E, J>, s: Session<C, S, A, O, E, J>, scope: Scope): (r: Result<Status<J>, Error>)
    ensures r.Ok? ==> EnvelopeOk(r.value.lifecycle, r.value.abort, r.value.players, r.value.view, r.value.viewerSeat)
  {
    var (view, viewerSeat) := ViewOf(g, scope);
    var currentSeat :- if s.localMatch.Some? then CurrentSeat(g, s.localMatch.value.state) else Ok(None);
    var latest :=
      match s.localMatch
      case None => None
      case Some(m) => Some(if scope.FullView? then LatestSnapshot(m) else BuildSnapshotFor(g, m.config, m.state, scope.viewer));
    var status := Status(
      RUNTIME_STATUS_SCHEMA_VERSION, s.matchId, g.gameId, s.lifecycle, s.players, currentSeat,
      if s.localMatch.Some? then |s.localMatch.value.turns| else 0,
      if s.localMatch.Some? then DumpResult(g.resultOf(s.localMatch.value.state)) else None,
      latest, DumpAbort(s.abort, view), view, viewerSeat);
    if EnvelopeOk(status.lifecycle, status.abort, status.players, view, viewerSeat) then Ok(status) else Err(ValueError)
  }

  function RebuildSnapshot<C, S, A, O, E, J>(g: Game<C, S, A, O, E, J>, full: Snapshot<J>, viewer: Viewer): Result<Snapshot<J>, Error> {
    var config :- g.loadConfig(full.config);
    var state :- g.loadState(full.state);
    Ok(BuildSnapshotFor(g, config, state, viewer))
  }

  function RedactStatus<C, S, A, O, E, J>(g: Game<C, S, A, O, E, J>, p: Status<J>, viewer: Viewer): Result<Status<J>, Error> {
    if !(1 <= p.schemaVersion <= 4) || !EnvelopeOk(p.lifecycle, p.abort, p.players, p.view, p.viewerSeat) || p.view != VIEW_FULL
    then Err(ValueError)
    else
      var (view, viewerSeat) := ViewFor(g, viewer);
      var latest :- if view == VIEW_FULL then Ok(p.latestSnapshot)
                    else LoadOptional((full: Snapshot<J>) => RebuildSnapshot(g, full, viewer), p.latestSnapshot);
      Ok(p.(schemaVersion := RUNTIME_STATUS_SCHEMA_VERSION,
            latestSnapshot := latest,
            abort := if view == VIEW_FULL then p.abort else RedactAbort(p.abort),
            view := view, viewerSeat := viewerSeat))
  }
}

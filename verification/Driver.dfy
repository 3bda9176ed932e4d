/**
 The server's match driver as a step machine (src/arena/server/runtime_bridge.py, with the
 attach and resume steps of src/arena/server/routes_ws.py).

 Types: `L` a match as it stands, `T` a committed turn, `A` an action and `V` one turn as a
 viewer may see it. A step is a stretch of code with no suspension or finer: broadcasts of
 single turns are separate steps, so a spectator may attach between any two of them.
 */
module Drivers {
  import opened Wrappers
  import opened Games
  import opened Runtime

  type ConnId = nat
  type TurnId = nat

  const MAX_PROTOCOL_ERRORS_PER_TURN: nat := 16

  /** What the driver asks of a game, and its settings. `act` and `actJointly` are the
      match layer's steps, drained chance nodes included; None is a refusal. */
  datatype Rules<!L, !T, !A, !V> = Rules(
    hidden: bool,
    turns: L -> seq<T>,
    view: (L, T, Viewer) -> V,
    terminal: L -> bool,
    acting: L -> seq<Seat>,
    act: (L, TableSeat, A) -> Option<L>,
    check: (L, TableSeat, A) -> bool,
    actJointly: (L, map<TableSeat, A>) -> Option<L>,
    retryBudget: nat,
    turnCap: nat)

  /** A step only adds turns, at least one, and changes no earlier turn's view. */
  ghost predicate Grows<L, T(!new), A, V>(rules: Rules<L, T, A, V>, l: L, next: L) {
    rules.turns(l) < rules.turns(next) && forall t: T, v: Viewer :: rules.view(next, t, v) == rules.view(l, t, v)
  }

  ghost predicate WellBehaved<L(!new), T(!new), A(!new), V>(rules: Rules<L, T, A, V>) {
    && (forall l: L, s: TableSeat, a: A :: rules.act(l, s, a).Some? ==> Grows(rules, l, rules.act(l, s, a).value))
    && (forall l: L, m: map<TableSeat, A> :: rules.actJointly(l, m).Some? ==> Grows(rules, l, rules.actJointly(l, m).value))
  }

  // ---------------------------------------------------------------------------
  // Sessions, frames, connections
  // ---------------------------------------------------------------------------

  datatype AbortReason =
    | TurnDeadlineExpired
    | PeerDisconnected
    | HeartbeatTimeout
    | AdapterError
    | CoreError
    | TurnLimitExceeded
    | RuntimeError

  datatype MatchSession<+L> = MatchSession(local: Option<L>, lifecycle: Lifecycle, reason: Option<AbortReason>)

  predicate Ended(lifecycle: Lifecycle) {
    lifecycle == Finished || lifecycle == Aborted
  }

  datatype TurnSeen<+V> = TurnSeen(index: nat, view: V)

  datatype Frame<+V> =
    | Welcome(lifecycle: Lifecycle, history: seq<TurnSeen<V>>)
    | TurnCommitted(turn: TurnSeen<V>)
    | MatchState(lifecycle: Lifecycle, turnCount: nat)
    | ObservationRequest(turnCount: nat)
    | ActionRejected(turnId: TurnId, retriesRemaining: nat)
    | ErrorFrame
    | FinishedFrame(history: seq<TurnSeen<V>>)
    | AbortedFrame(reason: Option<AbortReason>, history: seq<TurnSeen<V>>)
  {
    predicate Terminal() {
      FinishedFrame? || AbortedFrame?
    }
  }

  /** One socket: its viewer, what has been queued on it, a spectator's watermark, whether
      it fell behind, and whether it is still open. */
  datatype Conn<+V> = Conn(viewer: Viewer, frames: seq<Frame<V>>, nextTurn: nat, overflowed: bool, open: bool)

  /** The view a recipient gets: with perfect information, one view serves everyone. */
  function RenderAs<L, T, A, V>(rules: Rules<L, T, A, V>, viewer: Viewer): Viewer {
    if rules.hidden then viewer else Public
  }

  function TurnsOf<L, T, A, V>(rules: Rules<L, T, A, V>, s: MatchSession<L>): seq<T> {
    if s.local.Some? then rules.turns(s.local.value) else []
  }

  function TurnFor<L, T, A, V>(rules: Rules<L, T, A, V>, s: MatchSession<L>, i: nat, viewer: Viewer): TurnSeen<V>
    requires i < |TurnsOf(rules, s)|
  {
    TurnSeen(i, rules.view(s.local.value, TurnsOf(rules, s)[i], RenderAs(rules, viewer)))
  }

  /** The transcript `viewer` may receive. */
  function HistoryFor<L, T, A, V>(rules: Rules<L, T, A, V>, s: MatchSession<L>, viewer: Viewer): (r: seq<TurnSeen<V>>)
    ensures |r| == |TurnsOf(rules, s)|
    ensures forall i :: 0 <= i < |r| ==> r[i] == TurnFor(rules, s, i, viewer)
  {
    seq(|TurnsOf(rules, s)|, i requires 0 <= i < |TurnsOf(rules, s)| => TurnFor(rules, s, i, viewer))
  }

  function TerminalFrame<L, T, A, V>(rules: Rules<L, T, A, V>, s: MatchSession<L>, viewer: Viewer): (f: Frame<V>)
    ensures f.Terminal()
  {
    if s.lifecycle == Finished then FinishedFrame(HistoryFor(rules, s, viewer))
    else AbortedFrame(s.reason, HistoryFor(rules, s, viewer))
  }

  // ---------------------------------------------------------------------------
  // The driver
  // ---------------------------------------------------------------------------

  /** One seat's `_obtain` loop. */
  datatype Loop<+A> =
    | NoLoop
    | Waiting(conn: ConnId, retriesLeft: nat, protocolErrors: nat)
    | Accepted(turnId: TurnId, action: A)
    | Aborting
    | Gone

  /** The loops of the round being asked for, one per acting seat. */
  datatype Loops<+A> = Loops(loop0: Loop<A>, loop1: Loop<A>) {
    function Of(seat: TableSeat): Loop<A> {
      if seat == 0 then loop0 else loop1
    }
  }

  function NoLoops<A>(): Loops<A> {
    Loops(NoLoop, NoLoop)
  }

  function WithLoopAt<A>(loops: Loops<A>, seat: TableSeat, loop: Loop<A>): Loops<A> {
    if seat == 0 then loops.(loop0 := loop) else loops.(loop1 := loop)
  }

  /** Where `run_match` stands. */
  datatype Pc =
    | NotStarted
    | Opening
    | Broadcasting(next: nat, capped: bool)
    | AtLoop
    | Asking
    | AwaitAbort(swallow: bool)
    | Storing(announce: bool)
    | Announce
    | Ending
    | Crashed
    | CrashStoring
    | CrashEnding
    | Exited

  /** Where the one shielded abort task stands. */
  datatype AbortPc =
    | Idle
    | Requested(why: AbortReason)
    | AbortStoring
    | AbortAnnouncing
    | AbortNotifying
    | AbortDone
    | AbortFailed

  datatype Driver<+L, +A, +V> = Driver(
    session: MatchSession<L>,
    conns: map<ConnId, Conn<V>>,
    seat0: ConnId,
    seat1: ConnId,
    spectators: set<ConnId>,
    pc: Pc,
    abort: AbortPc,
    terminalSent: bool,
    loops: Loops<A>,
    judged: seq<(TableSeat, TurnId)>,
    committed: set<(TableSeat, TurnId)>,
    rejected: set<(TableSeat, TurnId)>)

  /** What goes wrong during one step: views that cannot be built, outboxes that are full,
      and any other exception. */
  datatype Trouble = Trouble(fails: set<Viewer>, full: set<ConnId>, crashes: bool)

  datatype Event<+L, +A> =
    | Start(conn0: ConnId, conn1: ConnId, local: Option<L>)
    | DriverSteps(trouble: Trouble)
    | AbortSteps(trouble: Trouble)
    | Answer(seat: TableSeat, turnId: TurnId, action: A)
    | Malformed(seat: TableSeat)
    | TimeUp(seat: TableSeat, inGrace: bool)
    | GraceOver(seat: TableSeat, timedOut: bool)
    | PickUp(seat: TableSeat)
    | Resume(seat: TableSeat, conn: ConnId, fails: bool)
    | Attach(conn: ConnId, fails: bool)
    | Detach(conn: ConnId)
    | SocketCloses(conn: ConnId)
    | FallsBehind(conn: ConnId)

  function SeatConn<L, A, V>(d: Driver<L, A, V>, seat: TableSeat): ConnId {
    if seat == 0 then d.seat0 else d.seat1
  }

  predicate IsSeatConn<L, A, V>(d: Driver<L, A, V>, c: ConnId) {
    c == d.seat0 || c == d.seat1
  }

  /** A frame is queued on an open socket with room; without room the socket has fallen
      behind and loses it. */
  function Queue<V>(conn: Conn<V>, frame: Frame<V>, room: bool): Conn<V> {
    if !conn.open then conn
    else if !room then conn.(overflowed := true)
    else conn.(frames := conn.frames + [frame])
  }

  function Send<L, A, V>(d: Driver<L, A, V>, c: ConnId, frame: Frame<V>): Driver<L, A, V> {
    if c in d.conns then d.(conns := d.conns[c := Queue(d.conns[c], frame, true)]) else d
  }

  function WithConn<L, A, V>(d: Driver<L, A, V>, c: ConnId, conn: Conn<V>): Driver<L, A, V> {
    d.(conns := d.conns[c := conn])
  }

  // ---------------------------------------------------------------------------
  // Broadcasts
  // ---------------------------------------------------------------------------

  /** A frame built per viewer. `turn` marks a turn_committed broadcast. */
  datatype Broadcast<!V> = Broadcast(turn: Option<nat>, build: Viewer -> Frame<V>)

  predicate IsRecipient<V>(b: Broadcast<V>, conn: Conn<V>) {
    b.turn.None? || conn.viewer.OfSeat? || b.turn.value >= conn.nextTurn
  }

  predicate SeatViewFails<L, T, A, V>(rules: Rules<L, T, A, V>, trouble: Trouble) {
    RenderAs(rules, OfSeat(0)) in trouble.fails || RenderAs(rules, OfSeat(1)) in trouble.fails
  }

  /** A spectator needs the public view and it cannot be built. */
  predicate PublicViewFails<L, T, A, V>(rules: Rules<L, T, A, V>, d: Driver<L, A, V>, b: Broadcast<V>, trouble: Trouble) {
    rules.hidden && Public in trouble.fails && exists c :: c in d.spectators && c in d.conns && IsRecipient(b, d.conns[c])
  }

  /** What one broadcast does to one connection. */
  function Delivered<V>(conn: Conn<V>, isSeat: bool, isSpectator: bool, b: Broadcast<V>, publicFails: bool, room: bool): Conn<V> {
    if isSeat then Queue(conn, b.build(conn.viewer), room)
    else if !isSpectator then conn
    else if publicFails then conn.(overflowed := true)
    else if !IsRecipient(b, conn) then conn
    else
      var queued := Queue(conn, b.build(conn.viewer), room);
      if b.turn.Some? then queued.(nextTurn := b.turn.value + 1) else queued
  }

  /** All views first, then all queues: without a seat's view nobody gets anything (None);
      without the public one the spectators lose their places. */
  function Broadcasted<L, T, A, V>(rules: Rules<L, T, A, V>, d: Driver<L, A, V>, b: Broadcast<V>, trouble: Trouble): Option<Driver<L, A, V>> {
    if SeatViewFails(rules, trouble) then None
    else
      var publicFails := PublicViewFails(rules, d, b, trouble);
      var conns := map c | c in d.conns ::
        Delivered(d.conns[c], IsSeatConn(d, c), c in d.spectators, b, publicFails, c !in trouble.full);
      Some(d.(conns := conns, spectators := Kept(conns, d.spectators)))
  }

  /** The spectators that have not fallen behind. */
  function Kept<V>(conns: map<ConnId, Conn<V>>, spectators: set<ConnId>): set<ConnId> {
    set c | c in spectators && c in conns && !conns[c].overflowed
  }

  function TurnBroadcast<L, T, A, V>(rules: Rules<L, T, A, V>, s: MatchSession<L>, i: nat): Broadcast<V>
    requires i < |TurnsOf(rules, s)|
  {
    Broadcast(Some(i), viewer => TurnCommitted(TurnFor(rules, s, i, viewer)))
  }

  function StateBroadcast<L, T, A, V>(rules: Rules<L, T, A, V>, s: MatchSession<L>): Broadcast<V> {
    var frame := MatchState(s.lifecycle, |TurnsOf(rules, s)|);
    Broadcast(None, _ => frame)
  }

  function TerminalBroadcast<L, T, A, V>(rules: Rules<L, T, A, V>, s: MatchSession<L>): Broadcast<V> {
    Broadcast(None, viewer => TerminalFrame(rules, s, viewer))
  }

  /** A match_state is one envelope for everyone: no view is built for it. */
  function StateTrouble(trouble: Trouble): Trouble {
    trouble.(fails := {})
  }

  // ---------------------------------------------------------------------------
  // The driver's own steps
  // ---------------------------------------------------------------------------

  function Crash<L, A, V>(d: Driver<L, A, V>): Driver<L, A, V> {
    d.(pc := Crashed, loops := NoLoops())
  }

  function Or<L, A, V>(r: Option<Driver<L, A, V>>, d: Driver<L, A, V>, pc: Pc): Driver<L, A, V> {
    if r.Some? then r.value.(pc := pc) else Crash(d)
  }

  function RequestAbort<L, A, V>(d: Driver<L, A, V>, why: AbortReason): Driver<L, A, V> {
    if d.abort == Idle && d.session.lifecycle == Running then d.(abort := Requested(why)) else d
  }

  predicate AbortInProgress(abort: AbortPc) {
    abort.Requested? || abort == AbortStoring || abort == AbortAnnouncing || abort == AbortNotifying
  }

  function BroadcastStep<L, T, A, V>(rules: Rules<L, T, A, V>, d: Driver<L, A, V>, trouble: Trouble): Driver<L, A, V>
    requires d.pc.Broadcasting?
  {
    var count := |TurnsOf(rules, d.session)|;
    if d.pc.next < count then
      Or(Broadcasted(rules, d, TurnBroadcast(rules, d.session, d.pc.next), trouble), d, Broadcasting(d.pc.next + 1, d.pc.capped))
    else if trouble.crashes then Crash(d)
    else
      var r := Broadcasted(rules, d, StateBroadcast(rules, d.session), StateTrouble(trouble));
      if r.Some? && d.pc.capped && d.session.lifecycle == Running && count >= rules.turnCap
      then RequestAbort(r.value, TurnLimitExceeded).(pc := AwaitAbort(false))
      else Or(r, d, AtLoop)
  }

  function AskSeat<L, T, A, V>(rules: Rules<L, T, A, V>, d: Driver<L, A, V>, seat: TableSeat): Driver<L, A, V> {
    var c := SeatConn(d, seat);
    Send(d, c, ObservationRequest(|TurnsOf(rules, d.session)|)).(loops := WithLoopAt(d.loops, seat, Waiting(c, rules.retryBudget, 0)))
  }

  function AskSeats<L, T, A, V>(rules: Rules<L, T, A, V>, d: Driver<L, A, V>, seats: seq<Seat>): Driver<L, A, V> {
    var start := d.(loops := NoLoops());
    if seats == [0] then AskSeat(rules, start, 0).(pc := Asking)
    else if seats == [1] then AskSeat(rules, start, 1).(pc := Asking)
    else if seats == [0, 1] then AskSeat(rules, AskSeat(rules, start, 0), 1).(pc := Asking)
    else Crash(d)
  }

  function LoopStep<L, T, A, V>(rules: Rules<L, T, A, V>, d: Driver<L, A, V>, trouble: Trouble): Driver<L, A, V> {
    if trouble.crashes then Crash(d)
    else if d.session.lifecycle == Running && d.session.local.Some? && !rules.terminal(d.session.local.value)
    then AskSeats(rules, d, rules.acting(d.session.local.value))
    else d.(pc := Storing(false))
  }

  /** Both seats act: a simultaneous round. */
  predicate Joint<A>(loops: Loops<A>) {
    !loops.loop0.NoLoop? && !loops.loop1.NoLoop?
  }

  /** Every loop there is has an accepted action. */
  predicate AllAccepted<A>(loops: Loops<A>) {
    && (loops.loop0.Accepted? || loops.loop0.NoLoop?)
    && (loops.loop1.Accepted? || loops.loop1.NoLoop?)
    && !(loops.loop0.NoLoop? && loops.loop1.NoLoop?)
  }

  function TurnIds<A>(loops: Loops<A>): set<(TableSeat, TurnId)> {
    (if loops.loop0.Accepted? then {(0, loops.loop0.turnId)} else {}) +
    (if loops.loop1.Accepted? then {(1, loops.loop1.turnId)} else {})
  }

  /** The match after the round: one seat's action, or both seats' together. */
  function Applied<L, T, A, V>(rules: Rules<L, T, A, V>, l: L, loops: Loops<A>): Option<L>
    requires AllAccepted(loops)
  {
    if Joint(loops) then rules.actJointly(l, map[0 := loops.loop0.action, 1 := loops.loop1.action])
    else if loops.loop0.Accepted? then rules.act(l, 0, loops.loop0.action)
    else rules.act(l, 1, loops.loop1.action)
  }

  function Committed<L, T, A, V>(rules: Rules<L, T, A, V>, s: MatchSession<L>, next: L): MatchSession<L> {
    s.(local := Some(next), lifecycle := if rules.terminal(next) then Finished else Running)
  }

  /** Every acting seat's action is in: apply them, and start telling everyone. */
  function CommitStep<L, T, A, V>(rules: Rules<L, T, A, V>, d: Driver<L, A, V>): Driver<L, A, V>
    requires AllAccepted(d.loops)
  {
    if d.session.local.None? then Crash(d)
    else
      match Applied(rules, d.session.local.value, d.loops)
      case None =>
        if !Joint(d.loops) then Crash(d)
        else RequestAbort(d, CoreError).(pc := AwaitAbort(false), loops := NoLoops())
      case Some(next) =>
        d.(session := Committed(rules, d.session, next),
           committed := d.committed + TurnIds(d.loops),
           pc := Broadcasting(|TurnsOf(rules, d.session)|, true),
           loops := NoLoops())
  }

  function AskingStep<L, T, A, V>(rules: Rules<L, T, A, V>, d: Driver<L, A, V>, trouble: Trouble): Driver<L, A, V> {
    if trouble.crashes then Crash(d)
    else if AllAccepted(d.loops) then CommitStep(rules, d)
    else if d.loops.loop0.Gone? || d.loops.loop1.Gone? then d.(pc := AwaitAbort(true), loops := NoLoops())
    else if d.loops.loop0.Aborting? || d.loops.loop1.Aborting? then
      if d.abort == AbortDone then d.(pc := Exited, loops := NoLoops())
      else if d.abort == AbortFailed then Crash(d)
      else d
    else d
  }

  function CrashedStep<L, A, V>(d: Driver<L, A, V>): Driver<L, A, V> {
    if AbortInProgress(d.abort) then d
    else if !Ended(d.session.lifecycle) then
      if d.abort == Idle then RequestAbort(d, RuntimeError).(pc := AwaitAbort(true)) else d.(pc := Exited)
    else if d.terminalSent then d.(pc := Exited)
    else d.(pc := CrashStoring)
  }

  function DriverStep<L, T, A, V>(rules: Rules<L, T, A, V>, d: Driver<L, A, V>, trouble: Trouble): Driver<L, A, V> {
    match d.pc
    case NotStarted => d
    case Opening => d.(pc := if d.session.lifecycle == Aborted then Storing(true) else Broadcasting(0, false))
    case Broadcasting(_, _) => BroadcastStep(rules, d, trouble)
    case AtLoop => LoopStep(rules, d, trouble)
    case Asking => AskingStep(rules, d, trouble)
    case AwaitAbort(swallow) =>
      if AbortInProgress(d.abort) then d
      else if d.abort == AbortFailed && !swallow then Crash(d)
      else d.(pc := Exited)
    case Storing(announce) => d.(pc := if announce then Announce else Ending)
    case Announce =>
      if trouble.crashes then Crash(d)
      else Or(Broadcasted(rules, d, StateBroadcast(rules, d.session), StateTrouble(trouble)), d, Ending)
    case Ending =>
      if !Ended(d.session.lifecycle) then Crash(d)
      else
        var r := Broadcasted(rules, d, TerminalBroadcast(rules, d.session), trouble);
        if r.Some? then r.value.(terminalSent := true, pc := Exited) else Crash(d)
    case Crashed => CrashedStep(d)
    case CrashStoring => d.(pc := CrashEnding)
    case CrashEnding =>
      var r := Broadcasted(rules, d, TerminalBroadcast(rules, d.session), trouble);
      if r.Some? then r.value.(pc := Exited) else d.(pc := Exited)
    case Exited => d
  }

  /** The abort task: record it, store the transcript, tell everyone. */
  function AbortStep<L, T, A, V>(rules: Rules<L, T, A, V>, d: Driver<L, A, V>, trouble: Trouble): Driver<L, A, V> {
    match d.abort
    case Requested(why) =>
      if Ended(d.session.lifecycle) then d.(abort := AbortFailed)
      else d.(session := d.session.(lifecycle := Aborted, reason := Some(why)), abort := AbortStoring)
    case AbortStoring => d.(abort := AbortAnnouncing)
    case AbortAnnouncing =>
      var r := Broadcasted(rules, d, StateBroadcast(rules, d.session), StateTrouble(trouble));
      if trouble.crashes || r.None? then d.(abort := AbortFailed) else r.value.(abort := AbortNotifying)
    case AbortNotifying =>
      var r := Broadcasted(rules, d, TerminalBroadcast(rules, d.session), trouble);
      if r.None? then d.(abort := AbortFailed) else r.value.(terminalSent := true, abort := AbortDone)
    case _ => d
  }

  // ---------------------------------------------------------------------------
  // What a seat's loop meets
  // ---------------------------------------------------------------------------

  predicate Listening<L, A, V>(d: Driver<L, A, V>, seat: TableSeat) {
    d.pc == Asking && d.loops.Of(seat).Waiting?
  }

  function WithLoop<L, A, V>(d: Driver<L, A, V>, seat: TableSeat, loop: Loop<A>): Driver<L, A, V> {
    d.(loops := WithLoopAt(d.loops, seat, loop))
  }

  function GiveUp<L, A, V>(d: Driver<L, A, V>, seat: TableSeat, why: AbortReason): Driver<L, A, V> {
    RequestAbort(WithLoop(d, seat, Aborting), why)
  }

  /** One seat's action, judged: alone it must apply; in a joint round it must be valid. */
  predicate IsAccepted<L, T, A, V>(rules: Rules<L, T, A, V>, d: Driver<L, A, V>, seat: TableSeat, action: A) {
    d.session.local.Some? &&
    if !Joint(d.loops) then rules.act(d.session.local.value, seat, action).Some?
    else rules.check(d.session.local.value, seat, action)
  }

  /** The seat hears of a refusal, and how many further attempts it had. */
  function Refused<L, A, V>(d: Driver<L, A, V>, seat: TableSeat, turnId: TurnId): Driver<L, A, V>
    requires Listening(d, seat)
  {
    Send(d.(rejected := d.rejected + {(seat, turnId)}), d.loops.Of(seat).conn, ActionRejected(turnId, d.loops.Of(seat).retriesLeft))
  }

  /** A refused action costs an attempt; after the last, the match is aborted. */
  function RejectStep<L, A, V>(d: Driver<L, A, V>, seat: TableSeat, turnId: TurnId): Driver<L, A, V>
    requires Listening(d, seat)
  {
    var loop := d.loops.Of(seat);
    if loop.retriesLeft == 0 then GiveUp(Refused(d, seat, turnId), seat, AdapterError)
    else WithLoop(Refused(d, seat, turnId), seat, loop.(retriesLeft := loop.retriesLeft - 1))
  }

  predicate IsDuplicate<L, A, V>(d: Driver<L, A, V>, seat: TableSeat, turnId: TurnId) {
    (seat, turnId) in d.committed || (seat, turnId) in d.rejected
  }

  function Judged<L, A, V>(d: Driver<L, A, V>, seat: TableSeat, turnId: TurnId): Driver<L, A, V> {
    d.(judged := d.judged + [(seat, turnId)])
  }

  function AnswerStep<L, T, A, V>(rules: Rules<L, T, A, V>, d: Driver<L, A, V>, seat: TableSeat, turnId: TurnId, action: A): Driver<L, A, V>
    requires Listening(d, seat)
  {
    if IsDuplicate(d, seat, turnId) then d
    else if IsAccepted(rules, d, seat, action) then WithLoop(Judged(d, seat, turnId), seat, Accepted(turnId, action))
    else RejectStep(Judged(d, seat, turnId), seat, turnId)
  }

  function MalformedStep<L, A, V>(d: Driver<L, A, V>, seat: TableSeat): Driver<L, A, V>
    requires Listening(d, seat)
  {
    var loop := d.loops.Of(seat);
    var told := WithLoop(Send(d, loop.conn, ErrorFrame), seat, loop.(protocolErrors := loop.protocolErrors + 1));
    if loop.protocolErrors + 1 >= MAX_PROTOCOL_ERRORS_PER_TURN && loop.conn in told.conns
    then WithConn(told, loop.conn, told.conns[loop.conn].(open := false))
    else told
  }

  /** The seat came back: its loop reads the new connection and asks again there. */
  function PickUpStep<L, T, A, V>(rules: Rules<L, T, A, V>, d: Driver<L, A, V>, seat: TableSeat): Driver<L, A, V>
    requires Listening(d, seat)
  {
    var c := SeatConn(d, seat);
    if c == d.loops.Of(seat).conn then d
    else WithLoop(Send(d, c, ObservationRequest(|TurnsOf(rules, d.session)|)), seat, Waiting(c, d.loops.Of(seat).retriesLeft, 0))
  }

  // ---------------------------------------------------------------------------
  // Handlers beside the driver
  // ---------------------------------------------------------------------------

  function StartStep<L, T, A, V>(rules: Rules<L, T, A, V>, d: Driver<L, A, V>, c0: ConnId, c1: ConnId, local: Option<L>): Driver<L, A, V> {
    if d.pc != NotStarted || c0 in d.conns || c1 in d.conns || c0 == c1 then d
    else
      var fresh0 := Conn(OfSeat(0), [], 0, false, true);
      var fresh1 := Conn(OfSeat(1), [], 0, false, true);
      var session := match local
        case None => MatchSession(None, Aborted, Some(CoreError))
        case Some(l) => MatchSession(Some(l), if rules.terminal(l) then Finished else Running, None);
      d.(session := session, conns := d.conns[c0 := fresh0][c1 := fresh1], seat0 := c0, seat1 := c1, pc := Opening)
  }

  /** A seat resumes: welcome with its transcript, match_state, then the swap, in one step. */
  function ResumeStep<L, T, A, V>(rules: Rules<L, T, A, V>, d: Driver<L, A, V>, seat: TableSeat, c: ConnId, fails: bool): Driver<L, A, V> {
    if c in d.conns || d.pc == NotStarted || d.pc == Exited || Ended(d.session.lifecycle) || fails then d
    else
      var s := d.session;
      var conn := Conn(OfSeat(seat), [Welcome(s.lifecycle, HistoryFor(rules, s, OfSeat(seat))), MatchState(s.lifecycle, |TurnsOf(rules, s)|)], 0, false, true);
      var before := SeatConn(d, seat);
      var closed := if before in d.conns then d.conns[before := d.conns[before].(open := false)] else d.conns;
      var swapped := d.(conns := closed[c := conn]);
      if seat == 0 then swapped.(seat0 := c) else swapped.(seat1 := c)
  }

  /** A spectator attaches: its welcome carries every turn so far and sets its watermark. */
  function AttachStep<L, T, A, V>(rules: Rules<L, T, A, V>, d: Driver<L, A, V>, c: ConnId, fails: bool): Driver<L, A, V> {
    if c in d.conns || fails then d
    else
      var s := d.session;
      var conn := Conn(Public, [Welcome(s.lifecycle, HistoryFor(rules, s, Public))], |TurnsOf(rules, s)|, false, true);
      if Ended(s.lifecycle) then WithConn(d, c, conn.(open := false))
      else WithConn(d, c, conn).(spectators := d.spectators + {c})
  }

  function Next<L, T, A, V>(rules: Rules<L, T, A, V>, d: Driver<L, A, V>, e: Event<L, A>): Driver<L, A, V> {
    match e
    case Start(c0, c1, local) => StartStep(rules, d, c0, c1, local)
    case DriverSteps(trouble) => DriverStep(rules, d, trouble)
    case AbortSteps(trouble) => AbortStep(rules, d, trouble)
    case Answer(seat, turnId, action) =>
      if !Listening(d, seat) then d
      else if d.session.lifecycle != Running then WithLoop(d, seat, Gone)
      else AnswerStep(rules, d, seat, turnId, action)
    case Malformed(seat) =>
      if !Listening(d, seat) then d
      else if d.session.lifecycle != Running then WithLoop(d, seat, Gone)
      else MalformedStep(d, seat)
    case TimeUp(seat, inGrace) =>
      if !Listening(d, seat) then d
      else if d.session.lifecycle != Running && !inGrace then WithLoop(d, seat, Gone)
      else GiveUp(d, seat, TurnDeadlineExpired)
    case GraceOver(seat, timedOut) =>
      if Listening(d, seat) then GiveUp(d, seat, if timedOut then HeartbeatTimeout else PeerDisconnected) else d
    case PickUp(seat) => if Listening(d, seat) then PickUpStep(rules, d, seat) else d
    case Resume(seat, c, fails) => ResumeStep(rules, d, seat, c, fails)
    case Attach(c, fails) => AttachStep(rules, d, c, fails)
    case Detach(c) => d.(spectators := d.spectators - {c})
    case SocketCloses(c) => if c in d.conns then WithConn(d, c, d.conns[c].(open := false)) else d
    case FallsBehind(c) => if c in d.conns then WithConn(d, c, d.conns[c].(overflowed := true)) else d
  }

  function NewDriver<L, A, V>(): Driver<L, A, V> {
    Driver(MatchSession(None, Created, None), map[], 0, 0, {}, NotStarted, Idle, false, NoLoops(), [], {}, {})
  }

  /** The driver after a list of events, from its creation. */
  function Run<L, T, A, V>(rules: Rules<L, T, A, V>, events: seq<Event<L, A>>): Driver<L, A, V>
    decreases |events|
  {
    if events == [] then NewDriver()
    else Next(rules, Run(rules, events[..|events| - 1]), events[|events| - 1])
  }
}

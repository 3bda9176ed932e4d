/** What each step of the driver queues on each connection, seen through any choice of
    frames. */
module DriverFrames {
  import opened Wrappers
  import opened Games
  import opened Runtime
  import opened Drivers
  import opened DriverControl

  /** The frames of one kind among a connection's frames, in order. */
  function Picked<V>(p: Frame<V> -> bool, frames: seq<Frame<V>>): seq<Frame<V>>
    decreases |frames|
  {
    if frames == [] then []
    else
      var rest := Picked(p, frames[..|frames| - 1]);
      if p(frames[|frames| - 1]) then rest + [frames[|frames| - 1]] else rest
  }

  lemma PickedSnoc<V>(p: Frame<V> -> bool, frames: seq<Frame<V>>, f: Frame<V>)
    ensures Picked(p, frames + [f]) == if p(f) then Picked(p, frames) + [f] else Picked(p, frames)
  {
    assert (frames + [f])[..|frames|] == frames;
  }

  /** A kind that leaves out the frames of a turn's business: requests, rejections, errors
      and match_state. */
  ghost predicate Plain<V>(p: Frame<V> -> bool) {
    !p(ErrorFrame) && NoRequests(p) && NoRejections(p) && NoStates(p)
  }

  ghost predicate NoRequests<V>(p: Frame<V> -> bool) {
    forall n: nat :: !p(ObservationRequest(n))
  }

  ghost predicate NoRejections<V>(p: Frame<V> -> bool) {
    forall n: nat, id: TurnId :: !p(ActionRejected(id, n))
  }

  ghost predicate NoStates<V>(p: Frame<V> -> bool) {
    forall n: nat, l: Lifecycle :: !p(MatchState(l, n))
  }

  /** A connection keeps its viewer, and once closed or fallen behind stays so. */
  predicate Later<V>(conn: Conn<V>, conn': Conn<V>) {
    && conn'.viewer == conn.viewer
    && (conn'.open ==> conn.open)
    && (conn.overflowed ==> conn'.overflowed)
  }

  /** A connection was queued nothing of the kind. */
  predicate SameFor<V(==)>(p: Frame<V> -> bool, conn: Conn<V>, conn': Conn<V>) {
    Later(conn, conn') && Picked(p, conn'.frames) == Picked(p, conn.frames) && conn'.nextTurn == conn.nextTurn
  }

  /** Every connection is kept and queued nothing of the kind. */
  ghost predicate Same<V>(p: Frame<V> -> bool, conns: map<ConnId, Conn<V>>, conns': map<ConnId, Conn<V>>) {
    conns.Keys <= conns'.Keys && forall c :: c in conns ==> SameFor(p, conns[c], conns'[c])
  }

  lemma QueuePicked<V>(p: Frame<V> -> bool, conn: Conn<V>, f: Frame<V>, room: bool)
    ensures var q := Queue(conn, f, room);
            && Later(conn, q) && q.nextTurn == conn.nextTurn && q.open == conn.open
            && (!p(f) ==> Picked(p, q.frames) == Picked(p, conn.frames))
            && (conn.open && room && p(f) ==> Picked(p, q.frames) == Picked(p, conn.frames) + [f])
            && (!conn.open || !room ==> q.frames == conn.frames)
            && (conn.open && !room ==> q.overflowed)
  {
    PickedSnoc(p, conn.frames, f);
  }

  lemma PutSame<V>(p: Frame<V> -> bool, conns: map<ConnId, Conn<V>>, c: ConnId, conn: Conn<V>)
    requires c in conns ==> SameFor(p, conns[c], conn)
    ensures Same(p, conns, conns[c := conn])
    ensures c in conns ==> conns[c := conn].Keys == conns.Keys
  {
  }

  lemma SameTwice<V>(p: Frame<V> -> bool, a: map<ConnId, Conn<V>>, b: map<ConnId, Conn<V>>, c: map<ConnId, Conn<V>>)
    requires Same(p, a, b) && Same(p, b, c)
    ensures Same(p, a, c)
  {
  }

  lemma SendSame<L, A, V>(p: Frame<V> -> bool, d: Driver<L, A, V>, c: ConnId, f: Frame<V>)
    requires !p(f)
    ensures Same(p, d.conns, Send(d, c, f).conns)
    ensures Send(d, c, f).conns.Keys == d.conns.Keys
  {
    if c in d.conns {
      QueuePicked(p, d.conns[c], f, true);
      PutSame(p, d.conns, c, Queue(d.conns[c], f, true));
    }
  }

  // ---------------------------------------------------------------------------
  // Broadcasts
  // ---------------------------------------------------------------------------

  /** A broadcast keeps every connection and its viewer, and adds no spectator. */
  lemma BroadcastSeats<L, T, A, V>(rules: Rules<L, T, A, V>, d: Driver<L, A, V>, b: Broadcast<V>, trouble: Trouble)
    requires Broadcasted(rules, d, b, trouble).Some?
    ensures var d' := Broadcasted(rules, d, b, trouble).value;
            && d'.conns.Keys == d.conns.Keys && d'.spectators <= d.spectators
            && forall c :: c in d.conns ==> Later(d.conns[c], d'.conns[c])
  {
  }

  lemma BroadcastSame<L, T, A, V>(p: Frame<V> -> bool, rules: Rules<L, T, A, V>, d: Driver<L, A, V>, b: Broadcast<V>, trouble: Trouble)
    requires b.turn.None? && forall v :: !p(b.build(v))
    requires Broadcasted(rules, d, b, trouble).Some?
    ensures Same(p, d.conns, Broadcasted(rules, d, b, trouble).value.conns)
  {
    var d' := Broadcasted(rules, d, b, trouble).value;
    forall c | c in d.conns
      ensures SameFor(p, d.conns[c], d'.conns[c])
    {
      QueuePicked(p, d.conns[c], b.build(d.conns[c].viewer), c !in trouble.full);
    }
  }

  lemma StateBroadcastSame<L, T, A, V>(p: Frame<V> -> bool, rules: Rules<L, T, A, V>, d: Driver<L, A, V>, trouble: Trouble)
    requires NoStates(p)
    ensures var r := Broadcasted(rules, d, StateBroadcast(rules, d.session), StateTrouble(trouble));
            r.Some? && Same(p, d.conns, r.value.conns) && r.value.conns.Keys == d.conns.Keys
  {
    BroadcastSame(p, rules, d, StateBroadcast(rules, d.session), StateTrouble(trouble));
  }

  lemma TerminalBroadcastSame<L, T, A, V>(p: Frame<V> -> bool, rules: Rules<L, T, A, V>, d: Driver<L, A, V>, trouble: Trouble)
    requires forall v :: !p(TerminalFrame(rules, d.session, v))
    ensures var r := Broadcasted(rules, d, TerminalBroadcast(rules, d.session), trouble);
            r.Some? ==> Same(p, d.conns, r.value.conns) && r.value.conns.Keys == d.conns.Keys
  {
    if Broadcasted(rules, d, TerminalBroadcast(rules, d.session), trouble).Some? {
      BroadcastSame(p, rules, d, TerminalBroadcast(rules, d.session), trouble);
    }
  }

  // ---------------------------------------------------------------------------
  // The driver's steps
  // ---------------------------------------------------------------------------

  /** The steps that broadcast a turn_committed. */
  predicate TellsTurn<L, T, A, V>(rules: Rules<L, T, A, V>, d: Driver<L, A, V>, e: Event<L, A>) {
    e.DriverSteps? && d.pc.Broadcasting? && d.pc.next < |TurnsOf(rules, d.session)|
  }

  /** The steps that may broadcast a terminal frame. */
  predicate EndsTheMatch<L, A, V>(d: Driver<L, A, V>, e: Event<L, A>) {
    || (e.DriverSteps? && (d.pc == Ending || d.pc == CrashEnding))
    || (e.AbortSteps? && d.abort == AbortNotifying)
  }

  /** The steps that admit a new connection. */
  predicate Admits<L, A>(e: Event<L, A>) {
    e.Start? || e.Resume? || e.Attach?
  }

  lemma AskSeatsConns<L, T, A, V>(rules: Rules<L, T, A, V>, d: Driver<L, A, V>, seats: seq<Seat>)
    ensures var f: Frame<V> := ObservationRequest(|TurnsOf(rules, d.session)|);
            AskSeats(rules, d, seats).conns ==
            (if seats == [0] then Send(d, d.seat0, f).conns
             else if seats == [1] then Send(d, d.seat1, f).conns
             else if seats == [0, 1] then Send(Send(d, d.seat0, f), d.seat1, f).conns
             else d.conns)
  {
  }

  lemma AskSeatsSame<L, T, A, V>(p: Frame<V> -> bool, rules: Rules<L, T, A, V>, d: Driver<L, A, V>, seats: seq<Seat>)
    requires NoRequests(p)
    ensures Same(p, d.conns, AskSeats(rules, d, seats).conns)
    ensures AskSeats(rules, d, seats).conns.Keys == d.conns.Keys
  {
    var f: Frame<V> := ObservationRequest(|TurnsOf(rules, d.session)|);
    var first := Send(d, d.seat0, f);
    SendSame(p, d, d.seat0, f);
    SendSame(p, d, d.seat1, f);
    SendSame(p, first, d.seat1, f);
    SameTwice(p, d.conns, first.conns, Send(first, d.seat1, f).conns);
    AskSeatsConns(rules, d, seats);
  }

  lemma LastBroadcastSame<L, T, A, V>(p: Frame<V> -> bool, rules: Rules<L, T, A, V>, d: Driver<L, A, V>, trouble: Trouble)
    requires NoStates(p) && d.pc.Broadcasting? && d.pc.next >= |TurnsOf(rules, d.session)|
    ensures Same(p, d.conns, BroadcastStep(rules, d, trouble).conns)
    ensures BroadcastStep(rules, d, trouble).conns.Keys == d.conns.Keys
  {
    StateBroadcastSame(p, rules, d, trouble);
  }

  lemma DriverStepSame<L, T, A, V>(p: Frame<V> -> bool, rules: Rules<L, T, A, V>, d: Driver<L, A, V>, trouble: Trouble)
    requires NoStates(p) && (d.pc == AtLoop ==> NoRequests(p)) && !TellsTurn(rules, d, DriverSteps(trouble)) && d.pc != Ending && d.pc != CrashEnding
    ensures Same(p, d.conns, DriverStep(rules, d, trouble).conns)
    ensures DriverStep(rules, d, trouble).conns.Keys == d.conns.Keys
  {
    match d.pc
    case Broadcasting(_, _) => LastBroadcastSame(p, rules, d, trouble);
    case AtLoop =>
      if d.session.local.Some? {
        AskSeatsSame(p, rules, d, rules.acting(d.session.local.value));
      }
    case Announce => StateBroadcastSame(p, rules, d, trouble);
    case _ =>
  }

  lemma EndingSame<L, T, A, V>(p: Frame<V> -> bool, rules: Rules<L, T, A, V>, d: Driver<L, A, V>, e: Event<L, A>)
    requires EndsTheMatch(d, e) && forall v :: !p(TerminalFrame(rules, d.session, v))
    ensures Same(p, d.conns, Next(rules, d, e).conns)
    ensures Next(rules, d, e).conns.Keys == d.conns.Keys
  {
    TerminalBroadcastSame(p, rules, d, e.trouble);
  }

  lemma AbortStepSame<L, T, A, V>(p: Frame<V> -> bool, rules: Rules<L, T, A, V>, d: Driver<L, A, V>, trouble: Trouble)
    requires NoStates(p) && d.abort != AbortNotifying
    ensures Same(p, d.conns, AbortStep(rules, d, trouble).conns)
    ensures AbortStep(rules, d, trouble).conns.Keys == d.conns.Keys
  {
    StateBroadcastSame(p, rules, d, trouble);
  }

  /** A refusal queues one frame, on the connection its loop reads. */
  lemma RejectConns<L, A, V>(d: Driver<L, A, V>, seat: TableSeat, turnId: TurnId)
    requires Listening(d, seat)
    ensures RejectStep(d, seat, turnId).conns == Send(d, d.loops.Of(seat).conn, ActionRejected(turnId, d.loops.Of(seat).retriesLeft)).conns
  {
  }

  lemma AnswerSame<L, T, A, V>(p: Frame<V> -> bool, rules: Rules<L, T, A, V>, d: Driver<L, A, V>, seat: TableSeat, turnId: TurnId, action: A)
    requires NoRejections(p) && Listening(d, seat)
    ensures Same(p, d.conns, AnswerStep(rules, d, seat, turnId, action).conns)
    ensures AnswerStep(rules, d, seat, turnId, action).conns.Keys == d.conns.Keys
  {
    var j := Judged(d, seat, turnId);
    RejectConns(j, seat, turnId);
    SendSame(p, j, j.loops.Of(seat).conn, ActionRejected(turnId, j.loops.Of(seat).retriesLeft));
  }

  lemma MalformedConns<L, A, V>(d: Driver<L, A, V>, seat: TableSeat)
    requires Listening(d, seat)
    ensures var c := d.loops.Of(seat).conn;
            var told := Send(d, c, ErrorFrame).conns;
            var r := MalformedStep(d, seat).conns;
            r == told || (c in told && r == told[c := told[c].(open := false)])
  {
  }

  lemma MalformedSame<L, A, V>(p: Frame<V> -> bool, d: Driver<L, A, V>, seat: TableSeat)
    requires !p(ErrorFrame) && Listening(d, seat)
    ensures Same(p, d.conns, MalformedStep(d, seat).conns)
    ensures MalformedStep(d, seat).conns.Keys == d.conns.Keys
  {
    var c := d.loops.Of(seat).conn;
    var told := Send(d, c, ErrorFrame).conns;
    SendSame(p, d, c, ErrorFrame);
    MalformedConns(d, seat);
    if c in told {
      PutSame(p, told, c, told[c].(open := false));
      SameTwice(p, d.conns, told, told[c := told[c].(open := false)]);
    }
  }

  lemma SeatStepSame<L, T, A, V>(p: Frame<V> -> bool, rules: Rules<L, T, A, V>, d: Driver<L, A, V>, e: Event<L, A>)
    requires e.Answer? || e.Malformed? || e.TimeUp? || e.GraceOver? || e.PickUp?
    requires !p(ErrorFrame) && (e.Answer? ==> NoRejections(p)) && (e.PickUp? ==> NoRequests(p))
    ensures Same(p, d.conns, Next(rules, d, e).conns)
    ensures Next(rules, d, e).conns.Keys == d.conns.Keys
  {
    if Listening(d, e.seat) {
      match e
      case Answer(seat, turnId, action) => AnswerSame(p, rules, d, seat, turnId, action);
      case Malformed(seat) => MalformedSame(p, d, seat);
      case PickUp(seat) => SendSame(p, d, SeatConn(d, seat), ObservationRequest(|TurnsOf(rules, d.session)|));
      case _ =>
    }
  }

  lemma ResumeSame<L, T, A, V>(p: Frame<V> -> bool, rules: Rules<L, T, A, V>, d: Driver<L, A, V>, seat: TableSeat, c: ConnId, fails: bool)
    ensures Same(p, d.conns, ResumeStep(rules, d, seat, c, fails).conns)
  {
    var before := SeatConn(d, seat);
    if before in d.conns {
      PutSame(p, d.conns, before, d.conns[before].(open := false));
    }
  }

  /** The admitting steps add connections and queue nothing on the ones there were. */
  lemma HandlerSame<L, T, A, V>(p: Frame<V> -> bool, rules: Rules<L, T, A, V>, d: Driver<L, A, V>, e: Event<L, A>)
    requires Admits(e) || e.Detach? || e.SocketCloses? || e.FallsBehind?
    ensures Same(p, d.conns, Next(rules, d, e).conns)
    ensures !Admits(e) ==> Next(rules, d, e).conns.Keys == d.conns.Keys
  {
    match e
    case Resume(seat, c, fails) => ResumeSame(p, rules, d, seat, c, fails);
    case _ =>
  }

  lemma NextSame<L, T, A, V>(p: Frame<V> -> bool, rules: Rules<L, T, A, V>, d: Driver<L, A, V>, e: Event<L, A>)
    requires !p(ErrorFrame) && NoStates(p) && !TellsTurn(rules, d, e)
    requires (e.Answer? ==> NoRejections(p)) && (e.PickUp? || (e.DriverSteps? && d.pc == AtLoop) ==> NoRequests(p))
    requires EndsTheMatch(d, e) ==> forall v :: !p(TerminalFrame(rules, d.session, v))
    ensures Same(p, d.conns, Next(rules, d, e).conns)
    ensures !Admits(e) ==> Next(rules, d, e).conns.Keys == d.conns.Keys
  {
    if EndsTheMatch(d, e) {
      EndingSame(p, rules, d, e);
    } else {
      match e
      case DriverSteps(trouble) => DriverStepSame(p, rules, d, trouble);
      case AbortSteps(trouble) => AbortStepSame(p, rules, d, trouble);
      case Answer(_, _, _) => SeatStepSame(p, rules, d, e);
      case Malformed(_) => SeatStepSame(p, rules, d, e);
      case TimeUp(_, _) => SeatStepSame(p, rules, d, e);
      case GraceOver(_, _) => SeatStepSame(p, rules, d, e);
      case PickUp(_) => SeatStepSame(p, rules, d, e);
      case _ => HandlerSame(p, rules, d, e);
    }
  }

  /** A turn broadcast queues nothing of a kind without turns; only watermarks move. */
  lemma TurnStepPicks<L, T, A, V>(p: Frame<V> -> bool, rules: Rules<L, T, A, V>, d: Driver<L, A, V>, e: Event<L, A>)
    requires TellsTurn(rules, d, e) && forall t :: !p(TurnCommitted(t))
    ensures var conns := Next(rules, d, e).conns;
            && conns.Keys == d.conns.Keys
            && forall c :: c in d.conns ==> Later(d.conns[c], conns[c]) && Picked(p, conns[c].frames) == Picked(p, d.conns[c].frames)
  {
    var b := TurnBroadcast(rules, d.session, d.pc.next);
    var r := Broadcasted(rules, d, b, e.trouble);
    if r.Some? {
      BroadcastSeats(rules, d, b, e.trouble);
      forall c | c in d.conns
        ensures Picked(p, r.value.conns[c].frames) == Picked(p, d.conns[c].frames)
      {
        QueuePicked(p, d.conns[c], b.build(d.conns[c].viewer), c !in e.trouble.full);
      }
    }
  }

  // ---------------------------------------------------------------------------
  // New connections
  // ---------------------------------------------------------------------------

  /** What a new connection starts with: a seat joining the start, a seat resuming, or a
      spectator. */
  predicate Newcomer<L, T, A, V(==)>(rules: Rules<L, T, A, V>, d: Driver<L, A, V>, e: Event<L, A>, conn: Conn<V>) {
    var s := d.session;
    match e
    case Start(_, _, _) => conn == Conn(OfSeat(0), [], 0, false, true) || conn == Conn(OfSeat(1), [], 0, false, true)
    case Resume(seat, _, _) =>
      conn == Conn(OfSeat(seat), [Welcome(s.lifecycle, HistoryFor(rules, s, OfSeat(seat))), MatchState(s.lifecycle, |TurnsOf(rules, s)|)], 0, false, true)
    case Attach(_, _) =>
      conn == Conn(Public, [Welcome(s.lifecycle, HistoryFor(rules, s, Public))], |TurnsOf(rules, s)|, false, !Ended(s.lifecycle))
    case _ => false
  }

  lemma NewConns<L, T, A, V>(rules: Rules<L, T, A, V>, d: Driver<L, A, V>, e: Event<L, A>, c: ConnId)
    requires Admits(e) && c in Next(rules, d, e).conns && c !in d.conns
    ensures Newcomer(rules, d, e, Next(rules, d, e).conns[c])
  {
  }

  lemma NewcomerPicked<L, T, A, V>(p: Frame<V> -> bool, rules: Rules<L, T, A, V>, d: Driver<L, A, V>, e: Event<L, A>, conn: Conn<V>)
    requires NoStates(p) && Newcomer(rules, d, e, conn)
    ensures Picked(p, conn.frames) ==
            if e.Start? then [] else
            var w := Welcome(d.session.lifecycle, HistoryFor(rules, d.session, conn.viewer));
            if p(w) then [w] else []
  {
    if !e.Start? {
      var welcome: seq<Frame<V>> := [Welcome(d.session.lifecycle, HistoryFor(rules, d.session, conn.viewer))];
      var state: Frame<V> := MatchState(d.session.lifecycle, |TurnsOf(rules, d.session)|);
      PickedSnoc(p, [], welcome[0]);
      PickedSnoc(p, welcome, state);
      assert [] + [welcome[0]] == welcome;
      assert welcome + [state] == [welcome[0], state];
    }
  }

  // ---------------------------------------------------------------------------
  // Who is seated and who watches
  // ---------------------------------------------------------------------------

  /** What a step leaves alone: who is seated, and that nobody new watches. */
  predicate SameSeats<L, A, V>(d: Driver<L, A, V>, d': Driver<L, A, V>) {
    && d'.seat0 == d.seat0 && d'.seat1 == d.seat1 && d'.spectators <= d.spectators
    && (d'.pc == NotStarted <==> d.pc == NotStarted)
  }

  lemma BroadcastStepSeats<L, T, A, V>(rules: Rules<L, T, A, V>, d: Driver<L, A, V>, trouble: Trouble)
    requires d.pc.Broadcasting?
    ensures SameSeats(d, BroadcastStep(rules, d, trouble))
  {
  }

  lemma AskingStepSeats<L, T, A, V>(rules: Rules<L, T, A, V>, d: Driver<L, A, V>, trouble: Trouble)
    requires d.pc == Asking
    ensures SameSeats(d, AskingStep(rules, d, trouble))
  {
  }

  lemma DriverStepSeats<L, T, A, V>(rules: Rules<L, T, A, V>, d: Driver<L, A, V>, trouble: Trouble)
    ensures SameSeats(d, DriverStep(rules, d, trouble))
  {
    match d.pc
    case Broadcasting(_, _) => BroadcastStepSeats(rules, d, trouble);
    case Asking => AskingStepSeats(rules, d, trouble);
    case AtLoop =>
      if d.session.local.Some? {
        AskSeatsOnlyAsks(rules, d, rules.acting(d.session.local.value));
      }
    case _ =>
  }

  lemma RejectSeats<L, A, V>(d: Driver<L, A, V>, seat: TableSeat, turnId: TurnId)
    requires Listening(d, seat)
    ensures var d' := RejectStep(d, seat, turnId);
            SameSeats(d, d') && d'.session == d.session && d'.pc == d.pc
  {
  }

  lemma MalformedSeats<L, A, V>(d: Driver<L, A, V>, seat: TableSeat)
    requires Listening(d, seat)
    ensures var d' := MalformedStep(d, seat);
            SameSeats(d, d') && d'.session == d.session && d'.pc == d.pc
  {
  }

  lemma AnswerSeats<L, T, A, V>(rules: Rules<L, T, A, V>, d: Driver<L, A, V>, seat: TableSeat, turnId: TurnId, action: A)
    requires Listening(d, seat)
    ensures var d' := AnswerStep(rules, d, seat, turnId, action);
            SameSeats(d, d') && d'.session == d.session && d'.pc == d.pc
  {
    RejectSeats(Judged(d, seat, turnId), seat, turnId);
  }

  lemma SeatStepSeats<L, T, A, V>(rules: Rules<L, T, A, V>, d: Driver<L, A, V>, e: Event<L, A>)
    requires e.Answer? || e.Malformed? || e.TimeUp? || e.GraceOver? || e.PickUp?
    ensures SameSeats(d, Next(rules, d, e)) && Next(rules, d, e).session == d.session && Next(rules, d, e).pc == d.pc
  {
    if Listening(d, e.seat) {
      match e
      case Answer(seat, turnId, action) => AnswerSeats(rules, d, seat, turnId, action);
      case Malformed(seat) => MalformedSeats(d, seat);
      case TimeUp(_, _) =>
      case GraceOver(_, _) =>
      case PickUp(_) =>
    }
  }

  /** Only the handlers seat or admit anyone. */
  lemma StepSeats<L, T, A, V>(rules: Rules<L, T, A, V>, d: Driver<L, A, V>, e: Event<L, A>)
    requires !Admits(e)
    ensures SameSeats(d, Next(rules, d, e))
  {
    match e
    case DriverSteps(trouble) => DriverStepSeats(rules, d, trouble);
    case AbortSteps(_) =>
    case Detach(_) =>
    case SocketCloses(_) =>
    case FallsBehind(_) =>
    case _ => SeatStepSeats(rules, d, e);
  }

  /** The seats hold distinct connections of their own; spectators watch as the public. */
  ghost predicate Seated<L, A, V>(d: Driver<L, A, V>) {
    && (d.pc != NotStarted ==>
          && d.seat0 in d.conns && d.conns[d.seat0].viewer == OfSeat(0)
          && d.seat1 in d.conns && d.conns[d.seat1].viewer == OfSeat(1))
    && (forall c :: c in d.spectators ==> c in d.conns && d.conns[c].viewer == Public)
    && (d.pc == NotStarted ==> forall c :: c in d.conns ==> d.conns[c].viewer == Public)
  }

  lemma SeatedHandler<L, T, A, V>(rules: Rules<L, T, A, V>, d: Driver<L, A, V>, e: Event<L, A>)
    requires Seated(d) && Admits(e)
    ensures Seated(Next(rules, d, e))
  {
  }

  lemma TurnStepSeated<L, T, A, V>(rules: Rules<L, T, A, V>, d: Driver<L, A, V>, e: Event<L, A>)
    requires Seated(d) && TellsTurn(rules, d, e)
    ensures Seated(Next(rules, d, e))
  {
    var b := TurnBroadcast(rules, d.session, d.pc.next);
    if Broadcasted(rules, d, b, e.trouble).Some? {
      BroadcastSeats(rules, d, b, e.trouble);
      BroadcastOnlySends(rules, d, b, e.trouble);
    }
  }

  lemma SeatedNext<L, T, A, V>(rules: Rules<L, T, A, V>, d: Driver<L, A, V>, e: Event<L, A>)
    requires Seated(d)
    ensures Seated(Next(rules, d, e))
  {
    if Admits(e) {
      SeatedHandler(rules, d, e);
    } else if TellsTurn(rules, d, e) {
      TurnStepSeated(rules, d, e);
    } else {
      NextSame((f: Frame<V>) => false, rules, d, e);
      StepSeats(rules, d, e);
    }
  }
}

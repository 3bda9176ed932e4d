/**
 What bounds and ends a match: how long a round may be asked for, what each way of stopping is
 called, how many malformed frames a seat may send, and how an ended match is told.
 */
module DriverLimits {
  import opened Wrappers
  import opened Games
  import opened Runtime
  import opened Drivers
  import opened DriverControl
  import opened DriverFrames
  import opened DriverRounds
  import opened DriverAnswers
  import opened DriverTruth

  // ---------------------------------------------------------------------------
  // How a session stands
  // ---------------------------------------------------------------------------

  /** Running exactly while the game goes on, finished exactly when it is over, and aborted for
      a reason, the engine's fault if there never was a match. */
  predicate StandsRightly<L, T, A, V>(rules: Rules<L, T, A, V>, s: MatchSession<L>) {
    match s.lifecycle
    case Created => s.local.None? && s.reason.None?
    case Running => s.local.Some? && !rules.terminal(s.local.value) && s.reason.None?
    case Finished => s.local.Some? && rules.terminal(s.local.value) && s.reason.None?
    case Aborted => s.reason.Some? && (s.local.None? ==> s.reason == Some(CoreError))
  }

  /** Only a start, a commit and an abort change a session. */
  lemma SessionMoves<L, T, A, V>(rules: Rules<L, T, A, V>, d: Driver<L, A, V>, e: Event<L, A>)
    requires Control(d)
    ensures var d' := Next(rules, d, e);
            || d'.session == d.session
            || (e.Start? && d.pc == NotStarted)
            || (e.DriverSteps? && d.pc == Asking && AllAccepted(d.loops) && d.abort == Idle && d'.session == CommitStep(rules, d).session)
            || (e.AbortSteps? && d.abort.Requested? && d'.session == d.session.(lifecycle := Aborted, reason := Some(d.abort.why)))
  {
    match e
    case DriverSteps(trouble) =>
      if d.pc == AtLoop && d.session.local.Some? {
        AskSeatsOnlyAsks(rules, d, rules.acting(d.session.local.value));
      } else if d.pc == Asking && Stopped(d.loops) {
        StoppedIsNotAccepted(d.loops);
      }
    case AbortSteps(_) =>
    case Start(_, _, _) =>
    case Resume(_, _, _) =>
    case Attach(_, _) =>
    case Detach(_) =>
    case SocketCloses(_) =>
    case FallsBehind(_) =>
    case _ => SeatStepSeats(rules, d, e);
  }

  lemma NextStandsRightly<L, T, A, V>(rules: Rules<L, T, A, V>, d: Driver<L, A, V>, e: Event<L, A>)
    requires Control(d) && StandsRightly(rules, d.session)
    ensures StandsRightly(rules, Next(rules, d, e).session)
  {
    SessionMoves(rules, d, e);
  }

  lemma {:induction false} SessionsStandRightly<L, T, A, V>(rules: Rules<L, T, A, V>, events: seq<Event<L, A>>)
    ensures StandsRightly(rules, Run(rules, events).session)
    decreases |events|
  {
    if events != [] {
      SessionsStandRightly(rules, events[..|events| - 1]);
      RunControl(rules, events[..|events| - 1]);
      NextStandsRightly(rules, Run(rules, events[..|events| - 1]), events[|events| - 1]);
    }
  }

  // ---------------------------------------------------------------------------
  // The turn limit
  // ---------------------------------------------------------------------------

  /** Past its first round, a match is asked for another only below the limit. */
  predicate BelowLimit<L, T, A, V>(rules: Rules<L, T, A, V>, d: Driver<L, A, V>) {
    && (d.pc == NotStarted || d.pc == Opening || (d.pc.Broadcasting? && !d.pc.capped) ==> d.committed == {})
    && ((d.pc == AtLoop && d.session.lifecycle == Running) || d.pc == Asking ==>
          d.committed == {} || TurnCount(rules, d.session) < rules.turnCap)
  }

  lemma BroadcastStepLimits<L, T, A, V>(rules: Rules<L, T, A, V>, d: Driver<L, A, V>, trouble: Trouble)
    requires d.pc.Broadcasting? && BelowLimit(rules, d)
    ensures BelowLimit(rules, BroadcastStep(rules, d, trouble))
  {
  }

  lemma DriverStepLimits<L, T, A, V>(rules: Rules<L, T, A, V>, d: Driver<L, A, V>, trouble: Trouble)
    requires BelowLimit(rules, d)
    ensures BelowLimit(rules, DriverStep(rules, d, trouble))
  {
    if d.pc.Broadcasting? {
      BroadcastStepLimits(rules, d, trouble);
    } else if d.pc == AtLoop && d.session.local.Some? {
      AskSeatsOnlyAsks(rules, d, rules.acting(d.session.local.value));
    }
  }

  lemma SeatStepCommits<L, T, A, V>(rules: Rules<L, T, A, V>, d: Driver<L, A, V>, e: Event<L, A>)
    requires e.Answer? || e.Malformed? || e.TimeUp? || e.GraceOver? || e.PickUp?
    ensures Next(rules, d, e).committed == d.committed
  {
    if e.Answer? && Listening(d, e.seat) {
      RefusedOnlySends(Judged(d, e.seat, e.turnId), e.seat, e.turnId);
    }
  }

  lemma NextLimits<L, T, A, V>(rules: Rules<L, T, A, V>, d: Driver<L, A, V>, e: Event<L, A>)
    requires Control(d) && BelowLimit(rules, d)
    ensures BelowLimit(rules, Next(rules, d, e))
  {
    match e
    case DriverSteps(trouble) => DriverStepLimits(rules, d, trouble);
    case AbortSteps(_) =>
    case Start(_, _, _) =>
    case Resume(_, _, _) =>
    case Attach(_, _) =>
    case Detach(_) =>
    case SocketCloses(_) =>
    case FallsBehind(_) =>
    case _ =>
      SeatStepSeats(rules, d, e);
      SeatStepCommits(rules, d, e);
  }

  /** No round is asked for at or past the turn limit, but for the very first of a match that
      opens with that many turns. */
  lemma {:induction false} NoRoundPastTheLimit<L, T, A, V>(rules: Rules<L, T, A, V>, events: seq<Event<L, A>>)
    ensures BelowLimit(rules, Run(rules, events))
    decreases |events|
  {
    if events != [] {
      NoRoundPastTheLimit(rules, events[..|events| - 1]);
      RunControl(rules, events[..|events| - 1]);
      NextLimits(rules, Run(rules, events[..|events| - 1]), events[|events| - 1]);
    }
  }

  // ---------------------------------------------------------------------------
  // What a broadcast brings a seat
  // ---------------------------------------------------------------------------

  /** The seat's connection, open and with room for what comes. */
  predicate IsReached<L, A, V>(d: Driver<L, A, V>, seat: TableSeat, trouble: Trouble) {
    SeatConn(d, seat) in d.conns && d.conns[SeatConn(d, seat)].open && SeatConn(d, seat) !in trouble.full
  }

  /** A seat's connection holds these frames more. */
  predicate Hears<L, A, V(==)>(d: Driver<L, A, V>, d': Driver<L, A, V>, seat: TableSeat, frames: seq<Frame<V>>) {
    var c := SeatConn(d, seat);
    && SeatConn(d', seat) == c && c in d.conns && c in d'.conns
    && d'.conns[c].frames == d.conns[c].frames + frames && d'.conns[c].open
  }

  lemma BroadcastReaches<L, T, A, V>(rules: Rules<L, T, A, V>, d: Driver<L, A, V>, b: Broadcast<V>, trouble: Trouble, seat: TableSeat)
    requires Seated(d) && d.pc != NotStarted && !SeatViewFails(rules, trouble) && IsReached(d, seat, trouble)
    ensures Broadcasted(rules, d, b, trouble).Some?
    ensures Hears(d, Broadcasted(rules, d, b, trouble).value, seat, [b.build(OfSeat(seat))])
  {
  }

  /** After the last of a round's turns each seat that listens is told how the match stands.
      Then the driver goes on, unless the limit is reached in a running match, which is
      then stopped for it. */
  lemma TurnsAreFollowedByTheState<L, T, A, V>(rules: Rules<L, T, A, V>, events: seq<Event<L, A>>, trouble: Trouble, seat: TableSeat)
    requires var d := Run(rules, events);
             && d.pc.Broadcasting? && d.pc.next >= TurnCount(rules, d.session) && !trouble.crashes && IsReached(d, seat, trouble)
    ensures var d := Run(rules, events);
            var d' := Run(rules, events + [DriverSteps(trouble)]);
            && Hears(d, d', seat, [MatchState(d.session.lifecycle, TurnCount(rules, d.session))])
            && d'.session == d.session
            && if d.pc.capped && d.session.lifecycle == Running && TurnCount(rules, d.session) >= rules.turnCap
               then d'.pc == AwaitAbort(false) && d'.abort == Requested(TurnLimitExceeded)
               else d'.pc == AtLoop && d'.abort == Idle
  {
    var d := Run(rules, events);
    RunControl(rules, events);
    RunSeated(rules, events);
    RunSnoc(rules, events, DriverSteps(trouble));
    BroadcastReaches(rules, d, StateBroadcast(rules, d.session), StateTrouble(trouble), seat);
    BroadcastOnlySends(rules, d, StateBroadcast(rules, d.session), StateTrouble(trouble));
  }

  lemma {:induction false} RunSeated<L, T, A, V>(rules: Rules<L, T, A, V>, events: seq<Event<L, A>>)
    ensures Seated(Run(rules, events))
    decreases |events|
  {
    if events != [] {
      RunSeated(rules, events[..|events| - 1]);
      SeatedNext(rules, Run(rules, events[..|events| - 1]), events[|events| - 1]);
    }
  }

  // ---------------------------------------------------------------------------
  // Ways of stopping
  // ---------------------------------------------------------------------------

  /** What a seat that is waited for can stop the match with, and what it is then called. */
  function StopReason<L, A>(e: Event<L, A>): Option<AbortReason> {
    match e
    case TimeUp(_, _) => Some(TurnDeadlineExpired)
    case GraceOver(_, timedOut) => Some(if timedOut then HeartbeatTimeout else PeerDisconnected)
    case _ => None
  }

  /** A seat that runs out of time or stays away stops the match, for that reason. */
  lemma StopsNameTheirReason<L, T, A, V>(rules: Rules<L, T, A, V>, events: seq<Event<L, A>>, e: Event<L, A>)
    requires (e.TimeUp? || e.GraceOver?) && AwaitsAction(Run(rules, events), e.seat) && Run(rules, events).abort == Idle
    ensures var d := Run(rules, events);
            var d' := Run(rules, events + [e]);
            && StopReason(e).Some? && d'.abort == Requested(StopReason(e).value)
            && d'.loops.Of(e.seat) == Aborting && d'.loops.Of(1 - e.seat) == d.loops.Of(1 - e.seat)
            && d'.session == d.session && d'.conns == d.conns && d'.pc == d.pc
  {
    RunSnoc(rules, events, e);
  }

  /** A driver that breaks down in a match that has not ended stops it as broken, unless it is
      being stopped already. */
  lemma BreakdownsStopTheMatch<L, T, A, V>(rules: Rules<L, T, A, V>, events: seq<Event<L, A>>, trouble: Trouble)
    requires var d := Run(rules, events); d.pc == Crashed && !Ended(d.session.lifecycle) && d.abort == Idle
    ensures var d' := Run(rules, events + [DriverSteps(trouble)]);
            d'.abort == Requested(RuntimeError) && d'.pc == AwaitAbort(true)
  {
    RunControl(rules, events);
    RunSnoc(rules, events, DriverSteps(trouble));
  }

  predicate IsStoppedFor<L, A, V>(d: Driver<L, A, V>, why: AbortReason) {
    d.abort == Requested(why) || (d.session.lifecycle == Aborted && d.session.reason == Some(why))
  }

  lemma KeepsItsReason<L, T, A, V>(rules: Rules<L, T, A, V>, d: Driver<L, A, V>, e: Event<L, A>, why: AbortReason)
    requires Control(d) && IsStoppedFor(d, why)
    ensures IsStoppedFor(Next(rules, d, e), why)
  {
    SessionMoves(rules, d, e);
    match e
    case DriverSteps(trouble) =>
      if d.pc == AtLoop && d.session.local.Some? {
        AskSeatsOnlyAsks(rules, d, rules.acting(d.session.local.value));
      }
    case AbortSteps(_) =>
    case Start(_, _, _) =>
    case Resume(_, _, _) =>
    case Attach(_, _) =>
    case Detach(_) =>
    case SocketCloses(_) =>
    case FallsBehind(_) =>
    case _ => SeatStepKeepsAbort(rules, d, e);
  }

  lemma SeatStepKeepsAbort<L, T, A, V>(rules: Rules<L, T, A, V>, d: Driver<L, A, V>, e: Event<L, A>)
    requires e.Answer? || e.Malformed? || e.TimeUp? || e.GraceOver? || e.PickUp?
    ensures d.abort != Idle ==> Next(rules, d, e).abort == d.abort
    ensures Next(rules, d, e).session == d.session
  {
    SeatStepSeats(rules, d, e);
    if e.Answer? && Listening(d, e.seat) {
      RefusedOnlySends(Judged(d, e.seat, e.turnId), e.seat, e.turnId);
    }
  }

  /** The first reason a match is stopped for is the one it ends with. */
  lemma {:induction false} FirstReasonStands<L, T, A, V>(rules: Rules<L, T, A, V>, before: seq<Event<L, A>>, after: seq<Event<L, A>>, why: AbortReason)
    requires Run(rules, before).abort == Requested(why)
    ensures IsStoppedFor(Run(rules, before + after), why)
    decreases |after|
  {
    if after == [] {
      assert before + after == before;
    } else {
      var shorter := after[..|after| - 1];
      FirstReasonStands(rules, before, shorter, why);
      RunControl(rules, before + shorter);
      assert before + after == before + shorter + [after[|after| - 1]];
      RunSnoc(rules, before + shorter, after[|after| - 1]);
      KeepsItsReason(rules, Run(rules, before + shorter), after[|after| - 1], why);
    }
  }

  // ---------------------------------------------------------------------------
  // Malformed frames
  // ---------------------------------------------------------------------------

  /** One error frame more on the connection; the sixteenth closes it. */
  function HeardError<V>(conns: map<ConnId, Conn<V>>, c: ConnId, errors: nat): map<ConnId, Conn<V>> {
    var told := Heard(conns, c, ErrorFrame);
    if errors >= 16 && c in told then told[c := told[c].(open := false)] else told
  }

  lemma MalformedIs<L, A, V>(d: Driver<L, A, V>, seat: TableSeat)
    requires Listening(d, seat)
    ensures var loop := d.loops.Of(seat);
            MalformedStep(d, seat) == d.(loops := WithLoopAt(d.loops, seat, Waiting(loop.conn, loop.retriesLeft, loop.protocolErrors + 1)),
                                         conns := HeardError(d.conns, loop.conn, loop.protocolErrors + 1))
  {
    SendIsHeard(d, d.loops.Of(seat).conn, ErrorFrame);
  }

  /** A malformed frame is answered with one error frame and costs no attempt. The sixteenth a
      loop reads from one connection closes it. */
  lemma MalformedFramesAreCounted<L, T, A, V>(rules: Rules<L, T, A, V>, events: seq<Event<L, A>>, seat: TableSeat)
    requires AwaitsAction(Run(rules, events), seat)
    ensures var d := Run(rules, events);
            var loop := d.loops.Of(seat);
            Run(rules, events + [Malformed(seat)])
            == d.(loops := WithLoopAt(d.loops, seat, Waiting(loop.conn, loop.retriesLeft, loop.protocolErrors + 1)),
                  conns := HeardError(d.conns, loop.conn, loop.protocolErrors + 1))
  {
    RunSnoc(rules, events, Malformed(seat));
    MalformedIs(Run(rules, events), seat);
  }

  predicate LoopReadsOn<L, A, V>(d: Driver<L, A, V>, seat: TableSeat) {
    var loop := d.loops.Of(seat);
    loop.Waiting? ==> loop.conn in d.conns && (d.conns[loop.conn].open ==> loop.protocolErrors < 16)
  }

  /** Connections stay, and what is closed stays closed. */
  lemma NextCloses<L, T, A, V>(rules: Rules<L, T, A, V>, d: Driver<L, A, V>, e: Event<L, A>, c: ConnId)
    requires c in d.conns
    ensures c in Next(rules, d, e).conns && (Next(rules, d, e).conns[c].open ==> d.conns[c].open)
  {
    var none := (f: Frame<V>) => false;
    if TellsTurn(rules, d, e) {
      TurnStepPicks(none, rules, d, e);
    } else {
      NextSame(none, rules, d, e);
    }
  }

  lemma MalformedReadsOn<L, A, V>(d: Driver<L, A, V>, seat: TableSeat, s: TableSeat)
    requires Listening(d, seat) && LoopReadsOn(d, s)
    ensures LoopReadsOn(MalformedStep(d, seat), s)
  {
  }

  lemma PickUpReadsOn<L, T, A, V>(rules: Rules<L, T, A, V>, d: Driver<L, A, V>, seat: TableSeat, s: TableSeat)
    requires Seated(d) && Listening(d, seat) && LoopReadsOn(d, s)
    ensures LoopReadsOn(PickUpStep(rules, d, seat), s)
  {
  }

  /** No step but these two touches a waiting loop's count of errors or its connection. */
  lemma OtherStepsLeaveLoops<L, T, A, V>(rules: Rules<L, T, A, V>, d: Driver<L, A, V>, e: Event<L, A>, s: TableSeat)
    requires !e.Malformed? && !e.PickUp? && !(e.DriverSteps? && d.pc == AtLoop)
    ensures var loop, loop' := d.loops.Of(s), Next(rules, d, e).loops.Of(s);
            loop'.Waiting? ==> loop.Waiting? && loop'.conn == loop.conn && loop'.protocolErrors == loop.protocolErrors
  {
    match e
    case DriverSteps(trouble) => StepsDropLoops(rules, d, trouble);
    case AbortSteps(trouble) => AbortStepHides(rules, d, d.loops, trouble);
    case Answer(seat, turnId, action) =>
      if Listening(d, seat) {
        RefusedOnlySends(Judged(d, seat, turnId), seat, turnId);
      }
    case _ =>
  }

  lemma StepsDropLoops<L, T, A, V>(rules: Rules<L, T, A, V>, d: Driver<L, A, V>, trouble: Trouble)
    requires d.pc != AtLoop
    ensures var d' := DriverStep(rules, d, trouble); d'.loops == d.loops || d'.loops == NoLoops()
  {
  }

  lemma AskedLoopsReadOn<L, T, A, V>(rules: Rules<L, T, A, V>, d: Driver<L, A, V>, trouble: Trouble, s: TableSeat)
    requires Seated(d) && d.pc == AtLoop && LoopReadsOn(d, s)
    ensures LoopReadsOn(LoopStep(rules, d, trouble), s)
  {
  }

  lemma NextReadsOn<L, T, A, V>(rules: Rules<L, T, A, V>, d: Driver<L, A, V>, e: Event<L, A>, s: TableSeat)
    requires Seated(d) && LoopReadsOn(d, s)
    ensures LoopReadsOn(Next(rules, d, e), s)
  {
    if d.loops.Of(s).Waiting? {
      NextCloses(rules, d, e, d.loops.Of(s).conn);
    }
    if e.Malformed? && Listening(d, e.seat) {
      MalformedReadsOn(d, e.seat, s);
    } else if e.PickUp? && Listening(d, e.seat) {
      PickUpReadsOn(rules, d, e.seat, s);
    } else if e.DriverSteps? && d.pc == AtLoop {
      AskedLoopsReadOn(rules, d, e.trouble, s);
    } else if !e.Malformed? && !e.PickUp? {
      OtherStepsLeaveLoops(rules, d, e, s);
    }
  }

  /** So no loop goes on reading an open connection that has sent it sixteen. */
  lemma {:induction false} SixteenErrorsClose<L, T, A, V>(rules: Rules<L, T, A, V>, events: seq<Event<L, A>>, seat: TableSeat)
    ensures LoopReadsOn(Run(rules, events), seat)
    decreases |events|
  {
    if events != [] {
      SixteenErrorsClose(rules, events[..|events| - 1], seat);
      RunSeated(rules, events[..|events| - 1]);
      NextReadsOn(rules, Run(rules, events[..|events| - 1]), events[|events| - 1], seat);
    }
  }

  /** A seat that resumed is asked again on its new connection, with the attempts it has left
      and a fresh count of errors. */
  lemma ResumedSeatsAreAskedAgain<L, T, A, V>(rules: Rules<L, T, A, V>, events: seq<Event<L, A>>, seat: TableSeat)
    requires AwaitsAction(Run(rules, events), seat)
    ensures var d := Run(rules, events);
            var d' := Run(rules, events + [PickUp(seat)]);
            var loop := d.loops.Of(seat);
            var c := SeatConn(d, seat);
            if c == loop.conn then d' == d
            else d' == d.(loops := WithLoopAt(d.loops, seat, Waiting(c, loop.retriesLeft, 0)),
                          conns := Heard(d.conns, c, ObservationRequest(TurnCount(rules, d.session))))
  {
    var d := Run(rules, events);
    RunSnoc(rules, events, PickUp(seat));
    SendIsHeard(d, SeatConn(d, seat), ObservationRequest(TurnCount(rules, d.session)));
  }

  // ---------------------------------------------------------------------------
  // How an ended match is told
  // ---------------------------------------------------------------------------

  /** Nothing disturbs the telling: no crash, and the views can be built. */
  predicate IsCalm<L, T, A, V>(rules: Rules<L, T, A, V>, trouble: Trouble) {
    !trouble.crashes && !SeatViewFails(rules, trouble)
  }

  /** A seat's connection holds one frame more than it did, the session's end. */
  predicate HearsTheEnd<L, T, A, V(==)>(rules: Rules<L, T, A, V>, d: Driver<L, A, V>, d': Driver<L, A, V>, seat: TableSeat) {
    var c := SeatConn(d, seat);
    && SeatConn(d', seat) == c && c in d.conns && c in d'.conns
    && |d'.conns[c].frames| == |d.conns[c].frames| + 1
    && var f := d'.conns[c].frames[|d.conns[c].frames|];
    && d'.conns[c].frames == d.conns[c].frames + [f]
    && f.Terminal() && IsTrue(rules, d.session, OfSeat(seat), f)
  }

  lemma EndReaches<L, T, A, V>(rules: Rules<L, T, A, V>, d: Driver<L, A, V>, trouble: Trouble, seat: TableSeat)
    requires Seated(d) && d.pc != NotStarted && Ended(d.session.lifecycle) && IsCalm(rules, trouble) && IsReached(d, seat, trouble)
    ensures var r := Broadcasted(rules, d, TerminalBroadcast(rules, d.session), trouble);
            r.Some? && HearsTheEnd(rules, d, r.value, seat)
  {
    BroadcastReaches(rules, d, TerminalBroadcast(rules, d.session), trouble, seat);
    TerminalIsTrue(rules, d.session, OfSeat(seat));
  }

  /** A finished match, undisturbed: stored, then its end told to each seat that listens, and the
      driver is done. */
  lemma FinishedMatchesAreTold<L, T, A, V>(rules: Rules<L, T, A, V>, events: seq<Event<L, A>>, seat: TableSeat, a: Trouble, b: Trouble, c: Trouble)
    requires var d := Run(rules, events);
             d.pc == AtLoop && d.session.lifecycle == Finished && IsCalm(rules, a) && IsCalm(rules, c) && IsReached(d, seat, c)
    ensures var d := Run(rules, events);
            var d' := Run(rules, events + [DriverSteps(a)] + [DriverSteps(b)] + [DriverSteps(c)]);
            && d'.pc == Exited && d'.terminalSent && d'.session == d.session
            && HearsTheEnd(rules, d, d', seat)
  {
    var d := Run(rules, events);
    RunSeated(rules, events);
    RunSnoc(rules, events, DriverSteps(a));
    RunSnoc(rules, events + [DriverSteps(a)], DriverSteps(b));
    RunSnoc(rules, events + [DriverSteps(a)] + [DriverSteps(b)], DriverSteps(c));
    assert Run(rules, events + [DriverSteps(a)] + [DriverSteps(b)]) == d.(pc := Ending);
    EndingReaches(rules, d.(pc := Ending), c, seat);
  }

  lemma AbortIsRecorded<L, T, A, V>(rules: Rules<L, T, A, V>, d: Driver<L, A, V>, a: Trouble, b: Trouble)
    requires d.abort.Requested? && d.session.lifecycle == Running
    ensures AbortStep(rules, AbortStep(rules, d, a), b)
         == d.(session := d.session.(lifecycle := Aborted, reason := Some(d.abort.why)), abort := AbortAnnouncing)
  {
  }

  lemma AbortIsAnnounced<L, T, A, V>(rules: Rules<L, T, A, V>, d: Driver<L, A, V>, trouble: Trouble, seat: TableSeat)
    requires Seated(d) && d.pc != NotStarted && d.abort == AbortAnnouncing && !trouble.crashes && IsReached(d, seat, trouble)
    ensures var d' := AbortStep(rules, d, trouble);
            && d'.abort == AbortNotifying && d'.session == d.session && d'.pc == d.pc && Seated(d')
            && Hears(d, d', seat, [MatchState(d.session.lifecycle, TurnCount(rules, d.session))])
  {
    var b := StateBroadcast(rules, d.session);
    BroadcastReaches(rules, d, b, StateTrouble(trouble), seat);
    BroadcastOnlySends(rules, d, b, StateTrouble(trouble));
    BroadcastSeats(rules, d, b, StateTrouble(trouble));
  }

  lemma AbortIsNotified<L, T, A, V>(rules: Rules<L, T, A, V>, d: Driver<L, A, V>, trouble: Trouble, seat: TableSeat)
    requires Seated(d) && d.pc != NotStarted && d.abort == AbortNotifying && Ended(d.session.lifecycle)
    requires IsCalm(rules, trouble) && IsReached(d, seat, trouble)
    ensures var d' := AbortStep(rules, d, trouble);
            d'.abort == AbortDone && d'.terminalSent && d'.session == d.session && HearsTheEnd(rules, d, d', seat)
  {
    EndReaches(rules, d, trouble, seat);
    BroadcastOnlySends(rules, d, TerminalBroadcast(rules, d.session), trouble);
  }

  /** A stopped match, undisturbed: recorded as aborted for the reason it was stopped, stored,
      then each seat that listens is told that it is aborted, and the end. */
  lemma StoppedMatchesAreTold<L, T, A, V>(
      rules: Rules<L, T, A, V>, events: seq<Event<L, A>>, seat: TableSeat, a: Trouble, b: Trouble, c: Trouble, e: Trouble)
    requires var d := Run(rules, events);
             d.abort.Requested? && !c.crashes && IsCalm(rules, e) && IsReached(d, seat, c) && IsReached(d, seat, e)
    ensures var d := Run(rules, events);
            var announced := Run(rules, events + [AbortSteps(a)] + [AbortSteps(b)] + [AbortSteps(c)]);
            var d' := Run(rules, events + [AbortSteps(a)] + [AbortSteps(b)] + [AbortSteps(c)] + [AbortSteps(e)]);
            && d'.session == MatchSession(d.session.local, Aborted, Some(d.abort.why))
            && d'.abort == AbortDone && d'.terminalSent && announced.session == d'.session
            && Hears(d, announced, seat, [MatchState(Aborted, TurnCount(rules, d.session))])
            && HearsTheEnd(rules, announced, d', seat)
  {
    var d := Run(rules, events);
    RunControl(rules, events);
    RunSeated(rules, events);
    RunSnoc(rules, events, AbortSteps(a));
    RunSnoc(rules, events + [AbortSteps(a)], AbortSteps(b));
    RunSnoc(rules, events + [AbortSteps(a)] + [AbortSteps(b)], AbortSteps(c));
    RunSnoc(rules, events + [AbortSteps(a)] + [AbortSteps(b)] + [AbortSteps(c)], AbortSteps(e));
    AbortIsRecorded(rules, d, a, b);
    var recorded := d.(session := d.session.(lifecycle := Aborted, reason := Some(d.abort.why)), abort := AbortAnnouncing);
    AbortIsAnnounced(rules, recorded, c, seat);
    AbortIsNotified(rules, AbortStep(rules, recorded, c), e, seat);
  }

  /** And once the abort is done, so is the driver: at its next step where it asks or waits, or at
      the one after if a seat's loop noticed the end by itself. If the abort failed, a driver
      that asks breaks down. */
  lemma StoppedDriversLeave<L, T, A, V>(rules: Rules<L, T, A, V>, events: seq<Event<L, A>>, a: Trouble, b: Trouble)
    requires var d := Run(rules, events);
             !a.crashes && (d.abort == AbortDone || d.abort == AbortFailed) && (d.pc == Asking || d.pc.AwaitAbort?)
    ensures var d := Run(rules, events);
            var d' := Run(rules, events + [DriverSteps(a)]);
            && d'.session == d.session && d'.conns == d.conns
            && (d.abort == AbortDone ==> Run(rules, events + [DriverSteps(a)] + [DriverSteps(b)]).pc == Exited)
            && (d.pc == Asking && (d.loops.loop0.Gone? || d.loops.loop1.Gone?) ==> d'.pc == AwaitAbort(true))
            && (d.pc == Asking && !d.loops.loop0.Gone? && !d.loops.loop1.Gone? ==>
                  d'.pc == if d.abort == AbortDone then Exited else Crashed)
            && (d.pc.AwaitAbort? ==> d'.pc == if d.abort == AbortDone || d.pc.swallow then Exited else Crashed)
  {
    var d := Run(rules, events);
    RunControl(rules, events);
    if d.pc == Asking {
      StoppedIsNotAccepted(d.loops);
    }
    RunSnoc(rules, events, DriverSteps(a));
    RunSnoc(rules, events + [DriverSteps(a)], DriverSteps(b));
  }

  lemma AnnouncementReaches<L, T, A, V>(rules: Rules<L, T, A, V>, d: Driver<L, A, V>, trouble: Trouble, seat: TableSeat)
    requires Seated(d) && d.pc == Announce && !trouble.crashes && IsReached(d, seat, trouble)
    ensures var d' := DriverStep(rules, d, trouble);
            && d'.pc == Ending && d'.session == d.session && Seated(d')
            && Hears(d, d', seat, [MatchState(d.session.lifecycle, TurnCount(rules, d.session))])
  {
    var b := StateBroadcast(rules, d.session);
    BroadcastReaches(rules, d, b, StateTrouble(trouble), seat);
    BroadcastOnlySends(rules, d, b, StateTrouble(trouble));
    BroadcastSeats(rules, d, b, StateTrouble(trouble));
  }

  lemma EndingReaches<L, T, A, V>(rules: Rules<L, T, A, V>, d: Driver<L, A, V>, trouble: Trouble, seat: TableSeat)
    requires Seated(d) && d.pc == Ending && Ended(d.session.lifecycle) && IsCalm(rules, trouble) && IsReached(d, seat, trouble)
    ensures var d' := DriverStep(rules, d, trouble);
            d'.pc == Exited && d'.terminalSent && d'.session == d.session && HearsTheEnd(rules, d, d', seat)
  {
    EndReaches(rules, d, trouble, seat);
    BroadcastOnlySends(rules, d, TerminalBroadcast(rules, d.session), trouble);
  }

  /** A match that could not be started, undisturbed: stored, then each seat that listens is told
      that it is aborted, and the end, and the driver is done. */
  lemma RefusedStartsAreTold<L, T, A, V>(
      rules: Rules<L, T, A, V>, events: seq<Event<L, A>>, seat: TableSeat, a: Trouble, b: Trouble, c: Trouble, e: Trouble)
    requires var d := Run(rules, events);
             && d.pc == Opening && d.session.lifecycle == Aborted
             && !c.crashes && IsCalm(rules, e) && IsReached(d, seat, c) && IsReached(d, seat, e)
    ensures var d := Run(rules, events);
            var announced := Run(rules, events + [DriverSteps(a)] + [DriverSteps(b)] + [DriverSteps(c)]);
            var d' := Run(rules, events + [DriverSteps(a)] + [DriverSteps(b)] + [DriverSteps(c)] + [DriverSteps(e)]);
            && d'.pc == Exited && d'.terminalSent && d'.session == d.session
            && Hears(d, announced, seat, [MatchState(Aborted, TurnCount(rules, d.session))])
            && HearsTheEnd(rules, announced, d', seat)
  {
    var d := Run(rules, events);
    RunSeated(rules, events);
    RunSnoc(rules, events, DriverSteps(a));
    RunSnoc(rules, events + [DriverSteps(a)], DriverSteps(b));
    RunSnoc(rules, events + [DriverSteps(a)] + [DriverSteps(b)], DriverSteps(c));
    RunSnoc(rules, events + [DriverSteps(a)] + [DriverSteps(b)] + [DriverSteps(c)], DriverSteps(e));
    var stored := d.(pc := Announce);
    assert Run(rules, events + [DriverSteps(a)] + [DriverSteps(b)]) == stored;
    AnnouncementReaches(rules, stored, c, seat);
    EndingReaches(rules, DriverStep(rules, stored, c), e, seat);
  }
}

/** Where the driver and its abort task can stand together, in every run. */
module DriverControl {
  import opened Wrappers
  import opened Games
  import opened Runtime
  import opened Drivers

  /** The driver has not begun to end the match: no abort, no terminal frame. */
  predicate BeforeTheEnd(pc: Pc) {
    pc == NotStarted || pc == Opening || pc.Broadcasting? || pc == AtLoop || pc.Storing? || pc == Announce || pc == Ending
  }

  predicate Stopped<A>(loops: Loops<A>) {
    loops.loop0.Aborting? || loops.loop1.Aborting? || loops.loop0.Gone? || loops.loop1.Gone?
  }

  predicate Control<L, A, V>(d: Driver<L, A, V>) {
    && (d.pc == NotStarted <==> d.session.lifecycle == Created)
    && (BeforeTheEnd(d.pc) ==> d.abort == Idle && !d.terminalSent)
    && (d.terminalSent ==> Ended(d.session.lifecycle))
    && (AbortInProgress(d.abort) ==> !d.terminalSent && (d.pc == Asking || d.pc.AwaitAbort? || d.pc == Crashed))
    && (d.abort.Requested? ==> d.session.lifecycle == Running)
    && (d.abort == AbortStoring || d.abort == AbortAnnouncing || d.abort == AbortNotifying ==> d.session.lifecycle == Aborted)
    && (d.abort == AbortDone ==> d.terminalSent)
    && (d.pc == Asking ==> (d.abort != Idle <==> Stopped(d.loops)))
    && (d.pc == Asking && d.abort == Idle ==> d.session.lifecycle == Running && !d.terminalSent)
    && (d.pc == CrashStoring || d.pc == CrashEnding ==> !d.terminalSent && !AbortInProgress(d.abort) && Ended(d.session.lifecycle))
    && (d.pc.AwaitAbort? ==> d.abort != Idle)
    && (d.terminalSent && d.abort != AbortDone ==> d.pc == Exited)
  }

  /** A round with a stopped loop is not one with every action in. */
  lemma StoppedIsNotAccepted<A>(loops: Loops<A>)
    requires Stopped(loops)
    ensures !AllAccepted(loops)
  {
  }

  lemma GiveUpStops<L, A, V>(d: Driver<L, A, V>, seat: TableSeat, why: AbortReason)
    requires d.pc == Asking
    ensures Stopped(GiveUp(d, seat, why).loops)
  {
  }

  /** A broadcast changes connections and nothing else. */
  lemma BroadcastOnlySends<L, T, A, V>(rules: Rules<L, T, A, V>, d: Driver<L, A, V>, b: Broadcast<V>, trouble: Trouble)
    ensures var r := Broadcasted(rules, d, b, trouble);
            r.Some? ==> r.value == d.(conns := r.value.conns, spectators := r.value.spectators)
  {
  }

  lemma BroadcastStepControl<L, T, A, V>(rules: Rules<L, T, A, V>, d: Driver<L, A, V>, trouble: Trouble)
    requires Control(d) && d.pc.Broadcasting?
    ensures Control(BroadcastStep(rules, d, trouble))
  {
    if d.pc.next < |TurnsOf(rules, d.session)| {
      BroadcastOnlySends(rules, d, TurnBroadcast(rules, d.session, d.pc.next), trouble);
    } else {
      BroadcastOnlySends(rules, d, StateBroadcast(rules, d.session), StateTrouble(trouble));
    }
  }

  lemma AskSeatsOnlyAsks<L, T, A, V>(rules: Rules<L, T, A, V>, d: Driver<L, A, V>, seats: seq<Seat>)
    ensures var r := AskSeats(rules, d, seats);
            && r == d.(conns := r.conns, loops := r.loops, pc := r.pc)
            && (r.pc == Crashed || (r.pc == Asking && !Stopped(r.loops)))
  {
  }

  lemma LoopStepControl<L, T, A, V>(rules: Rules<L, T, A, V>, d: Driver<L, A, V>, trouble: Trouble)
    requires Control(d) && d.pc == AtLoop
    ensures Control(LoopStep(rules, d, trouble))
  {
    if d.session.local.Some? {
      AskSeatsOnlyAsks(rules, d, rules.acting(d.session.local.value));
    }
  }

  lemma AskingStepControl<L, T, A, V>(rules: Rules<L, T, A, V>, d: Driver<L, A, V>, trouble: Trouble)
    requires Control(d) && d.pc == Asking
    ensures Control(AskingStep(rules, d, trouble))
  {
    if Stopped(d.loops) {
      StoppedIsNotAccepted(d.loops);
    } else if !trouble.crashes && AllAccepted(d.loops) {
      CommitControl(rules, d);
    }
  }

  lemma CommitControl<L, T, A, V>(rules: Rules<L, T, A, V>, d: Driver<L, A, V>)
    requires Control(d) && d.pc == Asking && AllAccepted(d.loops) && d.abort == Idle
    ensures Control(CommitStep(rules, d))
  {
  }

  lemma EndingControl<L, T, A, V>(rules: Rules<L, T, A, V>, d: Driver<L, A, V>, trouble: Trouble)
    requires Control(d) && (d.pc == Announce || d.pc == Ending || d.pc == CrashEnding)
    ensures Control(DriverStep(rules, d, trouble))
  {
    BroadcastOnlySends(rules, d, StateBroadcast(rules, d.session), StateTrouble(trouble));
    BroadcastOnlySends(rules, d, TerminalBroadcast(rules, d.session), trouble);
  }

  lemma DriverStepControl<L, T, A, V>(rules: Rules<L, T, A, V>, d: Driver<L, A, V>, trouble: Trouble)
    requires Control(d)
    ensures Control(DriverStep(rules, d, trouble))
  {
    match d.pc
    case Broadcasting(_, _) => BroadcastStepControl(rules, d, trouble);
    case AtLoop => LoopStepControl(rules, d, trouble);
    case Asking => AskingStepControl(rules, d, trouble);
    case Announce => EndingControl(rules, d, trouble);
    case Ending => EndingControl(rules, d, trouble);
    case CrashEnding => EndingControl(rules, d, trouble);
    case _ =>
  }

  lemma AbortStepControl<L, T, A, V>(rules: Rules<L, T, A, V>, d: Driver<L, A, V>, trouble: Trouble)
    requires Control(d)
    ensures Control(AbortStep(rules, d, trouble))
  {
  }

  /** Changing one loop that was still waiting. */
  lemma LoopChangeControl<L, A, V>(d: Driver<L, A, V>, d': Driver<L, A, V>, seat: TableSeat, loop: Loop<A>)
    requires Control(d) && Listening(d, seat) && (loop.Waiting? || loop.Accepted?)
    requires d'.session == d.session && d'.pc == d.pc && d'.abort == d.abort && d'.terminalSent == d.terminalSent
    requires d'.loops == WithLoopAt(d.loops, seat, loop)
    ensures Control(d')
  {
  }

  lemma LoopStopControl<L, A, V>(d: Driver<L, A, V>, d': Driver<L, A, V>, seat: TableSeat, why: AbortReason)
    requires Control(d) && Listening(d, seat)
    requires d'.session == d.session && d'.pc == d.pc && d'.abort == d.abort && d'.terminalSent == d.terminalSent && d'.loops == d.loops
    ensures Control(GiveUp(d', seat, why))
    ensures d.session.lifecycle != Running ==> Control(WithLoop(d', seat, Gone))
  {
    GiveUpStops(d', seat, why);
  }

  lemma RefusedOnlySends<L, A, V>(d: Driver<L, A, V>, seat: TableSeat, turnId: TurnId)
    requires Listening(d, seat)
    ensures var r := Refused(d, seat, turnId);
            r == d.(conns := r.conns, rejected := r.rejected)
  {
  }

  lemma RejectControl<L, A, V>(d: Driver<L, A, V>, seat: TableSeat, turnId: TurnId)
    requires Control(d) && Listening(d, seat)
    ensures Control(RejectStep(d, seat, turnId))
  {
    var loop := d.loops.Of(seat);
    RefusedOnlySends(d, seat, turnId);
    if loop.retriesLeft == 0 {
      LoopStopControl(d, Refused(d, seat, turnId), seat, AdapterError);
    } else {
      LoopChangeControl(d, RejectStep(d, seat, turnId), seat, loop.(retriesLeft := loop.retriesLeft - 1));
    }
  }

  lemma AnswerControl<L, T, A, V>(rules: Rules<L, T, A, V>, d: Driver<L, A, V>, seat: TableSeat, turnId: TurnId, action: A)
    requires Control(d) && Listening(d, seat) && d.session.lifecycle == Running
    ensures Control(AnswerStep(rules, d, seat, turnId, action))
  {
    if !IsDuplicate(d, seat, turnId) {
      if IsAccepted(rules, d, seat, action) {
        LoopChangeControl(d, AnswerStep(rules, d, seat, turnId, action), seat, Accepted(turnId, action));
      } else {
        RejectControl(Judged(d, seat, turnId), seat, turnId);
      }
    }
  }

  lemma MalformedControl<L, A, V>(d: Driver<L, A, V>, seat: TableSeat)
    requires Control(d) && Listening(d, seat)
    ensures Control(MalformedStep(d, seat))
  {
    var loop := d.loops.Of(seat);
    LoopChangeControl(d, MalformedStep(d, seat), seat, loop.(protocolErrors := loop.protocolErrors + 1));
  }

  lemma PickUpControl<L, T, A, V>(rules: Rules<L, T, A, V>, d: Driver<L, A, V>, seat: TableSeat)
    requires Control(d) && Listening(d, seat)
    ensures Control(PickUpStep(rules, d, seat))
  {
    var c := SeatConn(d, seat);
    if c != d.loops.Of(seat).conn {
      LoopChangeControl(d, PickUpStep(rules, d, seat), seat, Waiting(c, d.loops.Of(seat).retriesLeft, 0));
    }
  }

  lemma SeatStepControl<L, T, A, V>(rules: Rules<L, T, A, V>, d: Driver<L, A, V>, e: Event<L, A>)
    requires e.Answer? || e.Malformed? || e.TimeUp? || e.GraceOver? || e.PickUp?
    requires Control(d) && Listening(d, e.seat)
    ensures Control(Next(rules, d, e))
  {
    if d.session.lifecycle != Running {
      LoopStopControl(d, d, e.seat, TurnDeadlineExpired);
    }
    match e
    case Answer(seat, turnId, action) =>
      if d.session.lifecycle == Running {
        AnswerControl(rules, d, seat, turnId, action);
      }
    case Malformed(seat) => MalformedControl(d, seat);
    case TimeUp(seat, inGrace) => LoopStopControl(d, d, seat, TurnDeadlineExpired);
    case GraceOver(seat, timedOut) => LoopStopControl(d, d, seat, if timedOut then HeartbeatTimeout else PeerDisconnected);
    case PickUp(seat) => PickUpControl(rules, d, seat);
  }

  lemma NextControl<L, T, A, V>(rules: Rules<L, T, A, V>, d: Driver<L, A, V>, e: Event<L, A>)
    requires Control(d)
    ensures Control(Next(rules, d, e))
  {
    match e
    case DriverSteps(trouble) => DriverStepControl(rules, d, trouble);
    case AbortSteps(trouble) => AbortStepControl(rules, d, trouble);
    case Start(_, _, _) =>
    case Resume(_, _, _) =>
    case Attach(_, _) =>
    case Detach(_) =>
    case SocketCloses(_) =>
    case FallsBehind(_) =>
    case _ =>
      if Listening(d, e.seat) {
        SeatStepControl(rules, d, e);
      }
  }

  lemma {:induction false} RunControl<L, T, A, V>(rules: Rules<L, T, A, V>, events: seq<Event<L, A>>)
    ensures Control(Run(rules, events))
    decreases |events|
  {
    if events != [] {
      RunControl(rules, events[..|events| - 1]);
      NextControl(rules, Run(rules, events[..|events| - 1]), events[|events| - 1]);
    }
  }

  lemma RunSnoc<L, T, A, V>(rules: Rules<L, T, A, V>, events: seq<Event<L, A>>, e: Event<L, A>)
    ensures Run(rules, events + [e]) == Next(rules, Run(rules, events), e)
  {
    assert (events + [e])[..|events + [e]| - 1] == events;
  }

  lemma RunAt<L, T, A, V>(rules: Rules<L, T, A, V>, events: seq<Event<L, A>>, i: nat)
    requires i < |events|
    ensures Run(rules, events[..i + 1]) == Next(rules, Run(rules, events[..i]), events[i])
  {
    assert events[..i + 1][..i] == events[..i];
  }

  // ---------------------------------------------------------------------------
  // Aborts for length
  // ---------------------------------------------------------------------------

  lemma BroadcastStepWhy<L, T, A, V>(rules: Rules<L, T, A, V>, d: Driver<L, A, V>, trouble: Trouble)
    requires d.pc.Broadcasting? && |TurnsOf(rules, d.session)| < rules.turnCap
    ensures var d' := BroadcastStep(rules, d, trouble);
            d'.abort == d.abort && d'.session == d.session
  {
  }

  lemma AskingStepWhy<L, T, A, V>(rules: Rules<L, T, A, V>, d: Driver<L, A, V>, trouble: Trouble)
    requires d.pc == Asking
    ensures var d' := AskingStep(rules, d, trouble);
            (d'.abort == d.abort || d'.abort == Requested(CoreError)) && d'.session.reason == d.session.reason
  {
  }

  /** Below the cap no step of the driver asks to stop the match for its length. */
  lemma DriverStepWhy<L, T, A, V>(rules: Rules<L, T, A, V>, d: Driver<L, A, V>, trouble: Trouble)
    requires |TurnsOf(rules, d.session)| < rules.turnCap && d.abort != Requested(TurnLimitExceeded)
    ensures var d' := DriverStep(rules, d, trouble);
            d'.abort != Requested(TurnLimitExceeded) && d'.session.reason == d.session.reason
  {
    match d.pc
    case Broadcasting(_, _) => BroadcastStepWhy(rules, d, trouble);
    case Asking => AskingStepWhy(rules, d, trouble);
    case AtLoop =>
      if d.session.local.Some? {
        AskSeatsOnlyAsks(rules, d, rules.acting(d.session.local.value));
      }
    case _ =>
  }

  /** The abort task passes on the reason it was asked for, and asks for none itself. */
  lemma AbortStepWhy<L, T, A, V>(rules: Rules<L, T, A, V>, d: Driver<L, A, V>, trouble: Trouble)
    requires d.abort != Requested(TurnLimitExceeded) && d.session.reason != Some(TurnLimitExceeded)
    ensures var d' := AbortStep(rules, d, trouble);
            d'.abort != Requested(TurnLimitExceeded) && d'.session.reason != Some(TurnLimitExceeded)
  {
  }

  lemma HandlerWhy<L, T, A, V>(rules: Rules<L, T, A, V>, d: Driver<L, A, V>, e: Event<L, A>)
    requires e.Resume? || e.Attach? || e.Detach? || e.SocketCloses? || e.FallsBehind?
    ensures var d' := Next(rules, d, e);
            d'.abort == d.abort && d'.session == d.session
  {
  }
}

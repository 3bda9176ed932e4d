/** Terminal frames: never two to a seat, never a wrong one, and one when nothing fails. */
module DriverEnds {
  import opened Wrappers
  import opened Games
  import opened Runtime
  import opened Drivers
  import opened DriverControl
  import opened DriverFrames

  function IsTerminal<V>(): Frame<V> -> bool {
    (f: Frame<V>) => f.Terminal()
  }

  /** The terminal frames a connection was queued. */
  function Ends<V>(conn: Conn<V>): seq<Frame<V>> {
    Picked(IsTerminal(), conn.frames)
  }

  lemma TerminalIsPlain<V>()
    ensures Plain(IsTerminal<V>())
  {
  }

  /** A terminal broadcast may have gone out. */
  predicate Over<L, A, V>(d: Driver<L, A, V>) {
    d.terminalSent || d.pc == Exited
  }

  /** What connection `c` may have been told: nothing yet; or, once the match is over, this
      session's own end as its viewer sees it, once, on its seat's last connection. */
  predicate HeardRightly<L, T, A, V(==)>(rules: Rules<L, T, A, V>, d: Driver<L, A, V>, c: ConnId, conn: Conn<V>) {
    || Ends(conn) == []
    || (&& Over(d) && Ended(d.session.lifecycle)
        && Ends(conn) == [TerminalFrame(rules, d.session, conn.viewer)]
        && (conn.viewer.OfSeat? ==> c == SeatConn(d, conn.viewer.seat)))
  }

  ghost predicate Hears<L, T, A, V>(rules: Rules<L, T, A, V>, d: Driver<L, A, V>) {
    forall c :: c in d.conns ==> HeardRightly(rules, d, c, d.conns[c])
  }

  // ---------------------------------------------------------------------------
  // Steps that end nothing
  // ---------------------------------------------------------------------------

  /** Old connections are told nothing of the end, new ones know nothing of it. */
  ghost predicate SameEnds<V>(conns: map<ConnId, Conn<V>>, conns': map<ConnId, Conn<V>>) {
    && conns.Keys <= conns'.Keys
    && (forall c :: c in conns ==> Later(conns[c], conns'[c]) && Ends(conns'[c]) == Ends(conns[c]))
    && (forall c :: c in conns' && c !in conns ==> Ends(conns'[c]) == [])
  }

  lemma NewConnEnds<L, T, A, V>(rules: Rules<L, T, A, V>, d: Driver<L, A, V>, e: Event<L, A>, c: ConnId)
    requires Admits(e) && c in Next(rules, d, e).conns && c !in d.conns
    ensures Ends(Next(rules, d, e).conns[c]) == []
  {
    TerminalIsPlain<V>();
    NewConns(rules, d, e, c);
    NewcomerPicked(IsTerminal(), rules, d, e, Next(rules, d, e).conns[c]);
  }

  lemma NextSameEnds<L, T, A, V>(rules: Rules<L, T, A, V>, d: Driver<L, A, V>, e: Event<L, A>)
    requires !EndsTheMatch(d, e)
    ensures SameEnds(d.conns, Next(rules, d, e).conns)
  {
    TerminalIsPlain<V>();
    if TellsTurn(rules, d, e) {
      TurnStepPicks(IsTerminal(), rules, d, e);
    } else {
      NextSame(IsTerminal(), rules, d, e);
      forall c | c in Next(rules, d, e).conns && c !in d.conns
        ensures Ends(Next(rules, d, e).conns[c]) == []
      {
        NewConnEnds(rules, d, e, c);
      }
    }
  }

  /** Once the match is over, its session and its seats' connections stand still. */
  lemma OverIsStill<L, T, A, V>(rules: Rules<L, T, A, V>, d: Driver<L, A, V>, e: Event<L, A>)
    requires Control(d) && Over(d)
    ensures var d' := Next(rules, d, e);
            Over(d') && d'.session == d.session && d'.seat0 == d.seat0 && d'.seat1 == d.seat1
    ensures !EndsTheMatch(d, e)
  {
    if e.Answer? || e.Malformed? || e.TimeUp? || e.GraceOver? || e.PickUp? {
      SeatStepSeats(rules, d, e);
      SeatStepEnds(rules, d, e);
    }
  }

  lemma SeatStepEnds<L, T, A, V>(rules: Rules<L, T, A, V>, d: Driver<L, A, V>, e: Event<L, A>)
    requires e.Answer? || e.Malformed? || e.TimeUp? || e.GraceOver? || e.PickUp?
    ensures Next(rules, d, e).terminalSent == d.terminalSent
  {
    if e.Answer? && Listening(d, e.seat) {
      var j := Judged(d, e.seat, e.turnId);
      RefusedOnlySends(j, e.seat, e.turnId);
    }
  }

  // ---------------------------------------------------------------------------
  // The terminal broadcast
  // ---------------------------------------------------------------------------

  /** It reaches every connection at most once, with the session's own end; an open seat
      connection with room gets it. */
  lemma TerminalBroadcastEnds<L, T, A, V>(rules: Rules<L, T, A, V>, d: Driver<L, A, V>, trouble: Trouble, c: ConnId)
    requires Broadcasted(rules, d, TerminalBroadcast(rules, d.session), trouble).Some?
    requires c in d.conns && Ends(d.conns[c]) == []
    requires Seated(d) && d.pc != NotStarted
    ensures var conn := Broadcasted(rules, d, TerminalBroadcast(rules, d.session), trouble).value.conns[c];
            var f := TerminalFrame(rules, d.session, conn.viewer);
            && (Ends(conn) == [] || Ends(conn) == [f])
            && (Ends(conn) != [] && conn.viewer.OfSeat? ==> c == SeatConn(d, conn.viewer.seat))
            && (IsSeatConn(d, c) && conn.open && !conn.overflowed ==> Ends(conn) == [f])
  {
    var b := TerminalBroadcast(rules, d.session);
    BroadcastSeats(rules, d, b, trouble);
    QueuePicked(IsTerminal(), d.conns[c], b.build(d.conns[c].viewer), c !in trouble.full);
  }

  lemma TerminalBroadcastHears<L, T, A, V>(rules: Rules<L, T, A, V>, d: Driver<L, A, V>, d': Driver<L, A, V>, trouble: Trouble)
    requires Seated(d) && Hears(rules, d) && !Over(d) && d.pc != NotStarted && Ended(d.session.lifecycle)
    requires var r := Broadcasted(rules, d, TerminalBroadcast(rules, d.session), trouble);
             r.Some? && d'.conns == r.value.conns
    requires d'.session == d.session && d'.seat0 == d.seat0 && d'.seat1 == d.seat1 && Over(d')
    ensures Hears(rules, d')
  {
    BroadcastSeats(rules, d, TerminalBroadcast(rules, d.session), trouble);
    forall c | c in d'.conns
      ensures HeardRightly(rules, d', c, d'.conns[c])
    {
      TerminalBroadcastEnds(rules, d, trouble, c);
    }
  }

  lemma EndingHears<L, T, A, V>(rules: Rules<L, T, A, V>, d: Driver<L, A, V>, e: Event<L, A>)
    requires Control(d) && Seated(d) && Hears(rules, d) && !Over(d) && EndsTheMatch(d, e)
    ensures Hears(rules, Next(rules, d, e))
  {
    if Broadcasted(rules, d, TerminalBroadcast(rules, d.session), e.trouble).Some? && (d.pc == Ending ==> Ended(d.session.lifecycle)) {
      BroadcastOnlySends(rules, d, TerminalBroadcast(rules, d.session), e.trouble);
      TerminalBroadcastHears(rules, d, Next(rules, d, e), e.trouble);
    }
  }

  lemma NextHears<L, T, A, V>(rules: Rules<L, T, A, V>, d: Driver<L, A, V>, e: Event<L, A>)
    requires Control(d) && Seated(d) && Hears(rules, d)
    ensures Hears(rules, Next(rules, d, e))
  {
    if Over(d) {
      OverIsStill(rules, d, e);
      NextSameEnds(rules, d, e);
    } else if EndsTheMatch(d, e) {
      EndingHears(rules, d, e);
    } else {
      NextSameEnds(rules, d, e);
    }
  }

  lemma {:induction false} RunHears<L, T, A, V>(rules: Rules<L, T, A, V>, events: seq<Event<L, A>>)
    ensures var d := Run(rules, events); Control(d) && Seated(d) && Hears(rules, d)
    decreases |events|
  {
    if events != [] {
      var before := events[..|events| - 1];
      RunHears(rules, before);
      RunControl(rules, events);
      SeatedNext(rules, Run(rules, before), events[|events| - 1]);
      NextHears(rules, Run(rules, before), events[|events| - 1]);
    }
  }

  /** In every run, with any exceptions, failing views, full outboxes, aborts and resumes:
      no connection is queued two terminal frames, no seat gets two over all its
      connections, and the one it gets is the finished session's, with its whole
      transcript as that viewer may see it. */
  lemma AtMostOneTerminalFrame<L, T, A, V>(rules: Rules<L, T, A, V>, events: seq<Event<L, A>>)
    ensures var d := Run(rules, events);
            && (forall c :: c in d.conns ==> |Ends(d.conns[c])| <= 1)
            && (forall c :: c in d.conns && Ends(d.conns[c]) != [] ==>
                  Ended(d.session.lifecycle) && Ends(d.conns[c])[0] == TerminalFrame(rules, d.session, d.conns[c].viewer))
            && (forall b, c :: (b in d.conns && c in d.conns && d.conns[b].viewer == d.conns[c].viewer && d.conns[b].viewer.OfSeat? &&
                                Ends(d.conns[b]) != [] && Ends(d.conns[c]) != []) ==> b == c)
  {
    RunHears(rules, events);
  }

  // ---------------------------------------------------------------------------
  // When the seats are told
  // ---------------------------------------------------------------------------

  /** A terminal broadcast goes out: one is reached, of an ended session, and both seats'
      views of it can be built. */
  predicate TellsTheEnd<L, T, A, V>(rules: Rules<L, T, A, V>, d: Driver<L, A, V>, e: Event<L, A>) {
    && EndsTheMatch(d, e)
    && (e.DriverSteps? && d.pc == Ending ==> Ended(d.session.lifecycle))
    && !SeatViewFails(rules, e.trouble)
  }

  ghost predicate EndTold<L, T, A, V>(rules: Rules<L, T, A, V>, events: seq<Event<L, A>>) {
    exists i :: 0 <= i < |events| && TellsTheEnd(rules, Run(rules, events[..i]), events[i])
  }

  lemma EndToldSnoc<L, T, A, V>(rules: Rules<L, T, A, V>, before: seq<Event<L, A>>, e: Event<L, A>)
    ensures EndTold(rules, before + [e]) <==> EndTold(rules, before) || TellsTheEnd(rules, Run(rules, before), e)
  {
    var events := before + [e];
    assert forall i :: 0 <= i < |before| ==> events[..i] == before[..i] && events[i] == before[i];
    assert events[..|before|] == before && events[|before|] == e;
  }

  predicate SeatTold<V(==)>(conn: Conn<V>) {
    conn.open && !conn.overflowed ==> Ends(conn) != []
  }

  ghost predicate SeatsTold<L, A, V>(d: Driver<L, A, V>) {
    && Over(d)
    && d.seat0 in d.conns && SeatTold(d.conns[d.seat0])
    && d.seat1 in d.conns && SeatTold(d.conns[d.seat1])
  }

  ghost predicate NobodyTold<L, A, V>(d: Driver<L, A, V>) {
    forall c :: c in d.conns ==> Ends(d.conns[c]) == []
  }

  lemma TerminalBroadcastTells<L, T, A, V>(rules: Rules<L, T, A, V>, d: Driver<L, A, V>, trouble: Trouble)
    requires Seated(d) && Hears(rules, d) && !Over(d) && d.pc != NotStarted && !SeatViewFails(rules, trouble)
    ensures var r := Broadcasted(rules, d, TerminalBroadcast(rules, d.session), trouble);
            && r.Some?
            && r.value == d.(conns := r.value.conns, spectators := r.value.spectators)
            && d.seat0 in r.value.conns && SeatTold(r.value.conns[d.seat0])
            && d.seat1 in r.value.conns && SeatTold(r.value.conns[d.seat1])
  {
    BroadcastSeats(rules, d, TerminalBroadcast(rules, d.session), trouble);
    TerminalBroadcastEnds(rules, d, trouble, d.seat0);
    TerminalBroadcastEnds(rules, d, trouble, d.seat1);
  }

  lemma DriverTells<L, T, A, V>(rules: Rules<L, T, A, V>, d: Driver<L, A, V>, trouble: Trouble)
    requires Control(d) && Seated(d) && Hears(rules, d) && !Over(d) && (d.pc == Ending || d.pc == CrashEnding)
    ensures TellsTheEnd(rules, d, DriverSteps(trouble)) ==> SeatsTold(DriverStep(rules, d, trouble))
    ensures !TellsTheEnd(rules, d, DriverSteps(trouble)) ==> DriverStep(rules, d, trouble).conns == d.conns
  {
    if !SeatViewFails(rules, trouble) {
      TerminalBroadcastTells(rules, d, trouble);
    }
  }

  lemma AbortTells<L, T, A, V>(rules: Rules<L, T, A, V>, d: Driver<L, A, V>, trouble: Trouble)
    requires Control(d) && Seated(d) && Hears(rules, d) && !Over(d) && d.abort == AbortNotifying
    ensures TellsTheEnd(rules, d, AbortSteps(trouble)) ==> SeatsTold(AbortStep(rules, d, trouble))
    ensures !TellsTheEnd(rules, d, AbortSteps(trouble)) ==> AbortStep(rules, d, trouble).conns == d.conns
  {
    if !SeatViewFails(rules, trouble) {
      TerminalBroadcastTells(rules, d, trouble);
    }
  }

  /** One step: the terminal broadcast tells both seats, what was told stays told, and
      nothing else tells anybody. */
  lemma NextTells<L, T, A, V>(rules: Rules<L, T, A, V>, d: Driver<L, A, V>, e: Event<L, A>)
    requires Control(d) && Seated(d) && Hears(rules, d)
    ensures TellsTheEnd(rules, d, e) || SeatsTold(d) ==> SeatsTold(Next(rules, d, e))
    ensures !TellsTheEnd(rules, d, e) && NobodyTold(d) ==> NobodyTold(Next(rules, d, e))
  {
    if Over(d) {
      OverIsStill(rules, d, e);
      NextSameEnds(rules, d, e);
    } else if !EndsTheMatch(d, e) {
      NextSameEnds(rules, d, e);
    } else if e.DriverSteps? {
      DriverTells(rules, d, e.trouble);
    } else {
      AbortTells(rules, d, e.trouble);
    }
  }

  lemma {:induction false} RunTells<L, T, A, V>(rules: Rules<L, T, A, V>, events: seq<Event<L, A>>)
    ensures if EndTold(rules, events) then SeatsTold(Run(rules, events)) else NobodyTold(Run(rules, events))
    decreases |events|
  {
    if events != [] {
      var before := events[..|events| - 1];
      var e := events[|events| - 1];
      assert events == before + [e];
      EndToldSnoc(rules, before, e);
      RunTells(rules, before);
      RunHears(rules, before);
      NextTells(rules, Run(rules, before), e);
    }
  }

  /** In every run, whatever fails and wherever: a seat still listening on its connection has
      been told the end, once and rightly, if and only if some step of the run reached a
      terminal broadcast of the ended session with both seats' views built. */
  lemma SeatsAreToldExactlyWhen<L, T, A, V>(rules: Rules<L, T, A, V>, events: seq<Event<L, A>>, seat: TableSeat)
    ensures var d := Run(rules, events);
            d.pc != NotStarted ==>
              && SeatConn(d, seat) in d.conns
              && var conn := d.conns[SeatConn(d, seat)];
              && (conn.open && !conn.overflowed ==> (Ends(conn) != [] <==> EndTold(rules, events)))
              && (Ends(conn) != [] ==> Ends(conn) == [TerminalFrame(rules, d.session, OfSeat(seat))])
  {
    RunHears(rules, events);
    RunTells(rules, events);
  }

  // ---------------------------------------------------------------------------
  // Runs that always tell
  // ---------------------------------------------------------------------------

  /** The seats' views of the end can be built when they are needed, and the abort's
      match_state goes out. Turn views may fail and the driver may crash anywhere. */
  predicate Benign<L, T, A, V>(rules: Rules<L, T, A, V>, d: Driver<L, A, V>, e: Event<L, A>) {
    && (EndsTheMatch(d, e) ==> !SeatViewFails(rules, e.trouble))
    && (e.AbortSteps? && d.abort == AbortAnnouncing ==> !e.trouble.crashes)
  }

  /** Nothing but a terminal broadcast brings such a run to its end. */
  lemma OnlyTellingEnds<L, T, A, V>(rules: Rules<L, T, A, V>, d: Driver<L, A, V>, e: Event<L, A>)
    requires Control(d) && d.abort != AbortFailed && Benign(rules, d, e) && !Over(d) && !EndsTheMatch(d, e)
    ensures !Over(Next(rules, d, e))
  {
    if e.DriverSteps? && d.pc == AtLoop && d.session.local.Some? {
      AskSeatsOnlyAsks(rules, d, rules.acting(d.session.local.value));
    }
  }

  lemma AbortHolds<L, T, A, V>(rules: Rules<L, T, A, V>, d: Driver<L, A, V>, e: Event<L, A>)
    requires Control(d) && d.abort != AbortFailed && Benign(rules, d, e)
    ensures Next(rules, d, e).abort != AbortFailed
  {
    if e.DriverSteps? && d.pc == AtLoop && d.session.local.Some? {
      AskSeatsOnlyAsks(rules, d, rules.acting(d.session.local.value));
    }
  }

  lemma EndingTells<L, T, A, V>(rules: Rules<L, T, A, V>, d: Driver<L, A, V>, e: Event<L, A>)
    requires Benign(rules, d, e) && EndsTheMatch(d, e)
    ensures TellsTheEnd(rules, d, e) || !Over(Next(rules, d, e)) || Over(d)
  {
  }

  /** However the driver's own code fails, failing turn views included: if the end itself can
      be shown to the seats, a driver that has exited has told each seat still listening on
      its connection exactly one terminal frame, its session's. */
  lemma {:induction false} ExactlyOneTerminalFrame<L, T, A, V>(rules: Rules<L, T, A, V>, events: seq<Event<L, A>>, seat: TableSeat)
    requires forall i :: 0 <= i < |events| ==> Benign(rules, Run(rules, events[..i]), events[i])
    ensures var d := Run(rules, events);
            && d.abort != AbortFailed && (Over(d) ==> EndTold(rules, events))
            && (d.pc == Exited ==>
                  var c := SeatConn(d, seat);
                  c in d.conns && (d.conns[c].open && !d.conns[c].overflowed ==>
                    Ends(d.conns[c]) == [TerminalFrame(rules, d.session, OfSeat(seat))]))
    decreases |events|
  {
    if events != [] {
      var before := events[..|events| - 1];
      var e := events[|events| - 1];
      assert events == before + [e];
      forall i | 0 <= i < |before|
        ensures Benign(rules, Run(rules, before[..i]), before[i])
      {
        assert before[..i] == events[..i];
      }
      ExactlyOneTerminalFrame(rules, before, seat);
      RunControl(rules, before);
      EndToldSnoc(rules, before, e);
      AbortHolds(rules, Run(rules, before), e);
      if EndsTheMatch(Run(rules, before), e) {
        EndingTells(rules, Run(rules, before), e);
      } else if !Over(Run(rules, before)) {
        OnlyTellingEnds(rules, Run(rules, before), e);
      }
    }
    RunHears(rules, events);
    RunTells(rules, events);
  }

  // ---------------------------------------------------------------------------
  // A run that tells nobody
  // ---------------------------------------------------------------------------

  /** When the abort's own view cannot be built and the driver only waits for it, the driver
      exits and nobody has been told anything. */
  lemma FailedAbortTellsNobody<L, T, A, V>(rules: Rules<L, T, A, V>, d: Driver<L, A, V>, trouble: Trouble, other: Trouble)
    requires Control(d) && Hears(rules, d) && d.pc == AwaitAbort(true) && d.abort == AbortNotifying
    requires SeatViewFails(rules, trouble)
    ensures var d' := Next(rules, Next(rules, d, AbortSteps(trouble)), DriverSteps(other));
            d'.pc == Exited && d'.session == d.session && d'.seat0 == d.seat0 && d'.seat1 == d.seat1 && d'.conns == d.conns && NobodyTold(d')
  {
    assert AbortStep(rules, d, trouble) == d.(abort := AbortFailed);
    forall c | c in d.conns
      ensures Ends(d.conns[c]) == []
    {
      assert HeardRightly(rules, d, c, d.conns[c]);
    }
  }
}

/**
 What happens beside the driver, in every run: a seat that resumes, a spectator that attaches,
 and a seat's loop that finds its match ended meanwhile.
 */
module DriverHandlers {
  import opened Wrappers
  import opened Games
  import opened Runtime
  import opened Drivers
  import opened DriverControl
  import opened DriverAnswers
  import opened DriverTruth

  /** A seat may resume while its match is hosted and has not ended. */
  predicate MayResume<L, A, V>(d: Driver<L, A, V>, c: ConnId) {
    c !in d.conns && d.pc != NotStarted && d.pc != Exited && d.session.lifecycle != Finished && d.session.lifecycle != Aborted
  }

  /** The connection a seat resumes on holds its welcome and the match's state. */
  predicate IsWelcomedBack<L, T, A, V(==)>(rules: Rules<L, T, A, V>, s: MatchSession<L>, seat: TableSeat, conn: Conn<V>) {
    && conn.viewer == OfSeat(seat) && conn.open && !conn.overflowed
    && |conn.frames| == 2 && conn.frames[0].Welcome? && IsTrue(rules, s, OfSeat(seat), conn.frames[0])
    && conn.frames[1] == MatchState(s.lifecycle, TurnCount(rules, s))
  }

  /** A resume the server can serve gives the seat a new connection with its whole transcript so
      far, closes the one it had, and touches nobody else's. Any other changes nothing. */
  lemma ResumesSwapTheConnection<L, T, A, V>(rules: Rules<L, T, A, V>, events: seq<Event<L, A>>, seat: TableSeat, c: ConnId, fails: bool)
    ensures var d := Run(rules, events);
            var d' := Run(rules, events + [Resume(seat, c, fails)]);
            var before := SeatConn(d, seat);
            && (!MayResume(d, c) || fails ==> d' == d)
            && (MayResume(d, c) && !fails ==>
                  && d'.session == d.session && d'.pc == d.pc && d'.loops == d.loops && d'.spectators == d.spectators
                  && SeatConn(d', seat) == c && SeatConn(d', 1 - seat) == SeatConn(d, 1 - seat)
                  && c in d'.conns && IsWelcomedBack(rules, d.session, seat, d'.conns[c])
                  && (before in d.conns ==> before in d'.conns && d'.conns[before] == d.conns[before].(open := false))
                  && (forall o :: o in d.conns && o != before ==> o in d'.conns && d'.conns[o] == d.conns[o]))
  {
    RunSnoc(rules, events, Resume(seat, c, fails));
    HistoryIsTrue(rules, Run(rules, events).session, OfSeat(seat));
  }

  /** A spectator may attach at any time, to a match that has ended too, and is welcomed with
      every turn so far in the public rendering. It stays only while more can come. */
  lemma SpectatorsAreWelcomed<L, T, A, V>(rules: Rules<L, T, A, V>, events: seq<Event<L, A>>, c: ConnId, fails: bool)
    ensures var d := Run(rules, events);
            var d' := Run(rules, events + [Attach(c, fails)]);
            var over := d.session.lifecycle == Finished || d.session.lifecycle == Aborted;
            && (c in d.conns || fails ==> d' == d)
            && (c !in d.conns && !fails ==>
                  && c in d'.conns && d' == d.(conns := d.conns[c := d'.conns[c]], spectators := if over then d.spectators else d.spectators + {c})
                  && var conn := d'.conns[c];
                  && conn.viewer == Public && !conn.overflowed && conn.open == !over && conn.nextTurn == TurnCount(rules, d.session)
                  && |conn.frames| == 1 && conn.frames[0].Welcome? && IsTrue(rules, d.session, Public, conn.frames[0]))
  {
    RunSnoc(rules, events, Attach(c, fails));
    HistoryIsTrue(rules, Run(rules, events).session, Public);
  }

  /** A loop that waits in a match no longer running sends nothing more: what it reads, or its
      deadline, only lets it notice the end, and a grace that runs out gives up in silence. */
  lemma EndedMatchesAreNoticed<L, T, A, V>(rules: Rules<L, T, A, V>, events: seq<Event<L, A>>, e: Event<L, A>)
    requires e.Answer? || e.Malformed? || e.TimeUp? || e.GraceOver?
    requires var d := Run(rules, events);
             d.pc == Asking && d.loops.Of(e.seat).Waiting? && d.session.lifecycle != Running
    ensures var d := Run(rules, events);
            Run(rules, events + [e]) ==
              d.(loops := WithLoopAt(d.loops, e.seat, if e.GraceOver? || (e.TimeUp? && e.inGrace) then Aborting else Gone))
  {
    RunControl(rules, events);
    RunSnoc(rules, events, e);
  }
}

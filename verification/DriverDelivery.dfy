/** Every turn reaches a listener exactly once, in order: in its welcome or as a frame. */
module DriverDelivery {
  import opened Wrappers
  import opened Games
  import opened Runtime
  import opened Drivers
  import opened DriverControl
  import opened DriverFrames
  import opened DriverSessions

  // ---------------------------------------------------------------------------
  // What a connection has been sent of the match
  // ---------------------------------------------------------------------------

  function IsNews<V>(): Frame<V> -> bool {
    (f: Frame<V>) => f.Welcome? || f.TurnCommitted?
  }

  /** The turns in a list of welcomes and turn_committed frames, in the order sent. */
  function TurnsIn<V>(news: seq<Frame<V>>): seq<TurnSeen<V>>
    decreases |news|
  {
    if news == [] then []
    else
      var rest := TurnsIn(news[..|news| - 1]);
      match news[|news| - 1]
      case Welcome(_, history) => rest + history
      case TurnCommitted(turn) => rest + [turn]
      case _ => rest
  }

  /** Every turn a connection was sent. */
  function Got<V>(conn: Conn<V>): seq<TurnSeen<V>> {
    TurnsIn(Picked(IsNews(), conn.frames))
  }

  lemma TurnsInSnoc<V>(news: seq<Frame<V>>, turn: TurnSeen<V>)
    ensures TurnsIn(news + [TurnCommitted(turn)]) == TurnsIn(news) + [turn]
  {
    assert (news + [TurnCommitted(turn)])[..|news|] == news;
  }

  lemma GotTurn<V>(conn: Conn<V>, turn: TurnSeen<V>, room: bool)
    ensures var q := Queue(conn, TurnCommitted(turn), room);
            && Later(conn, q) && q.nextTurn == conn.nextTurn && q.open == conn.open
            && Got(q) == (if conn.open && room then Got(conn) + [turn] else Got(conn))
            && (conn.open && !room ==> q.overflowed)
  {
    QueuePicked(IsNews(), conn, TurnCommitted(turn), room);
    TurnsInSnoc(Picked(IsNews(), conn.frames), turn);
  }

  lemma TurnsInWelcome<V>(w: Frame<V>)
    requires w.Welcome?
    ensures TurnsIn([w]) == w.history
  {
    assert [w][..0] == [];
    assert TurnsIn([w]) == [] + w.history;
  }

  lemma GotNewcomer<L, T, A, V>(rules: Rules<L, T, A, V>, d: Driver<L, A, V>, e: Event<L, A>, conn: Conn<V>)
    requires Newcomer(rules, d, e, conn)
    ensures Got(conn) == if e.Start? then [] else HistoryFor(rules, d.session, conn.viewer)
  {
    NewcomerPicked(IsNews(), rules, d, e, conn);
    TurnsInWelcome(Welcome(d.session.lifecycle, HistoryFor(rules, d.session, conn.viewer)));
  }

  lemma PrefixGrows<V>(got: seq<TurnSeen<V>>, history: seq<TurnSeen<V>>)
    requires got <= history && |got| < |history|
    ensures got + [history[|got|]] <= history
  {
  }

  /** What turn `i`'s broadcast does to one connection. */
  lemma TurnDelivered<L, T, A, V>(rules: Rules<L, T, A, V>, s: MatchSession<L>, i: nat, conn: Conn<V>,
                                  isSeat: bool, isSpectator: bool, publicFails: bool, room: bool)
    requires i < |TurnsOf(rules, s)|
    ensures var b := TurnBroadcast(rules, s, i);
            var q := Delivered(conn, isSeat, isSpectator, b, publicFails, room);
            && Later(conn, q) && q.open == conn.open
            && (Got(q) == Got(conn) || Got(q) == Got(conn) + [TurnFor(rules, s, i, conn.viewer)])
            && (isSeat && conn.open && !q.overflowed ==> Got(q) == Got(conn) + [TurnFor(rules, s, i, conn.viewer)])
            && (!isSeat && isSpectator && IsRecipient(b, conn) && !q.overflowed ==>
                  q.nextTurn == i + 1 && (conn.open ==> Got(q) == Got(conn) + [TurnFor(rules, s, i, conn.viewer)]))
            && (!isSeat && !(isSpectator && IsRecipient(b, conn)) ==> Got(q) == Got(conn) && q.nextTurn == conn.nextTurn)
  {
    GotTurn(conn, TurnFor(rules, s, i, conn.viewer), room);
  }

  // ---------------------------------------------------------------------------
  // How far the driver has told
  // ---------------------------------------------------------------------------

  /** The turns broadcast so far, while more may still be. */
  function ToldSoFar<L, T, A, V>(rules: Rules<L, T, A, V>, d: Driver<L, A, V>): Option<nat> {
    match d.pc
    case NotStarted => Some(0)
    case Opening => Some(0)
    case Broadcasting(next, _) => Some(next)
    case _ => if AllTold(d.pc) then Some(|TurnsOf(rules, d.session)|) else None
  }

  /** Where the driver has broadcast every turn: at its loop, asking, and from the end of the
      loop up to the terminal frame. */
  predicate AllTold(pc: Pc) {
    pc == AtLoop || pc == Asking || pc.Storing? || pc == Announce || pc == Ending
  }

  /** Some committed turn is still to be broadcast. In the server no other task runs then. */
  predicate Untold<L, T, A, V>(rules: Rules<L, T, A, V>, d: Driver<L, A, V>) {
    ToldSoFar(rules, d).Some? && ToldSoFar(rules, d).value < |TurnsOf(rules, d.session)|
  }

  predicate Tells<L, T, A, V>(rules: Rules<L, T, A, V>, d: Driver<L, A, V>) {
    && (ToldSoFar(rules, d).Some? ==> ToldSoFar(rules, d).value <= |TurnsOf(rules, d.session)|)
    && (d.pc == Opening && d.session.lifecycle == Aborted ==> TurnsOf(rules, d.session) == [])
  }

  /** What a step does to the count of turns told: only a turn broadcast adds one. */
  predicate Flows<L, T, A, V>(rules: Rules<L, T, A, V>, d: Driver<L, A, V>, d': Driver<L, A, V>, more: nat) {
    ToldSoFar(rules, d').Some? ==> ToldSoFar(rules, d).Some? && ToldSoFar(rules, d').value == ToldSoFar(rules, d).value + more
  }

  lemma TurnStepFlows<L, T, A, V>(rules: Rules<L, T, A, V>, d: Driver<L, A, V>, e: Event<L, A>)
    requires TellsTurn(rules, d, e)
    ensures Flows(rules, d, Next(rules, d, e), 1) && Next(rules, d, e).session == d.session
    ensures Tells(rules, Next(rules, d, e))
  {
    BroadcastOnlySends(rules, d, TurnBroadcast(rules, d.session, d.pc.next), e.trouble);
  }

  lemma DriverStepFlows<L(!new), T(!new), A(!new), V>(rules: Rules<L, T, A, V>, d: Driver<L, A, V>, trouble: Trouble)
    requires WellBehaved(rules) && Control(d) && Tells(rules, d) && !TellsTurn(rules, d, DriverSteps(trouble))
    ensures Flows(rules, d, DriverStep(rules, d, trouble), 0)
  {
    if d.pc == Asking {
      AskingMovesOn(rules, d, trouble);
      AskingFlows(rules, d, trouble);
    } else {
      QuietStepKeepsSession(rules, d, trouble);
      if d.pc == AtLoop && d.session.local.Some? {
        AskSeatsOnlyAsks(rules, d, rules.acting(d.session.local.value));
      }
    }
  }

  lemma AskingFlows<L, T, A, V>(rules: Rules<L, T, A, V>, d: Driver<L, A, V>, trouble: Trouble)
    requires d.pc == Asking
    ensures Flows(rules, d, AskingStep(rules, d, trouble), 0)
  {
  }

  lemma AbortStepFlows<L, T, A, V>(rules: Rules<L, T, A, V>, d: Driver<L, A, V>, trouble: Trouble)
    ensures Flows(rules, d, AbortStep(rules, d, trouble), 0)
  {
    SameHistory(rules, d.session, d.session.(lifecycle := Aborted));
  }

  lemma NextFlows<L(!new), T(!new), A(!new), V>(rules: Rules<L, T, A, V>, d: Driver<L, A, V>, e: Event<L, A>)
    requires WellBehaved(rules) && Control(d) && Tells(rules, d) && !TellsTurn(rules, d, e)
    ensures Flows(rules, d, Next(rules, d, e), 0)
  {
    match e
    case DriverSteps(trouble) => DriverStepFlows(rules, d, trouble);
    case AbortSteps(trouble) => AbortStepFlows(rules, d, trouble);
    case Start(_, _, _) =>
    case Resume(_, _, _) =>
    case Attach(_, _) =>
    case Detach(_) =>
    case SocketCloses(_) =>
    case FallsBehind(_) =>
    case _ => SeatStepSeats(rules, d, e);
  }

  /** A match that was refused at its start opens with no turns. */
  lemma OpeningStays<L, T, A, V>(rules: Rules<L, T, A, V>, d: Driver<L, A, V>, e: Event<L, A>)
    requires Control(d) && Tells(rules, d)
    ensures var d' := Next(rules, d, e);
            d'.pc == Opening && d'.session.lifecycle == Aborted ==> TurnsOf(rules, d'.session) == []
  {
    match e
    case DriverSteps(trouble) =>
      if d.pc == AtLoop && d.session.local.Some? {
        AskSeatsOnlyAsks(rules, d, rules.acting(d.session.local.value));
      }
    case AbortSteps(_) =>
    case Start(_, _, _) =>
    case Resume(_, _, _) =>
    case Attach(_, _) =>
    case Detach(_) =>
    case SocketCloses(_) =>
    case FallsBehind(_) =>
    case _ => SeatStepSeats(rules, d, e);
  }

  lemma NextTells<L(!new), T(!new), A(!new), V>(rules: Rules<L, T, A, V>, d: Driver<L, A, V>, e: Event<L, A>)
    requires WellBehaved(rules) && Control(d) && Tells(rules, d) && (d.pc == NotStarted ==> d.session.local.None?)
    ensures Tells(rules, Next(rules, d, e))
    ensures HistoryGrows(rules, d.session, Next(rules, d, e).session)
    ensures |TurnsOf(rules, d.session)| <= |TurnsOf(rules, Next(rules, d, e).session)|
  {
    NextMovesOn(rules, d, e);
    HistoryLength(rules, d.session, Next(rules, d, e).session);
    OpeningStays(rules, d, e);
    if TellsTurn(rules, d, e) {
      TurnStepFlows(rules, d, e);
    } else {
      NextFlows(rules, d, e);
    }
  }

  // ---------------------------------------------------------------------------
  // Spectators
  // ---------------------------------------------------------------------------

  /** A public connection's turns are the first of the public transcript; one still watching
      on an open socket has been sent exactly those below its watermark, which is no
      further back than the driver. */
  predicate WatchesRightly<L, T, A, V(==)>(rules: Rules<L, T, A, V>, d: Driver<L, A, V>, c: ConnId, conn: Conn<V>) {
    conn.viewer == Public ==>
      && Got(conn) <= HistoryFor(rules, d.session, Public)
      && (c in d.spectators ==>
            && conn.nextTurn <= |TurnsOf(rules, d.session)|
            && (conn.open ==> |Got(conn)| == conn.nextTurn)
            && (ToldSoFar(rules, d).Some? ==> ToldSoFar(rules, d).value <= conn.nextTurn))
  }

  ghost predicate Watches<L, T, A, V>(rules: Rules<L, T, A, V>, d: Driver<L, A, V>) {
    Tells(rules, d) && forall c :: c in d.conns ==> WatchesRightly(rules, d, c, d.conns[c])
  }

  /** How a turn broadcast reaches one connection. */
  lemma TurnStepReaches<L, T, A, V>(rules: Rules<L, T, A, V>, d: Driver<L, A, V>, e: Event<L, A>, c: ConnId) returns (publicFails: bool)
    requires TellsTurn(rules, d, e) && c in d.conns
    ensures c in Next(rules, d, e).conns
    ensures var conn := Next(rules, d, e).conns[c];
            || (conn == d.conns[c] && Next(rules, d, e).pc == Crashed)
            || (&& conn == Delivered(d.conns[c], IsSeatConn(d, c), c in d.spectators, TurnBroadcast(rules, d.session, d.pc.next), publicFails, c !in e.trouble.full)
                && (c in Next(rules, d, e).spectators ==> !conn.overflowed))
  {
    publicFails := PublicViewFails(rules, d, TurnBroadcast(rules, d.session, d.pc.next), e.trouble);
  }

  /** A turn broadcast, met by one spectator. */
  lemma TurnStepWatches<L, T, A, V>(rules: Rules<L, T, A, V>, d: Driver<L, A, V>, e: Event<L, A>, c: ConnId)
    requires TellsTurn(rules, d, e) && Seated(d) && Watches(rules, d) && c in d.conns
    ensures c in Next(rules, d, e).conns && WatchesRightly(rules, Next(rules, d, e), c, Next(rules, d, e).conns[c])
  {
    TurnStepFlows(rules, d, e);
    TurnStepKeys(rules, d, e);
    var publicFails := TurnStepReaches(rules, d, e, c);
    var conn := d.conns[c];
    assert WatchesRightly(rules, d, c, conn);
    TurnDelivered(rules, d.session, d.pc.next, conn, IsSeatConn(d, c), c in d.spectators, publicFails, c !in e.trouble.full);
    if conn.viewer == Public && |Got(conn)| == d.pc.next {
      PrefixGrows(Got(conn), HistoryFor(rules, d.session, Public));
    }
    if conn.viewer == Public {
      SpectatorsAreNotSeats(d, c);
    }
    ClosedGetsNothing(rules, d, e, c);
  }

  lemma SpectatorsAreNotSeats<L, A, V>(d: Driver<L, A, V>, c: ConnId)
    requires Seated(d) && d.pc != NotStarted && c in d.conns && d.conns[c].viewer == Public
    ensures !IsSeatConn(d, c)
  {
  }

  /** A turn broadcast queues nothing on a closed socket. */
  lemma ClosedGetsNothing<L, T, A, V>(rules: Rules<L, T, A, V>, d: Driver<L, A, V>, e: Event<L, A>, c: ConnId)
    requires TellsTurn(rules, d, e) && c in d.conns && c in Next(rules, d, e).conns
    ensures !d.conns[c].open ==> Next(rules, d, e).conns[c].frames == d.conns[c].frames
  {
  }

  /** Any other step, met by a connection there was. */
  lemma OldWatches<L, T, A, V>(rules: Rules<L, T, A, V>, d: Driver<L, A, V>, e: Event<L, A>, c: ConnId)
    requires Watches(rules, d) && c in d.conns && c in Next(rules, d, e).conns
    requires SameFor(IsNews(), d.conns[c], Next(rules, d, e).conns[c])
    requires Flows(rules, d, Next(rules, d, e), 0) && HistoryGrows(rules, d.session, Next(rules, d, e).session)
    ensures WatchesRightly(rules, Next(rules, d, e), c, Next(rules, d, e).conns[c])
  {
    assert WatchesRightly(rules, d, c, d.conns[c]);
    assert HistoryFor(rules, d.session, Public) <= HistoryFor(rules, Next(rules, d, e).session, Public);
    OldWatchers(rules, d, e, c);
  }

  lemma NewcomerWatches<L, T, A, V>(rules: Rules<L, T, A, V>, d: Driver<L, A, V>, e: Event<L, A>, c: ConnId)
    requires Admits(e) && c !in d.conns && c in Next(rules, d, e).conns && Tells(rules, d)
    ensures WatchesRightly(rules, Next(rules, d, e), c, Next(rules, d, e).conns[c])
  {
    NewConns(rules, d, e, c);
    GotNewcomer(rules, d, e, Next(rules, d, e).conns[c]);
  }

  lemma NextWatches<L(!new), T(!new), A(!new), V>(rules: Rules<L, T, A, V>, d: Driver<L, A, V>, e: Event<L, A>)
    requires WellBehaved(rules) && Control(d) && Seated(d) && Watches(rules, d) && (d.pc == NotStarted ==> d.session.local.None?)
    ensures Watches(rules, Next(rules, d, e))
  {
    var d' := Next(rules, d, e);
    NextTells(rules, d, e);
    if TellsTurn(rules, d, e) {
      TurnStepKeys(rules, d, e);
      forall c | c in d'.conns
        ensures WatchesRightly(rules, d', c, d'.conns[c])
      {
        TurnStepWatches(rules, d, e, c);
      }
    } else {
      NextFlows(rules, d, e);
      NextSame(IsNews(), rules, d, e);
      forall c | c in d'.conns
        ensures WatchesRightly(rules, d', c, d'.conns[c])
      {
        if c in d.conns {
          OldWatches(rules, d, e, c);
        } else {
          NewcomerWatches(rules, d, e, c);
        }
      }
    }
  }

  lemma TurnStepKeys<L, T, A, V>(rules: Rules<L, T, A, V>, d: Driver<L, A, V>, e: Event<L, A>)
    requires TellsTurn(rules, d, e)
    ensures Next(rules, d, e).conns.Keys == d.conns.Keys && SameSeats(d, Next(rules, d, e))
  {
    BroadcastStepSeats(rules, d, e.trouble);
    var b := TurnBroadcast(rules, d.session, d.pc.next);
    if Broadcasted(rules, d, b, e.trouble).Some? {
      BroadcastSeats(rules, d, b, e.trouble);
    }
  }

  /** Nobody starts to watch on an old connection. */
  lemma OldWatchers<L, T, A, V>(rules: Rules<L, T, A, V>, d: Driver<L, A, V>, e: Event<L, A>, c: ConnId)
    requires c in d.conns
    ensures c in Next(rules, d, e).spectators ==> c in d.spectators
  {
    if !Admits(e) {
      StepSeats(rules, d, e);
    }
  }

  lemma {:induction false} RunWatches<L(!new), T(!new), A(!new), V>(rules: Rules<L, T, A, V>, events: seq<Event<L, A>>)
    requires WellBehaved(rules)
    ensures Control(Run(rules, events)) && Seated(Run(rules, events)) && Watches(rules, Run(rules, events))
    decreases |events|
  {
    RunControl(rules, events);
    if events != [] {
      var before := events[..|events| - 1];
      RunWatches(rules, before);
      NotStartedHasNoMatch(rules, before);
      SeatedNext(rules, Run(rules, before), events[|events| - 1]);
      NextWatches(rules, Run(rules, before), events[|events| - 1]);
    }
  }

  /** For every interleaving of attaches, commits of several turns and per-turn broadcasts:
      the turns in a spectator's welcome followed by its turn_committed frames are the first
      turns of the public transcript, each once and in order; and whenever the driver waits
      for the seats, and when it is about to send the terminal frame, a spectator still
      listening has been sent the whole of it. */
  lemma SpectatorsGetEveryTurnOnce<L(!new), T(!new), A(!new), V>(rules: Rules<L, T, A, V>, events: seq<Event<L, A>>, c: ConnId)
    requires WellBehaved(rules)
    requires c in Run(rules, events).conns && Run(rules, events).conns[c].viewer == Public
    ensures var d := Run(rules, events);
            && Got(d.conns[c]) <= HistoryFor(rules, d.session, Public)
            && (forall i :: 0 <= i < |Got(d.conns[c])| ==> Got(d.conns[c])[i].index == i)
            && (AllTold(d.pc) && c in d.spectators && d.conns[c].open ==> Got(d.conns[c]) == HistoryFor(rules, d.session, Public))
  {
    RunWatches(rules, events);
    var d := Run(rules, events);
    assert WatchesRightly(rules, d, c, d.conns[c]);
  }

  // ---------------------------------------------------------------------------
  // Seats
  // ---------------------------------------------------------------------------

  /** A seat's connection that has not fallen behind was sent the first turns of its own
      transcript; the live one, exactly those the driver has told. */
  predicate PlaysRightly<L, T, A, V(==)>(rules: Rules<L, T, A, V>, d: Driver<L, A, V>, c: ConnId, conn: Conn<V>) {
    conn.viewer.OfSeat? && !conn.overflowed ==>
      && Got(conn) <= HistoryFor(rules, d.session, conn.viewer)
      && (c == SeatConn(d, conn.viewer.seat) && conn.open && ToldSoFar(rules, d).Some? ==> |Got(conn)| == ToldSoFar(rules, d).value)
  }

  ghost predicate Plays<L, T, A, V>(rules: Rules<L, T, A, V>, d: Driver<L, A, V>) {
    Tells(rules, d) && forall c :: c in d.conns ==> PlaysRightly(rules, d, c, d.conns[c])
  }

  /** A turn broadcast, met by a seat's connection that keeps up. */
  lemma TurnReachesPlayer<L, T, A, V>(rules: Rules<L, T, A, V>, d: Driver<L, A, V>, e: Event<L, A>, c: ConnId)
    requires TellsTurn(rules, d, e) && c in d.conns && PlaysRightly(rules, d, c, d.conns[c])
    requires d.conns[c].viewer.OfSeat? && Seated(d)
    ensures c in Next(rules, d, e).conns
    ensures var conn := Next(rules, d, e).conns[c];
            conn.viewer == d.conns[c].viewer &&
            (!conn.overflowed ==>
              && Got(conn) <= HistoryFor(rules, d.session, conn.viewer)
              && (conn.open && c == SeatConn(d, conn.viewer.seat) && Next(rules, d, e).pc != Crashed ==> |Got(conn)| == d.pc.next + 1))
  {
    var publicFails := TurnStepReaches(rules, d, e, c);
    var conn := d.conns[c];
    TurnDelivered(rules, d.session, d.pc.next, conn, IsSeatConn(d, c), c in d.spectators, publicFails, c !in e.trouble.full);
    ClosedGetsNothing(rules, d, e, c);
    if |Got(conn)| == d.pc.next && !conn.overflowed {
      PrefixGrows(Got(conn), HistoryFor(rules, d.session, conn.viewer));
    }
  }

  lemma TurnStepPlays<L, T, A, V>(rules: Rules<L, T, A, V>, d: Driver<L, A, V>, e: Event<L, A>, c: ConnId)
    requires TellsTurn(rules, d, e) && Seated(d) && Plays(rules, d) && c in d.conns
    ensures c in Next(rules, d, e).conns && PlaysRightly(rules, Next(rules, d, e), c, Next(rules, d, e).conns[c])
  {
    TurnStepFlows(rules, d, e);
    TurnStepKeys(rules, d, e);
    assert PlaysRightly(rules, d, c, d.conns[c]);
    if d.conns[c].viewer.OfSeat? {
      TurnReachesPlayer(rules, d, e, c);
    } else {
      var publicFails := TurnStepReaches(rules, d, e, c);
      TurnDelivered(rules, d.session, d.pc.next, d.conns[c], IsSeatConn(d, c), c in d.spectators, publicFails, c !in e.trouble.full);
    }
  }

  lemma OldPlays<L, T, A, V>(rules: Rules<L, T, A, V>, d: Driver<L, A, V>, e: Event<L, A>, c: ConnId)
    requires Seated(d) && Plays(rules, d) && c in d.conns && c in Next(rules, d, e).conns
    requires SameFor(IsNews(), d.conns[c], Next(rules, d, e).conns[c])
    requires Flows(rules, d, Next(rules, d, e), 0) && HistoryGrows(rules, d.session, Next(rules, d, e).session)
    ensures PlaysRightly(rules, Next(rules, d, e), c, Next(rules, d, e).conns[c])
  {
    var viewer := d.conns[c].viewer;
    assert PlaysRightly(rules, d, c, d.conns[c]);
    assert HistoryFor(rules, d.session, viewer) <= HistoryFor(rules, Next(rules, d, e).session, viewer);
    if viewer.OfSeat? {
      OldSeats(rules, d, e, c);
    }
  }

  lemma NextPlays<L(!new), T(!new), A(!new), V>(rules: Rules<L, T, A, V>, d: Driver<L, A, V>, e: Event<L, A>)
    requires WellBehaved(rules) && Control(d) && Seated(d) && Plays(rules, d) && (d.pc == NotStarted ==> d.session.local.None?)
    requires e.Resume? ==> !Untold(rules, d)
    ensures Plays(rules, Next(rules, d, e))
  {
    var d' := Next(rules, d, e);
    NextTells(rules, d, e);
    if TellsTurn(rules, d, e) {
      TurnStepKeys(rules, d, e);
      forall c | c in d'.conns
        ensures PlaysRightly(rules, d', c, d'.conns[c])
      {
        TurnStepPlays(rules, d, e, c);
      }
    } else {
      NextFlows(rules, d, e);
      NextSame(IsNews(), rules, d, e);
      forall c | c in d'.conns
        ensures PlaysRightly(rules, d', c, d'.conns[c])
      {
        if c in d.conns {
          OldPlays(rules, d, e, c);
        } else {
          NewcomerPlays(rules, d, e, c);
        }
      }
    }
  }

  /** No seat passes to an old connection. */
  lemma OldSeats<L, T, A, V>(rules: Rules<L, T, A, V>, d: Driver<L, A, V>, e: Event<L, A>, c: ConnId)
    requires c in d.conns && d.conns[c].viewer.OfSeat? && Seated(d)
    ensures c == SeatConn(Next(rules, d, e), d.conns[c].viewer.seat) ==> c == SeatConn(d, d.conns[c].viewer.seat)
  {
    if !Admits(e) {
      StepSeats(rules, d, e);
    }
  }

  lemma NewcomerPlays<L, T, A, V>(rules: Rules<L, T, A, V>, d: Driver<L, A, V>, e: Event<L, A>, c: ConnId)
    requires Admits(e) && c !in d.conns && c in Next(rules, d, e).conns && Control(d) && Tells(rules, d)
    requires e.Resume? ==> !Untold(rules, d)
    ensures PlaysRightly(rules, Next(rules, d, e), c, Next(rules, d, e).conns[c])
  {
    NewConns(rules, d, e, c);
    GotNewcomer(rules, d, e, Next(rules, d, e).conns[c]);
  }

  /** No seat resumes between a commit and its last turn's broadcast: in the server those are
      one stretch with no suspension. */
  ghost predicate ResumesWhole<L, T, A, V>(rules: Rules<L, T, A, V>, events: seq<Event<L, A>>) {
    forall i :: 0 <= i < |events| && events[i].Resume? ==> !Untold(rules, Run(rules, events[..i]))
  }

  lemma {:induction false} RunPlays<L(!new), T(!new), A(!new), V>(rules: Rules<L, T, A, V>, events: seq<Event<L, A>>)
    requires WellBehaved(rules) && ResumesWhole(rules, events)
    ensures Control(Run(rules, events)) && Seated(Run(rules, events)) && Plays(rules, Run(rules, events))
    decreases |events|
  {
    RunControl(rules, events);
    if events != [] {
      var before := events[..|events| - 1];
      forall i | 0 <= i < |before| && before[i].Resume?
        ensures !Untold(rules, Run(rules, before[..i]))
      {
        assert before[..i] == events[..i] && events[i].Resume?;
      }
      RunPlays(rules, before);
      NotStartedHasNoMatch(rules, before);
      SeatedNext(rules, Run(rules, before), events[|events| - 1]);
      NextPlays(rules, Run(rules, before), events[|events| - 1]);
    }
  }

  /** A seat, through its resumes, is sent every turn of its own transcript once and in order,
      in its welcome or live, for as long as its connection keeps up; and all of them whenever
      the driver waits for the seats or is about to send the terminal frame. */
  lemma SeatsGetEveryTurnOnce<L(!new), T(!new), A(!new), V>(rules: Rules<L, T, A, V>, events: seq<Event<L, A>>, c: ConnId)
    requires WellBehaved(rules) && ResumesWhole(rules, events)
    requires var d := Run(rules, events); c in d.conns && d.conns[c].viewer.OfSeat? && !d.conns[c].overflowed
    ensures var d := Run(rules, events);
            && Got(d.conns[c]) <= HistoryFor(rules, d.session, d.conns[c].viewer)
            && (forall i :: 0 <= i < |Got(d.conns[c])| ==> Got(d.conns[c])[i].index == i)
            && (AllTold(d.pc) && c == SeatConn(d, d.conns[c].viewer.seat) && d.conns[c].open ==>
                  Got(d.conns[c]) == HistoryFor(rules, d.session, d.conns[c].viewer))
  {
    RunPlays(rules, events);
    var d := Run(rules, events);
    assert PlaysRightly(rules, d, c, d.conns[c]);
  }

  /** A seat that resumes holds its whole history, turns still to be broadcast included. */
  lemma ResumedHolds<L, T, A, V>(rules: Rules<L, T, A, V>, d: Driver<L, A, V>, seat: TableSeat, c: ConnId)
    requires c !in d.conns && !Ended(d.session.lifecycle) && d.pc != NotStarted && d.pc != Exited
    ensures var d' := Next(rules, d, Resume(seat, c, false));
            && c in d'.conns && d'.conns[c].viewer == OfSeat(seat) && d'.conns[c].open
            && Got(d'.conns[c]) == HistoryFor(rules, d.session, OfSeat(seat))
            && c == SeatConn(d', seat) && d'.session == d.session && d'.pc == d.pc
  {
    var e := Resume(seat, c, false);
    assert c in Next(rules, d, e).conns;
    NewConns(rules, d, e, c);
    GotNewcomer(rules, d, e, Next(rules, d, e).conns[c]);
  }

  /** A broadcast with nothing in its way reaches an open seat connection. */
  lemma TurnReachesSeat<L, T, A, V>(rules: Rules<L, T, A, V>, d: Driver<L, A, V>, c: ConnId)
    requires d.pc.Broadcasting? && d.pc.next < |TurnsOf(rules, d.session)| && c in d.conns && IsSeatConn(d, c) && d.conns[c].open
    ensures var d' := Next(rules, d, DriverSteps(Trouble({}, {}, false)));
            c in d'.conns && Got(d'.conns[c]) == Got(d.conns[c]) + [TurnFor(rules, d.session, d.pc.next, d.conns[c].viewer)]
  {
    GotTurn(d.conns[c], TurnFor(rules, d.session, d.pc.next, d.conns[c].viewer), true);
  }

  /** And only then: a seat that resumed while turn `i` was still to be broadcast would get
      it in its welcome and again live. */
  lemma ResumeMidBroadcastRepeats<L, T, A, V>(rules: Rules<L, T, A, V>, d: Driver<L, A, V>, seat: TableSeat, c: ConnId)
    requires c !in d.conns && !Ended(d.session.lifecycle)
    requires d.pc.Broadcasting? && d.pc.next < |TurnsOf(rules, d.session)|
    ensures var d' := Next(rules, Next(rules, d, Resume(seat, c, false)), DriverSteps(Trouble({}, {}, false)));
            && c in d'.conns
            && Got(d'.conns[c]) == HistoryFor(rules, d.session, OfSeat(seat)) + [TurnFor(rules, d.session, d.pc.next, OfSeat(seat))]
            && Got(d'.conns[c])[d.pc.next] == Got(d'.conns[c])[|Got(d'.conns[c])| - 1]
  {
    ResumedHolds(rules, d, seat, c);
    TurnReachesSeat(rules, Next(rules, d, Resume(seat, c, false)), c);
  }
}

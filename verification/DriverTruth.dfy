/** No frame lies: whatever is queued on any connection was so when it was queued. */
module DriverTruth {
  import opened Wrappers
  import opened Games
  import opened Runtime
  import opened Drivers
  import opened DriverControl
  import opened DriverFrames

  /** The match as a viewer may see it, turn by turn. */
  predicate IsHistory<L, T, A, V(==)>(rules: Rules<L, T, A, V>, s: MatchSession<L>, viewer: Viewer, history: seq<TurnSeen<V>>) {
    var turns := if s.local.Some? then rules.turns(s.local.value) else [];
    && |history| == |turns|
    && forall i :: 0 <= i < |turns| ==>
         history[i] == TurnSeen(i, rules.view(s.local.value, turns[i], if rules.hidden then viewer else Public))
  }

  function TurnCount<L, T, A, V>(rules: Rules<L, T, A, V>, s: MatchSession<L>): nat {
    if s.local.Some? then |rules.turns(s.local.value)| else 0
  }

  /** What a frame claims of the match holds of this session, as its viewer may see it. */
  predicate IsTrue<L, T, A, V(==)>(rules: Rules<L, T, A, V>, s: MatchSession<L>, viewer: Viewer, f: Frame<V>) {
    match f
    case Welcome(lifecycle, history) => lifecycle == s.lifecycle && IsHistory(rules, s, viewer, history)
    case TurnCommitted(turn) =>
      && s.local.Some? && turn.index < |rules.turns(s.local.value)|
      && turn.view == rules.view(s.local.value, rules.turns(s.local.value)[turn.index], if rules.hidden then viewer else Public)
    case MatchState(lifecycle, turnCount) => lifecycle == s.lifecycle && turnCount == TurnCount(rules, s)
    case ObservationRequest(turnCount) => turnCount == TurnCount(rules, s)
    case FinishedFrame(history) => s.lifecycle == Finished && IsHistory(rules, s, viewer, history)
    case AbortedFrame(reason, history) => s.lifecycle == Aborted && reason == s.reason && IsHistory(rules, s, viewer, history)
    case ActionRejected(_, _) => true
    case ErrorFrame => true
  }

  function Truth<L, T, A, V(==)>(rules: Rules<L, T, A, V>, s: MatchSession<L>): (Viewer, Frame<V>) -> bool {
    (viewer, f) => IsTrue(rules, s, viewer, f)
  }

  // ---------------------------------------------------------------------------
  // Adding frames of one sort
  // ---------------------------------------------------------------------------

  /** Of the frames a connection holds, all from the `from`th on are of the sort. */
  ghost predicate AllFrom<V>(p: (Viewer, Frame<V>) -> bool, conn: Conn<V>, from: nat) {
    forall i :: from <= i < |conn.frames| ==> p(conn.viewer, conn.frames[i])
  }

  /** Frames are only added, and only of the sort; a new connection holds only such. */
  ghost predicate Adds<V>(p: (Viewer, Frame<V>) -> bool, conns: map<ConnId, Conn<V>>, conns': map<ConnId, Conn<V>>) {
    && (forall c :: c in conns ==>
          c in conns' && conns'[c].viewer == conns[c].viewer && conns[c].frames <= conns'[c].frames && AllFrom(p, conns'[c], |conns[c].frames|))
    && (forall c :: c in conns' && c !in conns ==> AllFrom(p, conns'[c], 0))
  }

  lemma AddsTwice<V>(p: (Viewer, Frame<V>) -> bool, a: map<ConnId, Conn<V>>, b: map<ConnId, Conn<V>>, c: map<ConnId, Conn<V>>)
    requires Adds(p, a, b) && Adds(p, b, c)
    ensures Adds(p, a, c)
  {
    forall k | k in a
      ensures k in c && c[k].viewer == a[k].viewer && a[k].frames <= c[k].frames && AllFrom(p, c[k], |a[k].frames|)
    {
      forall i | |a[k].frames| <= i < |c[k].frames|
        ensures p(c[k].viewer, c[k].frames[i])
      {
        if i < |b[k].frames| {
          assert c[k].frames[i] == b[k].frames[i];
        }
      }
    }
    forall k | k in c && k !in a
      ensures AllFrom(p, c[k], 0)
    {
      forall i | 0 <= i < |c[k].frames|
        ensures p(c[k].viewer, c[k].frames[i])
      {
        if k in b && i < |b[k].frames| {
          assert c[k].frames[i] == b[k].frames[i];
        }
      }
    }
  }

  lemma SendAdds<L, A, V>(p: (Viewer, Frame<V>) -> bool, d: Driver<L, A, V>, c: ConnId, f: Frame<V>)
    requires c in d.conns ==> p(d.conns[c].viewer, f)
    ensures Adds(p, d.conns, Send(d, c, f).conns)
  {
  }

  lemma CloseAdds<V>(p: (Viewer, Frame<V>) -> bool, conns: map<ConnId, Conn<V>>, c: ConnId)
    requires c in conns
    ensures Adds(p, conns, conns[c := conns[c].(open := false)])
    ensures Adds(p, conns, conns[c := conns[c].(overflowed := true)])
  {
  }

  lemma NewAdds<V>(p: (Viewer, Frame<V>) -> bool, conns: map<ConnId, Conn<V>>, c: ConnId, conn: Conn<V>)
    requires c !in conns && AllFrom(p, conn, 0)
    ensures Adds(p, conns, conns[c := conn])
  {
  }

  lemma NothingAdds<V>(p: (Viewer, Frame<V>) -> bool, conns: map<ConnId, Conn<V>>)
    ensures Adds(p, conns, conns)
  {
  }

  lemma DeliveryAdds<V>(p: (Viewer, Frame<V>) -> bool, conn: Conn<V>, isSeat: bool, isSpectator: bool, b: Broadcast<V>, publicFails: bool, room: bool)
    requires p(conn.viewer, b.build(conn.viewer))
    ensures var conn' := Delivered(conn, isSeat, isSpectator, b, publicFails, room);
            conn'.viewer == conn.viewer && conn.frames <= conn'.frames && AllFrom(p, conn', |conn.frames|)
  {
  }

  lemma BroadcastAdds<L, T, A, V>(p: (Viewer, Frame<V>) -> bool, rules: Rules<L, T, A, V>, d: Driver<L, A, V>, b: Broadcast<V>, trouble: Trouble)
    requires forall v :: p(v, b.build(v))
    ensures Broadcasted(rules, d, b, trouble).Some? ==> Adds(p, d.conns, Broadcasted(rules, d, b, trouble).value.conns)
  {
    var r := Broadcasted(rules, d, b, trouble);
    if r.Some? {
      var publicFails := PublicViewFails(rules, d, b, trouble);
      forall c | c in d.conns
        ensures r.value.conns[c].viewer == d.conns[c].viewer && d.conns[c].frames <= r.value.conns[c].frames
        ensures AllFrom(p, r.value.conns[c], |d.conns[c].frames|)
      {
        DeliveryAdds(p, d.conns[c], IsSeatConn(d, c), c in d.spectators, b, publicFails, c !in trouble.full);
      }
    }
  }

  // ---------------------------------------------------------------------------
  // Each step
  // ---------------------------------------------------------------------------

  lemma HistoryIsTrue<L, T, A, V>(rules: Rules<L, T, A, V>, s: MatchSession<L>, viewer: Viewer)
    ensures IsHistory(rules, s, viewer, HistoryFor(rules, s, viewer))
    ensures |TurnsOf(rules, s)| == TurnCount(rules, s)
  {
  }

  lemma TerminalIsTrue<L, T, A, V>(rules: Rules<L, T, A, V>, s: MatchSession<L>, viewer: Viewer)
    requires Ended(s.lifecycle)
    ensures IsTrue(rules, s, viewer, TerminalFrame(rules, s, viewer))
  {
    HistoryIsTrue(rules, s, viewer);
  }

  lemma TerminalBroadcastAdds<L, T, A, V>(rules: Rules<L, T, A, V>, d: Driver<L, A, V>, trouble: Trouble)
    requires Ended(d.session.lifecycle)
    ensures var r := Broadcasted(rules, d, TerminalBroadcast(rules, d.session), trouble);
            r.Some? ==> Adds(Truth(rules, d.session), d.conns, r.value.conns)
  {
    forall v
      ensures Truth(rules, d.session)(v, TerminalBroadcast(rules, d.session).build(v))
    {
      TerminalIsTrue(rules, d.session, v);
    }
    BroadcastAdds(Truth(rules, d.session), rules, d, TerminalBroadcast(rules, d.session), trouble);
  }

  lemma StateBroadcastAdds<L, T, A, V>(rules: Rules<L, T, A, V>, d: Driver<L, A, V>, trouble: Trouble)
    ensures var r := Broadcasted(rules, d, StateBroadcast(rules, d.session), trouble);
            r.Some? ==> Adds(Truth(rules, d.session), d.conns, r.value.conns)
  {
    BroadcastAdds(Truth(rules, d.session), rules, d, StateBroadcast(rules, d.session), trouble);
  }

  lemma TurnBroadcastAdds<L, T, A, V>(rules: Rules<L, T, A, V>, d: Driver<L, A, V>, i: nat, trouble: Trouble)
    requires i < |TurnsOf(rules, d.session)|
    ensures var r := Broadcasted(rules, d, TurnBroadcast(rules, d.session, i), trouble);
            r.Some? ==> Adds(Truth(rules, d.session), d.conns, r.value.conns)
  {
    BroadcastAdds(Truth(rules, d.session), rules, d, TurnBroadcast(rules, d.session, i), trouble);
  }

  lemma AskSeatsAdds<L, T, A, V>(rules: Rules<L, T, A, V>, d: Driver<L, A, V>, seats: seq<Seat>)
    ensures Adds(Truth(rules, d.session), d.conns, AskSeats(rules, d, seats).conns)
  {
    var f: Frame<V> := ObservationRequest(|TurnsOf(rules, d.session)|);
    var first := Send(d, d.seat0, f);
    SendAdds(Truth(rules, d.session), d, d.seat0, f);
    SendAdds(Truth(rules, d.session), d, d.seat1, f);
    SendAdds(Truth(rules, d.session), first, d.seat1, f);
    AddsTwice(Truth(rules, d.session), d.conns, first.conns, Send(first, d.seat1, f).conns);
    AskSeatsConns(rules, d, seats);
  }

  lemma LoopStepAdds<L, T, A, V>(rules: Rules<L, T, A, V>, d: Driver<L, A, V>, trouble: Trouble)
    requires d.pc == AtLoop
    ensures Adds(Truth(rules, d.session), d.conns, LoopStep(rules, d, trouble).conns)
  {
    NothingAdds(Truth(rules, d.session), d.conns);
    if d.session.local.Some? {
      AskSeatsAdds(rules, d, rules.acting(d.session.local.value));
    }
  }

  lemma AnnounceAdds<L, T, A, V>(rules: Rules<L, T, A, V>, d: Driver<L, A, V>, trouble: Trouble)
    requires d.pc == Announce
    ensures Adds(Truth(rules, d.session), d.conns, DriverStep(rules, d, trouble).conns)
  {
    NothingAdds(Truth(rules, d.session), d.conns);
    StateBroadcastAdds(rules, d, StateTrouble(trouble));
  }

  /** The steps that are neither a broadcast nor a request send nothing. */
  lemma SilentSteps<L, T, A, V>(rules: Rules<L, T, A, V>, d: Driver<L, A, V>, trouble: Trouble)
    requires !d.pc.Broadcasting? && d.pc != AtLoop && d.pc != Announce && d.pc != Ending && d.pc != CrashEnding
    ensures DriverStep(rules, d, trouble).conns == d.conns
  {
  }

  lemma DriverStepAdds<L, T, A, V>(rules: Rules<L, T, A, V>, d: Driver<L, A, V>, trouble: Trouble)
    requires Control(d)
    ensures Adds(Truth(rules, d.session), d.conns, DriverStep(rules, d, trouble).conns)
  {
    if d.pc.Broadcasting? {
      BroadcastStepAdds(rules, d, trouble);
    } else if d.pc == AtLoop {
      LoopStepAdds(rules, d, trouble);
    } else if d.pc == Announce {
      AnnounceAdds(rules, d, trouble);
    } else if d.pc == Ending || d.pc == CrashEnding {
      EndingAdds(rules, d, trouble);
    } else {
      NothingAdds(Truth(rules, d.session), d.conns);
      SilentSteps(rules, d, trouble);
    }
  }

  lemma EndingAdds<L, T, A, V>(rules: Rules<L, T, A, V>, d: Driver<L, A, V>, trouble: Trouble)
    requires Control(d) && (d.pc == Ending || d.pc == CrashEnding)
    ensures Adds(Truth(rules, d.session), d.conns, DriverStep(rules, d, trouble).conns)
  {
    if Ended(d.session.lifecycle) {
      TerminalBroadcastAdds(rules, d, trouble);
    }
  }

  lemma BroadcastStepAdds<L, T, A, V>(rules: Rules<L, T, A, V>, d: Driver<L, A, V>, trouble: Trouble)
    requires d.pc.Broadcasting?
    ensures Adds(Truth(rules, d.session), d.conns, BroadcastStep(rules, d, trouble).conns)
  {
    if d.pc.next < |TurnsOf(rules, d.session)| {
      TurnBroadcastAdds(rules, d, d.pc.next, trouble);
    } else {
      StateBroadcastAdds(rules, d, StateTrouble(trouble));
    }
  }

  lemma AbortStepAdds<L, T, A, V>(rules: Rules<L, T, A, V>, d: Driver<L, A, V>, trouble: Trouble)
    requires Control(d)
    ensures Adds(Truth(rules, d.session), d.conns, AbortStep(rules, d, trouble).conns)
  {
    match d.abort
    case AbortAnnouncing => StateBroadcastAdds(rules, d, StateTrouble(trouble));
    case AbortNotifying => TerminalBroadcastAdds(rules, d, trouble);
    case _ =>
  }

  lemma AnswerAdds<L, T, A, V>(rules: Rules<L, T, A, V>, d: Driver<L, A, V>, seat: TableSeat, turnId: TurnId, action: A)
    requires Listening(d, seat)
    ensures Adds(Truth(rules, d.session), d.conns, AnswerStep(rules, d, seat, turnId, action).conns)
  {
    var j := Judged(d, seat, turnId);
    NothingAdds(Truth(rules, d.session), d.conns);
    RejectConns(j, seat, turnId);
    SendAdds(Truth(rules, d.session), j, d.loops.Of(seat).conn, ActionRejected(turnId, d.loops.Of(seat).retriesLeft));
  }

  lemma MalformedAdds<L, T, A, V>(rules: Rules<L, T, A, V>, d: Driver<L, A, V>, seat: TableSeat)
    requires Listening(d, seat)
    ensures Adds(Truth(rules, d.session), d.conns, MalformedStep(d, seat).conns)
  {
    var p := Truth(rules, d.session);
    var c := d.loops.Of(seat).conn;
    var told := Send(d, c, ErrorFrame).conns;
    MalformedConns(d, seat);
    SendAdds(p, d, c, ErrorFrame);
    if c in told {
      CloseAdds(p, told, c);
      AddsTwice(p, d.conns, told, told[c := told[c].(open := false)]);
    }
  }

  lemma PickUpAdds<L, T, A, V>(rules: Rules<L, T, A, V>, d: Driver<L, A, V>, seat: TableSeat)
    requires Listening(d, seat)
    ensures Adds(Truth(rules, d.session), d.conns, PickUpStep(rules, d, seat).conns)
  {
    NothingAdds(Truth(rules, d.session), d.conns);
    SendAdds(Truth(rules, d.session), d, SeatConn(d, seat), ObservationRequest(|TurnsOf(rules, d.session)|));
  }

  lemma SeatStepAdds<L, T, A, V>(rules: Rules<L, T, A, V>, d: Driver<L, A, V>, e: Event<L, A>)
    requires e.Answer? || e.Malformed? || e.TimeUp? || e.GraceOver? || e.PickUp?
    ensures Adds(Truth(rules, d.session), d.conns, Next(rules, d, e).conns)
  {
    NothingAdds(Truth(rules, d.session), d.conns);
    if Listening(d, e.seat) {
      if e.Answer? {
        AnswerAdds(rules, d, e.seat, e.turnId, e.action);
      } else if e.Malformed? {
        MalformedAdds(rules, d, e.seat);
      } else if e.PickUp? {
        PickUpAdds(rules, d, e.seat);
      }
    }
  }

  lemma ResumeAdds<L, T, A, V>(rules: Rules<L, T, A, V>, d: Driver<L, A, V>, seat: TableSeat, c: ConnId, fails: bool)
    ensures Adds(Truth(rules, d.session), d.conns, ResumeStep(rules, d, seat, c, fails).conns)
  {
    var p := Truth(rules, d.session);
    var s := d.session;
    var before := SeatConn(d, seat);
    NothingAdds(p, d.conns);
    if ResumeStep(rules, d, seat, c, fails) != d {
      var closed := if before in d.conns then d.conns[before := d.conns[before].(open := false)] else d.conns;
      var conn := ResumeStep(rules, d, seat, c, fails).conns[c];
      HistoryIsTrue(rules, s, OfSeat(seat));
      assert conn == Conn(OfSeat(seat), [Welcome(s.lifecycle, HistoryFor(rules, s, OfSeat(seat))), MatchState(s.lifecycle, |TurnsOf(rules, s)|)], 0, false, true);
      if before in d.conns {
        CloseAdds(p, d.conns, before);
      }
      NewAdds(p, closed, c, conn);
      AddsTwice(p, d.conns, closed, closed[c := conn]);
    }
  }

  lemma AttachAdds<L, T, A, V>(rules: Rules<L, T, A, V>, d: Driver<L, A, V>, c: ConnId, fails: bool)
    ensures Adds(Truth(rules, d.session), d.conns, AttachStep(rules, d, c, fails).conns)
  {
    var p := Truth(rules, d.session);
    NothingAdds(p, d.conns);
    if AttachStep(rules, d, c, fails) != d {
      var conn := AttachStep(rules, d, c, fails).conns[c];
      HistoryIsTrue(rules, d.session, Public);
      assert conn.frames == [Welcome(d.session.lifecycle, HistoryFor(rules, d.session, Public))];
      NewAdds(p, d.conns, c, conn);
    }
  }

  lemma StartAdds<L, T, A, V>(rules: Rules<L, T, A, V>, d: Driver<L, A, V>, c0: ConnId, c1: ConnId, local: Option<L>)
    ensures Adds(Truth(rules, d.session), d.conns, StartStep(rules, d, c0, c1, local).conns)
  {
  }

  lemma HandlerAdds<L, T, A, V>(rules: Rules<L, T, A, V>, d: Driver<L, A, V>, e: Event<L, A>)
    requires Admits(e) || e.Detach? || e.SocketCloses? || e.FallsBehind?
    ensures Adds(Truth(rules, d.session), d.conns, Next(rules, d, e).conns)
  {
    NothingAdds(Truth(rules, d.session), d.conns);
    match e
    case Start(c0, c1, local) => StartAdds(rules, d, c0, c1, local);
    case Resume(seat, c, fails) => ResumeAdds(rules, d, seat, c, fails);
    case Attach(c, fails) => AttachAdds(rules, d, c, fails);
    case SocketCloses(c) =>
      if c in d.conns {
        CloseAdds(Truth(rules, d.session), d.conns, c);
      }
    case FallsBehind(c) =>
      if c in d.conns {
        CloseAdds(Truth(rules, d.session), d.conns, c);
      }
    case Detach(_) =>
  }

  lemma NextAdds<L, T, A, V>(rules: Rules<L, T, A, V>, d: Driver<L, A, V>, e: Event<L, A>)
    requires Control(d)
    ensures Adds(Truth(rules, d.session), d.conns, Next(rules, d, e).conns)
  {
    match e
    case DriverSteps(trouble) => DriverStepAdds(rules, d, trouble);
    case AbortSteps(trouble) => AbortStepAdds(rules, d, trouble);
    case Answer(_, _, _) => SeatStepAdds(rules, d, e);
    case Malformed(_) => SeatStepAdds(rules, d, e);
    case TimeUp(_, _) => SeatStepAdds(rules, d, e);
    case GraceOver(_, _) => SeatStepAdds(rules, d, e);
    case PickUp(_) => SeatStepAdds(rules, d, e);
    case _ => HandlerAdds(rules, d, e);
  }

  /** At some point of the run the frame was true. */
  ghost predicate WasTrue<L, T, A, V>(rules: Rules<L, T, A, V>, events: seq<Event<L, A>>, viewer: Viewer, f: Frame<V>) {
    exists k :: 0 <= k <= |events| && IsTrue(rules, Run(rules, events[..k]).session, viewer, f)
  }

  lemma WasTrueLater<L, T, A, V>(rules: Rules<L, T, A, V>, events: seq<Event<L, A>>, viewer: Viewer, f: Frame<V>)
    requires events != []
    requires WasTrue(rules, events[..|events| - 1], viewer, f) || IsTrue(rules, Run(rules, events[..|events| - 1]).session, viewer, f)
    ensures WasTrue(rules, events, viewer, f)
  {
    var n := |events| - 1;
    if IsTrue(rules, Run(rules, events[..n]).session, viewer, f) {
    } else {
      var k :| 0 <= k <= n && IsTrue(rules, Run(rules, events[..n][..k]).session, viewer, f);
      assert events[..n][..k] == events[..k];
    }
  }

  lemma OneFrameIsTrue<L, T, A, V>(rules: Rules<L, T, A, V>, d: Driver<L, A, V>, e: Event<L, A>, c: ConnId, i: nat)
    requires Control(d) && c in Next(rules, d, e).conns && i < |Next(rules, d, e).conns[c].frames|
    ensures var conn := Next(rules, d, e).conns[c];
            if c in d.conns && i < |d.conns[c].frames| then conn.viewer == d.conns[c].viewer && conn.frames[i] == d.conns[c].frames[i]
            else IsTrue(rules, d.session, conn.viewer, conn.frames[i])
  {
    NextAdds(rules, d, e);
    var conn := Next(rules, d, e).conns[c];
    if !(c in d.conns && i < |d.conns[c].frames|) {
      assert Truth(rules, d.session)(conn.viewer, conn.frames[i]);
    }
  }

  /** In every run, every frame on every connection was true of the match, in its viewer's
      rendering, at the moment it was queued: its welcome, each turn, each state and request,
      and the end. */
  lemma {:induction false} EveryFrameIsTrue<L, T, A, V>(rules: Rules<L, T, A, V>, events: seq<Event<L, A>>, c: ConnId, i: nat)
    requires c in Run(rules, events).conns && i < |Run(rules, events).conns[c].frames|
    ensures WasTrue(rules, events, Run(rules, events).conns[c].viewer, Run(rules, events).conns[c].frames[i])
    decreases |events|
  {
    if events != [] {
      var n := |events| - 1;
      var d := Run(rules, events[..n]);
      var conn := Run(rules, events).conns[c];
      RunControl(rules, events[..n]);
      OneFrameIsTrue(rules, d, events[n], c, i);
      if c in d.conns && i < |d.conns[c].frames| {
        EveryFrameIsTrue(rules, events[..n], c, i);
      }
      WasTrueLater(rules, events, conn.viewer, conn.frames[i]);
    }
  }
}

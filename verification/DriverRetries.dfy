/**
 What a seat is asked and refused over all its connections, resumes and malformed frames
 included: the reports count down as the retry protocol says, and 0 is the last word but the
 match's end.
 */
module DriverRetries {
  import opened Wrappers
  import opened Games
  import opened Runtime
  import opened Drivers
  import opened DriverControl
  import opened DriverFrames
  import opened DriverRounds
  import Retries

  // ---------------------------------------------------------------------------
  // What the driver says to the seats
  // ---------------------------------------------------------------------------

  /** A turn's request, the same again on a resumed connection, or the report of a refusal. */
  datatype Talk =
    | Asked(seat: TableSeat, conn: ConnId, turnCount: nat)
    | AskedAgain(seat: TableSeat, conn: ConnId, turnCount: nat)
    | Reported(seat: TableSeat, conn: ConnId, turnId: TurnId, left: nat)

  function FrameOf<V>(t: Talk): Frame<V> {
    match t
    case Asked(_, _, count) => ObservationRequest(count)
    case AskedAgain(_, _, count) => ObservationRequest(count)
    case Reported(_, _, turnId, left) => ActionRejected(turnId, left)
  }

  predicate Refuses<L, T, A, V>(rules: Rules<L, T, A, V>, d: Driver<L, A, V>, seat: TableSeat, turnId: TurnId, action: A) {
    Listening(d, seat) && d.session.lifecycle == Lifecycle.Running && !IsDuplicate(d, seat, turnId) && !IsAccepted(rules, d, seat, action)
  }

  /** What one step says, in order. */
  function Says<L, T, A, V>(rules: Rules<L, T, A, V>, d: Driver<L, A, V>, e: Event<L, A>): seq<Talk> {
    var count := |TurnsOf(rules, d.session)|;
    match e
    case DriverSteps(trouble) =>
      if d.pc == AtLoop && LoopStep(rules, d, trouble).pc == Asking then
        var loops := LoopStep(rules, d, trouble).loops;
        (if loops.loop0.NoLoop? then [] else [Asked(0, d.seat0, count)]) +
        (if loops.loop1.NoLoop? then [] else [Asked(1, d.seat1, count)])
      else []
    case Answer(seat, turnId, action) =>
      if Refuses(rules, d, seat, turnId, action) then [Reported(seat, d.loops.Of(seat).conn, turnId, d.loops.Of(seat).retriesLeft)] else []
    case PickUp(seat) =>
      if Listening(d, seat) && SeatConn(d, seat) != d.loops.Of(seat).conn then [AskedAgain(seat, SeatConn(d, seat), count)] else []
    case _ => []
  }

  function Said<L, T, A, V>(rules: Rules<L, T, A, V>, events: seq<Event<L, A>>): seq<Talk>
    decreases |events|
  {
    if events == [] then []
    else
      var before := events[..|events| - 1];
      Said(rules, before) + Says(rules, Run(rules, before), events[|events| - 1])
  }

  /** What was said on one connection, as frames. */
  function SaidOn<V>(talk: seq<Talk>, c: ConnId): seq<Frame<V>> {
    if talk == [] then []
    else if talk[0].conn == c then [FrameOf(talk[0])] + SaidOn(talk[1..], c)
    else SaidOn(talk[1..], c)
  }

  lemma {:induction false} SaidOnAppend<V>(a: seq<Talk>, b: seq<Talk>, c: ConnId)
    ensures SaidOn<V>(a + b, c) == SaidOn<V>(a, c) + SaidOn<V>(b, c)
  {
    if a == [] {
      assert a + b == b;
    } else {
      assert (a + b)[1..] == a[1..] + b;
      SaidOnAppend<V>(a[1..], b, c);
    }
  }

  /** A turn's reports after one more word: a new request starts a new turn. */
  function Heard(reports: seq<nat>, t: Talk, seat: TableSeat): seq<nat> {
    if t.seat != seat || t.AskedAgain? then reports
    else if t.Asked? then []
    else reports + [t.left]
  }

  /** The reports to a seat since it was last asked for a turn, whatever its connections. */
  function ReportsSince(talk: seq<Talk>, seat: TableSeat): seq<nat>
    decreases |talk|
  {
    if talk == [] then []
    else Heard(ReportsSince(talk[..|talk| - 1], seat), talk[|talk| - 1], seat)
  }

  lemma ReportsSnoc(talk: seq<Talk>, t: Talk, seat: TableSeat)
    ensures ReportsSince(talk + [t], seat) == Heard(ReportsSince(talk, seat), t, seat)
  {
    assert (talk + [t])[..|talk|] == talk;
  }

  // ---------------------------------------------------------------------------
  // The reports count down
  // ---------------------------------------------------------------------------

  /** The reports of a turn count down from the budget, and what an open loop has left is
      what they have not reported. */
  predicate CountsFor<L, T, A, V>(rules: Rules<L, T, A, V>, d: Driver<L, A, V>, talk: seq<Talk>, seat: TableSeat) {
    && Retries.CountsDown(rules.retryBudget, ReportsSince(talk, seat))
    && (Listening(d, seat) ==> d.loops.Of(seat).retriesLeft + |ReportsSince(talk, seat)| == rules.retryBudget)
  }

  lemma CountGrows(budget: nat, told: seq<nat>, left: nat)
    requires Retries.CountsDown(budget, told) && left + |told| == budget
    ensures Retries.CountsDown(budget, told + [left])
  {
  }

  lemma AskingCounts<L, T, A, V>(rules: Rules<L, T, A, V>, d: Driver<L, A, V>, trouble: Trouble, talk: seq<Talk>, seat: TableSeat)
    requires d.pc == AtLoop && CountsFor(rules, d, talk, seat)
    ensures CountsFor(rules, LoopStep(rules, d, trouble), talk + Says(rules, d, DriverSteps(trouble)), seat)
  {
    var d' := LoopStep(rules, d, trouble);
    var count := |TurnsOf(rules, d.session)|;
    if d'.pc == Asking {
      LoopsAsked(rules, d, trouble);
      ReportsSnoc(talk, Asked(0, d.seat0, count), seat);
      ReportsSnoc(talk, Asked(1, d.seat1, count), seat);
      ReportsSnoc(talk + [Asked(0, d.seat0, count)], Asked(1, d.seat1, count), seat);
      assert talk + [Asked(0, d.seat0, count)] + [Asked(1, d.seat1, count)] == talk + [Asked(0, d.seat0, count), Asked(1, d.seat1, count)];
      assert talk + Says(rules, d, DriverSteps(trouble)) ==
             talk + (if d'.loops.loop0.NoLoop? then [] else [Asked(0, d.seat0, count)]) + (if d'.loops.loop1.NoLoop? then [] else [Asked(1, d.seat1, count)]);
      assert talk + [] == talk;
    } else {
      assert talk + Says(rules, d, DriverSteps(trouble)) == talk;
    }
  }

  /** The seats asked are those of the loops opened, each on its connection with the whole
      budget. */
  lemma LoopsAsked<L, T, A, V>(rules: Rules<L, T, A, V>, d: Driver<L, A, V>, trouble: Trouble)
    requires d.pc == AtLoop && LoopStep(rules, d, trouble).pc == Asking
    ensures var d' := LoopStep(rules, d, trouble);
            var f: Frame<V> := ObservationRequest(|TurnsOf(rules, d.session)|);
            && d'.seat0 == d.seat0 && d'.seat1 == d.seat1 && d'.session == d.session
            && d'.loops.loop0 == (if d'.loops.loop0.NoLoop? then NoLoop else Waiting(d.seat0, rules.retryBudget, 0))
            && d'.loops.loop1 == (if d'.loops.loop1.NoLoop? then NoLoop else Waiting(d.seat1, rules.retryBudget, 0))
            && d'.conns == (var first := if d'.loops.loop0.NoLoop? then d else Send(d, d.seat0, f);
                            if d'.loops.loop1.NoLoop? then first else Send(first, d.seat1, f)).conns
  {
    AskSeatsConns(rules, d, rules.acting(d.session.local.value));
    AskSeatsOnlyAsks(rules, d, rules.acting(d.session.local.value));
  }

  /** A step that says nothing and opens no loop. */
  lemma QuietCounts<L, T, A, V>(rules: Rules<L, T, A, V>, d: Driver<L, A, V>, d': Driver<L, A, V>, talk: seq<Talk>, seat: TableSeat)
    requires CountsFor(rules, d, talk, seat)
    requires Listening(d', seat) ==> Listening(d, seat) && d'.loops.Of(seat).retriesLeft == d.loops.Of(seat).retriesLeft
    ensures CountsFor(rules, d', talk + [], seat)
  {
    assert talk + [] == talk;
  }

  lemma DriverStepCounts<L, T, A, V>(rules: Rules<L, T, A, V>, d: Driver<L, A, V>, trouble: Trouble, talk: seq<Talk>, seat: TableSeat)
    requires CountsFor(rules, d, talk, seat)
    ensures CountsFor(rules, DriverStep(rules, d, trouble), talk + Says(rules, d, DriverSteps(trouble)), seat)
  {
    match d.pc
    case AtLoop => AskingCounts(rules, d, trouble, talk, seat);
    case Broadcasting(_, _) =>
      BroadcastNeverAsks(rules, d, trouble);
      QuietCounts(rules, d, DriverStep(rules, d, trouble), talk, seat);
    case Asking =>
      AskingOnlyCloses(rules, d, trouble);
      QuietCounts(rules, d, DriverStep(rules, d, trouble), talk, seat);
    case _ => QuietCounts(rules, d, DriverStep(rules, d, trouble), talk, seat);
  }

  lemma BroadcastNeverAsks<L, T, A, V>(rules: Rules<L, T, A, V>, d: Driver<L, A, V>, trouble: Trouble)
    requires d.pc.Broadcasting?
    ensures BroadcastStep(rules, d, trouble).pc != Asking
  {
  }

  lemma AskingOnlyCloses<L, T, A, V>(rules: Rules<L, T, A, V>, d: Driver<L, A, V>, trouble: Trouble)
    requires d.pc == Asking
    ensures AskingStep(rules, d, trouble).pc != Asking || AskingStep(rules, d, trouble) == d
    ensures AskingStep(rules, d, trouble).conns == d.conns
  {
  }

  lemma RefusalCounts<L, T, A, V>(rules: Rules<L, T, A, V>, d: Driver<L, A, V>, seat: TableSeat, turnId: TurnId, talk: seq<Talk>, s: TableSeat)
    requires CountsFor(rules, d, talk, s) && Listening(d, seat)
    ensures CountsFor(rules, RejectStep(Judged(d, seat, turnId), seat, turnId),
                      talk + [Reported(seat, d.loops.Of(seat).conn, turnId, d.loops.Of(seat).retriesLeft)], s)
  {
    var loop := d.loops.Of(seat);
    RefusedOnlySends(Judged(d, seat, turnId), seat, turnId);
    ReportsSnoc(talk, Reported(seat, loop.conn, turnId, loop.retriesLeft), s);
    if seat == s {
      CountGrows(rules.retryBudget, ReportsSince(talk, seat), loop.retriesLeft);
    }
  }

  lemma UnrefusedAnswer<L, T, A, V>(rules: Rules<L, T, A, V>, d: Driver<L, A, V>, e: Event<L, A>)
    requires e.Answer? && !Refuses(rules, d, e.seat, e.turnId, e.action)
    ensures var d' := Next(rules, d, e);
            && d'.conns == d.conns && d'.pc == d.pc
            && (d'.loops == d.loops || (exists loop :: d'.loops == WithLoopAt(d.loops, e.seat, loop) && !loop.Waiting?))
  {
    var d' := Next(rules, d, e);
    assert d'.loops == d.loops || d'.loops == WithLoopAt(d.loops, e.seat, d'.loops.Of(e.seat));
  }

  lemma AnswerCounts<L, T, A, V>(rules: Rules<L, T, A, V>, d: Driver<L, A, V>, e: Event<L, A>, talk: seq<Talk>, seat: TableSeat)
    requires CountsFor(rules, d, talk, seat) && e.Answer?
    ensures CountsFor(rules, Next(rules, d, e), talk + Says(rules, d, e), seat)
  {
    if Refuses(rules, d, e.seat, e.turnId, e.action) {
      RefusalCounts(rules, d, e.seat, e.turnId, talk, seat);
    } else {
      UnrefusedAnswer(rules, d, e);
      QuietCounts(rules, d, Next(rules, d, e), talk, seat);
    }
  }

  lemma SeatStepCounts<L, T, A, V>(rules: Rules<L, T, A, V>, d: Driver<L, A, V>, e: Event<L, A>, talk: seq<Talk>, seat: TableSeat)
    requires CountsFor(rules, d, talk, seat) && (e.Malformed? || e.TimeUp? || e.GraceOver? || e.PickUp?)
    ensures CountsFor(rules, Next(rules, d, e), talk + Says(rules, d, e), seat)
  {
    if e.PickUp? && Says(rules, d, e) != [] {
      ReportsSnoc(talk, AskedAgain(e.seat, SeatConn(d, e.seat), |TurnsOf(rules, d.session)|), seat);
    } else {
      QuietCounts(rules, d, Next(rules, d, e), talk, seat);
    }
  }

  lemma NextCounts<L, T, A, V>(rules: Rules<L, T, A, V>, d: Driver<L, A, V>, e: Event<L, A>, talk: seq<Talk>, seat: TableSeat)
    requires CountsFor(rules, d, talk, seat)
    ensures CountsFor(rules, Next(rules, d, e), talk + Says(rules, d, e), seat)
  {
    match e
    case DriverSteps(trouble) => DriverStepCounts(rules, d, trouble, talk, seat);
    case AbortSteps(trouble) =>
      AbortKeepsLoops(rules, d, trouble);
      QuietCounts(rules, d, AbortStep(rules, d, trouble), talk, seat);
    case Answer(_, _, _) => AnswerCounts(rules, d, e, talk, seat);
    case Malformed(_) => SeatStepCounts(rules, d, e, talk, seat);
    case TimeUp(_, _) => SeatStepCounts(rules, d, e, talk, seat);
    case GraceOver(_, _) => SeatStepCounts(rules, d, e, talk, seat);
    case PickUp(_) => SeatStepCounts(rules, d, e, talk, seat);
    case _ => QuietCounts(rules, d, Next(rules, d, e), talk, seat);
  }

  lemma AbortKeepsLoops<L, T, A, V>(rules: Rules<L, T, A, V>, d: Driver<L, A, V>, trouble: Trouble)
    ensures AbortStep(rules, d, trouble).loops == d.loops && AbortStep(rules, d, trouble).pc == d.pc
  {
  }

  lemma {:induction false} RunCounts<L, T, A, V>(rules: Rules<L, T, A, V>, events: seq<Event<L, A>>, seat: TableSeat)
    ensures CountsFor(rules, Run(rules, events), Said(rules, events), seat)
    decreases |events|
  {
    if events != [] {
      var before := events[..|events| - 1];
      RunCounts(rules, before, seat);
      NextCounts(rules, Run(rules, before), events[|events| - 1], Said(rules, before), seat);
    }
  }

  // ---------------------------------------------------------------------------
  // What was said is what was queued
  // ---------------------------------------------------------------------------

  function IsTalk<V>(): Frame<V> -> bool {
    (f: Frame<V>) => f.ObservationRequest? || f.ActionRejected?
  }

  /** A connection holds what was said on it, for as long as it was open. */
  predicate Holds<V(==)>(conn: Conn<V>, said: seq<Frame<V>>) {
    var held := Picked(IsTalk(), conn.frames);
    held <= said && (conn.open ==> held == said)
  }

  ghost predicate AllHold<V>(conns: map<ConnId, Conn<V>>, talk: seq<Talk>) {
    && (forall c :: c in conns ==> Holds(conns[c], SaidOn(talk, c)))
    && (forall i :: 0 <= i < |talk| ==> talk[i].conn in conns && conns[talk[i].conn].viewer == OfSeat(talk[i].seat))
  }

  /** An open loop reads a connection of its own seat. */
  ghost predicate LoopsSeated<L, A, V>(d: Driver<L, A, V>) {
    forall seat: TableSeat :: Listening(d, seat) ==>
      d.loops.Of(seat).conn in d.conns && d.conns[d.loops.Of(seat).conn].viewer == OfSeat(seat)
  }

  lemma {:induction false} NothingSaidOn<V>(talk: seq<Talk>, c: ConnId)
    requires forall i :: 0 <= i < |talk| ==> talk[i].conn != c
    ensures SaidOn<V>(talk, c) == []
  {
    if talk != [] {
      NothingSaidOn<V>(talk[1..], c);
    }
  }

  /** Sending a word keeps every connection holding what was said on it. */
  lemma SendHolds<L, A, V>(d: Driver<L, A, V>, talk: seq<Talk>, t: Talk)
    requires AllHold(d.conns, talk) && t.conn in d.conns && d.conns[t.conn].viewer == OfSeat(t.seat)
    ensures AllHold(Send(d, t.conn, FrameOf<V>(t)).conns, talk + [t])
  {
    var f := FrameOf<V>(t);
    var conns := Send(d, t.conn, f).conns;
    forall c | c in conns
      ensures Holds(conns[c], SaidOn(talk + [t], c))
    {
      assert Holds(d.conns[c], SaidOn(talk, c));
      SaidOnAppend<V>(talk, [t], c);
      QueuePicked(IsTalk(), d.conns[c], f, true);
      assert [t][1..] == [];
      if c == t.conn {
        assert SaidOn<V>([t], c) == [f];
      }
    }
  }

  /** A step that queues no talk on old connections and starts new ones without any. */
  lemma QuietHolds<V>(conns: map<ConnId, Conn<V>>, conns': map<ConnId, Conn<V>>, talk: seq<Talk>)
    requires AllHold(conns, talk) && conns.Keys <= conns'.Keys
    requires forall c :: c in conns ==> Later(conns[c], conns'[c]) && Picked(IsTalk(), conns'[c].frames) == Picked(IsTalk(), conns[c].frames)
    requires forall c :: c in conns' && c !in conns ==> Picked(IsTalk(), conns'[c].frames) == []
    ensures AllHold(conns', talk)
  {
    forall c | c in conns'
      ensures Holds(conns'[c], SaidOn(talk, c))
    {
      if c in conns {
        assert Holds(conns[c], SaidOn(talk, c));
      } else {
        NothingSaidOn<V>(talk, c);
      }
    }
  }

  lemma TalkIsPlainEnough<V>()
    ensures !IsTalk<V>()(ErrorFrame) && NoStates(IsTalk<V>())
    ensures forall t :: !IsTalk<V>()(TurnCommitted(t))
  {
  }

  /** Every step that is not a request or a refusal. */
  lemma OtherStepHolds<L, T, A, V>(rules: Rules<L, T, A, V>, d: Driver<L, A, V>, e: Event<L, A>, talk: seq<Talk>)
    requires AllHold(d.conns, talk) && !e.Answer? && !e.PickUp? && !(e.DriverSteps? && d.pc == AtLoop)
    ensures AllHold(Next(rules, d, e).conns, talk)
  {
    var conns := Next(rules, d, e).conns;
    TalkIsPlainEnough<V>();
    if TellsTurn(rules, d, e) {
      TurnStepPicks(IsTalk(), rules, d, e);
    } else {
      NextSame(IsTalk(), rules, d, e);
      forall c | c in conns && c !in d.conns
        ensures Picked(IsTalk(), conns[c].frames) == []
      {
        NewTalks(rules, d, e, c);
      }
    }
    QuietHolds(d.conns, conns, talk);
  }

  lemma NewTalks<L, T, A, V>(rules: Rules<L, T, A, V>, d: Driver<L, A, V>, e: Event<L, A>, c: ConnId)
    requires Admits(e) && c in Next(rules, d, e).conns && c !in d.conns
    ensures Picked(IsTalk(), Next(rules, d, e).conns[c].frames) == []
  {
    TalkIsPlainEnough<V>();
    NewConns(rules, d, e, c);
    NewcomerPicked(IsTalk(), rules, d, e, Next(rules, d, e).conns[c]);
  }

  /** Asking one seat, both or neither. */
  lemma AskedHolds<L, A, V>(d: Driver<L, A, V>, talk: seq<Talk>, ask0: bool, ask1: bool, count: nat)
    requires AllHold(d.conns, talk) && Seated(d) && d.pc != NotStarted
    ensures var f: Frame<V> := ObservationRequest(count);
            var first := if ask0 then Send(d, d.seat0, f) else d;
            var second := if ask1 then Send(first, d.seat1, f) else first;
            AllHold(second.conns, talk + ((if ask0 then [Asked(0, d.seat0, count)] else []) + (if ask1 then [Asked(1, d.seat1, count)] else [])))
  {
    var t0, t1 := Asked(0, d.seat0, count), Asked(1, d.seat1, count);
    var first := if ask0 then Send(d, d.seat0, FrameOf(t0)) else d;
    var said := if ask0 then talk + [t0] else talk;
    if ask0 {
      SendHolds(d, talk, t0);
    }
    if ask1 {
      SendHolds(first, said, t1);
    }
    assert talk + ((if ask0 then [t0] else []) + (if ask1 then [t1] else [])) == said + (if ask1 then [t1] else []);
    assert said + [] == said;
  }

  lemma AskingHolds<L, T, A, V>(rules: Rules<L, T, A, V>, d: Driver<L, A, V>, trouble: Trouble, talk: seq<Talk>)
    requires AllHold(d.conns, talk) && Seated(d) && d.pc == AtLoop
    ensures AllHold(LoopStep(rules, d, trouble).conns, talk + Says(rules, d, DriverSteps(trouble)))
  {
    var d' := LoopStep(rules, d, trouble);
    if d'.pc == Asking {
      LoopsAsked(rules, d, trouble);
      AskedHolds(d, talk, !d'.loops.loop0.NoLoop?, !d'.loops.loop1.NoLoop?, |TurnsOf(rules, d.session)|);
    } else {
      NotAskedSame(rules, d, trouble);
      assert talk + [] == talk;
    }
  }

  lemma NotAskedSame<L, T, A, V>(rules: Rules<L, T, A, V>, d: Driver<L, A, V>, trouble: Trouble)
    requires d.pc == AtLoop && LoopStep(rules, d, trouble).pc != Asking
    ensures LoopStep(rules, d, trouble).conns == d.conns
  {
  }

  lemma AnswerHolds<L, T, A, V>(rules: Rules<L, T, A, V>, d: Driver<L, A, V>, e: Event<L, A>, talk: seq<Talk>)
    requires AllHold(d.conns, talk) && LoopsSeated(d) && e.Answer?
    ensures AllHold(Next(rules, d, e).conns, talk + Says(rules, d, e))
  {
    assert talk + [] == talk;
    if Refuses(rules, d, e.seat, e.turnId, e.action) {
      var loop := d.loops.Of(e.seat);
      RejectConns(Judged(d, e.seat, e.turnId), e.seat, e.turnId);
      SendHolds(d, talk, Reported(e.seat, loop.conn, e.turnId, loop.retriesLeft));
    }
  }

  lemma PickUpHolds<L, T, A, V>(rules: Rules<L, T, A, V>, d: Driver<L, A, V>, e: Event<L, A>, talk: seq<Talk>)
    requires AllHold(d.conns, talk) && Seated(d) && e.PickUp?
    ensures AllHold(Next(rules, d, e).conns, talk + Says(rules, d, e))
  {
    assert talk + [] == talk;
    if Says(rules, d, e) != [] {
      SendHolds(d, talk, AskedAgain(e.seat, SeatConn(d, e.seat), |TurnsOf(rules, d.session)|));
    }
  }

  lemma NextHolds<L, T, A, V>(rules: Rules<L, T, A, V>, d: Driver<L, A, V>, e: Event<L, A>, talk: seq<Talk>)
    requires AllHold(d.conns, talk) && Seated(d) && LoopsSeated(d)
    ensures AllHold(Next(rules, d, e).conns, talk + Says(rules, d, e))
  {
    if e.Answer? {
      AnswerHolds(rules, d, e, talk);
    } else if e.PickUp? {
      PickUpHolds(rules, d, e, talk);
    } else if e.DriverSteps? && d.pc == AtLoop {
      AskingHolds(rules, d, e.trouble, talk);
    } else {
      OtherStepHolds(rules, d, e, talk);
      assert talk + [] == talk;
    }
  }

  /** Where an open loop's connection comes from: it had it, or it is its seat's. */
  lemma ListeningFrom<L, T, A, V>(rules: Rules<L, T, A, V>, d: Driver<L, A, V>, e: Event<L, A>, seat: TableSeat)
    requires Listening(Next(rules, d, e), seat)
    ensures var c := Next(rules, d, e).loops.Of(seat).conn;
            || (Listening(d, seat) && c == d.loops.Of(seat).conn)
            || (c == SeatConn(d, seat) && d.pc != NotStarted)
  {
    match e
    case DriverSteps(trouble) =>
      if d.pc == AtLoop {
        if LoopStep(rules, d, trouble).pc == Asking {
          LoopsAsked(rules, d, trouble);
        }
      } else if d.pc.Broadcasting? {
        BroadcastNeverAsks(rules, d, trouble);
      } else if d.pc == Asking {
        AskingOnlyCloses(rules, d, trouble);
      }
    case AbortSteps(trouble) => AbortKeepsLoops(rules, d, trouble);
    case Start(_, _, _) =>
    case Resume(_, _, _) =>
    case Attach(_, _) =>
    case Detach(_) =>
    case SocketCloses(_) =>
    case FallsBehind(_) =>
    case _ => SeatStepReads(rules, d, e, seat);
  }

  lemma SeatStepReads<L, T, A, V>(rules: Rules<L, T, A, V>, d: Driver<L, A, V>, e: Event<L, A>, seat: TableSeat)
    requires e.Answer? || e.Malformed? || e.TimeUp? || e.GraceOver? || e.PickUp?
    requires Listening(Next(rules, d, e), seat)
    ensures Listening(d, seat)
    ensures var c := Next(rules, d, e).loops.Of(seat).conn;
            c == d.loops.Of(seat).conn || c == SeatConn(d, seat)
  {
    if e.Answer? && Listening(d, e.seat) {
      RefusedOnlySends(Judged(d, e.seat, e.turnId), e.seat, e.turnId);
    }
  }

  lemma ViewersKept<L, T, A, V>(rules: Rules<L, T, A, V>, d: Driver<L, A, V>, e: Event<L, A>)
    ensures var conns := Next(rules, d, e).conns;
            d.conns.Keys <= conns.Keys && forall c :: c in d.conns ==> conns[c].viewer == d.conns[c].viewer
  {
    if TellsTurn(rules, d, e) {
      TurnStepPicks((f: Frame<V>) => false, rules, d, e);
    } else {
      NextSame((f: Frame<V>) => false, rules, d, e);
    }
  }

  lemma NextSeatsLoops<L, T, A, V>(rules: Rules<L, T, A, V>, d: Driver<L, A, V>, e: Event<L, A>)
    requires LoopsSeated(d) && Seated(d)
    ensures LoopsSeated(Next(rules, d, e))
  {
    ViewersKept(rules, d, e);
    forall seat: TableSeat | Listening(Next(rules, d, e), seat)
      ensures var c := Next(rules, d, e).loops.Of(seat).conn;
              c in Next(rules, d, e).conns && Next(rules, d, e).conns[c].viewer == OfSeat(seat)
    {
      ListeningFrom(rules, d, e, seat);
    }
  }

  // ---------------------------------------------------------------------------
  // After a report of 0
  // ---------------------------------------------------------------------------

  predicate IsZero<V>(f: Frame<V>) {
    f.ActionRejected? && f.retriesRemaining == 0
  }

  function Zeros<V>(): Frame<V> -> bool {
    (f: Frame<V>) => IsZero(f)
  }

  predicate OnlyTheEnd<V>(f: Frame<V>) {
    f.MatchState? || f.Terminal()
  }

  predicate HasZero<V>(frames: seq<Frame<V>>) {
    exists i :: 0 <= i < |frames| && IsZero(frames[i])
  }

  /** Nothing but match_state and the terminal frame comes after a report of 0. */
  predicate ZeroIsTheLastWord<V>(frames: seq<Frame<V>>) {
    forall i, j :: 0 <= i < j < |frames| && IsZero(frames[i]) ==> OnlyTheEnd(frames[j])
  }

  /** The driver will ask this seat nothing more. */
  predicate DoneAsking<L, A, V>(d: Driver<L, A, V>, seat: TableSeat) {
    !Playing(d.pc) || (d.pc == Asking && d.loops.Of(seat).Aborting?)
  }

  predicate ZeroSilences<L, A, V>(d: Driver<L, A, V>, conn: Conn<V>) {
    HasZero(conn.frames) ==> conn.viewer.OfSeat? && DoneAsking(d, conn.viewer.seat) && ZeroIsTheLastWord(conn.frames)
  }

  /** A connection was queued nothing, or one frame of the end. */
  predicate OnlyEndAdded<V(==)>(conn: Conn<V>, conn': Conn<V>) {
    || conn'.frames == conn.frames
    || (conn'.frames != [] && conn'.frames[..|conn'.frames| - 1] == conn.frames && OnlyTheEnd(conn'.frames[|conn'.frames| - 1]))
  }

  lemma EndKeepsLastWord<V>(conn: Conn<V>, conn': Conn<V>)
    requires OnlyEndAdded(conn, conn') && ZeroIsTheLastWord(conn.frames)
    ensures ZeroIsTheLastWord(conn'.frames) && (HasZero(conn'.frames) ==> HasZero(conn.frames))
  {
    var n := |conn'.frames|;
    if conn'.frames != conn.frames {
      assert forall i :: 0 <= i < n - 1 ==> conn'.frames[i] == conn.frames[i];
    }
  }

  lemma EndBroadcastAdds<L, T, A, V>(rules: Rules<L, T, A, V>, d: Driver<L, A, V>, b: Broadcast<V>, trouble: Trouble, c: ConnId)
    requires c in d.conns && OnlyTheEnd(b.build(d.conns[c].viewer))
    ensures var r := Broadcasted(rules, d, b, trouble);
            r.Some? ==> c in r.value.conns && OnlyEndAdded(d.conns[c], r.value.conns[c])
  {
    var f := b.build(d.conns[c].viewer);
    assert (d.conns[c].frames + [f])[..|d.conns[c].frames|] == d.conns[c].frames;
  }

  lemma AbortAddsEnd<L, T, A, V>(rules: Rules<L, T, A, V>, d: Driver<L, A, V>, trouble: Trouble, c: ConnId)
    requires c in d.conns
    ensures c in AbortStep(rules, d, trouble).conns && OnlyEndAdded(d.conns[c], AbortStep(rules, d, trouble).conns[c])
  {
    EndBroadcastAdds(rules, d, StateBroadcast(rules, d.session), StateTrouble(trouble), c);
    EndBroadcastAdds(rules, d, TerminalBroadcast(rules, d.session), trouble, c);
  }

  lemma EndingAddsEnd<L, T, A, V>(rules: Rules<L, T, A, V>, d: Driver<L, A, V>, trouble: Trouble, c: ConnId)
    requires c in d.conns && (!Playing(d.pc) || d.pc == Asking)
    ensures c in DriverStep(rules, d, trouble).conns && OnlyEndAdded(d.conns[c], DriverStep(rules, d, trouble).conns[c])
    ensures !Playing(d.pc) ==> !Playing(DriverStep(rules, d, trouble).pc)
  {
    if d.pc == Asking {
      AskingOnlyCloses(rules, d, trouble);
    } else if d.pc == Announce {
      EndBroadcastAdds(rules, d, StateBroadcast(rules, d.session), StateTrouble(trouble), c);
    } else {
      EndBroadcastAdds(rules, d, TerminalBroadcast(rules, d.session), trouble, c);
    }
  }

  /** A step of a seat's loop says nothing on a connection of the other seat. */
  lemma OtherSeatUntouched<L, T, A, V>(rules: Rules<L, T, A, V>, d: Driver<L, A, V>, e: Event<L, A>, c: ConnId)
    requires e.Answer? || e.Malformed? || e.TimeUp? || e.GraceOver? || e.PickUp?
    requires Seated(d) && LoopsSeated(d) && c in d.conns && (Listening(d, e.seat) ==> d.conns[c].viewer != OfSeat(e.seat))
    ensures c in Next(rules, d, e).conns && Next(rules, d, e).conns[c].frames == d.conns[c].frames
  {
    if Listening(d, e.seat) {
      assert d.loops.Of(e.seat).conn != c && SeatConn(d, e.seat) != c;
      match e
      case Answer(seat, turnId, action) => RejectConns(Judged(d, seat, turnId), seat, turnId);
      case Malformed(seat) => MalformedConns(d, seat);
      case _ =>
    }
  }

  lemma SilenceLasts<L, T, A, V>(rules: Rules<L, T, A, V>, d: Driver<L, A, V>, e: Event<L, A>, seat: TableSeat)
    requires DoneAsking(d, seat)
    ensures DoneAsking(Next(rules, d, e), seat)
  {
    match e
    case DriverSteps(trouble) =>
      if d.pc == Asking {
        DoneIsNotAccepted(rules, d, trouble, seat);
      } else {
        EndingStaysSilent(rules, d, trouble);
      }
    case AbortSteps(trouble) => AbortKeepsLoops(rules, d, trouble);
    case Start(_, _, _) =>
    case Resume(_, _, _) =>
    case Attach(_, _) =>
    case Detach(_) =>
    case SocketCloses(_) =>
    case FallsBehind(_) =>
    case _ =>
      SeatStepSeats(rules, d, e);
      SeatStepLoops(rules, d, e);
  }

  lemma DoneIsNotAccepted<L, T, A, V>(rules: Rules<L, T, A, V>, d: Driver<L, A, V>, trouble: Trouble, seat: TableSeat)
    requires d.pc == Asking && d.loops.Of(seat).Aborting?
    ensures DoneAsking(AskingStep(rules, d, trouble), seat)
  {
  }

  lemma EndingStaysSilent<L, T, A, V>(rules: Rules<L, T, A, V>, d: Driver<L, A, V>, trouble: Trouble)
    requires !Playing(d.pc)
    ensures !Playing(DriverStep(rules, d, trouble).pc)
  {
  }

  /** Where the driver is done asking a seat, its connections get only the end. */
  lemma NextAfterZero<L, T, A, V>(rules: Rules<L, T, A, V>, d: Driver<L, A, V>, e: Event<L, A>, c: ConnId)
    requires Seated(d) && LoopsSeated(d) && c in d.conns && d.conns[c].viewer.OfSeat? && DoneAsking(d, d.conns[c].viewer.seat)
    ensures c in Next(rules, d, e).conns && OnlyEndAdded(d.conns[c], Next(rules, d, e).conns[c])
  {
    match e
    case DriverSteps(trouble) => EndingAddsEnd(rules, d, trouble, c);
    case AbortSteps(trouble) => AbortAddsEnd(rules, d, trouble, c);
    case Start(_, _, _) =>
    case Resume(_, _, _) =>
    case Attach(_, _) =>
    case Detach(_) =>
    case SocketCloses(_) =>
    case FallsBehind(_) =>
    case _ => OtherSeatUntouched(rules, d, e, c);
  }

  lemma {:induction false} ZeroIsPicked<V>(frames: seq<Frame<V>>)
    ensures Picked(Zeros(), frames) != [] <==> HasZero(frames)
    decreases |frames|
  {
    if frames != [] {
      var n := |frames| - 1;
      ZeroIsPicked(frames[..n]);
      if HasZero(frames) {
        var i :| 0 <= i < |frames| && IsZero(frames[i]);
        assert i < n ==> frames[..n][i] == frames[i];
      }
      if HasZero(frames[..n]) {
        var i :| 0 <= i < n && IsZero(frames[..n][i]);
        assert IsZero(frames[i]);
      }
    }
  }

  lemma ZerosAreRejections<V>()
    ensures !Zeros<V>()(ErrorFrame) && NoStates(Zeros<V>()) && NoRequests(Zeros<V>())
    ensures forall t :: !Zeros<V>()(TurnCommitted(t))
  {
  }

  /** Only a refusal reports 0. */
  lemma NoZeroOtherwise<L, T, A, V>(rules: Rules<L, T, A, V>, d: Driver<L, A, V>, e: Event<L, A>, c: ConnId)
    requires !e.Answer? && c in Next(rules, d, e).conns && (c in d.conns ==> !HasZero(d.conns[c].frames))
    ensures !HasZero(Next(rules, d, e).conns[c].frames)
  {
    var conns := Next(rules, d, e).conns;
    ZerosAreRejections<V>();
    ZeroIsPicked(conns[c].frames);
    if c in d.conns {
      ZeroIsPicked(d.conns[c].frames);
      if TellsTurn(rules, d, e) {
        TurnStepPicks(Zeros(), rules, d, e);
      } else {
        NextSame(Zeros(), rules, d, e);
      }
    } else {
      if TellsTurn(rules, d, e) {
        TurnStepPicks(Zeros(), rules, d, e);
      } else {
        NextSame(Zeros(), rules, d, e);
      }
      NewConns(rules, d, e, c);
      NewcomerPicked(Zeros(), rules, d, e, conns[c]);
    }
  }

  /** A refusal that reports 0 is the last word on its connection so far, and the driver is
      done asking the seat. */
  lemma AnswerSilences<L, T, A, V>(rules: Rules<L, T, A, V>, d: Driver<L, A, V>, e: Event<L, A>, c: ConnId)
    requires e.Answer? && LoopsSeated(d) && c in d.conns && !HasZero(d.conns[c].frames)
    ensures c in Next(rules, d, e).conns && ZeroSilences(Next(rules, d, e), Next(rules, d, e).conns[c])
  {
    if Refuses(rules, d, e.seat, e.turnId, e.action) {
      var j := Judged(d, e.seat, e.turnId);
      RejectConns(j, e.seat, e.turnId);
      RefusalSilences(j, e.seat, e.turnId, c);
    } else {
      UnrefusedAnswer(rules, d, e);
    }
  }

  lemma RefusalSilences<L, A, V>(d: Driver<L, A, V>, seat: TableSeat, turnId: TurnId, c: ConnId)
    requires Listening(d, seat) && LoopsSeated(d) && c in d.conns && !HasZero(d.conns[c].frames)
    ensures c in RejectStep(d, seat, turnId).conns && ZeroSilences(RejectStep(d, seat, turnId), RejectStep(d, seat, turnId).conns[c])
  {
    var d' := RejectStep(d, seat, turnId);
    var left := d.loops.Of(seat).retriesLeft;
    RejectConns(d, seat, turnId);
    RefusedOnlySends(d, seat, turnId);
    var frames, frames' := d.conns[c].frames, d'.conns[c].frames;
    assert frames' == frames || (c == d.loops.Of(seat).conn && frames' == frames + [ActionRejected(turnId, left)]);
    if frames' != frames {
      assert forall i :: 0 <= i < |frames| ==> !IsZero(frames'[i]) by {
        assert forall i :: 0 <= i < |frames| ==> frames'[i] == frames[i];
      }
    }
  }

  ghost predicate ZerosSilence<L, A, V>(d: Driver<L, A, V>) {
    forall c :: c in d.conns ==> ZeroSilences(d, d.conns[c])
  }

  lemma NextSilences<L, T, A, V>(rules: Rules<L, T, A, V>, d: Driver<L, A, V>, e: Event<L, A>)
    requires Seated(d) && LoopsSeated(d) && ZerosSilence(d)
    ensures ZerosSilence(Next(rules, d, e))
  {
    var d' := Next(rules, d, e);
    ViewersKept(rules, d, e);
    forall c | c in d'.conns
      ensures ZeroSilences(d', d'.conns[c])
    {
      if c in d.conns && HasZero(d.conns[c].frames) {
        assert ZeroSilences(d, d.conns[c]);
        NextAfterZero(rules, d, e, c);
        EndKeepsLastWord(d.conns[c], d'.conns[c]);
        SilenceLasts(rules, d, e, d.conns[c].viewer.seat);
      } else if e.Answer? {
        AnswerAdmitsNobody(rules, d, e);
        AnswerSilences(rules, d, e, c);
      } else {
        NoZeroOtherwise(rules, d, e, c);
      }
    }
  }

  lemma AnswerAdmitsNobody<L, T, A, V>(rules: Rules<L, T, A, V>, d: Driver<L, A, V>, e: Event<L, A>)
    requires e.Answer?
    ensures Next(rules, d, e).conns.Keys == d.conns.Keys
  {
    NextSame((f: Frame<V>) => false, rules, d, e);
  }

  // ---------------------------------------------------------------------------
  // Every run
  // ---------------------------------------------------------------------------

  lemma {:induction false} RunTalks<L, T, A, V>(rules: Rules<L, T, A, V>, events: seq<Event<L, A>>)
    ensures var d := Run(rules, events);
            Seated(d) && LoopsSeated(d) && ZerosSilence(d) && AllHold(d.conns, Said(rules, events))
    decreases |events|
  {
    if events != [] {
      var before := events[..|events| - 1];
      var e := events[|events| - 1];
      var d := Run(rules, before);
      RunTalks(rules, before);
      SeatedNext(rules, d, e);
      NextSeatsLoops(rules, d, e);
      NextSilences(rules, d, e);
      NextHolds(rules, d, e, Said(rules, before));
      ViewersKept(rules, d, e);
    }
  }

  /** In every run, for each seat, over all its connections and whatever was malformed or
      resumed in between: the rejections of a turn report the budget and count down by one;
      every connection that is open holds exactly what was said on it, a closed one what was
      said before; and after a report of 0 nothing comes on its connection but match_state
      and the terminal frame. */
  lemma RefusalsCountDown<L, T, A, V>(rules: Rules<L, T, A, V>, events: seq<Event<L, A>>, seat: TableSeat)
    ensures var d := Run(rules, events);
            var talk := Said(rules, events);
            && Retries.CountsDown(rules.retryBudget, ReportsSince(talk, seat))
            && (Listening(d, seat) ==> d.loops.Of(seat).retriesLeft + |ReportsSince(talk, seat)| == rules.retryBudget)
            && (forall i :: 0 <= i < |talk| ==> talk[i].conn in d.conns && d.conns[talk[i].conn].viewer == OfSeat(talk[i].seat))
            && (forall c :: c in d.conns ==> Holds(d.conns[c], SaidOn(talk, c)) && ZeroIsTheLastWord(d.conns[c].frames))
  {
    RunCounts(rules, events, seat);
    RunTalks(rules, events);
    var d := Run(rules, events);
    forall c | c in d.conns
      ensures ZeroIsTheLastWord(d.conns[c].frames)
    {
      assert ZeroSilences(d, d.conns[c]);
    }
  }
}

/**
 What a seat's action comes to: it is judged by the game's own rules, and a round of good
 actions is applied. Stated of every run and in terms of the game alone.
 */
module DriverAnswers {
  import opened Wrappers
  import opened Games
  import opened Runtime
  import opened Drivers
  import opened DriverControl
  import opened DriverRounds

  /** A running match waits for this seat's action. */
  predicate AwaitsAction<L, A, V>(d: Driver<L, A, V>, seat: TableSeat) {
    d.pc == Asking && d.loops.Of(seat).Waiting? && d.session.lifecycle == Running
  }

  predicate IsFresh<L, A, V>(d: Driver<L, A, V>, seat: TableSeat, turnId: TurnId) {
    (seat, turnId) !in d.committed && (seat, turnId) !in d.rejected
  }

  /** One frame more on one open connection, and nothing else. */
  function Heard<V>(conns: map<ConnId, Conn<V>>, c: ConnId, f: Frame<V>): map<ConnId, Conn<V>> {
    if c in conns && conns[c].open then conns[c := conns[c].(frames := conns[c].frames + [f])] else conns
  }

  /** The game takes this action from the seat: alone it can be applied, and in a joint round
      it is valid. */
  predicate IsGood<L, T, A, V>(rules: Rules<L, T, A, V>, l: L, seat: TableSeat, action: A) {
    if rules.acting(l) == [seat] then rules.act(l, seat, action).Some? else rules.check(l, seat, action)
  }

  lemma AnsweredAlone<L, T, A, V>(rules: Rules<L, T, A, V>, d: Driver<L, A, V>, seat: TableSeat, turnId: TurnId, action: A)
    requires RoundFits(rules, d) && AwaitsAction(d, seat) && IsFresh(d, seat, turnId)
    ensures d.session.local.Some? && (rules.acting(d.session.local.value) == [seat] || rules.acting(d.session.local.value) == [0, 1])
    ensures IsAccepted(rules, d, seat, action) <==> IsGood(rules, d.session.local.value, seat, action)
  {
    var l := d.session.local.value;
    assert rules.acting(l) == [0, 1] ==> rules.acting(l)[0] == 0 && rules.acting(l)[1] == 1 && |rules.acting(l)| == 2;
  }

  /** Every action a running match waits for is judged by the game as it stands, by nothing
      else, and exactly once. A good one is held for its seat and told nobody. A bad one is
      answered with one rejection, on the connection the seat's loop reads, and costs an
      attempt; the last costs the match. The other seat's loop and the match stay as they
      were. */
  lemma ActionsAreJudgedByTheGame<L, T, A, V>(rules: Rules<L, T, A, V>, events: seq<Event<L, A>>, seat: TableSeat, turnId: TurnId, action: A)
    requires AwaitsAction(Run(rules, events), seat) && IsFresh(Run(rules, events), seat, turnId)
    ensures var d := Run(rules, events);
            var d' := Run(rules, events + [Answer(seat, turnId, action)]);
            var loop := d.loops.Of(seat);
            && d.session.local.Some?
            && var l := d.session.local.value;
            && (rules.acting(l) == [seat] || rules.acting(l) == [0, 1])
            && (d'.loops.Of(seat) == Accepted(turnId, action) <==> IsGood(rules, l, seat, action))
            && d'.loops.Of(1 - seat) == d.loops.Of(1 - seat)
            && d'.session == d.session && d'.pc == d.pc && d'.committed == d.committed
            && (IsGood(rules, l, seat, action) ==> d'.conns == d.conns && d'.rejected == d.rejected && d'.abort == d.abort)
            && (!IsGood(rules, l, seat, action) ==>
                  && d'.conns == Heard(d.conns, loop.conn, ActionRejected(turnId, loop.retriesLeft))
                  && d'.rejected == d.rejected + {(seat, turnId)}
                  && d'.loops.Of(seat) == (if loop.retriesLeft > 0 then loop.(retriesLeft := loop.retriesLeft - 1) else Aborting)
                  && d'.abort == (if loop.retriesLeft == 0 && d.abort == Idle then Requested(AdapterError) else d.abort))
  {
    var d := Run(rules, events);
    RunFits(rules, events);
    RunSnoc(rules, events, Answer(seat, turnId, action));
    AnsweredAlone(rules, d, seat, turnId, action);
    if !IsAccepted(rules, d, seat, action) {
      RefusalIs(d, seat, turnId);
    }
  }

  lemma RefusalIs<L, A, V>(d: Driver<L, A, V>, seat: TableSeat, turnId: TurnId)
    requires AwaitsAction(d, seat)
    ensures var loop := d.loops.Of(seat);
            var d' := RejectStep(Judged(d, seat, turnId), seat, turnId);
            && d'.loops == WithLoopAt(d.loops, seat, if loop.retriesLeft > 0 then loop.(retriesLeft := loop.retriesLeft - 1) else Aborting)
            && d'.conns == Heard(d.conns, loop.conn, ActionRejected(turnId, loop.retriesLeft))
            && d'.rejected == d.rejected + {(seat, turnId)}
            && d'.session == d.session && d'.pc == d.pc && d'.committed == d.committed
            && d'.abort == (if loop.retriesLeft == 0 && d.abort == Idle then Requested(AdapterError) else d.abort)
  {
    var loop := d.loops.Of(seat);
    var j := Judged(d, seat, turnId);
    RefusedOnlySends(j, seat, turnId);
    assert Refused(j, seat, turnId).conns == Heard(d.conns, loop.conn, ActionRejected(turnId, loop.retriesLeft)) by {
      SendIsHeard(j.(rejected := j.rejected + {(seat, turnId)}), loop.conn, ActionRejected(turnId, loop.retriesLeft));
    }
  }

  lemma SendIsHeard<L, A, V>(d: Driver<L, A, V>, c: ConnId, f: Frame<V>)
    ensures Send(d, c, f).conns == Heard(d.conns, c, f)
  {
    if c in d.conns {
      assert d.conns[c := d.conns[c]] == d.conns;
    }
  }

  /** An action whose turn id was committed or rejected before is dropped without a trace. */
  lemma ResentActionsAreDropped<L, T, A, V>(rules: Rules<L, T, A, V>, events: seq<Event<L, A>>, seat: TableSeat, turnId: TurnId, action: A)
    requires AwaitsAction(Run(rules, events), seat) && !IsFresh(Run(rules, events), seat, turnId)
    ensures Run(rules, events + [Answer(seat, turnId, action)]) == Run(rules, events)
  {
    RunSnoc(rules, events, Answer(seat, turnId, action));
  }

  // ---------------------------------------------------------------------------
  // Asking and committing
  // ---------------------------------------------------------------------------

  /** The match is to be played on, and the driver is about to ask. */
  predicate AsksNext<L, T, A, V>(rules: Rules<L, T, A, V>, d: Driver<L, A, V>) {
    d.pc == AtLoop && d.session.lifecycle == Running && d.session.local.Some? && !rules.terminal(d.session.local.value)
  }

  function Asked<V>(conns: map<ConnId, Conn<V>>, asked: bool, c: ConnId, turnCount: nat): map<ConnId, Conn<V>> {
    if asked then Heard(conns, c, ObservationRequest(turnCount)) else conns
  }

  /** Every seat the game waits for is asked on its connection, with the whole retry budget,
      and no other seat is. */
  lemma ActingSeatsAreAsked<L, T, A, V>(rules: Rules<L, T, A, V>, events: seq<Event<L, A>>, trouble: Trouble)
    requires var d := Run(rules, events);
             && AsksNext(rules, d) && !trouble.crashes
             && rules.acting(d.session.local.value) in [[0], [1], [0, 1]]
    ensures var d := Run(rules, events);
            var d' := Run(rules, events + [DriverSteps(trouble)]);
            var seats := rules.acting(d.session.local.value);
            && d'.pc == Asking && d'.session == d.session && d'.abort == d.abort
            && d'.committed == d.committed && d'.rejected == d.rejected
            && d'.loops.Of(0) == (if 0 in seats then Waiting(d.seat0, rules.retryBudget, 0) else NoLoop)
            && d'.loops.Of(1) == (if 1 in seats then Waiting(d.seat1, rules.retryBudget, 0) else NoLoop)
            && d'.conns == Asked(Asked(d.conns, 0 in seats, d.seat0, |rules.turns(d.session.local.value)|),
                                 1 in seats, d.seat1, |rules.turns(d.session.local.value)|)
  {
    var d := Run(rules, events);
    RunSnoc(rules, events, DriverSteps(trouble));
    AskingIs(rules, d, rules.acting(d.session.local.value));
  }

  lemma AskingIs<L, T, A, V>(rules: Rules<L, T, A, V>, d: Driver<L, A, V>, seats: seq<Seat>)
    requires seats in [[0], [1], [0, 1]] && d.session.local.Some?
    ensures var d' := AskSeats(rules, d, seats);
            var count := |rules.turns(d.session.local.value)|;
            && d' == d.(pc := Asking, loops := d'.loops, conns := d'.conns)
            && d'.loops.Of(0) == (if 0 in seats then Waiting(d.seat0, rules.retryBudget, 0) else NoLoop)
            && d'.loops.Of(1) == (if 1 in seats then Waiting(d.seat1, rules.retryBudget, 0) else NoLoop)
            && d'.conns == Asked(Asked(d.conns, 0 in seats, d.seat0, count), 1 in seats, d.seat1, count)
  {
    var request: Frame<V> := ObservationRequest(|rules.turns(d.session.local.value)|);
    var start := d.(loops := NoLoops());
    SendIsHeard(start, d.seat0, request);
    SendIsHeard(start, d.seat1, request);
    if seats == [0, 1] {
      SendIsHeard(AskSeat(rules, start, 0), d.seat1, request);
    }
  }

  /** Every seat the game waits for has a good action held. */
  predicate RoundIsIn<L, T, A, V>(rules: Rules<L, T, A, V>, d: Driver<L, A, V>) {
    && d.pc == Asking && d.session.local.Some?
    && forall seat: TableSeat :: seat in rules.acting(d.session.local.value) ==> d.loops.Of(seat).Accepted?
  }

  /** What the game makes of the round. */
  function Played<L, T, A, V>(rules: Rules<L, T, A, V>, l: L, loops: Loops<A>): Option<L>
    requires forall seat: TableSeat :: seat in rules.acting(l) ==> loops.Of(seat).Accepted?
    requires rules.acting(l) in [[0], [1], [0, 1]]
  {
    if rules.acting(l) == [0] then rules.act(l, 0, loops.Of(0).action)
    else if rules.acting(l) == [1] then rules.act(l, 1, loops.Of(1).action)
    else rules.actJointly(l, map[0 := loops.Of(0).action, 1 := loops.Of(1).action])
  }

  /** The driver's next step, if nothing disturbs it, applies a round whose actions are all in:
      one seat's always, as it was judged; two seats' unless the game refuses them together,
      which ends the match as the engine's fault. What was applied is then told from the
      first new turn on, and the match is finished exactly if the game is over. */
  lemma RoundsAreApplied<L, T, A, V>(rules: Rules<L, T, A, V>, events: seq<Event<L, A>>, trouble: Trouble)
    requires RoundIsIn(rules, Run(rules, events)) && !trouble.crashes
    ensures var d := Run(rules, events);
            var d' := Run(rules, events + [DriverSteps(trouble)]);
            var l := d.session.local.value;
            && rules.acting(l) in [[0], [1], [0, 1]]
            && var next := Played(rules, l, d.loops);
            && d'.conns == d.conns && d'.rejected == d.rejected
            && (next.None? ==> rules.acting(l) == [0, 1] && d'.session == d.session && d'.abort == Requested(CoreError) && d'.pc == AwaitAbort(false))
            && (next.Some? ==>
                  && d'.session == MatchSession(next, if rules.terminal(next.value) then Finished else Running, d.session.reason)
                  && d'.pc == Broadcasting(|rules.turns(l)|, true) && d'.abort == Idle
                  && (forall seat: TableSeat, id :: (seat, id) in d'.committed <==>
                        (seat, id) in d.committed || (seat in rules.acting(l) && id == d.loops.Of(seat).turnId)))
  {
    var d := Run(rules, events);
    RunFits(rules, events);
    RunControl(rules, events);
    RunSnoc(rules, events, DriverSteps(trouble));
    RoundIs(rules, d);
  }

  lemma RoundIs<L, T, A, V>(rules: Rules<L, T, A, V>, d: Driver<L, A, V>)
    requires RoundFits(rules, d) && RoundIsIn(rules, d)
    ensures AllAccepted(d.loops)
    ensures var l := d.session.local.value;
            && rules.acting(l) in [[0], [1], [0, 1]]
            && Applied(rules, l, d.loops) == Played(rules, l, d.loops)
            && (Joint(d.loops) <==> rules.acting(l) == [0, 1])
            && (Played(rules, l, d.loops).None? ==> Joint(d.loops))
            && (forall seat: TableSeat, id :: (seat, id) in TurnIds(d.loops) <==> seat in rules.acting(l) && id == d.loops.Of(seat).turnId)
  {
    var l := d.session.local.value;
    var zero: TableSeat, one: TableSeat := 0, 1;
    assert rules.acting(l)[0] in rules.acting(l);
    if Joint(d.loops) {
      assert zero in [0, 1] && one in [0, 1];
    } else {
      assert rules.acting(l) == [if d.loops.loop0.NoLoop? then one else zero];
    }
  }

  /** So a legal action is played: a lone acting seat that is asked and answers with an action
      the game takes, under a turn id not seen before, has it applied. */
  lemma LegalActionsArePlayed<L, T, A, V>(
      rules: Rules<L, T, A, V>, events: seq<Event<L, A>>, seat: TableSeat, turnId: TurnId, action: A, asking: Trouble, applying: Trouble)
    requires var d := Run(rules, events);
             && AsksNext(rules, d) && IsFresh(d, seat, turnId) && !asking.crashes && !applying.crashes
             && rules.acting(d.session.local.value) == [seat] && rules.act(d.session.local.value, seat, action).Some?
    ensures var l := Run(rules, events).session.local.value;
            Run(rules, events + [DriverSteps(asking)] + [Answer(seat, turnId, action)] + [DriverSteps(applying)]).session.local
            == rules.act(l, seat, action)
  {
    var asked := events + [DriverSteps(asking)];
    var answered := asked + [Answer(seat, turnId, action)];
    ActingSeatsAreAsked(rules, events, asking);
    ActionsAreJudgedByTheGame(rules, asked, seat, turnId, action);
    RoundsAreApplied(rules, answered, applying);
  }

  /** Both seats of a joint round hold these actions. */
  predicate BothIn<L(==), T, A(==), V>(rules: Rules<L, T, A, V>, d: Driver<L, A, V>, l: L, first: TableSeat, firstAction: A, secondAction: A) {
    && d.pc == Asking && d.session.local.Some? && d.session.local.value == l
    && rules.acting(l) == [0, 1]
    && d.loops.Of(first).Accepted? && d.loops.Of(first).action == firstAction
    && d.loops.Of(1 - first).Accepted? && d.loops.Of(1 - first).action == secondAction
  }

  lemma BothAreHeld<L, T, A, V>(
      rules: Rules<L, T, A, V>, events: seq<Event<L, A>>, first: TableSeat,
      firstId: TurnId, firstAction: A, secondId: TurnId, secondAction: A)
    requires var d := Run(rules, events);
             && AwaitsAction(d, first) && AwaitsAction(d, 1 - first) && IsFresh(d, first, firstId) && IsFresh(d, 1 - first, secondId)
             && d.session.local.Some? && rules.acting(d.session.local.value) == [0, 1]
             && rules.check(d.session.local.value, first, firstAction) && rules.check(d.session.local.value, 1 - first, secondAction)
    ensures BothIn(rules, Run(rules, events + [Answer(first, firstId, firstAction)] + [Answer(1 - first, secondId, secondAction)]),
                   Run(rules, events).session.local.value, first, firstAction, secondAction)
  {
    ActionsAreJudgedByTheGame(rules, events, first, firstId, firstAction);
    ActionsAreJudgedByTheGame(rules, events + [Answer(first, firstId, firstAction)], 1 - first, secondId, secondAction);
  }

  lemma BothArePlayed<L, T, A, V>(
      rules: Rules<L, T, A, V>, events: seq<Event<L, A>>, l: L, first: TableSeat, firstAction: A, secondAction: A, applying: Trouble)
    requires BothIn(rules, Run(rules, events), l, first, firstAction, secondAction) && !applying.crashes
    requires rules.actJointly(l, map[first := firstAction, 1 - first := secondAction]).Some?
    ensures Run(rules, events + [DriverSteps(applying)]).session.local == rules.actJointly(l, map[first := firstAction, 1 - first := secondAction])
  {
    var loops := Run(rules, events).loops;
    assert map[0 := loops.Of(0).action, 1 := loops.Of(1).action] == map[first := firstAction, 1 - first := secondAction];
    RoundsAreApplied(rules, events, applying);
  }

  /** And so are two good actions of a joint round, in whichever order they come in, if the
      game takes them together. */
  lemma LegalRoundsArePlayed<L, T, A, V>(
      rules: Rules<L, T, A, V>, events: seq<Event<L, A>>, first: TableSeat,
      firstId: TurnId, firstAction: A, secondId: TurnId, secondAction: A, asking: Trouble, applying: Trouble)
    requires var d := Run(rules, events);
             && AsksNext(rules, d) && IsFresh(d, first, firstId) && IsFresh(d, 1 - first, secondId)
             && !asking.crashes && !applying.crashes
             && rules.acting(d.session.local.value) == [0, 1]
             && rules.check(d.session.local.value, first, firstAction) && rules.check(d.session.local.value, 1 - first, secondAction)
             && rules.actJointly(d.session.local.value, map[first := firstAction, 1 - first := secondAction]).Some?
    ensures var l := Run(rules, events).session.local.value;
            Run(rules, events + [DriverSteps(asking)] + [Answer(first, firstId, firstAction)] +
                       [Answer(1 - first, secondId, secondAction)] + [DriverSteps(applying)]).session.local
            == rules.actJointly(l, map[first := firstAction, 1 - first := secondAction])
  {
    var asked := events + [DriverSteps(asking)];
    ActingSeatsAreAsked(rules, events, asking);
    BothAreHeld(rules, asked, first, firstId, firstAction, secondId, secondAction);
    BothArePlayed(rules, asked + [Answer(first, firstId, firstAction)] + [Answer(1 - first, secondId, secondAction)],
                  Run(rules, events).session.local.value, first, firstAction, secondAction, applying);
  }
}

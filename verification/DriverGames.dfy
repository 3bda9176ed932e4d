/** The driver over the match layer itself: its rules are the real steps and the real dumps. */
module DriverGames {
  import opened Wrappers
  import opened Games
  import opened LocalMatches
  import opened Transcripts
  import opened Runtime
  import opened Drivers
  import opened DriverControl
  import opened DriverFrames
  import opened DriverDelivery
  import opened DriverAnswers
  import opened DriverLimits
  import opened DriverRounds
  import ViewCaches

  function ToOption<T, E>(r: Result<T, E>): Option<T> {
    if r.Ok? then Some(r.value) else None
  }

  /** The driver's rules for a game definition. An engine whose acting seats are refused gives
      none, which the driver meets as a crash. */
  function RulesOf<C, S, A, O, E, J>(g: Game<C, S, A, O, E, J>, retryBudget: nat, turnCap: nat):
      Rules<LocalMatch<C, S, A, O, E, J>, TurnRecord<S, A, O, E, J>, A, TurnPayload<J>>
  {
    Rules(
      g.hasHiddenInformation,
      (m: LocalMatch<C, S, A, O, E, J>) => m.turns,
      (m: LocalMatch<C, S, A, O, E, J>, t: TurnRecord<S, A, O, E, J>, v: Viewer) => Transcripts.TurnFor(g, m.config, t, v),
      (m: LocalMatch<C, S, A, O, E, J>) => g.isTerminal(m.state),
      (m: LocalMatch<C, S, A, O, E, J>) => (var r := ActingSeats(g, m.state); if r.Ok? then r.value else []),
      (m: LocalMatch<C, S, A, O, E, J>, seat: TableSeat, a: A) => ToOption(ApplyMatchAction(g, m, seat, a)),
      (m: LocalMatch<C, S, A, O, E, J>, seat: TableSeat, a: A) => g.validateAction(m.state, seat, a).None?,
      (m: LocalMatch<C, S, A, O, E, J>, actions: map<TableSeat, A>) => ToOption(ApplyMatchJointAction(g, m, actions)),
      retryBudget, turnCap)
  }

  /** Every match step only adds turns and keeps the config they are shown with. */
  lemma MatchesAreWellBehaved<C(!new), S(!new), A(!new), O(!new), E(!new), J(!new)>(g: Game<C, S, A, O, E, J>, retryBudget: nat, turnCap: nat)
    ensures WellBehaved(RulesOf(g, retryBudget, turnCap))
  {
    var rules := RulesOf(g, retryBudget, turnCap);
    forall m, s: TableSeat, a | rules.act(m, s, a).Some?
      ensures Grows(rules, m, rules.act(m, s, a).value)
    {
      StepExtends(g, m, Act(s, a));
    }
    forall m, actions: map<TableSeat, A> | rules.actJointly(m, actions).Some?
      ensures Grows(rules, m, rules.actJointly(m, actions).value)
    {
      StepExtends(g, m, ActJointly(actions));
    }
  }

  /** For a hidden-information game, what the driver tells a viewer over a match is, turn for
      turn, the transcript dumped for that viewer. */
  lemma ToldIsTheDump<C, S, A, O, E, J>(g: Game<C, S, A, O, E, J>, retryBudget: nat, turnCap: nat,
                                        m: LocalMatch<C, S, A, O, E, J>, lifecycle: Lifecycle, viewer: Viewer, i: nat)
    requires g.hasHiddenInformation && i < |m.turns|
    ensures var history := HistoryFor(RulesOf(g, retryBudget, turnCap), MatchSession(Some(m), lifecycle, None), viewer);
            |history| == |DumpTranscriptFor(g, m, viewer).turns| && history[i] == TurnSeen(i, DumpTranscriptFor(g, m, viewer).turns[i])
  {
    var rules := RulesOf(g, retryBudget, turnCap);
    assert rules.turns(m) == m.turns;
    assert rules.view(m, m.turns[i], viewer) == Transcripts.TurnFor(g, m.config, m.turns[i], viewer);
  }

  /** So a spectator still listening when the driver waits for the seats, or is about to send
      the terminal frame, holds the match's turns in the public rendering, each once and in
      order; and that is the public dump, unless the game has perfect information and the
      cache's rendering is not the full transcript. */
  lemma SpectatorsHoldTheDump<C(!new), S(!new), A(!new), O(!new), E(!new), J(!new)>(
      g: Game<C, S, A, O, E, J>, retryBudget: nat, turnCap: nat,
      events: seq<Event<LocalMatch<C, S, A, O, E, J>, A>>, c: ConnId, i: nat)
    requires var d := Run(RulesOf(g, retryBudget, turnCap), events);
             && AllTold(d.pc) && c in d.spectators && c in d.conns && d.conns[c].viewer == Public && d.conns[c].open
             && d.session.local.Some? && i < |d.session.local.value.turns|
    ensures var d := Run(RulesOf(g, retryBudget, turnCap), events);
            var m := d.session.local.value;
            && |Got(d.conns[c])| == |m.turns|
            && Got(d.conns[c])[i] == TurnSeen(i, ViewCaches.Rendered(g, m, Public).turns[i])
            && (g.hasHiddenInformation || ViewCaches.Rendered(g, m, Public) == DumpTranscriptFor(g, m, Public) ==>
                  Got(d.conns[c])[i] == TurnSeen(i, DumpTranscriptFor(g, m, Public).turns[i]))
  {
    var rules := RulesOf(g, retryBudget, turnCap);
    var d := Run(rules, events);
    var m := d.session.local.value;
    MatchesAreWellBehaved(g, retryBudget, turnCap);
    SpectatorsGetEveryTurnOnce(rules, events, c);
    assert rules.turns(m) == m.turns;
    assert rules.view(m, m.turns[i], Public) == Transcripts.TurnFor(g, m.config, m.turns[i], Public);
  }

  /** The first turn a step adds records its move. */
  lemma StepRecordsItsMove<C, S, A, O, E, J>(g: Game<C, S, A, O, E, J>, m: LocalMatch<C, S, A, O, E, J>, move: Move<A, O>)
    requires StepMatch(g, m, move).Ok?
    ensures |m.turns| < |StepMatch(g, m, move).value.turns|
    ensures MoveOf(StepMatch(g, m, move).value.turns[|m.turns|]) == Some(move)
  {
    var t := ApplyMove(g, m.state, move).value;
    var first := m.turns + [RecordTurn(g, m.config, move, t)];
    assert first <= StepMatch(g, m, move).value.turns;
    assert first[|m.turns|] == RecordTurn(g, m.config, move, t);
  }

  /** A round with every action in, as a move of the match. */
  function RoundMove<A, O>(loops: Loops<A>): Move<A, O>
    requires AllAccepted(loops)
  {
    if Joint(loops) then ActJointly(map[0 := loops.loop0.action, 1 := loops.loop1.action])
    else if loops.loop0.NoLoop? then Act(1, loops.loop1.action)
    else Act(0, loops.loop0.action)
  }

  /** `after` continues `before`, first with a turn that records `move`. */
  predicate AddsTurnOf<C, S(==), A(==), O(==), E(==), J(==)>(
      before: Option<LocalMatch<C, S, A, O, E, J>>, after: Option<LocalMatch<C, S, A, O, E, J>>, move: Move<A, O>)
  {
    && before.Some? && after.Some?
    && before.value.turns < after.value.turns
    && MoveOf(after.value.turns[|before.value.turns|]) == Some(move)
  }

  /** The first turn a commit adds records exactly the acting seats' held actions: both, by
      seat, of a joint round, or the one seat's. */
  lemma CommittedTurnCarriesTheRound<C, S, A, O, E, J>(
      g: Game<C, S, A, O, E, J>, retryBudget: nat, turnCap: nat,
      events: seq<Event<LocalMatch<C, S, A, O, E, J>, A>>, e: Event<LocalMatch<C, S, A, O, E, J>, A>)
    ensures var rules := RulesOf(g, retryBudget, turnCap);
            var d := Run(rules, events);
            d.pc != NotStarted && Next(rules, d, e).session.local != d.session.local ==>
              AllAccepted(d.loops) && AddsTurnOf(d.session.local, Next(rules, d, e).session.local, RoundMove(d.loops))
  {
    var rules := RulesOf(g, retryBudget, turnCap);
    var d := Run(rules, events);
    if d.pc != NotStarted && Next(rules, d, e).session.local != d.session.local {
      CommitsExactlyTheRound(rules, events, e);
      OnlyCommitsChangeTheMatch(rules, d, e);
      var m := d.session.local.value;
      var move := RoundMove(d.loops);
      assert StepMatch(g, m, move).Ok? && Next(rules, d, e).session.local == Some(StepMatch(g, m, move).value);
      StepRecordsItsMove(g, m, move);
      StepExtends(g, m, move);
    }
  }

  /** A match of any game, waiting for one seat, plays the legal action that seat answers with:
      what the match layer makes of it, rolls included, is the match from then on. */
  lemma LegalActionsAreCommitted<C, S, A, O, E, J>(
      g: Game<C, S, A, O, E, J>, retryBudget: nat, turnCap: nat,
      events: seq<Event<LocalMatch<C, S, A, O, E, J>, A>>, seat: TableSeat, turnId: TurnId, action: A, asking: Trouble, applying: Trouble)
    requires var d := Run(RulesOf(g, retryBudget, turnCap), events);
             && d.pc == AtLoop && d.session.lifecycle == Lifecycle.Running && d.session.local.Some?
             && IsFresh(d, seat, turnId) && !asking.crashes && !applying.crashes
             && ActingSeats(g, d.session.local.value.state) == Ok([seat])
             && ApplyMatchAction(g, d.session.local.value, seat, action).Ok?
    ensures var rules := RulesOf(g, retryBudget, turnCap);
            var m := Run(rules, events).session.local.value;
            Run(rules, events + [DriverSteps(asking)] + [Answer(seat, turnId, action)] + [DriverSteps(applying)]).session.local
            == Some(ApplyMatchAction(g, m, seat, action).value)
  {
    LegalActionsArePlayed(RulesOf(g, retryBudget, turnCap), events, seat, turnId, action, asking, applying);
  }

  /** And a joint round plays both seats' actions together, in whichever order they came. */
  lemma LegalRoundsAreCommitted<C, S, A, O, E, J>(
      g: Game<C, S, A, O, E, J>, retryBudget: nat, turnCap: nat,
      events: seq<Event<LocalMatch<C, S, A, O, E, J>, A>>, first: TableSeat,
      firstId: TurnId, firstAction: A, secondId: TurnId, secondAction: A, asking: Trouble, applying: Trouble)
    requires var d := Run(RulesOf(g, retryBudget, turnCap), events);
             var m := d.session.local;
             && d.pc == AtLoop && d.session.lifecycle == Lifecycle.Running && m.Some?
             && IsFresh(d, first, firstId) && IsFresh(d, 1 - first, secondId) && !asking.crashes && !applying.crashes
             && ApplyMatchJointAction(g, m.value, map[first := firstAction, 1 - first := secondAction]).Ok?
    ensures var rules := RulesOf(g, retryBudget, turnCap);
            var m := Run(rules, events).session.local.value;
            Run(rules, events + [DriverSteps(asking)] + [Answer(first, firstId, firstAction)] +
                       [Answer(1 - first, secondId, secondAction)] + [DriverSteps(applying)]).session.local
            == Some(ApplyMatchJointAction(g, m, map[first := firstAction, 1 - first := secondAction]).value)
  {
    var rules := RulesOf(g, retryBudget, turnCap);
    var m := Run(rules, events).session.local.value;
    var actions: map<TableSeat, A> := map[first := firstAction, 1 - first := secondAction];
    JointNeedsBoth(g, m, actions);
    assert rules.acting(m) == [0, 1];
    LegalRoundsArePlayed(rules, events, first, firstId, firstAction, secondId, secondAction, asking, applying);
  }

  lemma JointNeedsBoth<C, S, A, O, E, J>(g: Game<C, S, A, O, E, J>, m: LocalMatch<C, S, A, O, E, J>, actions: map<TableSeat, A>)
    requires ApplyMatchJointAction(g, m, actions).Ok?
    ensures ActingSeats(g, m.state) == Ok([0, 1]) && !g.isTerminal(m.state) && actions.Keys == {0, 1}
    ensures g.validateAction(m.state, 0, actions[0]).None? && g.validateAction(m.state, 1, actions[1]).None?
  {
    assert ApplyJointAction(g, m.state, actions).Ok?;
  }

  /** A hosted match is running only while its engine says it goes on, and finished only once it
      says it is over. */
  lemma MatchesEndWhenTheyAreOver<C, S, A, O, E, J>(
      g: Game<C, S, A, O, E, J>, retryBudget: nat, turnCap: nat, events: seq<Event<LocalMatch<C, S, A, O, E, J>, A>>)
    ensures var s := Run(RulesOf(g, retryBudget, turnCap), events).session;
            && (s.lifecycle == Lifecycle.Running ==> s.local.Some? && !g.isTerminal(s.local.value.state))
            && (s.lifecycle == Lifecycle.Finished ==> s.local.Some? && g.isTerminal(s.local.value.state))
  {
    SessionsStandRightly(RulesOf(g, retryBudget, turnCap), events);
  }

  /** A seat that is waited for is held to its game's rules: alone its action is taken exactly if
      the match can be stepped by it, in a joint round exactly if the engine finds it valid. */
  lemma SeatsAreHeldToTheRules<C, S, A, O, E, J>(
      g: Game<C, S, A, O, E, J>, retryBudget: nat, turnCap: nat,
      events: seq<Event<LocalMatch<C, S, A, O, E, J>, A>>, seat: TableSeat, turnId: TurnId, action: A)
    requires AwaitsAction(Run(RulesOf(g, retryBudget, turnCap), events), seat)
    requires IsFresh(Run(RulesOf(g, retryBudget, turnCap), events), seat, turnId)
    ensures var rules := RulesOf(g, retryBudget, turnCap);
            var d := Run(rules, events);
            && d.session.local.Some?
            && var m := d.session.local.value;
            var taken := Run(rules, events + [Answer(seat, turnId, action)]).loops.Of(seat) == Accepted(turnId, action);
            && (ActingSeats(g, m.state) == Ok([seat]) || ActingSeats(g, m.state) == Ok([0, 1]))
            && (ActingSeats(g, m.state) == Ok([seat]) ==> (taken <==> ApplyMatchAction(g, m, seat, action).Ok?))
            && (ActingSeats(g, m.state) == Ok([0, 1]) ==> (taken <==> g.validateAction(m.state, seat, action).None?))
  {
    var rules := RulesOf(g, retryBudget, turnCap);
    ActionsAreJudgedByTheGame(rules, events, seat, turnId, action);
    var m := Run(rules, events).session.local.value;
    assert rules.acting(m) == if ActingSeats(g, m.state).Ok? then ActingSeats(g, m.state).value else [];
    assert [0, 1] != [seat] by {
      assert |[0, 1]| == 2;
    }
  }
}

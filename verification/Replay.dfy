/**
 Replay: a live match is the replay of its own record, its dump validates exactly when no
 event is private to nobody, and a validated transcript says what its run says.
 */
module Replay {
  import opened Wrappers
  import opened Folds
  import opened Chance
  import opened Games
  import opened LocalMatches
  import opened Transcripts

  // ---------------------------------------------------------------------------
  // Records
  // ---------------------------------------------------------------------------

  /** A turn is the record of one move: nothing in it is free. */
  ghost predicate IsRecord<C, S, A, O, E, J>(g: Game<C, S, A, O, E, J>, config: C, turn: TurnRecord<S, A, O, E, J>) {
    && MoveOf(turn).Some?
    && turn == RecordTurn(g, config, MoveOf(turn).value, Transition(turn.postState, turn.events, turn.result))
    && (turn.actions.Some? ==> turn.actions.value.Keys == {0, 1})
  }

  ghost predicate AreRecords<C, S, A, O, E, J>(g: Game<C, S, A, O, E, J>, config: C, turns: seq<TurnRecord<S, A, O, E, J>>) {
    forall i :: 0 <= i < |turns| ==> IsRecord(g, config, turns[i])
  }

  ghost function MovesOf<S, A, O, E, J>(turns: seq<TurnRecord<S, A, O, E, J>>): (moves: seq<Move<A, O>>)
    requires forall i :: 0 <= i < |turns| ==> MoveOf(turns[i]).Some?
    ensures |moves| == |turns|
    ensures forall i :: 0 <= i < |turns| ==> moves[i] == MoveOf(turns[i]).value
  {
    seq(|turns|, i requires 0 <= i < |turns| => MoveOf(turns[i]).value)
  }

  lemma RecordTurnIsRecord<C, S, A, O, E, J>(g: Game<C, S, A, O, E, J>, config: C, s: S, move: Move<A, O>, t: Transition<S, E>)
    requires ApplyMove(g, s, move) == Ok(t)
    ensures IsRecord(g, config, RecordTurn(g, config, move, t))
    ensures MoveOf(RecordTurn(g, config, move, t)) == Some(move)
  {
  }

  lemma MovesOfAppend<S, A, O, E, J>(first: seq<TurnRecord<S, A, O, E, J>>, second: seq<TurnRecord<S, A, O, E, J>>)
    requires forall i :: 0 <= i < |first| ==> MoveOf(first[i]).Some?
    requires forall i :: 0 <= i < |second| ==> MoveOf(second[i]).Some?
    ensures MovesOf<S, A, O, E, J>(first + second) == MovesOf(first) + MovesOf(second)
  {
  }

  // ---------------------------------------------------------------------------
  // Stepping composes
  // ---------------------------------------------------------------------------

  ghost function Seedless<C, S, A, O, E, J>(m: LocalMatch<C, S, A, O, E, J>): LocalMatch<C, S, A, O, E, J> {
    m.(rng := None)
  }

  /** `to` is what `from` becomes by replaying the turns `added` to its record. */
  ghost predicate ReplayedBy<C, S, A, O, E, J>(
      g: Game<C, S, A, O, E, J>, from: LocalMatch<C, S, A, O, E, J>, added: seq<TurnRecord<S, A, O, E, J>>, to: LocalMatch<C, S, A, O, E, J>)
  {
    && AreRecords(g, from.config, added)
    && to.turns == from.turns + added
    && to.config == from.config
    && RunMoves(g, Seedless(from), MovesOf(added)) == Ok(Seedless(to))
  }

  lemma ReplayedByNothing<C, S, A, O, E, J>(g: Game<C, S, A, O, E, J>, m: LocalMatch<C, S, A, O, E, J>)
    ensures ReplayedBy(g, m, [], m)
  {
  }

  lemma ReplayedByOne<C, S, A, O, E, J>(g: Game<C, S, A, O, E, J>, m: LocalMatch<C, S, A, O, E, J>, move: Move<A, O>, t: Transition<S, E>)
    requires ApplyMove(g, m.state, move) == Ok(t)
    ensures var turn := RecordTurn(g, m.config, move, t);
            ReplayedBy(g, m, [turn], m.(state := t.state, turns := m.turns + [turn]))
  {
    var turn := RecordTurn(g, m.config, move, t);
    RecordTurnIsRecord(g, m.config, m.state, move, t);
    assert MovesOf([turn]) == [move] + [];
    FoldCons(Stepper(g), Seedless(m), move, []);
  }

  lemma ReplayedByBoth<C, S, A, O, E, J>(
      g: Game<C, S, A, O, E, J>, from: LocalMatch<C, S, A, O, E, J>, first: seq<TurnRecord<S, A, O, E, J>>,
      middle: LocalMatch<C, S, A, O, E, J>, second: seq<TurnRecord<S, A, O, E, J>>, to: LocalMatch<C, S, A, O, E, J>)
    requires ReplayedBy(g, from, first, middle) && ReplayedBy(g, middle, second, to)
    ensures ReplayedBy(g, from, first + second, to)
  {
    RecordsAppend(g, from.config, first, second);
    AppendAppend(from.turns, first, second);
    RunBoth(g, Seedless(from), MovesOf(first), Seedless(middle), MovesOf(second), Seedless(to));
  }

  lemma AppendAppend<T>(a: seq<T>, b: seq<T>, c: seq<T>)
    ensures (a + b) + c == a + (b + c)
  {
  }

  lemma RecordsAppend<C, S, A, O, E, J>(
      g: Game<C, S, A, O, E, J>, config: C, first: seq<TurnRecord<S, A, O, E, J>>, second: seq<TurnRecord<S, A, O, E, J>>)
    requires AreRecords(g, config, first) && AreRecords(g, config, second)
    ensures AreRecords(g, config, first + second)
    ensures MovesOf(first + second) == MovesOf(first) + MovesOf(second)
  {
    forall i | 0 <= i < |first + second|
      ensures IsRecord(g, config, (first + second)[i])
    {
      if i < |first| {
        assert IsRecord(g, config, first[i]);
      } else {
        assert IsRecord(g, config, second[i - |first|]);
      }
    }
    MovesOfAppend(first, second);
  }

  lemma RunBoth<C, S, A, O, E, J>(
      g: Game<C, S, A, O, E, J>, from: LocalMatch<C, S, A, O, E, J>, first: seq<Move<A, O>>,
      middle: LocalMatch<C, S, A, O, E, J>, second: seq<Move<A, O>>, to: LocalMatch<C, S, A, O, E, J>)
    requires RunMoves(g, from, first) == Ok(middle) && RunMoves(g, middle, second) == Ok(to)
    ensures RunMoves(g, from, first + second) == Ok(to)
  {
    FoldAppend(Stepper(g), from, first, second);
  }

  /** Draining is replaying: applying the outcomes it recorded reaches the same place. */
  lemma {:induction false} DrainIsReplay<C, S, A, O, E, J>(g: Game<C, S, A, O, E, J>, m: LocalMatch<C, S, A, O, E, J>, rng: Option<Rng>, steps: nat)
      returns (added: seq<TurnRecord<S, A, O, E, J>>)
    requires steps <= MAX_CONSECUTIVE_CHANCE_STEPS
    requires DrainFrom(g, m.config, m.state, m.turns, rng, steps).Ok?
    ensures var d := DrainFrom(g, m.config, m.state, m.turns, rng, steps).value;
            ReplayedBy(g, m, added, m.(state := d.state, turns := d.turns, rng := d.rng))
    decreases MAX_CONSECUTIVE_CHANCE_STEPS - steps
  {
    var d := DrainFrom(g, m.config, m.state, m.turns, rng, steps).value;
    var last := m.(state := d.state, turns := d.turns, rng := d.rng);
    if rng.None? || !g.isChanceNode(m.state) {
      added := [];
      assert MovesOf(added) == [];
      assert last.turns == m.turns + added;
    } else {
      var (outcome, next) := g.sampleChance(m.state, rng.value);
      var t := g.applyChance(m.state, outcome).value;
      var turn := RecordTurn(g, m.config, Resolve(outcome), t);
      ReplayedByOne(g, m, Resolve(outcome), t);
      var one := m.(state := t.state, turns := m.turns + [turn]);
      var rest := DrainIsReplay(g, one, Some(next), steps + 1);
      added := [turn] + rest;
      ReplayedByBoth(g, m, [turn], one, rest, last);
    }
  }

  lemma StepIsReplay<C, S, A, O, E, J>(g: Game<C, S, A, O, E, J>, m: LocalMatch<C, S, A, O, E, J>, move: Move<A, O>)
      returns (added: seq<TurnRecord<S, A, O, E, J>>)
    requires StepMatch(g, m, move).Ok?
    ensures ReplayedBy(g, m, added, StepMatch(g, m, move).value)
  {
    var t := ApplyMove(g, m.state, move).value;
    var turn := RecordTurn(g, m.config, move, t);
    ReplayedByOne(g, m, move, t);
    var one := m.(state := t.state, turns := m.turns + [turn]);
    var rest := DrainIsReplay(g, one, m.rng, 0);
    added := [turn] + rest;
    ReplayedByBoth(g, m, [turn], one, rest, StepMatch(g, m, move).value);
  }

  lemma {:induction false} RunIsReplay<C, S, A, O, E, J>(g: Game<C, S, A, O, E, J>, m: LocalMatch<C, S, A, O, E, J>, moves: seq<Move<A, O>>)
      returns (added: seq<TurnRecord<S, A, O, E, J>>)
    requires RunMoves(g, m, moves).Ok?
    ensures ReplayedBy(g, m, added, RunMoves(g, m, moves).value)
    decreases |moves|
  {
    if moves == [] {
      added := [];
      ReplayedByNothing(g, m);
    } else {
      var next := StepMatch(g, m, moves[0]).value;
      var first := StepIsReplay(g, m, moves[0]);
      var second := RunIsReplay(g, next, moves[1..]);
      added := first + second;
      ReplayedByBoth(g, m, first, next, second, RunMoves(g, m, moves).value);
    }
  }

  /** A live match, whatever it sampled, is the seedless replay of the turns it recorded,
      and it never rests at a chance node. */
  lemma LiveIsReplay<C(!new), S(!new), A(!new), O(!new), E(!new), J(!new)>(
      g: Game<C, S, A, O, E, J>, config: C, seed: int, moves: seq<Move<A, O>>)
    requires WellFormed(g) && LiveRun(g, config, seed, moves).Ok?
    ensures var m := LiveRun(g, config, seed, moves).value;
            && m.config == config
            && AreRecords(g, config, m.turns)
            && ReplayRun(g, config, MovesOf(m.turns)) == Ok(Seedless(m))
            && !g.isChanceNode(m.state)
  {
    var m := LiveRun(g, config, seed, moves).value;
    var start := StartMatch(g, config, seed).value;
    var origin := StartReplayMatch(g, config).value;
    var rng := if g.hasChanceNodes then Some(Rng(seed, 0)) else None;
    var first := DrainIsReplay(g, origin, rng, 0);
    var second := RunIsReplay(g, start, moves);
    ReplayedByBoth(g, origin, first, start, second, m);
    assert m.turns == first + second;
    RestsNowhereNear(g, start, moves);
  }

  lemma {:induction false} RestsNowhereNear<C(!new), S(!new), A(!new), O(!new), E(!new), J(!new)>(
      g: Game<C, S, A, O, E, J>, m: LocalMatch<C, S, A, O, E, J>, moves: seq<Move<A, O>>)
    requires WellFormed(g) && RunMoves(g, m, moves).Ok?
    requires (m.rng.Some? <==> g.hasChanceNodes) && !g.isChanceNode(m.state)
    ensures !g.isChanceNode(RunMoves(g, m, moves).value.state)
    decreases |moves|
  {
    if moves != [] {
      StepExtends(g, m, moves[0]);
      RestsNowhereNear(g, StepMatch(g, m, moves[0]).value, moves[1..]);
    }
  }

  // ---------------------------------------------------------------------------
  // Completeness: what a match dumps, validation accepts
  // ---------------------------------------------------------------------------

  /** Somebody may see the event. An event private to nobody has the audience `[]`. */
  ghost predicate SomebodySees<C, S, A, O, E, J>(g: Game<C, S, A, O, E, J>, e: E) {
    g.visibleTo(e, Public) || g.visibleTo(e, OfSeat(0)) || g.visibleTo(e, OfSeat(1))
  }

  ghost predicate NoEventIsForNobody<C, S, A, O, E, J>(g: Game<C, S, A, O, E, J>, turns: seq<TurnRecord<S, A, O, E, J>>) {
    forall i, k :: 0 <= i < |turns| && 0 <= k < |turns[i].events| ==> SomebodySees(g, turns[i].events[k])
  }

  lemma EventShape<C, S, A, O, E, J>(g: Game<C, S, A, O, E, J>, e: E)
    ensures EventShapeOk(MATCH_TRANSCRIPT_SCHEMA_VERSION, DumpEvent(g, e)) <==> SomebodySees(g, e)
    ensures NormalEvent(DumpEvent(g, e)) == DumpEvent(g, e)
  {
  }

  lemma EventsShape<C, S, A, O, E, J>(g: Game<C, S, A, O, E, J>, events: seq<E>)
    ensures NormalEvents(DumpEvents(g, events)) == DumpEvents(g, events)
    ensures (forall k :: 0 <= k < |events| ==> SomebodySees(g, events[k])) <==>
            (forall k :: 0 <= k < |events| ==> EventShapeOk(MATCH_TRANSCRIPT_SCHEMA_VERSION, DumpEvents(g, events)[k]))
  {
    forall k | 0 <= k < |events|
      ensures NormalEvent(DumpEvents(g, events)[k]) == DumpEvents(g, events)[k]
      ensures SomebodySees(g, events[k]) <==> EventShapeOk(MATCH_TRANSCRIPT_SCHEMA_VERSION, DumpEvents(g, events)[k])
    {
      EventShape(g, events[k]);
    }
  }

  lemma ResultRoundTrip(r: Option<RuleResult>)
    ensures LoadResult(DumpResult(r)) == Ok(r)
  {
  }

  lemma JointRoundTrip<C(!new), S(!new), A(!new), O(!new), E(!new), J(!new)>(g: Game<C, S, A, O, E, J>, actions: map<Seat, A>)
    requires WellFormed(g) && actions.Keys == {0, 1}
    ensures LoadJointActions(g, DumpJointActions(g, actions)) == Ok(actions)
    ensures JointKeysOk(Some(DumpJointActions(g, actions)))
  {
    var dumped := DumpJointActions(g, actions);
    assert dumped == [(0, g.dumpAction(actions[0])), (1, g.dumpAction(actions[1]))];
    assert dumped[..1] == [dumped[0]] && dumped[..1][..0] == [];
    var loaded: map<Seat, A> := map[];
    assert LoadJointActions(g, dumped[..1]) == Ok(loaded[0 := actions[0]]);
    assert loaded[0 := actions[0]][1 := actions[1]] == actions;
  }

  /** What a record's dump loads back to. */
  ghost function LoadedRecord<C, S, A, O, E, J>(g: Game<C, S, A, O, E, J>, turn: TurnRecord<S, A, O, E, J>): LoadedTurn<S, A, O, J> {
    LoadedTurn(turn.kind, turn.seat, turn.action, turn.actions, turn.outcome, DumpEvents(g, turn.events),
               turn.result, DumpResult(turn.result), turn.postState, turn.postSnapshot)
  }

  lemma TurnRoundTrip<C(!new), S(!new), A(!new), O(!new), E(!new), J(!new)>(
      g: Game<C, S, A, O, E, J>, config: C, turn: TurnRecord<S, A, O, E, J>)
    requires WellFormed(g) && IsRecord(g, config, turn)
    ensures LoadTurn(g, DumpTurn(g, turn)) == Ok(LoadedRecord(g, turn))
    ensures RecordedMove(LoadedRecord(g, turn)) == MoveOf(turn)
    ensures TurnMatches(g, LoadedRecord(g, turn), turn)
    ensures TurnShapeOk(MATCH_TRANSCRIPT_SCHEMA_VERSION, DumpTurn(g, turn))
        <==> forall k :: 0 <= k < |turn.events| ==> SomebodySees(g, turn.events[k])
  {
    EventsShape(g, turn.events);
    ResultRoundTrip(turn.result);
    if turn.actions.Some? {
      JointRoundTrip(g, turn.actions.value);
    }
  }

  ghost function LoadedRecords<C, S, A, O, E, J>(g: Game<C, S, A, O, E, J>, turns: seq<TurnRecord<S, A, O, E, J>>): (r: seq<LoadedTurn<S, A, O, J>>)
    ensures |r| == |turns|
    ensures forall i :: 0 <= i < |turns| ==> r[i] == LoadedRecord(g, turns[i])
  {
    seq(|turns|, i requires 0 <= i < |turns| => LoadedRecord(g, turns[i]))
  }

  lemma TurnsRoundTrip<C(!new), S(!new), A(!new), O(!new), E(!new), J(!new)>(
      g: Game<C, S, A, O, E, J>, config: C, turns: seq<TurnRecord<S, A, O, E, J>>)
    requires WellFormed(g) && AreRecords(g, config, turns)
    ensures LoadTurns(g, DumpTurns(g, turns)) == Ok(LoadedRecords(g, turns))
    ensures TurnsMatch(g, LoadedRecords(g, turns), turns)
  {
    forall i | 0 <= i < |turns|
      ensures LoadTurn(g, DumpTurns(g, turns)[i]) == Ok(LoadedRecord(g, turns[i]))
      ensures TurnMatches(g, LoadedRecord(g, turns[i]), turns[i])
    {
      TurnRoundTrip(g, config, turns[i]);
    }
    var loaded := LoadTurns(g, DumpTurns(g, turns));
    if loaded.Ok? {
      assert loaded.value == LoadedRecords(g, turns);
    }
  }

  ghost predicate TurnsShapeOk<J>(version: int, turns: seq<TurnPayload<J>>) {
    forall i :: 0 <= i < |turns| ==> TurnShapeOk(version, turns[i])
  }

  lemma TurnsShape<C(!new), S(!new), A(!new), O(!new), E(!new), J(!new)>(
      g: Game<C, S, A, O, E, J>, config: C, turns: seq<TurnRecord<S, A, O, E, J>>)
    requires WellFormed(g) && AreRecords(g, config, turns)
    ensures TurnsShapeOk(MATCH_TRANSCRIPT_SCHEMA_VERSION, DumpTurns(g, turns)) <==> NoEventIsForNobody(g, turns)
    ensures forall i :: 0 <= i < |turns| ==> DumpTurns(g, turns)[i].postSnapshot.gameId == g.gameId
  {
    forall i | 0 <= i < |turns|
      ensures TurnShapeOk(MATCH_TRANSCRIPT_SCHEMA_VERSION, DumpTurns(g, turns)[i])
          <==> forall k :: 0 <= k < |turns[i].events| ==> SomebodySees(g, turns[i].events[k])
      ensures DumpTurns(g, turns)[i].postSnapshot.gameId == g.gameId
    {
      TurnRoundTrip(g, config, turns[i]);
    }
  }

  /** Replaying loaded records is running the moves they record. */
  lemma ReplayTurnsRuns<C(!new), S(!new), A(!new), O(!new), E(!new), J(!new)>(
      g: Game<C, S, A, O, E, J>, m: LocalMatch<C, S, A, O, E, J>, turns: seq<LoadedTurn<S, A, O, J>>, moves: seq<Move<A, O>>)
    requires |moves| == |turns|
    requires forall i :: 0 <= i < |turns| ==> RecordedMove(turns[i]) == Some(moves[i])
    ensures ReplayTurns(g, m, turns) == RunMoves(g, m, moves)
  {
    FoldAgrees(TurnReplayer(g), turns, Stepper(g), moves, m);
  }

  ghost function LoadedDump<C, S, A, O, E, J>(g: Game<C, S, A, O, E, J>, m: LocalMatch<C, S, A, O, E, J>): Loaded<C, S, A, O, J> {
    var initial := g.initialState(m.config);
    Loaded(m.config, m.initialSnapshot, initial,
           if m.turns == [] then initial else m.turns[|m.turns| - 1].postState, LoadedRecords(g, m.turns))
  }

  lemma DumpShape<C(!new), S(!new), A(!new), O(!new), E(!new), J(!new)>(
      g: Game<C, S, A, O, E, J>, m: LocalMatch<C, S, A, O, E, J>)
    requires WellFormed(g) && AreRecords(g, m.config, m.turns)
    requires m.initialSnapshot.gameId == g.gameId
    ensures IdsMatch(g.gameId, DumpTranscript(g, m))
    ensures ShapesOk(DumpTranscript(g, m)) <==> NoEventIsForNobody(g, m.turns)
  {
    TurnsShape(g, m.config, m.turns);
    var p := DumpTranscript(g, m);
    assert EnvelopeShapeOk(p);
    assert ShapesOk(p) <==> TurnsShapeOk(MATCH_TRANSCRIPT_SCHEMA_VERSION, p.turns);
  }

  lemma DumpLoads<C(!new), S(!new), A(!new), O(!new), E(!new), J(!new)>(
      g: Game<C, S, A, O, E, J>, m: LocalMatch<C, S, A, O, E, J>)
    requires WellFormed(g) && AreRecords(g, m.config, m.turns)
    requires m.initialSnapshot == BuildSnapshot(g, m.config, g.initialState(m.config))
    ensures LoadTranscript(g, DumpTranscript(g, m))
         == if NoEventIsForNobody(g, m.turns) then Ok(LoadedDump(g, m)) else Err(ValueError)
  {
    DumpShape(g, m);
    assert LoadTurns(g, DumpTurns(g, m.turns)) == Ok(LoadedRecords(g, m.turns)) by {
      TurnsRoundTrip(g, m.config, m.turns);
    }
    assert g.loadConfig(g.dumpConfig(m.config)) == Ok(m.config);
    var initial := g.initialState(m.config);
    assert g.loadState(g.dumpState(initial)) == Ok(initial);
  }

  lemma LoadedDumpValidates<C(!new), S(!new), A(!new), O(!new), E(!new), J(!new)>(
      g: Game<C, S, A, O, E, J>, m: LocalMatch<C, S, A, O, E, J>)
    requires WellFormed(g) && AreRecords(g, m.config, m.turns)
    requires ReplayRun(g, m.config, MovesOf(m.turns)) == Ok(m) && !g.isChanceNode(m.state)
    requires m.initialSnapshot == BuildSnapshot(g, m.config, g.initialState(m.config))
    ensures ValidateLoaded(g, LoadedDump(g, m)) == Ok(Replayed(LoadedDump(g, m), m))
  {
    TurnsRoundTrip(g, m.config, m.turns);
    forall i | 0 <= i < |m.turns|
      ensures RecordedMove(LoadedRecords(g, m.turns)[i]) == Some(MovesOf(m.turns)[i])
    {
      TurnRoundTrip(g, m.config, m.turns[i]);
    }
    ReplayTurnsRuns(g, StartReplayMatch(g, m.config).value, LoadedRecords(g, m.turns), MovesOf(m.turns));
  }

  /** For any match that is a replay of its record and rests at no chance node: its dump
      validates exactly when every event has somebody to see it, and the validator then
      rebuilds the match itself. */
  lemma DumpValidates<C(!new), S(!new), A(!new), O(!new), E(!new), J(!new)>(
      g: Game<C, S, A, O, E, J>, m: LocalMatch<C, S, A, O, E, J>)
    requires WellFormed(g) && AreRecords(g, m.config, m.turns)
    requires ReplayRun(g, m.config, MovesOf(m.turns)) == Ok(m) && !g.isChanceNode(m.state)
    ensures ValidateTranscript(g, DumpTranscript(g, m))
         == if NoEventIsForNobody(g, m.turns) then Ok(Replayed(LoadedDump(g, m), m)) else Err(ValueError)
    ensures LoadedDump(g, m).latestState == m.state
  {
    RunExtends(g, StartReplayMatch(g, m.config).value, MovesOf(m.turns));
    DumpLoads(g, m);
    LoadedDumpValidates(g, m);
    LastStateIsTheState(g, StartReplayMatch(g, m.config).value, MovesOf(m.turns));
  }

  lemma {:induction false} LastStateIsTheState<C, S, A, O, E, J>(
      g: Game<C, S, A, O, E, J>, m: LocalMatch<C, S, A, O, E, J>, moves: seq<Move<A, O>>)
    requires m.rng == None && RunMoves(g, m, moves).Ok?
    requires m.turns != [] ==> m.turns[|m.turns| - 1].postState == m.state
    ensures var last := RunMoves(g, m, moves).value;
            && (last.turns != [] ==> last.turns[|last.turns| - 1].postState == last.state)
            && (last.turns == [] ==> last.state == m.state)
    decreases |moves|
  {
    if moves != [] {
      var next := StepMatch(g, m, moves[0]).value;
      StepExtends(g, m, moves[0]);
      LastStateIsTheState(g, next, moves[1..]);
      RunExtends(g, next, moves[1..]);
    }
  }

  /** Replay completeness. Every live match dumps to a transcript that validates without
      the seed, rebuilding the same turns and state, if and only if none of its events is
      private to nobody. */
  lemma ReplayCompleteness<C(!new), S(!new), A(!new), O(!new), E(!new), J(!new)>(
      g: Game<C, S, A, O, E, J>, config: C, seed: int, moves: seq<Move<A, O>>)
    requires WellFormed(g) && LiveRun(g, config, seed, moves).Ok?
    ensures var m := LiveRun(g, config, seed, moves).value;
            var validated := ValidateTranscript(g, DumpTranscript(g, m));
            && (validated.Ok? <==> NoEventIsForNobody(g, m.turns))
            && (validated.Ok? ==>
                  && validated.value.replay.turns == m.turns
                  && validated.value.replay.state == m.state
                  && validated.value.replay.initialSnapshot == m.initialSnapshot
                  && validated.value.replay.rng == None
                  && validated.value.loaded.latestState == m.state)
  {
    var m := LiveRun(g, config, seed, moves).value;
    LiveIsReplay(g, config, seed, moves);
    DumpValidates(g, Seedless(m));
    assert DumpTranscript(g, Seedless(m)) == DumpTranscript(g, m);
  }

  // ---------------------------------------------------------------------------
  // Soundness: what validation accepts, the rules produce
  // ---------------------------------------------------------------------------

  /** The moves a transcript records, read with the game's loaders. */
  ghost function RecordedMoves<S, A, O, J>(turns: seq<LoadedTurn<S, A, O, J>>): (moves: seq<Move<A, O>>)
    requires forall i :: 0 <= i < |turns| ==> RecordedMove(turns[i]).Some?
    ensures |moves| == |turns|
    ensures forall i :: 0 <= i < |turns| ==> moves[i] == RecordedMove(turns[i]).value
  {
    seq(|turns|, i requires 0 <= i < |turns| => RecordedMove(turns[i]).value)
  }

  lemma ReplayedMovesExist<C, S, A, O, E, J>(g: Game<C, S, A, O, E, J>, m: LocalMatch<C, S, A, O, E, J>, turns: seq<LoadedTurn<S, A, O, J>>)
    requires ReplayTurns(g, m, turns).Ok?
    ensures forall i :: 0 <= i < |turns| ==> RecordedMove(turns[i]).Some?
  {
    forall i | 0 <= i < |turns|
      ensures RecordedMove(turns[i]).Some?
    {
      FoldStepsOk(TurnReplayer(g), m, turns, i);
    }
  }

  /** Everything a transcript turn claims beside its move, as its run gives it. */
  ghost predicate SaysWhatHappened<C, S, A, O, E, J>(g: Game<C, S, A, O, E, J>, p: TurnPayload<J>, turn: TurnRecord<S, A, O, E, J>) {
    && p.kind == turn.kind
    && g.loadState(p.postSnapshot.state) == Ok(turn.postState)
    && p.postSnapshot == turn.postSnapshot
    && NormalEvents(p.events) == DumpEvents(g, turn.events)
    && p.result == DumpResult(turn.result)
  }

  /** What `ValidateTranscript` accepts, stated of the run it found. */
  ghost predicate TellsTheRun<C, S, A, O, E, J>(g: Game<C, S, A, O, E, J>, p: TranscriptPayload<J>, config: C, moves: seq<Move<A, O>>, m: LocalMatch<C, S, A, O, E, J>) {
    && p.gameId == g.gameId && p.view == VIEW_FULL
    && g.loadConfig(p.config) == Ok(config)
    && ReplayRun(g, config, moves) == Ok(m)
    && p.initialSnapshot == BuildSnapshot(g, config, g.initialState(config))
    && |p.turns| == |m.turns|
    && (forall i :: 0 <= i < |p.turns| ==> SaysWhatHappened(g, p.turns[i], m.turns[i]))
    && !g.isChanceNode(m.state)
  }

  lemma LoadedTurnsSay<C, S, A, O, E, J>(
      g: Game<C, S, A, O, E, J>, turns: seq<TurnPayload<J>>, loaded: seq<LoadedTurn<S, A, O, J>>, generated: seq<TurnRecord<S, A, O, E, J>>)
    requires LoadTurns(g, turns) == Ok(loaded) && TurnsMatch(g, loaded, generated)
    ensures |turns| == |generated| && forall i :: 0 <= i < |turns| ==> SaysWhatHappened(g, turns[i], generated[i])
  {
    forall i | 0 <= i < |turns|
      ensures SaysWhatHappened(g, turns[i], generated[i])
    {
      assert LoadTurn(g, turns[i]) == Ok(loaded[i]);
      assert TurnMatches(g, loaded[i], generated[i]);
    }
  }

  /** The moves an accepted transcript records; a refused one records none. */
  ghost function AcceptedMoves<C(!new), S(!new), A(!new), O(!new), E(!new), J(!new)>(g: Game<C, S, A, O, E, J>, p: TranscriptPayload<J>): (moves: seq<Move<A, O>>)
    ensures ValidateTranscript(g, p).Ok? ==> |moves| == |p.turns|
  {
    if ValidateTranscript(g, p).Err? then []
    else
      var loaded := ValidateTranscript(g, p).value.loaded;
      ReplayedMovesExist(g, StartReplayMatch(g, loaded.config).value, loaded.turns);
      RecordedMoves(loaded.turns)
  }

  /** Replay soundness. An accepted transcript is a full one whose every recorded state,
      snapshot, event and result is that of the run its config and moves determine; the run
      is legal, and it does not end at a pending chance node. */
  lemma ReplaySoundness<C(!new), S(!new), A(!new), O(!new), E(!new), J(!new)>(g: Game<C, S, A, O, E, J>, p: TranscriptPayload<J>)
    ensures var r := ValidateTranscript(g, p);
            r.Ok? ==> TellsTheRun(g, p, r.value.loaded.config, AcceptedMoves(g, p), r.value.replay)
  {
    if ValidateTranscript(g, p).Ok? {
      var r := ValidateTranscript(g, p).value;
      var start := StartReplayMatch(g, r.loaded.config).value;
      assert ValidateLoaded(g, r.loaded) == Ok(r);
      ReplayedMovesExist(g, start, r.loaded.turns);
      ReplayTurnsRuns(g, start, r.loaded.turns, AcceptedMoves(g, p));
      LoadedTurnsSay(g, p.turns, r.loaded.turns, r.replay.turns);
    }
  }

  /** What a transcript turn claims beside its move. */
  ghost predicate SameClaims<J>(p: TurnPayload<J>, q: TurnPayload<J>) {
    p.kind == q.kind && p.postSnapshot == q.postSnapshot && p.result == q.result && NormalEvents(p.events) == NormalEvents(q.events)
  }

  /** No two accepted transcripts of one game with the same config and the same moves
      differ in a snapshot, an event or a result: a forged one is refused. */
  lemma AcceptedTranscriptsAgree<C(!new), S(!new), A(!new), O(!new), E(!new), J(!new)>(
      g: Game<C, S, A, O, E, J>, p: TranscriptPayload<J>, q: TranscriptPayload<J>)
    requires g.loadConfig(p.config) == g.loadConfig(q.config)
    ensures ValidateTranscript(g, p).Ok? && ValidateTranscript(g, q).Ok? && AcceptedMoves(g, p) == AcceptedMoves(g, q) ==>
              && p.initialSnapshot == q.initialSnapshot
              && forall i :: 0 <= i < |p.turns| ==> SameClaims(p.turns[i], q.turns[i])
  {
    ReplaySoundness(g, p);
    ReplaySoundness(g, q);
    if ValidateTranscript(g, p).Ok? && ValidateTranscript(g, q).Ok? && AcceptedMoves(g, p) == AcceptedMoves(g, q) {
      var m := ValidateTranscript(g, p).value.replay;
      forall i | 0 <= i < |p.turns|
        ensures SameClaims(p.turns[i], q.turns[i])
      {
        assert SaysWhatHappened(g, p.turns[i], m.turns[i]);
        assert SaysWhatHappened(g, q.turns[i], m.turns[i]);
      }
    }
  }
}

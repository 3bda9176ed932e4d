/**
 Redacting what was saved and dumping live for a viewer are the same thing: at the match,
 the runtime transcript and the status level.
 */
module Redaction {
  import opened Wrappers
  import opened Games
  import opened LocalMatches
  import opened Transcripts
  import opened Replay
  import opened Runtime

  /** The markers a dumped event carries decide visibility as the event's own `visible_to`
      does, exactly when no viewer is refused what the public sees. */
  lemma MarkersAgree<C, S, A, O, E, J>(g: Game<C, S, A, O, E, J>, e: E, viewer: Viewer)
    ensures (PayloadVisibleTo(DumpEvent(g, e), viewer) <==> g.visibleTo(e, viewer))
       <==> (g.visibleTo(e, Public) ==> g.visibleTo(e, viewer))
  {
    if viewer.OfSeat? && !g.visibleTo(e, Public) {
      var s: TableSeat := viewer.seat;
      assert s in Audience(g, e).value <==> g.visibleTo(e, OfSeat(s));
    }
  }

  lemma {:induction false} FilterIsVisible<C, S, A, O, E, J>(g: Game<C, S, A, O, E, J>, events: seq<E>, viewer: Viewer)
    requires forall i :: 0 <= i < |events| && g.visibleTo(events[i], Public) ==> g.visibleTo(events[i], viewer)
    ensures FilterEvents(DumpEvents(g, events), viewer) == DumpEvents(g, VisibleEvents(g, events, viewer))
  {
    if events == [] {
    } else {
      FilterIsVisible(g, events[1..], viewer);
      assert DumpEvents(g, events)[1..] == DumpEvents(g, events[1..]);
      MarkersAgree(g, events[0], viewer);
      var rest := VisibleEvents(g, events[1..], viewer);
      if g.visibleTo(events[0], viewer) {
        assert DumpEvents(g, [events[0]] + rest) == [DumpEvent(g, events[0])] + DumpEvents(g, rest);
      }
    }
  }

  lemma DumpIsNormal<C(!new), S(!new), A(!new), O(!new), E(!new), J(!new)>(
      g: Game<C, S, A, O, E, J>, m: LocalMatch<C, S, A, O, E, J>)
    ensures NormalTranscript(DumpTranscript(g, m)) == DumpTranscript(g, m)
  {
    var p := DumpTranscript(g, m);
    forall i | 0 <= i < |p.turns|
      ensures p.turns[i].(events := NormalEvents(p.turns[i].events)) == p.turns[i]
    {
      EventsShape(g, m.turns[i].events);
    }
    assert NormalTranscript(p).turns == p.turns;
  }

  /** A match some live run reaches. */
  ghost predicate IsLive<C(!new), S(!new), A(!new), O(!new), E(!new), J(!new)>(
      g: Game<C, S, A, O, E, J>, m: LocalMatch<C, S, A, O, E, J>)
  {
    exists seed: int, moves: seq<Move<A, O>> :: LiveRun(g, m.config, seed, moves) == Ok(m)
  }

  /** Match level: redacting the full dump of any live match for a viewer is dumping it
      live for that viewer, as long as the dump validates at all. */
  lemma RedactionCommutes<C(!new), S(!new), A(!new), O(!new), E(!new), J(!new)>(
      g: Game<C, S, A, O, E, J>, m: LocalMatch<C, S, A, O, E, J>, viewer: Viewer)
    requires WellFormed(g) && IsLive(g, m)
    ensures RedactTranscript(g, DumpTranscript(g, m), viewer)
         == if NoEventIsForNobody(g, m.turns) then Ok(DumpTranscriptFor(g, m, viewer)) else Err(ValueError)
  {
    var seed: int, moves: seq<Move<A, O>> :| LiveRun(g, m.config, seed, moves) == Ok(m);
    LiveIsReplay(g, m.config, seed, moves);
    DumpValidates(g, Seedless(m));
    assert DumpTranscript(g, Seedless(m)) == DumpTranscript(g, m);
    assert DumpTranscriptFor(g, Seedless(m), viewer) == DumpTranscriptFor(g, m, viewer);
    DumpIsNormal(g, m);
  }

  /** A turn as one viewer is shown it, against the same turn in the full dump: the events the
      viewer may see, the chance outcome and the state cut down for the viewer, and all else
      as it is. */
  ghost predicate CutDownTo<C, S, A, O, E, J>(
      g: Game<C, S, A, O, E, J>, shown: TurnPayload<J>, full: TurnPayload<J>, config: C, turn: TurnRecord<S, A, O, E, J>, viewer: Viewer)
  {
    && shown == full.(events := shown.events, outcome := shown.outcome, postSnapshot := shown.postSnapshot)
    && shown.events == DumpEvents(g, VisibleEvents(g, turn.events, viewer))
    && shown.outcome == (if turn.outcome.Some? then Some(g.dumpOutcomeFor(turn.outcome.value, viewer)) else None)
    && shown.postSnapshot == full.postSnapshot.(config := g.dumpConfigFor(config, viewer), state := g.dumpStateFor(turn.postState, viewer))
  }

  /** A viewer's transcript of a live match is labelled with its view, and is turn by turn the
      full one cut down to what the viewer may know: no event the game keeps from it. */
  lemma ViewShowsOnlyVisibleEvents<C(!new), S(!new), A(!new), O(!new), E(!new), J(!new)>(
      g: Game<C, S, A, O, E, J>, m: LocalMatch<C, S, A, O, E, J>, viewer: Viewer)
    requires g.hasHiddenInformation && WellFormed(g) && IsLive(g, m)
    requires forall e: E :: g.visibleTo(e, Public) ==> g.visibleTo(e, viewer)
    ensures var p := DumpTranscriptFor(g, m, viewer);
            && (p.view, p.viewerSeat) == (if viewer.OfSeat? then (VIEW_SEAT, Some(viewer.seat)) else (VIEW_PUBLIC, None))
            && p.config == g.dumpConfigFor(m.config, viewer)
            && p.initialSnapshot.state == g.dumpStateFor(g.initialState(m.config), viewer)
            && |p.turns| == |m.turns|
            && forall i :: 0 <= i < |m.turns| ==> CutDownTo(g, p.turns[i], DumpTranscript(g, m).turns[i], m.config, m.turns[i], viewer)
  {
    var seed: int, moves: seq<Move<A, O>> :| LiveRun(g, m.config, seed, moves) == Ok(m);
    LiveIsReplay(g, m.config, seed, moves);
    forall i | 0 <= i < |m.turns|
      ensures CutDownTo(g, DumpTranscriptFor(g, m, viewer).turns[i], DumpTranscript(g, m).turns[i], m.config, m.turns[i], viewer)
    {
      RecordIsCutDown(g, m.config, m.turns[i], viewer);
    }
  }

  lemma RecordIsCutDown<C, S, A, O, E, J>(g: Game<C, S, A, O, E, J>, config: C, turn: TurnRecord<S, A, O, E, J>, viewer: Viewer)
    requires IsRecord(g, config, turn)
    requires forall k :: 0 <= k < |turn.events| && g.visibleTo(turn.events[k], Public) ==> g.visibleTo(turn.events[k], viewer)
    ensures CutDownTo(g, TurnFor(g, config, turn, viewer), DumpTurn(g, turn), config, turn, viewer)
  {
    FilterIsVisible(g, turn.events, viewer);
  }

  // ---------------------------------------------------------------------------
  // Runtime transcripts
  // ---------------------------------------------------------------------------

  /** A session the arena builds: distinct players, an abort exactly when aborted, and a
      local match that is live. */
  ghost predicate SessionOk<C(!new), S(!new), A(!new), O(!new), E(!new), J(!new)>(
      g: Game<C, S, A, O, E, J>, s: Session<C, S, A, O, E, J>)
  {
    && (s.lifecycle == Aborted <==> s.abort.Some?)
    && (forall i, j :: 0 <= i < j < |s.players| ==> s.players[i].seat != s.players[j].seat && s.players[i].playerId != s.players[j].playerId)
    && (s.localMatch.Some? ==> IsLive(g, s.localMatch.value))
  }

  lemma {:induction false} RuntimeEventsRedact<C, S, A, O, E, J>(g: Game<C, S, A, O, E, J>, events: seq<RuntimeEvent>, viewer: Viewer)
    ensures RedactRuntimeEvents(DumpRuntimeEvents(events, VIEW_FULL, FullView), ViewFor(g, viewer).0, viewer)
         == DumpRuntimeEvents(events, ViewFor(g, viewer).0, For(viewer))
  {
    if events != [] {
      var view := ViewFor(g, viewer).0;
      var p := DumpRuntimeEvent(events[0], VIEW_FULL);
      var rest := DumpRuntimeEvents(events[1..], VIEW_FULL, FullView);
      RuntimeEventsRedact(g, events[1..], viewer);
      assert DumpRuntimeEvents(events, VIEW_FULL, FullView) == [p] + rest;
      assert ([p] + rest)[1..] == rest;
      OneRuntimeEventRedacts(g, events[0], viewer);
    }
  }

  lemma OneRuntimeEventRedacts<C, S, A, O, E, J>(g: Game<C, S, A, O, E, J>, e: RuntimeEvent, viewer: Viewer)
    ensures var view := ViewFor(g, viewer).0;
            var p := DumpRuntimeEvent(e, VIEW_FULL);
            && (RuntimePayloadVisible(p, view, viewer) <==> RuntimeEventVisible(e, view, For(viewer)))
            && RedactRuntimeEvent(p, view) == DumpRuntimeEvent(e, view)
  {
  }

  /** A session's envelope agrees with itself in every view. */
  lemma RuntimeDumps<C(!new), S(!new), A(!new), O(!new), E(!new), J(!new)>(
      g: Game<C, S, A, O, E, J>, s: Session<C, S, A, O, E, J>, scope: Scope)
    requires SessionOk(g, s)
    ensures DumpRuntimeTranscript(g, s, scope).Ok?
  {
  }

  /** Runtime level: the same, for the envelope, its events, its abort and its match
      transcript together. */
  lemma RuntimeRedactionCommutes<C(!new), S(!new), A(!new), O(!new), E(!new), J(!new)>(
      g: Game<C, S, A, O, E, J>, s: Session<C, S, A, O, E, J>, viewer: Viewer)
    requires WellFormed(g) && SessionOk(g, s)
    ensures DumpRuntimeTranscript(g, s, FullView).Ok? && DumpRuntimeTranscript(g, s, For(viewer)).Ok?
    ensures RedactRuntimeTranscript(g, DumpRuntimeTranscript(g, s, FullView).value, viewer)
         == if s.localMatch.None? || NoEventIsForNobody(g, s.localMatch.value.turns)
            then DumpRuntimeTranscript(g, s, For(viewer))
            else Err(ValueError)
  {
    RuntimeDumps(g, s, FullView);
    RuntimeDumps(g, s, For(viewer));
    RuntimeEventsRedact(g, s.events, viewer);
    if s.localMatch.Some? {
      RedactionCommutes(g, s.localMatch.value, viewer);
    }
  }

  // ---------------------------------------------------------------------------
  // Status
  // ---------------------------------------------------------------------------

  lemma ReplayEndsAtItsLastTurn<C, S, A, O, E, J>(g: Game<C, S, A, O, E, J>, config: C, moves: seq<Move<A, O>>, m: LocalMatch<C, S, A, O, E, J>)
    requires ReplayRun(g, config, moves) == Ok(m)
    ensures m.turns == [] ==> m.state == g.initialState(config)
    ensures m.turns != [] ==> m.turns[|m.turns| - 1].postState == m.state
  {
    var start := StartReplayMatch(g, config).value;
    RunExtends(g, start, moves);
    LastStateIsTheState(g, start, moves);
  }

  lemma LiveEndsAtItsLastTurn<C(!new), S(!new), A(!new), O(!new), E(!new), J(!new)>(
      g: Game<C, S, A, O, E, J>, m: LocalMatch<C, S, A, O, E, J>)
    requires WellFormed(g) && IsLive(g, m)
    ensures m.turns == [] ==> m.state == g.initialState(m.config)
    ensures m.turns != [] ==> m.turns[|m.turns| - 1].postState == m.state
  {
    var seed: int, moves: seq<Move<A, O>> :| LiveRun(g, m.config, seed, moves) == Ok(m);
    LiveIsReplay(g, m.config, seed, moves);
    ReplayEndsAtItsLastTurn(g, m.config, MovesOf(m.turns), Seedless(m));
  }

  lemma LiveIsRecorded<C(!new), S(!new), A(!new), O(!new), E(!new), J(!new)>(
      g: Game<C, S, A, O, E, J>, m: LocalMatch<C, S, A, O, E, J>)
    requires WellFormed(g) && IsLive(g, m)
    ensures m.initialSnapshot == BuildSnapshot(g, m.config, g.initialState(m.config))
    ensures forall i :: 0 <= i < |m.turns| ==> m.turns[i].postSnapshot == BuildSnapshot(g, m.config, m.turns[i].postState)
  {
    var seed: int, moves: seq<Move<A, O>> :| LiveRun(g, m.config, seed, moves) == Ok(m);
    LiveIsReplay(g, m.config, seed, moves);
    RunExtends(g, StartReplayMatch(g, m.config).value, MovesOf(m.turns));
    forall i | 0 <= i < |m.turns|
      ensures m.turns[i].postSnapshot == BuildSnapshot(g, m.config, m.turns[i].postState)
    {
      assert IsRecord(g, m.config, m.turns[i]);
    }
  }

  lemma LatestIsCurrent<C(!new), S(!new), A(!new), O(!new), E(!new), J(!new)>(
      g: Game<C, S, A, O, E, J>, m: LocalMatch<C, S, A, O, E, J>)
    requires WellFormed(g) && IsLive(g, m)
    ensures LatestSnapshot(m) == BuildSnapshot(g, m.config, m.state)
  {
    LiveEndsAtItsLastTurn(g, m);
    LiveIsRecorded(g, m);
  }

  /** Status level: redacting a full status is dumping it for the viewer. A perfect
      information game's redaction keeps the full snapshot, so there the two agree exactly
      when the viewer's own snapshot is the full one. */
  lemma StatusRedactionCommutes<C(!new), S(!new), A(!new), O(!new), E(!new), J(!new)>(
      g: Game<C, S, A, O, E, J>, s: Session<C, S, A, O, E, J>, viewer: Viewer)
    requires WellFormed(g) && SessionOk(g, s) && DumpStatus(g, s, FullView).Ok?
    ensures DumpStatus(g, s, For(viewer)).Ok?
    ensures RedactStatus(g, DumpStatus(g, s, FullView).value, viewer) == DumpStatus(g, s, For(viewer))
        <==> (g.hasHiddenInformation || s.localMatch.None?
              || var m := s.localMatch.value;
                 BuildSnapshotFor(g, m.config, m.state, viewer) == BuildSnapshot(g, m.config, m.state))
  {
    if s.localMatch.Some? {
      var m := s.localMatch.value;
      LatestIsCurrent(g, m);
      assert g.loadConfig(g.dumpConfig(m.config)) == Ok(m.config);
      assert g.loadState(g.dumpState(m.state)) == Ok(m.state);
      assert RebuildSnapshot(g, LatestSnapshot(m), viewer) == Ok(BuildSnapshotFor(g, m.config, m.state, viewer));
    }
  }
}

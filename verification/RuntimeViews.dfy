/**
 What the runtime envelopes show whom, stated of the payloads themselves: an agent's own
 reasoning and the cause of an abort stay where they belong, and nothing else is held back.
 */
module RuntimeViews {
  import opened Wrappers
  import opened Games
  import opened LocalMatches
  import opened Transcripts
  import opened Replay
  import opened Runtime
  import opened Redaction

  // ---------------------------------------------------------------------------
  // Runtime events, shown and read back
  // ---------------------------------------------------------------------------

  /** What an agent says of its own play. */
  predicate IsReasoning(e: RuntimeEvent) {
    e.PolicyDecided? || e.PolicyRetried?
  }

  predicate IsOwn(e: RuntimeEvent, viewer: Viewer)
    requires IsReasoning(e)
  {
    match viewer
    case Public => false
    case OfSeat(seat) => e.seat == seat
  }

  function WithoutCause(abort: Abort): Abort {
    Abort(abort.reason, abort.message, abort.causeType, None)
  }

  function Uncaused(e: RuntimeEvent): RuntimeEvent {
    match e
    case MatchAborted(abort) => MatchAborted(WithoutCause(abort))
    case _ => e
  }

  /** A session's events as one viewer of a hidden-information game may know them: without
      other seats' reasoning and without the causes of aborts. */
  function Entitled(events: seq<RuntimeEvent>, viewer: Viewer): seq<RuntimeEvent> {
    if events == [] then []
    else if IsReasoning(events[0]) && !IsOwn(events[0], viewer) then Entitled(events[1..], viewer)
    else [Uncaused(events[0])] + Entitled(events[1..], viewer)
  }

  /** The event an event payload tells of. */
  function Read(p: RuntimeEventPayload): Option<RuntimeEvent> {
    if p.eventType == "MatchCreated" then Some(MatchCreated(p.players))
    else if p.eventType == "MatchStarted" then Some(MatchStarted)
    else if p.eventType == "MatchFinished" then Some(MatchFinished)
    else if p.eventType == "MatchAborted" && p.abort.Some? then Some(MatchAborted(p.abort.value))
    else if p.eventType == "TurnRequested" && p.seat.Some? then Some(TurnRequested(p.seat.value))
    else ReadTurn(p)
  }

  function ReadTurn(p: RuntimeEventPayload): Option<RuntimeEvent> {
    if p.seat.None? || p.number.None? then None
    else if p.eventType == "TurnAccepted" then Some(TurnAccepted(p.seat.value, p.number.value))
    else if p.text.None? then None
    else if p.eventType == "PolicyRetried" then Some(PolicyRetried(p.seat.value, p.number.value, p.text.value))
    else if p.eventType == "PolicyDecided" then Some(PolicyDecided(p.seat.value, p.number.value, p.text.value))
    else None
  }

  /** The payloads tell of exactly these events, in order. */
  predicate TellOf(payloads: seq<RuntimeEventPayload>, events: seq<RuntimeEvent>) {
    && |payloads| == |events|
    && forall i :: 0 <= i < |events| ==> Read(payloads[i]) == Some(events[i])
  }

  lemma TellOfMore(p: RuntimeEventPayload, payloads: seq<RuntimeEventPayload>, e: RuntimeEvent, events: seq<RuntimeEvent>)
    requires Read(p) == Some(e) && TellOf(payloads, events)
    ensures TellOf([p] + payloads, [e] + events)
  {
  }

  lemma DumpReadsBack(e: RuntimeEvent)
    ensures Read(DumpRuntimeEvent(e, VIEW_FULL)) == Some(e)
  {
  }

  lemma DumpForReadsBack(e: RuntimeEvent, viewer: Viewer)
    ensures var view := if viewer.OfSeat? then VIEW_SEAT else VIEW_PUBLIC;
            && Read(DumpRuntimeEvent(e, view)) == Some(Uncaused(e))
            && (RuntimeEventVisible(e, view, For(viewer)) <==> !IsReasoning(e) || IsOwn(e, viewer))
  {
  }

  lemma {:induction false} DumpsTellOfAll(events: seq<RuntimeEvent>, scope: Scope)
    ensures TellOf(DumpRuntimeEvents(events, VIEW_FULL, scope), events)
  {
    if events != [] {
      DumpsTellOfAll(events[1..], scope);
      DumpReadsBack(events[0]);
      TellOfMore(DumpRuntimeEvent(events[0], VIEW_FULL), DumpRuntimeEvents(events[1..], VIEW_FULL, scope), events[0], events[1..]);
      assert events == [events[0]] + events[1..];
    }
  }

  lemma {:induction false} DumpsTellOfEntitled(events: seq<RuntimeEvent>, viewer: Viewer)
    ensures var view := if viewer.OfSeat? then VIEW_SEAT else VIEW_PUBLIC;
            TellOf(DumpRuntimeEvents(events, view, For(viewer)), Entitled(events, viewer))
  {
    if events != [] {
      var view := if viewer.OfSeat? then VIEW_SEAT else VIEW_PUBLIC;
      var payloads := DumpRuntimeEvents(events[1..], view, For(viewer));
      DumpsTellOfEntitled(events[1..], viewer);
      DumpForReadsBack(events[0], viewer);
      if IsReasoning(events[0]) && !IsOwn(events[0], viewer) {
        assert DumpRuntimeEvents(events, view, For(viewer)) == payloads;
      } else {
        assert DumpRuntimeEvents(events, view, For(viewer)) == [DumpRuntimeEvent(events[0], view)] + payloads;
        TellOfMore(DumpRuntimeEvent(events[0], view), payloads, Uncaused(events[0]), Entitled(events[1..], viewer));
      }
    }
  }

  lemma {:induction false} EntitledKeepsToItself(events: seq<RuntimeEvent>, viewer: Viewer, i: nat)
    requires i < |Entitled(events, viewer)|
    ensures var e := Entitled(events, viewer)[i];
            && (IsReasoning(e) ==> IsOwn(e, viewer))
            && (e.MatchAborted? ==> e.abort.causeMessage.None?)
  {
    if events != [] {
      if IsReasoning(events[0]) && !IsOwn(events[0], viewer) {
        EntitledKeepsToItself(events[1..], viewer, i);
      } else if i > 0 {
        EntitledKeepsToItself(events[1..], viewer, i - 1);
      }
    }
  }

  // ---------------------------------------------------------------------------
  // Transcript envelopes
  // ---------------------------------------------------------------------------

  /** What a viewer of a hidden-information game is sent of a session. Of the runtime events,
      an agent's decisions and retries only if the viewer is that agent's seat, so none to the
      public, and every other one; all in order, and none with an abort's cause. The abort
      itself without its cause, the match as dumped for the viewer, and the viewer's label. */
  lemma ReasoningStaysWithItsSeat<C(!new), S(!new), A(!new), O(!new), E(!new), J(!new)>(
      g: Game<C, S, A, O, E, J>, s: Session<C, S, A, O, E, J>, viewer: Viewer)
    requires g.hasHiddenInformation && DumpRuntimeTranscript(g, s, For(viewer)).Ok?
    ensures var p := DumpRuntimeTranscript(g, s, For(viewer)).value;
            && TellOf(p.events, Entitled(s.events, viewer))
            && (forall i :: 0 <= i < |p.events| && p.events[i].eventType in ["PolicyDecided", "PolicyRetried"] ==>
                  viewer.OfSeat? && p.events[i].seat == Some(viewer.seat))
            && (forall i :: 0 <= i < |p.events| && p.events[i].eventType == "MatchAborted" ==>
                  p.events[i].abort.Some? && p.events[i].abort.value.causeMessage.None?)
            && p.abort == (if s.abort.Some? then Some(WithoutCause(s.abort.value)) else None)
            && p.matchTranscript == (if s.localMatch.Some? then Some(DumpTranscriptFor(g, s.localMatch.value, viewer)) else None)
            && (p.matchId, p.gameId, p.lifecycle, p.players) == (s.matchId, g.gameId, s.lifecycle, s.players)
            && (viewer == Public ==> (p.view, p.viewerSeat) == (VIEW_PUBLIC, None))
            && (viewer.OfSeat? ==> (p.view, p.viewerSeat) == (VIEW_SEAT, Some(viewer.seat)))
  {
    var p := DumpRuntimeTranscript(g, s, For(viewer)).value;
    DumpsTellOfEntitled(s.events, viewer);
    forall i | 0 <= i < |p.events|
      ensures p.events[i].eventType in ["PolicyDecided", "PolicyRetried"] ==> viewer.OfSeat? && p.events[i].seat == Some(viewer.seat)
      ensures p.events[i].eventType == "MatchAborted" ==> p.events[i].abort.Some? && p.events[i].abort.value.causeMessage.None?
    {
      ReadOwn(p.events[i], s.events, viewer, i);
    }
  }

  lemma ReadOwn(p: RuntimeEventPayload, events: seq<RuntimeEvent>, viewer: Viewer, i: nat)
    requires i < |Entitled(events, viewer)| && Read(p) == Some(Entitled(events, viewer)[i])
    ensures p.eventType in ["PolicyDecided", "PolicyRetried"] ==> viewer.OfSeat? && p.seat == Some(viewer.seat)
    ensures p.eventType == "MatchAborted" ==> p.abort.Some? && p.abort.value.causeMessage.None?
  {
    EntitledKeepsToItself(events, viewer, i);
  }

  /** In the full view, and in every view of a perfect-information game, nothing is held back. */
  lemma FullViewHoldsNothingBack<C(!new), S(!new), A(!new), O(!new), E(!new), J(!new)>(
      g: Game<C, S, A, O, E, J>, s: Session<C, S, A, O, E, J>, scope: Scope)
    requires (scope.FullView? || !g.hasHiddenInformation) && DumpRuntimeTranscript(g, s, scope).Ok?
    ensures var p := DumpRuntimeTranscript(g, s, scope).value;
            && TellOf(p.events, s.events)
            && p.abort == s.abort
            && p.matchTranscript == (if s.localMatch.Some? then Some(DumpTranscript(g, s.localMatch.value)) else None)
            && (p.matchId, p.gameId, p.lifecycle, p.players) == (s.matchId, g.gameId, s.lifecycle, s.players)
            && (p.view, p.viewerSeat) == (VIEW_FULL, None)
  {
    DumpsTellOfAll(s.events, scope);
  }

  lemma {:induction false} EntitledDecides(events: seq<RuntimeEvent>, viewer: Viewer)
    ensures var view := if viewer.OfSeat? then VIEW_SEAT else VIEW_PUBLIC;
            DumpRuntimeEvents(events, view, For(viewer)) == DumpRuntimeEvents(Entitled(events, viewer), VIEW_FULL, FullView)
  {
    if events != [] {
      var view := if viewer.OfSeat? then VIEW_SEAT else VIEW_PUBLIC;
      EntitledDecides(events[1..], viewer);
      DumpForReadsBack(events[0], viewer);
      UncausedIsShown(events[0], view);
      assert ([Uncaused(events[0])] + Entitled(events[1..], viewer))[1..] == Entitled(events[1..], viewer);
    }
  }

  lemma UncausedIsShown(e: RuntimeEvent, view: string)
    ensures view != VIEW_FULL ==> DumpRuntimeEvent(e, view) == DumpRuntimeEvent(Uncaused(e), VIEW_FULL)
  {
  }

  /** Two sessions alike but for their events are shown alike to a viewer exactly when they
      entitle the viewer to the same ones: what other seats' agents thought changes nothing. */
  lemma OthersReasoningIsInvisible<C(!new), S(!new), A(!new), O(!new), E(!new), J(!new)>(
      g: Game<C, S, A, O, E, J>, s: Session<C, S, A, O, E, J>, events: seq<RuntimeEvent>, viewer: Viewer)
    requires g.hasHiddenInformation && DumpRuntimeTranscript(g, s, For(viewer)).Ok?
    ensures DumpRuntimeTranscript(g, s.(events := events), For(viewer)) == DumpRuntimeTranscript(g, s, For(viewer))
       <==> Entitled(events, viewer) == Entitled(s.events, viewer)
  {
    var other := s.(events := events);
    assert DumpRuntimeTranscript(g, other, For(viewer)).Ok?;
    ReasoningStaysWithItsSeat(g, s, viewer);
    ReasoningStaysWithItsSeat(g, other, viewer);
    EntitledDecides(s.events, viewer);
    EntitledDecides(events, viewer);
    SameTelling(DumpRuntimeTranscript(g, s, For(viewer)).value.events, Entitled(s.events, viewer), Entitled(events, viewer));
  }

  lemma SameTelling(payloads: seq<RuntimeEventPayload>, events: seq<RuntimeEvent>, others: seq<RuntimeEvent>)
    requires TellOf(payloads, events)
    ensures TellOf(payloads, others) ==> others == events
  {
    if TellOf(payloads, others) {
      forall i | 0 <= i < |events|
        ensures others[i] == events[i]
      {
        assert Read(payloads[i]) == Some(events[i]);
      }
    }
  }

  // ---------------------------------------------------------------------------
  // Status envelopes
  // ---------------------------------------------------------------------------

  /** The last snapshot a transcript payload carries. */
  function LastSnapshot<J>(p: TranscriptPayload<J>): Snapshot<J> {
    if p.turns == [] then p.initialSnapshot else p.turns[|p.turns| - 1].postSnapshot
  }

  lemma FullLastSnapshot<C, S, A, O, E, J>(g: Game<C, S, A, O, E, J>, m: LocalMatch<C, S, A, O, E, J>)
    ensures LastSnapshot(DumpTranscript(g, m)) == LatestSnapshot(m)
  {
    if m.turns != [] {
      assert DumpTranscript(g, m).turns[|m.turns| - 1] == DumpTurn(g, m.turns[|m.turns| - 1]);
    }
  }

  lemma LastSnapshotFor<C, S, A, O, E, J>(g: Game<C, S, A, O, E, J>, m: LocalMatch<C, S, A, O, E, J>, viewer: Viewer)
    requires g.hasHiddenInformation
    requires m.state == if m.turns == [] then g.initialState(m.config) else m.turns[|m.turns| - 1].postState
    ensures LastSnapshot(DumpTranscriptFor(g, m, viewer)) == BuildSnapshotFor(g, m.config, m.state, viewer)
  {
    if m.turns != [] {
      assert DumpTranscriptFor(g, m, viewer).turns[|m.turns| - 1] == TurnFor(g, m.config, m.turns[|m.turns| - 1], viewer);
    }
  }

  lemma CurrentSeatMeans<C, S, A, O, E, J>(g: Game<C, S, A, O, E, J>, s: S, seat: int)
    requires CurrentSeat(g, s).Ok?
    ensures CurrentSeat(g, s).value == Some(seat) <==> !g.isTerminal(s) && !g.isChanceNode(s) && g.seatsToAct(s) == [seat]
  {
  }

  /** A session's status is the end of its transcript: as many turns, the last snapshot, the
      same label, abort and lifecycle; and it names a seat to move exactly when the match is
      not over and waits for that seat alone. A viewer of a perfect-information game gets the
      full transcript, so there the snapshots are only known to agree in the full view. */
  lemma StatusIsTheEndOfTheTranscript<C(!new), S(!new), A(!new), O(!new), E(!new), J(!new)>(
      g: Game<C, S, A, O, E, J>, s: Session<C, S, A, O, E, J>, scope: Scope, m: LocalMatch<C, S, A, O, E, J>, seat: int)
    requires s.localMatch == Some(m) && WellFormed(g) && SessionOk(g, s) && DumpStatus(g, s, scope).Ok?
    ensures DumpRuntimeTranscript(g, s, scope).Ok?
    ensures var status := DumpStatus(g, s, scope).value;
            var p := DumpRuntimeTranscript(g, s, scope).value;
            && p.matchTranscript.Some?
            && status.turnCount == |p.matchTranscript.value.turns|
            && (scope.FullView? || g.hasHiddenInformation ==> status.latestSnapshot == Some(LastSnapshot(p.matchTranscript.value)))
            && (status.matchId, status.gameId, status.lifecycle, status.players) == (p.matchId, p.gameId, p.lifecycle, p.players)
            && (status.abort, status.view, status.viewerSeat) == (p.abort, p.view, p.viewerSeat)
            && status.result == DumpResult(g.resultOf(m.state))
            && (status.currentSeat == Some(seat) <==> !g.isTerminal(m.state) && !g.isChanceNode(m.state) && g.seatsToAct(m.state) == [seat])
  {
    RuntimeDumps(g, s, scope);
    LiveEndsAtItsLastTurn(g, m);
    FullLastSnapshot(g, m);
    if g.hasHiddenInformation && scope.For? {
      LastSnapshotFor(g, m, scope.viewer);
    }
    CurrentSeatMeans(g, m.state, seat);
  }
}

/** What validation demands of a transcript's shape, stated of accepted payloads. */
module TranscriptShapes {
  import opened Wrappers
  import opened Games
  import opened LocalMatches
  import opened Transcripts

  /** A turn carries exactly the fields of its kind: a seat and its action; an outcome; or two
      seats' actions or more, in ascending order of seat. */
  predicate CarriesItsKind<J>(p: TurnPayload<J>) {
    && (p.kind == TURN_KIND_ACTION || p.kind == TURN_KIND_CHANCE || p.kind == TURN_KIND_JOINT)
    && (p.seat.Some? <==> p.kind == TURN_KIND_ACTION)
    && (p.action.Some? <==> p.kind == TURN_KIND_ACTION)
    && (p.outcome.Some? <==> p.kind == TURN_KIND_CHANCE)
    && (p.actions.Some? <==> p.kind == TURN_KIND_JOINT)
    && (p.actions.Some? ==>
          && |p.actions.value| >= 2
          && p.actions.value[0].0 >= 0
          && forall i, j :: 0 <= i < j < |p.actions.value| ==> p.actions.value[i].0 < p.actions.value[j].0)
  }

  /** A public event names no audience, and a private one somebody. */
  predicate NamesItsAudience<J>(e: EventPayload<J>) {
    if e.isPublic then e.audience.None? else e.audience.Some? && e.audience.value != []
  }

  predicate IsShapely<J>(p: TurnPayload<J>) {
    CarriesItsKind(p) && forall k :: 0 <= k < |p.events| ==> NamesItsAudience(p.events[k])
  }

  /** What the schema version had no words for: chance turns before 2, events with markers
      before 3, joint turns before 4. */
  predicate FitsVersion<J>(turns: seq<TurnPayload<J>>, version: int) {
    && 1 <= version <= 4
    && (version < 2 ==> forall i :: 0 <= i < |turns| ==> turns[i].kind != TURN_KIND_CHANCE)
    && (version < 3 ==> forall i, k :: 0 <= i < |turns| && 0 <= k < |turns[i].events| ==> !turns[i].events[k].marked)
    && (version < 4 ==> forall i :: 0 <= i < |turns| ==> turns[i].kind != TURN_KIND_JOINT)
  }

  lemma ShapeMeans<J>(version: int, p: TurnPayload<J>)
    requires 1 <= version <= 4
    ensures TurnShapeOk(version, p) <==> IsShapely(p) && FitsVersion([p], version)
  {
    var turns := [p];
    assert turns[0] == p;
    if IsShapely(p) && FitsVersion(turns, version) {
      assert forall k :: 0 <= k < |p.events| ==> NamesItsAudience(p.events[k]) && !(turns[0].events[k].marked && version < 3);
      assert turns[0].kind == p.kind;
    }
    if TurnShapeOk(version, p) {
      assert forall k :: 0 <= k < |p.events| ==> EventShapeOk(version, p.events[k]);
    }
  }

  lemma ShapesMean<J>(p: TranscriptPayload<J>)
    requires p.view == VIEW_FULL
    ensures ShapesOk(p) <==>
      p.viewerSeat.None? && FitsVersion(p.turns, p.schemaVersion) && forall i :: 0 <= i < |p.turns| ==> IsShapely(p.turns[i])
  {
    if 1 <= p.schemaVersion <= 4 {
      forall i | 0 <= i < |p.turns|
        ensures TurnShapeOk(p.schemaVersion, p.turns[i]) <==> IsShapely(p.turns[i]) && FitsVersion([p.turns[i]], p.schemaVersion)
      {
        ShapeMeans(p.schemaVersion, p.turns[i]);
      }
      OneByOne(p.turns, p.schemaVersion);
    }
  }

  lemma OneByOne<J>(turns: seq<TurnPayload<J>>, version: int)
    requires 1 <= version <= 4
    ensures FitsVersion(turns, version) <==> forall i :: 0 <= i < |turns| ==> FitsVersion([turns[i]], version)
  {
    if forall i :: 0 <= i < |turns| ==> FitsVersion([turns[i]], version) {
      forall i | 0 <= i < |turns|
        ensures version < 2 ==> turns[i].kind != TURN_KIND_CHANCE
        ensures version < 3 ==> forall k :: 0 <= k < |turns[i].events| ==> !turns[i].events[k].marked
        ensures version < 4 ==> turns[i].kind != TURN_KIND_JOINT
      {
        assert FitsVersion([turns[i]], version) && [turns[i]][0] == turns[i];
      }
    }
  }

  /** An accepted transcript is a full one of one of the four schema versions, says nothing its
      version had no words for, and every turn and event of it is of its proper shape. */
  lemma AcceptedTranscriptsAreShapely<C, S, A, O, E, J>(g: Game<C, S, A, O, E, J>, p: TranscriptPayload<J>)
    requires ValidateTranscript(g, p).Ok?
    ensures p.view == VIEW_FULL && p.viewerSeat.None? && FitsVersion(p.turns, p.schemaVersion)
    ensures forall i :: 0 <= i < |p.turns| ==> IsShapely(p.turns[i])
    ensures p.gameId == g.gameId && forall i :: 0 <= i < |p.turns| ==> p.turns[i].postSnapshot.gameId == g.gameId
  {
    ShapesMean(p);
  }

  /** And the version matters to nothing else: an accepted transcript is accepted under another
      version exactly if it says nothing that version had no words for, as the same match. */
  lemma VersionsOnlyLimitWords<C, S, A, O, E, J>(g: Game<C, S, A, O, E, J>, p: TranscriptPayload<J>, version: int)
    requires ValidateTranscript(g, p).Ok?
    ensures ValidateTranscript(g, p.(schemaVersion := version))
         == if FitsVersion(p.turns, version) then ValidateTranscript(g, p) else Err(ValueError)
  {
    ShapesMean(p);
    ShapesMean(p.(schemaVersion := version));
  }
}

/**
 What a viewer of Liar's Dice gets is a function of what the viewer is entitled to, and
 tells all of it: a two-run property of whole matches.
 */
module LiarsDiceViews {
  import opened Wrappers
  import opened Folds
  import opened Chance
  import opened Games
  import opened LocalMatches
  import opened Transcripts
  import opened Replay
  import opened LiarsDice
  import opened LiarsDiceGame

  type Play = Move<Action, Roll>
  type Match = LocalMatch<Config, State, Action, Roll, Event, Payload>
  type View = TurnPayload<Payload>

  // ---------------------------------------------------------------------------
  // Entitlement
  // ---------------------------------------------------------------------------

  /** The round going on is called before another begins. */
  predicate CalledNext(plays: seq<Play>) {
    if plays == [] then false
    else
      match plays[0]
      case Act(_, Call) => true
      case Act(_, MakeBid(_)) => CalledNext(plays[1..])
      case ActJointly(_) => CalledNext(plays[1..])
      case Resolve(_) => false
  }

  /** What one play entitles a viewer to know. A roll: both hands once its round is called;
      until then each seat's own hand to that seat, and to the public nothing. */
  datatype Known =
    | Played(play: Play)
    | BothHands(dice: Hands)
    | OwnHand(hand: seq<int>)
    | NoHand

  function KnownOf(play: Play, called: bool, viewer: Viewer): Known {
    match play
    case Resolve(roll) =>
      if called then BothHands(roll.dice)
      else (match viewer
            case Public => NoHand
            case OfSeat(seat) => OwnHand(roll.dice.Of(seat)))
    case _ => Played(play)
  }

  function Entitlement(plays: seq<Play>, viewer: Viewer): seq<Known> {
    if plays == [] then []
    else [KnownOf(plays[0], CalledNext(plays[1..]), viewer)] + Entitlement(plays[1..], viewer)
  }

  /** Two states a viewer cannot tell apart: they differ at most in the other seats' hands,
      and not even there when the round is about to be called. */
  ghost predicate Alike(s: State, t: State, viewer: Viewer, called: bool) {
    && s.counts == t.counts && s.bids == t.bids && s.currentSeat == t.currentSeat
    && s.roundNumber == t.roundNumber && s.faces == t.faces && s.lastShowdown == t.lastShowdown
    && (s.dice.Some? <==> t.dice.Some?)
    && (s.dice.Some? && viewer.OfSeat? ==> s.dice.value.Of(viewer.seat) == t.dice.value.Of(viewer.seat))
    && (called ==> s.dice == t.dice)
  }

  /** What the engine and the serializer give a viewer of a state. */
  lemma AlikeStatesLookAlike(s: State, t: State, viewer: Viewer, called: bool)
    requires Alike(s, t, viewer, called)
    ensures DumpStateFor(s, viewer) == DumpStateFor(t, viewer)
    ensures forall seat :: LegalActions(s, seat) == LegalActions(t, seat)
    ensures forall seat, a :: ValidateAction(s, seat, a) == ValidateAction(t, seat, a)
    ensures viewer.OfSeat? ==> ObservationOf(s, viewer.seat) == ObservationOf(t, viewer.seat)
    ensures PublicViewOf(s) == PublicViewOf(t)
  {
  }

  datatype Observation = Observation(
    seat: TableSeat, myDice: seq<int>, counts: Counts, bids: seq<Bid>, currentSeat: int, roundNumber: int, faces: int,
    lastShowdown: Option<Showdown>, legalActions: seq<Action>)

  function ObservationOf(s: State, seat: TableSeat): Observation {
    Observation(seat, if s.dice.Some? then s.dice.value.Of(seat) else [], s.counts, s.bids, s.currentSeat, s.roundNumber,
                s.faces, s.lastShowdown, LegalActions(s, seat))
  }

  datatype PublicView = PublicView(
    counts: Counts, bids: seq<Bid>, currentSeat: int, roundNumber: int, faces: int, lastShowdown: Option<Showdown>, rollPending: bool)

  function PublicViewOf(s: State): PublicView {
    PublicView(s.counts, s.bids, s.currentSeat, s.roundNumber, s.faces, s.lastShowdown, IsChanceNode(s))
  }

  /** What each view of a state shows, against the state's own full dump: the fields every dump
      has, whether a roll is due, and of the dice only a seat's own, to that seat. A seat's
      observation shows the same dice, and the actions it may take. */
  lemma ViewsShowOwnDice(s: State, seat: TableSeat)
    ensures var full := DumpState(s);
            var own := if full.dice.None? then [] else full.dice.value[seat];
            var due := full.dice.None? && s.counts.first > 0 && s.counts.second > 0;
            && DumpStateFor(s, OfSeat(seat)) == SeatStatePayload(full.fields, due, seat, own)
            && DumpStateFor(s, Public) == PublicStatePayload(full.fields, due)
            && ObservationOf(s, seat).myDice == own
            && PublicViewOf(s).rollPending == due
    ensures forall action :: action in ObservationOf(s, seat).legalActions <==> ValidateAction(s, seat, action).None?
  {
    forall action
      ensures action in LegalActions(s, seat) <==> ValidateAction(s, seat, action).None?
    {
      LegalIffValid(s, seat, action);
    }
  }

  /** And of a roll: a seat's own hand to that seat, and to the public how many dice fell. */
  lemma RollShowsOwnDice(r: Roll, seat: TableSeat)
    ensures var hands := DumpRoll(r).hands;
            && DumpRollFor(r, OfSeat(seat)) == SeatRollPayload(hands[seat])
            && DumpRollFor(r, Public) == PublicRollPayload([|hands[0]|, |hands[1]|])
  {
  }

  // ---------------------------------------------------------------------------
  // One play in two runs
  // ---------------------------------------------------------------------------

  ghost function After(block: Block, s: State, play: Play): Result<Transition<State, Event>, Error> {
    ApplyMove(LiarsDiceDefinition(block), s, play)
  }

  /** The turn a viewer is shown for a play. */
  ghost function ViewOf(block: Block, c: Config, play: Play, t: Transition<State, Event>, viewer: Viewer): View {
    var g := LiarsDiceDefinition(block);
    TurnFor(g, c, RecordTurn(g, c, play, t), viewer)
  }

  lemma FilterThree<J>(a: EventPayload<J>, b: EventPayload<J>, c: EventPayload<J>, viewer: Viewer)
    ensures FilterEvents([a, b, c], viewer)
         == (if PayloadVisibleTo(a, viewer) then [a] else []) +
            (if PayloadVisibleTo(b, viewer) then [b] else []) +
            (if PayloadVisibleTo(c, viewer) then [c] else [])
  {
    assert [a, b, c][1..] == [b, c] && [b, c][1..] == [c] && [c][1..] == [];
    assert FilterEvents([c], viewer) == (if PayloadVisibleTo(c, viewer) then [c] else []) + FilterEvents([], viewer);
    assert FilterEvents([b, c], viewer) == (if PayloadVisibleTo(b, viewer) then [b] else []) + FilterEvents([c], viewer);
  }

  /** A roll's events as a viewer gets them: the counts, and a seat's own hand. */
  ghost function RollEventsFor(block: Block, s: State, roll: Roll, viewer: Viewer): seq<Transcripts.EventPayload<Payload>> {
    var g := LiarsDiceDefinition(block);
    [DumpEvent(g, RoundRolled(s.roundNumber + 1, s.counts))] +
    (match viewer
     case Public => []
     case OfSeat(seat) => [DumpEvent(g, DiceDealt(seat, roll.dice.Of(seat)))])
  }

  lemma DealtEvents(block: Block, s: State, roll: Roll, viewer: Viewer)
    requires ApplyChance(s, roll).Ok?
    ensures FilterEvents(DumpEvents(LiarsDiceDefinition(block), ApplyChance(s, roll).value.events), viewer)
         == RollEventsFor(block, s, roll, viewer)
  {
    var g := LiarsDiceDefinition(block);
    var a, b, c := RoundRolled(s.roundNumber + 1, s.counts), DiceDealt(0, roll.dice.first), DiceDealt(1, roll.dice.second);
    assert ApplyChance(s, roll).value.events == [a, b, c];
    assert DumpEvents(g, [a, b, c]) == [DumpEvent(g, a), DumpEvent(g, b), DumpEvent(g, c)];
    FilterThree(DumpEvent(g, a), DumpEvent(g, b), DumpEvent(g, c), viewer);
    assert PayloadVisibleTo(DumpEvent(g, b), viewer) <==> viewer == OfSeat(0);
    assert PayloadVisibleTo(DumpEvent(g, c), viewer) <==> viewer == OfSeat(1);
  }

  ghost function SnapshotFor(c: Config, s: State, viewer: Viewer): Snapshot<Payload> {
    Snapshot("liarsdice", SNAPSHOT_SCHEMA_VERSION, DumpConfig(c), DumpStateFor(s, viewer))
  }

  lemma RollView(block: Block, c: Config, s: State, roll: Roll, viewer: Viewer)
    requires ApplyChance(s, roll).Ok?
    ensures ViewOf(block, c, Resolve(roll), ApplyChance(s, roll).value, viewer)
         == TurnPayload(TURN_KIND_CHANCE, None, None, None, Some(DumpRollFor(roll, viewer)), RollEventsFor(block, s, roll, viewer),
                        None, SnapshotFor(c, ApplyChance(s, roll).value.state, viewer))
  {
    DealtEvents(block, s, roll, viewer);
  }

  lemma ActView(block: Block, c: Config, seat: Seat, action: Action, t: Transition<State, Event>, viewer: Viewer)
    ensures ViewOf(block, c, Act(seat, action), t, viewer)
         == TurnPayload(TURN_KIND_ACTION, Some(seat), Some(DumpAction(action)), None, None,
                        FilterEvents(DumpEvents(LiarsDiceDefinition(block), t.events), viewer), DumpResult(t.result),
                        SnapshotFor(c, t.state, viewer))
  {
  }

  /** An accepted play is a roll at a chance node or the current seat's action. */
  lemma AcceptedPlay(block: Block, s: State, p: Play)
    requires After(block, s, p).Ok?
    ensures p.Resolve? ==> IsChanceNode(s) && After(block, s, p) == ApplyChance(s, p.outcome)
    ensures p.Act? ==> p.seat == s.currentSeat && s.dice.Some? && After(block, s, p) == ApplyAction(s, p.seat, p.action)
    ensures p.Act? ==> ValidateAction(s, p.seat, p.action).None?
    ensures !p.ActJointly?
  {
  }

  lemma SameRoll(block: Block, c: Config, s: State, p: Roll, t: State, q: Roll, called: bool, viewer: Viewer)
    requires Alike(s, t, viewer, false)
    requires KnownOf(Resolve(p), called, viewer) == KnownOf(Resolve(q), called, viewer)
    requires ApplyChance(s, p).Ok? && ApplyChance(t, q).Ok?
    ensures Alike(ApplyChance(s, p).value.state, ApplyChance(t, q).value.state, viewer, called)
    ensures ViewOf(block, c, Resolve(p), ApplyChance(s, p).value, viewer) == ViewOf(block, c, Resolve(q), ApplyChance(t, q).value, viewer)
  {
    RollView(block, c, s, p, viewer);
    RollView(block, c, t, q, viewer);
    AlikeStatesLookAlike(ApplyChance(s, p).value.state, ApplyChance(t, q).value.state, viewer, called);
  }

  lemma SameAct(block: Block, c: Config, s: State, t: State, seat: Seat, action: Action, called: bool, viewer: Viewer)
    requires Alike(s, t, viewer, action.Call? || called)
    requires s.dice.Some?
    requires ApplyAction(s, seat, action).Ok? && ApplyAction(t, seat, action).Ok?
    ensures Alike(ApplyAction(s, seat, action).value.state, ApplyAction(t, seat, action).value.state, viewer, called)
    ensures ViewOf(block, c, Act(seat, action), ApplyAction(s, seat, action).value, viewer)
         == ViewOf(block, c, Act(seat, action), ApplyAction(t, seat, action).value, viewer)
  {
    var next, other := ApplyAction(s, seat, action).value, ApplyAction(t, seat, action).value;
    if action.Call? {
      assert s == t;
    } else {
      assert next.events == other.events;
    }
    ActView(block, c, seat, action, next, viewer);
    ActView(block, c, seat, action, other, viewer);
    AlikeStatesLookAlike(next.state, other.state, viewer, called);
  }

  /** The same knowledge of a play keeps two alike states alike and shows the viewer the
      same turn. `now` and `later` say whether the round is called at or after this play,
      and after it. */
  lemma SameKnowledgeSameView(block: Block, c: Config, s: State, p: Play, t: State, q: Play, later: bool, viewer: Viewer)
    requires Alike(s, t, viewer, !p.Resolve? && ((p.Act? && p.action.Call?) || later))
    requires KnownOf(p, later, viewer) == KnownOf(q, later, viewer)
    requires After(block, s, p).Ok? && After(block, t, q).Ok?
    ensures Alike(After(block, s, p).value.state, After(block, t, q).value.state, viewer, later)
    ensures ViewOf(block, c, p, After(block, s, p).value, viewer) == ViewOf(block, c, q, After(block, t, q).value, viewer)
  {
    AcceptedPlay(block, s, p);
    AcceptedPlay(block, t, q);
    if p.Resolve? {
      SameRoll(block, c, s, p.outcome, t, q.outcome, later, viewer);
    } else {
      SameAct(block, c, s, t, p.seat, p.action, later, viewer);
    }
  }

  // ---------------------------------------------------------------------------
  // Whole runs
  // ---------------------------------------------------------------------------

  ghost function ViewsOf(block: Block, m: Match, viewer: Viewer): seq<View> {
    TurnsFor(LiarsDiceDefinition(block), m.config, m.turns, viewer)
  }

  ghost function Ran(block: Block, m: Match, plays: seq<Play>): Result<Match, Error> {
    RunMoves(LiarsDiceDefinition(block), m, plays)
  }

  /** A replay step adds one turn, shown to each viewer as its play's view. */
  lemma StepAddsView(block: Block, m: Match, play: Play, viewer: Viewer)
    requires m.rng == None && StepMatch(LiarsDiceDefinition(block), m, play).Ok?
    ensures After(block, m.state, play).Ok?
    ensures var next := StepMatch(LiarsDiceDefinition(block), m, play).value;
            var t := After(block, m.state, play).value;
            && next.config == m.config && next.rng == None && next.state == t.state
            && |next.turns| == |m.turns| + 1
            && ViewsOf(block, next, viewer) == ViewsOf(block, m, viewer) + [ViewOf(block, m.config, play, t, viewer)]
  {
    var g := LiarsDiceDefinition(block);
    var t := After(block, m.state, play).value;
    var next := StepMatch(g, m, play).value;
    assert next.turns == m.turns + [RecordTurn(g, m.config, play, t)];
    var views := ViewsOf(block, next, viewer);
    assert views == ViewsOf(block, m, viewer) + [TurnFor(g, m.config, RecordTurn(g, m.config, play, t), viewer)];
  }

  lemma {:induction false} SameEntitlementSameCalls(plays: seq<Play>, others: seq<Play>, viewer: Viewer)
    requires Entitlement(plays, viewer) == Entitlement(others, viewer)
    ensures |plays| == |others| && CalledNext(plays) == CalledNext(others)
    ensures plays != [] ==>
      && Entitlement(plays[1..], viewer) == Entitlement(others[1..], viewer)
      && KnownOf(plays[0], CalledNext(plays[1..]), viewer) == KnownOf(others[0], CalledNext(others[1..]), viewer)
    decreases |plays|
  {
    if plays != [] {
      var known, other := Entitlement(plays, viewer), Entitlement(others, viewer);
      assert known[0] == other[0];
      assert known[1..] == Entitlement(plays[1..], viewer);
      assert other[1..] == Entitlement(others[1..], viewer);
      SameEntitlementSameCalls(plays[1..], others[1..], viewer);
    }
  }

  lemma {:induction false} SameEntitlementSameViews(block: Block, m: Match, plays: seq<Play>, n: Match, others: seq<Play>, viewer: Viewer)
    requires m.rng == None && n.rng == None && m.config == n.config
    requires Ran(block, m, plays).Ok? && Ran(block, n, others).Ok?
    requires Entitlement(plays, viewer) == Entitlement(others, viewer)
    requires Alike(m.state, n.state, viewer, CalledNext(plays))
    requires ViewsOf(block, m, viewer) == ViewsOf(block, n, viewer)
    ensures ViewsOf(block, Ran(block, m, plays).value, viewer) == ViewsOf(block, Ran(block, n, others).value, viewer)
    ensures Alike(Ran(block, m, plays).value.state, Ran(block, n, others).value.state, viewer, false)
    decreases |plays|
  {
    SameEntitlementSameCalls(plays, others, viewer);
    if plays != [] {
      StepAddsView(block, m, plays[0], viewer);
      StepAddsView(block, n, others[0], viewer);
      SameEntitlementSameCalls(plays[1..], others[1..], viewer);
      SameKnowledgeSameView(block, m.config, m.state, plays[0], n.state, others[0], CalledNext(plays[1..]), viewer);
      var g := LiarsDiceDefinition(block);
      SameEntitlementSameViews(block, StepMatch(g, m, plays[0]).value, plays[1..], StepMatch(g, n, others[0]).value, others[1..], viewer);
    }
  }

  // ---------------------------------------------------------------------------
  // And back: the views tell all of the entitlement
  // ---------------------------------------------------------------------------

  lemma {:induction false} RunKeepsViews(block: Block, m: Match, plays: seq<Play>, viewer: Viewer)
    requires m.rng == None && Ran(block, m, plays).Ok?
    ensures ViewsOf(block, m, viewer) <= ViewsOf(block, Ran(block, m, plays).value, viewer)
    ensures |Ran(block, m, plays).value.turns| == |m.turns| + |plays|
    decreases |plays|
  {
    if plays != [] {
      StepAddsView(block, m, plays[0], viewer);
      RunKeepsViews(block, StepMatch(LiarsDiceDefinition(block), m, plays[0]).value, plays[1..], viewer);
    }
  }

  lemma CallReveals(block: Block, s: State, viewer: Viewer)
    requires s.dice.Some? && StandingBid(s).Some?
    ensures var shown := FilterEvents(DumpEvents(LiarsDiceDefinition(block), CallEvents(s)), viewer);
            shown != [] && shown[0].body.EventPayload? && shown[0].body.event.BidCalled? && shown[0].body.event.dice == s.dice.value
  {
    var g := LiarsDiceDefinition(block);
    var dumped := DumpEvents(g, CallEvents(s));
    assert CallEvents(s)[0].BidCalled?;
    assert PayloadVisibleTo(dumped[0], viewer);
    assert FilterEvents(dumped, viewer) == [dumped[0]] + FilterEvents(dumped[1..], viewer);
  }

  lemma SameRollViewSameRoll(block: Block, c: Config, s: State, p: Roll, t: State, q: Roll, viewer: Viewer)
    requires ApplyChance(s, p).Ok? && ApplyChance(t, q).Ok?
    requires ViewOf(block, c, Resolve(p), ApplyChance(s, p).value, viewer) == ViewOf(block, c, Resolve(q), ApplyChance(t, q).value, viewer)
    ensures KnownOf(Resolve(p), false, viewer) == KnownOf(Resolve(q), false, viewer)
  {
    RollView(block, c, s, p, viewer);
    RollView(block, c, t, q, viewer);
  }

  lemma SameActViewSameAct(block: Block, c: Config, s: State, p: Action, t: State, q: Action, viewer: Viewer)
    requires ApplyAction(s, s.currentSeat, p).Ok? && ApplyAction(t, t.currentSeat, q).Ok? && s.dice.Some? && t.dice.Some?
    requires ValidateAction(s, s.currentSeat, p).None? && ValidateAction(t, t.currentSeat, q).None?
    requires ViewOf(block, c, Act(s.currentSeat, p), ApplyAction(s, s.currentSeat, p).value, viewer)
          == ViewOf(block, c, Act(t.currentSeat, q), ApplyAction(t, t.currentSeat, q).value, viewer)
    ensures p == q && s.currentSeat == t.currentSeat
    ensures p.Call? ==> s.dice == t.dice
  {
    ActView(block, c, s.currentSeat, p, ApplyAction(s, s.currentSeat, p).value, viewer);
    ActView(block, c, t.currentSeat, q, ApplyAction(t, t.currentSeat, q).value, viewer);
    if p.Call? {
      CallReveals(block, s, viewer);
      CallReveals(block, t, viewer);
    }
  }

  lemma RollsLookLikeRolls(block: Block, c: Config, p: Play, t: Transition<State, Event>, viewer: Viewer)
    requires !p.ActJointly?
    ensures ViewOf(block, c, p, t, viewer).seat.None? <==> p.Resolve?
  {
  }

  lemma SameViewSamePlay(block: Block, c: Config, s: State, p: Play, t: State, q: Play, viewer: Viewer)
    requires After(block, s, p).Ok? && After(block, t, q).Ok?
    requires ViewOf(block, c, p, After(block, s, p).value, viewer) == ViewOf(block, c, q, After(block, t, q).value, viewer)
    ensures KnownOf(p, false, viewer) == KnownOf(q, false, viewer)
    ensures p.Act? && p.action.Call? ==> s.dice == t.dice
  {
    AcceptedPlay(block, s, p);
    AcceptedPlay(block, t, q);
    RollsLookLikeRolls(block, c, p, After(block, s, p).value, viewer);
    RollsLookLikeRolls(block, c, q, After(block, t, q).value, viewer);
    if p.Resolve? {
      SameRollViewSameRoll(block, c, s, p.outcome, t, q.outcome, viewer);
    } else {
      SameActViewSameAct(block, c, s, p.action, t, q.action, viewer);
    }
  }

  /** Both runs take a first play that the viewer is shown alike; if the rest of each run
      entitles the viewer to the same, so does the whole. */
  lemma SameHeadSameEntitlement(block: Block, c: Config, s: State, plays: seq<Play>, t: State, others: seq<Play>, viewer: Viewer)
    requires plays != [] && others != []
    requires After(block, s, plays[0]).Ok? && After(block, t, others[0]).Ok?
    requires ViewOf(block, c, plays[0], After(block, s, plays[0]).value, viewer)
          == ViewOf(block, c, others[0], After(block, t, others[0]).value, viewer)
    requires Entitlement(plays[1..], viewer) == Entitlement(others[1..], viewer)
    requires CalledNext(plays[1..]) == CalledNext(others[1..])
    requires CalledNext(plays[1..]) ==> After(block, s, plays[0]).value.state.dice == After(block, t, others[0]).value.state.dice
    ensures Entitlement(plays, viewer) == Entitlement(others, viewer)
    ensures CalledNext(plays) == CalledNext(others)
    ensures CalledNext(plays) ==> s.dice == t.dice
  {
    var p, q := plays[0], others[0];
    SameViewSamePlay(block, c, s, p, t, q, viewer);
    AcceptedPlay(block, s, p);
    AcceptedPlay(block, t, q);
    if p.Act? {
      if p.action.MakeBid? {
        BidKeepsDice(s, p.seat, p.action);
        BidKeepsDice(t, q.seat, q.action);
      }
    } else if CalledNext(plays[1..]) {
      DealtDice(s, p.outcome);
      DealtDice(t, q.outcome);
    }
  }

  lemma DealtDice(s: State, roll: Roll)
    requires ApplyChance(s, roll).Ok?
    ensures ApplyChance(s, roll).value.state.dice == Some(roll.dice)
  {
  }

  lemma BidKeepsDice(s: State, seat: Seat, action: Action)
    requires ApplyAction(s, seat, action).Ok? && action.MakeBid?
    ensures ApplyAction(s, seat, action).value.state.dice == s.dice
  {
  }

  lemma {:induction false} SameViewsSameEntitlement(block: Block, m: Match, plays: seq<Play>, n: Match, others: seq<Play>, viewer: Viewer)
    requires m.rng == None && n.rng == None && m.config == n.config && |m.turns| == |n.turns|
    requires Ran(block, m, plays).Ok? && Ran(block, n, others).Ok?
    requires ViewsOf(block, Ran(block, m, plays).value, viewer) == ViewsOf(block, Ran(block, n, others).value, viewer)
    ensures Entitlement(plays, viewer) == Entitlement(others, viewer)
    ensures CalledNext(plays) == CalledNext(others)
    ensures CalledNext(plays) ==> m.state.dice == n.state.dice
    decreases |plays|
  {
    RunKeepsViews(block, m, plays, viewer);
    RunKeepsViews(block, n, others, viewer);
    if plays != [] {
      var g := LiarsDiceDefinition(block);
      var next, other := StepMatch(g, m, plays[0]).value, StepMatch(g, n, others[0]).value;
      SameFirstView(block, m, plays, n, others, viewer);
      StepAddsView(block, m, plays[0], viewer);
      StepAddsView(block, n, others[0], viewer);
      SameViewsSameEntitlement(block, next, plays[1..], other, others[1..], viewer);
      SameHeadSameEntitlement(block, m.config, m.state, plays, n.state, others, viewer);
    }
  }

  lemma SameFirstView(block: Block, m: Match, plays: seq<Play>, n: Match, others: seq<Play>, viewer: Viewer)
    requires m.rng == None && n.rng == None && m.config == n.config && |m.turns| == |n.turns|
    requires plays != [] && others != []
    requires Ran(block, m, plays).Ok? && Ran(block, n, others).Ok?
    requires ViewsOf(block, Ran(block, m, plays).value, viewer) == ViewsOf(block, Ran(block, n, others).value, viewer)
    ensures After(block, m.state, plays[0]).Ok? && After(block, n.state, others[0]).Ok?
    ensures ViewOf(block, m.config, plays[0], After(block, m.state, plays[0]).value, viewer)
         == ViewOf(block, n.config, others[0], After(block, n.state, others[0]).value, viewer)
  {
    var g := LiarsDiceDefinition(block);
    var next, other := StepMatch(g, m, plays[0]).value, StepMatch(g, n, others[0]).value;
    StepAddsView(block, m, plays[0], viewer);
    StepAddsView(block, n, others[0], viewer);
    RunKeepsViews(block, next, plays[1..], viewer);
    RunKeepsViews(block, other, others[1..], viewer);
    assert ViewsOf(block, next, viewer)[|m.turns|] == ViewsOf(block, other, viewer)[|m.turns|];
  }

  /** The record of a live match as plays, rolls included. */
  ghost function PlaysOf(m: Match): seq<Play>
    requires forall i :: 0 <= i < |m.turns| ==> MoveOf(m.turns[i]).Some?
  {
    MovesOf(m.turns)
  }

  /** The same for two replays from one start. */
  lemma ReplaysViewsAreEntitlements(block: Block, start: Match, plays: seq<Play>, m: Match, others: seq<Play>, n: Match, viewer: Viewer)
    requires start == StartReplayMatch(LiarsDiceDefinition(block), start.config).value
    requires Ran(block, start, plays) == Ok(Seedless(m)) && Ran(block, start, others) == Ok(Seedless(n))
    requires m.config == start.config && n.config == start.config
    ensures Entitlement(plays, viewer) == Entitlement(others, viewer)
       <==> DumpTranscriptFor(LiarsDiceDefinition(block), m, viewer) == DumpTranscriptFor(LiarsDiceDefinition(block), n, viewer)
    ensures Entitlement(plays, viewer) == Entitlement(others, viewer) ==> Alike(m.state, n.state, viewer, false)
  {
    var g := LiarsDiceDefinition(block);
    if Entitlement(plays, viewer) == Entitlement(others, viewer) {
      SameEntitlementSameViews(block, start, plays, start, others, viewer);
    }
    if DumpTranscriptFor(g, m, viewer) == DumpTranscriptFor(g, n, viewer) {
      assert ViewsOf(block, Seedless(m), viewer) == DumpTranscriptFor(g, m, viewer).turns;
      assert ViewsOf(block, Seedless(n), viewer) == DumpTranscriptFor(g, n, viewer).turns;
      SameViewsSameEntitlement(block, start, plays, start, others, viewer);
    }
  }

  /** View determinacy. Two live matches of one config, whatever their seeds and plays, give
      a viewer the same transcript exactly when they entitle the viewer to the same
      knowledge: the same actions, the viewer's own hand every round and both hands of every
      called round. */
  lemma ViewsAreEntitlements(
      block: Block, c: Config, seed: int, moves: seq<Play>, otherSeed: int, otherMoves: seq<Play>, viewer: Viewer)
    requires LiveRun(LiarsDiceDefinition(block), c, seed, moves).Ok?
    requires LiveRun(LiarsDiceDefinition(block), c, otherSeed, otherMoves).Ok?
    ensures var g := LiarsDiceDefinition(block);
            var m, n := LiveRun(g, c, seed, moves).value, LiveRun(g, c, otherSeed, otherMoves).value;
            && (forall i :: 0 <= i < |m.turns| ==> MoveOf(m.turns[i]).Some?)
            && (forall i :: 0 <= i < |n.turns| ==> MoveOf(n.turns[i]).Some?)
            && (Entitlement(PlaysOf(m), viewer) == Entitlement(PlaysOf(n), viewer)
                <==> DumpTranscriptFor(g, m, viewer) == DumpTranscriptFor(g, n, viewer))
            && (Entitlement(PlaysOf(m), viewer) == Entitlement(PlaysOf(n), viewer) ==> Alike(m.state, n.state, viewer, false))
  {
    var g := LiarsDiceDefinition(block);
    var m, n := LiveRun(g, c, seed, moves).value, LiveRun(g, c, otherSeed, otherMoves).value;
    DefinitionIsWellFormed(block);
    LiveIsReplay(g, c, seed, moves);
    LiveIsReplay(g, c, otherSeed, otherMoves);
    ReplaysViewsAreEntitlements(block, StartReplayMatch(g, c).value, PlaysOf(m), m, PlaysOf(n), n, viewer);
  }
}

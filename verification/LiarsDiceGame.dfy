/**
 Liar's Dice across the boundary: payloads, their loaders and the views
 (src/arena/games/liarsdice/serializer.py), and the game definition they make up.
 */
module LiarsDiceGame {
  import opened Wrappers
  import opened Chance
  import opened Games
  import opened LiarsDice

  // ---------------------------------------------------------------------------
  // Payloads
  // ---------------------------------------------------------------------------

  datatype BidBody = BidBody(quantity: int, face: int)

  datatype ShowdownPayload = ShowdownPayload(caller: int, bid: BidBody, dice: seq<seq<int>>, count: int, loser: int)

  datatype PublicFields = PublicFields(
    diceCounts: seq<int>, bids: seq<BidBody>, currentSeat: int, roundNumber: int, faces: int, lastShowdown: Option<ShowdownPayload>)

  datatype Payload =
    | ConfigPayload(dicePerSeat: int, faces: int)
    | StatePayload(fields: PublicFields, dice: Option<seq<seq<int>>>)
    | PublicStatePayload(fields: PublicFields, rollPending: bool)
    | SeatStatePayload(fields: PublicFields, rollPending: bool, seat: int, myDice: seq<int>)
    | BidPayload(bid: BidBody)
    | CallPayload
    | RollPayload(hands: seq<seq<int>>)
    | SeatRollPayload(myDice: seq<int>)
    | PublicRollPayload(diceCounts: seq<int>)
    | EventPayload(event: Event)

  // ---------------------------------------------------------------------------
  // Dumping
  // ---------------------------------------------------------------------------

  function DumpConfig(c: Config): Payload {
    ConfigPayload(c.dicePerSeat, c.faces)
  }

  function DumpBid(b: Bid): BidBody {
    BidBody(b.quantity, b.face)
  }

  function DumpBids(bids: seq<Bid>): (r: seq<BidBody>)
    ensures |r| == |bids|
    ensures forall i :: 0 <= i < |bids| ==> r[i] == DumpBid(bids[i])
  {
    seq(|bids|, i requires 0 <= i < |bids| => DumpBid(bids[i]))
  }

  function DumpHands(dice: Hands): seq<seq<int>> {
    [dice.first, dice.second]
  }

  function DumpShowdown(s: Option<Showdown>): Option<ShowdownPayload> {
    match s
    case None => None
    case Some(sd) => Some(ShowdownPayload(sd.caller, DumpBid(sd.bid), DumpHands(sd.dice), sd.count, sd.loser))
  }

  function DumpFields(s: State): PublicFields {
    PublicFields([s.counts.first, s.counts.second], DumpBids(s.bids), s.currentSeat, s.roundNumber, s.faces, DumpShowdown(s.lastShowdown))
  }

  function DumpState(s: State): Payload {
    StatePayload(DumpFields(s), if s.dice.Some? then Some(DumpHands(s.dice.value)) else None)
  }

  /** The next round is about to be dealt: no hands are out and both seats still own dice. */
  function RollPending(s: State): bool {
    s.dice.None? && s.counts.first > 0 && s.counts.second > 0
  }

  function DumpStateFor(s: State, viewer: Viewer): Payload {
    match viewer
    case Public => PublicStatePayload(DumpFields(s), RollPending(s))
    case OfSeat(seat) =>
      SeatStatePayload(DumpFields(s), RollPending(s), seat, if s.dice.Some? then s.dice.value.Of(seat) else [])
  }

  function DumpAction(a: Action): Payload {
    match a
    case MakeBid(bid) => BidPayload(DumpBid(bid))
    case Call => CallPayload
  }

  function DumpRoll(r: Roll): Payload {
    RollPayload(DumpHands(r.dice))
  }

  function DumpRollFor(r: Roll, viewer: Viewer): Payload {
    match viewer
    case Public => PublicRollPayload([|r.dice.first|, |r.dice.second|])
    case OfSeat(seat) => SeatRollPayload(r.dice.Of(seat))
  }

  // ---------------------------------------------------------------------------
  // Loading: the payload models' bounds, then the constructors' checks
  // ---------------------------------------------------------------------------

  function LoadConfig(p: Payload): Result<Config, Error> {
    match p
    case ConfigPayload(n, f) => if ConfigOk(Config(n, f)) then Ok(Config(n, f)) else Err(ValueError)
    case _ => Err(ValueError)
  }

  function LoadBid(b: BidBody): Result<Bid, Error> {
    if b.quantity >= 1 && b.face >= 1 then Ok(Bid(b.quantity, b.face)) else Err(ValueError)
  }

  function LoadBids(bids: seq<BidBody>): Result<seq<Bid>, Error> {
    if bids == [] then Ok([])
    else
      var first :- LoadBid(bids[0]);
      var rest :- LoadBids(bids[1..]);
      Ok([first] + rest)
  }

  function LoadHands(hands: seq<seq<int>>): Result<Hands, Error> {
    if |hands| == 2 then Ok(Hands(hands[0], hands[1])) else Err(ValueError)
  }

  function LoadShowdown(p: Option<ShowdownPayload>): Result<Option<Showdown>, Error> {
    match p
    case None => Ok(None)
    case Some(sd) =>
      var bid :- LoadBid(sd.bid);
      var dice :- LoadHands(sd.dice);
      var showdown := Showdown(sd.caller, bid, dice, sd.count, sd.loser);
      if ShowdownOk(showdown) then Ok(Some(showdown)) else Err(ValueError)
  }

  function LoadState(p: Payload): Result<State, Error> {
    match p
    case StatePayload(fields, dice) =>
      if |fields.diceCounts| != 2 then Err(ValueError) else
      var bids :- LoadBids(fields.bids);
      var showdown :- LoadShowdown(fields.lastShowdown);
      var hands :- if dice.None? then Ok(None) else (var h :- LoadHands(dice.value); Ok(Some(h)));
      var state := State(hands, Counts(fields.diceCounts[0], fields.diceCounts[1]), bids, fields.currentSeat,
                         fields.roundNumber, fields.faces, showdown);
      if StateOk(state) then Ok(state) else Err(ValueError)
    case _ => Err(ValueError)
  }

  function LoadAction(p: Payload): Result<Action, Error> {
    match p
    case BidPayload(b) => var bid :- LoadBid(b); Ok(MakeBid(bid))
    case CallPayload => Ok(Call)
    case _ => Err(ValueError)
  }

  function LoadRoll(p: Payload): Result<Roll, Error> {
    match p
    case RollPayload(hands) => var dice :- LoadHands(hands); Ok(Roll(dice))
    case _ => Err(ValueError)
  }

  lemma {:induction false} BidsRoundTrip(bids: seq<Bid>)
    ensures LoadBids(DumpBids(bids)) == Ok(bids)
  {
    if bids != [] {
      BidsRoundTrip(bids[1..]);
      assert DumpBids(bids)[1..] == DumpBids(bids[1..]);
      assert bids == [bids[0]] + bids[1..];
    } else {
      assert DumpBids(bids) == [];
    }
  }

  /** Loading undoes dumping, for every state the constructor admits. */
  lemma StateRoundTrip(s: State)
    ensures LoadState(DumpState(s)) == Ok(s)
  {
    BidsRoundTrip(s.bids);
  }

  /** A config loads exactly with one to six dice a seat and two to nine faces. */
  lemma ConfigLoads(dicePerSeat: int, faces: int)
    ensures LoadConfig(ConfigPayload(dicePerSeat, faces)).Ok? <==> dicePerSeat in {1, 2, 3, 4, 5, 6} && faces in {2, 3, 4, 5, 6, 7, 8, 9}
    ensures LoadConfig(ConfigPayload(dicePerSeat, faces)).Ok? ==>
      DumpConfig(LoadConfig(ConfigPayload(dicePerSeat, faces)).value) == ConfigPayload(dicePerSeat, faces)
  {
  }

  // ---------------------------------------------------------------------------
  // The definition
  // ---------------------------------------------------------------------------

  ghost function LiarsDiceDefinition(block: Block): Game<Config, State, Action, Roll, Event, Payload> {
    Game(
      "liarsdice", true, true,
      (c: Config) => InitialState(c),
      (s: State) => IsTerminal(s),
      (s: State) => ResultOf(s),
      (s: State) => IsChanceNode(s),
      (s: State) => [s.currentSeat],
      (s: State, seat: Seat, a: Action) => ValidateAction(s, seat, a),
      (s: State, seat: Seat, a: Action) => ApplyAction(s, seat, a),
      (s: State, actions: map<Seat, Action>) => Err(WrongPlayer),
      (s: State, rng: Rng) => SampleChance(block, s, rng),
      (s: State, roll: Roll) => ApplyChance(s, roll),
      (e: Event, v: Viewer) => VisibleTo(e, v),
      (c: Config) => DumpConfig(c),
      (p: Payload) => LoadConfig(p),
      (s: State) => DumpState(s),
      (p: Payload) => LoadState(p),
      (a: Action) => DumpAction(a),
      (p: Payload) => LoadAction(p),
      (r: Roll) => DumpRoll(r),
      (p: Payload) => LoadRoll(p),
      (e: Event) => EventPayload(e),
      (c: Config, v: Viewer) => DumpConfig(c),
      (s: State, v: Viewer) => DumpStateFor(s, v),
      (r: Roll, v: Viewer) => DumpRollFor(r, v))
  }

  /** Liar's Dice meets what the match layer assumes of a game, and none of its events is
      private to nobody: every replay and redaction result holds of it outright. */
  lemma DefinitionIsWellFormed(block: Block)
    ensures WellFormed(LiarsDiceDefinition(block))
    ensures forall e: Event :: VisibleTo(e, Public) || VisibleTo(e, OfSeat(0)) || VisibleTo(e, OfSeat(1))
  {
    forall s: State ensures LoadState(DumpState(s)) == Ok(s) {
      StateRoundTrip(s);
    }
  }
}

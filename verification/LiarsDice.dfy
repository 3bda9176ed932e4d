/** Two-seat Liar's Dice: state and rules (src/arena/games/liarsdice/state.py, rules.py). */
module LiarsDice {
  import opened Wrappers
  import opened Chance
  import opened Games

  const MIN_FACES: int := 2
  const MAX_FACES: int := 9
  const MAX_DICE_PER_SEAT: int := 6

  // ---------------------------------------------------------------------------
  // Values, with the checks their constructors make
  // ---------------------------------------------------------------------------

  datatype BidData = Bid(quantity: int, face: int) {
    /** Lexicographic: quantity first, then face. */
    predicate Outranks(other: BidData) {
      quantity > other.quantity || (quantity == other.quantity && face > other.face)
    }
  }

  type Bid = b: BidData | b.quantity >= 1 && b.face >= 1 witness Bid(1, 1)

  datatype Action = MakeBid(bid: Bid) | Call

  datatype Hands = Hands(first: seq<int>, second: seq<int>) {
    function Of(seat: TableSeat): seq<int> {
      if seat == 0 then first else second
    }
  }

  /** What opening a round draws, for both seats at once. */
  datatype Roll = Roll(dice: Hands)

  datatype Counts = Counts(first: int, second: int) {
    function Of(seat: TableSeat): int {
      if seat == 0 then first else second
    }

    function Total(): int {
      first + second
    }

    /** One die fewer for `loser`. */
    function Without(loser: TableSeat): (c: Counts)
      ensures c.Total() == Total() - 1
      ensures c.Of(loser) == Of(loser) - 1 && c.Of(Other(loser)) == Of(Other(loser))
    {
      if loser == 0 then Counts(first - 1, second) else Counts(first, second - 1)
    }
  }

  function Other(seat: int): TableSeat {
    if seat == 0 then 1 else 0
  }

  /** How many dice of a hand show `face`. */
  function Showing(hand: seq<int>, face: int): nat {
    if hand == [] then 0
    else (if hand[0] == face then 1 else 0) + Showing(hand[1..], face)
  }

  function CountFace(dice: Hands, face: int): nat {
    Showing(dice.first, face) + Showing(dice.second, face)
  }

  datatype ShowdownData = Showdown(caller: int, bid: Bid, dice: Hands, count: int, loser: int)

  predicate ShowdownOk(s: ShowdownData) {
    && 0 <= s.caller <= 1 && 0 <= s.loser <= 1
    && s.count == CountFace(s.dice, s.bid.face)
    && s.loser == (if s.count >= s.bid.quantity then s.caller else 1 - s.caller)
  }

  type Showdown = s: ShowdownData | ShowdownOk(s) witness Showdown(0, Bid(1, 1), Hands([], []), 0, 1)

  datatype StateData = State(
    dice: Option<Hands>,
    counts: Counts,
    bids: seq<Bid>,
    currentSeat: int,
    roundNumber: int,
    faces: int,
    lastShowdown: Option<Showdown>)

  predicate HandOk(hand: seq<int>, faces: int) {
    forall i :: 0 <= i < |hand| ==> 1 <= hand[i] <= faces
  }

  predicate Finished(counts: Counts) {
    counts.first == 0 || counts.second == 0
  }

  predicate BidsOk(bids: seq<Bid>, total: int, faces: int) {
    && (forall i :: 0 <= i < |bids| ==> bids[i].quantity <= total && bids[i].face <= faces)
    && (forall i :: 0 < i < |bids| ==> bids[i].Outranks(bids[i - 1]))
  }

  /** The state constructor's checks. */
  predicate StateOk(s: StateData) {
    && MIN_FACES <= s.faces <= MAX_FACES
    && s.roundNumber >= 0
    && (s.dice.Some? ==> s.roundNumber >= 1)
    && 0 <= s.currentSeat <= 1
    && 0 <= s.counts.first <= MAX_DICE_PER_SEAT && 0 <= s.counts.second <= MAX_DICE_PER_SEAT
    && s.counts != Counts(0, 0)
    && (Finished(s.counts) ==> s.currentSeat == (if s.counts.first >= s.counts.second then 0 else 1))
    && (Finished(s.counts) || s.dice.None? ==> s.bids == [])
    && (Finished(s.counts) ==> s.dice.None?)
    && (s.roundNumber == 0 ==> s.lastShowdown.None?)
    && (s.lastShowdown.Some? ==>
          var sd := s.lastShowdown.value;
          && sd.bid.face <= s.faces
          && 1 <= |sd.dice.first| <= MAX_DICE_PER_SEAT && HandOk(sd.dice.first, s.faces)
          && 1 <= |sd.dice.second| <= MAX_DICE_PER_SEAT && HandOk(sd.dice.second, s.faces))
    && (s.dice.Some? ==>
          && |s.dice.value.first| == s.counts.first && HandOk(s.dice.value.first, s.faces)
          && |s.dice.value.second| == s.counts.second && HandOk(s.dice.value.second, s.faces))
    && BidsOk(s.bids, s.counts.Total(), s.faces)
  }

  /** Only states that pass the constructor exist. */
  type State = s: StateData | StateOk(s) witness State(None, Counts(1, 1), [], 0, 0, 2, None)

  datatype ConfigData = Config(dicePerSeat: int, faces: int)

  predicate ConfigOk(c: ConfigData) {
    1 <= c.dicePerSeat <= MAX_DICE_PER_SEAT && MIN_FACES <= c.faces <= MAX_FACES
  }

  type Config = c: ConfigData | ConfigOk(c) witness Config(3, 6)

  datatype Event =
    | RoundRolled(roundNumber: int, diceCounts: Counts)
    | DiceDealt(to: TableSeat, hand: seq<int>)
    | BidMade(seat: int, quantity: int, face: int)
    | BidCalled(seat: int, dice: Hands, quantity: int, face: int, count: int, loser: int)
    | DieLost(seat: int, remaining: int)
    | LiarsDiceMatchWon(winnerSeat: int)

  /** Everything but a deal is public; a deal reaches only the seat it is for. */
  predicate VisibleTo(e: Event, viewer: Viewer) {
    e.DiceDealt? ==> viewer == OfSeat(e.to)
  }

  // ---------------------------------------------------------------------------
  // Rules
  // ---------------------------------------------------------------------------

  function InitialState(c: Config): State {
    State(None, Counts(c.dicePerSeat, c.dicePerSeat), [], 0, 0, c.faces, None)
  }

  function StandingBid(s: State): Option<Bid> {
    if s.bids == [] then None else Some(s.bids[|s.bids| - 1])
  }

  function ResultOf(s: State): Option<RuleResult> {
    if s.counts.first == 0 then Some(Win(1))
    else if s.counts.second == 0 then Some(Win(0))
    else None
  }

  predicate IsTerminal(s: State) {
    ResultOf(s).Some?
  }

  predicate IsChanceNode(s: State) {
    s.dice.None? && !IsTerminal(s)
  }

  function ValidateAction(s: State, seat: Seat, action: Action): Option<Error> {
    if IsTerminal(s) then Some(GameFinished)
    else if IsChanceNode(s) then Some(IllegalAction)
    else if seat != s.currentSeat then Some(WrongPlayer)
    else
      match action
      case Call => if StandingBid(s).None? then Some(IllegalAction) else None
      case MakeBid(bid) =>
        if !(1 <= bid.quantity <= s.counts.Total()) then Some(IllegalAction)
        else if !(1 <= bid.face <= s.faces) then Some(IllegalAction)
        else if StandingBid(s).Some? && !bid.Outranks(StandingBid(s).value) then Some(IllegalAction)
        else None
  }

  function BidState(s: State, bid: Bid): State
    requires ValidateAction(s, s.currentSeat, MakeBid(bid)).None?
  {
    s.(bids := s.bids + [bid], currentSeat := Other(s.currentSeat))
  }

  /** What calling the standing bid reveals. */
  function CallShowdown(s: State): (sd: Showdown)
    requires s.dice.Some? && StandingBid(s).Some?
  {
    var bid := StandingBid(s).value;
    var count := CountFace(s.dice.value, bid.face);
    Showdown(s.currentSeat, bid, s.dice.value, count, if count >= bid.quantity then s.currentSeat else Other(s.currentSeat))
  }

  function CallState(s: State): (next: State)
    requires s.dice.Some? && StandingBid(s).Some?
    ensures next.counts.Total() == s.counts.Total() - 1
  {
    var sd := CallShowdown(s);
    var counts := s.counts.Without(sd.loser);
    State(None, counts, [], if counts.Of(sd.loser) > 0 then sd.loser else Other(sd.loser), s.roundNumber, s.faces, Some(sd))
  }

  function CallEvents(s: State): seq<Event>
    requires s.dice.Some? && StandingBid(s).Some?
  {
    var sd := CallShowdown(s);
    var next := CallState(s);
    [BidCalled(s.currentSeat, sd.dice, sd.bid.quantity, sd.bid.face, sd.count, sd.loser),
     DieLost(sd.loser, next.counts.Of(sd.loser))] +
    (if ResultOf(next).Some? then [LiarsDiceMatchWon(Other(sd.loser))] else [])
  }

  function ApplyAction(s: State, seat: Seat, action: Action): Result<Transition<State, Event>, Error> {
    match ValidateAction(s, seat, action)
    case Some(e) => Err(e)
    case None =>
      match action
      case MakeBid(bid) => Ok(Transition(BidState(s, bid), [BidMade(seat, bid.quantity, bid.face)], None))
      case Call => Ok(Transition(CallState(s), CallEvents(s), ResultOf(CallState(s))))
  }

  predicate RollFits(s: State, roll: Roll) {
    && |roll.dice.first| == s.counts.first && HandOk(roll.dice.first, s.faces)
    && |roll.dice.second| == s.counts.second && HandOk(roll.dice.second, s.faces)
  }

  function ApplyChance(s: State, roll: Roll): Result<Transition<State, Event>, Error> {
    if !IsChanceNode(s) || !RollFits(s, roll) then Err(ChanceResolutionError)
    else
      Ok(Transition(
        s.(dice := Some(roll.dice), bids := [], roundNumber := s.roundNumber + 1),
        [RoundRolled(s.roundNumber + 1, s.counts), DiceDealt(0, roll.dice.first), DiceDealt(1, roll.dice.second)],
        None))
  }

  /** Two batches of draws, one per hand. */
  ghost function SampleChance(block: Block, s: State, rng: Rng): (Roll, Rng) {
    var (first, middle) := DrawnMany(block, rng, s.faces, s.counts.first);
    var (second, after) := DrawnMany(block, middle, s.faces, s.counts.second);
    (Roll(Hands(Pips(first), Pips(second))), after)
  }

  /** Draws count from 0, dice from 1. */
  function Pips(draws: seq<int>): (dice: seq<int>)
    ensures |dice| == |draws|
    ensures forall i :: 0 <= i < |draws| ==> dice[i] == draws[i] + 1
  {
    seq(|draws|, i requires 0 <= i < |draws| => draws[i] + 1)
  }

  // ---------------------------------------------------------------------------
  // Legal actions
  // ---------------------------------------------------------------------------

  function BidsOfQuantity(q: int, face: int, faces: int, standing: Option<Bid>): seq<Action>
    requires q >= 1 && face >= 1
    decreases faces - face
  {
    if face > faces then []
    else (if standing.None? || Bid(q, face).Outranks(standing.value) then [MakeBid(Bid(q, face))] else []) +
         BidsOfQuantity(q, face + 1, faces, standing)
  }

  function BidsFrom(q: int, total: int, faces: int, standing: Option<Bid>): seq<Action>
    requires q >= 1
    decreases total - q
  {
    if q > total then [] else BidsOfQuantity(q, 1, faces, standing) + BidsFrom(q + 1, total, faces, standing)
  }

  function LegalActions(s: State, seat: Seat): seq<Action> {
    if IsTerminal(s) || IsChanceNode(s) || seat != s.currentSeat then []
    else (if StandingBid(s).Some? then [Call] else []) + BidsFrom(1, s.counts.Total(), s.faces, StandingBid(s))
  }

  lemma {:induction false} BidsOfQuantityAre(q: int, face: int, faces: int, standing: Option<Bid>, a: Action)
    requires q >= 1 && face >= 1
    ensures a in BidsOfQuantity(q, face, faces, standing)
       <==> (a.MakeBid? && a.bid.quantity == q && face <= a.bid.face <= faces && (standing.None? || a.bid.Outranks(standing.value)))
    decreases faces - face
  {
    if face <= faces {
      BidsOfQuantityAre(q, face + 1, faces, standing, a);
    }
  }

  lemma {:induction false} BidsFromAre(q: int, total: int, faces: int, standing: Option<Bid>, a: Action)
    requires q >= 1
    ensures a in BidsFrom(q, total, faces, standing)
       <==> (a.MakeBid? && q <= a.bid.quantity <= total && a.bid.face <= faces && (standing.None? || a.bid.Outranks(standing.value)))
    decreases total - q
  {
    if q <= total {
      BidsOfQuantityAre(q, 1, faces, standing, a);
      BidsFromAre(q + 1, total, faces, standing, a);
    }
  }

  /** `legal_actions` lists exactly what `validate_action` accepts. */
  lemma LegalIffValid(s: State, seat: Seat, action: Action)
    ensures action in LegalActions(s, seat) <==> ValidateAction(s, seat, action).None?
  {
    BidsFromAre(1, s.counts.Total(), s.faces, StandingBid(s), action);
  }

  /** A seat to move always has a move, and when it may call, calling comes first. */
  lemma SomebodyCanMove(s: State)
    requires !IsTerminal(s) && !IsChanceNode(s)
    ensures LegalActions(s, s.currentSeat) != []
    ensures StandingBid(s).Some? ==> LegalActions(s, s.currentSeat)[0] == Call
  {
    LegalIffValid(s, s.currentSeat, MakeBid(Bid(1, 1)));
  }

  /** A sampled roll always fits: the live match never rejects its own dice. */
  lemma SampledRollFits(block: Block, s: State, rng: Rng)
    requires IsChanceNode(s)
    ensures ApplyChance(s, SampleChance(block, s, rng).0).Ok?
    ensures var after := SampleChance(block, s, rng).1;
            after.seed == rng.seed && after.counter >= rng.counter + s.counts.Total()
  {
    var (first, middle) := DrawnMany(block, rng, s.faces, s.counts.first);
    DrawsInRange(block, rng, s.faces, s.counts.first);
    DrawsInRange(block, middle, s.faces, s.counts.second);
  }

  /** A hand whose dice were drawn one after another, each a draw of `faces` plus one. */
  ghost predicate RolledInTurn(block: Block, rng: Rng, faces: int, hand: seq<int>, after: Rng)
    requires ValidBound(faces)
  {
    DrawnInTurn(block, rng, faces, seq(|hand|, i requires 0 <= i < |hand| => hand[i] - 1), after)
  }

  /** A roll is drawn die by die, seat 0's hand first, and seat 1's from where that ends. */
  lemma DiceAreDrawnInTurn(block: Block, s: State, rng: Rng)
    requires Fair(block, rng.seed) && IsChanceNode(s)
    ensures var (roll, after) := SampleChance(block, s, rng);
            && |roll.dice.Of(0)| == s.counts.Of(0) && |roll.dice.Of(1)| == s.counts.Of(1)
            && exists middle: Rng :: RolledInTurn(block, rng, s.faces, roll.dice.Of(0), middle)
                                     && RolledInTurn(block, middle, s.faces, roll.dice.Of(1), after)
  {
    var (roll, after) := SampleChance(block, s, rng);
    var (first, middle) := DrawnMany(block, rng, s.faces, s.counts.first);
    var (second, _) := DrawnMany(block, middle, s.faces, s.counts.second);
    DrawnManyInTurn(block, rng, s.faces, s.counts.first);
    DrawnManyInTurn(block, middle, s.faces, s.counts.second);
    assert seq(|first|, i requires 0 <= i < |first| => roll.dice.first[i] - 1) == first;
    assert seq(|second|, i requires 0 <= i < |second| => roll.dice.second[i] - 1) == second;
    assert RolledInTurn(block, rng, s.faces, roll.dice.Of(0), middle);
    assert RolledInTurn(block, middle, s.faces, roll.dice.Of(1), after);
  }
}

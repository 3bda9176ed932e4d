/**
 Connect 4: state and rules (src/arena/games/connect4/state.py, rules.py). The engine's
 configured `connect_length` is passed explicitly, as `length`.
 */
module Connect4 {
  import opened Wrappers
  import opened Games

  const EMPTY_CELL: int := 0

  /** Rows from the top down, so discs fall towards higher row numbers. */
  type Board = seq<seq<int>>

  predicate BoardOk(b: Board) {
    && b != [] && b[0] != []
    && (forall r :: 0 <= r < |b| ==> |b[r]| == |b[0]|)
    && (forall r, c :: 0 <= r < |b| && 0 <= c < |b[0]| ==> 0 <= b[r][c] <= 2)
  }

  type Grid = b: Board | BoardOk(b) witness [[0]]

  datatype State = State(board: Grid, currentSeat: TableSeat)

  datatype Config = Config(rows: int, columns: int, connectLength: int)

  predicate ConfigOk(c: Config) {
    && 4 <= c.rows <= 20 && 4 <= c.columns <= 20
    && 2 <= c.connectLength <= (if c.rows > c.columns then c.rows else c.columns)
  }

  /** A `DropDisc`, whose constructor refuses a negative column. */
  type Column = nat

  datatype Event = DiscDropped(seat: Seat, column: int, row: int) | WinnerDetected(winner: Seat) | GameDrawn

  function DiscFor(seat: TableSeat): int {
    seat + 1
  }

  predicate OnBoard(b: Grid, r: int, c: int) {
    0 <= r < |b| && 0 <= c < |b[0]|
  }

  /** The cell's disc; -1 off the board. */
  function At(b: Grid, r: int, c: int): int {
    if OnBoard(b, r, c) then b[r][c] else -1
  }

  // ---------------------------------------------------------------------------
  // Counting along a line
  // ---------------------------------------------------------------------------

  predicate IsStep(dr: int, dc: int) {
    -1 <= dr <= 1 && -1 <= dc <= 1 && (dr != 0 || dc != 0)
  }

  /** Steps left before (r, c) leaves the board. */
  function StepsLeft(b: Grid, r: int, c: int, dr: int, dc: int): nat {
    if !OnBoard(b, r, c) then 0
    else if dr > 0 then |b| - r
    else if dr < 0 then r + 1
    else if dc > 0 then |b[0]| - c
    else c + 1
  }

  /** How many cells after (r, c), stepping by (dr, dc), hold `disc` without a gap. */
  function CountFrom(b: Grid, r: int, c: int, dr: int, dc: int, disc: int): nat
    requires IsStep(dr, dc) && disc >= 0
    decreases StepsLeft(b, r + dr, c + dc, dr, dc)
  {
    if At(b, r + dr, c + dc) == disc then 1 + CountFrom(b, r + dr, c + dc, dr, dc, disc) else 0
  }

  /** The counting loop. */
  method CountDirection(b: Grid, row: int, column: int, dr: int, dc: int, disc: int) returns (count: nat)
    requires IsStep(dr, dc) && disc >= 0
    ensures count == CountFrom(b, row, column, dr, dc, disc)
  {
    count := 0;
    var r, c := row + dr, column + dc;
    while 0 <= r < |b| && 0 <= c < |b[0]| && b[r][c] == disc
      invariant count + CountFrom(b, r - dr, c - dc, dr, dc, disc) == CountFrom(b, row, column, dr, dc, disc)
      decreases StepsLeft(b, r, c, dr, dc)
    {
      count := count + 1;
      r, c := r + dr, c + dc;
    }
  }

  /** The cells of the unbroken run through (r, c) along (dr, dc), itself included. */
  function Contiguous(b: Grid, r: int, c: int, dr: int, dc: int, disc: int): nat
    requires IsStep(dr, dc) && disc >= 0
  {
    1 + CountFrom(b, r, c, dr, dc, disc) + CountFrom(b, r, c, -dr, -dc, disc)
  }

  predicate WinsAt(b: Grid, length: int, r: int, c: int)
    requires OnBoard(b, r, c)
  {
    && b[r][c] != EMPTY_CELL
    && (Contiguous(b, r, c, 1, 0, b[r][c]) >= length || Contiguous(b, r, c, 0, 1, b[r][c]) >= length
        || Contiguous(b, r, c, 1, 1, b[r][c]) >= length || Contiguous(b, r, c, 1, -1, b[r][c]) >= length)
  }

  function WinnerFromLastMove(b: Grid, length: int, r: int, c: int): Option<int>
    requires OnBoard(b, r, c)
  {
    if WinsAt(b, length, r, c) then Some(b[r][c] - 1) else None
  }

  /** The first winning cell's seat, reading rows from the top and cells from the left. */
  function WinnerFrom(b: Grid, length: int, r: int, c: int): Option<int>
    requires 0 <= r <= |b| && 0 <= c <= |b[0]|
    decreases |b| - r, |b[0]| - c
  {
    if r == |b| then None
    else if c == |b[0]| then WinnerFrom(b, length, r + 1, 0)
    else if WinsAt(b, length, r, c) then Some(b[r][c] - 1)
    else WinnerFrom(b, length, r, c + 1)
  }

  function WinnerOnBoard(b: Grid, length: int): Option<int> {
    WinnerFrom(b, length, 0, 0)
  }

  /** The scanning loops. */
  method FindWinner(b: Grid, length: int) returns (winner: Option<int>)
    ensures winner == WinnerOnBoard(b, length)
  {
    for r := 0 to |b|
      invariant WinnerFrom(b, length, r, 0) == WinnerOnBoard(b, length)
    {
      for c := 0 to |b[r]|
        invariant WinnerFrom(b, length, r, c) == WinnerOnBoard(b, length)
      {
        if b[r][c] != EMPTY_CELL && WinnerFromLastMove(b, length, r, c).Some? {
          return Some(b[r][c] - 1);
        }
      }
    }
    return None;
  }

  // ---------------------------------------------------------------------------
  // Rules
  // ---------------------------------------------------------------------------

  function InitialState(c: Config): State
    requires ConfigOk(c)
  {
    State(seq(c.rows, _ => seq(c.columns, _ => EMPTY_CELL)), 0)
  }

  predicate IsFull(b: Grid) {
    forall r, c :: 0 <= r < |b| && 0 <= c < |b[0]| ==> b[r][c] != EMPTY_CELL
  }

  function ResultOf(s: State, length: int): Option<RuleResult> {
    match WinnerOnBoard(s.board, length)
    case Some(seat) => Some(Win(seat))
    case None => if IsFull(s.board) then Some(Draw) else None
  }

  function ValidateAction(s: State, length: int, seat: Seat, column: Column): Option<Error> {
    if ResultOf(s, length).Some? then Some(GameFinished)
    else if seat != s.currentSeat then Some(WrongPlayer)
    else if column >= |s.board[0]| then Some(IllegalAction)
    else if s.board[0][column] != EMPTY_CELL then Some(IllegalAction)
    else None
  }

  function OpenColumns(s: State, from: nat): seq<Column>
    decreases |s.board[0]| - from
  {
    if from >= |s.board[0]| then []
    else (if s.board[0][from] == EMPTY_CELL then [from] else []) + OpenColumns(s, from + 1)
  }

  function LegalActions(s: State, length: int, seat: Seat): seq<Column> {
    if ResultOf(s, length).Some? || seat != s.currentSeat then [] else OpenColumns(s, 0)
  }

  /** The lowest empty cell of a column, looking up from row `r`. */
  function DropRowFrom(b: Grid, column: nat, r: int): (row: Option<nat>)
    requires column < |b[0]| && -1 <= r < |b|
    ensures row.Some? ==> row.value <= r && b[row.value][column] == EMPTY_CELL
    ensures row.Some? ==> forall k :: row.value < k <= r ==> b[k][column] != EMPTY_CELL
    ensures row.None? ==> forall k :: 0 <= k <= r ==> b[k][column] != EMPTY_CELL
    decreases r + 1
  {
    if r < 0 then None
    else if b[r][column] == EMPTY_CELL then Some(r)
    else DropRowFrom(b, column, r - 1)
  }

  /** The dropping loop. */
  method DropRow(b: Grid, column: nat) returns (row: Option<nat>)
    requires column < |b[0]|
    ensures row == DropRowFrom(b, column, |b| - 1)
  {
    for r := |b| downto 0
      invariant DropRowFrom(b, column, r - 1) == DropRowFrom(b, column, |b| - 1)
    {
      if b[r][column] == EMPTY_CELL {
        return Some(r);
      }
    }
    return None;
  }

  function WithDisc(b: Grid, row: nat, column: nat, disc: int): (next: Grid)
    requires OnBoard(b, row, column) && 0 <= disc <= 2
    ensures |next| == |b| && |next[0]| == |b[0]|
    ensures forall r, c :: OnBoard(b, r, c) ==> next[r][c] == if r == row && c == column then disc else b[r][c]
  {
    b[row := b[row][column := disc]]
  }

  datatype Dropped = Dropped(state: State, events: seq<Event>, result: Option<RuleResult>)

  function ApplyAction(s: State, length: int, seat: Seat, column: Column): Result<Dropped, Error> {
    match ValidateAction(s, length, seat, column)
    case Some(e) => Err(e)
    case None =>
      var row := DropRowFrom(s.board, column, |s.board| - 1).value;
      var next := WithDisc(s.board, row, column, DiscFor(seat));
      var dropped := DiscDropped(seat, column, row);
      match WinnerFromLastMove(next, length, row, column)
      case Some(winner) => Ok(Dropped(State(next, seat), [dropped, WinnerDetected(winner)], Some(Win(winner))))
      case None =>
        if IsFull(next) then Ok(Dropped(State(next, seat), [dropped, GameDrawn], Some(Draw)))
        else Ok(Dropped(State(next, 1 - seat), [dropped], None))
  }

  lemma {:induction false} OpenColumnsAre(s: State, from: nat, column: Column)
    ensures column in OpenColumns(s, from) <==> from <= column < |s.board[0]| && s.board[0][column] == EMPTY_CELL
    decreases |s.board[0]| - from
  {
    if from < |s.board[0]| {
      OpenColumnsAre(s, from + 1, column);
    }
  }

  /** `legal_actions` lists exactly what `validate_action` accepts. */
  lemma LegalIffValid(s: State, length: int, seat: Seat, column: Column)
    ensures column in LegalActions(s, length, seat) <==> ValidateAction(s, length, seat, column).None?
  {
    OpenColumnsAre(s, 0, column);
  }

  // ---------------------------------------------------------------------------
  // The scan, and lines
  // ---------------------------------------------------------------------------

  lemma {:induction false} WinnerFromFinds(b: Grid, length: int, r: int, c: int)
    requires 0 <= r <= |b| && 0 <= c <= |b[0]|
    ensures WinnerFrom(b, length, r, c).None? ==>
      forall i, j :: OnBoard(b, i, j) && (i > r || (i == r && j >= c)) ==> !WinsAt(b, length, i, j)
    ensures WinnerFrom(b, length, r, c).Some? ==>
      exists i, j :: OnBoard(b, i, j) && WinsAt(b, length, i, j) && WinnerFrom(b, length, r, c) == Some(b[i][j] - 1)
    decreases |b| - r, |b[0]| - c
  {
    if r == |b| {
    } else if c == |b[0]| {
      WinnerFromFinds(b, length, r + 1, 0);
    } else if !WinsAt(b, length, r, c) {
      WinnerFromFinds(b, length, r, c + 1);
    }
  }

  ghost predicate NobodyWins(b: Grid, length: int) {
    forall i, j :: OnBoard(b, i, j) ==> !WinsAt(b, length, i, j)
  }

  lemma NoneMeansNobody(b: Grid, length: int)
    requires WinnerOnBoard(b, length).None?
    ensures NobodyWins(b, length)
  {
    WinnerFromFinds(b, length, 0, 0);
  }

  /** A winning cell of the seat the scan finds. */
  lemma SomeMeansCell(b: Grid, length: int) returns (r: int, c: int)
    requires WinnerOnBoard(b, length).Some?
    ensures OnBoard(b, r, c) && WinsAt(b, length, r, c) && WinnerOnBoard(b, length) == Some(b[r][c] - 1)
  {
    WinnerFromFinds(b, length, 0, 0);
    r, c :| OnBoard(b, r, c) && WinsAt(b, length, r, c) && WinnerOnBoard(b, length) == Some(b[r][c] - 1);
  }

  /** `n` cells from (r, c) on, stepping by (dr, dc), all hold `disc`. */
  predicate Line(b: Grid, r: int, c: int, dr: int, dc: int, disc: int, n: nat)
    decreases n
  {
    n == 0 || (At(b, r, c) == disc && Line(b, r + dr, c + dc, dr, dc, disc, n - 1))
  }

  predicate IsDirection(dr: int, dc: int) {
    (dr == 1 && dc == 0) || (dr == 0 && dc == 1) || (dr == 1 && dc == 1) || (dr == 1 && dc == -1)
  }

  /** The rule itself: `length` discs of one seat in a row, a column or a diagonal. */
  ghost predicate HasLine(b: Grid, length: nat, disc: int) {
    exists r, c, dr, dc :: IsDirection(dr, dc) && Line(b, r, c, dr, dc, disc, length)
  }

  lemma {:induction false} CountIsLine(b: Grid, r: int, c: int, dr: int, dc: int, disc: int, n: nat)
    requires IsStep(dr, dc) && disc >= 0
    ensures CountFrom(b, r, c, dr, dc, disc) >= n <==> Line(b, r + dr, c + dc, dr, dc, disc, n)
    decreases n
  {
    if n > 0 && At(b, r + dr, c + dc) == disc {
      CountIsLine(b, r + dr, c + dc, dr, dc, disc, n - 1);
    }
  }

  /** Two neighbours on a line holding the same disc are on the same run. */
  lemma SameRun(b: Grid, r: int, c: int, dr: int, dc: int, disc: int)
    requires IsStep(dr, dc) && disc >= 0
    requires At(b, r, c) == disc && At(b, r + dr, c + dc) == disc
    ensures Contiguous(b, r, c, dr, dc, disc) == Contiguous(b, r + dr, c + dc, dr, dc, disc)
  {
    assert r + dr + -dr == r && c + dc + -dc == c;
  }

  /** Walk back from a cell to the start of its run: a run of `n` cells is a line. */
  lemma {:induction false} RunIsLine(b: Grid, r: int, c: int, dr: int, dc: int, disc: int, n: nat)
      returns (r': int, c': int)
    requires IsStep(dr, dc) && disc >= 0 && At(b, r, c) == disc
    requires Contiguous(b, r, c, dr, dc, disc) >= n
    ensures Line(b, r', c', dr, dc, disc, n)
    decreases CountFrom(b, r, c, -dr, -dc, disc)
  {
    if CountFrom(b, r, c, -dr, -dc, disc) == 0 {
      r', c' := r, c;
      if n > 0 {
        CountIsLine(b, r, c, dr, dc, disc, n - 1);
      }
    } else {
      SameRun(b, r - dr, c - dc, dr, dc, disc);
      r', c' := RunIsLine(b, r - dr, c - dc, dr, dc, disc, n);
    }
  }

  lemma WinIsLine(b: Grid, length: nat, r: int, c: int)
    requires OnBoard(b, r, c) && WinsAt(b, length, r, c)
    ensures HasLine(b, length, b[r][c])
  {
    var dr, dc := WinningDirection(b, length, r, c);
    var r', c' := RunIsLine(b, r, c, dr, dc, b[r][c], length);
    assert Line(b, r', c', dr, dc, b[r][c], length);
  }

  lemma LineIsWin(b: Grid, length: nat, r: int, c: int, dr: int, dc: int, disc: int)
    requires length >= 1 && 1 <= disc <= 2 && IsDirection(dr, dc) && Line(b, r, c, dr, dc, disc, length)
    ensures OnBoard(b, r, c) && b[r][c] == disc && WinsAt(b, length, r, c)
  {
    CountIsLine(b, r, c, dr, dc, disc, length - 1);
  }

  /** The scan decides the rule: it finds nobody exactly when no seat has a line, and whom
      it finds has one. */
  lemma ScanDecidesLines(b: Grid, length: nat)
    requires length >= 1
    ensures WinnerOnBoard(b, length).None? <==> !HasLine(b, length, 1) && !HasLine(b, length, 2)
    ensures WinnerOnBoard(b, length).Some? ==> HasLine(b, length, WinnerOnBoard(b, length).value + 1)
  {
    if WinnerOnBoard(b, length).Some? {
      var i, j := SomeMeansCell(b, length);
      WinIsLine(b, length, i, j);
    } else {
      NoneMeansNobody(b, length);
      forall disc | 1 <= disc <= 2
        ensures !HasLine(b, length, disc)
      {
        if HasLine(b, length, disc) {
          var r, c, dr, dc :| IsDirection(dr, dc) && Line(b, r, c, dr, dc, disc, length);
          LineIsWin(b, length, r, c, dr, dc, disc);
        }
      }
    }
  }

  // ---------------------------------------------------------------------------
  // The fast check refines the scan
  // ---------------------------------------------------------------------------

  /** `next` is `b` with one empty cell filled. */
  ghost predicate Fills(b: Grid, next: Grid, row: nat, column: nat, disc: int) {
    && OnBoard(b, row, column) && b[row][column] == EMPTY_CELL && 1 <= disc <= 2
    && forall r, c :: At(next, r, c) == if r == row && c == column then disc else At(b, r, c)
  }

  lemma WithDiscFills(b: Grid, row: nat, column: nat, disc: int)
    requires OnBoard(b, row, column) && b[row][column] == EMPTY_CELL && 1 <= disc <= 2
    ensures Fills(b, WithDisc(b, row, column, disc), row, column, disc)
  {
  }

  /** Walking from (r, c) along a step, the run on the new board either passes the new disc,
      so both are on one run, or is the run of the old board. */
  lemma {:induction false} RunPassesNewDisc(
      b: Grid, next: Grid, row: nat, column: nat, disc: int, r: int, c: int, dr: int, dc: int, mine: int)
    requires Fills(b, next, row, column, disc) && IsStep(dr, dc)
    requires At(next, r, c) == mine && mine >= 1
    ensures (mine == disc && Contiguous(next, r, c, dr, dc, mine) == Contiguous(next, row, column, dr, dc, mine))
         || ((r, c) != (row, column) && CountFrom(next, r, c, dr, dc, mine) == CountFrom(b, r, c, dr, dc, mine))
    decreases StepsLeft(next, r + dr, c + dc, dr, dc)
  {
    if (r, c) == (row, column) {
    } else if At(next, r + dr, c + dc) == mine {
      SameRun(next, r, c, dr, dc, mine);
      RunPassesNewDisc(b, next, row, column, disc, r + dr, c + dc, dr, dc, mine);
    } else {
      assert At(b, r + dr, c + dc) != mine;
    }
  }

  lemma NegatedContiguous(b: Grid, r: int, c: int, dr: int, dc: int, disc: int)
    requires IsStep(dr, dc) && disc >= 0
    ensures Contiguous(b, r, c, -dr, -dc, disc) == Contiguous(b, r, c, dr, dc, disc)
  {
    assert -(-dr) == dr && -(-dc) == dc;
  }

  /** A run of the new board is the new disc's own, or was there before. */
  lemma RunIsNewOrOld(b: Grid, next: Grid, row: nat, column: nat, disc: int, r: int, c: int, dr: int, dc: int, mine: int)
    requires Fills(b, next, row, column, disc) && IsStep(dr, dc)
    requires At(next, r, c) == mine && mine >= 1
    ensures var run := Contiguous(next, r, c, dr, dc, mine);
            || (mine == disc && Contiguous(next, row, column, dr, dc, disc) == run)
            || (At(b, r, c) == mine && Contiguous(b, r, c, dr, dc, mine) == run)
  {
    RunPassesNewDisc(b, next, row, column, disc, r, c, dr, dc, mine);
    RunPassesNewDisc(b, next, row, column, disc, r, c, -dr, -dc, mine);
    NegatedContiguous(next, r, c, dr, dc, mine);
    NegatedContiguous(next, row, column, dr, dc, mine);
  }

  /** The direction a win runs along. */
  lemma WinningDirection(b: Grid, length: int, r: int, c: int) returns (dr: int, dc: int)
    requires OnBoard(b, r, c) && WinsAt(b, length, r, c)
    ensures IsDirection(dr, dc) && Contiguous(b, r, c, dr, dc, b[r][c]) >= length
  {
    dr, dc := 1, -1;
    if Contiguous(b, r, c, 1, 0, b[r][c]) >= length {
      dr, dc := 1, 0;
    } else if Contiguous(b, r, c, 0, 1, b[r][c]) >= length {
      dr, dc := 0, 1;
    } else if Contiguous(b, r, c, 1, 1, b[r][c]) >= length {
      dr, dc := 1, 1;
    }
  }

  lemma AlongWins(b: Grid, length: int, r: int, c: int, dr: int, dc: int)
    requires OnBoard(b, r, c) && b[r][c] != EMPTY_CELL && IsDirection(dr, dc)
    requires Contiguous(b, r, c, dr, dc, b[r][c]) >= length
    ensures WinsAt(b, length, r, c)
  {
  }

  lemma NewWinIsTheNewDiscs(b: Grid, next: Grid, length: int, row: nat, column: nat, disc: int, r: int, c: int)
    requires Fills(b, next, row, column, disc)
    requires OnBoard(next, r, c) && WinsAt(next, length, r, c)
    requires NobodyWins(b, length)
    ensures next[r][c] == disc && OnBoard(next, row, column) && WinsAt(next, length, row, column)
  {
    var dr, dc := WinningDirection(next, length, r, c);
    RunIsNewOrOld(b, next, row, column, disc, r, c, dr, dc, next[r][c]);
    assert At(next, row, column) == disc;
    if At(b, r, c) == next[r][c] && Contiguous(b, r, c, dr, dc, next[r][c]) >= length {
      AlongWins(b, length, r, c, dr, dc);
    } else {
      AlongWins(next, length, row, column, dr, dc);
    }
  }

  /** On any board without a winner, after any disc on any empty cell, looking only at that
      cell finds whom scanning the whole board finds. */
  lemma FastCheckRefinesScan(b: Grid, length: int, row: nat, column: nat, disc: int)
    requires OnBoard(b, row, column) && b[row][column] == EMPTY_CELL && 1 <= disc <= 2
    requires WinnerOnBoard(b, length).None?
    ensures var next := WithDisc(b, row, column, disc);
            WinnerFromLastMove(next, length, row, column) == WinnerOnBoard(next, length)
  {
    var next := WithDisc(b, row, column, disc);
    NoneMeansNobody(b, length);
    if WinnerOnBoard(next, length).Some? {
      WithDiscFills(b, row, column, disc);
      var i, j := SomeMeansCell(next, length);
      NewWinIsTheNewDiscs(b, next, length, row, column, disc, i, j);
    } else {
      NoneMeansNobody(next, length);
    }
  }

  /** How a result is announced. */
  function Announced(result: Option<RuleResult>): seq<Event> {
    match result
    case None => []
    case Some(Win(seat)) => [WinnerDetected(seat)]
    case Some(Draw) => [GameDrawn]
  }

  /** A drop fills the lowest empty cell of its column with the seat's disc and changes no
      other cell. It reports the result that asking the next state gives, in its result and
      its events, and passes the turn exactly when there is none. */
  ghost predicate DropTells(s: State, length: int, seat: Seat, column: Column, d: Dropped) {
    && WinnerOnBoard(s.board, length).None? && 0 <= seat <= 1
    && d.events != [] && d.events[0].DiscDropped?
    && var row := d.events[0].row;
    && d.events == [DiscDropped(seat, column, row)] + Announced(d.result)
    && row >= 0 && Fills(s.board, d.state.board, row, column, seat + 1)
    && (forall r :: row < r < |s.board| ==> s.board[r][column] != EMPTY_CELL)
    && d.result == ResultOf(d.state, length)
    && d.state.currentSeat == (if d.result.Some? then seat else 1 - seat)
    && (d.result.Some? && d.result.value.Win? ==> d.result == Some(Win(seat)))
  }

  lemma TransitionTellsTheResult(s: State, length: int, seat: Seat, column: Column)
    requires ApplyAction(s, length, seat, column).Ok?
    ensures DropTells(s, length, seat, column, ApplyAction(s, length, seat, column).value)
  {
    var row := DropRowFrom(s.board, column, |s.board| - 1).value;
    WithDiscFills(s.board, row, column, DiscFor(seat));
    FastCheckRefinesScan(s.board, length, row, column, DiscFor(seat));
  }

  lemma LineHasAWinner(b: Grid, length: nat, disc: int) returns (r: int, c: int)
    requires length >= 1 && 1 <= disc <= 2 && HasLine(b, length, disc)
    ensures OnBoard(b, r, c) && b[r][c] == disc && WinsAt(b, length, r, c)
  {
    var r', c', dr, dc :| IsDirection(dr, dc) && Line(b, r', c', dr, dc, disc, length);
    LineIsWin(b, length, r', c', dr, dc, disc);
    r, c := r', c';
  }

  lemma NewLinesAreTheNewDiscs(b: Grid, next: Grid, length: nat, row: nat, column: nat, seat: TableSeat, disc: int)
    requires length >= 1 && 1 <= disc <= 2 && Fills(b, next, row, column, seat + 1) && NobodyWins(b, length) && HasLine(next, length, disc)
    ensures disc == seat + 1
  {
    var r, c := LineHasAWinner(next, length, disc);
    NewWinIsTheNewDiscs(b, next, length, row, column, seat + 1, r, c);
  }

  lemma OnlyNewLines(b: Grid, next: Grid, length: nat, row: nat, column: nat, seat: TableSeat, disc: int)
    requires length >= 1 && 1 <= disc <= 2 && Fills(b, next, row, column, seat + 1) && NobodyWins(b, length)
    requires WinnerOnBoard(next, length).Some? ==> WinnerOnBoard(next, length) == Some(seat)
    ensures HasLine(next, length, disc) <==> WinnerOnBoard(next, length) == Some(disc - 1)
  {
    if HasLine(next, length, disc) {
      NewLinesAreTheNewDiscs(b, next, length, row, column, seat, disc);
      ScanDecidesLines(next, length);
    } else if WinnerOnBoard(next, length).Some? {
      ScanDecidesLines(next, length);
    }
  }

  lemma ResultIsTheScans(s: State, length: int, seat: Seat)
    ensures ResultOf(s, length) == Some(Win(seat)) <==> WinnerOnBoard(s.board, length) == Some(seat)
  {
  }

  /** A disc leaves the other seat without a line: only the seat that moved can have one, and
      it has won if it has. */
  lemma OnlyTheMoverLinesUp(s: State, length: nat, seat: TableSeat, column: Column, d: Dropped, disc: int)
    requires length >= 1 && DropTells(s, length, seat, column, d) && 1 <= disc <= 2
    ensures HasLine(d.state.board, length, disc) <==> d.result == Some(Win(disc - 1))
  {
    NoneMeansNobody(s.board, length);
    ResultIsTheScans(d.state, length, disc - 1);
    ResultIsTheScans(d.state, length, seat);
    OnlyNewLines(s.board, d.state.board, length, d.events[0].row, column, seat, disc);
  }

  /** A drop is accepted exactly from the seat to move, into a column of the board whose top
      cell is empty, while neither seat has a line; and each refusal says what was wrong,
      the first thing first. */
  lemma LegalMeans(s: State, length: nat, seat: Seat, column: Column)
    requires length >= 1
    ensures var over := HasLine(s.board, length, 1) || HasLine(s.board, length, 2) || forall r, c :: OnBoard(s.board, r, c) ==> s.board[r][c] != EMPTY_CELL;
            var open := column < |s.board[0]| && s.board[0][column] == EMPTY_CELL;
            var refusal := ValidateAction(s, length, seat, column);
            && (refusal == Some(GameFinished) <==> over)
            && (refusal == Some(WrongPlayer) <==> !over && seat != s.currentSeat)
            && (refusal == Some(IllegalAction) <==> !over && seat == s.currentSeat && !open)
            && (refusal.None? <==> !over && seat == s.currentSeat && open)
  {
    ScanDecidesLines(s.board, length);
  }
}

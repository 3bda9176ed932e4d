/** What every game of Connect 4 keeps: gravity, alternation, and an end within the board. */
module Connect4Runs {
  import opened Wrappers
  import opened Folds
  import opened Games
  import opened Connect4

  /** Nothing floats: below a disc there are only discs. */
  predicate Settled(b: Grid) {
    forall r, below, c :: 0 <= r < below < |b| && 0 <= c < |b[0]| && b[r][c] != EMPTY_CELL ==> b[below][c] != EMPTY_CELL
  }

  function InRow(row: seq<int>, disc: int): nat {
    if row == [] then 0 else InRow(row[..|row| - 1], disc) + (if row[|row| - 1] == disc then 1 else 0)
  }

  function InRows(rows: seq<seq<int>>, disc: int): nat {
    if rows == [] then 0 else InRows(rows[..|rows| - 1], disc) + InRow(rows[|rows| - 1], disc)
  }

  lemma {:induction false} RowUpdate(row: seq<int>, c: nat, disc: int, d: int)
    requires c < |row| && row[c] != disc
    ensures InRow(row[c := disc], d) == InRow(row, d) + (if d == disc then 1 else 0) - (if row[c] == d then 1 else 0)
    decreases |row|
  {
    var n := |row| - 1;
    if c == n {
      assert row[c := disc][..n] == row[..n];
    } else {
      assert row[c := disc][..n] == row[..n][c := disc];
      RowUpdate(row[..n], c, disc, d);
    }
  }

  lemma {:induction false} RowsUpdate(rows: seq<seq<int>>, r: nat, c: nat, disc: int, d: int)
    requires r < |rows| && c < |rows[r]| && rows[r][c] != disc
    ensures InRows(rows[r := rows[r][c := disc]], d)
         == InRows(rows, d) + (if d == disc then 1 else 0) - (if rows[r][c] == d then 1 else 0)
    decreases |rows|
  {
    var n := |rows| - 1;
    if r == n {
      assert rows[r := rows[r][c := disc]][..n] == rows[..n];
      RowUpdate(rows[r], c, disc, d);
    } else {
      assert rows[r := rows[r][c := disc]][..n] == rows[..n][r := rows[r][c := disc]];
      RowsUpdate(rows[..n], r, c, disc, d);
    }
  }

  lemma {:induction false} RowHolds(row: seq<int>)
    ensures InRow(row, 1) + InRow(row, 2) <= |row|
  {
    if row != [] {
      RowHolds(row[..|row| - 1]);
    }
  }

  lemma {:induction false} RowsHold(rows: seq<seq<int>>, width: nat)
    requires forall i :: 0 <= i < |rows| ==> |rows[i]| == width
    ensures InRows(rows, 1) + InRows(rows, 2) <= |rows| * width
  {
    if rows != [] {
      RowHolds(rows[|rows| - 1]);
      RowsHold(rows[..|rows| - 1], width);
      assert (|rows| - 1) * width + width == |rows| * width;
    }
  }

  lemma {:induction false} RowIsFull(row: seq<int>)
    requires forall c :: 0 <= c < |row| ==> 0 <= row[c] <= 2
    ensures InRow(row, 1) + InRow(row, 2) == |row| <==> forall c :: 0 <= c < |row| ==> row[c] != EMPTY_CELL
  {
    if row != [] {
      var n := |row| - 1;
      RowIsFull(row[..n]);
      RowHolds(row[..n]);
      assert forall c :: 0 <= c < n ==> row[..n][c] == row[c];
    }
  }

  /** A board has as many discs as cells exactly when it has no empty cell. */
  lemma {:induction false} RowsAreFull(rows: seq<seq<int>>, width: nat)
    requires forall r :: 0 <= r < |rows| ==> |rows[r]| == width && forall c :: 0 <= c < width ==> 0 <= rows[r][c] <= 2
    ensures InRows(rows, 1) + InRows(rows, 2) == |rows| * width
       <==> forall r, c :: 0 <= r < |rows| && 0 <= c < width ==> rows[r][c] != EMPTY_CELL
  {
    if rows != [] {
      var n := |rows| - 1;
      RowsAreFull(rows[..n], width);
      RowsHold(rows[..n], width);
      RowIsFull(rows[n]);
      RowHolds(rows[n]);
      assert n * width + width == |rows| * width;
      assert forall r :: 0 <= r < n ==> rows[..n][r] == rows[r];
    }
  }

  /** A seat has won exactly when it has a line. */
  ghost predicate LinesWin(s: State, length: nat) {
    forall seat: TableSeat :: ResultOf(s, length) == Some(Win(seat)) <==> HasLine(s.board, length, seat + 1)
  }

  /** After `k` drops: settled columns, the discs of `k` alternating drops, and the seat that
      moves next, or, at the end, the seat that moved last. */
  ghost predicate AfterDrops(s: State, length: int, k: nat) {
    && Settled(s.board)
    && InRows(s.board, 1) == (k + 1) / 2 && InRows(s.board, 2) == k / 2
    && s.currentSeat == (if ResultOf(s, length).None? then k % 2 else (k + 1) % 2)
  }

  function Drop(s: State, length: int, column: Column): Result<State, Error> {
    var d :- ApplyAction(s, length, s.currentSeat, column);
    Ok(d.state)
  }

  function Dropper(length: int): (State, Column) -> Result<State, Error> {
    (s: State, column: Column) => Drop(s, length, column)
  }

  lemma DropSettles(b: Grid, column: nat, disc: int)
    requires Settled(b) && column < |b[0]| && b[0][column] == EMPTY_CELL && 1 <= disc <= 2
    ensures DropRowFrom(b, column, |b| - 1).Some?
    ensures Settled(WithDisc(b, DropRowFrom(b, column, |b| - 1).value, column, disc))
  {
  }

  lemma DiscCounts(b: Grid, row: nat, column: nat, seat: TableSeat)
    requires OnBoard(b, row, column) && b[row][column] == EMPTY_CELL
    ensures InRows(WithDisc(b, row, column, seat + 1), 1) == InRows(b, 1) + 1 - seat
    ensures InRows(WithDisc(b, row, column, seat + 1), 2) == InRows(b, 2) + seat
  {
    RowsUpdate(b, row, column, seat + 1, 1);
    RowsUpdate(b, row, column, seat + 1, 2);
  }

  /** The board after a drop. */
  function Dropped(b: Grid, column: nat, seat: TableSeat): Grid
    requires column < |b[0]| && b[0][column] == EMPTY_CELL
  {
    WithDisc(b, DropRowFrom(b, column, |b| - 1).value, column, DiscFor(seat))
  }

  lemma DropBoard(b: Grid, column: nat, seat: TableSeat)
    requires Settled(b) && column < |b[0]| && b[0][column] == EMPTY_CELL
    ensures var next := Dropped(b, column, seat);
            && Settled(next) && |next| == |b| && |next[0]| == |b[0]|
            && InRows(next, 1) == InRows(b, 1) + 1 - seat
            && InRows(next, 2) == InRows(b, 2) + seat
  {
    DropSettles(b, column, DiscFor(seat));
    DiscCounts(b, DropRowFrom(b, column, |b| - 1).value, column, seat);
  }

  lemma DropTurns(s: State, length: int, column: Column)
    requires Drop(s, length, column).Ok?
    ensures ResultOf(s, length).None?
    ensures column < |s.board[0]| && s.board[0][column] == EMPTY_CELL
    ensures var next := Drop(s, length, column).value;
            && next.board == Dropped(s.board, column, s.currentSeat)
            && next.currentSeat == (if ResultOf(next, length).Some? then s.currentSeat else 1 - s.currentSeat)
  {
    TransitionTellsTheResult(s, length, s.currentSeat, column);
  }

  lemma DropKeeps(s: State, length: int, column: Column, k: nat)
    requires AfterDrops(s, length, k) && Drop(s, length, column).Ok?
    ensures AfterDrops(Drop(s, length, column).value, length, k + 1)
    ensures |Drop(s, length, column).value.board| == |s.board| && |Drop(s, length, column).value.board[0]| == |s.board[0]|
    ensures ResultOf(s, length).None?
  {
    DropTurns(s, length, column);
    DropBoard(s.board, column, s.currentSeat);
  }

  lemma {:induction false} EmptyRow(width: nat, disc: int)
    requires disc != EMPTY_CELL
    ensures InRow(seq(width, _ => EMPTY_CELL), disc) == 0
  {
    if width > 0 {
      EmptyRow(width - 1, disc);
      assert seq(width, _ => EMPTY_CELL)[..width - 1] == seq(width - 1, _ => EMPTY_CELL);
    }
  }

  lemma {:induction false} EmptyRows(rows: seq<seq<int>>, disc: int)
    requires forall r :: 0 <= r < |rows| ==> InRow(rows[r], disc) == 0
    ensures InRows(rows, disc) == 0
  {
    if rows != [] {
      EmptyRows(rows[..|rows| - 1], disc);
    }
  }

  /** Before the first drop nobody has won: no board has fewer than 16 cells, and one empty
      cell is enough for the match not to be drawn. */
  lemma NothingYet(c: Config)
    requires ConfigOk(c)
    ensures ResultOf(InitialState(c), c.connectLength).None?
    ensures AfterDrops(InitialState(c), c.connectLength, 0)
  {
    var s := InitialState(c);
    if WinnerOnBoard(s.board, c.connectLength).Some? {
      var i, j := SomeMeansCell(s.board, c.connectLength);
    }
    assert s.board[0][0] == EMPTY_CELL;
    forall disc, r | 1 <= disc <= 2 && 0 <= r < |s.board|
      ensures InRow(s.board[r], disc) == 0
    {
      EmptyRow(c.columns, disc);
    }
    EmptyRows(s.board, 1);
    EmptyRows(s.board, 2);
  }

  /** A match that is not over has a column to drop in. */
  lemma SomebodyCanDrop(s: State, length: int)
    requires Settled(s.board) && ResultOf(s, length).None?
    ensures LegalActions(s, length, s.currentSeat) != []
  {
    var r, c :| 0 <= r < |s.board| && 0 <= c < |s.board[0]| && s.board[r][c] == EMPTY_CELL;
    assert s.board[0][c] == EMPTY_CELL;
    OpenColumnsAre(s, 0, c);
  }

  lemma {:induction false} DropsKeepLines(s: State, length: nat, columns: seq<Column>)
    requires length >= 1 && LinesWin(s, length) && Fold(Dropper(length), s, columns).Ok?
    ensures LinesWin(Fold(Dropper(length), s, columns).value, length)
    decreases |columns|
  {
    if columns != [] {
      var d := ApplyAction(s, length, s.currentSeat, columns[0]).value;
      TransitionTellsTheResult(s, length, s.currentSeat, columns[0]);
      forall seat: TableSeat
        ensures ResultOf(d.state, length) == Some(Win(seat)) <==> HasLine(d.state.board, length, seat + 1)
      {
        OnlyTheMoverLinesUp(s, length, s.currentSeat, columns[0], d, seat + 1);
      }
      DropsKeepLines(d.state, length, columns[1..]);
    }
  }

  lemma {:induction false} DropsKeep(s: State, length: int, columns: seq<Column>, k: nat)
    requires AfterDrops(s, length, k) && Fold(Dropper(length), s, columns).Ok?
    ensures AfterDrops(Fold(Dropper(length), s, columns).value, length, k + |columns|)
    ensures |Fold(Dropper(length), s, columns).value.board| == |s.board|
    ensures |Fold(Dropper(length), s, columns).value.board[0]| == |s.board[0]|
    decreases |columns|
  {
    if columns != [] {
      DropKeeps(s, length, columns[0], k);
      DropsKeep(Drop(s, length, columns[0]).value, length, columns[1..], k + 1);
    }
  }

  /** Every game: columns stay gravity-filled, the seats' discs alternate, the turn follows
      their count until the game is decided, and there are never more drops than cells. */
  lemma EveryGameAlternates(c: Config, columns: seq<Column>)
    requires ConfigOk(c) && Fold(Dropper(c.connectLength), InitialState(c), columns).Ok?
    ensures AfterDrops(Fold(Dropper(c.connectLength), InitialState(c), columns).value, c.connectLength, |columns|)
    ensures |columns| <= c.rows * c.columns
  {
    NothingYet(c);
    DropsKeep(InitialState(c), c.connectLength, columns, 0);
    var last := Fold(Dropper(c.connectLength), InitialState(c), columns).value;
    RowsHold(last.board, c.columns);
  }

  /** How a game stands after `k` drops on a board of `cells` cells. */
  ghost predicate DecidedRightly(s: State, length: nat, k: nat, cells: int) {
    var result := ResultOf(s, length);
    && (forall seat: TableSeat :: result == Some(Win(seat)) <==> HasLine(s.board, length, seat + 1))
    && (result.Some? && result.value.Win? ==> result.value.seat == (k + 1) % 2)
    && (result == Some(Draw) <==> k == cells && !HasLine(s.board, length, 1) && !HasLine(s.board, length, 2))
    && (result.None? ==> LegalActions(s, length, s.currentSeat) != [])
  }

  lemma DropsDecide(s: State, length: nat, k: nat)
    requires length >= 1 && AfterDrops(s, length, k) && LinesWin(s, length)
    requires ResultOf(s, length).Some? && ResultOf(s, length).value.Win? ==> ResultOf(s, length).value.seat == s.currentSeat
    ensures DecidedRightly(s, length, k, |s.board| * |s.board[0]|)
  {
    ScanDecidesLines(s.board, length);
    RowsAreFull(s.board, |s.board[0]|);
    if ResultOf(s, length).None? {
      SomebodyCanDrop(s, length);
    }
  }

  lemma {:induction false} WinnerHoldsTheTable(s: State, length: int, columns: seq<Column>)
    requires ResultOf(s, length).None? && Fold(Dropper(length), s, columns).Ok?
    ensures var last := Fold(Dropper(length), s, columns).value;
            ResultOf(last, length).Some? && ResultOf(last, length).value.Win? ==> ResultOf(last, length).value.seat == last.currentSeat
    decreases |columns|
  {
    if columns != [] {
      var next := Drop(s, length, columns[0]).value;
      TransitionTellsTheResult(s, length, s.currentSeat, columns[0]);
      if ResultOf(next, length).None? {
        WinnerHoldsTheTable(next, length, columns[1..]);
      } else {
        assert columns[1..] == [];
      }
    }
  }

  /** Every game stands after its drops as the rules of Connect 4 say: won by a seat exactly if
      that seat has a line, and it is then the seat that moved last; drawn exactly if there
      were as many drops as cells and neither seat has a line; and otherwise the seat to move
      has a column to drop in. */
  lemma EveryGameIsDecidedRightly(c: Config, columns: seq<Column>)
    requires 4 <= c.rows <= 20 && 4 <= c.columns <= 20 && c.connectLength >= 2 && (c.connectLength <= c.rows || c.connectLength <= c.columns)
    requires Fold(Dropper(c.connectLength), InitialState(c), columns).Ok?
    ensures DecidedRightly(Fold(Dropper(c.connectLength), InitialState(c), columns).value, c.connectLength, |columns|, c.rows * c.columns)
  {
    var start := InitialState(c);
    NothingYet(c);
    ScanDecidesLines(start.board, c.connectLength);
    DropsKeepLines(start, c.connectLength, columns);
    DropsKeep(start, c.connectLength, columns, 0);
    WinnerHoldsTheTable(start, c.connectLength, columns);
    DropsDecide(Fold(Dropper(c.connectLength), start, columns).value, c.connectLength, |columns|);
  }
}

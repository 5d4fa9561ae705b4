/** The move list: moves paired into numbered White/Black rows, and the highlighted cell. */
module MoveHistory {
  import opened Wrappers

  datatype MoveRow = MoveRow(moveNumber: int, whiteMove: string, blackMove: Option<string>)

  /**
   * Row k holds move number k + 1, White's move moves[2k] and Black's reply
   * moves[2k + 1], or null when the list ends on White's move.
   */
  ghost predicate RowAt(row: MoveRow, k: nat, moves: seq<string>) {
    row.moveNumber == k + 1 && 2 * k < |moves| && row.whiteMove == moves[2 * k] &&
    row.blackMove == (if 2 * k + 1 < |moves| then Some(moves[2 * k + 1]) else None)
  }

  /** One row per pair of moves (the last possibly incomplete), each as RowAt says. */
  ghost predicate IsPairing(rows: seq<MoveRow>, moves: seq<string>) {
    |rows| == (|moves| + 1) / 2 && forall k :: 0 <= k < |rows| ==> RowAt(rows[k], k, moves)
  }

  /** The moves the rows show, read row by row, White then Black. */
  function Unpair(rows: seq<MoveRow>): seq<string> {
    if rows == [] then []
    else Unpair(rows[..|rows| - 1]) + RowMoves(rows[|rows| - 1])
  }

  function RowMoves(row: MoveRow): seq<string> {
    [row.whiteMove] + (if row.blackMove.Some? then [row.blackMove.value] else [])
  }

  lemma UnpairAppend(rows: seq<MoveRow>, row: MoveRow)
    ensures Unpair(rows + [row]) == Unpair(rows) + RowMoves(row)
  {
    assert (rows + [row])[..|rows|] == rows;
  }

  /** Only the last row of an odd-length list lacks Black's move. */
  lemma OnlyLastRowIncomplete(rows: seq<MoveRow>, moves: seq<string>, k: nat)
    requires IsPairing(rows, moves) && k < |rows|
    ensures rows[k].blackMove.None? <==> k == |rows| - 1 && |moves| % 2 == 1
  {
    assert RowAt(rows[k], k, moves);
  }

  /** The loop that groups the moves in pairs for display. */
  method PairMoves(moves: seq<string>) returns (rows: seq<MoveRow>)
    ensures IsPairing(rows, moves)
    ensures Unpair(rows) == moves
    ensures forall k :: 0 <= k < |rows| ==>
              (rows[k].blackMove.None? <==> k == |rows| - 1 && |moves| % 2 == 1)
  {
    rows := [];
    var i := 0;
    while i < |moves|
      invariant i == 2 * |rows| && i <= |moves| + 1
      invariant i > |moves| ==> i == |moves| + 1
      invariant forall k :: 0 <= k < |rows| ==> RowAt(rows[k], k, moves)
      invariant Unpair(rows) == moves[..if i <= |moves| then i else |moves|]
    {
      var row := MoveRow(i / 2 + 1, moves[i], if i + 1 < |moves| then Some(moves[i + 1]) else None);
      assert RowAt(row, |rows|, moves);
      UnpairAppend(rows, row);
      if i + 1 < |moves| {
        assert moves[..i + 2] == moves[..i] + RowMoves(row);
      } else {
        assert moves[..i + 1] == moves[..i] + RowMoves(row);
      }
      rows := rows + [row];
      i := i + 2;
    }
    assert moves[..|moves|] == moves;
    forall k | 0 <= k < |rows|
      ensures rows[k].blackMove.None? <==> k == |rows| - 1 && |moves| % 2 == 1
    {
      OnlyLastRowIncomplete(rows, moves, k);
    }
  }

  /** A cell of the table: the White or the Black half of a row. */
  datatype Cell = Cell(rowIndex: nat, black: bool)

  /** The highlight test of the two cells of a row. */
  predicate Highlighted(c: Cell, currentMoveIndex: int) {
    if c.black then c.rowIndex * 2 + 1 == currentMoveIndex else c.rowIndex * 2 == currentMoveIndex
  }

  /** At most one cell of the whole table is highlighted. */
  lemma AtMostOneHighlighted(c1: Cell, c2: Cell, currentMoveIndex: int)
    requires Highlighted(c1, currentMoveIndex) && Highlighted(c2, currentMoveIndex)
    ensures c1 == c2
  {
  }

  /** The move a cell shows, if the row exists and the cell is not empty. */
  function Shown(rows: seq<MoveRow>, c: Cell): Option<string> {
    if c.rowIndex >= |rows| then None
    else if c.black then rows[c.rowIndex].blackMove
    else Some(rows[c.rowIndex].whiteMove)
  }

  /**
   * When the current index points into the list, the highlighted cell is the
   * one showing the current move.
   */
  lemma HighlightShowsCurrentMove(rows: seq<MoveRow>, moves: seq<string>, currentMoveIndex: int)
    requires IsPairing(rows, moves)
    requires 0 <= currentMoveIndex < |moves|
    ensures var c := Cell(currentMoveIndex / 2, currentMoveIndex % 2 == 1);
            Highlighted(c, currentMoveIndex) && Shown(rows, c) == Some(moves[currentMoveIndex])
  {
    var k := currentMoveIndex / 2;
    assert k < |rows|;
    assert RowAt(rows[k], k, moves);
  }

  /**
   * The index a click on a cell selects: a White cell always selects 2k, a
   * Black cell selects 2k + 1 only when it shows a (non-empty) move.
   */
  function ClickedIndex(rows: seq<MoveRow>, c: Cell): Option<int>
    requires c.rowIndex < |rows|
  {
    if !c.black then Some(c.rowIndex * 2)
    else
      var b := rows[c.rowIndex].blackMove;
      if b.Some? && b.value != "" then Some(c.rowIndex * 2 + 1) else None
  }

  /**
   * A click selects the index of the very move its cell shows, and that index
   * is inside the list, so navigating there is never refused.
   */
  lemma ClickSelectsShownMove(rows: seq<MoveRow>, moves: seq<string>, c: Cell)
    requires IsPairing(rows, moves)
    requires c.rowIndex < |rows|
    ensures ClickedIndex(rows, c).Some? ==>
              var j := ClickedIndex(rows, c).value;
              0 <= j < |moves| && Shown(rows, c) == Some(moves[j]) && Highlighted(c, j)
    ensures ClickedIndex(rows, c).None? ==> c.black && (Shown(rows, c).None? || Shown(rows, c) == Some(""))
  {
    assert RowAt(rows[c.rowIndex], c.rowIndex, moves);
  }
}

/**
 * The position evaluators. Only the material count is implemented; the piece
 * values are an uninterpreted table `values` (one value per piece type) and
 * the unused game-phase parameter is dropped.
 */
module Evaluation {
  import opened Wrappers
  import opened ChessRules

  /** A piece's contribution: its value for White, minus its value for Black. */
  function Signed(p: Piece, values: PieceType -> int): int {
    if p.colour == White then values(p.kind) else -values(p.kind)
  }

  function CellScore(cell: Option<Piece>, values: PieceType -> int): int {
    if cell.Some? then Signed(cell.value, values) else 0
  }

  /** The material of one rank, accumulated left to right. */
  function RowScore(row: seq<Option<Piece>>, values: PieceType -> int): int {
    if row == [] then 0 else RowScore(row[..|row| - 1], values) + CellScore(row[|row| - 1], values)
  }

  /** The material of the whole board, accumulated rank by rank. */
  function BoardScore(board: Board, values: PieceType -> int): int {
    if board == [] then 0 else BoardScore(board[..|board| - 1], values) + RowScore(board[|board| - 1], values)
  }

  /**
   * `evaluatePieceCount`: the nested loops over the ranks and files of the
   * game's board that add each White piece's value and subtract each Black
   * piece's.
   */
  method EvaluatePieceCount<P>(rules: Rules<P>, game: P, values: PieceType -> int) returns (evaluation: int)
    ensures evaluation == BoardScore(rules.board(game), values)
  {
    evaluation := 0;
    var board := rules.board(game);
    var i := 0;
    while i < |board|
      invariant 0 <= i <= |board|
      invariant evaluation == BoardScore(board[..i], values)
    {
      var j := 0;
      while j < |board[i]|
        invariant 0 <= j <= |board[i]|
        invariant evaluation == BoardScore(board[..i], values) + RowScore(board[i][..j], values)
      {
        var piece := board[i][j];
        if piece.Some? {
          var pieceValue := values(piece.value.kind);
          evaluation := evaluation + if piece.value.colour == White then pieceValue else -pieceValue;
        }
        assert board[i][..j + 1][..j] == board[i][..j];
        j := j + 1;
      }
      assert board[i][..j] == board[i];
      assert board[..i + 1][..i] == board[..i];
      i := i + 1;
    }
    assert board[..i] == board;
  }

  // ---------------------------------------------------------------------------
  // The pieces on the board, in reading order, and their signed sum.

  function Occupants(row: seq<Option<Piece>>): seq<Piece> {
    if row == [] then []
    else Occupants(row[..|row| - 1]) + (if row[|row| - 1].Some? then [row[|row| - 1].value] else [])
  }

  function Pieces(board: Board): seq<Piece> {
    if board == [] then [] else Pieces(board[..|board| - 1]) + Occupants(board[|board| - 1])
  }

  function PieceSum(ps: seq<Piece>, values: PieceType -> int): int {
    if ps == [] then 0 else PieceSum(ps[..|ps| - 1], values) + Signed(ps[|ps| - 1], values)
  }

  /** The total value of the pieces of one colour. */
  function SideTotal(ps: seq<Piece>, c: Colour, values: PieceType -> int): int {
    if ps == [] then 0
    else SideTotal(ps[..|ps| - 1], c, values) + (if ps[|ps| - 1].colour == c then values(ps[|ps| - 1].kind) else 0)
  }

  lemma {:induction false} PieceSumAppend(a: seq<Piece>, b: seq<Piece>, values: PieceType -> int)
    ensures PieceSum(a + b, values) == PieceSum(a, values) + PieceSum(b, values)
    decreases |b|
  {
    if b == [] {
      assert a + b == a;
    } else {
      assert (a + b)[..|a + b| - 1] == a + b[..|b| - 1];
      PieceSumAppend(a, b[..|b| - 1], values);
    }
  }

  lemma {:induction false} RowScoreIsPieceSum(row: seq<Option<Piece>>, values: PieceType -> int)
    ensures RowScore(row, values) == PieceSum(Occupants(row), values)
    decreases |row|
  {
    if row != [] {
      var init := row[..|row| - 1];
      RowScoreIsPieceSum(init, values);
      var last := if row[|row| - 1].Some? then [row[|row| - 1].value] else [];
      PieceSumAppend(Occupants(init), last, values);
      if last != [] {
        assert PieceSum(last, values) == PieceSum([], values) + Signed(last[0], values);
      }
    }
  }

  /** The evaluation is the signed sum of the pieces on the board, whatever their squares. */
  lemma {:induction false} BoardScoreIsPieceSum(board: Board, values: PieceType -> int)
    ensures BoardScore(board, values) == PieceSum(Pieces(board), values)
    decreases |board|
  {
    if board != [] {
      BoardScoreIsPieceSum(board[..|board| - 1], values);
      RowScoreIsPieceSum(board[|board| - 1], values);
      PieceSumAppend(Pieces(board[..|board| - 1]), Occupants(board[|board| - 1]), values);
    }
  }

  lemma {:induction false} PieceSumIsWhiteMinusBlack(ps: seq<Piece>, values: PieceType -> int)
    ensures PieceSum(ps, values) == SideTotal(ps, White, values) - SideTotal(ps, Black, values)
    decreases |ps|
  {
    if ps != [] {
      PieceSumIsWhiteMinusBlack(ps[..|ps| - 1], values);
    }
  }

  /** The material evaluation is White's total piece value minus Black's. */
  lemma WhiteMinusBlack(board: Board, values: PieceType -> int)
    ensures BoardScore(board, values) ==
            SideTotal(Pieces(board), White, values) - SideTotal(Pieces(board), Black, values)
  {
    BoardScoreIsPieceSum(board, values);
    PieceSumIsWhiteMinusBlack(Pieces(board), values);
  }

  /** A board without pieces evaluates to 0. */
  lemma {:induction false} EmptyBoardIsZero(board: Board, values: PieceType -> int)
    requires forall i, j :: 0 <= i < |board| && 0 <= j < |board[i]| ==> board[i][j].None?
    ensures BoardScore(board, values) == 0
    decreases |board|
  {
    if board != [] {
      var init := board[..|board| - 1];
      assert forall i :: 0 <= i < |init| ==> init[i] == board[i];
      EmptyBoardIsZero(init, values);
      EmptyRowIsZero(board[|board| - 1], values);
    }
  }

  lemma {:induction false} EmptyRowIsZero(row: seq<Option<Piece>>, values: PieceType -> int)
    requires forall j :: 0 <= j < |row| ==> row[j].None?
    ensures RowScore(row, values) == 0
    decreases |row|
  {
    if row != [] {
      EmptyRowIsZero(row[..|row| - 1], values);
    }
  }

  // ---------------------------------------------------------------------------
  // Colour swap.

  function SwapPiece(p: Piece): Piece {
    Piece(p.kind, Opponent(p.colour))
  }

  function SwapCell(cell: Option<Piece>): Option<Piece> {
    if cell.Some? then Some(SwapPiece(cell.value)) else None
  }

  function SwapRow(row: seq<Option<Piece>>): (r: seq<Option<Piece>>)
    ensures |r| == |row| && forall j :: 0 <= j < |row| ==> r[j] == SwapCell(row[j])
  {
    seq(|row|, j requires 0 <= j < |row| => SwapCell(row[j]))
  }

  /** The same board with every piece's colour exchanged. */
  function SwapColours(board: Board): (r: Board)
    ensures |r| == |board| && forall i :: 0 <= i < |board| ==> r[i] == SwapRow(board[i])
  {
    seq(|board|, i requires 0 <= i < |board| => SwapRow(board[i]))
  }

  lemma {:induction false} SwapRowNegates(row: seq<Option<Piece>>, values: PieceType -> int)
    ensures RowScore(SwapRow(row), values) == -RowScore(row, values)
    decreases |row|
  {
    if row != [] {
      var init := row[..|row| - 1];
      SwapRowNegates(init, values);
      assert SwapRow(row)[..|row| - 1] == SwapRow(init);
    }
  }

  /** Exchanging the colour of every piece negates the evaluation. */
  lemma {:induction false} SwapColoursNegates(board: Board, values: PieceType -> int)
    ensures BoardScore(SwapColours(board), values) == -BoardScore(board, values)
    decreases |board|
  {
    if board != [] {
      var init := board[..|board| - 1];
      SwapColoursNegates(init, values);
      SwapRowNegates(board[|board| - 1], values);
      assert SwapColours(board)[..|board| - 1] == SwapColours(init);
    }
  }

  // ---------------------------------------------------------------------------
  // Placement independence.

  /** The list without its element at j. */
  function RemoveAt(b: seq<Piece>, j: nat): seq<Piece>
    requires j < |b|
  {
    b[..j] + b[j + 1..]
  }

  lemma RemoveAtSum(b: seq<Piece>, j: nat, values: PieceType -> int)
    requires j < |b|
    ensures PieceSum(b, values) == PieceSum(RemoveAt(b, j), values) + Signed(b[j], values)
  {
    var left, x, right := b[..j], b[j], b[j + 1..];
    calc {
      PieceSum(b, values);
      == { SplitAt(b, j); }
      PieceSum((left + [x]) + right, values);
      == { PieceSumAppend(left + [x], right, values); }
      PieceSum(left + [x], values) + PieceSum(right, values);
      == { PieceSumSnoc(left, x, values); }
      PieceSum(left, values) + Signed(x, values) + PieceSum(right, values);
      == { PieceSumAppend(left, right, values); }
      PieceSum(left + right, values) + Signed(x, values);
    }
  }

  lemma SplitAt(b: seq<Piece>, j: nat)
    requires j < |b|
    ensures b == (b[..j] + [b[j]]) + b[j + 1..]
  {
  }

  lemma PieceSumSnoc(a: seq<Piece>, x: Piece, values: PieceType -> int)
    ensures PieceSum(a + [x], values) == PieceSum(a, values) + Signed(x, values)
  {
    assert (a + [x])[..|a|] == a;
  }

  lemma RemoveAtMultiset(b: seq<Piece>, j: nat)
    requires j < |b|
    ensures multiset(b) == multiset(RemoveAt(b, j)) + multiset{b[j]}
  {
    assert b == b[..j] + [b[j]] + b[j + 1..];
  }

  lemma MultisetCancel(a: multiset<Piece>, b: multiset<Piece>, x: Piece)
    requires a + multiset{x} == b + multiset{x}
    ensures a == b
  {
    forall y: Piece ensures a[y] == b[y] {
      assert (a + multiset{x})[y] == (b + multiset{x})[y];
    }
  }

  /** The signed sum depends only on which pieces there are, not on their order. */
  lemma {:induction false} PieceSumPermutation(a: seq<Piece>, b: seq<Piece>, values: PieceType -> int)
    requires multiset(a) == multiset(b)
    ensures PieceSum(a, values) == PieceSum(b, values)
    decreases |a|
  {
    if a == [] {
      assert |b| == |multiset(b)| == 0;
    } else {
      var x := a[|a| - 1];
      var init := a[..|a| - 1];
      assert a == init + [x];
      assert multiset(a) == multiset(init) + multiset{x};
      assert x in multiset(b);
      var j :| 0 <= j < |b| && b[j] == x;
      RemoveAtMultiset(b, j);
      MultisetCancel(multiset(init), multiset(RemoveAt(b, j)), x);
      PieceSumPermutation(init, RemoveAt(b, j), values);
      RemoveAtSum(b, j, values);
    }
  }

  /**
   * Two boards holding the same pieces (the same multiset of type and colour),
   * on whatever squares, evaluate alike.
   */
  lemma PlacementIndependent(b1: Board, b2: Board, values: PieceType -> int)
    requires multiset(Pieces(b1)) == multiset(Pieces(b2))
    ensures BoardScore(b1, values) == BoardScore(b2, values)
  {
    BoardScoreIsPieceSum(b1, values);
    BoardScoreIsPieceSum(b2, values);
    PieceSumPermutation(Pieces(b1), Pieces(b2), values);
  }

  // ---------------------------------------------------------------------------
  // Placing one piece.

  lemma {:induction false} RowScoreUpdate(row: seq<Option<Piece>>, j: nat, cell: Option<Piece>, values: PieceType -> int)
    requires j < |row|
    ensures RowScore(row[j := cell], values) == RowScore(row, values) - CellScore(row[j], values) + CellScore(cell, values)
    decreases |row|
  {
    var n := |row| - 1;
    if j < n {
      RowScoreUpdate(row[..n], j, cell, values);
      assert row[j := cell][..n] == row[..n][j := cell];
    } else {
      assert row[j := cell][..n] == row[..n];
    }
  }

  lemma {:induction false} BoardScoreUpdate(board: Board, i: nat, row: seq<Option<Piece>>, values: PieceType -> int)
    requires i < |board|
    ensures BoardScore(board[i := row], values) == BoardScore(board, values) - RowScore(board[i], values) + RowScore(row, values)
    decreases |board|
  {
    var n := |board| - 1;
    if i < n {
      BoardScoreUpdate(board[..n], i, row, values);
      assert board[i := row][..n] == board[..n][i := row];
    } else {
      assert board[i := row][..n] == board[..n];
    }
  }

  /** The board with `p` put on the square at rank index i, file index j. */
  function Place(board: Board, i: nat, j: nat, p: Piece): Board
    requires i < |board| && j < |board[i]|
  {
    board[i := board[i][j := Some(p)]]
  }

  /**
   * Putting a White piece on an empty square raises the evaluation by its
   * value; putting a Black one lowers it by the same amount.
   */
  lemma PlacePiece(board: Board, i: nat, j: nat, p: Piece, values: PieceType -> int)
    requires i < |board| && j < |board[i]| && board[i][j].None?
    ensures p.colour == White ==> BoardScore(Place(board, i, j, p), values) == BoardScore(board, values) + values(p.kind)
    ensures p.colour == Black ==> BoardScore(Place(board, i, j, p), values) == BoardScore(board, values) - values(p.kind)
  {
    RowScoreUpdate(board[i], j, Some(p), values);
    BoardScoreUpdate(board, i, board[i][j := Some(p)], values);
  }

  // ---------------------------------------------------------------------------
  // The evaluators that are declared but not written: each returns its
  // initial `evaluation` of 0.

  function EvaluateExample<P>(game: P): int { 0 }

  function EvaluatePiecePosition<P>(game: P): int { 0 }

  function EvaluateMobility<P>(game: P): int { 0 }

  function EvaluatePawnStructure<P>(game: P): int { 0 }

  /** The four unwritten evaluators score every position 0, for either side. */
  lemma UnwrittenEvaluatorsAreZero<P>(game: P)
    ensures EvaluateExample(game) == 0 && EvaluatePiecePosition(game) == 0
    ensures EvaluateMobility(game) == 0 && EvaluatePawnStructure(game) == 0
  {
  }
}

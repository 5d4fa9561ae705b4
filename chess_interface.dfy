/**
 * The main chess screen: a game against the engine with a navigable move
 * history. The React state cells become the fields of one object; the
 * effects that ask the engine for a move are not modelled (see README).
 */
module Interface {
  import opened Wrappers
  import opened ChessRules

  /** A promotion piece JavaScript treats as absent (undefined or the empty string). */
  predicate IsFalsy(promotion: Option<string>) {
    promotion.None? || promotion.value == ""
  }

  /** The piece on the origin square is a pawn and the destination is on its last rank. */
  predicate PawnReachesLastRank(piece: Option<Piece>, to: string) {
    piece.Some? && piece.value.kind == Pawn && |to| > 1 &&
    ((piece.value.colour == White && to[1] == '8') || (piece.value.colour == Black && to[1] == '1'))
  }

  /**
   * The promotion default of `makeAMove`: a pawn reaching the last rank
   * without a promotion piece promotes to a queen; nothing else is touched.
   */
  function WithPromotionDefault(piece: Option<Piece>, m: MoveRequest): (r: MoveRequest)
    ensures r.from == m.from && r.to == m.to
    ensures PawnReachesLastRank(piece, m.to) ==> !IsFalsy(r.promotion)
    ensures r != m ==> PawnReachesLastRank(piece, m.to) && IsFalsy(m.promotion) && r.promotion == Some("q")
    ensures !PawnReachesLastRank(piece, m.to) || !IsFalsy(m.promotion) ==> r == m
  {
    if PawnReachesLastRank(piece, m.to) && IsFalsy(m.promotion) then MoveRequest(m.from, m.to, Some("q"))
    else m
  }

  /** Applying the default twice is the same as applying it once. */
  lemma PromotionDefaultIdempotent(piece: Option<Piece>, m: MoveRequest)
    ensures WithPromotionDefault(piece, WithPromotionDefault(piece, m)) == WithPromotionDefault(piece, m)
  {
  }

  /**
   * The game-over message: none while the game goes on; on checkmate "You
   * Win!" or "You Lose!" by whether the winner is the side the board is
   * oriented for; "Game Drawn!" on a draw; "Game Over!" otherwise.
   */
  function GameOverMessage<P>(rules: Rules<P>, game: P, orientation: Colour): (r: Option<string>)
    ensures r.None? <==> !rules.isGameOver(game)
    ensures r == Some("You Win!") <==>
              rules.isGameOver(game) && rules.isCheckmate(game) && rules.turn(game) != orientation
    ensures r == Some("You Lose!") <==>
              rules.isGameOver(game) && rules.isCheckmate(game) && rules.turn(game) == orientation
    ensures r == Some("Game Drawn!") <==>
              rules.isGameOver(game) && !rules.isCheckmate(game) && rules.isDraw(game)
    ensures r == Some("Game Over!") <==>
              rules.isGameOver(game) && !rules.isCheckmate(game) && !rules.isDraw(game)
  {
    if !rules.isGameOver(game) then None
    else if rules.isCheckmate(game) then
      // the side that delivered mate is the side not to move
      var winner := Opponent(rules.turn(game));
      var isPlayerWinner := (winner == White && orientation == White) || (winner == Black && orientation == Black);
      Some(if isPlayerWinner then "You Win!" else "You Lose!")
    else if rules.isDraw(game) then Some("Game Drawn!")
    else Some("Game Over!")
  }

  class ChessInterface<P(!new)> {
    const rules: Rules<P>
    var game: P
    var orientation: Colour
    var moveHistory: seq<string>
    var currentMoveIndex: int
    var evaluation: int
    var isViewingHistory: bool
    var showContinueButton: bool

    /**
     * The index stays within [-1, |moveHistory| - 1], the history is a legal
     * game, and the displayed game is the history replayed up to the index.
     */
    ghost predicate Valid()
      reads this
    {
      NotationReplays(rules) &&
      -1 <= currentMoveIndex < |moveHistory| &&
      Replay(rules, moveHistory).Some? &&
      Replay(rules, moveHistory[..currentMoveIndex + 1]) == Some(game)
    }

    /** The initial state: a new game seen from White, empty history, evaluation 2. */
    constructor (rules: Rules<P>)
      requires NotationReplays(rules)
      ensures Valid()
      ensures this.rules == rules && game == rules.start && orientation == White
      ensures moveHistory == [] && currentMoveIndex == -1 && evaluation == 2
      ensures !isViewingHistory && !showContinueButton
    {
      this.rules := rules;
      game := rules.start;
      orientation := White;
      moveHistory := [];
      currentMoveIndex := -1;
      evaluation := 2;
      isViewingHistory := false;
      showContinueButton := false;
    }

    /**
     * `makeAMove`: plays the move (with the promotion default) on a copy of
     * the displayed game; on success the history keeps the moves up to the
     * current index, gains the new move, and the index points at it.
     */
    method MakeAMove(move: MoveRequest) returns (ok: bool)
      requires Valid()
      modifies this
      ensures Valid()
      ensures var result := rules.move(old(game), Request(WithPromotionDefault(rules.get(old(game), move.from), move)));
              ok == result.Some? &&
              (ok ==> game == result.value.position &&
                      moveHistory == old(moveHistory)[..old(currentMoveIndex) + 1] + [result.value.san] &&
                      currentMoveIndex == |moveHistory| - 1)
      ensures ok && old(currentMoveIndex) == |old(moveHistory)| - 1 ==>
                |moveHistory| == |old(moveHistory)| + 1 && moveHistory[..|old(moveHistory)|] == old(moveHistory)
      ensures !ok ==> unchanged(this)
      ensures orientation == old(orientation) && evaluation == old(evaluation)
      ensures isViewingHistory == old(isViewingHistory) && showContinueButton == old(showContinueButton)
    {
      var piece := rules.get(game, move.from);
      var request := WithPromotionDefault(piece, move);
      var result := rules.move(game, Request(request));
      if result.None? {
        return false;
      }
      var newHistory := moveHistory;
      if currentMoveIndex < |moveHistory| - 1 {
        newHistory := newHistory[..currentMoveIndex + 1];
      }
      newHistory := newHistory + [result.value.san];
      assert rules.move(game, Notation(result.value.san)) == result;
      ReplayExtend(rules, moveHistory[..currentMoveIndex + 1], game, result.value.san);
      assert newHistory == moveHistory[..currentMoveIndex + 1] + [result.value.san];
      assert newHistory[..|newHistory|] == newHistory;
      game := result.value.position;
      moveHistory := newHistory;
      currentMoveIndex := |newHistory| - 1;
      ok := true;
    }

    /**
     * `onDrop`: refused while viewing an earlier position; otherwise the
     * dropped piece is moved, asking for a queen should it promote.
     */
    method OnDrop(sourceSquare: string, targetSquare: string) returns (ok: bool)
      requires Valid()
      modifies this
      ensures Valid()
      ensures old(isViewingHistory) && old(currentMoveIndex) != |old(moveHistory)| - 1 ==>
                !ok && unchanged(this)
      ensures !(old(isViewingHistory) && old(currentMoveIndex) != |old(moveHistory)| - 1) ==>
                var result := rules.move(old(game), Request(MoveRequest(sourceSquare, targetSquare, Some("q"))));
                ok == result.Some? &&
                (ok ==> game == result.value.position &&
                        moveHistory == old(moveHistory)[..old(currentMoveIndex) + 1] + [result.value.san] &&
                        currentMoveIndex == |moveHistory| - 1) &&
                (!ok ==> unchanged(this))
      ensures orientation == old(orientation) && evaluation == old(evaluation)
      ensures isViewingHistory == old(isViewingHistory) && showContinueButton == old(showContinueButton)
    {
      if isViewingHistory && currentMoveIndex != |moveHistory| - 1 {
        return false;
      }
      ok := MakeAMove(MoveRequest(sourceSquare, targetSquare, Some("q")));
    }

    /** `resetBoard`: a new game, no history, evaluation 0, both flags cleared. */
    method ResetBoard()
      requires Valid()
      modifies this
      ensures Valid()
      ensures game == rules.start && moveHistory == [] && currentMoveIndex == -1 && evaluation == 0
      ensures !isViewingHistory && !showContinueButton
      ensures orientation == old(orientation)
    {
      game := rules.start;
      moveHistory := [];
      currentMoveIndex := -1;
      evaluation := 0;
      isViewingHistory := false;
      showContinueButton := false;
    }

    /** `flipBoard`: the user takes the other side; nothing else changes. */
    method FlipBoard()
      requires Valid()
      modifies this`orientation
      ensures Valid()
      ensures orientation == Opponent(old(orientation))
    {
      orientation := Opponent(orientation);
    }

    /**
     * `navigateMove`: moves the index by `direction` when the result stays in
     * [-1, |moveHistory|), replays the history up to it, and marks whether an
     * earlier position is shown. The continue button then shows exactly when
     * an earlier position is shown and the engine is the side to move.
     */
    method NavigateMove(direction: int)
      requires Valid()
      modifies this
      ensures Valid()
      ensures moveHistory == old(moveHistory) && orientation == old(orientation) && evaluation == old(evaluation)
      ensures var newIndex := old(currentMoveIndex) + direction;
              if -1 <= newIndex < |moveHistory| then
                currentMoveIndex == newIndex &&
                Replay(rules, moveHistory[..newIndex + 1]) == Some(game) &&
                (isViewingHistory <==> newIndex < |moveHistory| - 1) &&
                (showContinueButton <==> newIndex < |moveHistory| - 1 && rules.turn(game) != orientation)
              else
                unchanged(this)
    {
      var newIndex := currentMoveIndex + direction;
      if !(-1 <= newIndex < |moveHistory|) {
        return;
      }
      ReplayPrefix(rules, moveHistory, newIndex + 1);
      var replayed := ReplayMoves(rules, moveHistory, newIndex + 1);
      var newGame := replayed.value;
      var viewingHistory := newIndex < |moveHistory| - 1;
      var hideContinue := (viewingHistory && rules.turn(newGame) == orientation) || newIndex == |moveHistory| - 1;
      currentMoveIndex := newIndex;
      game := newGame;
      isViewingHistory := viewingHistory;
      if hideContinue {
        showContinueButton := false;
      } else {
        showContinueButton := true;
      }
    }

    /** The move list's `onSelectMove(index)`: navigate by the difference to the current index. */
    method SelectMove(index: int)
      requires Valid()
      modifies this
      ensures Valid()
      ensures moveHistory == old(moveHistory)
      ensures orientation == old(orientation) && evaluation == old(evaluation)
      ensures -1 <= index < |moveHistory| ==>
                currentMoveIndex == index && Replay(rules, moveHistory[..index + 1]) == Some(game) &&
                (isViewingHistory <==> index < |moveHistory| - 1) &&
                (showContinueButton <==> index < |moveHistory| - 1 && rules.turn(game) != orientation)
      ensures !(-1 <= index < |moveHistory|) ==> unchanged(this)
    {
      NavigateMove(index - currentMoveIndex);
    }

    /**
     * `continueFromHere`: leaves history viewing and reports whether the
     * engine is now to move (and so would be asked for a move).
     */
    method ContinueFromHere() returns (engineToMove: bool)
      requires Valid()
      modifies this`isViewingHistory, this`showContinueButton
      ensures Valid()
      ensures !isViewingHistory && !showContinueButton
      ensures engineToMove <==> rules.turn(game) != orientation
    {
      isViewingHistory := false;
      showContinueButton := false;
      engineToMove := rules.turn(game) != orientation;
    }
  }
}

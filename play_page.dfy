/**
 * The simpler playing page: the user against a random mover, with a move
 * list whose buttons jump to stored positions. Position strings (FEN) are
 * the positions they serialise.
 */
module PlayPage {
  import opened Wrappers
  import opened ChessRules
  import Engine

  /** Whether the side to move is the user's. */
  predicate UsersTurn(userIsWhite: bool, toMove: Colour) {
    toMove == (if userIsWhite then White else Black)
  }

  /** The move list, the stored positions and the index of the displayed one. */
  datatype Histories<P> = Histories(moves: seq<string>, positions: seq<P>, index: int)

  /**
   * The history update of `makeAMove` as written: the move list always grows,
   * the positions are cut after the current index before the new one is added.
   */
  function AfterMove<P>(h: Histories<P>, san: string, p: P): (r: Histories<P>)
    requires 0 <= h.index < |h.positions|
    ensures |r.moves| == |h.moves| + 1 && r.moves[..|h.moves|] == h.moves && r.moves[|h.moves|] == san
    ensures |r.positions| == h.index + 2 && r.positions[..h.index + 1] == h.positions[..h.index + 1]
    ensures r.positions[h.index + 1] == p && r.index == h.index + 1 == |r.positions| - 1
  {
    Histories(h.moves + [san], h.positions[..h.index + 1] + [p], h.index + 1)
  }

  /** The button of moves[k] calls `goToMove(k + 1)`. */
  function ButtonTarget(k: nat): nat { k + 1 }

  /** Every move has a stored position after it, and the index points at a stored position. */
  predicate InStep<P>(h: Histories<P>) {
    |h.positions| == |h.moves| + 1 && 0 <= h.index < |h.positions|
  }

  /**
   * The defect: after going back one move and playing a different one, the
   * move list still holds the abandoned move. The new move's button targets a
   * position that does not exist, and the abandoned move's button loads the
   * position after the new move.
   */
  lemma AsWrittenFallsOutOfStep()
    ensures var h := Histories(["e4", "e5"], [0, 1, 2], 1);
            var r := AfterMove(h, "d5", 3);
            InStep(h) && !InStep(r) &&
            r.moves == ["e4", "e5", "d5"] && r.positions == [0, 1, 3] &&
            ButtonTarget(2) >= |r.positions| &&
            r.moves[1] == "e5" && r.positions[ButtonTarget(1)] == 3
  {
    var h := Histories(["e4", "e5"], [0, 1, 2], 1);
    var r := AfterMove(h, "d5", 3);
    assert r.moves == ["e4", "e5"] + ["d5"];
    assert r.positions == [0, 1] + [3];
  }

  /**
   * The defect for every input: from histories in step, the update as written
   * keeps them in step exactly when the displayed position is the last one;
   * after any step back, the next move breaks them.
   */
  lemma AsWrittenInStepOnlyAtEnd<P>(h: Histories<P>, san: string, p: P)
    requires InStep(h)
    ensures InStep(AfterMove(h, san, p)) <==> h.index == |h.moves|
  {
  }

  /** The evidently intended update: the move list is cut at the same point as the positions. */
  function AfterMoveInStep<P>(h: Histories<P>, san: string, p: P): (r: Histories<P>)
    requires InStep(h)
    ensures InStep(r)
    ensures r.moves == h.moves[..h.index] + [san] && r.positions == h.positions[..h.index + 1] + [p]
    ensures r.index == h.index + 1 == |r.positions| - 1
    ensures forall k :: 0 <= k < |r.moves| ==> ButtonTarget(k) < |r.positions|
  {
    Histories(h.moves[..h.index] + [san], h.positions[..h.index + 1] + [p], h.index + 1)
  }

  /** Each stored position is the one reached by the moves before it. */
  ghost predicate Tracks<P>(rules: Rules<P>, h: Histories<P>) {
    InStep(h) && forall k :: 0 <= k < |h.positions| ==> Replay(rules, h.moves[..k]) == Some(h.positions[k])
  }

  /**
   * With the intended update, every move's button keeps loading the position
   * reached right after that move.
   */
  lemma AfterMoveInStepTracks<P(!new)>(rules: Rules<P>, h: Histories<P>, m: MoveInput)
    requires NotationReplays(rules)
    requires Tracks(rules, h)
    requires rules.move(h.positions[h.index], m).Some?
    ensures var a := rules.move(h.positions[h.index], m).value;
            Tracks(rules, AfterMoveInStep(h, a.san, a.position))
  {
    var a := rules.move(h.positions[h.index], m).value;
    var r := AfterMoveInStep(h, a.san, a.position);
    forall k | 0 <= k < |r.positions|
      ensures Replay(rules, r.moves[..k]) == Some(r.positions[k])
    {
      if k <= h.index {
        assert r.moves[..k] == h.moves[..k];
        assert r.positions[k] == h.positions[k];
      } else {
        assert r.moves[..k] == h.moves[..h.index] + [a.san];
        assert Replay(rules, h.moves[..h.index]) == Some(h.positions[h.index]);
        assert rules.move(h.positions[h.index], Notation(a.san)) == Some(a);
        ReplayExtend(rules, h.moves[..h.index], h.positions[h.index], a.san);
      }
    }
  }

  class PlayPage<P(!new)> {
    const rules: Rules<P>
    var game: P
    var userIsWhite: bool
    var moveHistory: seq<string>
    var positionHistory: seq<P>
    var currentMoveIndex: int
    var showCheckmate: bool

    /** The index points at a stored position, and that position is the one displayed. */
    ghost predicate Valid()
      reads this
    {
      0 <= currentMoveIndex < |positionHistory| && positionHistory[currentMoveIndex] == game
    }

    function State(): Histories<P>
      reads this
    {
      Histories(moveHistory, positionHistory, currentMoveIndex)
    }

    /**
     * The effect of one call of `makeAMove(m)`: on a legal move the game
     * advances and the histories are updated as written; on an illegal one
     * nothing changes; either way a checkmate on the board raises the dialog.
     */
    twostate predicate Played(m: MoveInput)
      reads this
    {
      var result := rules.move(old(game), m);
      0 <= old(currentMoveIndex) < |old(positionHistory)| &&
      (result.Some? ==> game == result.value.position &&
                        State() == AfterMove(old(State()), result.value.san, result.value.position)) &&
      (result.None? ==> game == old(game) && State() == old(State())) &&
      userIsWhite == old(userIsWhite) &&
      showCheckmate == (old(showCheckmate) || (rules.isGameOver(game) && rules.isCheckmate(game)))
    }

    /** The initial state: a new game, the user plays White, one stored position. */
    constructor (rules: Rules<P>)
      ensures Valid()
      ensures this.rules == rules && game == rules.start && userIsWhite
      ensures moveHistory == [] && positionHistory == [rules.start] && currentMoveIndex == 0 && !showCheckmate
    {
      this.rules := rules;
      game := rules.start;
      userIsWhite := true;
      moveHistory := [];
      positionHistory := [rules.start];
      currentMoveIndex := 0;
      showCheckmate := false;
    }

    /** `makeAMove`: returns the played move's notation, or None (null) when illegal. */
    method MakeAMove(m: MoveInput) returns (result: Option<string>)
      requires Valid()
      modifies this
      ensures Valid()
      ensures Played(m)
      ensures result.Some? <==> rules.move(old(game), m).Some?
      ensures result.Some? ==> result.value == rules.move(old(game), m).value.san
    {
      var gameCopy := game;
      var applied := rules.move(gameCopy, m);
      if applied.Some? {
        gameCopy := applied.value.position;
        game := gameCopy;
        moveHistory := moveHistory + [applied.value.san];
        positionHistory := positionHistory[..currentMoveIndex + 1] + [gameCopy];
        currentMoveIndex := currentMoveIndex + 1;
        result := Some(applied.value.san);
      } else {
        result := None;
      }
      if rules.isGameOver(gameCopy) && rules.isCheckmate(gameCopy) {
        showCheckmate := true;
      }
    }

    /**
     * `makeEngineMove`: nothing when there is no legal move or the game is
     * over; otherwise plays the legal move at a random index `u` selects.
     */
    method MakeEngineMove(u: real) returns (chosen: Option<string>)
      requires Valid()
      requires 0.0 <= u < 1.0
      modifies this
      ensures Valid()
      ensures chosen.None? <==> |rules.moves(old(game))| == 0 || rules.isGameOver(old(game))
      ensures chosen.None? ==> unchanged(this)
      ensures chosen.Some? ==>
                chosen.value in rules.moves(old(game)) &&
                chosen.value == rules.moves(old(game))[Engine.RandomIndex(u, |rules.moves(old(game))|)] &&
                Played(Notation(chosen.value))
    {
      var possibleMoves := rules.moves(game);
      if |possibleMoves| == 0 || rules.isGameOver(game) {
        return None;
      }
      var randomIndex := Engine.RandomIndex(u, |possibleMoves|);
      var move := possibleMoves[randomIndex];
      var _ := MakeAMove(Notation(move));
      chosen := Some(move);
    }

    /**
     * `onDrop`: refused, with nothing changed, unless the user is to move;
     * otherwise the drop is played, asking for a queen should it promote.
     */
    method OnDrop(sourceSquare: string, targetSquare: string) returns (ok: bool)
      requires Valid()
      modifies this
      ensures Valid()
      ensures !UsersTurn(old(userIsWhite), rules.turn(old(game))) ==> !ok && unchanged(this)
      ensures UsersTurn(old(userIsWhite), rules.turn(old(game))) ==>
                var m := Request(MoveRequest(sourceSquare, targetSquare, Some("q")));
                Played(m) && (ok <==> rules.move(old(game), m).Some?)
    {
      if (userIsWhite && rules.turn(game) == Black) || (!userIsWhite && rules.turn(game) == White) {
        return false;
      }
      var move := MakeAMove(Request(MoveRequest(sourceSquare, targetSquare, Some("q"))));
      ok := move.Some?;
    }

    /**
     * `goToMove`: displays the stored position `index` and points the index
     * at it; neither history changes. A missing position makes loading fail
     * before any state is set.
     */
    method GoToMove(index: int) returns (ok: bool)
      requires Valid()
      modifies this`game, this`currentMoveIndex
      ensures Valid()
      ensures ok <==> 0 <= index < |positionHistory|
      ensures ok ==> currentMoveIndex == index && game == positionHistory[index]
      ensures !ok ==> unchanged(this)
    {
      if !(0 <= index < |positionHistory|) {
        return false;
      }
      game := positionHistory[index];
      currentMoveIndex := index;
      ok := true;
    }

    /** `resetGame`: a new game, no moves, only the start position stored, dialog closed. */
    method ResetGame()
      requires Valid()
      modifies this
      ensures Valid()
      ensures game == rules.start && moveHistory == [] && positionHistory == [rules.start]
      ensures currentMoveIndex == 0 && !showCheckmate && userIsWhite == old(userIsWhite)
    {
      game := rules.start;
      moveHistory := [];
      positionHistory := [rules.start];
      currentMoveIndex := 0;
      showCheckmate := false;
    }

    /** The "Switch Color" button. */
    method SwitchColor()
      requires Valid()
      modifies this`userIsWhite
      ensures Valid()
      ensures userIsWhite == !old(userIsWhite)
    {
      userIsWhite := !userIsWhite;
    }
  }
}

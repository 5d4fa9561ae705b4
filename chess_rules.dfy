/**
 * The chess rules library (chess.js) as the front-ends and the engine use it.
 * Positions are an opaque type parameter P; every query and command of the
 * library is a total function held in a Rules<P> record, so the model states
 * what the code does with the answers without knowing how they are computed.
 * A position string (FEN) is identified with the position it serialises.
 */
module ChessRules {
  import opened Wrappers

  datatype Colour = White | Black

  /** The other side. */
  function Opponent(c: Colour): (r: Colour)
    ensures r != c
    ensures r.White? <==> c.Black?
  {
    if c == White then Black else White
  }

  datatype PieceType = Pawn | Knight | Bishop | Rook | Queen | King

  datatype Piece = Piece(kind: PieceType, colour: Colour)

  /** `board()` of chess.js: ranks of squares, each holding a piece or null. */
  type Board = seq<seq<Option<Piece>>>

  /** A move given by its squares, as the board widget produces it. */
  datatype MoveRequest = MoveRequest(from: string, to: string, promotion: Option<string>)

  /** What `move()` accepts: a square-based request or a move in algebraic notation. */
  datatype MoveInput = Request(request: MoveRequest) | Notation(san: string)

  /** A successful `move()`: the position it leads to and the move's notation. */
  datatype Applied<P> = Applied(position: P, san: string)

  /** An entry of `moves({verbose: true})`. */
  datatype VerboseMove = VerboseMove(from: string, to: string, san: string)

  datatype Rules<!P> = Rules(
    start: P,                                  // new Chess()
    turn: P -> Colour,                         // turn()
    get: (P, string) -> Option<Piece>,         // get(square)
    move: (P, MoveInput) -> Option<Applied<P>>, // move(m); None when illegal
    moves: P -> seq<string>,                   // moves()
    verboseMoves: P -> seq<VerboseMove>,       // moves({verbose: true})
    board: P -> Board,                         // board()
    isGameOver: P -> bool,
    isCheckmate: P -> bool,
    isDraw: P -> bool)

  /**
   * Playing a move again by the notation chess.js reported for it reaches
   * the same position: the one property of the library the navigation
   * invariants rely on.
   */
  ghost predicate NotationReplays<P(!new)>(rules: Rules<P>) {
    forall p: P, m: MoveInput :: rules.move(p, m).Some? ==>
      rules.move(p, Notation(rules.move(p, m).value.san)) == rules.move(p, m)
  }

  /** The position reached by playing `sans` in order from the start, if all are legal. */
  function Replay<P>(rules: Rules<P>, sans: seq<string>): Option<P>
    decreases |sans|
  {
    if sans == [] then Some(rules.start)
    else
      match Replay(rules, sans[..|sans| - 1])
      case None => None
      case Some(p) =>
        match rules.move(p, Notation(sans[|sans| - 1]))
        case None => None
        case Some(a) => Some(a.position)
  }

  /** A legal move list stays legal when cut short. */
  lemma {:induction false} ReplayPrefix<P>(rules: Rules<P>, sans: seq<string>, k: nat)
    requires k <= |sans|
    requires Replay(rules, sans).Some?
    ensures Replay(rules, sans[..k]).Some?
    decreases |sans|
  {
    if k < |sans| {
      var shorter := sans[..|sans| - 1];
      assert Replay(rules, shorter).Some?;
      ReplayPrefix(rules, shorter, k);
      assert shorter[..k] == sans[..k];
    } else {
      assert sans[..k] == sans;
    }
  }

  /** Extending a replayed list by one legal move replays to that move's position. */
  lemma ReplayExtend<P>(rules: Rules<P>, sans: seq<string>, p: P, san: string)
    requires Replay(rules, sans) == Some(p)
    requires rules.move(p, Notation(san)).Some?
    ensures Replay(rules, sans + [san]) == Some(rules.move(p, Notation(san)).value.position)
  {
    assert (sans + [san])[..|sans|] == sans;
  }

  /**
   * The replay loop of the history navigation: plays the first `count`
   * moves of `history` on a fresh game, one after the other, and stops
   * with None at the first move the library rejects.
   */
  method ReplayMoves<P>(rules: Rules<P>, history: seq<string>, count: nat) returns (r: Option<P>)
    requires count <= |history|
    ensures r == Replay(rules, history[..count])
  {
    var game := rules.start;
    var i := 0;
    while i < count
      invariant 0 <= i <= count
      invariant Replay(rules, history[..i]) == Some(game)
    {
      assert history[..i + 1][..i] == history[..i];
      var applied := rules.move(game, Notation(history[i]));
      if applied.None? {
        assert history[..count][..i + 1] == history[..i + 1];
        ReplayStaysFailed(rules, history[..count], i + 1);
        return None;
      }
      game := applied.value.position;
      i := i + 1;
    }
    assert history[..count] == history[..i];
    r := Some(game);
  }

  /** Once a move of the list is rejected, every longer prefix is rejected too. */
  lemma {:induction false} ReplayStaysFailed<P>(rules: Rules<P>, sans: seq<string>, k: nat)
    requires k <= |sans|
    requires Replay(rules, sans[..k]).None?
    ensures Replay(rules, sans).None?
    decreases |sans| - k
  {
    if k < |sans| {
      assert sans[..k + 1][..k] == sans[..k];
      ReplayStaysFailed(rules, sans, k + 1);
    } else {
      assert sans[..k] == sans;
    }
  }
}

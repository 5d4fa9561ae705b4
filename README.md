# Chess engine dispatcher and game front-ends, modelled in Dafny

This project models the working logic of a chess web application built around
the chess.js rules library:

- the **engine catalogue and dispatcher** (`Engines`, `ChessEngine`): lookup of an
  engine by id, construction that fails on an unknown id, `setEngine` that ignores
  an unknown id, the stored search depth, and dispatch to the active random
  evaluator and random move picker;
- the **material evaluator** `evaluatePieceCount` (a signed sum over the board) and
  the four evaluators that are declared but return 0;
- the **main chess screen** (`chess-interface.tsx`): the promotion default, the
  move history that is cut and extended, navigation through it, the
  "viewing history" and "continue" flags, reset, and the game-over message;
- the **simple playing page** (`page.js`): the move and position histories, the
  turn gate on drops, the random engine move, jumping to a stored position, reset;
- the **move list** (`move-history.tsx`): moves paired into numbered rows, the
  highlighted cell and the index a click selects;
- the **evaluation bar** (`evaluation-bar.tsx`): clamping, scaling to a 40–60 %
  share, and the flip by board orientation.

chess.js is a collaborator whose rules are not modelled: positions are an
opaque type `P`, and each library call (`turn`, `get`, `move`, `moves`,
`board`, the game-over queries) is a total function in a `Rules<P>` record
passed to the model (`chess_rules.dfy`). A position string (FEN) stands for the
position it serialises. `Math.random()` is a parameter `u` with `0 <= u < 1`.
One property of the library is assumed where the history invariants need it
(`ChessRules.NotationReplays`): playing a move again by the notation chess.js
reported for it reaches the same position.

The catalogue has two entries. Both pick a legal move at random and return a
random score in [-1000, 1000]. The "Engine not set" error that `ChessEngine`
declares is proved unreachable, because every way of making a `ChessEngine`
leaves a catalogue id in it.

Files: `wrappers.dfy` (Option, Result), `chess_rules.dfy`, `chess_engine.dfy`,
`evaluation.dfy`, `chess_interface.dfy`, `play_page.dfy`, `move_history.dfy`,
`evaluation_bar.dfy`.

## Model

| member | source | states |
|---|---|---|
| ChessRules.ReplayMoves | components/chess-interface.tsx:144-150 | playing the first `count` history moves on a new game yields exactly the replay of that prefix, or None at the first move the library rejects |
| Engine.Find | engine/chess-engine.ts:35 | the lookup finds an entry iff some catalogue entry has the id, and then it is the first such entry |
| Engine.CatalogueIdsAreSet | engine/chess-engine.ts:3-22 | every catalogue id is non-empty, so a stored catalogue id is never falsy |
| Engine.New | engine/chess-engine.ts:31-43 | construction fails with "Engine with id … not found" exactly when the id is not catalogued; otherwise it stores the id and depth and takes search, evaluation and simulateThinking from the first matching entry |
| Engine.ChessEngine.constructor | engine/chess-engine.ts:31-39 | the successful construction stores id, depth and the entry's algorithms and establishes the invariant that the id is a catalogue id whose entry supplies the algorithms |
| Engine.ChessEngine.SetEngine | engine/chess-engine.ts:45-53 | a catalogued id switches id, algorithms and simulateThinking to that entry; an unknown id changes nothing; the depth never changes; the invariant is kept |
| Engine.ChessEngine.SetSearchDepth | engine/chess-engine.ts:55-57 | the depth becomes the argument and nothing else changes |
| Engine.ChessEngine.GetEvaluation | engine/chess-engine.ts:78-85 | never raises "Engine not set"; returns the active evaluator's score, which lies in [-1000, 1000] |
| Engine.ChessEngine.GetBestMove | engine/chess-engine.ts:59-75 | never raises "Engine not set"; returns the result of the search algorithm and depth stored at the call (see Left out for the delayed path) |
| Engine.RandomIndex | engine/chess-engine.ts:92 | the random index lies in [0, n) when n > 0 and is 0 for an empty list |
| Engine.RandomIndexCovers | engine/chess-engine.ts:92 | every index of a non-empty list is produced by some random value |
| Engine.RandomScore | engine/chess-engine.ts:97-99 | the random score lies in [-1000, 1000] |
| Engine.RandomScoreCovers | engine/chess-engine.ts:98 | every integer in [-1000, 1000] is produced by some random value |
| Engine.Evaluate | engine/chess-engine.ts:108-110 | both catalogue evaluators ignore the position and score in [-1000, 1000] |
| Engine.Pick | engine/chess-engine.ts:103-105 | a move is picked iff the list is non-empty, and the picked move is in the list |
| Engine.Search | engine/chess-engine.ts:89-95 | the random search wraps a verbose legal move (none iff there is none); the minimax search returns a legal move's notation (none iff there is none) |
| Engine.DefaultsConstruct | engine/chess-engine.ts:31 | the default id "random" is catalogued, so default construction succeeds with the random search and simulated thinking |
| Engine.NewWithDefaults | engine/chess-engine.ts:31-39 | construction with both defaults always succeeds, storing id "random" and depth 15 and taking the random engine's settings |
| Evaluation.EvaluatePieceCount | engine/evaluation/functions.ts:21-46 | the nested loops over the game's board compute its material, the rank-by-rank signed sum `BoardScore` |
| Evaluation.BoardScoreIsPieceSum | engine/evaluation/functions.ts:34-43 | the material is the signed sum of the pieces on the board in reading order |
| Evaluation.WhiteMinusBlack | engine/evaluation/functions.ts:34-43 | the material is White's total piece value minus Black's |
| Evaluation.EmptyBoardIsZero | engine/evaluation/functions.ts:30-45 | a board without pieces scores 0 |
| Evaluation.SwapColoursNegates | engine/evaluation/functions.ts:38-39 | exchanging every piece's colour negates the score |
| Evaluation.PieceSumPermutation | engine/evaluation/functions.ts:36-39 | the signed sum depends only on the multiset of pieces |
| Evaluation.PlacementIndependent | engine/evaluation/functions.ts:36-39 | two boards with the same multiset of (type, colour) pieces score the same, wherever the pieces stand |
| Evaluation.PlacePiece | engine/evaluation/functions.ts:38-39 | placing a White piece on an empty square adds its value; a Black one subtracts it |
| Evaluation.UnwrittenEvaluatorsAreZero | engine/evaluation/functions.ts:5-94 | evaluateExample, evaluatePiecePosition, evaluateMobility and evaluatePawnStructure score every position 0 |
| Interface.WithPromotionDefault | components/chess-interface.tsx:75-83 | squares are kept; a pawn reaching its last rank always ends with a promotion piece; any change is exactly a falsy promotion becoming "q" for such a pawn; any other move is left as given |
| Interface.PromotionDefaultIdempotent | components/chess-interface.tsx:75-83 | applying the default a second time changes nothing |
| Interface.GameOverMessage | components/chess-interface.tsx:47-57 | from the game's own queries: no message while the game goes on; the winner of a mate is the side not to move, so "You Win!" iff checkmate while the side to move is not the board's orientation; "You Lose!" iff checkmate while it is; "Game Drawn!" iff a draw without mate; "Game Over!" otherwise |
| Interface.ChessInterface.constructor | components/chess-interface.tsx:23-35 | a new game seen from White, empty history, index -1, evaluation 2, flags cleared; establishes the history invariant |
| Interface.ChessInterface.MakeAMove | components/chess-interface.tsx:71-106 | succeeds iff the library accepts the move with the promotion default; then the history is its first index+1 moves plus the new move, the index is the last one, the game is the new position; when the index was already last this is a plain append; a failure changes nothing; the invariant -1 <= index < length and "game is the history replayed to the index" is kept |
| Interface.ChessInterface.OnDrop | components/chess-interface.tsx:108-121 | refused with no change while viewing a position before the last; otherwise plays the drop asking for a queen, as MakeAMove; orientation, evaluation and both flags never change |
| Interface.ChessInterface.ResetBoard | components/chess-interface.tsx:123-132 | new game, empty history, index -1, evaluation 0, both flags false |
| Interface.ChessInterface.FlipBoard | components/chess-interface.tsx:134-136 | the orientation becomes the other colour |
| Interface.ChessInterface.NavigateMove | components/chess-interface.tsx:138-168 | an index outside [-1, length) changes nothing; otherwise the index moves, the game is the history replayed to it, viewing holds iff the index is before the last, and the continue button shows iff viewing and the engine is to move |
| Interface.ChessInterface.SelectMove | components/chess-interface.tsx:371-373 | selecting a move index inside the history makes it current, displays the position after it, sets viewing iff it is before the last index and shows the continue button iff also the engine is to move; an index outside [-1, length) changes nothing; history, orientation and evaluation never change |
| Interface.ChessInterface.ContinueFromHere | components/chess-interface.tsx:170-181 | both flags are cleared and the engine is asked to move iff it is not the user's side to move |
| PlayPage.AfterMove | app/page.js:21-23 | as written: the move list grows by exactly one with no truncation, the positions become the first index+1 plus the new one, and the index becomes the last position's |
| PlayPage.AsWrittenFallsOutOfStep | app/page.js:21-22 | after two moves, one step back and a new move, the new move's button targets a missing position and the abandoned move's button loads the new position |
| PlayPage.AsWrittenInStepOnlyAtEnd | app/page.js:21-22 | for all histories in step, the update as written keeps them in step iff the displayed position is the last one |
| PlayPage.AfterMoveInStep | app/page.js:21-22 | the corrected update cuts both lists at the index, keeps them in step, and every move button targets a stored position |
| PlayPage.AfterMoveInStepTracks | app/page.js:121-124 | with the corrected update every stored position remains the one reached by the moves before it, so each move button loads the position right after its move |
| PlayPage.PlayPage.constructor | app/page.js:8-13 | a new game, the user plays White, no moves, one stored start position, index 0, dialog closed |
| PlayPage.PlayPage.MakeAMove | app/page.js:16-31 | returns the move's notation iff legal; then game and histories advance as written; an illegal move changes neither; a checkmate on the board raises the dialog; the index always points at the displayed stored position |
| PlayPage.PlayPage.MakeEngineMove | app/page.js:33-41 | does nothing with no legal move or a finished game; otherwise plays the legal move at the random index, which lies in the move list |
| PlayPage.PlayPage.OnDrop | app/page.js:56-72 | refused with no change unless the user's colour is to move; otherwise plays the drop asking for a queen and reports whether it was legal |
| PlayPage.PlayPage.GoToMove | app/page.js:74-79 | a stored index becomes current and its position is displayed, neither history changes; an index with no stored position changes nothing |
| PlayPage.PlayPage.ResetGame | app/page.js:81-88 | empty move list, only the start position stored, index 0, dialog closed |
| PlayPage.PlayPage.SwitchColor | app/page.js:94 | the user's colour flips |
| MoveHistory.PairMoves | components/move-history.tsx:12-19 | ceil(n/2) rows; row k is numbered k+1 with White's move moves[2k] and Black's moves[2k+1] or null; only the last row of an odd list lacks Black's move; reading the rows back gives the moves in order |
| MoveHistory.OnlyLastRowIncomplete | components/move-history.tsx:17 | a row lacks Black's move iff it is the last row and the list has odd length |
| MoveHistory.AtMostOneHighlighted | components/move-history.tsx:38-46 | two highlighted cells are the same cell |
| MoveHistory.HighlightShowsCurrentMove | components/move-history.tsx:33-49 | for a current index inside the list, the highlighted cell shows the current move |
| MoveHistory.ClickSelectsShownMove | components/move-history.tsx:40-48 | a click selects the index of the move its cell shows, inside the list; only a Black cell without a move selects nothing |
| EvaluationBar.NormalizedEval | components/evaluation-bar.tsx:10 | lies in [-1, 1], is ±1 beyond ±1000, and is evaluation/1000 inside |
| EvaluationBar.Percentage | components/evaluation-bar.tsx:13 | lies in [40, 60], is 50 at 0, and is above (below) 50 iff the evaluation is positive (negative) |
| EvaluationBar.Height | components/evaluation-bar.tsx:16 | height + percentage = 100 |
| EvaluationBar.PercentageMonotone | components/evaluation-bar.tsx:10-13 | a higher evaluation never gives a smaller percentage |
| EvaluationBar.Saturates | components/evaluation-bar.tsx:10 | all evaluations beyond +1000 (or below -1000) give the same bar |
| EvaluationBar.Rendered | components/evaluation-bar.tsx:18-39 | for "white" or "black" the dark bar fills 100 - percentage; it hangs from the top iff the orientation is "white"; any other orientation string draws the unflipped percentage from the bottom |

## Left out

- The React effects (components/chess-interface.tsx:37-69, app/page.js:43-52): they push the selected engine and depth into the engine object, ask the engine for a move and open the game-over dialog. The game-over message they choose is modelled as `Interface.GameOverMessage`. After every change of game, orientation, engine or depth they overwrite `evaluation` with the engine's score (lines 40 and 44), so the model's `evaluation` field is the value before those effects run.
- The engine settings (components/chess-interface.tsx:225, 244): the engine selector and the depth slider write `selectedEngine` and `depth`; neither they nor the engine object nor the dialog state are fields of the model.
- The engine's move in the main screen (components/chess-interface.tsx:64-66, 176-178): `getBestMove` is not awaited, so what reaches `makeAMove` is a promise of unspecified shape. `ContinueFromHere` only reports whether the engine would be asked.
- Interface.ChessInterface.MakeAMove: accepts square-based requests only, because moves in notation reach it only through that engine path.
- Rendering, dialogs, selectors, sliders, `toFixed` formatting and `console.log`: display only.
- chess.js itself: move legality, notation, FEN, check, mate and draw detection are functions of the `Rules<P>` parameter. Copying a game through its FEN (`new Chess(game.fen())`) is the identity here, although chess.js drops the move history on that copy, which its repetition-draw test depends on.
- Illegal moves: chess.js is taken to report an illegal move by returning null, the contract app/page.js:69 tests for. Under chess.js 1.x, whose API the code calls, `move` throws instead. Then `makeAMove` and `onDrop` of app/page.js would propagate the exception with no state changed, and the dialog check after the move would not run. The main screen is unaffected, because its `makeAMove` catches the exception and returns false (components/chess-interface.tsx:102-104).
- The replay in `navigateMove` (components/chess-interface.tsx:148-150) plays the stored moves one by one. `ChessRules.ReplayMoves` stops with None at the first move the library rejects, which is what happens when chess.js throws. Under the null-returning reading above, the loop would instead skip that move and play the later ones on the unchanged game. Under `ChessInterface.Valid()` every stored move replays, so neither path occurs, and no modelled behaviour depends on the choice.
- `Math.random()` and its distribution: the random value is a parameter.
- Engine.Pick: states that the pick is one of the moves and that every index can be drawn, not that the draw is uniform, because the random source is a parameter.
- Engine.Search: the same limit as `Engine.Pick`; the depth is accepted and, as in the code, unused.
- The 500 ms delays (`setTimeout`, the promise in `getBestMove`): the wait itself is not modelled.
- Engine.ChessEngine.GetBestMove: with `simulateThinking` set, the code reads `searchAlgorithm` and `searchDepth` when the timer fires (engine/chess-engine.ts:66-68), not at the call. The model reads them at the call, so the two agree only when no `setEngine` or `setSearchDepth` happens in between (the settings effect at components/chess-interface.tsx:37-41 can run within the 500 ms).
- Minimax, alpha-beta, move ordering, piece-square, mobility and pawn-structure heuristics: the code does not implement them.
- `PIECE_VALUES`, `GAME_SPLIT` and the other constants of engine/variable: not part of this model. The piece value table is the parameter `values`. The unused game-phase parameter is dropped.
- app/page.tsx: a layout wrapper with no logic.
- Integers are unbounded and JavaScript numbers are reals in the evaluation bar. Indices and depths never come near 2^53 here.
- PlayPage.PlayPage.MakeAMove: follows the code as written, so its histories can fall out of step (see Findings). The corrected update `PlayPage.AfterMoveInStep` is proved separately rather than used by the page object.

## Findings

| source | as written | input that shows it | evidently intended | confidence | as-written member | corrected member |
|---|---|---|---|---|---|---|
| app/page.js:21-22 | `moveHistory` is always appended to while `positionHistory` is cut after `currentMoveIndex`, and move button k calls `goToMove(k + 1)` | play e4, e5; click e4 (index 1); play d5: moves [e4, e5, d5], positions [start, after e4, after d5]; the d5 button asks for a position 3 that does not exist, the e5 button shows the position after d5 | cut the move list at the same point, `[...moveHistory.slice(0, currentMoveIndex), san]`, as the main screen does | medium, not executed | PlayPage.AsWrittenFallsOutOfStep | PlayPage.AfterMoveInStepTracks |

/**
 * The engine catalogue and the ChessEngine dispatcher. Math.random() is an
 * injected real `u` with 0 <= u < 1. The 500 ms "thinking" delay is not
 * modelled; on that path the code reads the algorithm and depth when the
 * timer fires (see README, Left out).
 */
module Engine {
  import opened Wrappers
  import opened ChessRules

  datatype SearchAlgorithm = RandomSearch | MinimaxSearch

  datatype EvaluationAlgorithm = RandomEvaluation | MinimaxEvaluation

  datatype EngineEntry = EngineEntry(
    id: string,
    name: string,
    description: string,
    searchAlgorithm: SearchAlgorithm,
    evaluationAlgorithm: EvaluationAlgorithm,
    depthSettingAvailable: bool,
    simulateThinking: bool)

  /** The `Engines` catalogue. */
  const Engines: seq<EngineEntry> := [
    EngineEntry("random", "Random", "A random engine that makes random moves.",
                RandomSearch, RandomEvaluation, false, true),
    EngineEntry("minimax", "Minimax (Not Implemented)", "A simple Minimax engine.",
                MinimaxSearch, MinimaxEvaluation, true, false)
  ]

  /** The constructor's default arguments. */
  const DefaultEngineId: string := "random"
  const DefaultSearchDepth: int := 15

  /** `Engines.find(e => e.id === id)`: the first entry carrying `id`, if any. */
  function Find(catalogue: seq<EngineEntry>, id: string): (r: Option<EngineEntry>)
    ensures r.Some? <==> exists i :: 0 <= i < |catalogue| && catalogue[i].id == id
    ensures r.Some? ==> exists i :: 0 <= i < |catalogue| && catalogue[i] == r.value &&
                                    forall j :: 0 <= j < i ==> catalogue[j].id != id
    ensures r.Some? ==> r.value.id == id
  {
    if catalogue == [] then None
    else if catalogue[0].id == id then Some(catalogue[0])
    else
      var r := Find(catalogue[1..], id);
      assert forall i :: 0 < i < |catalogue| ==> catalogue[i] == catalogue[1..][i - 1];
      r
  }

  /** No catalogue id is empty, so a stored catalogue id is never falsy. */
  lemma CatalogueIdsAreSet(id: string)
    requires Find(Engines, id).Some?
    ensures id != ""
  {
  }

  /** `Math.floor(Math.random() * n)`. */
  function RandomIndex(u: real, n: nat): (r: int)
    requires 0.0 <= u < 1.0
    ensures 0 <= r
    ensures n > 0 ==> r < n
    ensures n == 0 ==> r == 0
  {
    assert 0.0 <= u * n as real <= n as real;
    assert n > 0 ==> u * n as real < n as real;
    (u * n as real).Floor
  }

  /** Every index of a non-empty list is drawn by some value of the random source. */
  lemma RandomIndexCovers(n: nat, k: nat)
    requires k < n
    ensures 0.0 <= k as real / n as real < 1.0
    ensures RandomIndex(k as real / n as real, n) == k
  {
    var u := k as real / n as real;
    assert u * n as real == k as real;
  }

  /** `Math.floor(Math.random() * 2001) - 1000`, shared by both evaluators of the catalogue. */
  function RandomScore(u: real): (r: int)
    requires 0.0 <= u < 1.0
    ensures -1000 <= r <= 1000
  {
    assert 0.0 <= u * 2001.0 < 2001.0;
    (u * 2001.0).Floor - 1000
  }

  /** Every score in [-1000, 1000] is produced by some value of the random source. */
  lemma RandomScoreCovers(v: int)
    requires -1000 <= v <= 1000
    ensures 0.0 <= (v + 1000) as real / 2001.0 < 1.0
    ensures RandomScore((v + 1000) as real / 2001.0) == v
  {
    var u := (v + 1000) as real / 2001.0;
    assert u * 2001.0 == (v + 1000) as real;
  }

  /** `randomEvaluation` and `minimaxEvaluation`: both ignore the position. */
  function Evaluate(algorithm: EvaluationAlgorithm, u: real): (r: int)
    requires 0.0 <= u < 1.0
    ensures -1000 <= r <= 1000
  {
    match algorithm
    case RandomEvaluation => RandomScore(u)
    case MinimaxEvaluation => RandomScore(u)
  }

  /** `moves[Math.floor(Math.random() * moves.length)]`, undefined when there is no move. */
  function Pick<T>(moves: seq<T>, u: real): (r: Option<T>)
    requires 0.0 <= u < 1.0
    ensures r.Some? <==> |moves| > 0
    ensures r.Some? ==> r.value in moves
  {
    var i := RandomIndex(u, |moves|);
    if i < |moves| then Some(moves[i]) else None
  }

  /**
   * What a search returns: `randomSearch` wraps a verbose move as
   * `{ selectedMove }`, `minimaxSearch` returns the notation itself.
   */
  datatype BestMove = SelectedMove(selectedMove: Option<VerboseMove>) | NotationMove(san: Option<string>)

  /** `randomSearch` and `minimaxSearch`; both ignore the depth and pick a legal move at random. */
  function Search<P>(algorithm: SearchAlgorithm, rules: Rules<P>, game: P, depth: int, u: real): (r: BestMove)
    requires 0.0 <= u < 1.0
    ensures algorithm == RandomSearch ==>
              r.SelectedMove? && (r.selectedMove.Some? <==> |rules.verboseMoves(game)| > 0) &&
              (r.selectedMove.Some? ==> r.selectedMove.value in rules.verboseMoves(game))
    ensures algorithm == MinimaxSearch ==>
              r.NotationMove? && (r.san.Some? <==> |rules.moves(game)| > 0) &&
              (r.san.Some? ==> r.san.value in rules.moves(game))
  {
    match algorithm
    case RandomSearch => SelectedMove(Pick(rules.verboseMoves(game), u))
    case MinimaxSearch => NotationMove(Pick(rules.moves(game), u))
  }

  class ChessEngine {
    var engineId: string
    var searchDepth: int
    var searchAlgorithm: SearchAlgorithm
    var evaluationAlgorithm: EvaluationAlgorithm
    var simulateThinking: bool

    /** The active algorithms and flag are those of the entry `engineId` names. */
    predicate Selects(e: EngineEntry)
      reads this
    {
      engineId == e.id && searchAlgorithm == e.searchAlgorithm &&
      evaluationAlgorithm == e.evaluationAlgorithm && simulateThinking == e.simulateThinking
    }

    /** The engine id is always a catalogue id, and the active algorithms are its entry's. */
    ghost predicate Valid()
      reads this
    {
      Find(Engines, engineId).Some? && Selects(Find(Engines, engineId).value)
    }

    /** The successful half of the constructor; `New` performs the lookup that may fail. */
    constructor (engineId: string, searchDepth: int, entry: EngineEntry)
      requires Find(Engines, engineId) == Some(entry)
      ensures Valid()
      ensures this.engineId == engineId && this.searchDepth == searchDepth && Selects(entry)
    {
      this.engineId := engineId;
      this.searchDepth := searchDepth;
      this.searchAlgorithm := entry.searchAlgorithm;
      this.evaluationAlgorithm := entry.evaluationAlgorithm;
      this.simulateThinking := entry.simulateThinking;
    }

    /** `setEngine`: switches to a catalogue entry; an unknown id is silently ignored. */
    method SetEngine(engineId: string)
      requires Valid()
      modifies this
      ensures Valid()
      ensures searchDepth == old(searchDepth)
      ensures Find(Engines, engineId).Some? ==> Selects(Find(Engines, engineId).value)
      ensures Find(Engines, engineId).None? ==>
                this.engineId == old(this.engineId) && searchAlgorithm == old(searchAlgorithm) &&
                evaluationAlgorithm == old(evaluationAlgorithm) && simulateThinking == old(simulateThinking)
    {
      var selected := Find(Engines, engineId);
      if selected.Some? {
        this.engineId := selected.value.id;
        searchAlgorithm := selected.value.searchAlgorithm;
        evaluationAlgorithm := selected.value.evaluationAlgorithm;
        simulateThinking := selected.value.simulateThinking;
      }
    }

    /** `setSearchDepth`: stores the depth and nothing else. */
    method SetSearchDepth(depth: int)
      requires Valid()
      modifies this`searchDepth
      ensures Valid()
      ensures searchDepth == depth
    {
      searchDepth := depth;
    }

    /**
     * `getEvaluation`: the active evaluator applied to the game. The
     * "Engine not set" error is modelled, and proved never to be raised.
     */
    method GetEvaluation<P>(game: P, u: real) returns (r: Result<int, string>)
      requires Valid()
      requires 0.0 <= u < 1.0
      ensures r.Ok?
      ensures r.value == Evaluate(evaluationAlgorithm, u) && -1000 <= r.value <= 1000
    {
      if engineId == "" {
        assert false;
        return Err("Engine not set");
      }
      r := Ok(Evaluate(evaluationAlgorithm, u));
    }

    /**
     * `getBestMove`: the active search run with the algorithm and depth
     * stored at the call. "Engine not set" is never raised.
     */
    method GetBestMove<P>(rules: Rules<P>, game: P, u: real) returns (r: Result<BestMove, string>)
      requires Valid()
      requires 0.0 <= u < 1.0
      ensures r.Ok?
      ensures r.value == Search(searchAlgorithm, rules, game, searchDepth, u)
    {
      if engineId == "" {
        assert false;
        return Err("Engine not set");
      }
      r := Ok(Search(searchAlgorithm, rules, game, searchDepth, u));
    }
  }

  /** The error the constructor throws for an id that is not in the catalogue. */
  function NotFound(engineId: string): string {
    "Engine with id " + engineId + " not found"
  }

  /**
   * `new ChessEngine(engineId, searchDepth)`: fails with "Engine with id …
   * not found" exactly when the id is not in the catalogue; otherwise the new
   * engine stores the id and depth and takes its algorithms and
   * `simulateThinking` from the first entry with that id.
   */
  method New(engineId: string, searchDepth: int) returns (r: Result<ChessEngine, string>)
    ensures r.Err? <==> Find(Engines, engineId).None?
    ensures r.Err? ==> r.error == NotFound(engineId)
    ensures r.Ok? ==> fresh(r.value) && r.value.Valid() &&
                      r.value.engineId == engineId && r.value.searchDepth == searchDepth &&
                      r.value.Selects(Find(Engines, engineId).value)
  {
    var selected := Find(Engines, engineId);
    if selected.None? {
      return Err(NotFound(engineId));
    }
    var engine := new ChessEngine(engineId, searchDepth, selected.value);
    r := Ok(engine);
  }

  /** The defaults ("random", depth 15) always construct, with the random engine's settings. */
  lemma DefaultsConstruct()
    ensures Find(Engines, DefaultEngineId) == Some(Engines[0])
    ensures Engines[0].searchAlgorithm == RandomSearch && Engines[0].simulateThinking
  {
  }

  /** `new ChessEngine()` with both defaults: always the random engine at depth 15. */
  method NewWithDefaults() returns (r: Result<ChessEngine, string>)
    ensures r.Ok? && fresh(r.value) && r.value.Valid()
    ensures r.value.engineId == DefaultEngineId && r.value.searchDepth == DefaultSearchDepth
    ensures r.value.Selects(Engines[0])
  {
    DefaultsConstruct();
    r := New(DefaultEngineId, DefaultSearchDepth);
  }
}

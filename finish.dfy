/**
 * The two end-of-game tests. The scene's own asks the engine for every
 * legal move and counts them; the refactored copy asks the engine's board
 * directly, guarding against a missing engine.
 */
module Finish {
  import opened Wrappers

  /**
   * `checkIfFinished` of the scene: `moves` is the engine's map from a
   * square label to the labels it may move to; the game is over when no
   * move is left, or when the engine's configuration says so.
   */
  method CheckIfFinished(moves: map<string, seq<string>>, configFinished: bool) returns (finished: bool)
    ensures finished <==> configFinished || forall sq :: sq in moves ==> moves[sq] == []
  {
    var totalCount := 0;
    var rest := moves.Keys;
    while rest != {}
      invariant rest <= moves.Keys
      invariant totalCount >= 0
      invariant totalCount == 0 <==> forall sq :: sq in moves && sq !in rest ==> moves[sq] == []
      decreases rest
    {
      var sq :| sq in rest;
      totalCount := totalCount + |moves[sq]|;
      rest := rest - {sq};
    }
    finished := totalCount == 0 || configFinished;
  }

  /** What the refactored copy can see of the engine: the board object, and whether its `isGameOver` is a function. */
  datatype EngineView = EngineView(board: Option<BoardView>)
  datatype BoardView = BoardView(isGameOver: Option<bool>)

  /** `checkIfFinished` of the refactored copy: a missing engine, board or `isGameOver` counts as finished. */
  function CheckIfFinishedGuarded(game: Option<EngineView>): (finished: bool)
    ensures !finished <==>
      game.Some? && game.value.board.Some? && game.value.board.value.isGameOver == Some(false)
  {
    if game.None? || game.value.board.None? then true
    else if game.value.board.value.isGameOver.None? then true
    else game.value.board.value.isGameOver.value
  }

  /** With the whole engine present the guarded test reports exactly what `isGameOver()` answers. */
  lemma GuardedAgreesWithEngine(over: bool)
    ensures CheckIfFinishedGuarded(Some(EngineView(Some(BoardView(Some(over)))))) == over
  {
  }
}

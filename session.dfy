/**
 * The scene component's game state and its handlers: the piece store, the
 * promotion prompt, the turn timer, the selection and the two-player
 * bookkeeping, with the meshes, the sockets and the scheduling stripped.
 *
 * The chess engine is an oracle: what it answers (castling flags, whether
 * the game is over, the move it suggests or the moves it allows) arrives as
 * parameters, and what the scene asks of it (`game.move`, `game.setPiece`)
 * is appended to `engineLog`. `game.move` hands the turn to the other side.
 * A `setInterval` tick is the method `Tick`, a `setTimeout` for the
 * computer's move is a count in `aiScheduled` that `AiMove` consumes, and
 * an `emit` to the server is appended to `outbox`. The promotion prompt is
 * shown exactly when `pending` is set.
 */
module Session {
  import opened Wrappers
  import opened Squares
  import opened Pieces
  import opened Ground
  import opened Moves

  /** A call the scene makes on the chess engine. */
  datatype EngineCall = EngineMove(from: string, to: string) | SetPiece(at: string, kind: char)

  /** A message the scene sends to the game server. */
  datatype Emit = Ready | PawnTransformRequest(from: string, to: string, kind: char) | UnSelectRequest

  /** `pawnTransProps`: the index of the record waiting for a promotion choice, and the move that brought it there. */
  datatype PawnTrans = PawnTrans(fromIndex: int, from: string, to: string)

  /** An entry of the server's obstacle list. */
  datatype Obstacle = Obstacle(kind: Item, position: string)

  /** The `SC_ChangeTurn` payload, as far as the board and turn logic read it. */
  datatype ChangeTurn = ChangeTurn(isFinished: Option<bool>, currentTurn: Side, currentPlayer: string,
                                   obstacleArray: Option<seq<Obstacle>>)

  /** The obstacles that get a mesh: ice walls and petrified squares, in the server's order. */
  function DrawnObstacles(obs: seq<Obstacle>): (r: seq<Obstacle>)
    ensures |r| <= |obs|
    ensures forall o :: o in r <==> o in obs && (o.kind == IceWall || o.kind == Petrify)
  {
    if obs == [] then []
    else
      var rest := DrawnObstacles(obs[1..]);
      if obs[0].kind == IceWall || obs[0].kind == Petrify then [obs[0]] + rest else rest
  }

  /** Drawing a concatenated list draws each part in turn. */
  lemma {:induction false} DrawnObstaclesAppend(a: seq<Obstacle>, b: seq<Obstacle>)
    ensures DrawnObstacles(a + b) == DrawnObstacles(a) + DrawnObstacles(b)
  {
    if a == [] {
      assert a + b == b;
    } else {
      assert (a + b)[0] == a[0] && (a + b)[1..] == a[1..] + b;
      DrawnObstaclesAppend(a[1..], b);
    }
  }

  /** The part of the scene's state that a move writes. */
  datatype MoveState = MoveState(pieces: seq<Piece>, lastFault: Option<Fault>, turn: Side, engineLog: seq<EngineCall>,
                                 pending: Option<PawnTrans>, timerRunning: bool, remainingTime: int, myTurn: bool)

  class GameSession {
    const mode: Mode
    const playerSide: Side      // the `side` prop: the human's colour against the computer
    const aiLevel: nat
    const timeLimit: int
    const socketId: string

    var ground: seq<seq<Tile>>
    var pieces: seq<Piece>           // boardPiecesArray
    var turn: Side                   // the engine's configuration.turn
    var engineLog: seq<EngineCall>
    var selected: Option<nat>         // the id of selectedPiece
    var possibleMoves: seq<string>
    var pending: Option<PawnTrans>   // pawnTransProps; the prompt is open while it is set
    var remainingTime: int
    var timerRunning: bool           // timeInterval is set and not cleared
    var aiScheduled: nat             // computer moves waiting on their timeout
    var myTurn: bool
    var currentTurn: Side            // two-player: whose turn the server announced
    var currentPlayer: string
    var side: Side                   // two-player: this client's colour
    var isFinished: bool
    var obstacles: seq<Obstacle>     // obstacleMeshes
    var currentItem: Option<Item>
    var outbox: seq<Emit>
    var lastFault: Option<Fault>     // the TypeError that ended the last handler, if any

    /** The store holds distinct records, all on the board. */
    predicate StoreValid()
      reads this`pieces
    {
      DistinctIds(pieces) && AllInBounds(pieces)
    }

    /** The countdown is stopped while the promotion prompt waits. */
    predicate TimerQuiet()
      reads this`pending, this`timerRunning
    {
      pending.Some? ==> !timerRunning
    }

    predicate Valid()
      reads this`pieces, this`pending, this`timerRunning
    {
      StoreValid() && TimerQuiet() && (mode == P2P ==> !timerRunning)
    }

    /** The fields `performMove` may write. */
    function Fields(): MoveState
      reads this`pieces, this`lastFault, this`turn, this`engineLog, this`pending, this`timerRunning,
        this`remainingTime, this`myTurn
    {
      MoveState(pieces, lastFault, turn, engineLog, pending, timerRunning, remainingTime, myTurn)
    }

    /**
     * The state after `performMove` from `s0`: the store after the move; a
     * pawn that reached its last rank is rewritten to a queen when the
     * computer moved it, and otherwise stops the timer and opens the prompt
     * without telling the engine; any other finished move goes to the
     * engine, and against the computer restarts the timer.
     */
    function MoveOutcome(s0: MoveState, from: string, to: string, c: Castling): MoveState
      requires IsLabel(from) && IsLabel(to)
    {
      match LocalMoveBoard(s0.pieces, from, to, s0.turn, c)
      case Crashed(b, f) =>
        s0.(pieces := b, lastFault := Some(f))
      case Done(b, k) =>
        if PromotionDue(b[k], s0.turn) && !(mode == P2E && playerSide != s0.turn) then
          s0.(pieces := b, pending := Some(PawnTrans(k, from, to)), timerRunning := false)
        else
          var t := Opposite(s0.turn);
          var s1 := s0.(pieces := if PromotionDue(b[k], s0.turn) then Retype(b, k, AutoQueen(s0.turn)) else b,
                        turn := t, engineLog := s0.engineLog + [EngineMove(from, to)]);
          if mode == P2E then s1.(myTurn := playerSide == t, timerRunning := true, remainingTime := timeLimit)
          else s1
    }

    /** A move keeps the store's records distinct and on the board. */
    lemma MoveOutcomeKeepsStore(s0: MoveState, from: string, to: string, c: Castling)
      requires IsLabel(from) && IsLabel(to)
      requires DistinctIds(s0.pieces) && AllInBounds(s0.pieces)
      ensures DistinctIds(MoveOutcome(s0, from, to, c).pieces) && AllInBounds(MoveOutcome(s0, from, to, c).pieces)
    {
      LocalMoveKeepsStore(s0.pieces, from, to, s0.turn, c);
      match LocalMoveBoard(s0.pieces, from, to, s0.turn, c)
      case Crashed(_, _) =>
      case Done(b, k) =>
        RetypeKeeps(b, k, AutoQueen(s0.turn));
    }

    /**
     * The engine and the scene stay in step: the turn passes exactly when the
     * engine is told of the move; no record is added; the countdown is only
     * ever reset, and only against the computer.
     */
    lemma MoveOutcomeInStep(s0: MoveState, from: string, to: string, c: Castling)
      requires IsLabel(from) && IsLabel(to)
      ensures var r := MoveOutcome(s0, from, to, c);
        |r.pieces| <= |s0.pieces| &&
        (r.turn == s0.turn <==> r.engineLog == s0.engineLog) &&
        (r.engineLog == s0.engineLog || r.engineLog == s0.engineLog + [EngineMove(from, to)]) &&
        (r.remainingTime != s0.remainingTime ==> mode == P2E && r.timerRunning && r.remainingTime == timeLimit)
    {
    }

    /** A move keeps one record per square when a castling rook lands on a free square, a computer's queen included. */
    lemma MoveOutcomeKeepsUnique(s0: MoveState, from: string, to: string, c: Castling)
      requires IsLabel(from) && IsLabel(to)
      requires UniqueSquares(s0.pieces) && LocalRookLandsFree(s0.pieces, from, to, s0.turn, c)
      ensures UniqueSquares(MoveOutcome(s0, from, to, c).pieces)
    {
      LocalMoveKeepsUnique(s0.pieces, from, to, s0.turn, c);
      match LocalMoveBoard(s0.pieces, from, to, s0.turn, c)
      case Crashed(_, _) =>
      case Done(b, k) =>
        RetypeKeepsSquares(b, k, AutoQueen(s0.turn));
    }

    /** A move that opens the prompt stops the timer. */
    lemma MoveOutcomeQuiet(s0: MoveState, from: string, to: string, c: Castling)
      requires IsLabel(from) && IsLabel(to)
      requires s0.pending.None?
      ensures MoveOutcome(s0, from, to, c).pending.Some? ==> !MoveOutcome(s0, from, to, c).timerRunning
    {
    }

    /** Only a move against the computer starts the timer. */
    lemma MoveOutcomeTimer(s0: MoveState, from: string, to: string, c: Castling)
      requires IsLabel(from) && IsLabel(to)
      ensures MoveOutcome(s0, from, to, c).timerRunning ==> s0.timerRunning || mode == P2E
    {
    }

    /**
     * Scene set-up: the tile grid and the piece store are built from the
     * engine's start configuration; a two-player match announces itself to
     * the server, a game against the computer starts the timer and lets the
     * computer open when the human plays black.
     */
    constructor (mode: Mode, playerSide: Side, aiLevel: nat, timeLimit: int, socketId: string,
                 startTurn: Side, config: map<string, char>)
      ensures this.mode == mode && this.playerSide == playerSide && this.aiLevel == aiLevel
      ensures this.timeLimit == timeLimit && this.socketId == socketId
      ensures Valid()
      ensures |ground| == BoardSize && forall i :: 0 <= i < BoardSize ==> |ground[i]| == BoardSize
      ensures forall i, j :: 0 <= i < BoardSize && 0 <= j < BoardSize ==> ground[i][j] == TileAt(i, j)
      ensures forall k :: 0 <= k < |pieces| ==> pieces[k].id == k && Label(pieces[k].sq) in config && config[Label(pieces[k].sq)] == pieces[k].kind
      ensures forall sq :: InBounds(sq) ==> (Occupied(pieces, sq) <==> Label(sq) in config)
      ensures UniqueSquares(pieces)
      ensures turn == startTurn && engineLog == [] && pending.None? && selected.None? && possibleMoves == []
      ensures remainingTime == timeLimit && timerRunning == (mode == P2E)
      ensures aiScheduled == (if mode == P2E && playerSide == Black then 1 else 0)
      ensures myTurn == (mode == P2E && playerSide == startTurn)
      ensures outbox == (if mode == P2P then [Ready] else [])
      ensures lastFault.None?
    {
      this.mode := mode;
      this.playerSide := playerSide;
      this.aiLevel := aiLevel;
      this.timeLimit := timeLimit;
      this.socketId := socketId;
      var g := BuildGround();
      var b := InitPieces(config);
      RowMajorUnique(b);
      ground := g;
      pieces := b;
      turn := startTurn;
      engineLog := [];
      selected := None;
      possibleMoves := [];
      pending := None;
      remainingTime := timeLimit;
      timerRunning := mode == P2E;
      aiScheduled := if mode == P2E && playerSide == Black then 1 else 0;
      myTurn := mode == P2E && playerSide == startTurn;
      currentTurn := White;
      currentPlayer := "";
      side := playerSide;
      isFinished := false;
      obstacles := [];
      currentItem := None;
      outbox := if mode == P2P then [Ready] else [];
      lastFault := None;
    }

    /** `startNewTimer`: the old interval is cancelled and the countdown starts again from the limit. */
    method StartNewTimer()
      modifies this`remainingTime, this`timerRunning
      ensures timerRunning && remainingTime == timeLimit
    {
      timerRunning := true;
      remainingTime := timeLimit;
    }

    /** `performMove`; `crashed` says whether it threw. */
    method PerformMove(from: string, to: string, c: Castling) returns (crashed: bool)
      requires IsLabel(from) && IsLabel(to)
      modifies this`pieces, this`lastFault, this`turn, this`engineLog, this`pending, this`timerRunning,
               this`remainingTime, this`myTurn
      ensures Fields() == MoveOutcome(old(Fields()), from, to, c)
      ensures crashed <==> LocalMoveBoard(old(pieces), from, to, old(turn), c).Crashed?
    {
      var a := LocalMoveBoard(pieces, from, to, turn, c);
      pieces := a.board;
      if a.Crashed? {
        lastFault := Some(a.fault);
        return true;
      }
      var k := a.mover;
      if PromotionDue(pieces[k], turn) {
        if mode == P2E && playerSide != turn {
          pieces := Retype(pieces, k, AutoQueen(turn));
        } else {
          timerRunning := false;
          pending := Some(PawnTrans(k, from, to));
          return false;
        }
      }
      engineLog := engineLog + [EngineMove(from, to)];
      turn := Opposite(turn);
      if mode == P2E {
        myTurn := playerSide == turn;
        StartNewTimer();
      }
      return false;
    }

    /**
     * `performLocalMove`: the human's move, then the selection is dropped
     * and, against the computer, its reply is scheduled unless the game is
     * over (`gameOver`, asked after the move) or the prompt opened.
     */
    method LocalMove(from: string, to: string, c: Castling, gameOver: bool)
      requires IsLabel(from) && IsLabel(to)
      requires StoreValid()
      modifies this`pieces, this`lastFault, this`turn, this`engineLog, this`pending, this`timerRunning,
               this`remainingTime, this`myTurn, this`selected, this`aiScheduled
      ensures Fields() == MoveOutcome(old(Fields()), from, to, c)
      ensures var crashed := LocalMoveBoard(old(pieces), from, to, old(turn), c).Crashed?;
        selected == (if crashed then old(selected) else None) &&
        aiScheduled == old(aiScheduled) + (if !crashed && mode == P2E && !gameOver && pending.None? then 1 else 0)
      ensures StoreValid()
      ensures old(pending).None? ==> TimerQuiet()
      ensures old(UniqueSquares(pieces)) && LocalRookLandsFree(old(pieces), from, to, old(turn), c) ==> UniqueSquares(pieces)
    {
      MoveOutcomeKeepsStore(Fields(), from, to, c);
      if UniqueSquares(pieces) && LocalRookLandsFree(pieces, from, to, turn, c) {
        MoveOutcomeKeepsUnique(Fields(), from, to, c);
      }
      if pending.None? {
        MoveOutcomeQuiet(Fields(), from, to, c);
      }
      var crashed := PerformMove(from, to, c);
      if crashed {
        return;
      }
      selected := None;
      if mode == P2E && !gameOver && pending.None? {
        aiScheduled := aiScheduled + 1;
      }
    }

    /**
     * The computer's scheduled move (`aiMoveAction`'s timeout) as the
     * source has it: it is skipped only when the game is over, so it also
     * runs while the promotion prompt waits.
     */
    method AiMoveAsWritten(gameOver: bool, from: string, to: string, c: Castling)
      requires aiScheduled > 0
      requires IsLabel(from) && IsLabel(to)
      requires StoreValid()
      modifies this`pieces, this`lastFault, this`turn, this`engineLog, this`pending, this`timerRunning,
               this`remainingTime, this`myTurn, this`aiScheduled
      ensures aiScheduled == old(aiScheduled) - 1
      ensures gameOver ==> Fields() == old(Fields())
      ensures !gameOver ==> Fields() == MoveOutcome(old(Fields()), from, to, c)
      ensures StoreValid()
    {
      aiScheduled := aiScheduled - 1;
      if gameOver {
        return;
      }
      MoveOutcomeKeepsStore(Fields(), from, to, c);
      var _ := PerformMove(from, to, c);
    }

    /**
     * The computer's scheduled move with the guard the other call sites
     * use: nothing happens while the game is over or the prompt waits (the
     * promotion choice schedules its own reply).
     */
    method AiMove(gameOver: bool, from: string, to: string, c: Castling)
      requires aiScheduled > 0
      requires IsLabel(from) && IsLabel(to)
      requires Valid()
      modifies this`pieces, this`lastFault, this`turn, this`engineLog, this`pending, this`timerRunning,
               this`remainingTime, this`myTurn, this`aiScheduled
      ensures aiScheduled == old(aiScheduled) - 1
      ensures gameOver || old(pending).Some? ==> Fields() == old(Fields())
      ensures !gameOver && old(pending).None? ==> Fields() == MoveOutcome(old(Fields()), from, to, c)
      ensures Valid()
    {
      aiScheduled := aiScheduled - 1;
      if gameOver || pending.Some? {
        return;
      }
      MoveOutcomeKeepsStore(Fields(), from, to, c);
      MoveOutcomeQuiet(Fields(), from, to, c);
      MoveOutcomeTimer(Fields(), from, to, c);
      var _ := PerformMove(from, to, c);
    }

    /**
     * One tick of the interval. At zero, with the game still open and no
     * prompt waiting, a level-0 suggestion (`from`, `to`) is played for the
     * side on the clock, the selection is dropped and the computer's reply
     * is scheduled; otherwise the countdown goes down by one.
     */
    method Tick(gameOver: bool, from: string, to: string, c: Castling)
      requires timerRunning
      requires IsLabel(from) && IsLabel(to)
      requires Valid()
      modifies this`pieces, this`lastFault, this`turn, this`engineLog, this`pending, this`timerRunning,
               this`remainingTime, this`myTurn, this`selected, this`aiScheduled
      ensures old(remainingTime) == 0 && !gameOver && old(pending).None? ==>
        Fields() == MoveOutcome(old(Fields()), from, to, c) &&
        var crashed := LocalMoveBoard(old(pieces), from, to, old(turn), c).Crashed?;
        selected == (if crashed then old(selected) else None) &&
        aiScheduled == old(aiScheduled) + (if crashed then 0 else 1)
      ensures !(old(remainingTime) == 0 && !gameOver && old(pending).None?) ==>
        Fields() == old(Fields()).(remainingTime := old(remainingTime) - 1) && timerRunning &&
        selected == old(selected) && aiScheduled == old(aiScheduled)
      ensures Valid()
    {
      if remainingTime == 0 && !gameOver && pending.None? {
        MoveOutcomeKeepsStore(Fields(), from, to, c);
        MoveOutcomeQuiet(Fields(), from, to, c);
        MoveOutcomeTimer(Fields(), from, to, c);
        var crashed := PerformMove(from, to, c);
        if crashed {
          return;
        }
        selected := None;
        aiScheduled := aiScheduled + 1;
        return;
      }
      remainingTime := remainingTime - 1;
    }

    /**
     * `pawnTransform`: the prompt's choice. An empty choice does nothing.
     * Otherwise the letter is taken for the side to move (the server's turn
     * in a two-player match, the engine's otherwise); a prompt that points
     * at no record, or a name that is none of the four pieces, throws. The
     * record is rewritten in place and the prompt closes; a two-player
     * match tells the server, any other game tells the engine, restarts the
     * timer and, against the computer, schedules its reply.
     */
    method PawnTransform(name: string)
      requires Valid()
      modifies this`pieces, this`lastFault, this`turn, this`engineLog, this`pending, this`timerRunning,
               this`remainingTime, this`myTurn, this`aiScheduled, this`outbox
      ensures var mover := if mode == P2P then currentTurn else old(turn);
        var letter := PromotionLetter(name, mover);
        var target := if old(pending).Some? then old(pending).value.fromIndex else -1;
        var found := 0 <= target < |old(pieces)|;
        (name == "" ==>
          Fields() == old(Fields()) && aiScheduled == old(aiScheduled) && outbox == old(outbox)) &&
        (name != "" && !found ==>
          lastFault == Some(NoPendingPromotion) && pieces == old(pieces) && pending == old(pending) &&
          turn == old(turn) && engineLog == old(engineLog) && timerRunning == old(timerRunning) &&
          remainingTime == old(remainingTime) && myTurn == old(myTurn) &&
          aiScheduled == old(aiScheduled) && outbox == old(outbox)) &&
        (name != "" && found && letter.None? ==>
          lastFault == Some(UnknownPieceName) && pieces == old(pieces) && pending == old(pending) &&
          turn == old(turn) && engineLog == old(engineLog) && timerRunning == old(timerRunning) &&
          remainingTime == old(remainingTime) && myTurn == old(myTurn) &&
          aiScheduled == old(aiScheduled) && outbox == old(outbox)) &&
        (name != "" && found && letter.Some? ==>
          var p := old(pending).value;
          pieces == Retype(old(pieces), target, letter.value) && pending.None? && lastFault == old(lastFault) &&
          if mode == P2P then
            outbox == old(outbox) + [PawnTransformRequest(p.from, p.to, letter.value)] &&
            turn == old(turn) && engineLog == old(engineLog) && timerRunning == old(timerRunning) &&
            remainingTime == old(remainingTime) && myTurn == old(myTurn) && aiScheduled == old(aiScheduled)
          else
            outbox == old(outbox) && turn == Opposite(old(turn)) &&
            engineLog == old(engineLog) + [EngineMove(p.from, p.to), SetPiece(p.to, letter.value)] &&
            myTurn == (playerSide == turn) && timerRunning && remainingTime == timeLimit &&
            aiScheduled == old(aiScheduled) + (if mode == P2E then 1 else 0))
      ensures Valid()
    {
      if name == "" {
        return;
      }
      var mover := if mode == P2P then currentTurn else turn;
      var letter := PromotionLetter(name, mover);
      if pending.None? || !(0 <= pending.value.fromIndex < |pieces|) {
        lastFault := Some(NoPendingPromotion);
        return;
      }
      if letter.None? {
        lastFault := Some(UnknownPieceName);
        return;
      }
      var p := pending.value;
      RetypeKeeps(pieces, p.fromIndex, letter.value);
      pieces := Retype(pieces, p.fromIndex, letter.value);
      pending := None;
      if mode == P2P {
        outbox := outbox + [PawnTransformRequest(p.from, p.to, letter.value)];
      } else {
        engineLog := engineLog + [EngineMove(p.from, p.to), SetPiece(p.to, letter.value)];
        turn := Opposite(turn);
        myTurn := playerSide == turn;
        StartNewTimer();
        if mode == P2E {
          aiScheduled := aiScheduled + 1;
        }
      }
    }

    /** `selectLocalPiece`: the record at index i becomes the selection, with the engine's moves for its square. */
    method SelectLocalPiece(i: int, moves: seq<string>)
      requires 0 <= i < |pieces|
      modifies this`selected, this`possibleMoves
      ensures selected == Some(pieces[i].id) && possibleMoves == moves
    {
      selected := Some(pieces[i].id);
      possibleMoves := moves;
    }

    /** `deselectPiece`: a two-player match asks the server; any other game drops the selection itself. */
    method DeselectPiece()
      modifies this`selected, this`outbox
      ensures old(selected).None? ==> selected == old(selected) && outbox == old(outbox)
      ensures old(selected).Some? && mode == P2P ==> selected == old(selected) && outbox == old(outbox) + [UnSelectRequest]
      ensures old(selected).Some? && mode != P2P ==> selected.None? && outbox == old(outbox)
    {
      if selected.Some? {
        if mode == P2P {
          outbox := outbox + [UnSelectRequest];
        } else {
          selected := None;
        }
      }
    }

    /** `handlePerformMove`, with the mover looked up after the splices; a normal end drops the selection. */
    method HandlePerformMove(m: RemoteMove)
      requires WellFormed(m)
      requires Valid()
      modifies this`pieces, this`lastFault, this`selected, this`possibleMoves
      ensures var a := RemoteMoveBoard(old(pieces), m, currentTurn);
        pieces == a.board &&
        (a.Crashed? ==> lastFault == Some(a.fault) && selected == old(selected) && possibleMoves == old(possibleMoves)) &&
        (a.Done? ==> lastFault == old(lastFault) && selected.None? && possibleMoves == [])
      ensures Valid()
      ensures old(UniqueSquares(pieces)) && RemoteRookLandsFree(old(pieces), SquareOf(m.to), FlagsOf(m)) ==> UniqueSquares(pieces)
    {
      RemoteMoveBoardKeepsStore(pieces, m, currentTurn);
      if UniqueSquares(pieces) && RemoteRookLandsFree(pieces, SquareOf(m.to), FlagsOf(m)) {
        RemoteMoveBoardKeepsUnique(pieces, m, currentTurn);
      }
      AdoptApplied(RemoteMoveBoard(pieces, m, currentTurn));
    }

    /** The end of a server-pushed move: the store becomes the applier's; a throw is recorded, a normal end drops the selection. */
    method AdoptApplied(a: Applied)
      requires DistinctIds(a.board) && AllInBounds(a.board)
      requires TimerQuiet() && (mode == P2P ==> !timerRunning)
      modifies this`pieces, this`lastFault, this`selected, this`possibleMoves
      ensures pieces == a.board
      ensures a.Crashed? ==> lastFault == Some(a.fault) && selected == old(selected) && possibleMoves == old(possibleMoves)
      ensures a.Done? ==> lastFault == old(lastFault) && selected.None? && possibleMoves == []
      ensures Valid()
    {
      pieces := a.board;
      if a.Crashed? {
        lastFault := Some(a.fault);
        return;
      }
      selected := None;
      possibleMoves := [];
    }

    /**
     * The turn bookkeeping that opens `handleChangeTurn`: the finished flag
     * becomes a strict boolean, and the client's colour follows from whether
     * it is the player to move.
     */
    method ChangeTurnBookkeeping(p: ChangeTurn)
      modifies this`isFinished, this`currentTurn, this`currentPlayer, this`myTurn, this`side
      ensures isFinished <==> p.isFinished == Some(true)
      ensures currentTurn == p.currentTurn && currentPlayer == p.currentPlayer
      ensures myTurn <==> p.currentPlayer == socketId
      ensures side == (if p.currentPlayer == socketId then p.currentTurn else Opposite(p.currentTurn))
      ensures side == currentTurn <==> myTurn
    {
      isFinished := p.isFinished == Some(true);
      currentTurn := p.currentTurn;
      currentPlayer := p.currentPlayer;
      if currentPlayer == socketId {
        myTurn := true;
        side := currentTurn;
      } else {
        side := Opposite(currentTurn);
        myTurn := false;
      }
    }

    /**
     * `handleChangeTurn`: the turn bookkeeping above, then the obstacle list
     * (when sent) is redrawn, the item choice is dropped and so is the
     * selection.
     */
    method HandleChangeTurn(p: ChangeTurn)
      modifies this`isFinished, this`currentTurn, this`currentPlayer, this`myTurn, this`side, this`selected,
               this`possibleMoves, this`obstacles, this`currentItem
      ensures isFinished <==> p.isFinished == Some(true)
      ensures currentTurn == p.currentTurn && currentPlayer == p.currentPlayer
      ensures myTurn <==> p.currentPlayer == socketId
      ensures side == (if p.currentPlayer == socketId then p.currentTurn else Opposite(p.currentTurn))
      ensures side == currentTurn <==> myTurn
      ensures selected.None? && possibleMoves == []
      ensures obstacles == (if p.obstacleArray.Some? then DrawnObstacles(p.obstacleArray.value) else old(obstacles))
      ensures currentItem.None?
    {
      ChangeTurnBookkeeping(p);
      if p.obstacleArray.Some? {
        SetObstacles(p.obstacleArray.value);
      }
      currentItem := None;
      selected := None;
      possibleMoves := [];
    }

    /**
     * `handleSelectPiece`: the first record on the announced square becomes
     * the selection; the server's moves are taken only on this client's
     * turn. An empty square throws.
     */
    method HandleSelectPiece(fen: string, moves: seq<string>)
      requires IsLabel(fen)
      modifies this`selected, this`possibleMoves, this`lastFault
      ensures var k := FindAt(pieces, SquareOf(fen));
        (k == -1 ==>
          lastFault == Some(NoRecordAtSquare) && selected == old(selected) && possibleMoves == old(possibleMoves)) &&
        (k != -1 ==>
          lastFault == old(lastFault) && selected == Some(pieces[k].id) && pieces[k].sq == SquareOf(fen) &&
          possibleMoves == (if side == currentTurn then moves else old(possibleMoves)))
    {
      var k := FindAt(pieces, SquareOf(fen));
      if k == -1 {
        lastFault := Some(NoRecordAtSquare);
        return;
      }
      selected := Some(pieces[k].id);
      if side == currentTurn {
        possibleMoves := moves;
      }
    }

    /** `handleUnSelectPiece`. */
    method HandleUnSelectPiece()
      modifies this`selected, this`possibleMoves
      ensures selected.None? && possibleMoves == []
    {
      selected := None;
      possibleMoves := [];
    }

    /** `handleRemainingTime`: the server's countdown replaces the local one. */
    method HandleRemainingTime(remaining: int)
      modifies this`remainingTime
      ensures remainingTime == remaining
    {
      remainingTime := remaining;
    }

    /**
     * `handlePawnTransform`: on this client's turn the prompt opens for the
     * first record on `from` (-1 when there is none).
     */
    method HandlePawnTransform(from: string, to: string)
      requires IsLabel(from)
      requires mode == P2P && Valid()
      modifies this`pending
      ensures side != currentTurn ==> pending == old(pending)
      ensures side == currentTurn ==> pending == Some(PawnTrans(FindAt(pieces, SquareOf(from)), from, to))
      ensures Valid()
    {
      if side != currentTurn {
        return;
      }
      pending := Some(PawnTrans(FindAt(pieces, SquareOf(from)), from, to));
    }

    /** `setObstacles`: the old obstacle meshes go, and one is made for each ice wall and petrified square. */
    method SetObstacles(arr: seq<Obstacle>)
      modifies this`obstacles
      ensures obstacles == DrawnObstacles(arr)
    {
      obstacles := [];
      var i := 0;
      while i < |arr|
        invariant 0 <= i <= |arr|
        invariant obstacles == DrawnObstacles(arr[..i])
      {
        assert arr[..i + 1] == arr[..i] + [arr[i]];
        DrawnObstaclesAppend(arr[..i], [arr[i]]);
        if arr[i].kind == IceWall || arr[i].kind == Petrify {
          obstacles := obstacles + [arr[i]];
        }
        i := i + 1;
      }
      assert arr[..i] == arr;
    }
  }

  // The race below: against the computer, the human plays white; the white
  // king stands on E1, a white pawn on A7 and the black king on H8, in the
  // row-major order the store is built in.

  /** The fallback's move: the pawn reaches A8 and nothing else moves. */
  lemma RaceFallbackMove()
    ensures LocalMoveBoard([Piece(0, 'K', Square(0, 4)), Piece(1, 'P', Square(6, 0)), Piece(2, 'k', Square(7, 7))],
                           "A7", "A8", White, NoFlags) ==
            Done([Piece(0, 'K', Square(0, 4)), Piece(1, 'P', Square(7, 0)), Piece(2, 'k', Square(7, 7))], 1)
  {
    var b := [Piece(0, 'K', Square(0, 4)), Piece(1, 'P', Square(6, 0)), Piece(2, 'k', Square(7, 7))];
    assert SquareOf("A7") == Square(6, 0) && SquareOf("A8") == Square(7, 0);
    assert FindAt(b, Square(7, 0)) == -1;
    assert Capture(b, Square(7, 0)) == b;
    assert FindAt(b, Square(6, 0)) == 1;
    assert MoveTo(b, 1, Square(7, 0)) == [Piece(0, 'K', Square(0, 4)), Piece(1, 'P', Square(7, 0)), Piece(2, 'k', Square(7, 7))];
  }

  /**
   * The computer's move: the fallback did not call `game.move`, so the
   * engine is still on white's turn and suggests a white move, here the
   * king from E1 to E2.
   */
  lemma RaceComputerMove()
    ensures LocalMoveBoard([Piece(0, 'K', Square(0, 4)), Piece(1, 'P', Square(7, 0)), Piece(2, 'k', Square(7, 7))],
                           "E1", "E2", White, NoFlags) ==
            Done([Piece(0, 'K', Square(1, 4)), Piece(1, 'P', Square(7, 0)), Piece(2, 'k', Square(7, 7))], 0)
  {
    var b := [Piece(0, 'K', Square(0, 4)), Piece(1, 'P', Square(7, 0)), Piece(2, 'k', Square(7, 7))];
    assert SquareOf("E1") == Square(0, 4) && SquareOf("E2") == Square(1, 4);
    assert FindAt(b, Square(1, 4)) == -1;
    assert Capture(b, Square(1, 4)) == b;
    assert FindAt(b, Square(0, 4)) == 0;
    assert MoveTo(b, 0, Square(1, 4)) == [Piece(0, 'K', Square(1, 4)), Piece(1, 'P', Square(7, 0)), Piece(2, 'k', Square(7, 7))];
  }

  /**
   * The timer's fallback as written: the human's clock runs out and the
   * fallback plays the pawn to A8. The prompt opens and the timer stops,
   * but the tick still schedules the computer, which then moves for the
   * human's colour (the engine is still on white's turn), tells the engine,
   * hands the turn to black and restarts the timer under the open prompt.
   */
  method PromotionRaceAsWritten() returns (promptOpenTimerRunning: bool)
    ensures promptOpenTimerRunning
  {
    var s := new GameSession(P2E, White, 1, 30, "", White, map[]);
    s.pieces := [Piece(0, 'K', Square(0, 4)), Piece(1, 'P', Square(6, 0)), Piece(2, 'k', Square(7, 7))];
    s.remainingTime := 0;
    RaceFallbackMove();
    assert PromotionDue(Piece(1, 'P', Square(7, 0)), White);
    s.Tick(false, "A7", "A8", NoFlags);
    assert s.pending == Some(PawnTrans(1, "A7", "A8")) && s.aiScheduled == 1 && s.turn == White;
    RaceComputerMove();
    assert !PromotionDue(Piece(0, 'K', Square(1, 4)), White);
    s.AiMoveAsWritten(false, "E1", "E2", NoFlags);
    promptOpenTimerRunning := s.pending.Some? && s.timerRunning;
  }
}

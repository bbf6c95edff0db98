# Board-and-turn engine of the 3D chess scene

This project models the logic of the game scene of a browser chess client,
without its rendering. That logic lives in `GameScene.js` and in its
refactored copy `Edit.js`. The scene keeps a store of piece records. Each
record has a piece letter, a row and a column. Upper-case letters are white
and lower-case letters are black. Beside the store sits an 8×8 grid of tiles
labelled "A1" … "H8".

The scene applies moves to that store. It has three sources of moves:

- the local player, against the computer or in practice;
- the computer;
- the game server, in a two-player match.

A capture splices the taken record out of the store. The mover's record is
then relocated, and a castling king drags its rook along. A server-pushed
move can also remove a pawn taken en passant, and can rewrite a promoted
pawn in place. A pawn that reaches its last rank opens a promotion prompt.
A turn timer counts down, and at zero it plays a fallback move. Socket
handlers keep the selection, the turn and the obstacle list in step with
the server. A few pure tables compute rewards.

Modules, one per concern of the scene:

- `Squares`: labels and matrix indices, with their round trip.
- `Pieces`: the record store and its splice and relocate steps, plus `getMyPieces`.
- `Ground`: the tile grid, the construction of the store from the engine's start position, and an item's footprint.
- `Moves`: the local and the server-pushed move appliers, castling, en passant and promotion letters.
- `Finish`: both end-of-game tests.
- `Rewards`: the bonus and refund tables.
- `Session`: the class `GameSession`. Its fields are the scene's state. Its methods are the handlers.

The chess engine is treated as an oracle. Its answers are parameters (castling flags, game over, the suggested move, the legal moves). What the scene asks of it is logged. A JavaScript `TypeError` that ends a handler is modelled as a `Crashed` result or a `lastFault` value, holding the state as it was when the handler threw.

Where the code and its description differ, the model follows the code, with one exception. For `handlePerformMove` the class `GameSession` uses the corrected mover look-up (see "## Findings"); the code as written is modelled by the functions `Moves.RemoteApplyAsWritten` and `Moves.RemoteMoveAsWritten`, which no method of the class calls. A server-pushed move whose mover is missing is skipped silently, not reported. Mouse dispatch is broken because `GameScene.js` declares `selectPiece` twice and shadows the class method `movePiece` with its record-level helper; the model takes the handlers that dispatch was evidently meant to reach.

## Model

| member | source | states |
|---|---|---|
| Squares.ParseLabel | src/views/GameScene/GameScene.js:249 | a label is read exactly when it is a file letter A–H followed by a rank digit 1–8, and then names a board square |
| Squares.Label | src/views/GameScene/GameScene.js:249 | the indicator of a square is two characters and parses back to the same square |
| Squares.LabelOfParse | src/views/GameScene/GameScene.js:249 | parsing a label and printing it again gives the label back |
| Squares.ParseOfLabel | src/views/GameScene/GameScene.js:249 | printing a square and parsing the label gives the square back |
| Squares.LabelInjective | src/views/GameScene/GameScene.js:249 | different squares have different labels |
| Squares.CastlingSquareLabels | src/views/GameScene/GameScene.js:486-514 | the literal labels A1, D1, F1, H1, A8, D8, F8, H8, C1, G1, C8, G8 name the corner and castling squares |
| Squares.Opposite | src/views/GameScene/Edit.js:928-936 | the other colour is never the same colour |
| Pieces.ToUpper | src/views/GameScene/GameScene.js:954-955 | a character changes exactly when it is a lower-case letter, and a–z go to A–Z letter for letter |
| Pieces.ToUpperIdempotent | src/views/GameScene/GameScene.js:954-955 | upper-casing twice is upper-casing once, and its result always passes the white test |
| Pieces.ToUpperOnto | src/views/GameScene/GameScene.js:954-955 | each upper-case letter is the image of exactly one lower-case letter |
| Pieces.IsWhiteKind | src/views/GameScene/GameScene.js:954-958 | `pieceType === pieceType.toUpperCase()` holds exactly for the characters that are not lower-case letters |
| Pieces.SideOfKind | src/views/GameScene/GameScene.js:954-958 | a letter is black exactly when it is lower case |
| Pieces.FindAt | src/views/GameScene/GameScene.js:470 | `findIndex` gives the first record on the square, or -1 exactly when no record stands there |
| Pieces.RemoveAt | src/views/GameScene/GameScene.js:474 | `splice(k, 1)` drops the record at k and shifts the later ones down by one |
| Pieces.Capture | src/views/GameScene/GameScene.js:469-475 | the store shrinks by one exactly when the target square is occupied |
| Pieces.CaptureRemovesOne | src/views/GameScene/GameScene.js:469-475 | capture splices out exactly the first record on the target, keeps the others in order, and adds no record |
| Pieces.CaptureClears | src/views/GameScene/GameScene.js:469-475 | with one record per square, nothing is left on a captured square |
| Pieces.CaptureKeeps | src/views/GameScene/GameScene.js:469-475 | capture keeps squares unique, identities distinct and records on the board |
| Pieces.RemoveAtKeeps | src/views/GameScene/GameScene.js:474 | a splice keeps squares unique, identities distinct and records on the board |
| Pieces.MoveTo | src/views/GameScene/GameScene.js:444-446 | `movePiece` moves one record to the square and changes no other record |
| Pieces.MoveToSameRecords | src/views/GameScene/GameScene.js:444-446 | relocating a record changes no identity and no letter |
| Pieces.MoveToKeeps | src/views/GameScene/GameScene.js:444-446 | relocating onto a board square keeps identities distinct and records on the board |
| Pieces.MoveToKeepsUnique | src/views/GameScene/GameScene.js:444-446 | relocating a record onto a free square keeps one record per square |
| Pieces.MoveToKeepsFree | src/views/GameScene/GameScene.js:444-446 | a free square stays free when a record moves to another square |
| Pieces.CaptureKeepsFree | src/views/GameScene/GameScene.js:469-475 | a free square stays free when a record is spliced out |
| Pieces.Retype | src/views/GameScene/GameScene.js:1855-1856 | promotion rewrites the letter of that one record in place |
| Pieces.RetypeKeeps | src/views/GameScene/GameScene.js:1470-1471 | rewriting a letter keeps identities distinct and records on the board |
| Pieces.RetypeKeepsSquares | src/views/GameScene/GameScene.js:1470-1471 | rewriting a letter occupies the same squares, still one record per square |
| Pieces.OccupiedAppend | src/views/GameScene/GameScene.js:358-363 | pushing a record occupies its square and no other new square |
| Pieces.SideFilter | src/views/GameScene/GameScene.js:949-962 | the filter keeps a record exactly when its letter's case matches the side |
| Pieces.MyPieces | src/views/GameScene/GameScene.js:949-962 | practice mode gives every record; against the computer, exactly the player's colour; in a match, exactly the colour the server assigned; always a sub-list of the store |
| Ground.ToneAlternates | src/views/GameScene/GameScene.js:238 | the parity rule makes neighbouring tiles alternate in tone |
| Ground.IndicatorNamesTile | src/views/GameScene/GameScene.js:249-256 | each tile's indicator names its own square, and no two tiles share one |
| Ground.BuildGround | src/views/GameScene/Edit.js:237-256 | the grid is 8×8, and tile (i, j) has row i, column j, the label of (i, j) and the parity tone |
| Ground.OneTilePerSquare | src/views/GameScene/Edit.js:237-256 | each board square has exactly one tile, found at its own indices and by its label |
| Ground.InitPieces | src/views/GameScene/GameScene.js:231-365 | the store has a record exactly for each label of the start position, with its letter, its id as its index, in row-major order |
| Ground.RowMajorUnique | src/views/GameScene/GameScene.js:231-365 | a store built in row-major order has at most one record per square |
| Ground.EffectArray | src/views/GameScene/GameScene.js:904-916 | an ice wall covers the tile and those of its left and right neighbours that exist, in column order (2 labels at an edge, 3 otherwise); a petrification covers the tile alone; any other item covers nothing |
| Moves.LocalRook | src/views/GameScene/GameScene.js:486-514 | only the side's own king drags a rook, along the side's home rank, from the corner on the king's side to the square beside the king's target |
| Moves.RemoteRook | src/views/GameScene/GameScene.js:1872-1895 | a rook moves exactly when some flag is set; the white flags move a rook on rank 1, the black ones on rank 8, from a corner to the square beside the king's target |
| Moves.RelocateRook | src/views/GameScene/GameScene.js:1872-1895 | the rook step keeps the store's length and the mover's index; a throw (`movePiece(undefined, …)`) leaves the store as it stood |
| Moves.LocalRookExactly | src/views/GameScene/GameScene.js:486-514 | each local rook pair is chosen exactly when turn, king letter, target and flag all match, and none is chosen otherwise |
| Moves.RemoteRookPriority | src/views/GameScene/Edit.js:1127-1151 | the server's flags form an if/else-if chain: at most one rook, in the order A1→D1, H1→F1, A8→D8, H8→F8 |
| Moves.LocalMoveBoard | src/views/GameScene/GameScene.js:462-514 | a finished local move names a mover that is in the store |
| Moves.LocalMoveFaults | src/views/GameScene/GameScene.js:477-487 | the handler throws for a missing mover exactly when no record is on `from` after the capture; a missing rook throws only after the mover was found |
| Moves.LocalMoveKeepsRecords | src/views/GameScene/GameScene.js:469-482 | the count drops by one exactly when `to` was occupied; no record changes identity or letter |
| Moves.LocalMoveRelocates | src/views/GameScene/GameScene.js:477-482 | the mover is the first record on `from` and ends on `to`; without castling no other record changes |
| Moves.LocalMoveCastles | src/views/GameScene/GameScene.js:486-514 | when castling, the first record on the rook's corner ends on the rook's destination and only it and the king change; a missing rook throws |
| Moves.RelocateRookKeeps | src/views/GameScene/GameScene.js:486-514 | the rook step keeps identities distinct and records on the board |
| Moves.LocalMoveKeepsStore | src/views/GameScene/GameScene.js:462-514 | a local move, finished or not, keeps identities distinct and records on the board |
| Moves.LocalMoveKeepsUnique | src/views/GameScene/GameScene.js:462-514 | because the target is emptied before the mover arrives, a local move, finished or not, keeps one record per square, provided a castling rook lands on a free square |
| Moves.PromotionDue | src/views/GameScene/GameScene.js:516-519 | a promotion is due only for a pawn of the side to move standing on that side's last rank |
| Moves.AutoQueen | src/views/GameScene/GameScene.js:522-525 | the computer promotes to a queen of its own colour |
| Moves.PromotionLetter | src/views/GameScene/Edit.js:709-723 | a letter results exactly for Knight, Bishop, Rook and Queen; it has the colour of the side to move and names the chosen piece |
| Moves.EnPassantVictim | src/views/GameScene/GameScene.js:1839-1846 | the victim is in the target's column, one row behind it for white and one row ahead for black |
| Moves.AfterSplices | src/views/GameScene/GameScene.js:1825-1852 | the capture splice and the en-passant splice take out at most two records |
| Moves.AfterSplicesSubMultiset | src/views/GameScene/GameScene.js:1825-1852 | the splices leave no record the store did not hold |
| Moves.PlaceMover | src/views/GameScene/GameScene.js:1854-1871 | the handler throws exactly when the index is past the end of the store; otherwise the store keeps its length |
| Moves.RemoteApplyAsWritten | src/views/GameScene/GameScene.js:1821-1895 | the handler as written: the mover's index is the one taken before the en-passant splice; it throws for a missing mover exactly when that index is past the end of the spliced store |
| Moves.RemoteMoveAsWritten | src/views/GameScene/GameScene.js:1821-1895 | the same on the payload's labels; a payload without `castling` throws at the rook chain, after the mover moved |
| Moves.RemoteApply | src/views/GameScene/Edit.js:1076-1151 | a finished server move names a mover in the store or -1; only a missing rook throws, and only when a flag is set |
| Moves.RemoteMoveBoard | src/views/GameScene/GameScene.js:1821-1895 | the corrected handler on the payload's labels: it throws only at a missing rook or a missing `castling` record, and at the latter exactly when the record is missing |
| Moves.RelocateRookFacts | src/views/GameScene/Edit.js:1127-1151 | the rook step keeps the store's length, throws exactly when the corner is empty, and otherwise moves only the corner's first record |
| Moves.RemoteMoveCount | src/views/GameScene/GameScene.js:1825-1852 | the store loses the captured record and the en-passant victim, each only when present, and nothing else |
| Moves.RemoteMoveRelocates | src/views/GameScene/GameScene.js:1854-1871 | the mover keeps its identity, takes the promoted letter when one is given, and ends on `to` unless it lands on the flagged rook's corner; promotion adds and deletes no record; without flags nothing else changes |
| Moves.RemoteMoveKeepsStore | src/views/GameScene/Edit.js:1076-1151 | a server move keeps identities distinct and records on the board |
| Moves.RemoteMoveBoardKeepsStore | src/views/GameScene/Edit.js:1076-1151 | the same for a payload with labels and an optional `castling` record |
| Moves.SplicesKeepUnique | src/views/GameScene/GameScene.js:1825-1852 | on a store with one record per square, the splices keep that, leave the target empty and keep free squares free |
| Moves.RemoteMoveKeepsUnique | src/views/GameScene/GameScene.js:1821-1895 | a server move, finished or not, keeps one record per square, provided the flagged rook lands on a free square other than the target |
| Moves.RemoteMoveBoardKeepsUnique | src/views/GameScene/GameScene.js:1821-1895 | the same for a payload with labels, including a throw at a missing `castling` record |
| Moves.RemoteEnPassantClears | src/views/GameScene/GameScene.js:1839-1852 | after an en-passant capture on a store with one record per square, nothing is left on the victim's square |
| Moves.RemoteMoveCastles | src/views/GameScene/Edit.js:1127-1151 | with a castling flag, the chosen rook ends on its destination and only it and the mover change; a missing rook throws |
| Moves.AsWrittenAgreesWhenVictimLater | src/views/GameScene/GameScene.js:1836-1871 | the stale index is harmless when no victim is spliced or the victim comes after the mover |
| Moves.AsWrittenMisplacesMover | src/views/GameScene/GameScene.js:1836-1871 | when the victim comes before the mover, the source moves the next record instead, or throws when there is none; the mover stays on `from` |
| Moves.StaleIndexExample | src/views/GameScene/Edit.js:1091-1125 | black takes en passant from D4 to E3: as written the king lands on E3 and the pawn stays on D4 |
| Moves.StaleIndexCorrected | src/views/GameScene/Edit.js:1091-1125 | the same move with the mover looked up after the splices: the pawn lands on E3, the victim is gone and the king stays on E8 |
| Finish.CheckIfFinished | src/views/GameScene/GameScene.js:1388-1396 | the game is over exactly when the engine allows no move from any square, or its configuration says it is finished |
| Finish.CheckIfFinishedGuarded | src/views/GameScene/Edit.js:638-650 | the game counts as open exactly when the engine, its board and `isGameOver` are all present and `isGameOver()` is false |
| Finish.GuardedAgreesWithEngine | src/views/GameScene/Edit.js:638-650 | with the whole engine present the guarded test returns exactly `isGameOver()` |
| Rewards.CalcBonus | src/views/GameScene/Edit.js:461-466 | a bonus is paid exactly for the streaks in the table, and is one of 0, 50, 100, 300 |
| Rewards.CalcBonusMatchesTable | src/views/GameScene/Edit.js:461-466 | 3→50, 5→100, 10→300, and every other streak →0 |
| Rewards.CalcBonusGrows | src/views/GameScene/GameScene.js:1211-1216 | a longer rewarded streak earns more |
| Rewards.CalcRefundAmount | src/views/GameScene/Edit.js:468-487 | a refund is defined exactly for the four fee rooms, and is positive |
| Rewards.CalcRefundMatchesTable | src/views/GameScene/Edit.js:468-487 | Silver→50, Gold→100, Platinum→200, Diamond→500, any other room undefined |
| Rewards.RefundsRiseWithRank | src/views/GameScene/GameScene.js:1218-1237 | refunds rise from Silver to Diamond, and the Classic Room gets none |
| Session.DrawnObstacles | src/views/GameScene/GameScene.js:1595-1611 | exactly the ice walls and petrified squares of the list get a mesh |
| Session.DrawnObstaclesAppend | src/views/GameScene/GameScene.js:1595-1611 | drawing a joined list draws each part in turn |
| Session.GameSession.constructor | src/views/GameScene/GameScene.js:231-424 | the grid and store are built from the start position; a match sends `CS_Ready`; against the computer the timer starts at the limit and the computer opens when the human plays black |
| Session.GameSession.StartNewTimer | src/views/GameScene/GameScene.js:1521-1528 | the old interval is replaced, and the countdown restarts from the limit |
| Session.GameSession.PerformMove | src/views/GameScene/GameScene.js:462-561 | the store after the local move; a last-rank pawn becomes a queen when the computer moved it; otherwise it stops the timer and opens the prompt without calling `game.move`; any other finished move is reported to the engine and, against the computer, restarts the timer; a throw keeps the store as it stood and records the fault |
| Session.GameSession.MoveOutcomeKeepsStore | src/views/GameScene/GameScene.js:462-534 | a move, finished or not, keeps identities distinct and records on the board, including the computer's queen |
| Session.GameSession.MoveOutcomeKeepsUnique | src/views/GameScene/GameScene.js:462-534 | a move keeps one record per square when a castling rook lands on a free square, the computer's queen included |
| Session.GameSession.MoveOutcomeInStep | src/views/GameScene/GameScene.js:462-561 | in `MoveOutcome`, the state `performMove` leaves, the turn passes exactly when `game.move` is called, that call is the only one logged, no record is added, and the countdown is only ever reset, and only against the computer |
| Session.GameSession.MoveOutcomeQuiet | src/views/GameScene/GameScene.js:536-546 | a move that opens the promotion prompt leaves the timer stopped |
| Session.GameSession.MoveOutcomeTimer | src/views/GameScene/GameScene.js:552-560 | only a move against the computer starts the timer |
| Session.GameSession.LocalMove | src/views/GameScene/GameScene.js:992-1001 | the move as above, then the selection is dropped; against the computer its reply is scheduled unless the game is over or the prompt opened; one record per square is kept when a castling rook lands on a free square |
| Session.GameSession.AiMove | src/views/GameScene/GameScene.js:430-440 | the scheduled computer move runs only while the game is open and no prompt waits, and keeps the timer stopped under the prompt |
| Session.GameSession.AiMoveAsWritten | src/views/GameScene/GameScene.js:430-440 | the scheduled computer move is skipped only when the game is over |
| Session.GameSession.Tick | src/views/GameScene/GameScene.js:1530-1550 | at zero, with the game open and no prompt, the fallback move is played, the selection dropped and the computer scheduled; otherwise the countdown falls by exactly one; the timer never runs under the prompt |
| Session.GameSession.PawnTransform | src/views/GameScene/Edit.js:709-759 | an empty choice does nothing; a prompt without a record or an unknown name throws; otherwise the same record gets the letter of the side to move and the prompt closes; a match tells the server; any other game calls `game.move` and `setPiece`, restarts the timer and, against the computer, schedules its reply |
| Session.GameSession.SelectLocalPiece | src/views/GameScene/GameScene.js:965-969 | the record becomes the selection, with the engine's moves for its square |
| Session.GameSession.DeselectPiece | src/views/GameScene/GameScene.js:1004-1013 | with a selection, a match sends `CS_UnSelectPiece` and any other game drops the selection; without one nothing happens |
| Session.GameSession.HandlePerformMove | src/views/GameScene/Edit.js:1076-1158 | the store after the server's move (mover looked up after the splices); a throw, including one at a missing `castling` record, is recorded; when it finishes, the selection is null and the possible moves are empty; one record per square is kept when the flagged rook lands on a free square other than the target |
| Session.GameSession.ChangeTurnBookkeeping | src/views/GameScene/Edit.js:922-939 | the finished flag is strictly boolean; the client's side is the announced turn when it is the current player and the other colour otherwise, so it may act exactly on its own turn |
| Session.GameSession.HandleChangeTurn | src/views/GameScene/GameScene.js:1667-1767 | the bookkeeping above, then the obstacle list is replaced when sent, the item choice is dropped and the selection is cleared; the handler is line for line the same in Edit.js at 922-1022 |
| Session.GameSession.HandleSelectPiece | src/views/GameScene/Edit.js:1024-1035 | the first record on the square becomes the selection; the server's moves are adopted only when `side == currentTurn`; an empty square throws |
| Session.GameSession.HandleUnSelectPiece | src/views/GameScene/Edit.js:1160-1165 | the selection is null and the possible moves are empty |
| Session.GameSession.HandleRemainingTime | src/views/GameScene/Edit.js:1167-1172 | the server's countdown replaces the local one |
| Session.GameSession.HandlePawnTransform | src/views/GameScene/Edit.js:1059-1074 | only on this client's turn, the prompt opens for the first record on `from` (-1 when none) |
| Session.GameSession.SetObstacles | src/views/GameScene/Edit.js:842-867 | the obstacle list is replaced wholesale by the ice walls and petrified squares of the new list, in order |
| Session.PromotionRaceAsWritten | src/views/GameScene/GameScene.js:1530-1545 | as written, the timer's fallback can leave the promotion prompt open with the timer running, after the computer has moved for the human's colour |

## Left out

- Rendering: the scene, camera, lights and composer, model loading, mesh cloning, billboards and hover previews. A record's mesh is not modelled, and a record's identity is its `id`.
- Float geometry, and everything built on it: mouse raycasting and mesh positions, `moveFinished`, animation, resizing.
- Mouse dispatch (`mouseDownAction`, `activateItem`, click-to-move). It depends on raycasting, and the duplicate method names in `GameScene.js` misroute it. The handlers it should reach are modelled.
- The wallet and contract calls, `localStorage`, and bonus eligibility. They are foreign I/O; only the two tables are modelled.
- Socket transport. Inbound messages are method calls, and outbound `emit`s are appended to `outbox`. Only the `emit`s of the modelled handlers appear.
- Real scheduling. An interval tick is `Tick` and a computer timeout is `AiMove`; their order is up to the caller.
- Chess legality, the computer's choice and `isPieceUnderAttack`. These come from the engine and arrive as parameters. `game.move` is assumed to hand the turn to the other side.
- `getMatrixIndexFromFen`, `getFenFromMatrixIndex` and `alphaBet` are not part of this model. The label conversion in `Squares` is defined to agree with the indicator built at `GameScene.js:249`. Moves arrive as well-formed labels (`IsLabel`).
- `timeLimit` is not part of this model, so it is a constructor parameter.
- Before the first `SC_ChangeTurn` the source leaves `side`, `currentTurn` and `currentPlayer` undefined. The model starts them at the player's side, white and "".
- `handlePlayerLogOut`, the victory/lose modals, item activation and jumpy shoes. These are end-of-match UI and item effects; `handlePlayerLogOut` also stores a boolean in `side`.
- `changeTurn`'s truthiness test reads any payload value as true or false. The model takes an optional boolean.
- Session.GameSession.PawnTransform: with an unknown name the source first stores `undefined` as the record's letter and then throws. The model leaves the letter unchanged, because a letter cannot be undefined.
- Session.GameSession.PawnTransform: the source reads `pawnTransProps` after asking React to clear it. Inside the prompt's click handler React batches that write, so the model reads the prompt before closing it.
- `performLocalMove` calls `performMove` and `aiMoveAction` by names that are local to the set-up callback. The model reads them as the instance's `performMove` and `aiMoveAction`.
- Session.GameSession.StoreValid: the class invariant leaves out one record per square (`UniqueSquares`). The source never checks that a castling rook's destination is free; that follows from the engine's legality, which is not part of this model. Moves.LocalMoveKeepsUnique, Moves.RemoteMoveKeepsUnique and Session.GameSession.MoveOutcomeKeepsUnique prove that each move keeps it when the rook lands on a free square, and LocalMove and HandlePerformMove promise it under that condition. AiMove, AiMoveAsWritten, Tick and PawnTransform do not restate it; their new store is MoveOutcome's, or a letter rewrite (Pieces.RetypeKeepsSquares).
- Session.GameSession.HandlePerformMove: applies the corrected mover look-up. The code as written is Moves.RemoteMoveAsWritten, which no method of the class calls.
- Session.GameSession.LocalMove: the model does not claim the timer stays quiet when a move is made while the prompt is already open. The prompt covers the board, so the source never makes such a move.
- Pieces.ToUpper: ASCII only. The source's `toUpperCase` also folds non-ASCII letters, but piece letters are ASCII.

## Findings

| source | as written | input that shows it | evidently intended | confidence | as-written member | corrected member |
|---|---|---|---|---|---|---|
| src/views/GameScene/GameScene.js:1836-1871 (also src/views/GameScene/Edit.js:1091-1125) | `handlePerformMove` finds the mover's index, then splices out the en-passant victim, then relocates whatever record now sits at that index | black pawn on D4 takes the white pawn on E4 en passant to E3; store [white P on E4, black p on D4, black k on E8] | the pawn lands on E3 and the victim is gone; the mover is looked up after the splices | high, not executed | Moves.StaleIndexExample | Moves.RemoteEnPassantClears |
| src/views/GameScene/GameScene.js:1533-1543 (also src/views/GameScene/Edit.js:788-798) | when the fallback move at zero opens the promotion prompt, the tick still schedules the computer; since the fallback did not call `game.move`, the engine is still on the human's turn, so the computer moves for the human's colour, hands the turn over and restarts the timer under the prompt | against the computer, the human plays white: white king on E1, white pawn on A7, black king on H8, clock at 0; fallback A7→A8, then the computer, asked on white's turn, plays E1→E2 | the computer does not move while the prompt waits, as `performLocalMove` and the tick's own guard already ensure | medium, not executed | Session.PromotionRaceAsWritten | Session.GameSession.AiMove |

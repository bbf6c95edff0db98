/**
 * The move applier: what `performMove` (computer and practice games) and
 * `handlePerformMove` (a move pushed by the server in a two-player match)
 * do to the piece store, stripped of meshes. Both first splice out the
 * record standing on the target square, then relocate the mover, then
 * relocate a castling rook. The server path also removes an en-passant
 * victim and rewrites a promoted pawn in place.
 *
 * A JavaScript TypeError (reading a field of a record that is not there)
 * ends the handler; the model returns `Crashed` with the store as it stood
 * at that moment.
 */
module Moves {
  import opened Wrappers
  import opened Squares
  import opened Pieces

  datatype Castling = Castling(whiteLong: bool, whiteShort: bool, blackLong: bool, blackShort: bool)

  /** Why a handler threw. */
  datatype Fault =
    | NoMover             // no record stands where the mover was looked up
    | NoRook              // the castling rook is not on its corner
    | NoPendingPromotion  // the promotion prompt points at no record
    | UnknownPieceName    // the chosen promotion name is not one of the four pieces
    | NoRecordAtSquare    // a selection names an empty square
    | NoCastlingFlags     // a server move carries no `castling` record

  /** The store after a move, with the mover's index (-1: no mover was found), or the store when the handler threw. */
  datatype Applied = Done(board: seq<Piece>, mover: int) | Crashed(board: seq<Piece>, fault: Fault)

  // ---------------------------------------------------------------------------
  // Castling rooks

  /** The rook a local king move drags along: the turn, the king's letter, the target label and the engine's flag must all match. */
  function LocalRook(turn: Side, kind: char, to: string, c: Castling): (r: Option<(Square, Square)>)
    ensures r.Some? ==> kind == (if turn == White then 'K' else 'k')
    ensures r.Some? ==> IsLabel(to) && RookBesideKing(r.value, SquareOf(to), if turn == White then 0 else BoardSize - 1)
  {
    CastlingSquareLabels();
    if turn == White then
      if kind == 'K' && to == "C1" && c.whiteLong then Some((A1, D1))
      else if kind == 'K' && to == "G1" && c.whiteShort then Some((H1, F1))
      else None
    else
      if kind == 'k' && to == "C8" && c.blackLong then Some((A8, D8))
      else if kind == 'k' && to == "G8" && c.blackShort then Some((H8, F8))
      else None
  }

  /** A castling rook leaves its corner on `rank` for the square beside the king's target, on the centre side. */
  predicate RookBesideKing(rook: (Square, Square), kingTo: Square, rank: int) {
    var (src, dst) := rook;
    src.row == dst.row == kingTo.row == rank &&
    ((src.col == 0 && dst.col == 3 && kingTo.col == 2) || (src.col == 7 && dst.col == 5 && kingTo.col == 6))
  }

  /** The rook a server-pushed move relocates: the first flag set in the payload wins. */
  function RemoteRook(c: Castling): (r: Option<(Square, Square)>)
    ensures r.Some? <==> c.whiteLong || c.whiteShort || c.blackLong || c.blackShort
    ensures r.Some? ==>
      var (src, dst) := r.value;
      src.row == dst.row == (if c.whiteLong || c.whiteShort then 0 else BoardSize - 1) &&
      ((src.col == 0 && dst.col == 3) || (src.col == 7 && dst.col == 5))
  {
    if c.whiteLong then Some((A1, D1))
    else if c.whiteShort then Some((H1, F1))
    else if c.blackLong then Some((A8, D8))
    else if c.blackShort then Some((H8, F8))
    else None
  }

  /** Each local rook pair is chosen exactly when its turn, king, target and flag line up. */
  lemma LocalRookExactly(turn: Side, kind: char, to: string, c: Castling)
    ensures LocalRook(turn, kind, to, c) == Some((A1, D1)) <==> turn == White && kind == 'K' && to == "C1" && c.whiteLong
    ensures LocalRook(turn, kind, to, c) == Some((H1, F1)) <==> turn == White && kind == 'K' && to == "G1" && c.whiteShort
    ensures LocalRook(turn, kind, to, c) == Some((A8, D8)) <==> turn == Black && kind == 'k' && to == "C8" && c.blackLong
    ensures LocalRook(turn, kind, to, c) == Some((H8, F8)) <==> turn == Black && kind == 'k' && to == "G8" && c.blackShort
    ensures LocalRook(turn, kind, to, c).None? <==>
      !(turn == White && kind == 'K' && ((to == "C1" && c.whiteLong) || (to == "G1" && c.whiteShort))) &&
      !(turn == Black && kind == 'k' && ((to == "C8" && c.blackLong) || (to == "G8" && c.blackShort)))
  {
  }

  /** The server's flags form an if/else-if chain: one rook at most, in the order A1, H1, A8, H8. */
  lemma RemoteRookPriority(c: Castling)
    ensures RemoteRook(c) == Some((A1, D1)) <==> c.whiteLong
    ensures RemoteRook(c) == Some((H1, F1)) <==> !c.whiteLong && c.whiteShort
    ensures RemoteRook(c) == Some((A8, D8)) <==> !c.whiteLong && !c.whiteShort && c.blackLong
    ensures RemoteRook(c) == Some((H8, F8)) <==> !c.whiteLong && !c.whiteShort && !c.blackLong && c.blackShort
    ensures RemoteRook(c).None? <==> !c.whiteLong && !c.whiteShort && !c.blackLong && !c.blackShort
  {
  }

  /** The rook step: `movePiece(rook[0], ...)` on the first record at the corner; none there is a TypeError. */
  function RelocateRook(b: seq<Piece>, rook: Option<(Square, Square)>, mover: int): (a: Applied)
    requires -1 <= mover < |b|
    ensures |a.board| == |b|
    ensures a.Crashed? ==> rook.Some? && a == Crashed(b, NoRook)
    ensures a.Done? ==> a.mover == mover
  {
    match rook
    case None => Done(b, mover)
    case Some((src, dst)) =>
      var r := FindAt(b, src);
      if r == -1 then Crashed(b, NoRook) else Done(MoveTo(b, r, dst), mover)
  }

  // ---------------------------------------------------------------------------
  // Local move (`performMove`, store part)

  /**
   * Capture, relocation of the mover, then the castling rook. The castling
   * test reads the mover's `pieceType`, so a missing mover throws there.
   */
  function LocalMoveBoard(b: seq<Piece>, from: string, to: string, turn: Side, c: Castling): (a: Applied)
    requires IsLabel(from) && IsLabel(to)
    ensures a.Done? ==> 0 <= a.mover < |a.board|
  {
    var b1 := Capture(b, SquareOf(to));
    var k := FindAt(b1, SquareOf(from));
    if k == -1 then Crashed(b1, NoMover)
    else
      var b2 := MoveTo(b1, k, SquareOf(to));
      RelocateRook(b2, LocalRook(turn, b2[k].kind, to, c), k)
  }

  /** Only a failed look-up of the mover or of the rook throws, and the capture has happened by then. */
  lemma LocalMoveFaults(b: seq<Piece>, from: string, to: string, turn: Side, c: Castling)
    requires IsLabel(from) && IsLabel(to)
    ensures var b1 := Capture(b, SquareOf(to));
      var a := LocalMoveBoard(b, from, to, turn, c);
      (a == Crashed(b1, NoMover) <==> !Occupied(b1, SquareOf(from))) &&
      (a.Crashed? && a.fault == NoRook ==> Occupied(b1, SquareOf(from)))
  {
  }

  /**
   * Capture removes exactly the one record on the target square before the
   * mover is looked up; no record is added, and no record changes identity
   * or letter.
   */
  lemma LocalMoveKeepsRecords(b: seq<Piece>, from: string, to: string, turn: Side, c: Castling)
    requires IsLabel(from) && IsLabel(to)
    ensures var b1 := Capture(b, SquareOf(to));
      var a := LocalMoveBoard(b, from, to, turn, c);
      |b1| == (if Occupied(b, SquareOf(to)) then |b| - 1 else |b|) &&
      SameRecords(a.board, b1)
  {
    var st := SquareOf(to);
    var b1 := Capture(b, st);
    var k := FindAt(b1, SquareOf(from));
    if k != -1 {
      var b2 := MoveTo(b1, k, st);
      MoveToSameRecords(b1, k, st);
      var rook := LocalRook(turn, b2[k].kind, to, c);
      if rook.Some? {
        var (src, dst) := rook.value;
        var r := FindAt(b2, src);
        if r != -1 {
          MoveToSameRecords(b2, r, dst);
        }
      }
    }
  }

  /** The mover is the first record on `from`; it ends on `to`, and without castling no other record changes. */
  lemma LocalMoveRelocates(b: seq<Piece>, from: string, to: string, turn: Side, c: Castling)
    requires IsLabel(from) && IsLabel(to)
    ensures var b1 := Capture(b, SquareOf(to));
      var a := LocalMoveBoard(b, from, to, turn, c);
      (a.Done? ==>
        a.mover == FindAt(b1, SquareOf(from)) && b1[a.mover].sq == SquareOf(from) &&
        a.board[a.mover] == b1[a.mover].(sq := SquareOf(to))) &&
      (a.Done? && LocalRook(turn, b1[a.mover].kind, to, c).None? ==>
        forall i :: 0 <= i < |b1| && i != a.mover ==> a.board[i] == b1[i])
  {
    var st := SquareOf(to);
    var b1 := Capture(b, st);
    var k := FindAt(b1, SquareOf(from));
    if k != -1 {
      var b2 := MoveTo(b1, k, st);
      var rook := LocalRook(turn, b2[k].kind, to, c);
      if rook.Some? {
        var (src, dst) := rook.value;
        CastlingSquareLabels();
        assert st != src;
        var r := FindAt(b2, src);
        assert r != k;
      }
    }
  }

  /**
   * When the king's move is a castling, the first record on the rook's
   * corner (looked up after the king moved) ends on the rook's destination;
   * apart from it and the king no record changes. A missing rook throws.
   */
  lemma LocalMoveCastles(b: seq<Piece>, from: string, to: string, turn: Side, c: Castling)
    requires IsLabel(from) && IsLabel(to)
    requires var b1 := Capture(b, SquareOf(to)); var k := FindAt(b1, SquareOf(from));
      k != -1 && LocalRook(turn, b1[k].kind, to, c).Some?
    ensures var b1 := Capture(b, SquareOf(to));
      var k := FindAt(b1, SquareOf(from));
      var b2 := MoveTo(b1, k, SquareOf(to));
      var a := LocalMoveBoard(b, from, to, turn, c);
      var (src, dst) := LocalRook(turn, b1[k].kind, to, c).value;
      (a.Done? <==> Occupied(b2, src)) &&
      (a.Done? ==>
        var r := FindAt(b2, src);
        r != k && b1[r].sq == src && a.board[r] == b1[r].(sq := dst) &&
        a.board[k] == b1[k].(sq := SquareOf(to)) &&
        forall i :: 0 <= i < |b1| && i != k && i != r ==> a.board[i] == b1[i])
  {
    var st := SquareOf(to);
    var b1 := Capture(b, st);
    var k := FindAt(b1, SquareOf(from));
    var b2 := MoveTo(b1, k, st);
    var (src, dst) := LocalRook(turn, b1[k].kind, to, c).value;
    CastlingSquareLabels();
    assert st != src;
    var r := FindAt(b2, src);
    if r != -1 {
      assert r != k;
      var b3 := MoveTo(b2, r, dst);
      assert LocalMoveBoard(b, from, to, turn, c) == Done(b3, k);
    }
  }

  /** The rook step moves a record onto a board square only. */
  lemma RelocateRookKeeps(b: seq<Piece>, rook: Option<(Square, Square)>, mover: int)
    requires -1 <= mover < |b|
    requires rook.Some? ==> InBounds(rook.value.1)
    requires DistinctIds(b) && AllInBounds(b)
    ensures var a := RelocateRook(b, rook, mover); DistinctIds(a.board) && AllInBounds(a.board)
  {
    if rook.Some? {
      var r := FindAt(b, rook.value.0);
      if r != -1 { MoveToKeeps(b, r, rook.value.1); }
    }
  }

  /** The engine castles only onto a free square: the rook a local move would drag has nothing on its destination. */
  predicate LocalRookLandsFree(b: seq<Piece>, from: string, to: string, turn: Side, c: Castling)
    requires IsLabel(from) && IsLabel(to)
  {
    var b1 := Capture(b, SquareOf(to));
    var k := FindAt(b1, SquareOf(from));
    k == -1 || LocalRook(turn, b1[k].kind, to, c).None? || !Occupied(b, LocalRook(turn, b1[k].kind, to, c).value.1)
  }

  /**
   * Capture before relocation: since the target is emptied first, a local
   * move, finished or not, leaves at most one record per square, provided a
   * castling rook lands on a free square.
   */
  lemma LocalMoveKeepsUnique(b: seq<Piece>, from: string, to: string, turn: Side, c: Castling)
    requires IsLabel(from) && IsLabel(to)
    requires UniqueSquares(b) && LocalRookLandsFree(b, from, to, turn, c)
    ensures UniqueSquares(LocalMoveBoard(b, from, to, turn, c).board)
  {
    var st := SquareOf(to);
    var b1 := Capture(b, st);
    CaptureKeeps(b, st);
    CaptureClears(b, st);
    var k := FindAt(b1, SquareOf(from));
    if k != -1 {
      MoveToKeepsUnique(b1, k, st);
      var b2 := MoveTo(b1, k, st);
      var rook := LocalRook(turn, b2[k].kind, to, c);
      if rook.Some? {
        var (src, dst) := rook.value;
        CaptureKeepsFree(b, st, dst);
        MoveToKeepsFree(b1, k, st, dst);
        var r := FindAt(b2, src);
        if r != -1 {
          MoveToKeepsUnique(b2, r, dst);
        }
      }
    }
  }

  /** A local move, finished or not, keeps record identities distinct and every record on the board. */
  lemma LocalMoveKeepsStore(b: seq<Piece>, from: string, to: string, turn: Side, c: Castling)
    requires IsLabel(from) && IsLabel(to)
    requires DistinctIds(b) && AllInBounds(b)
    ensures var a := LocalMoveBoard(b, from, to, turn, c); DistinctIds(a.board) && AllInBounds(a.board)
  {
    var st := SquareOf(to);
    var b1 := Capture(b, st);
    CaptureKeeps(b, st);
    var k := FindAt(b1, SquareOf(from));
    if k != -1 {
      MoveToKeeps(b1, k, st);
      var b2 := MoveTo(b1, k, st);
      RelocateRookKeeps(b2, LocalRook(turn, b2[k].kind, to, c), k);
    }
  }

  // ---------------------------------------------------------------------------
  // Promotion

  /** A white pawn on row 7 or a black pawn on row 0, for the side to move. */
  predicate PromotionDue(p: Piece, turn: Side)
    ensures PromotionDue(p, turn) ==>
      IsPawn(p.kind) && SideOfKind(p.kind) == turn && p.sq.row == (if turn == White then BoardSize - 1 else 0)
  {
    (turn == White && p.kind == 'P' && p.sq.row == 7) || (turn == Black && p.kind == 'p' && p.sq.row == 0)
  }

  /** The queen letter the computer promotes to. */
  function AutoQueen(turn: Side): (q: char)
    ensures ToUpper(q) == 'Q' && SideOfKind(q) == turn
  {
    assert ToUpper('q') == 'Q' && !IsWhiteKind('q') && SideOfKind('q') == Black;
    if turn == White then 'Q' else 'q'
  }

  /** `pawnTransform`'s mapping from the prompt's choice to a piece letter of the side to move. */
  function PromotionLetter(name: string, turn: Side): (r: Option<char>)
    ensures r.Some? <==> name == "Knight" || name == "Bishop" || name == "Rook" || name == "Queen"
    ensures r.Some? ==> SideOfKind(r.value) == turn && PieceName(r.value) == name
  {
    var upper := if name == "Knight" then Some('N')
      else if name == "Bishop" then Some('B')
      else if name == "Rook" then Some('R')
      else if name == "Queen" then Some('Q')
      else None;
    match upper
    case None => None
    case Some(u) => Some(if turn == White then u else (u as int + 32) as char)
  }

  /** The prompt's name of a piece letter of either case; the inverse partner of PromotionLetter. */
  function PieceName(kind: char): string {
    match ToUpper(kind)
    case 'N' => "Knight"
    case 'B' => "Bishop"
    case 'R' => "Rook"
    case 'Q' => "Queen"
    case _ => ""
  }

  // ---------------------------------------------------------------------------
  // Server-pushed move (`handlePerformMove`, store part)

  /** The `SC_PerformMove` payload. */
  datatype RemoteMove = RemoteMove(from: string, to: string, castling: Option<Castling>, pieceType: Option<char>,
                                   enPassant: Option<string>)

  const NoFlags: Castling := Castling(false, false, false, false)

  /** The flags the rook chain reads; a missing record is read as no flag (the chain throws on it before any rook moves). */
  function FlagsOf(m: RemoteMove): Castling {
    if m.castling.Some? then m.castling.value else NoFlags
  }

  predicate WellFormed(m: RemoteMove) {
    IsLabel(m.from) && IsLabel(m.to)
  }

  predicate IsPawn(c: char) {
    c == 'p' || c == 'P'
  }

  /** The square of a pawn taken en passant: one row behind the target for white, one row ahead for black. */
  function EnPassantVictim(to: Square, turn: Side): (v: Square)
    ensures v.col == to.col && v != to
    ensures v.row == if turn == White then to.row - 1 else to.row + 1
  {
    if turn == White then Square(to.row - 1, to.col) else Square(to.row + 1, to.col)
  }

  /**
   * Whether the en-passant branch runs on the store `b1` left by the capture:
   * a pawn found on `from`, and the payload's en-passant label equal to the
   * target label (`ep`).
   */
  predicate EnPassantApplies(b1: seq<Piece>, from: Square, ep: bool) {
    var k := FindAt(b1, from);
    k != -1 && IsPawn(b1[k].kind) && ep
  }

  /** The store after the capture splice and the en-passant splice. */
  function AfterSplices(b: seq<Piece>, from: Square, to: Square, ep: bool, turn: Side): (r: seq<Piece>)
    ensures |b| - 2 <= |r| <= |b|
  {
    var b1 := Capture(b, to);
    if EnPassantApplies(b1, from, ep) then Capture(b1, EnPassantVictim(to, turn)) else b1
  }

  /** The splices only take records out: nothing is left that the store did not hold. */
  lemma AfterSplicesSubMultiset(b: seq<Piece>, from: Square, to: Square, ep: bool, turn: Side)
    ensures multiset(AfterSplices(b, from, to, ep, turn)) <= multiset(b)
  {
    var b1 := Capture(b, to);
    CaptureRemovesOne(b, to);
    CaptureRemovesOne(b1, EnPassantVictim(to, turn));
  }

  /** Writes the promoted letter, if any, then relocates the record at index k; an index past the end is a TypeError. */
  function PlaceMover(b2: seq<Piece>, k: int, to: Square, pieceType: Option<char>): (a: Applied)
    requires -1 <= k
    ensures |a.board| == |b2|
    ensures a.Done? ==> a.mover == k && k < |b2|
    ensures a.Crashed? <==> k >= |b2|
    ensures a.Crashed? ==> a.board == b2 && a.fault == NoMover
  {
    if k == -1 then Done(b2, -1)
    else if k >= |b2| then Crashed(b2, NoMover)
    else
      var b3 := if pieceType.Some? then Retype(b2, k, pieceType.value) else b2;
      Done(MoveTo(b3, k, to), k)
  }

  /**
   * `handlePerformMove` as the source has it, on the parsed payload: the
   * mover's index is taken before the en-passant splice and used after it.
   */
  function RemoteApplyAsWritten(b: seq<Piece>, from: Square, to: Square, ep: bool, pieceType: Option<char>,
                                c: Castling, turn: Side): (a: Applied)
    ensures |a.board| == |AfterSplices(b, from, to, ep, turn)|
    ensures a.Done? ==> a.mover == FindAt(Capture(b, to), from)
    ensures a.Crashed? ==> (a.fault == NoMover <==> FindAt(Capture(b, to), from) >= |AfterSplices(b, from, to, ep, turn)|)
  {
    var k := FindAt(Capture(b, to), from);
    match PlaceMover(AfterSplices(b, from, to, ep, turn), k, to, pieceType)
    case Crashed(b3, f) => Crashed(b3, f)
    case Done(b3, mover) => RelocateRook(b3, RemoteRook(c), mover)
  }

  /** `handlePerformMove` with the mover looked up after both splices, as evidently intended. */
  function RemoteApply(b: seq<Piece>, from: Square, to: Square, ep: bool, pieceType: Option<char>,
                       c: Castling, turn: Side): (a: Applied)
    ensures a.Done? ==> -1 <= a.mover < |a.board|
    ensures a.Crashed? ==> a.fault == NoRook && RemoteRook(c).Some?
  {
    var b2 := AfterSplices(b, from, to, ep, turn);
    match PlaceMover(b2, FindAt(b2, from), to, pieceType)
    case Crashed(b3, f) => Crashed(b3, f)
    case Done(b3, mover) => RelocateRook(b3, RemoteRook(c), mover)
  }

  /**
   * The payload's labels read as squares; `to === enPassant` compares the
   * labels. A payload without a `castling` record throws when the rook
   * chain reads it, after the mover has moved.
   */
  function RemoteMoveAsWritten(b: seq<Piece>, m: RemoteMove, turn: Side): (a: Applied)
    requires WellFormed(m)
    ensures |a.board| == |AfterSplices(b, SquareOf(m.from), SquareOf(m.to), m.enPassant == Some(m.to), turn)|
    ensures a.Crashed? ==> a.fault == NoMover || a.fault == NoRook || (a.fault == NoCastlingFlags && m.castling.None?)
  {
    var a := RemoteApplyAsWritten(b, SquareOf(m.from), SquareOf(m.to), m.enPassant == Some(m.to), m.pieceType, FlagsOf(m), turn);
    if m.castling.None? && a.Done? then Crashed(a.board, NoCastlingFlags) else a
  }

  /** The server's move with the corrected look-up; only a missing rook or a missing `castling` record throws. */
  function RemoteMoveBoard(b: seq<Piece>, m: RemoteMove, turn: Side): (a: Applied)
    requires WellFormed(m)
    ensures a.Done? ==> -1 <= a.mover < |a.board|
    ensures a.Crashed? ==> a.fault == NoRook || a.fault == NoCastlingFlags
    ensures a.Crashed? && a.fault == NoCastlingFlags <==> m.castling.None?
  {
    var a := RemoteApply(b, SquareOf(m.from), SquareOf(m.to), m.enPassant == Some(m.to), m.pieceType, FlagsOf(m), turn);
    if m.castling.None? && a.Done? then Crashed(a.board, NoCastlingFlags) else a
  }

  /** The rook step keeps the number, identity and letters of the records and moves at most the corner's first record. */
  lemma RelocateRookFacts(b: seq<Piece>, rook: Option<(Square, Square)>, mover: int)
    requires -1 <= mover < |b|
    ensures var a := RelocateRook(b, rook, mover);
      |a.board| == |b| &&
      (rook.None? ==> a == Done(b, mover)) &&
      (rook.Some? ==> (a.Done? <==> Occupied(b, rook.value.0))) &&
      (a.Crashed? ==> a.board == b && a.fault == NoRook) &&
      (a.Done? && rook.Some? ==> a.mover == mover && a.board == MoveTo(b, FindAt(b, rook.value.0), rook.value.1))
  {
  }

  /** The two splices remove exactly the captured record and the en-passant victim, each only when present. */
  lemma RemoteMoveCount(b: seq<Piece>, from: Square, to: Square, ep: bool, pieceType: Option<char>, c: Castling, turn: Side)
    ensures var b1 := Capture(b, to);
      |RemoteApply(b, from, to, ep, pieceType, c, turn).board| == |AfterSplices(b, from, to, ep, turn)| ==
        |b| - (if Occupied(b, to) then 1 else 0)
            - (if EnPassantApplies(b1, from, ep) && Occupied(b1, EnPassantVictim(to, turn)) then 1 else 0)
  {
    var b2 := AfterSplices(b, from, to, ep, turn);
    var pm := PlaceMover(b2, FindAt(b2, from), to, pieceType);
    if pm.Done? {
      RelocateRookFacts(pm.board, RemoteRook(c), pm.mover);
    }
  }

  /**
   * The mover (found after the splices) keeps its identity, takes the
   * promoted letter when one is supplied, and ends on the target unless it
   * landed on the corner of the flagged rook (the rook step then moves it
   * again). A promotion adds and deletes no record. Without castling flags
   * nothing else changes.
   */
  lemma RemoteMoveRelocates(b: seq<Piece>, from: Square, to: Square, ep: bool, pieceType: Option<char>, c: Castling, turn: Side)
    requires Occupied(AfterSplices(b, from, to, ep, turn), from)
    ensures var b2 := AfterSplices(b, from, to, ep, turn);
      var a := RemoteApply(b, from, to, ep, pieceType, c, turn);
      var k := FindAt(b2, from);
      |a.board| == |b2| && b2[k].sq == from &&
      (a.Done? ==>
        a.mover == k && a.board[k].id == b2[k].id &&
        a.board[k].kind == (if pieceType.Some? then pieceType.value else b2[k].kind) &&
        (RemoteRook(c).None? || RemoteRook(c).value.0 != to ==> a.board[k].sq == to)) &&
      (RemoteRook(c).None? ==>
        a.Done? && forall i :: 0 <= i < |b2| && i != k ==> a.board[i] == b2[i])
  {
    var b2 := AfterSplices(b, from, to, ep, turn);
    var k := FindAt(b2, from);
    var pm := PlaceMover(b2, k, to, pieceType);
    assert pm.Done?;
    var b3 := if pieceType.Some? then Retype(b2, k, pieceType.value) else b2;
    assert pm.board == MoveTo(b3, k, to);
    RelocateRookFacts(pm.board, RemoteRook(c), k);
    var a := RemoteApply(b, from, to, ep, pieceType, c, turn);
    if a.Done? && RemoteRook(c).Some? {
      var (src, dst) := RemoteRook(c).value;
      var r := FindAt(pm.board, src);
      if r != k {
        assert a.board[k] == pm.board[k];
      }
    }
  }

  /** A server-pushed move onto a board square keeps record identities distinct and every record on the board. */
  lemma RemoteMoveKeepsStore(b: seq<Piece>, from: Square, to: Square, ep: bool, pieceType: Option<char>, c: Castling, turn: Side)
    requires InBounds(to)
    requires DistinctIds(b) && AllInBounds(b)
    ensures var a := RemoteApply(b, from, to, ep, pieceType, c, turn); DistinctIds(a.board) && AllInBounds(a.board)
  {
    var b1 := Capture(b, to);
    CaptureKeeps(b, to);
    CaptureKeeps(b1, EnPassantVictim(to, turn));
    var b2 := AfterSplices(b, from, to, ep, turn);
    var k := FindAt(b2, from);
    var pm := PlaceMover(b2, k, to, pieceType);
    if pm.Done? {
      if k != -1 {
        var b3 := if pieceType.Some? then Retype(b2, k, pieceType.value) else b2;
        if pieceType.Some? { RetypeKeeps(b2, k, pieceType.value); }
        MoveToKeeps(b3, k, to);
        assert pm.board == MoveTo(b3, k, to);
      }
      RelocateRookKeeps(pm.board, RemoteRook(c), pm.mover);
    }
  }

  /** The same, for a message whose squares are labels. */
  lemma RemoteMoveBoardKeepsStore(b: seq<Piece>, m: RemoteMove, turn: Side)
    requires WellFormed(m)
    requires DistinctIds(b) && AllInBounds(b)
    ensures DistinctIds(RemoteMoveBoard(b, m, turn).board) && AllInBounds(RemoteMoveBoard(b, m, turn).board)
  {
    RemoteMoveKeepsStore(b, SquareOf(m.from), SquareOf(m.to), m.enPassant == Some(m.to), m.pieceType, FlagsOf(m), turn);
  }

  /** The two splices leave one record per square, nothing on the target, and every square that was free still free. */
  lemma SplicesKeepUnique(b: seq<Piece>, from: Square, to: Square, ep: bool, turn: Side, s: Square)
    requires UniqueSquares(b)
    ensures var b2 := AfterSplices(b, from, to, ep, turn);
      UniqueSquares(b2) && !Occupied(b2, to) && (!Occupied(b, s) ==> !Occupied(b2, s))
  {
    var b1 := Capture(b, to);
    var v := EnPassantVictim(to, turn);
    CaptureKeeps(b, to);
    CaptureClears(b, to);
    CaptureKeeps(b1, v);
    CaptureKeepsFree(b1, v, to);
    if !Occupied(b, s) {
      CaptureKeepsFree(b, to, s);
      CaptureKeepsFree(b1, v, s);
    }
  }

  /** The server castles onto a free square that is not the mover's target. */
  predicate RemoteRookLandsFree(b: seq<Piece>, to: Square, c: Castling) {
    RemoteRook(c).None? || (!Occupied(b, RemoteRook(c).value.1) && RemoteRook(c).value.1 != to)
  }

  /**
   * Capture before relocation on the server path: a server-pushed move,
   * finished or not, leaves at most one record per square, provided the
   * flagged rook lands on a free square other than the target.
   */
  lemma RemoteMoveKeepsUnique(b: seq<Piece>, from: Square, to: Square, ep: bool, pieceType: Option<char>, c: Castling, turn: Side)
    requires UniqueSquares(b) && RemoteRookLandsFree(b, to, c)
    ensures UniqueSquares(RemoteApply(b, from, to, ep, pieceType, c, turn).board)
  {
    var rook := RemoteRook(c);
    var dst := if rook.Some? then rook.value.1 else to;
    SplicesKeepUnique(b, from, to, ep, turn, dst);
    var b2 := AfterSplices(b, from, to, ep, turn);
    var k := FindAt(b2, from);
    var pm := PlaceMover(b2, k, to, pieceType);
    if k != -1 {
      var b3 := if pieceType.Some? then Retype(b2, k, pieceType.value) else b2;
      if pieceType.Some? { RetypeKeepsSquares(b2, k, pieceType.value); }
      MoveToKeepsUnique(b3, k, to);
      if rook.Some? { MoveToKeepsFree(b3, k, to, dst); }
      assert pm.board == MoveTo(b3, k, to);
    }
    if rook.Some? {
      var r := FindAt(pm.board, rook.value.0);
      if r != -1 {
        MoveToKeepsUnique(pm.board, r, dst);
      }
    }
  }

  /** The same, for a message whose squares are labels; a throw at a missing `castling` record leaves the store as the mover left it. */
  lemma RemoteMoveBoardKeepsUnique(b: seq<Piece>, m: RemoteMove, turn: Side)
    requires WellFormed(m)
    requires UniqueSquares(b) && RemoteRookLandsFree(b, SquareOf(m.to), FlagsOf(m))
    ensures UniqueSquares(RemoteMoveBoard(b, m, turn).board)
  {
    RemoteMoveKeepsUnique(b, SquareOf(m.from), SquareOf(m.to), m.enPassant == Some(m.to), m.pieceType, FlagsOf(m), turn);
  }

  /**
   * En passant: on a store with one record per square, a pawn move onto the
   * payload's en-passant square leaves nothing on the victim's square.
   */
  lemma RemoteEnPassantClears(b: seq<Piece>, from: Square, to: Square, pieceType: Option<char>, c: Castling, turn: Side)
    requires UniqueSquares(b)
    requires EnPassantApplies(Capture(b, to), from, true)
    requires RemoteRook(c).None?
    ensures var a := RemoteApply(b, from, to, true, pieceType, c, turn);
      a.Done? && !Occupied(a.board, EnPassantVictim(to, turn))
  {
    var victim := EnPassantVictim(to, turn);
    var b1 := Capture(b, to);
    CaptureKeeps(b, to);
    var b2 := AfterSplices(b, from, to, true, turn);
    assert b2 == Capture(b1, victim);
    CaptureClears(b1, victim);
    var k := FindAt(b2, from);
    var a := RemoteApply(b, from, to, true, pieceType, c, turn);
    var pm := PlaceMover(b2, k, to, pieceType);
    assert a == pm;
    if k != -1 {
      var b3 := if pieceType.Some? then Retype(b2, k, pieceType.value) else b2;
      assert pm.board == MoveTo(b3, k, to);
      forall i | 0 <= i < |a.board| ensures a.board[i].sq != victim {
        if i != k { assert a.board[i] == b3[i] == b2[i]; }
      }
    }
  }

  /** With castling flags the rook chosen by the chain ends on its destination; nothing but the mover and that rook changes. */
  lemma RemoteMoveCastles(b: seq<Piece>, from: Square, to: Square, ep: bool, pieceType: Option<char>, c: Castling, turn: Side)
    requires RemoteRook(c).Some?
    ensures var b2 := AfterSplices(b, from, to, ep, turn);
      var k := FindAt(b2, from);
      var a := RemoteApply(b, from, to, ep, pieceType, c, turn);
      var pm := PlaceMover(b2, k, to, pieceType);
      var (src, dst) := RemoteRook(c).value;
      (a.Done? <==> Occupied(pm.board, src)) &&
      (a.Done? ==>
        var r := FindAt(pm.board, src);
        pm.board[r].sq == src && a.board[r] == pm.board[r].(sq := dst) &&
        forall i :: 0 <= i < |b2| && i != k && i != r ==> a.board[i] == b2[i])
  {
    var b2 := AfterSplices(b, from, to, ep, turn);
    var k := FindAt(b2, from);
    var pm := PlaceMover(b2, k, to, pieceType);
    RelocateRookFacts(pm.board, RemoteRook(c), pm.mover);
    if k != -1 {
      var b3 := if pieceType.Some? then Retype(b2, k, pieceType.value) else b2;
      assert pm.board == MoveTo(b3, k, to);
      assert forall i :: 0 <= i < |b2| && i != k ==> pm.board[i] == b2[i];
    }
  }

  // ---------------------------------------------------------------------------
  // The stale mover index

  /** When the en-passant branch does not splice, or splices a record after the mover, the stale index is harmless. */
  lemma AsWrittenAgreesWhenVictimLater(b: seq<Piece>, from: Square, to: Square, ep: bool, pieceType: Option<char>, c: Castling, turn: Side)
    requires var b1 := Capture(b, to);
      var v := FindAt(b1, EnPassantVictim(to, turn));
      !EnPassantApplies(b1, from, ep) || v == -1 || v > FindAt(b1, from)
    ensures RemoteApplyAsWritten(b, from, to, ep, pieceType, c, turn) == RemoteApply(b, from, to, ep, pieceType, c, turn)
  {
    var b1 := Capture(b, to);
    var k := FindAt(b1, from);
    var b2 := AfterSplices(b, from, to, ep, turn);
    if EnPassantApplies(b1, from, ep) {
      var v := FindAt(b1, EnPassantVictim(to, turn));
      if v != -1 {
        assert b2 == RemoveAt(b1, v);
        assert forall i :: 0 <= i < k ==> b2[i] == b1[i];
        assert b2[k] == b1[k];
        assert FindAt(b2, from) == k;
      }
    }
  }

  /**
   * When the victim comes before the mover in the store (a black pawn
   * taking a white one: white records are listed first), the source moves
   * the record after the mover, or throws when there is none, and the
   * mover stays on `from`.
   */
  lemma AsWrittenMisplacesMover(b: seq<Piece>, from: Square, to: Square, c: Castling, turn: Side)
    requires var b1 := Capture(b, to);
      var v := FindAt(b1, EnPassantVictim(to, turn));
      EnPassantApplies(b1, from, true) && v != -1 && v < FindAt(b1, from)
    requires RemoteRook(c).None?
    ensures var b1 := Capture(b, to);
      var k := FindAt(b1, from);
      var a := RemoteApplyAsWritten(b, from, to, true, None, c, turn);
      (a.Crashed? <==> k == |b1| - 1) &&
      a.board[k - 1] == b1[k] && a.board[k - 1].sq == from
  {
    var b1 := Capture(b, to);
    var k := FindAt(b1, from);
    var v := FindAt(b1, EnPassantVictim(to, turn));
    var b2 := AfterSplices(b, from, to, true, turn);
    assert b2 == RemoveAt(b1, v);
    assert b2[k - 1] == b1[k];
    var pm := PlaceMover(b2, k, to, None);
    assert RemoteApplyAsWritten(b, from, to, true, None, c, turn) == pm;
    if pm.Done? {
      assert pm.board == MoveTo(b2, k, to);
      assert pm.board[k - 1] == b2[k - 1];
    }
  }

  /** A black pawn on D4 takes the white pawn on E4 en passant, landing on E3; the black king waits on E8. */
  const ExampleBoard: seq<Piece> := [Piece(0, 'P', Square(3, 4)), Piece(1, 'p', Square(3, 3)), Piece(2, 'k', Square(7, 4))]
  const ExampleMove: RemoteMove := RemoteMove("D4", "E3", Some(NoFlags), None, Some("E3"))

  /** On the example, the capture finds nothing, the mover is the second record, and the en-passant splice takes the first. */
  lemma ExampleSplices()
    ensures SquareOf(ExampleMove.from) == Square(3, 3) && SquareOf(ExampleMove.to) == Square(2, 4)
    ensures ExampleMove.enPassant == Some(ExampleMove.to) && FlagsOf(ExampleMove) == NoFlags && RemoteRook(NoFlags).None?
    ensures FindAt(Capture(ExampleBoard, Square(2, 4)), Square(3, 3)) == 1
    ensures AfterSplices(ExampleBoard, Square(3, 3), Square(2, 4), true, Black) ==
      [Piece(1, 'p', Square(3, 3)), Piece(2, 'k', Square(7, 4))]
  {
    var b := ExampleBoard;
    var from, to := Square(3, 3), Square(2, 4);
    assert SquareOf("D4") == from && SquareOf("E3") == to;
    assert FindAt(b, to) == -1;
    assert Capture(b, to) == b;
    assert FindAt(b, from) == 1;
    assert EnPassantApplies(b, from, true);
    assert FindAt(b, Square(3, 4)) == 0;
    assert RemoveAt(b, 0) == [Piece(1, 'p', Square(3, 3)), Piece(2, 'k', Square(7, 4))];
  }

  /** Relocating either record of the store left by the splices, with no promotion. */
  lemma ExamplePlacements()
    ensures PlaceMover([Piece(1, 'p', Square(3, 3)), Piece(2, 'k', Square(7, 4))], 1, Square(2, 4), None) ==
      Done([Piece(1, 'p', Square(3, 3)), Piece(2, 'k', Square(2, 4))], 1)
    ensures PlaceMover([Piece(1, 'p', Square(3, 3)), Piece(2, 'k', Square(7, 4))], 0, Square(2, 4), None) ==
      Done([Piece(1, 'p', Square(2, 4)), Piece(2, 'k', Square(7, 4))], 0)
    ensures FindAt([Piece(1, 'p', Square(3, 3)), Piece(2, 'k', Square(7, 4))], Square(3, 3)) == 0
  {
  }

  /** As written, the king lands on E3 and the pawn stays on D4. */
  lemma StaleIndexExample()
    ensures RemoteMoveAsWritten(ExampleBoard, ExampleMove, Black) ==
      Done([Piece(1, 'p', Square(3, 3)), Piece(2, 'k', Square(2, 4))], 1)
  {
    ExampleSplices();
    ExamplePlacements();
  }

  /** With the look-up after the splices, the pawn lands on E3 and the king stays on E8. */
  lemma StaleIndexCorrected()
    ensures RemoteMoveBoard(ExampleBoard, ExampleMove, Black) ==
      Done([Piece(1, 'p', Square(2, 4)), Piece(2, 'k', Square(7, 4))], 0)
  {
    ExampleSplices();
    ExamplePlacements();
  }
}

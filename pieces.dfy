/**
 * The piece store: `boardPiecesArray`, a list of records
 * `{pieceType, rowIndex, colIndex, mesh}`. The side of a piece is the case
 * of its letter: upper case is white, anything else is black. A record is
 * mutated in place, so its identity (the JavaScript object, and the mesh the
 * renderer draws for it) is kept here as `id`.
 *
 * The operations below are the list primitives the move handlers use:
 * `findIndex` by square, `splice(k, 1)`, and the field writes of
 * `movePiece` and of promotion.
 */
module Pieces {
  import opened Squares

  datatype Piece = Piece(id: nat, kind: char, sq: Square)

  /** The game modes of the scene. */
  datatype Mode = Practise | P2E | P2P

  /**
   * `String.prototype.toUpperCase` restricted to one ASCII character: a
   * character is changed exactly when it is a lower-case letter, and each
   * lower-case letter goes to the upper-case letter at the same place in
   * the alphabet.
   */
  function ToUpper(c: char): (u: char)
    ensures u == c <==> !('a' <= c <= 'z')
    ensures 'a' <= c <= 'z' ==> 'A' <= u <= 'Z' && u as int - 'A' as int == c as int - 'a' as int
  {
    if 'a' <= c <= 'z' then (c as int - 32) as char else c
  }

  /** Upper-casing twice is upper-casing once, and the result always passes the white test. */
  lemma ToUpperIdempotent(c: char)
    ensures ToUpper(ToUpper(c)) == ToUpper(c)
    ensures IsWhiteKind(ToUpper(c))
  {
  }

  /** Every upper-case letter is the image of exactly one lower-case letter. */
  lemma ToUpperOnto(u: char)
    requires 'A' <= u <= 'Z'
    ensures var c := (u as int + 32) as char; 'a' <= c <= 'z' && ToUpper(c) == u
    ensures forall c :: 'a' <= c <= 'z' && ToUpper(c) == u ==> c == (u as int + 32) as char
  {
  }

  /** A piece letter is white when upper-casing leaves it unchanged: exactly the letters that are not lower case. */
  predicate IsWhiteKind(c: char)
    ensures IsWhiteKind(c) <==> !('a' <= c <= 'z')
  {
    ToUpper(c) == c
  }

  /** The colour the filters of `getMyPieces` give a letter. */
  function SideOfKind(c: char): (s: Side)
    ensures s == Black <==> 'a' <= c <= 'z'
  {
    if IsWhiteKind(c) then White else Black
  }

  predicate Occupied(b: seq<Piece>, sq: Square) {
    exists i :: 0 <= i < |b| && b[i].sq == sq
  }

  lemma OccupiedAppend(b: seq<Piece>, p: Piece)
    ensures forall sq :: Occupied(b + [p], sq) <==> Occupied(b, sq) || p.sq == sq
  {
    forall sq | Occupied(b, sq) ensures Occupied(b + [p], sq) {
      var i :| 0 <= i < |b| && b[i].sq == sq;
      assert (b + [p])[i] == b[i];
    }
    assert (b + [p])[|b|] == p;
  }

  /** At most one record per square. */
  predicate UniqueSquares(b: seq<Piece>) {
    forall i, j :: 0 <= i < j < |b| ==> b[i].sq != b[j].sq
  }

  /** No two records are the same object. */
  predicate DistinctIds(b: seq<Piece>) {
    forall i, j :: 0 <= i < j < |b| ==> b[i].id != b[j].id
  }

  predicate AllInBounds(b: seq<Piece>) {
    forall i :: 0 <= i < |b| ==> InBounds(b[i].sq)
  }

  /** `findIndex` of the first record standing on `sq`, or -1. */
  function FindAt(b: seq<Piece>, sq: Square): (k: int)
    ensures -1 <= k < |b|
    ensures k >= 0 ==> b[k].sq == sq && forall i :: 0 <= i < k ==> b[i].sq != sq
    ensures k == -1 <==> !Occupied(b, sq)
  {
    FindFrom(b, sq, 0)
  }

  /** The scan of `findIndex` from index `start` on. */
  function FindFrom(b: seq<Piece>, sq: Square, start: nat): (k: int)
    requires start <= |b|
    ensures k == -1 || start <= k < |b|
    ensures k >= 0 ==> b[k].sq == sq && forall i :: start <= i < k ==> b[i].sq != sq
    ensures k == -1 <==> forall i :: start <= i < |b| ==> b[i].sq != sq
    decreases |b| - start
  {
    if start == |b| then -1
    else if b[start].sq == sq then start
    else FindFrom(b, sq, start + 1)
  }

  /** `splice(k, 1)`: the record at k leaves, the later ones close up. */
  function RemoveAt(b: seq<Piece>, k: int): (r: seq<Piece>)
    requires 0 <= k < |b|
    ensures |r| == |b| - 1
    ensures forall i :: 0 <= i < k ==> r[i] == b[i]
    ensures forall i :: k <= i < |r| ==> r[i] == b[i + 1]
  {
    b[..k] + b[k + 1..]
  }

  /** The capture step: the first record on `sq`, if there is one, is spliced out. */
  function Capture(b: seq<Piece>, sq: Square): (r: seq<Piece>)
    ensures |r| == if Occupied(b, sq) then |b| - 1 else |b|
  {
    var k := FindAt(b, sq);
    if k == -1 then b else RemoveAt(b, k)
  }

  /** The logical half of `movePiece`: the record's row and column become those of `sq`. */
  function MoveTo(b: seq<Piece>, k: int, sq: Square): (r: seq<Piece>)
    requires 0 <= k < |b|
    ensures |r| == |b| && r[k] == b[k].(sq := sq)
    ensures forall i :: 0 <= i < |b| && i != k ==> r[i] == b[i]
  {
    b[k := b[k].(sq := sq)]
  }

  /** Two stores hold the same records, index by index, up to where they stand. */
  predicate SameRecords(x: seq<Piece>, y: seq<Piece>) {
    |x| == |y| && forall i :: 0 <= i < |x| ==> x[i].id == y[i].id && x[i].kind == y[i].kind
  }

  lemma MoveToSameRecords(b: seq<Piece>, k: int, sq: Square)
    requires 0 <= k < |b|
    ensures SameRecords(MoveTo(b, k, sq), b)
  {
  }

  /** Relocating onto a board square and rewriting a letter keep identities distinct and squares on the board. */
  lemma MoveToKeeps(b: seq<Piece>, k: int, sq: Square)
    requires 0 <= k < |b| && InBounds(sq)
    ensures (DistinctIds(b) ==> DistinctIds(MoveTo(b, k, sq)))
    ensures (AllInBounds(b) ==> AllInBounds(MoveTo(b, k, sq)))
  {
    var r := MoveTo(b, k, sq);
    assert forall i :: 0 <= i < |r| ==> r[i].id == b[i].id;
  }

  /** Relocating a record onto a free square keeps one record per square. */
  lemma MoveToKeepsUnique(b: seq<Piece>, k: int, sq: Square)
    requires 0 <= k < |b| && UniqueSquares(b) && !Occupied(b, sq)
    ensures UniqueSquares(MoveTo(b, k, sq))
  {
    var r := MoveTo(b, k, sq);
    forall i, j | 0 <= i < j < |r| ensures r[i].sq != r[j].sq {
      if i == k { assert r[j] == b[j]; }
      else if j == k { assert r[i] == b[i]; }
    }
  }

  /** A free square stays free when a record moves to another square. */
  lemma MoveToKeepsFree(b: seq<Piece>, k: int, sq: Square, s: Square)
    requires 0 <= k < |b| && !Occupied(b, s) && s != sq
    ensures !Occupied(MoveTo(b, k, sq), s)
  {
    var r := MoveTo(b, k, sq);
    forall i | 0 <= i < |r| ensures r[i].sq != s {
      if i != k { assert r[i] == b[i]; }
    }
  }

  /** Promotion writes the record's `pieceType` in place. */
  function Retype(b: seq<Piece>, k: int, kind: char): (r: seq<Piece>)
    requires 0 <= k < |b|
    ensures |r| == |b| && r[k] == b[k].(kind := kind)
    ensures forall i :: 0 <= i < |b| && i != k ==> r[i] == b[i]
  {
    b[k := b[k].(kind := kind)]
  }

  lemma RetypeKeeps(b: seq<Piece>, k: int, kind: char)
    requires 0 <= k < |b|
    ensures (DistinctIds(b) ==> DistinctIds(Retype(b, k, kind)))
    ensures (AllInBounds(b) ==> AllInBounds(Retype(b, k, kind)))
  {
    var r := Retype(b, k, kind);
    assert forall i :: 0 <= i < |r| ==> r[i].id == b[i].id && r[i].sq == b[i].sq;
  }

  /** A letter rewrite moves no record: the same squares are occupied, and still by one record each. */
  lemma RetypeKeepsSquares(b: seq<Piece>, k: int, kind: char)
    requires 0 <= k < |b|
    ensures (UniqueSquares(b) ==> UniqueSquares(Retype(b, k, kind)))
    ensures forall sq :: Occupied(Retype(b, k, kind), sq) <==> Occupied(b, sq)
  {
    var r := Retype(b, k, kind);
    assert forall i :: 0 <= i < |r| ==> r[i].sq == b[i].sq;
  }

  /** Capture splices out the first record on the square when there is one, keeping the others in order, and otherwise changes nothing. */
  lemma CaptureRemovesOne(b: seq<Piece>, sq: Square)
    ensures Occupied(b, sq) ==> Capture(b, sq) == b[..FindAt(b, sq)] + b[FindAt(b, sq) + 1..]
    ensures !Occupied(b, sq) ==> Capture(b, sq) == b
    ensures multiset(Capture(b, sq)) <= multiset(b)
  {
    var k := FindAt(b, sq);
    if k != -1 {
      SpliceSubMultiset(b, k);
    }
  }

  lemma SpliceSubMultiset(b: seq<Piece>, k: nat)
    requires k < |b|
    ensures multiset(b[..k] + b[k + 1..]) <= multiset(b)
  {
    calc {
      multiset(b);
    == { assert b == b[..k] + ([b[k]] + b[k + 1..]); }
      multiset(b[..k]) + multiset([b[k]] + b[k + 1..]);
    ==
      multiset(b[..k]) + multiset([b[k]]) + multiset(b[k + 1..]);
    }
  }

  /** On a board with one record per square, nothing is left on a captured square. */
  lemma CaptureClears(b: seq<Piece>, sq: Square)
    requires UniqueSquares(b)
    ensures !Occupied(Capture(b, sq), sq)
  {
    var k := FindAt(b, sq);
    if k != -1 {
      var r := Capture(b, sq);
      forall i | 0 <= i < |r| ensures r[i].sq != sq {
        if i < k { assert r[i] == b[i]; } else { assert r[i] == b[i + 1]; }
      }
    }
  }

  /** A free square stays free when a record is spliced out. */
  lemma CaptureKeepsFree(b: seq<Piece>, x: Square, s: Square)
    requires !Occupied(b, s)
    ensures !Occupied(Capture(b, x), s)
  {
    var k := FindAt(b, x);
    if k != -1 {
      var r := Capture(b, x);
      forall i | 0 <= i < |r| ensures r[i].sq != s {
        if i < k { assert r[i] == b[i]; } else { assert r[i] == b[i + 1]; }
      }
    }
  }

  /** Removing and rewriting records keep the store's invariants. */
  lemma RemoveAtKeeps(b: seq<Piece>, k: int)
    requires 0 <= k < |b|
    ensures (UniqueSquares(b) ==> UniqueSquares(RemoveAt(b, k)))
    ensures (DistinctIds(b) ==> DistinctIds(RemoveAt(b, k)))
    ensures (AllInBounds(b) ==> AllInBounds(RemoveAt(b, k)))
  {
    var r := RemoveAt(b, k);
    assert forall i :: 0 <= i < |r| ==> r[i] == b[if i < k then i else i + 1];
  }

  lemma CaptureKeeps(b: seq<Piece>, sq: Square)
    ensures (UniqueSquares(b) ==> UniqueSquares(Capture(b, sq)))
    ensures (DistinctIds(b) ==> DistinctIds(Capture(b, sq)))
    ensures (AllInBounds(b) ==> AllInBounds(Capture(b, sq)))
  {
    var k := FindAt(b, sq);
    if k != -1 {
      RemoveAtKeeps(b, k);
    }
  }

  /** The records of one colour, in store order (the `filter` of `getMyPieces`). */
  function SideFilter(b: seq<Piece>, white: bool): (r: seq<Piece>)
    ensures |r| <= |b|
    ensures forall p :: p in r <==> p in b && IsWhiteKind(p.kind) == white
  {
    if b == [] then []
    else
      assert forall p :: p in b <==> p == b[0] || p in b[1..];
      (if IsWhiteKind(b[0].kind) == white then [b[0]] else []) + SideFilter(b[1..], white)
  }

  /**
   * `getMyPieces`: every record in practice mode; otherwise the upper-case
   * records for the white side and the others for the black side, where
   * the side is the player's chosen side against the computer and the side
   * the server assigned in a two-player match.
   */
  function MyPieces(b: seq<Piece>, mode: Mode, playerSide: Side, side: Side): (r: seq<Piece>)
    ensures |r| <= |b| && forall p :: p in r ==> p in b
    ensures mode == Practise ==> r == b
    ensures mode == P2E ==> forall p :: p in r <==> p in b && SideOfKind(p.kind) == playerSide
    ensures mode == P2P ==> forall p :: p in r <==> p in b && SideOfKind(p.kind) == side
  {
    match mode
    case Practise => b
    case P2E => SideFilter(b, playerSide == White)
    case P2P => SideFilter(b, side == White)
  }
}

/**
 * The tile grid `boardGroundArray` and the start-of-match construction of
 * the piece store, both built by the nested row/column loops of the scene
 * set-up, and the footprint of an item played on a tile.
 */
module Ground {
  import opened Wrappers
  import opened Squares
  import opened Pieces

  datatype Tone = Light | Dark

  /** One tile: its matrix indices, its label (`indicator`) and its base colour. */
  datatype Tile = Tile(row: int, col: int, indicator: string, tone: Tone)

  /** Base tone by parity: an odd `row + col` is light, an even one dark. */
  function BaseTone(row: int, col: int): Tone {
    if (row + col) % 2 != 0 then Light else Dark
  }

  /** The tile the construction loop creates at (row, col). */
  function TileAt(row: int, col: int): Tile
    requires InBounds(Square(row, col))
  {
    Tile(row, col, Label(Square(row, col)), BaseTone(row, col))
  }

  /** Neighbouring tiles alternate: moving one step along a row or a column flips the tone. */
  lemma ToneAlternates(row: int, col: int)
    requires InBounds(Square(row, col)) && col + 1 < BoardSize && row + 1 < BoardSize
    ensures TileAt(row, col).tone != TileAt(row, col + 1).tone
    ensures TileAt(row, col).tone != TileAt(row + 1, col).tone
    ensures TileAt(row, col).tone == TileAt(row + 1, col + 1).tone
  {
    var s := row + col;
    assert (s + 1) % 2 == 1 - s % 2;
    assert (s + 2) % 2 == s % 2;
  }

  /** A tile's indicator names exactly its own square, so no two tiles share an indicator. */
  lemma IndicatorNamesTile(row: int, col: int, row': int, col': int)
    requires InBounds(Square(row, col)) && InBounds(Square(row', col'))
    ensures SquareOf(TileAt(row, col).indicator) == Square(row, col)
    ensures TileAt(row, col).indicator == TileAt(row', col').indicator <==> row == row' && col == col'
  {
    ParseOfLabel(Square(row, col));
    if TileAt(row, col).indicator == TileAt(row', col').indicator {
      LabelInjective(Square(row, col), Square(row', col'));
    }
  }

  /**
   * `initGroundAndPieces` / the ground loop of the scene set-up: an 8×8
   * grid in which tile (i, j) sits at row i, column j.
   */
  method BuildGround() returns (g: seq<seq<Tile>>)
    ensures |g| == BoardSize
    ensures forall i :: 0 <= i < BoardSize ==> |g[i]| == BoardSize
    ensures forall i, j :: 0 <= i < BoardSize && 0 <= j < BoardSize ==> g[i][j] == TileAt(i, j)
  {
    g := [];
    var i := 0;
    while i < BoardSize
      invariant 0 <= i <= BoardSize && |g| == i
      invariant forall r :: 0 <= r < i ==> |g[r]| == BoardSize
      invariant forall r, c :: 0 <= r < i && 0 <= c < BoardSize ==> g[r][c] == TileAt(r, c)
    {
      var line: seq<Tile> := [];
      var j := 0;
      while j < BoardSize
        invariant 0 <= j <= BoardSize && |line| == j
        invariant forall c :: 0 <= c < j ==> line[c] == TileAt(i, c)
      {
        line := line + [TileAt(i, j)];
        j := j + 1;
      }
      g := g + [line];
      i := i + 1;
    }
  }

  /** Every square of the board has exactly one tile in a grid built by BuildGround. */
  lemma OneTilePerSquare(g: seq<seq<Tile>>, sq: Square, i: int, j: int)
    requires |g| == BoardSize && forall r :: 0 <= r < BoardSize ==> |g[r]| == BoardSize
    requires forall r, c :: 0 <= r < BoardSize && 0 <= c < BoardSize ==> g[r][c] == TileAt(r, c)
    requires InBounds(sq) && 0 <= i < BoardSize && 0 <= j < BoardSize
    ensures g[sq.row][sq.col].row == sq.row && g[sq.row][sq.col].col == sq.col
    ensures (g[i][j].row == sq.row && g[i][j].col == sq.col) <==> (i == sq.row && j == sq.col)
    ensures g[i][j].indicator == Label(sq) <==> (i == sq.row && j == sq.col)
  {
    IndicatorNamesTile(i, j, sq.row, sq.col);
  }

  /** Every record carries its index as identity and the piece letter the configuration has under its square's label. */
  predicate FromConfig(b: seq<Piece>, config: map<string, char>) {
    forall k :: 0 <= k < |b| ==>
      b[k].id == k && InBounds(b[k].sq) && Label(b[k].sq) in config && config[Label(b[k].sq)] == b[k].kind
  }

  /** Records appear in strictly increasing row-major order of their squares. */
  predicate RowMajorOrdered(b: seq<Piece>) {
    forall k, l :: 0 <= k < l < |b| ==> RowMajor(b[k].sq) < RowMajor(b[l].sq)
  }

  /**
   * The piece half of the scene's set-up loop: for each tile in row-major
   * order, a record is pushed when the engine's start configuration has a
   * piece letter under that tile's label.
   */
  method InitPieces(config: map<string, char>) returns (b: seq<Piece>)
    ensures FromConfig(b, config)
    ensures forall sq :: InBounds(sq) ==> (Occupied(b, sq) <==> Label(sq) in config)
    ensures RowMajorOrdered(b)
  {
    b := [];
    var i := 0;
    while i < BoardSize
      invariant 0 <= i <= BoardSize
      invariant FromConfig(b, config) && RowMajorOrdered(b)
      invariant forall k :: 0 <= k < |b| ==> RowMajor(b[k].sq) < i * BoardSize
      invariant forall sq :: InBounds(sq) && sq.row < i ==> (Occupied(b, sq) <==> Label(sq) in config)
      invariant forall sq :: InBounds(sq) && sq.row >= i ==> !Occupied(b, sq)
    {
      b := InitRow(config, i, b);
      i := i + 1;
    }
  }

  /** One pass of the inner loop: the tiles of row i, left to right. */
  method InitRow(config: map<string, char>, i: int, b0: seq<Piece>) returns (b: seq<Piece>)
    requires 0 <= i < BoardSize
    requires FromConfig(b0, config) && RowMajorOrdered(b0)
    requires forall k :: 0 <= k < |b0| ==> RowMajor(b0[k].sq) < i * BoardSize
    requires forall sq :: InBounds(sq) && sq.row < i ==> (Occupied(b0, sq) <==> Label(sq) in config)
    requires forall sq :: InBounds(sq) && sq.row >= i ==> !Occupied(b0, sq)
    ensures FromConfig(b, config) && RowMajorOrdered(b)
    ensures forall k :: 0 <= k < |b| ==> RowMajor(b[k].sq) < (i + 1) * BoardSize
    ensures forall sq :: InBounds(sq) && sq.row <= i ==> (Occupied(b, sq) <==> Label(sq) in config)
    ensures forall sq :: InBounds(sq) && sq.row > i ==> !Occupied(b, sq)
  {
    b := b0;
    var j := 0;
    while j < BoardSize
      invariant 0 <= j <= BoardSize
      invariant FromConfig(b, config) && RowMajorOrdered(b)
      invariant forall k :: 0 <= k < |b| ==> RowMajor(b[k].sq) < i * BoardSize + j
      invariant forall sq :: InBounds(sq) && (sq.row < i || (sq.row == i && sq.col < j)) ==>
        (Occupied(b, sq) <==> Label(sq) in config)
      invariant forall sq :: InBounds(sq) && (sq.row > i || (sq.row == i && sq.col >= j)) ==> !Occupied(b, sq)
    {
      var here := Square(i, j);
      var indicator := Label(here);
      if indicator in config {
        OccupiedAppend(b, Piece(|b|, config[indicator], here));
        PushKeeps(config, b, here);
        b := b + [Piece(|b|, config[indicator], here)];
      }
      forall sq | InBounds(sq) && (sq.row > i || (sq.row == i && sq.col > j))
        ensures !Occupied(b, sq)
      {
        assert RowMajor(sq) > RowMajor(here);
      }
      j := j + 1;
    }
  }

  /** Pushing the record for a later square keeps the store built from the configuration and in order. */
  lemma PushKeeps(config: map<string, char>, b: seq<Piece>, here: Square)
    requires InBounds(here) && Label(here) in config
    requires FromConfig(b, config) && RowMajorOrdered(b)
    requires forall k :: 0 <= k < |b| ==> RowMajor(b[k].sq) < RowMajor(here)
    ensures var b' := b + [Piece(|b|, config[Label(here)], here)];
      FromConfig(b', config) && RowMajorOrdered(b') &&
      forall k :: 0 <= k < |b'| ==> RowMajor(b'[k].sq) <= RowMajor(here)
  {
    var b' := b + [Piece(|b|, config[Label(here)], here)];
    assert forall k :: 0 <= k < |b| ==> b'[k] == b[k];
  }

  /** Row-major order leaves at most one record per square. */
  lemma RowMajorUnique(b: seq<Piece>)
    requires RowMajorOrdered(b)
    ensures UniqueSquares(b)
  {
  }

  /** The consumable items a player can hold. */
  datatype Item = IceWall | Petrify | JumpyShoe | SpringPad | Thunderstorm

  function Max(a: int, b: int): int { if a < b then b else a }
  function Min(a: int, b: int): int { if a < b then a else b }

  /**
   * `getEffectArray`: the labels an item covers when played on tile
   * (row, col). An ice wall spans the tile and its left and right
   * neighbours that exist; a petrification covers the tile alone; any other
   * item (or none) covers nothing.
   */
  method EffectArray(item: Option<Item>, row: int, col: int) returns (r: seq<string>)
    requires InBounds(Square(row, col))
    ensures item == Some(IceWall) ==>
      |r| == (if col == 0 || col == BoardSize - 1 then 2 else 3) &&
      forall k :: 0 <= k < |r| ==> r[k] == Label(Square(row, Max(col - 1, 0) + k))
    ensures item == Some(Petrify) ==> r == [Label(Square(row, col))]
    ensures item != Some(IceWall) && item != Some(Petrify) ==> r == []
    ensures forall k :: 0 <= k < |r| ==>
      IsLabel(r[k]) && SquareOf(r[k]).row == row && col - 1 <= SquareOf(r[k]).col <= col + 1
  {
    r := [];
    if item == Some(IceWall) {
      var t := -1;
      while t <= 1
        invariant -1 <= t <= 2
        invariant |r| == Max(Min(col + t, BoardSize) - Max(col - 1, 0), 0)
        invariant forall k :: 0 <= k < |r| ==> r[k] == Label(Square(row, Max(col - 1, 0) + k))
      {
        if 0 <= col + t < BoardSize {
          r := r + [Label(Square(row, col + t))];
        }
        t := t + 1;
      }
    } else if item == Some(Petrify) {
      r := [Label(Square(row, col))];
    }
    forall k | 0 <= k < |r|
      ensures IsLabel(r[k]) && SquareOf(r[k]).row == row && col - 1 <= SquareOf(r[k]).col <= col + 1
    {
      var c := if item == Some(IceWall) then Max(col - 1, 0) + k else col;
      assert r[k] == Label(Square(row, c));
      ParseOfLabel(Square(row, c));
    }
  }
}

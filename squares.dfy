/**
 * Squares of the 8×8 board and their algebraic labels.
 *
 * The scene addresses a square in two ways: by matrix indices
 * (`rowIndex`, `colIndex`, both 0..7) and by a label such as "E4", the
 * wire format of every move, selection and obstacle payload. The label of
 * tile (i, j) is the file letter of column j followed by the rank digit
 * i + 1, so "A1" is (0, 0) and "H8" is (7, 7).
 */
module Squares {
  import opened Wrappers

  /** Number of rows and of columns of the board. */
  const BoardSize: int := 8

  datatype Side = White | Black

  function Opposite(s: Side): (r: Side)
    ensures r != s
  {
    if s == White then Black else White
  }

  datatype Square = Square(row: int, col: int)

  predicate InBounds(sq: Square) {
    0 <= sq.row < BoardSize && 0 <= sq.col < BoardSize
  }

  /** Row-major position of a square: the order in which the tile loops visit squares. */
  function RowMajor(sq: Square): int {
    sq.row * BoardSize + sq.col
  }

  /** The file letter of a column: 'A' for column 0 up to 'H' for column 7. */
  function FileChar(col: int): char
    requires 0 <= col < BoardSize
  {
    ('A' as int + col) as char
  }

  /** The rank digit of a row: '1' for row 0 up to '8' for row 7. */
  function RankChar(row: int): char
    requires 0 <= row < BoardSize
  {
    ('1' as int + row) as char
  }

  /** Reads a label back into matrix indices; anything that is not a file letter followed by a rank digit has none. */
  function ParseLabel(s: string): (r: Option<Square>)
    ensures r.Some? ==> InBounds(r.value)
    ensures r.Some? <==> |s| == 2 && 'A' <= s[0] <= 'H' && '1' <= s[1] <= '8'
  {
    if |s| == 2 && 'A' <= s[0] <= 'H' && '1' <= s[1] <= '8' then
      Some(Square(s[1] as int - '1' as int, s[0] as int - 'A' as int))
    else
      None
  }

  /** The indicator of a square, file letter then rank digit. */
  function Label(sq: Square): (s: string)
    requires InBounds(sq)
    ensures |s| == 2 && ParseLabel(s) == Some(sq)
  {
    [FileChar(sq.col), RankChar(sq.row)]
  }

  predicate IsLabel(s: string) {
    ParseLabel(s).Some?
  }

  /** Matrix indices of a well-formed label. */
  function SquareOf(s: string): (sq: Square)
    requires IsLabel(s)
    ensures InBounds(sq)
  {
    ParseLabel(s).value
  }

  /** Parsing a label and printing it again gives the label back. */
  lemma LabelOfParse(s: string)
    requires IsLabel(s)
    ensures Label(ParseLabel(s).value) == s && Label(SquareOf(s)) == s
  {
    var sq := ParseLabel(s).value;
    assert Label(sq)[0] == s[0] && Label(sq)[1] == s[1];
  }

  /** Printing a square and parsing the label gives the square back, for every square on the board. */
  lemma {:induction false} ParseOfLabel(sq: Square)
    requires InBounds(sq)
    ensures ParseLabel(Label(sq)) == Some(sq) && SquareOf(Label(sq)) == sq
  {
  }

  /** Two squares with the same label are the same square. */
  lemma LabelInjective(a: Square, b: Square)
    requires InBounds(a) && InBounds(b) && Label(a) == Label(b)
    ensures a == b
  {
    ParseOfLabel(a);
    ParseOfLabel(b);
  }

  // The fixed squares the castling code names by label.
  const A1: Square := Square(0, 0)
  const D1: Square := Square(0, 3)
  const F1: Square := Square(0, 5)
  const H1: Square := Square(0, 7)
  const A8: Square := Square(7, 0)
  const D8: Square := Square(7, 3)
  const F8: Square := Square(7, 5)
  const H8: Square := Square(7, 7)

  /** The corner and castling squares are the ones their labels name. */
  lemma CastlingSquareLabels()
    ensures SquareOf("A1") == A1 && SquareOf("D1") == D1 && SquareOf("F1") == F1 && SquareOf("H1") == H1
    ensures SquareOf("A8") == A8 && SquareOf("D8") == D8 && SquareOf("F8") == F8 && SquareOf("H8") == H8
    ensures SquareOf("C1") == Square(0, 2) && SquareOf("G1") == Square(0, 6)
    ensures SquareOf("C8") == Square(7, 2) && SquareOf("G8") == Square(7, 6)
  {
  }
}

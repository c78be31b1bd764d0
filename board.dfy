/** Pieces, squares, the 8x8 board and the board utilities that app.js and
    app/core.js define identically (isWhite, isEnemy, inBounds, cloneBoard,
    findKing, pathClear), plus the position and move-result records both
    engines pass around. Row 0 is black's back rank, row 7 white's. */
module Board {

  datatype Color = White | Black

  /** The piece letters of the source: p n b r q k, and the experimental
      sentinel s of app/core.js. */
  datatype Kind = Pawn | Knight | Bishop | Rook | Queen | King | Sentinel

  /** A board cell: the empty string of the source, or a piece whose colour the
      source encodes by letter case. */
  datatype Cell = Empty | Piece(kind: Kind, color: Color)

  datatype Square = Square(x: int, y: int)

  datatype Option<T> = None | Some(value: T)

  /** The castling-right flags wK, wQ, bK, bQ. */
  datatype Rights = Rights(wK: bool, wQ: bool, bK: bool, bQ: bool)

  predicate IsBoard(g: seq<seq<Cell>>) {
    |g| == 8 && forall y | 0 <= y < 8 :: |g[y]| == 8
  }

  /** An 8x8 grid of cells, indexed board[y][x] as in the source. */
  type Board = g: seq<seq<Cell>> | IsBoard(g) witness seq(8, _ => seq(8, _ => Empty))

  /** The module-level game state of the source: board, turn, castlingRights
      and enPassantTarget. */
  datatype Position = Position(board: Board, turn: Color, rights: Rights, ep: Option<Square>)

  /** What makeMove returns: the new board, en-passant target and rights. */
  datatype MoveResult = MoveResult(board: Board, ep: Option<Square>, rights: Rights)

  predicate InBounds(x: int, y: int) {
    0 <= x < 8 && 0 <= y < 8
  }

  /** isWhite compares a token with its upper-case form, so it holds for white
      pieces and also for the empty cell. */
  predicate IsWhite(c: Cell) {
    c.Empty? || c.color == White
  }

  /** isEnemy: both cells hold pieces, of opposite colours. */
  predicate IsEnemy(p1: Cell, p2: Cell)
    ensures IsEnemy(p1, p2) <==> p1.Piece? && p2.Piece? && p1.color != p2.color
  {
    p1.Piece? && p2.Piece? && IsWhite(p1) != IsWhite(p2)
  }

  /** A piece of the given colour stands on the cell. */
  predicate OwnedBy(c: Cell, color: Color) {
    c.Piece? && c.color == color
  }

  /** The colour letter the source derives with `isWhite(piece) ? "w" : "b"`. */
  function ColorOf(c: Cell): Color {
    if IsWhite(c) then White else Black
  }

  function Opposite(c: Color): Color {
    if c == White then Black else White
  }

  function KingOf(white: bool): Cell {
    Piece(King, if white then White else Black)
  }

  /** An en-passant target as the engine ever sets one: none, or the square a
      pawn passed over in a double step, which lies on row 2 or row 5. */
  predicate ValidEnPassant(ep: Option<Square>) {
    ep.Some? ==> InBounds(ep.value.x, ep.value.y) && (ep.value.y == 2 || ep.value.y == 5)
  }

  function Abs(d: int): nat {
    if d < 0 then -d else d
  }

  /** Row-major scan order, the order of the source's nested loops. */
  predicate Before(s: Square, t: Square) {
    s.y < t.y || (s.y == t.y && s.x < t.x)
  }

  /** The board with one cell replaced; every other cell is unchanged. */
  function Put(b: Board, x: int, y: int, c: Cell): (r: Board)
    requires InBounds(x, y)
    ensures r[y][x] == c
    ensures forall y', x' :: InBounds(x', y') && (x' != x || y' != y) ==> r[y'][x'] == b[y'][x']
  {
    b[y := b[y][x := c]]
  }

  /** The standard starting array. */
  function BackRank(c: Color): seq<Cell> {
    [Piece(Rook, c), Piece(Knight, c), Piece(Bishop, c), Piece(Queen, c),
     Piece(King, c), Piece(Bishop, c), Piece(Knight, c), Piece(Rook, c)]
  }

  const EmptyRank: seq<Cell> := seq(8, _ => Empty)

  function InitialBoard(): Board {
    [BackRank(Black), seq(8, _ => Piece(Pawn, Black)), EmptyRank, EmptyRank,
     EmptyRank, EmptyRank, seq(8, _ => Piece(Pawn, White)), BackRank(White)]
  }

  /** The state both versions start from: the standard array, white to move,
      no en-passant target, all four castling rights. */
  function InitialPosition(): Position {
    Position(InitialBoard(), White, Rights(true, true, true, true), None)
  }

  // ---------------------------------------------------------------------
  // Row-major scans

  /** The square scanned n-th (from 0) by the source's nested y/x loops. */
  function SquareAt(n: int): Square {
    Square(n % 8, n / 8)
  }

  /** The squares among the first n scanned for which `keep` holds, in scan
      order: what a nested loop pushing each kept square collects. */
  function Scan(keep: (int, int) -> bool, n: nat): seq<Square>
    requires n <= 64
  {
    if n == 0 then []
    else Scan(keep, n - 1) + (if keep(SquareAt(n - 1).x, SquareAt(n - 1).y) then [SquareAt(n - 1)] else [])
  }

  /** A scan collects exactly the kept squares among the first n. */
  lemma {:induction false} ScanMembers(keep: (int, int) -> bool, n: nat)
    requires n <= 64
    ensures forall s :: s in Scan(keep, n) <==> InBounds(s.x, s.y) && 8 * s.y + s.x < n && keep(s.x, s.y)
  {
    if n > 0 {
      ScanMembers(keep, n - 1);
      var t := SquareAt(n - 1);
      assert 8 * t.y + t.x == n - 1;
      forall s: Square | InBounds(s.x, s.y) && 8 * s.y + s.x == n - 1
        ensures s == t
      {
        assert s.y == (n - 1) / 8;
      }
    }
  }

  /** A scan lists its squares in strictly increasing row-major order. */
  lemma {:induction false} ScanOrdered(keep: (int, int) -> bool, n: nat)
    requires n <= 64
    ensures forall i, j :: 0 <= i < j < |Scan(keep, n)| ==> Before(Scan(keep, n)[i], Scan(keep, n)[j])
  {
    if n > 0 {
      ScanOrdered(keep, n - 1);
      ScanMembers(keep, n - 1);
      var s := Scan(keep, n - 1);
      var t := SquareAt(n - 1);
      forall i | 0 <= i < |s|
        ensures Before(s[i], t)
      {
        assert s[i] in s;
      }
    }
  }

  /** One step of a nested y/x scan: the square visited after the first
      n = 8 * y + x is (x, y). */
  lemma ScanStep(keep: (int, int) -> bool, n: nat, x: int, y: int)
    requires InBounds(x, y) && n == 8 * y + x
    ensures Scan(keep, n + 1) == Scan(keep, n) + (if keep(x, y) then [Square(x, y)] else [])
  {
    assert n / 8 == y && n % 8 == x;
  }

  // ---------------------------------------------------------------------
  // Boards held in arrays

  /** The value of an 8x8 array of cells. */
  function Cells(a: array2<Cell>): (r: Board)
    reads a
    requires a.Length0 == 8 && a.Length1 == 8
    ensures forall y, x :: InBounds(x, y) ==> r[y][x] == a[y, x]
  {
    seq(8, y requires 0 <= y < 8 reads a => seq(8, x requires 0 <= x < 8 reads a => a[y, x]))
  }

  ghost predicate Agrees(a: array2<Cell>, g: Board)
    reads a
    requires a.Length0 == 8 && a.Length1 == 8
  {
    forall y, x :: InBounds(x, y) ==> a[y, x] == g[y][x]
  }

  lemma CellsOfAgreeing(a: array2<Cell>, g: Board)
    requires a.Length0 == 8 && a.Length1 == 8 && Agrees(a, g)
    ensures Cells(a) == g
  {
    var c := Cells(a);
    forall y | 0 <= y < 8 ensures c[y] == g[y] {
      assert forall x | 0 <= x < 8 :: c[y][x] == g[y][x];
    }
  }

  /** cloneBoard: a fresh array holding the same cells; the original is not
      touched, so the two never alias. */
  method CloneBoard(a: array2<Cell>) returns (c: array2<Cell>)
    requires a.Length0 == 8 && a.Length1 == 8
    ensures fresh(c) && c.Length0 == 8 && c.Length1 == 8
    ensures Cells(c) == Cells(a)
  {
    c := new Cell[8, 8]((y, x) reads a => if 0 <= y < a.Length0 && 0 <= x < a.Length1 then a[y, x] else Empty);
    CellsOfAgreeing(c, Cells(a));
  }

  /** A fresh array holding the given board. */
  method NewBoardArray(g: Board) returns (c: array2<Cell>)
    ensures fresh(c) && c.Length0 == 8 && c.Length1 == 8
    ensures Cells(c) == g
  {
    c := new Cell[8, 8]((y, x) => if 0 <= y < 8 && 0 <= x < 8 then g[y][x] else Empty);
    CellsOfAgreeing(c, g);
  }

  // ---------------------------------------------------------------------
  // findKing

  /** The first cell equal to `king` in row y at or after column x. */
  function KingInRow(b: Board, king: Cell, y: int, x: int): (r: Option<Square>)
    requires 0 <= y < 8 && 0 <= x <= 8
    decreases 8 - x
    ensures r.Some? ==> r.value.y == y && x <= r.value.x < 8 && b[y][r.value.x] == king
    ensures r.Some? ==> forall x' :: x <= x' < r.value.x ==> b[y][x'] != king
    ensures r.None? ==> forall x' :: x <= x' < 8 ==> b[y][x'] != king
  {
    if x == 8 then None
    else if b[y][x] == king then Some(Square(x, y))
    else KingInRow(b, king, y, x + 1)
  }

  /** The first cell equal to `king`, scanning rows y..7 in row-major order. */
  function KingFrom(b: Board, king: Cell, y: int): (r: Option<Square>)
    requires 0 <= y <= 8
    decreases 8 - y
    ensures r.Some? ==> y <= r.value.y && InBounds(r.value.x, r.value.y) && b[r.value.y][r.value.x] == king
    ensures r.Some? ==> forall y', x' :: y <= y' && InBounds(x', y') && Before(Square(x', y'), r.value) ==> b[y'][x'] != king
    ensures r.None? ==> forall y', x' :: y <= y' < 8 && 0 <= x' < 8 ==> b[y'][x'] != king
  {
    if y == 8 then None
    else
      match KingInRow(b, king, y, 0)
      case Some(s) => Some(s)
      case None => KingFrom(b, king, y + 1)
  }

  /** findKing's answer: the first king of the colour in row-major order, or
      none when that colour has no king. */
  function FirstKing(b: Board, white: bool): (r: Option<Square>)
    ensures r.Some? ==> InBounds(r.value.x, r.value.y) && b[r.value.y][r.value.x] == KingOf(white)
    ensures r.Some? ==> forall y, x :: InBounds(x, y) && Before(Square(x, y), r.value) ==> b[y][x] != KingOf(white)
    ensures r.None? <==> forall y, x :: InBounds(x, y) ==> b[y][x] != KingOf(white)
  {
    KingFrom(b, KingOf(white), 0)
  }

  /** The first king is determined by its square: a king there and none before it. */
  lemma FirstKingAt(b: Board, white: bool, s: Square)
    requires InBounds(s.x, s.y) && b[s.y][s.x] == KingOf(white)
    requires forall y, x :: InBounds(x, y) && Before(Square(x, y), s) ==> b[y][x] != KingOf(white)
    ensures FirstKing(b, white) == Some(s)
  {
    var r := FirstKing(b, white);
    assert r.Some? by {
      assert b[s.y][s.x] == KingOf(white);
    }
    var t := r.value;
    assert !Before(t, s) by {
      assert b[t.y][t.x] == KingOf(white);
    }
    assert !Before(s, t) by {
      assert b[s.y][s.x] == KingOf(white);
    }
  }

  /** findKing: the nested scan with early return. */
  method FindKing(a: array2<Cell>, white: bool) returns (r: Option<Square>)
    requires a.Length0 == 8 && a.Length1 == 8
    ensures r == FirstKing(Cells(a), white)
  {
    var target := KingOf(white);
    ghost var b := Cells(a);
    for y := 0 to 8
      invariant forall y', x' :: 0 <= y' < y && 0 <= x' < 8 ==> b[y'][x'] != target
    {
      for x := 0 to 8
        invariant forall y', x' :: 0 <= y' < y && 0 <= x' < 8 ==> b[y'][x'] != target
        invariant forall x' :: 0 <= x' < x ==> b[y][x'] != target
      {
        assert a[y, x] == b[y][x];
        if a[y, x] == target {
          FirstKingAt(b, white, Square(x, y));
          return Some(Square(x, y));
        }
      }
    }
    return None;
  }

  // ---------------------------------------------------------------------
  // pathClear

  /** Two squares on one rank, file or diagonal (or the same square): the
      shapes for which the source's pathClear walk terminates. */
  predicate OnLine(x1: int, y1: int, x2: int, y2: int) {
    x1 == x2 || y1 == y2 || Abs(x2 - x1) == Abs(y2 - y1)
  }

  /** Number of steps from (x1, y1) to (x2, y2) along a line. */
  function Dist(x1: int, y1: int, x2: int, y2: int): nat {
    if Abs(x2 - x1) > Abs(y2 - y1) then Abs(x2 - x1) else Abs(y2 - y1)
  }

  /** Coordinate a, moved k steps towards c (Math.sign of the difference per step). */
  function Toward(a: int, c: int, k: int): int {
    if a < c then a + k else if a > c then a - k else a
  }

  lemma TowardInBounds(x1: int, y1: int, x2: int, y2: int, k: int)
    requires InBounds(x1, y1) && InBounds(x2, y2) && OnLine(x1, y1, x2, y2)
    requires 0 <= k <= Dist(x1, y1, x2, y2)
    ensures InBounds(Toward(x1, x2, k), Toward(y1, y2, k))
  {
  }

  /** Every square strictly between the two ends of the line is empty. */
  predicate ClearBetween(b: Board, x1: int, y1: int, x2: int, y2: int)
    requires InBounds(x1, y1) && InBounds(x2, y2) && OnLine(x1, y1, x2, y2)
  {
    forall k :: 0 < k < Dist(x1, y1, x2, y2) ==> b[Toward(y1, y2, k)][Toward(x1, x2, k)].Empty?
  }

  /** pathClear: the walk from the square after (x1, y1) up to, not including,
      (x2, y2) finds no piece exactly when every square strictly between them
      is empty. */
  method PathClear(a: array2<Cell>, x1: int, y1: int, x2: int, y2: int) returns (r: bool)
    requires a.Length0 == 8 && a.Length1 == 8
    requires InBounds(x1, y1) && InBounds(x2, y2) && OnLine(x1, y1, x2, y2)
    ensures r == ClearBetween(Cells(a), x1, y1, x2, y2)
  {
    var dx := if x2 > x1 then 1 else if x2 < x1 then -1 else 0;
    var dy := if y2 > y1 then 1 else if y2 < y1 then -1 else 0;
    var x := x1 + dx;
    var y := y1 + dy;
    ghost var b := Cells(a);
    ghost var n: int := Dist(x1, y1, x2, y2);
    ghost var k := 1;
    while x != x2 || y != y2
      invariant 1 <= k && (k <= n || n == 0)
      invariant x == Toward(x1, x2, k) && y == Toward(y1, y2, k)
      invariant forall j :: 0 < j < k ==> b[Toward(y1, y2, j)][Toward(x1, x2, j)].Empty?
      decreases n - k
    {
      TowardInBounds(x1, y1, x2, y2, k);
      assert a[y, x] == b[y][x];
      if a[y, x] != Empty {
        return false;
      }
      x := x + dx;
      y := y + dy;
      k := k + 1;
    }
    return true;
  }
}

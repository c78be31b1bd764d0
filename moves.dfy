/** The steps of makeMove that app.js (lines 248-318) and app/core.js (lines
    190-262) write identically: en-passant removal, relocation, promotion,
    the new en-passant target and the revocation of castling rights. Each
    version composes them with its own castling-rook step. */
module Moves {
  import opened Board

  predicate IsPawn(c: Cell) {
    c.Piece? && c.kind == Pawn
  }

  /** Row step of a forward pawn move: white pawns move towards row 0. */
  function Forward(white: bool): int {
    if white then -1 else 1
  }

  /** Row from which a pawn may make its double step. */
  function StartRank(white: bool): int {
    if white then 6 else 1
  }

  /** Back rank of a colour: where its king and rooks start. */
  function HomeRank(white: bool): int {
    if white then 7 else 0
  }

  /** The line shapes of the sliding pieces: diagonal for the bishop, rank or
      file for the rook, either for the queen. */
  predicate SlideShape(kind: Kind, dx: int, dy: int) {
    match kind
    case Bishop => Abs(dx) == Abs(dy)
    case Rook => dx == 0 || dy == 0
    case Queen => dx == 0 || dy == 0 || Abs(dx) == Abs(dy)
    case _ => false
  }

  /** The bishop, rook and queen branches of basicLegalMove (the same in both
      versions): along the piece's line with every square between empty. */
  predicate SlideMove(b: Board, kind: Kind, x1: int, y1: int, x2: int, y2: int)
    requires InBounds(x1, y1) && InBounds(x2, y2)
  {
    SlideShape(kind, x2 - x1, y2 - y1) && ClearBetween(b, x1, y1, x2, y2)
  }

  /** Those branches as written: reject a move off the piece's line, then
      walk the line with pathClear. */
  method SlideAllowed(a: array2<Cell>, kind: Kind, x1: int, y1: int, x2: int, y2: int) returns (r: bool)
    requires a.Length0 == 8 && a.Length1 == 8 && InBounds(x1, y1) && InBounds(x2, y2)
    ensures r == SlideMove(Cells(a), kind, x1, y1, x2, y2)
  {
    var dx, dy := x2 - x1, y2 - y1;
    match kind
    case Bishop =>
      if Abs(dx) != Abs(dy) {
        return false;
      }
      r := PathClear(a, x1, y1, x2, y2);
    case Rook =>
      if dx != 0 && dy != 0 {
        return false;
      }
      r := PathClear(a, x1, y1, x2, y2);
    case Queen =>
      if dx == 0 || dy == 0 || Abs(dx) == Abs(dy) {
        r := PathClear(a, x1, y1, x2, y2);
        return;
      }
      return false;
    case _ =>
      return false;
  }

  /** A pawn landing on the en-passant target. */
  predicate EnPassantCapture(piece: Cell, x2: int, y2: int, ep: Option<Square>) {
    IsPawn(piece) && ep == Some(Square(x2, y2))
  }

  /** An en-passant capture removes the cell one row behind the target
      (behind as seen by the capturing pawn). */
  function CaptureEnPassant(b: Board, piece: Cell, x2: int, y2: int, ep: Option<Square>): Board
    requires ValidEnPassant(ep)
  {
    if EnPassantCapture(piece, x2, y2, ep) then Put(b, x2, y2 - Forward(IsWhite(piece)), Empty) else b
  }

  /** The source square is emptied, then the destination receives the piece. */
  function Relocate(b: Board, piece: Cell, x1: int, y1: int, x2: int, y2: int): Board
    requires InBounds(x1, y1) && InBounds(x2, y2)
  {
    Put(Put(b, x1, y1, Empty), x2, y2, piece)
  }

  /** Automatic promotion: a pawn on the far row becomes a queen of its colour. */
  function Promote(b: Board, piece: Cell, x2: int, y2: int): Board
    requires InBounds(x2, y2)
  {
    if IsPawn(piece) && IsWhite(piece) && y2 == 0 then Put(b, x2, y2, Piece(Queen, White))
    else if IsPawn(piece) && !IsWhite(piece) && y2 == 7 then Put(b, x2, y2, Piece(Queen, Black))
    else b
  }

  /** What a pawn landing on row y2 is replaced by. */
  function Promoted(piece: Cell, y2: int): Cell {
    if IsPawn(piece) && IsWhite(piece) && y2 == 0 then Piece(Queen, White)
    else if IsPawn(piece) && !IsWhite(piece) && y2 == 7 then Piece(Queen, Black)
    else piece
  }

  /** The en-passant removal, the relocation and the promotion write only
      the source, the destination and the square behind the en-passant
      target. */
  lemma PlainStepsLeaveOthers(b: Board, piece: Cell, x1: int, y1: int, x2: int, y2: int, ep: Option<Square>, x: int, y: int)
    requires InBounds(x1, y1) && InBounds(x2, y2) && ValidEnPassant(ep) && InBounds(x, y)
    requires (x != x1 || y != y1) && (x != x2 || y != y2)
    requires !(EnPassantCapture(piece, x2, y2, ep) && x == x2 && y == y2 - Forward(IsWhite(piece)))
    ensures Promote(Relocate(CaptureEnPassant(b, piece, x2, y2, ep), piece, x1, y1, x2, y2), piece, x2, y2)[y][x] == b[y][x]
  {
    var b1 := CaptureEnPassant(b, piece, x2, y2, ep);
    var b2 := Relocate(b1, piece, x1, y1, x2, y2);
    assert b1[y][x] == b[y][x];
    assert b2[y][x] == b1[y][x];
  }

  /** The en-passant target after a move: the square passed over by a pawn's
      double step from its start row, and none after any other move. */
  function NextEnPassant(piece: Cell, x1: int, y1: int, x2: int, y2: int): (r: Option<Square>)
    requires InBounds(x1, y1)
    ensures ValidEnPassant(r)
    ensures r.Some? <==> IsPawn(piece) && y1 == StartRank(IsWhite(piece)) && y2 - y1 == 2 * Forward(IsWhite(piece))
    ensures r.Some? ==> r.value.x == x1 && r.value.y == (y1 + y2) / 2
  {
    var white := IsWhite(piece);
    if IsPawn(piece) && y1 == StartRank(white) && y2 == y1 + 2 * Forward(white) then Some(Square(x1, y1 + Forward(white)))
    else None
  }

  /** The rook of a castling move: from column fromX to column toX of `rank`,
      copying whatever that corner holds and emptying it. */
  function MoveRook(b: Board, rank: int, fromX: int, toX: int): Board
    requires 0 <= rank < 8 && 0 <= fromX < 8 && 0 <= toX < 8
  {
    Put(Put(b, toX, rank, b[rank][fromX]), fromX, rank, Empty)
  }

  /** A moving king revokes both rights of its colour. */
  function KingMoveRights(piece: Cell, r: Rights): Rights {
    if piece == Piece(King, White) then r.(wK := false, wQ := false)
    else if piece == Piece(King, Black) then r.(bK := false, bQ := false)
    else r
  }

  /** A rook leaving its corner, or captured on it, revokes that corner's
      right; `c` is the cell that was on (x, y) before the move. */
  function RookRights(c: Cell, x: int, y: int, r: Rights): Rights {
    if c == Piece(Rook, White) then
      r.(wQ := r.wQ && !(x == 0 && y == 7), wK := r.wK && !(x == 7 && y == 7))
    else if c == Piece(Rook, Black) then
      r.(bQ := r.bQ && !(x == 0 && y == 0), bK := r.bK && !(x == 7 && y == 0))
    else r
  }

  /** The flag writes of makeMove for a rook on (x, y), one corner at a time. */
  method RevokeRookRights(c: Cell, x: int, y: int, r: Rights) returns (n: Rights)
    ensures n == RookRights(c, x, y, r)
  {
    n := r;
    if c == Piece(Rook, White) {
      if x == 0 && y == 7 { n := n.(wQ := false); }
      if x == 7 && y == 7 { n := n.(wK := false); }
    }
    if c == Piece(Rook, Black) {
      if x == 0 && y == 0 { n := n.(bQ := false); }
      if x == 7 && y == 0 { n := n.(bK := false); }
    }
  }

  /** The rights after moving `piece` from (x1, y1) onto `captured` at (x2, y2). */
  function MoveRights(piece: Cell, captured: Cell, x1: int, y1: int, x2: int, y2: int, r: Rights): Rights {
    RookRights(captured, x2, y2, RookRights(piece, x1, y1, KingMoveRights(piece, r)))
  }

  /** Castling rights are only ever revoked, never granted, and each flag is
      revoked exactly by a move of its king, a move of its rook off its
      corner, or a capture on its corner of that rook. */
  lemma MoveRightsRevokeOnly(piece: Cell, captured: Cell, x1: int, y1: int, x2: int, y2: int, r: Rights)
    ensures var n := MoveRights(piece, captured, x1, y1, x2, y2, r);
      && (n.wK ==> r.wK) && (n.wQ ==> r.wQ) && (n.bK ==> r.bK) && (n.bQ ==> r.bQ)
    ensures var n := MoveRights(piece, captured, x1, y1, x2, y2, r);
      && (n.wK <==> r.wK && piece != Piece(King, White)
                    && !(piece == Piece(Rook, White) && x1 == 7 && y1 == 7)
                    && !(captured == Piece(Rook, White) && x2 == 7 && y2 == 7))
      && (n.wQ <==> r.wQ && piece != Piece(King, White)
                    && !(piece == Piece(Rook, White) && x1 == 0 && y1 == 7)
                    && !(captured == Piece(Rook, White) && x2 == 0 && y2 == 7))
      && (n.bK <==> r.bK && piece != Piece(King, Black)
                    && !(piece == Piece(Rook, Black) && x1 == 7 && y1 == 0)
                    && !(captured == Piece(Rook, Black) && x2 == 7 && y2 == 0))
      && (n.bQ <==> r.bQ && piece != Piece(King, Black)
                    && !(piece == Piece(Rook, Black) && x1 == 0 && y1 == 0)
                    && !(captured == Piece(Rook, Black) && x2 == 0 && y2 == 0))
  {
  }

  // ---------------------------------------------------------------------
  // The shared cell writes of makeMove, on the cloned array

  /** The en-passant block of makeMove: the pawn behind the target goes. */
  method WriteEnPassantCapture(nb: array2<Cell>, ghost g: Board, piece: Cell, x2: int, y2: int, ep: Option<Square>)
    requires nb.Length0 == 8 && nb.Length1 == 8 && Agrees(nb, g) && ValidEnPassant(ep)
    modifies nb
    ensures Agrees(nb, CaptureEnPassant(g, piece, x2, y2, ep))
  {
    var white := IsWhite(piece);
    if IsPawn(piece) && ep.Some? && x2 == ep.value.x && y2 == ep.value.y {
      var dir := if white then 1 else -1;
      nb[y2 + dir, x2] := Empty;
    }
  }

  /** The relocation and pawn blocks of makeMove: move the piece, promote it
      on the far row, and report the square a double step passed over. */
  method WriteMoveAndPromotion(nb: array2<Cell>, ghost g: Board, piece: Cell, x1: int, y1: int, x2: int, y2: int)
    returns (newEp: Option<Square>)
    requires nb.Length0 == 8 && nb.Length1 == 8 && Agrees(nb, g) && InBounds(x1, y1) && InBounds(x2, y2)
    modifies nb
    ensures Agrees(nb, Promote(Relocate(g, piece, x1, y1, x2, y2), piece, x2, y2))
    ensures newEp == NextEnPassant(piece, x1, y1, x2, y2)
  {
    var white := IsWhite(piece);
    newEp := None;
    nb[y1, x1] := Empty;
    nb[y2, x2] := piece;
    if IsPawn(piece) {
      if white && y2 == 0 {
        nb[y2, x2] := Piece(Queen, White);
      }
      if !white && y2 == 7 {
        nb[y2, x2] := Piece(Queen, Black);
      }
      var startRank := if white then 6 else 1;
      var dir := if white then -1 else 1;
      if y1 == startRank && y2 == y1 + 2 * dir {
        newEp := Some(Square(x1, y1 + dir));
      }
    }
  }
}

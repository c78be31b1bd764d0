/** How the two engines relate. On boards without sentinels they attack the
    same squares and simulate legal moves identically; they differ only in
    castling, where app.js also demands a rook of the king's colour on the
    corner. So every move app.js accepts is accepted by app/core.js, and a move
    only app/core.js accepts is a castling move without that rook. */
module Versions {
  import opened Board
  import opened Moves
  import App
  import Core

  predicate SentinelFree(b: Board) {
    forall y, x | 0 <= y < 8 && 0 <= x < 8 :: !Core.IsSentinel(b[y][x])
  }

  /** The corner a castling king's rook comes from holds a rook of its colour. */
  predicate RookOnCorner(b: Board, piece: Cell, x2: int) {
    b[HomeRank(IsWhite(piece))][if x2 == 6 then 7 else 0] == Piece(Rook, ColorOf(piece))
  }

  /** Castling is never examined during attack scans, so there the two
      versions' move rules coincide for every piece but the sentinel. */
  lemma StepRulesAgree(b: Board, piece: Cell, x1: int, y1: int, x2: int, y2: int, ep: Option<Square>, rights: Rights)
    requires SentinelFree(b) && InBounds(x1, y1) && !Core.IsSentinel(piece)
    ensures App.BasicLegal(b, piece, x1, y1, x2, y2, ep, rights, true) == Core.BasicLegal(b, piece, x1, y1, x2, y2, ep, rights, true)
  {
  }

  /** Both versions' squareAttacked agree on sentinel-free boards. */
  lemma AttackedAgree(b: Board, x: int, y: int, byWhite: bool, ep: Option<Square>, rights: Rights)
    requires SentinelFree(b)
    ensures App.Attacked(b, x, y, byWhite, ep, rights) == Core.Attacked(b, x, y, byWhite, ep, rights)
  {
    forall yy, xx | 0 <= yy < 8 && 0 <= xx < 8
      ensures App.Attacks(b, xx, yy, x, y, byWhite, ep, rights) == Core.Attacks(b, xx, yy, x, y, byWhite, ep, rights)
    {
      if b[yy][xx].Piece? {
        StepRulesAgree(b, b[yy][xx], xx, yy, x, y, ep, rights);
      }
    }
  }

  /** Both versions' inCheck agree on sentinel-free boards. */
  lemma CheckAgree(b: Board, color: Color, ep: Option<Square>, rights: Rights)
    requires SentinelFree(b)
    ensures App.KingInCheck(b, color, ep, rights) == Core.KingInCheck(b, color, ep, rights)
  {
    match FirstKing(b, color == White)
    case None =>
    case Some(k) =>
      AttackedAgree(b, k.x, k.y, color != White, ep, rights);
  }

  /** app.js castles exactly when app/core.js does and the corner holds a rook
      of the king's colour. */
  lemma CastleAgree(b: Board, piece: Cell, x1: int, y1: int, x2: int, y2: int, ep: Option<Square>, rights: Rights)
    requires SentinelFree(b)
    ensures App.Castle(b, piece, x1, y1, x2, y2, ep, rights)
        <==> Core.Castle(b, piece, x1, y1, x2, y2, ep, rights) && RookOnCorner(b, piece, x2)
  {
    var rank := HomeRank(IsWhite(piece));
    AttackedAgree(b, 4, rank, !IsWhite(piece), ep, rights);
    AttackedAgree(b, (4 + x2) / 2, rank, !IsWhite(piece), ep, rights);
    AttackedAgree(b, x2, rank, !IsWhite(piece), ep, rights);
  }

  /** With castling considered, app.js accepts a subset of what app/core.js
      accepts, and the difference is castling with no own rook on the corner. */
  lemma BasicLegalAgree(b: Board, piece: Cell, x1: int, y1: int, x2: int, y2: int, ep: Option<Square>, rights: Rights)
    requires SentinelFree(b) && InBounds(x1, y1) && !Core.IsSentinel(piece)
    ensures App.BasicLegal(b, piece, x1, y1, x2, y2, ep, rights, false)
        <==> Core.BasicLegal(b, piece, x1, y1, x2, y2, ep, rights, false)
             && !(piece.Piece? && piece.kind == King && Core.Castle(b, piece, x1, y1, x2, y2, ep, rights)
                  && (Abs(x2 - x1) > 1 || Abs(y2 - y1) > 1) && !RookOnCorner(b, piece, x2))
  {
    CastleAgree(b, piece, x1, y1, x2, y2, ep, rights);
  }

  /** The two makeMove versions agree when the target is no sentinel and a
      king leaving its home square for column 6 or 2 stays on its row (the
      row test app/core.js leaves out). */
  lemma SimulateAgree(b: Board, x1: int, y1: int, x2: int, y2: int, ep: Option<Square>, rights: Rights)
    requires InBounds(x1, y1) && InBounds(x2, y2) && ValidEnPassant(ep)
    requires !Core.IsSentinel(b[y2][x2]) && (Core.IsCastling(b[y1][x1], x1, y1, x2) ==> y2 == y1)
    ensures App.Simulate(b, x1, y1, x2, y2, ep, rights) == Core.Simulate(b, x1, y1, x2, y2, ep, rights)
  {
  }

  /** A move of the piece on the board that app.js finds structurally legal
      meets the conditions of SimulateAgree. */
  lemma LegalMovesStayOnRow(b: Board, x1: int, y1: int, x2: int, y2: int, ep: Option<Square>, rights: Rights)
    requires SentinelFree(b) && InBounds(x1, y1)
    requires App.BasicLegal(b, b[y1][x1], x1, y1, x2, y2, ep, rights, false)
    ensures InBounds(x2, y2) && !Core.IsSentinel(b[y2][x2])
    ensures Core.IsCastling(b[y1][x1], x1, y1, x2) ==> y2 == y1
  {
    if Core.IsCastling(b[y1][x1], x1, y1, x2) {
      assert App.Castle(b, b[y1][x1], x1, y1, x2, y2, ep, rights);
    }
  }

  /** makeMove never creates a sentinel. */
  lemma SimulateKeepsSentinelFree(b: Board, x1: int, y1: int, x2: int, y2: int, ep: Option<Square>, rights: Rights)
    requires SentinelFree(b) && InBounds(x1, y1) && InBounds(x2, y2) && ValidEnPassant(ep)
    ensures SentinelFree(App.Simulate(b, x1, y1, x2, y2, ep, rights).board)
  {
    var piece := b[y1][x1];
    var b1 := CaptureEnPassant(b, piece, x2, y2, ep);
    var b2 := Relocate(b1, piece, x1, y1, x2, y2);
    var b3 := Promote(b2, piece, x2, y2);
    assert SentinelFree(b1);
    assert SentinelFree(b2);
    assert SentinelFree(b3);
  }

  /** On sentinel-free positions the two isLegalMove versions agree except on
      castling without an own rook on the corner, which only app/core.js
      allows. */
  lemma IsLegalAgree(p: Position, x1: int, y1: int, x2: int, y2: int)
    requires SentinelFree(p.board) && InBounds(x1, y1) && ValidEnPassant(p.ep)
    ensures var piece := p.board[y1][x1];
      App.IsLegal(p, piece, x1, y1, x2, y2)
      <==> Core.IsLegal(p, piece, x1, y1, x2, y2)
           && !(piece.Piece? && piece.kind == King && (Abs(x2 - x1) > 1 || Abs(y2 - y1) > 1)
                && !RookOnCorner(p.board, piece, x2))
  {
    var piece := p.board[y1][x1];
    if !(piece.Piece? && ColorOf(piece) == p.turn) {
      return;
    }
    BasicLegalAgree(p.board, piece, x1, y1, x2, y2, p.ep, p.rights);
    if !Core.BasicLegal(p.board, piece, x1, y1, x2, y2, p.ep, p.rights, false) {
      return;
    }
    if piece.kind == King && (Abs(x2 - x1) > 1 || Abs(y2 - y1) > 1) {
      Core.CastlingConditions(p.board, piece, x1, y1, x2, y2, p.ep, p.rights);
    }
    assert Core.IsCastling(piece, x1, y1, x2) ==> y2 == y1;
    SimulateAgree(p.board, x1, y1, x2, y2, p.ep, p.rights);
    var r := App.Simulate(p.board, x1, y1, x2, y2, p.ep, p.rights);
    SimulateKeepsSentinelFree(p.board, x1, y1, x2, y2, p.ep, p.rights);
    CheckAgree(r.board, ColorOf(piece), r.ep, r.rights);
  }
}

/** The standalone engine of app.js (lines 64-374 and the move gate of
    tryMove at 559-571): structural move rules, attack scanning, check, move
    simulation on a cloned board, full legality, legal-destination listing
    and committing a move. The pure rules are functions over board values;
    the scans, the walk of pathClear, the writes of makeMove on a fresh array
    and the module-level state are methods over arrays and a class.
    Each rule of basicLegalMove appears twice on purpose: as a function that
    states it (BasicLegal, PieceRule, PawnMove, Castle) and as a method that
    follows the source's control flow over the array (BasicLegalMove,
    PieceRuleAllowed, PawnMoveAllowed, CastleMove and its per-side halves),
    proved equal to it. */
module App {
  import opened Board
  import opened Moves

  // ---------------------------------------------------------------------
  // Structural legality (basicLegalMove) and attack detection (squareAttacked)

  /** basicLegalMove: may `piece`, standing on (x1, y1), move to (x2, y2) by
      its own movement rule, ignoring the safety of its king? With
      ignoreSpecialKing set (as during attack scans) the king does not
      consider castling, which cuts the recursion through squareAttacked. */
  function BasicLegal(b: Board, piece: Cell, x1: int, y1: int, x2: int, y2: int,
                      ep: Option<Square>, rights: Rights, ignoreSpecialKing: bool): (r: bool)
    requires InBounds(x1, y1)
    decreases if ignoreSpecialKing then 1 else 6
    ensures r ==> (x1 != x2 || y1 != y2) && InBounds(x2, y2)
    ensures r ==> piece.Piece? && !(b[y2][x2].Piece? && b[y2][x2].color == piece.color)
  {
    if x1 == x2 && y1 == y2 then false
    else if !InBounds(x2, y2) then false
    else if b[y2][x2].Piece? && IsWhite(b[y2][x2]) == IsWhite(piece) then false
    else PieceRule(b, piece, x1, y1, x2, y2, ep, rights, ignoreSpecialKing)
  }

  /** The piece's own movement rule, reached once the target square has
      passed the rejections of basicLegalMove. */
  function PieceRule(b: Board, piece: Cell, x1: int, y1: int, x2: int, y2: int,
                     ep: Option<Square>, rights: Rights, ignoreSpecialKing: bool): (r: bool)
    requires InBounds(x1, y1) && InBounds(x2, y2)
    decreases if ignoreSpecialKing then 0 else 5
    ensures r ==> piece.Piece?
  {
    var dx, dy := x2 - x1, y2 - y1;
    match piece
    case Empty => false
    case Piece(kind, _) =>
      match kind
      case Pawn => PawnMove(b, piece, x1, y1, x2, y2, ep)
      case Knight => (Abs(dx) == 1 && Abs(dy) == 2) || (Abs(dx) == 2 && Abs(dy) == 1)
      case Bishop | Rook | Queen => SlideMove(b, kind, x1, y1, x2, y2)
      case King =>
        (Abs(dx) <= 1 && Abs(dy) <= 1)
        || (!ignoreSpecialKing && Castle(b, piece, x1, y1, x2, y2, ep, rights))
      case Sentinel => false  // app.js has no case for this letter
  }

  /** The pawn branch: a single step forward onto an empty square, a double
      step from the start row over two empty squares, a diagonal step onto an
      enemy piece, or a diagonal step onto the en-passant target. */
  predicate PawnMove(b: Board, piece: Cell, x1: int, y1: int, x2: int, y2: int, ep: Option<Square>)
    requires InBounds(x1, y1) && InBounds(x2, y2)
  {
    var white := IsWhite(piece);
    var dir := Forward(white);
    var dx, dy := x2 - x1, y2 - y1;
    var target := b[y2][x2];
    (dx == 0 && dy == dir && target.Empty?)
    || (dx == 0 && dy == 2 * dir && y1 == StartRank(white) && target.Empty?
        && b[y1 + dir][x1].Empty? && b[y2][x2].Empty?)
    || (Abs(dx) == 1 && dy == dir && target.Piece? && IsEnemy(piece, target))
    || (Abs(dx) == 1 && dy == dir && target.Empty? && ep.Some? && ep.value.x == x2 && ep.value.y == y2)
  }

  /** The castling branch: the king on column 4 of its home row moves to
      column 6 (king side) or 2 (queen side) of that row, the right is still
      held, the squares between king and rook are empty, the king's start,
      transit and destination squares are not attacked, and the corner holds
      a rook of the king's colour. */
  predicate Castle(b: Board, piece: Cell, x1: int, y1: int, x2: int, y2: int, ep: Option<Square>, rights: Rights)
    decreases 4
  {
    var white := IsWhite(piece);
    var rank := HomeRank(white);
    if y1 == rank && x1 == 4 && y2 == rank && x2 == 6 then
      (if white then rights.wK else rights.bK)
      && b[rank][5].Empty? && b[rank][6].Empty?
      && !Attacked(b, 4, rank, !white, ep, rights)
      && !Attacked(b, 5, rank, !white, ep, rights)
      && !Attacked(b, 6, rank, !white, ep, rights)
      && b[rank][7] == Piece(Rook, ColorOf(piece))
    else if y1 == rank && x1 == 4 && y2 == rank && x2 == 2 then
      (if white then rights.wQ else rights.bQ)
      && b[rank][1].Empty? && b[rank][2].Empty? && b[rank][3].Empty?
      && !Attacked(b, 4, rank, !white, ep, rights)
      && !Attacked(b, 3, rank, !white, ep, rights)
      && !Attacked(b, 2, rank, !white, ep, rights)
      && b[rank][0] == Piece(Rook, ColorOf(piece))
    else false
  }

  /** The piece on (xx, yy) belongs to the attacking colour and could move to
      (x, y) by its own rule, castling excluded. */
  predicate Attacks(b: Board, xx: int, yy: int, x: int, y: int, byWhite: bool, ep: Option<Square>, rights: Rights)
    requires InBounds(xx, yy)
    decreases 2
  {
    b[yy][xx].Piece? && IsWhite(b[yy][xx]) == byWhite
    && BasicLegal(b, b[yy][xx], xx, yy, x, y, ep, rights, true)
  }

  /** squareAttacked's answer: some piece of the colour attacks (x, y). */
  predicate Attacked(b: Board, x: int, y: int, byWhite: bool, ep: Option<Square>, rights: Rights)
    decreases 3
  {
    exists yy, xx :: 0 <= yy < 8 && 0 <= xx < 8 && Attacks(b, xx, yy, x, y, byWhite, ep, rights)
  }

  /** inCheck's answer: the first king of the colour found by findKing is
      attacked by the other colour; false when there is no such king. */
  predicate KingInCheck(b: Board, color: Color, ep: Option<Square>, rights: Rights) {
    var white := color == White;
    match FirstKing(b, white)
    case None => false
    case Some(k) => Attacked(b, k.x, k.y, !white, ep, rights)
  }

  // ---------------------------------------------------------------------
  // Move simulation (makeMove), full legality (isLegalMove), applyMove

  /** The castling step of makeMove: a king moving from (4, home row) to
      (6, home row) or (2, home row) takes the corner's occupant to column 5
      or 3. */
  function CastleRook(b: Board, piece: Cell, x1: int, y1: int, x2: int, y2: int): Board {
    if piece == Piece(King, White) && x1 == 4 && y1 == 7 && x2 == 6 && y2 == 7 then MoveRook(b, 7, 7, 5)
    else if piece == Piece(King, White) && x1 == 4 && y1 == 7 && x2 == 2 && y2 == 7 then MoveRook(b, 7, 0, 3)
    else if piece == Piece(King, Black) && x1 == 4 && y1 == 0 && x2 == 6 && y2 == 0 then MoveRook(b, 0, 7, 5)
    else if piece == Piece(King, Black) && x1 == 4 && y1 == 0 && x2 == 2 && y2 == 0 then MoveRook(b, 0, 0, 3)
    else b
  }

  /** The castling moves CastleRook reacts to. */
  predicate IsCastling(piece: Cell, x1: int, y1: int, x2: int, y2: int) {
    piece.Piece? && piece.kind == King && x1 == 4 && y1 == HomeRank(IsWhite(piece))
    && y2 == y1 && (x2 == 6 || x2 == 2)
  }

  /** makeMove's result for moving the occupant of (x1, y1) to (x2, y2). */
  function Simulate(b: Board, x1: int, y1: int, x2: int, y2: int, ep: Option<Square>, rights: Rights): MoveResult
    requires InBounds(x1, y1) && InBounds(x2, y2) && ValidEnPassant(ep)
  {
    var piece := b[y1][x1];
    var b1 := CaptureEnPassant(b, piece, x2, y2, ep);
    var b2 := Relocate(b1, piece, x1, y1, x2, y2);
    var b3 := Promote(b2, piece, x2, y2);
    var b4 := CastleRook(b3, piece, x1, y1, x2, y2);
    MoveResult(b4, NextEnPassant(piece, x1, y1, x2, y2), MoveRights(piece, b[y2][x2], x1, y1, x2, y2, rights))
  }

  /** isLegalMove's answer: `piece` belongs to the side to move, the move is
      structurally legal with castling considered, and the simulated position
      does not leave the mover's king in check. */
  predicate IsLegal(p: Position, piece: Cell, x1: int, y1: int, x2: int, y2: int)
    requires InBounds(x1, y1) && ValidEnPassant(p.ep)
  {
    piece.Piece? && ColorOf(piece) == p.turn
    && BasicLegal(p.board, piece, x1, y1, x2, y2, p.ep, p.rights, false)
    && var r := Simulate(p.board, x1, y1, x2, y2, p.ep, p.rights);
       !KingInCheck(r.board, ColorOf(piece), r.ep, r.rights)
  }

  /** The destinations isLegalMove accepts for the piece on (x1, y1), as a
      test on the destination's coordinates. */
  function LegalFrom(p: Position, x1: int, y1: int): (int, int) -> bool
    requires InBounds(x1, y1) && ValidEnPassant(p.ep)
  {
    (x, y) => IsLegal(p, p.board[y1][x1], x1, y1, x, y)
  }

  /** getLegalMoves' answer: nothing for an empty square or a piece of the
      side not to move, otherwise the legal destinations in scan order. */
  function LegalMoves(p: Position, x1: int, y1: int): seq<Square>
    requires InBounds(x1, y1) && ValidEnPassant(p.ep)
  {
    var piece := p.board[y1][x1];
    if piece.Empty? || ColorOf(piece) != p.turn then [] else Scan(LegalFrom(p, x1, y1), 64)
  }

  /** getLegalMoves lists exactly the on-board destinations isLegalMove
      accepts, each once and in row-major order. */
  lemma LegalMovesExact(p: Position, x1: int, y1: int)
    requires InBounds(x1, y1) && ValidEnPassant(p.ep)
    ensures forall s :: s in LegalMoves(p, x1, y1) <==> InBounds(s.x, s.y) && IsLegal(p, p.board[y1][x1], x1, y1, s.x, s.y)
    ensures forall i, j :: 0 <= i < j < |LegalMoves(p, x1, y1)| ==> Before(LegalMoves(p, x1, y1)[i], LegalMoves(p, x1, y1)[j])
  {
    ScanMembers(LegalFrom(p, x1, y1), 64);
    ScanOrdered(LegalFrom(p, x1, y1), 64);
  }

  /** `keep` answers isLegalMove for `piece` moved from (x1, y1). */
  ghost predicate Decides(keep: (int, int) -> bool, p: Position, piece: Cell, x1: int, y1: int)
    requires InBounds(x1, y1) && ValidEnPassant(p.ep)
  {
    forall x, y {:trigger IsLegal(p, piece, x1, y1, x, y)} :: keep(x, y) == IsLegal(p, piece, x1, y1, x, y)
  }

  /** isLegalMove's test for the piece on (x1, y1) as a function value that
      getLegalMoves' loops consult one destination at a time; its scan is
      getLegalMoves' answer. */
  lemma LegalTest(p: Position, x1: int, y1: int) returns (keep: (int, int) -> bool)
    requires InBounds(x1, y1) && ValidEnPassant(p.ep)
    ensures Decides(keep, p, p.board[y1][x1], x1, y1)
    ensures Scan(keep, 64) == Scan(LegalFrom(p, x1, y1), 64)
  {
    keep := LegalFrom(p, x1, y1);
  }

  /** The state applyMove leaves: makeMove's result with the turn flipped. */
  function Next(p: Position, x1: int, y1: int, x2: int, y2: int): (q: Position)
    requires InBounds(x1, y1) && InBounds(x2, y2) && ValidEnPassant(p.ep)
    ensures q.turn == Opposite(p.turn) && q.turn != p.turn
    ensures ValidEnPassant(q.ep)
  {
    var r := Simulate(p.board, x1, y1, x2, y2, p.ep, p.rights);
    Position(r.board, Opposite(p.turn), r.rights, r.ep)
  }

  // ---------------------------------------------------------------------
  // The imperative scans and makeMove

  /** basicLegalMove: the structural test, walking the line with pathClear
      and scanning for attackers with squareAttacked when castling. */
  method BasicLegalMove(a: array2<Cell>, piece: Cell, x1: int, y1: int, x2: int, y2: int,
                        ep: Option<Square>, rights: Rights, ignoreSpecialKing: bool) returns (r: bool)
    requires a.Length0 == 8 && a.Length1 == 8 && InBounds(x1, y1)
    decreases if ignoreSpecialKing then 1 else 7
    ensures r == BasicLegal(Cells(a), piece, x1, y1, x2, y2, ep, rights, ignoreSpecialKing)
  {
    ghost var b := Cells(a);
    if x1 == x2 && y1 == y2 {
      return false;
    }
    if !InBounds(x2, y2) {
      return false;
    }
    var target := a[y2, x2];
    assert target == b[y2][x2];
    var white := IsWhite(piece);
    if target.Piece? && IsWhite(target) == white {
      return false;
    }
    r := PieceRuleAllowed(a, piece, x1, y1, x2, y2, ep, rights, ignoreSpecialKing);
  }

  /** The per-piece branches of basicLegalMove. */
  method PieceRuleAllowed(a: array2<Cell>, piece: Cell, x1: int, y1: int, x2: int, y2: int,
                          ep: Option<Square>, rights: Rights, ignoreSpecialKing: bool) returns (r: bool)
    requires a.Length0 == 8 && a.Length1 == 8 && InBounds(x1, y1) && InBounds(x2, y2)
    decreases if ignoreSpecialKing then 0 else 6
    ensures r == PieceRule(Cells(a), piece, x1, y1, x2, y2, ep, rights, ignoreSpecialKing)
  {
    var dx, dy := x2 - x1, y2 - y1;
    var absDx, absDy := Abs(dx), Abs(dy);
    if piece.Empty? {
      return false;
    }
    match piece.kind
    case Pawn =>
      r := PawnMoveAllowed(a, piece, x1, y1, x2, y2, ep);
    case Knight =>
      return (absDx == 1 && absDy == 2) || (absDx == 2 && absDy == 1);
    case Bishop | Rook | Queen =>
      r := SlideAllowed(a, piece.kind, x1, y1, x2, y2);
    case King =>
      if absDx <= 1 && absDy <= 1 {
        return true;
      }
      if ignoreSpecialKing {
        return false;
      }
      r := CastleMove(a, piece, x1, y1, x2, y2, ep, rights);
    case Sentinel =>
      return false;
  }

  /** The pawn branch of basicLegalMove, case by case. */
  method PawnMoveAllowed(a: array2<Cell>, piece: Cell, x1: int, y1: int, x2: int, y2: int, ep: Option<Square>)
    returns (r: bool)
    requires a.Length0 == 8 && a.Length1 == 8 && InBounds(x1, y1) && InBounds(x2, y2)
    ensures r == PawnMove(Cells(a), piece, x1, y1, x2, y2, ep)
  {
    ghost var b := Cells(a);
    var target := a[y2, x2];
    assert target == b[y2][x2];
    var white := IsWhite(piece);
    var dx, dy := x2 - x1, y2 - y1;
    var dir := if white then -1 else 1;
    var startRank := if white then 6 else 1;
    if dx == 0 && dy == dir && target.Empty? {
      return true;
    }
    if dx == 0 && dy == 2 * dir && y1 == startRank && target.Empty? {
      var midY := y1 + dir;
      assert a[midY, x1] == b[midY][x1];
      if a[midY, x1].Empty? && a[y2, x2].Empty? {
        return true;
      }
    }
    if Abs(dx) == 1 && dy == dir && target.Piece? && IsEnemy(piece, target) {
      return true;
    }
    if Abs(dx) == 1 && dy == dir && target.Empty? && ep.Some? {
      if ep.value.x == x2 && ep.value.y == y2 {
        return true;
      }
    }
    return false;
  }

  /** The castling branch of basicLegalMove, test by test. */
  method CastleMove(a: array2<Cell>, piece: Cell, x1: int, y1: int, x2: int, y2: int,
                      ep: Option<Square>, rights: Rights) returns (r: bool)
    requires a.Length0 == 8 && a.Length1 == 8
    decreases 5
    ensures r == Castle(Cells(a), piece, x1, y1, x2, y2, ep, rights)
  {
    var white := IsWhite(piece);
    var rank := if white then 7 else 0;
    if y1 == rank && x1 == 4 && y2 == rank {
      if x2 == 6 {
        r := CastleKingSide(a, piece, x1, y1, x2, y2, ep, rights);
        return;
      }
      if x2 == 2 {
        r := CastleQueenSide(a, piece, x1, y1, x2, y2, ep, rights);
        return;
      }
    }
    return false;
  }

  /** The king-side branch of castling: the right, the empty squares, the
      unattacked squares, then the rook on the corner, test by test. */
  method CastleKingSide(a: array2<Cell>, piece: Cell, x1: int, y1: int, x2: int, y2: int,
                      ep: Option<Square>, rights: Rights) returns (r: bool)
    requires a.Length0 == 8 && a.Length1 == 8
    requires y1 == HomeRank(IsWhite(piece)) && x1 == 4 && y2 == y1 && x2 == 6
    decreases 4
    ensures r == Castle(Cells(a), piece, x1, y1, x2, y2, ep, rights)
  {
    ghost var b := Cells(a);
    var white := IsWhite(piece);
    var rank := if white then 7 else 0;
    var right := if white then rights.wK else rights.bK;
    if !right {
      return false;
    }
    assert a[rank, 5] == b[rank][5] && a[rank, 6] == b[rank][6];
    if a[rank, 5].Piece? || a[rank, 6].Piece? {
      return false;
    }
    var attacked := SquareAttacked(a, 4, rank, !white, ep, rights);
    if attacked {
      return false;
    }
    attacked := SquareAttacked(a, 5, rank, !white, ep, rights);
    if attacked {
      return false;
    }
    attacked := SquareAttacked(a, 6, rank, !white, ep, rights);
    if attacked {
      return false;
    }
    var rook := a[rank, 7];
    assert rook == b[rank][7];
    if rook.Empty? || rook.kind != Rook || IsWhite(rook) != white {
      return false;
    }
    return true;
  }

  /** The queen-side branch of castling: the right, the empty squares, the
      unattacked squares, then the rook on the corner, test by test. */
  method CastleQueenSide(a: array2<Cell>, piece: Cell, x1: int, y1: int, x2: int, y2: int,
                      ep: Option<Square>, rights: Rights) returns (r: bool)
    requires a.Length0 == 8 && a.Length1 == 8
    requires y1 == HomeRank(IsWhite(piece)) && x1 == 4 && y2 == y1 && x2 == 2
    decreases 4
    ensures r == Castle(Cells(a), piece, x1, y1, x2, y2, ep, rights)
  {
    ghost var b := Cells(a);
    var white := IsWhite(piece);
    var rank := if white then 7 else 0;
    var right := if white then rights.wQ else rights.bQ;
    if !right {
      return false;
    }
    assert a[rank, 1] == b[rank][1] && a[rank, 2] == b[rank][2] && a[rank, 3] == b[rank][3];
    if a[rank, 1].Piece? || a[rank, 2].Piece? || a[rank, 3].Piece? {
      return false;
    }
    var attacked := SquareAttacked(a, 4, rank, !white, ep, rights);
    if attacked {
      return false;
    }
    attacked := SquareAttacked(a, 3, rank, !white, ep, rights);
    if attacked {
      return false;
    }
    attacked := SquareAttacked(a, 2, rank, !white, ep, rights);
    if attacked {
      return false;
    }
    var rook := a[rank, 0];
    assert rook == b[rank][0];
    if rook.Empty? || rook.kind != Rook || IsWhite(rook) != white {
      return false;
    }
    return true;
  }

  /** squareAttacked: the nested scan, returning on the first attacker. */
  method SquareAttacked(a: array2<Cell>, x: int, y: int, byWhite: bool, ep: Option<Square>, rights: Rights)
    returns (r: bool)
    requires a.Length0 == 8 && a.Length1 == 8
    decreases 3
    ensures r == Attacked(Cells(a), x, y, byWhite, ep, rights)
  {
    ghost var b := Cells(a);
    for yy := 0 to 8
      invariant forall yy', xx' :: 0 <= yy' < yy && 0 <= xx' < 8 ==> !Attacks(b, xx', yy', x, y, byWhite, ep, rights)
    {
      for xx := 0 to 8
        invariant forall yy', xx' :: 0 <= yy' < yy && 0 <= xx' < 8 ==> !Attacks(b, xx', yy', x, y, byWhite, ep, rights)
        invariant forall xx' :: 0 <= xx' < xx ==> !Attacks(b, xx', yy, x, y, byWhite, ep, rights)
      {
        var p := a[yy, xx];
        assert p == b[yy][xx];
        if p.Empty? {
          continue;
        }
        if IsWhite(p) != byWhite {
          continue;
        }
        var legal := BasicLegalMove(a, p, xx, yy, x, y, ep, rights, true);
        if legal {
          assert Attacks(b, xx, yy, x, y, byWhite, ep, rights);
          return true;
        }
      }
    }
    return false;
  }

  /** inCheck: findKing, then squareAttacked by the other colour. */
  method InCheck(a: array2<Cell>, color: Color, ep: Option<Square>, rights: Rights) returns (r: bool)
    requires a.Length0 == 8 && a.Length1 == 8
    ensures r == KingInCheck(Cells(a), color, ep, rights)
  {
    var white := color == White;
    var k := FindKing(a, white);
    if k.None? {
      return false;
    }
    r := SquareAttacked(a, k.value.x, k.value.y, !white, ep, rights);
  }

  /** makeMove: clone the board, then write the cells and flags step by step.
      The input array is not modified and the result never aliases it. */
  method MakeMove(a: array2<Cell>, x1: int, y1: int, x2: int, y2: int, ep: Option<Square>, rights: Rights)
    returns (nb: array2<Cell>, newEp: Option<Square>, newRights: Rights)
    requires a.Length0 == 8 && a.Length1 == 8
    requires InBounds(x1, y1) && InBounds(x2, y2) && ValidEnPassant(ep)
    ensures fresh(nb) && nb.Length0 == 8 && nb.Length1 == 8
    ensures MoveResult(Cells(nb), newEp, newRights) == Simulate(Cells(a), x1, y1, x2, y2, ep, rights)
  {
    ghost var b := Cells(a);
    nb := CloneBoard(a);
    var piece := nb[y1, x1];
    assert piece == b[y1][x1];
    var captured := nb[y2, x2];
    assert captured == b[y2][x2];
    assert Agrees(nb, b);
    ghost var g := b;

    WriteEnPassantCapture(nb, g, piece, x2, y2, ep);
    g := CaptureEnPassant(g, piece, x2, y2, ep);
    newEp := WriteMoveAndPromotion(nb, g, piece, x1, y1, x2, y2);
    g := Promote(Relocate(g, piece, x1, y1, x2, y2), piece, x2, y2);
    newRights := WriteKingMove(nb, g, piece, x1, y1, x2, y2, rights);
    g := CastleRook(g, piece, x1, y1, x2, y2);
    newRights := RevokeRookRights(piece, x1, y1, newRights);
    newRights := RevokeRookRights(captured, x2, y2, newRights);

    CellsOfAgreeing(nb, g);
    assert Cells(a) == b;
  }

  /** The king blocks of makeMove: a king move revokes both rights of its
      colour, and a castling move also carries the rook across. */
  method WriteKingMove(nb: array2<Cell>, ghost g: Board, piece: Cell, x1: int, y1: int, x2: int, y2: int, rights: Rights)
    returns (newRights: Rights)
    requires nb.Length0 == 8 && nb.Length1 == 8 && Agrees(nb, g)
    modifies nb
    ensures Agrees(nb, CastleRook(g, piece, x1, y1, x2, y2))
    ensures newRights == KingMoveRights(piece, rights)
  {
    newRights := rights;
    if piece == Piece(King, White) {
      newRights := newRights.(wK := false, wQ := false);
      if x1 == 4 && y1 == 7 && x2 == 6 && y2 == 7 {
        nb[7, 5] := nb[7, 7];
        nb[7, 7] := Empty;
      } else if x1 == 4 && y1 == 7 && x2 == 2 && y2 == 7 {
        nb[7, 3] := nb[7, 0];
        nb[7, 0] := Empty;
      }
    }
    if piece == Piece(King, Black) {
      newRights := newRights.(bK := false, bQ := false);
      if x1 == 4 && y1 == 0 && x2 == 6 && y2 == 0 {
        nb[0, 5] := nb[0, 7];
        nb[0, 7] := Empty;
      } else if x1 == 4 && y1 == 0 && x2 == 2 && y2 == 0 {
        nb[0, 3] := nb[0, 0];
        nb[0, 0] := Empty;
      }
    }
  }

  // ---------------------------------------------------------------------
  // The module-level game state

  /** The globals board, turn, castlingRights and enPassantTarget of app.js. */
  class Game {
    var board: array2<Cell>
    var turn: Color
    var castlingRights: Rights
    var enPassantTarget: Option<Square>

    ghost predicate Valid()
      reads this
    {
      board.Length0 == 8 && board.Length1 == 8 && ValidEnPassant(enPassantTarget)
    }

    ghost function State(): Position
      reads this, board
      requires Valid()
    {
      Position(Cells(board), turn, castlingRights, enPassantTarget)
    }

    /** The initial globals: the standard array, white to move, all four
        castling rights, no en-passant target. */
    constructor ()
      ensures Valid() && fresh(board)
      ensures State() == InitialPosition()
    {
      var a := NewBoardArray(InitialBoard());
      board := a;
      turn := White;
      castlingRights := Rights(true, true, true, true);
      enPassantTarget := None;
    }

    /** isLegalMove on the current globals. */
    method IsLegalMove(piece: Cell, x1: int, y1: int, x2: int, y2: int) returns (r: bool)
      requires Valid() && InBounds(x1, y1)
      ensures r == IsLegal(State(), piece, x1, y1, x2, y2)
    {
      if piece.Empty? {
        return false;
      }
      var color := ColorOf(piece);
      if color != turn {
        return false;
      }
      var basic := BasicLegalMove(board, piece, x1, y1, x2, y2, enPassantTarget, castlingRights, false);
      if !basic {
        return false;
      }
      var nb, nep, nr := MakeMove(board, x1, y1, x2, y2, enPassantTarget, castlingRights);
      var check := InCheck(nb, color, nep, nr);
      r := !check;
    }

    /** getLegalMoves: exactly the in-bounds destinations for which
        isLegalMove holds for the piece on (x1, y1), in scan order. */
    method GetLegalMoves(x1: int, y1: int) returns (moves: seq<Square>)
      requires Valid() && InBounds(x1, y1)
      ensures moves == LegalMoves(State(), x1, y1)
    {
      ghost var p := State();
      var piece := board[y1, x1];
      assert piece == p.board[y1][x1];
      moves := [];
      if piece.Empty? || ColorOf(piece) != turn {
        return;
      }
      ghost var keep := LegalTest(p, x1, y1);
      moves := CollectRows(piece, x1, y1, p, keep);
    }

    /** The nested loops of getLegalMoves over the rows of the board. */
    method CollectRows(piece: Cell, x1: int, y1: int, ghost p: Position, ghost keep: (int, int) -> bool)
      returns (moves: seq<Square>)
      requires Valid() && p == State() && InBounds(x1, y1)
      requires Decides(keep, p, piece, x1, y1)
      ensures moves == Scan(keep, 64)
    {
      moves := [];
      ghost var n := 0;
      for y2 := 0 to 8
        invariant n == 8 * y2 && moves == Scan(keep, n)
      {
        moves := CollectRow(piece, x1, y1, y2, p, keep, n, moves);
        n := n + 8;
      }
    }

    /** The inner loop of getLegalMoves: push each destination of row y2
        that isLegalMove accepts. */
    method CollectRow(piece: Cell, x1: int, y1: int, y2: int, ghost p: Position, ghost keep: (int, int) -> bool,
                      ghost n: nat, moves: seq<Square>) returns (r: seq<Square>)
      requires Valid() && p == State() && InBounds(x1, y1) && 0 <= y2 < 8 && n == 8 * y2
      requires Decides(keep, p, piece, x1, y1)
      requires moves == Scan(keep, n)
      ensures r == Scan(keep, n + 8)
    {
      ghost var k := n;
      r := moves;
      for x2 := 0 to 8
        invariant k == n + x2 && r == Scan(keep, k)
      {
        var ok := TestDestination(piece, x1, y1, x2, y2, p, keep);
        ScanStep(keep, k, x2, y2);
        if ok {
          r := r + [Square(x2, y2)];
        }
        k := k + 1;
      }
    }

    /** The isLegalMove call in getLegalMoves' loop, reported as the scan's
        test of (x2, y2). */
    method TestDestination(piece: Cell, x1: int, y1: int, x2: int, y2: int, ghost p: Position,
                           ghost keep: (int, int) -> bool) returns (ok: bool)
      requires Valid() && p == State() && InBounds(x1, y1) && InBounds(x2, y2)
      requires Decides(keep, p, piece, x1, y1)
      ensures ok == keep(x2, y2)
    {
      ok := IsLegalMove(piece, x1, y1, x2, y2);
    }

    /** applyMove: commit makeMove's result and flip the turn. */
    method ApplyMove(x1: int, y1: int, x2: int, y2: int)
      requires Valid() && InBounds(x1, y1) && InBounds(x2, y2)
      modifies this
      ensures Valid()
      ensures State() == Next(old(State()), x1, y1, x2, y2)
    {
      var nb, nep, nr := MakeMove(board, x1, y1, x2, y2, enPassantTarget, castlingRights);
      board := nb;
      enPassantTarget := nep;
      castlingRights := nr;
      turn := if turn == White then Black else White;
    }

    /** The engine part of tryMove: apply the move only when the destination
        is on the board and the move is legal; otherwise nothing changes. */
    method TryMove(x1: int, y1: int, x2: int, y2: int)
      requires Valid() && InBounds(x1, y1)
      modifies this
      ensures Valid()
      ensures var p := old(State());
        if InBounds(x2, y2) && IsLegal(p, p.board[y1][x1], x1, y1, x2, y2)
        then State() == Next(p, x1, y1, x2, y2)
        else State() == p
    {
      var piece := board[y1, x1];
      if InBounds(x2, y2) {
        var ok := IsLegalMove(piece, x1, y1, x2, y2);
        if ok {
          ApplyMove(x1, y1, x2, y2);
        }
      }
    }
  }

  // ---------------------------------------------------------------------
  // Properties of the rules

  /** The rejections made before any piece rule: a move to the same square,
      off the board, or onto a piece of the mover's own colour is never
      structurally legal. */
  lemma BasicLegalRejects(b: Board, piece: Cell, x1: int, y1: int, x2: int, y2: int,
                          ep: Option<Square>, rights: Rights, ignoreSpecialKing: bool)
    requires InBounds(x1, y1)
    requires (x1 == x2 && y1 == y2) || !InBounds(x2, y2) || (InBounds(x2, y2) && piece.Piece? && OwnedBy(b[y2][x2], piece.color))
    ensures !BasicLegal(b, piece, x1, y1, x2, y2, ep, rights, ignoreSpecialKing)
  {
  }

  /** The knight jumps: legal exactly for an (1, 2) or (2, 1) offset onto a
      square not held by its own colour, whatever stands in between. */
  lemma KnightJumps(b: Board, piece: Cell, x1: int, y1: int, x2: int, y2: int,
                    ep: Option<Square>, rights: Rights, ignoreSpecialKing: bool)
    requires InBounds(x1, y1) && piece.Piece? && piece.kind == Knight
    ensures BasicLegal(b, piece, x1, y1, x2, y2, ep, rights, ignoreSpecialKing)
        <==> InBounds(x2, y2) && !OwnedBy(b[y2][x2], piece.color)
             && ((Abs(x2 - x1) == 1 && Abs(y2 - y1) == 2) || (Abs(x2 - x1) == 2 && Abs(y2 - y1) == 1))
  {
  }

  /** Bishop, rook and queen: legal exactly along their lines, onto a square
      not held by their own colour, with every square in between empty. */
  lemma SlidersNeedClearPath(b: Board, piece: Cell, x1: int, y1: int, x2: int, y2: int,
                             ep: Option<Square>, rights: Rights, ignoreSpecialKing: bool)
    requires InBounds(x1, y1) && piece.Piece? && piece.kind in {Bishop, Rook, Queen}
    ensures BasicLegal(b, piece, x1, y1, x2, y2, ep, rights, ignoreSpecialKing)
        <==> InBounds(x2, y2) && (x1 != x2 || y1 != y2) && !OwnedBy(b[y2][x2], piece.color)
             && SlideShape(piece.kind, x2 - x1, y2 - y1) && ClearBetween(b, x1, y1, x2, y2)
  {
  }

  /** Pawns: legal exactly for a step forward onto an empty square, a double
      step from the start row over two empty squares, or a diagonal step
      forward onto an enemy piece or onto the en-passant target. */
  lemma PawnMoves(b: Board, piece: Cell, x1: int, y1: int, x2: int, y2: int,
                  ep: Option<Square>, rights: Rights, ignoreSpecialKing: bool)
    requires InBounds(x1, y1) && IsPawn(piece)
    ensures var dir := Forward(piece.color == White);
      BasicLegal(b, piece, x1, y1, x2, y2, ep, rights, ignoreSpecialKing)
      <==> InBounds(x2, y2)
           && ((x2 == x1 && y2 == y1 + dir && b[y2][x2].Empty?)
               || (x2 == x1 && y1 == StartRank(piece.color == White) && y2 == y1 + 2 * dir
                   && b[y1 + dir][x1].Empty? && b[y2][x2].Empty?)
               || (Abs(x2 - x1) == 1 && y2 == y1 + dir && IsEnemy(piece, b[y2][x2]))
               || (Abs(x2 - x1) == 1 && y2 == y1 + dir && b[y2][x2].Empty? && ep == Some(Square(x2, y2))))
  {
  }

  /** During attack scans the king only steps to one of its eight neighbours. */
  lemma KingStepsWhenIgnoring(b: Board, piece: Cell, x1: int, y1: int, x2: int, y2: int,
                              ep: Option<Square>, rights: Rights)
    requires InBounds(x1, y1) && piece.Piece? && piece.kind == King
    ensures BasicLegal(b, piece, x1, y1, x2, y2, ep, rights, true)
        <==> InBounds(x2, y2) && (x1 != x2 || y1 != y2) && !OwnedBy(b[y2][x2], piece.color)
             && Abs(x2 - x1) <= 1 && Abs(y2 - y1) <= 1
  {
  }

  /** Setting ignoreSpecialKing only removes moves, and the moves it removes
      are king moves accepted by the castling branch. */
  lemma IgnoringCastlingOnlyRemoves(b: Board, piece: Cell, x1: int, y1: int, x2: int, y2: int,
                                    ep: Option<Square>, rights: Rights)
    requires InBounds(x1, y1)
    ensures BasicLegal(b, piece, x1, y1, x2, y2, ep, rights, true) ==> BasicLegal(b, piece, x1, y1, x2, y2, ep, rights, false)
    ensures BasicLegal(b, piece, x1, y1, x2, y2, ep, rights, false) && !BasicLegal(b, piece, x1, y1, x2, y2, ep, rights, true)
        ==> piece.Piece? && piece.kind == King && Castle(b, piece, x1, y1, x2, y2, ep, rights)
  {
  }

  /** A king move of more than one square is legal only as castling: from
      column 4 of its home row to column 6 or 2 of that row, with the right
      still held, the squares between king and rook empty, the king's start,
      transit and destination squares not attacked by the other colour, and a
      rook of its own colour on the corner. */
  lemma CastlingConditions(b: Board, piece: Cell, x1: int, y1: int, x2: int, y2: int,
                           ep: Option<Square>, rights: Rights)
    requires InBounds(x1, y1) && piece.Piece? && piece.kind == King
    requires Abs(x2 - x1) > 1 || Abs(y2 - y1) > 1
    requires BasicLegal(b, piece, x1, y1, x2, y2, ep, rights, false)
    ensures var white := piece.color == White;
      var rank := HomeRank(white);
      && x1 == 4 && y1 == rank && y2 == rank && (x2 == 6 || x2 == 2)
      && (x2 == 6 ==> (if white then rights.wK else rights.bK)
                      && b[rank][7] == Piece(Rook, piece.color)
                      && forall x :: 4 < x < 7 ==> b[rank][x].Empty?)
      && (x2 == 2 ==> (if white then rights.wQ else rights.bQ)
                      && b[rank][0] == Piece(Rook, piece.color)
                      && forall x :: 0 < x < 4 ==> b[rank][x].Empty?)
      && !Attacked(b, 4, rank, !white, ep, rights)
      && !Attacked(b, (4 + x2) / 2, rank, !white, ep, rights)
      && !Attacked(b, x2, rank, !white, ep, rights)
  {
    assert Castle(b, piece, x1, y1, x2, y2, ep, rights);
  }

  /** No square holding a piece of the attacking colour is attacked by it. */
  lemma AttackedNeverOwnPiece(b: Board, x: int, y: int, byWhite: bool, ep: Option<Square>, rights: Rights)
    requires Attacked(b, x, y, byWhite, ep, rights)
    ensures InBounds(x, y) && !OwnedBy(b[y][x], if byWhite then White else Black)
  {
    var yy, xx :| 0 <= yy < 8 && 0 <= xx < 8 && Attacks(b, xx, yy, x, y, byWhite, ep, rights);
  }

  /** Pawn attacks come from the pawn's move rule: the empty square straight
      ahead of a pawn counts as attacked by it. */
  lemma PawnAttacksSquareAhead(b: Board, x: int, y: int, color: Color, ep: Option<Square>, rights: Rights)
    requires InBounds(x, y) && b[y][x] == Piece(Pawn, color)
    requires InBounds(x, y + Forward(color == White)) && b[y + Forward(color == White)][x].Empty?
    ensures Attacked(b, x, y + Forward(color == White), color == White, ep, rights)
  {
    assert Attacks(b, x, y, x, y + Forward(color == White), color == White, ep, rights);
  }

  /** A pawn attacks an empty diagonal square ahead of it only when that square
      is the en-passant target; an enemy piece there is always attacked. */
  lemma PawnDiagonalAttack(b: Board, xx: int, yy: int, x: int, y: int, ep: Option<Square>, rights: Rights)
    requires InBounds(xx, yy) && IsPawn(b[yy][xx]) && InBounds(x, y)
    requires Abs(x - xx) == 1 && y == yy + Forward(b[yy][xx].color == White)
    ensures var byWhite := b[yy][xx].color == White;
      Attacks(b, xx, yy, x, y, byWhite, ep, rights)
      <==> IsEnemy(b[yy][xx], b[y][x]) || (b[y][x].Empty? && ep == Some(Square(x, y)))
  {
  }

  /** inCheck is false when the colour has no king, and otherwise means the
      first king found is attacked by the other colour. */
  lemma CheckNeedsKing(b: Board, color: Color, ep: Option<Square>, rights: Rights)
    ensures FirstKing(b, color == White).None? ==> !KingInCheck(b, color, ep, rights)
    ensures KingInCheck(b, color, ep, rights)
        ==> exists y, x :: InBounds(x, y) && b[y][x] == KingOf(color == White) && Attacked(b, x, y, color != White, ep, rights)
  {
    if KingInCheck(b, color, ep, rights) {
      var k := FirstKing(b, color == White).value;
      assert InBounds(k.x, k.y) && b[k.y][k.x] == KingOf(color == White);
    }
  }

  // ---------------------------------------------------------------------
  // Properties of the simulated move

  /** The cells makeMove may write for a move from (x1, y1) to (x2, y2). */
  predicate Written(piece: Cell, x1: int, y1: int, x2: int, y2: int, ep: Option<Square>, x: int, y: int) {
    (x == x1 && y == y1) || (x == x2 && y == y2)
    || (EnPassantCapture(piece, x2, y2, ep) && x == x2 && y == y2 - Forward(IsWhite(piece)))
    || (IsCastling(piece, x1, y1, x2, y2) && y == y1 && (x == 0 || x == 3 || x == 5 || x == 7))
  }

  /** The source square is emptied and the destination holds the piece, or a
      queen of its colour when a pawn reaches the far row. */
  lemma SimulateRelocates(b: Board, x1: int, y1: int, x2: int, y2: int, ep: Option<Square>, rights: Rights)
    requires InBounds(x1, y1) && InBounds(x2, y2) && ValidEnPassant(ep) && (x1 != x2 || y1 != y2)
    ensures var r := Simulate(b, x1, y1, x2, y2, ep, rights);
      r.board[y1][x1] == Empty && r.board[y2][x2] == Promoted(b[y1][x1], y2)
  {
  }

  /** The rook step of castling writes only columns 0, 3, 5 and 7 of the
      king's row. */
  lemma CastleRookLeavesOthers(b: Board, piece: Cell, x1: int, y1: int, x2: int, y2: int, x: int, y: int)
    requires InBounds(x, y) && !(IsCastling(piece, x1, y1, x2, y2) && y == y1 && (x == 0 || x == 3 || x == 5 || x == 7))
    ensures CastleRook(b, piece, x1, y1, x2, y2)[y][x] == b[y][x]
  {
  }

  /** No cell other than the source, the destination, the pawn taken en
      passant and the castling rook's two squares changes. */
  lemma SimulateLeavesOthers(b: Board, x1: int, y1: int, x2: int, y2: int, ep: Option<Square>, rights: Rights)
    requires InBounds(x1, y1) && InBounds(x2, y2) && ValidEnPassant(ep)
    ensures var r := Simulate(b, x1, y1, x2, y2, ep, rights);
      forall y, x :: InBounds(x, y) && !Written(b[y1][x1], x1, y1, x2, y2, ep, x, y) ==> r.board[y][x] == b[y][x]
  {
    var piece := b[y1][x1];
    var b3 := Promote(Relocate(CaptureEnPassant(b, piece, x2, y2, ep), piece, x1, y1, x2, y2), piece, x2, y2);
    assert Simulate(b, x1, y1, x2, y2, ep, rights).board == CastleRook(b3, piece, x1, y1, x2, y2);
    forall y, x | InBounds(x, y) && !Written(piece, x1, y1, x2, y2, ep, x, y)
      ensures CastleRook(b3, piece, x1, y1, x2, y2)[y][x] == b[y][x]
    {
      PlainStepsLeaveOthers(b, piece, x1, y1, x2, y2, ep, x, y);
      CastleRookLeavesOthers(b3, piece, x1, y1, x2, y2, x, y);
    }
  }

  /** An en-passant capture empties the square one row behind the target. */
  lemma SimulateEnPassant(b: Board, x1: int, y1: int, x2: int, y2: int, ep: Option<Square>, rights: Rights)
    requires InBounds(x1, y1) && InBounds(x2, y2) && ValidEnPassant(ep)
    requires EnPassantCapture(b[y1][x1], x2, y2, ep)
    ensures Simulate(b, x1, y1, x2, y2, ep, rights).board[y2 - Forward(IsWhite(b[y1][x1]))][x2] == Empty
  {
  }

  /** Castling carries the rook from column 7 to 5 (king side) or from column
      0 to 3 (queen side) of the king's row, next to the king. */
  lemma SimulateCastling(b: Board, x1: int, y1: int, x2: int, y2: int, ep: Option<Square>, rights: Rights)
    requires InBounds(x1, y1) && InBounds(x2, y2) && ValidEnPassant(ep)
    requires IsCastling(b[y1][x1], x1, y1, x2, y2)
    ensures var r := Simulate(b, x1, y1, x2, y2, ep, rights).board;
      var from, to := if x2 == 6 then 7 else 0, if x2 == 6 then 5 else 3;
      r[y1][x2] == b[y1][x1] && r[y1][x1] == Empty && r[y1][to] == b[y1][from] && r[y1][from] == Empty
  {
  }

  /** The new en-passant target is set exactly after a pawn's double step from
      its start row, and then names the square passed over; the rights only
      lose flags (which flag each move revokes: Moves.MoveRightsRevokeOnly). */
  lemma SimulateFlags(b: Board, x1: int, y1: int, x2: int, y2: int, ep: Option<Square>, rights: Rights)
    requires InBounds(x1, y1) && InBounds(x2, y2) && ValidEnPassant(ep)
    ensures var r := Simulate(b, x1, y1, x2, y2, ep, rights);
      var piece := b[y1][x1];
      && (r.ep.Some? <==> IsPawn(piece) && y1 == StartRank(IsWhite(piece)) && y2 == y1 + 2 * Forward(IsWhite(piece)))
      && (r.ep.Some? ==> r.ep == Some(Square(x1, y1 + Forward(IsWhite(piece)))))
      && (r.rights.wK ==> rights.wK) && (r.rights.wQ ==> rights.wQ)
      && (r.rights.bK ==> rights.bK) && (r.rights.bQ ==> rights.bQ)
  {
    MoveRightsRevokeOnly(b[y1][x1], b[y2][x2], x1, y1, x2, y2, rights);
  }

  /** What isLegalMove guarantees: a piece of the side to move, a real move
      to another square on the board that does not take an own piece, and no
      check on the mover's king in the resulting position. */
  lemma LegalMoveFacts(p: Position, piece: Cell, x1: int, y1: int, x2: int, y2: int)
    requires InBounds(x1, y1) && ValidEnPassant(p.ep)
    requires IsLegal(p, piece, x1, y1, x2, y2)
    ensures piece.Piece? && piece.color == p.turn
    ensures InBounds(x2, y2) && (x1 != x2 || y1 != y2) && !OwnedBy(p.board[y2][x2], p.turn)
    ensures var q := Next(p, x1, y1, x2, y2); !KingInCheck(q.board, p.turn, q.ep, q.rights)
  {
  }
}

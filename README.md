# Chess rule engine of Edo chess, modelled in Dafny

The repository contains two versions of one chess rule engine. This project models both as written:

- **app.js, lines 64-374.** The standalone page's engine, plus the bounds-and-legality gate of `tryMove` (app.js:559-571).
- **app/core.js.** The modular engine. It is the same engine with three differences:
  - an experimental sentinel piece (`s`/`S`) that cannot be captured, steps one square onto empty squares only, and never attacks;
  - castling that no longer looks for a rook on the corner;
  - a `makeMove` that hands back its input board for a move onto a sentinel.

  It also adds `hasAnyLegalMove` and `resetBoard`.

The engine covers:

- **Structural legality** (`basicLegalMove`): per-piece movement, en passant, castling with attacked-square tests.
- **Ray clearance** (`pathClear`), **attack scanning** (`squareAttacked`) and **check** (`inCheck`).
- **Move simulation on a cloned board** (`makeMove`): en-passant removal, automatic promotion to a queen, the castling rook, the new en-passant target and the revocation of castling rights.
- **Full legality** (`isLegalMove`, simulate then test for check), **destination listing** (`getLegalMoves`) and **committing a move** (`applyMove`).

Cells are a datatype, `Empty | Piece(kind, color)`, rather than the source's one-letter strings. `IsWhite` keeps the source's quirk of holding for the empty cell.

Each rule is a pure function over `Board = seq<seq<Cell>>`, indexed `board[y][x]` as in the source. Where the source loops or writes, the model is a method over an `array2<Cell>`:

- the nested scans of `findKing`, `squareAttacked`, `getLegalMoves` and `hasAnyLegalMove`;
- the walk of `pathClear`;
- the cell writes of `makeMove` on a fresh clone.

Each such method is proved equal to its function through `Cells(a)`. The module-level globals `board`, `turn`, `castlingRights` and `enPassantTarget` are the fields of a `Game` class in each version. `applyMove`, `tryMove` and `resetBoard` reassign those fields.

Modules:

- `Board` (board.dfy): the types, the utilities that behave identically in both files, `findKing`, `pathClear`, `cloneBoard`, and the row-major scan that `getLegalMoves` performs.
- `Moves` (moves.dfy): the `makeMove` steps and the slider branches that behave identically in both versions.
- `App` (app.dfy): app.js.
- `Core` (core.dfy): app/core.js.
- `Versions` (versions.dfy): how the two versions relate. On sentinel-free boards they agree on:
  - attacks and check;
  - the simulation of every move app.js accepts (SimulateAgree with LegalMovesStayOnRow). Their makeMove results can differ for a king leaving its home square for column 6 or 2 of another row, because app/core.js moves the rook without testing the destination row; no such move is structurally legal;
  - legality of every move except castling with no own rook on the corner, which only app/core.js accepts.

## Model

| member | source | states |
|---|---|---|
| Board.InBounds | app.js:73-75 | defines inBounds: both coordinates in 0..7 |
| Board.IsWhite | app.js:64-66 | defines isWhite: a white piece, or the empty cell (the empty string equals its upper case) |
| Board.ColorOf | app.js:326 | defines the colour letter `isWhite(piece) ? "w" : "b"` (white for the empty cell) |
| Board.InitialBoard | app.js:10-19 | defines the standard starting array, black on rows 0-1 and white on rows 6-7 |
| Board.InitialPosition | app.js:10-38 | defines the initial globals: starting array, white to move, all four rights, no en-passant target |
| Board.ClearBetween | app.js:217-228 | defines pathClear's answer: every square strictly between the two ends of the line is empty |
| Moves.SlideMove | app.js:157-170 | defines the bishop, rook and queen branches: the piece's line shape and a clear path |
| Moves.CaptureEnPassant | app.js:248-253 | defines the en-passant removal: a pawn landing on the target empties the square one row behind it |
| Moves.Relocate | app.js:255-257 | defines the relocation: the source emptied, then the piece written on the destination |
| Moves.Promote | app.js:259-262 | defines automatic promotion: a pawn on the far row becomes a queen of its colour |
| Moves.Promoted | app.js:259-262 | defines the cell a moved piece becomes on the destination |
| Moves.MoveRook | app.js:279-280 | defines the castling rook copy: the corner's occupant to column 5 or 3, the corner emptied |
| Moves.KingMoveRights | app.js:272-297 | defines the revocation of both rights of a moving king's colour |
| Moves.RookRights | app.js:299-318 | defines the revocation of a corner's right when its rook leaves it or is captured on it |
| Moves.MoveRights | app.js:272-318 | defines makeMove's new rights: king, moving rook, then captured rook |
| App.PawnMove | app.js:127-153 | defines the pawn branch: single step, double step from the start row over empty squares, capture, en passant |
| App.Castle | app.js:175-210 | defines the castling branch: home square, column 6 or 2, the right, empty squares, three unattacked squares, own rook on the corner |
| App.Attacks | app.js:92-97 | defines one step of squareAttacked: a piece of the attacking colour whose rule, without castling, reaches the square |
| App.Attacked | app.js:89-101 | defines squareAttacked's answer: some square holds an attacker of (x, y) |
| App.KingInCheck | app.js:231-236 | defines inCheck's answer: findKing's king attacked by the other colour, false with no king |
| App.CastleRook | app.js:272-297 | defines the castling rook step: only for a king moving (4, home row) to (6 or 2, home row) |
| App.Simulate | app.js:239-321 | defines makeMove's result: en-passant removal, relocation, promotion, castling rook, new target and new rights |
| App.IsLegal | app.js:324-342 | defines isLegalMove's answer: a piece of the side to move, structurally legal with castling, no check after the simulated move |
| App.LegalMoves | app.js:345-360 | defines getLegalMoves' answer: none for an empty square or the side not to move, otherwise the legal destinations in scan order |
| Core.IsSentinel | app/core.js:45 | defines the sentinel test `toLowerCase() === "s"` |
| Core.PawnMove | app/core.js:64-81 | defines the pawn branch: single step, double step testing only the passed-over square, capture, en passant |
| Core.Castle | app/core.js:99-127 | defines the castling branch: home square, column 6 or 2, the right, empty squares, three unattacked squares, no corner test |
| Core.Attacks | app/core.js:154-163 | defines one step of squareAttacked: a non-sentinel piece of the attacking colour whose rule, without castling, reaches the square |
| Core.Attacked | app/core.js:151-167 | defines squareAttacked's answer: some square holds an attacker of (x, y) |
| Core.KingInCheck | app/core.js:170-175 | defines inCheck's answer: findKing's king attacked by the other colour, false with no king |
| Core.CastleRook | app/core.js:214-241 | defines the castling rook step: a king leaving (4, home row) for column 6 or 2, with no test of the destination row |
| Core.Simulate | app/core.js:178-266 | defines makeMove's result: the input unchanged for a sentinel target, otherwise the same steps as app.js with core.js's rook step |
| Core.IsLegal | app/core.js:303-321 | defines isLegalMove's answer: a piece of the side to move, structurally legal with castling, no check after the simulated move |
| Core.LegalMoves | app/core.js:283-301 | defines getLegalMoves' answer: none for an empty square or the side not to move, otherwise the legal destinations in scan order |
| Core.HasLegalMove | app/core.js:323-335 | defines hasAnyLegalMove's answer: some piece of the colour has a legal destination |
| Board.IsEnemy | app.js:68-71 | isEnemy holds exactly when both cells hold pieces of opposite colours (the empty cell, though "white", is never an enemy) |
| Board.CloneBoard | app.js:104-106 | the clone is a fresh array with the same cells; the original is untouched, so the two never alias |
| Board.KingInRow | app.js:81-83 | the first cell of a row, from a column on, that holds the king: it holds the king and no earlier cell does; none means no cell does |
| Board.KingFrom | app.js:80-85 | the first king in row-major order from a row on, with nothing earlier holding it; none means no later cell holds it |
| Board.FirstKing | app.js:78-86 | findKing's answer: a square holding the king with no king before it in scan order; none exactly when the colour has no king |
| Board.FirstKingAt | app.js:78-86 | a king square with no king before it is findKing's answer (the answer is unique) |
| Board.FindKing | app.js:78-86 | the nested early-return scan returns FirstKing of the array's cells (same behaviour at app/core.js:28-34) |
| Board.PathClear | app.js:217-228 | the walk returns true exactly when every square strictly between the two ends is empty (same behaviour at app/core.js:133-148; its extra sentinel branch returns false like the plain occupied case) |
| Board.ScanMembers | app.js:352-358 | the nested y/x loop pushing kept squares collects exactly the kept on-board squares among those visited |
| Board.ScanOrdered | app.js:352-358 | the collected squares are in strictly increasing row-major order, so each appears once |
| Moves.SlideAllowed | app.js:157-170 | the bishop, rook and queen branches accept exactly a move along the piece's line with a clear path |
| Moves.PlainStepsLeaveOthers | app.js:248-270 | en-passant removal, relocation and promotion write only the source, the destination and the square behind the en-passant target |
| Moves.NextEnPassant | app.js:264-270 | a target is set exactly after a pawn's double step from its start row; it is the passed-over square, on row 2 or 5 |
| Moves.RevokeRookRights | app.js:299-318 | the per-corner flag writes for a rook leaving, or captured on, its corner equal RookRights |
| Moves.MoveRightsRevokeOnly | app.js:272-318 | castling flags are never set; each is cleared exactly by a move of its king, its rook leaving its corner, or that rook captured on its corner |
| Moves.WriteEnPassantCapture | app.js:248-253 | after the en-passant block the clone holds the board with the captured pawn removed |
| Moves.WriteMoveAndPromotion | app.js:255-270 | after the relocation and pawn blocks the clone holds the relocated (and promoted) piece; the returned target is NextEnPassant |
| App.BasicLegal | app.js:110-215 | an accepted move goes to another on-board square, is made by a piece and does not land on a piece of the mover's colour |
| App.PieceRule | app.js:126-214 | only a piece has a move rule: the empty cell matches no case of the switch |
| App.LegalMovesExact | app.js:345-360 | getLegalMoves lists exactly the on-board destinations isLegalMove accepts for the piece, once each, in row-major order |
| App.Next | app.js:363-374 | applyMove's new state has the turn flipped and a well-formed en-passant target |
| App.BasicLegalMove | app.js:110-215 | the imperative basicLegalMove on an array returns BasicLegal of its cells |
| App.PieceRuleAllowed | app.js:126-214 | the switch over the piece letter returns PieceRule of the array's cells |
| App.PawnMoveAllowed | app.js:127-153 | the pawn branch returns exactly PawnMove: single step, double step from the start row, capture, en passant |
| App.CastleMove | app.js:175-210 | the castling branch returns exactly Castle of the array's cells |
| App.CastleKingSide | app.js:184-195 | the king-side tests (right, empty f/g squares, three unattacked squares, own rook on the corner) return Castle |
| App.CastleQueenSide | app.js:197-207 | the queen-side tests (right, empty b/c/d squares, three unattacked squares, own rook on the corner) return Castle |
| App.SquareAttacked | app.js:89-101 | the early-return scan answers whether some piece of the colour attacks the square by its rule without castling |
| App.InCheck | app.js:231-236 | inCheck answers whether findKing's king is attacked by the other colour, false with no king |
| App.MakeMove | app.js:239-321 | makeMove returns a fresh array and flags equal to Simulate of the input; the input array is not modified |
| App.WriteKingMove | app.js:272-297 | the king blocks revoke both rights of a moving king's colour and carry the castling rook |
| App.Game.constructor | app.js:10-38 | the globals start as the standard array, white to move, all four rights, no en-passant target |
| App.Game.IsLegalMove | app.js:324-342 | isLegalMove on the globals returns IsLegal of the current position |
| App.Game.GetLegalMoves | app.js:345-360 | getLegalMoves returns LegalMoves of the current position |
| App.Game.CollectRows | app.js:352-358 | the outer loop collects the scan of all 64 squares under isLegalMove's test |
| App.Game.CollectRow | app.js:353-357 | the inner loop extends the scan by the eight squares of one row |
| App.Game.TestDestination | app.js:354-356 | the isLegalMove call answers the scan's test for that destination |
| App.Game.ApplyMove | app.js:363-374 | the globals become makeMove's board, target and rights, with the turn flipped |
| App.Game.TryMove | app.js:559-571 | the move is applied exactly when the destination is on the board and the move is legal; otherwise the state is unchanged |
| App.BasicLegalRejects | app.js:111-118 | a same-square move, an off-board destination and a capture of an own piece are rejected |
| App.KnightJumps | app.js:154-156 | a knight move is accepted exactly for a (1,2) or (2,1) offset onto a square not held by its colour, with no path test |
| App.SlidersNeedClearPath | app.js:157-170 | bishop, rook and queen moves are accepted exactly along their lines, with every square between empty |
| App.PawnMoves | app.js:127-153 | pawn moves are accepted exactly as a step onto an empty square, a double step from the start row over empty squares, or a diagonal step onto an enemy or the en-passant target |
| App.KingStepsWhenIgnoring | app.js:171-175 | with ignoreSpecialKing set the king is accepted exactly on its eight neighbours not held by its colour |
| App.IgnoringCastlingOnlyRemoves | app.js:171-211 | setting ignoreSpecialKing only removes moves, and what it removes are castling moves of a king |
| App.CastlingConditions | app.js:176-211 | a king move longer than one square is accepted only from its home square to column 6 or 2, with the right, empty squares, unattacked squares and an own rook on the corner |
| App.AttackedNeverOwnPiece | app.js:89-101 | a square holding a piece of the attacking colour is never attacked by it |
| App.PawnAttacksSquareAhead | app.js:131-132 | the empty square straight ahead of a pawn counts as attacked by it |
| App.PawnDiagonalAttack | app.js:140-150 | a pawn attacks a diagonal square ahead exactly when it holds an enemy piece or is the empty en-passant target |
| App.CheckNeedsKing | app.js:231-236 | with no king there is no check; a check means a king of the colour is attacked by the other colour |
| App.SimulateRelocates | app.js:255-262 | the source becomes empty and the destination holds the piece, or a queen of its colour for a pawn reaching the far row |
| App.CastleRookLeavesOthers | app.js:272-297 | the castling rook step writes only columns 0, 3, 5 and 7 of the king's row, and only when castling |
| App.SimulateLeavesOthers | app.js:239-321 | no cell other than source, destination, the en-passant victim and the castling rook's squares changes |
| App.SimulateEnPassant | app.js:248-253 | an en-passant capture empties the square one row behind the target |
| App.SimulateCastling | app.js:272-297 | castling puts the king on column 6 or 2 and carries the rook from column 7 to 5 or from 0 to 3, emptying the corner |
| App.SimulateFlags | app.js:245-318 | the new target is set exactly after a double step and is the passed-over square; no castling flag is ever set |
| App.LegalMoveFacts | app.js:324-342 | a legal move is made by a piece of the side to move, to another on-board square not held by its colour, and leaves its king out of check |
| Core.BasicLegal | app/core.js:37-131 | an accepted move goes to another on-board square, by a piece, and lands on neither a sentinel nor a piece of its colour |
| Core.PieceRule | app/core.js:55-130 | only a piece has a move rule: the empty cell matches no case of the switch |
| Core.LegalMovesExact | app/core.js:283-301 | getLegalMoves lists exactly the on-board destinations isLegalMove accepts, once each, in row-major order |
| Core.Next | app/core.js:269-280 | applyMove's new state has the turn flipped and a well-formed en-passant target |
| Core.NoDestinationsStuck | app/core.js:330-331 | an empty getLegalMoves answer means the piece has no legal destination |
| Core.SomeDestinationMoves | app/core.js:330-331 | a non-empty getLegalMoves answer for a piece of the colour witnesses a legal move of that colour |
| Core.NoPieceMovesNoLegalMove | app/core.js:323-335 | when every piece of the colour is stuck, the colour has no legal move |
| Core.BasicLegalRejects | app/core.js:38-48 | an off-board destination, the same square, a sentinel and an own piece are rejected before any piece rule |
| Core.SentinelSteps | app/core.js:57-62 | a sentinel is accepted exactly on a neighbouring empty square |
| Core.SentinelNeverAttacks | app/core.js:157 | a sentinel attacks no square |
| Core.AttackedOnlyEnemyOrEmpty | app/core.js:151-167 | an attacked square holds neither a sentinel nor a piece of the attacking colour |
| Core.PawnMoves | app/core.js:64-81 | pawn moves are accepted exactly as a step onto an empty square, a double step over an empty square from the start row, or a diagonal capture or en-passant step; never onto a sentinel |
| Core.CastlingConditions | app/core.js:99-127 | a king move longer than one square is accepted only from its home square to column 6 or 2 with the right, empty squares and unattacked squares; the corner is not examined |
| Core.SimulateSentinelTarget | app/core.js:186-188 | a move onto a sentinel returns board, en-passant target and rights unchanged |
| Core.SimulateRelocates | app/core.js:196-203 | otherwise the source becomes empty and the destination holds the piece, or a queen for a pawn on the far row |
| Core.CastleRookLeavesOthers | app/core.js:214-241 | the castling rook step writes only columns 0, 3, 5 and 7 of the king's row, and only when castling |
| Core.SimulateLeavesOthers | app/core.js:178-266 | no cell other than source, destination, the en-passant victim and the castling rook's squares changes |
| Core.SimulateEnPassant | app/core.js:190-194 | an en-passant capture empties the square one row behind the target |
| Core.SimulateCastling | app/core.js:214-241 | castling puts the king on column 6 or 2 and carries the corner's occupant to column 5 or 3, emptying the corner |
| Core.SimulateFlags | app/core.js:183-262 | the new target is set exactly after a double step and is the passed-over square; no castling flag is ever set |
| Core.LegalMoveFacts | app/core.js:303-321 | a legal move is made by a piece of the side to move, onto neither an own piece nor a sentinel, and leaves its king out of check |
| Core.OnlySideToMoveHasMoves | app/core.js:323-335 | hasAnyLegalMove can only be true for the side to move |
| Core.BasicLegalMove | app/core.js:37-131 | the imperative basicLegalMove returns BasicLegal of the array's cells |
| Core.PieceRuleAllowed | app/core.js:55-130 | the switch over the piece letter, sentinel case included, returns PieceRule of the array's cells |
| Core.PawnMoveAllowed | app/core.js:64-81 | the pawn branch returns exactly PawnMove |
| Core.CastleMove | app/core.js:99-127 | the castling branch returns exactly Castle |
| Core.CastleKingSide | app/core.js:107-115 | the king-side tests (right, empty squares, three unattacked squares) return Castle |
| Core.CastleQueenSide | app/core.js:116-124 | the queen-side tests (right, empty squares, three unattacked squares) return Castle |
| Core.SquareAttacked | app/core.js:151-167 | the scan, skipping sentinels, answers whether some piece of the colour attacks the square |
| Core.InCheck | app/core.js:170-175 | inCheck answers whether findKing's king is attacked by the other colour, false with no king |
| Core.MakeMove | app/core.js:178-266 | the result equals Simulate of the input; it is the input array itself for a sentinel target and a fresh array otherwise; the input is not modified |
| Core.WriteKingMove | app/core.js:214-241 | the king blocks revoke both rights of a moving king's colour and carry the corner's occupant |
| Core.Game.constructor | app/core.js:6-19 | the exported variables start as the standard array, white to move, all four rights, no en-passant target |
| Core.Game.IsLegalMove | app/core.js:303-321 | isLegalMove on the globals returns IsLegal of the current position |
| Core.Game.GetLegalMoves | app/core.js:283-301 | getLegalMoves returns LegalMoves of the current position |
| Core.Game.CollectRows | app/core.js:292-298 | the outer loop collects the scan of all 64 squares under isLegalMove's test |
| Core.Game.CollectRow | app/core.js:293-297 | the inner loop extends the scan by the eight squares of one row |
| Core.Game.TestDestination | app/core.js:294-296 | the isLegalMove call answers the scan's test for that destination |
| Core.Game.HasAnyLegalMove | app/core.js:323-335 | hasAnyLegalMove answers exactly whether some piece of the colour has a legal move |
| Core.Game.RowHasLegalMove | app/core.js:325-332 | the inner loop returns true only with a legal move of the colour found, and false only when every piece of the colour in the row is stuck |
| Core.Game.PieceCanMove | app/core.js:330-331 | a non-empty getLegalMoves answer witnesses a legal move; an empty one means the piece is stuck |
| Core.Game.ApplyMove | app/core.js:269-280 | the globals become makeMove's board, target and rights, with the turn flipped |
| Core.Game.ResetBoard | app/core.js:338-353 | the globals become the standard array, white to move, no en-passant target, all four rights |
| Versions.StepRulesAgree | app/core.js:55-98 | on sentinel-free boards both versions' move rules agree for every non-sentinel piece when castling is ignored |
| Versions.AttackedAgree | app/core.js:151-167 | on sentinel-free boards both versions' squareAttacked agree |
| Versions.CheckAgree | app/core.js:170-175 | on sentinel-free boards both versions' inCheck agree |
| Versions.CastleAgree | app/core.js:104-125 | app.js castles exactly when app/core.js does and the corner holds a rook of the king's colour |
| Versions.BasicLegalAgree | app/core.js:37-131 | app.js accepts a move exactly when app/core.js does, unless it is a castling move with no own rook on the corner |
| Versions.SimulateAgree | app/core.js:178-266 | both makeMove versions give the same result when the target is no sentinel and a castling king stays on its row |
| Versions.LegalMovesStayOnRow | app/core.js:219-240 | any move app.js finds structurally legal meets SimulateAgree's conditions |
| Versions.SimulateKeepsSentinelFree | app/core.js:190-211 | makeMove never puts a sentinel on a board that had none |
| Versions.IsLegalAgree | app/core.js:303-321 | on sentinel-free positions both isLegalMove versions agree except on castling without an own rook on the corner, which only app/core.js allows |

## Left out

- Rendering is not modelled: drawing, image loading and the canvas (app.js:1-7, 40-62, 377-451, app/ui.js).
- Input handling is not modelled: the mouse and touch handlers, the `selected`, `legalMoves`, `dragging` and drag-position globals, and the `drawBoard` call in `tryMove` (app.js:457-571). The checkmate test `inCheck && !hasAnyLegalMove` in app/input.js is a composition of modelled operations and is not modelled itself.
- app/mode_bot.js is not part of this model: its random move choice uses `Math.random`.
- app/main.js and app/modes/ are not part of this model: they hold mode dispatch and UI setup.
- sw.js and sw2.js are not part of this model: service-worker cache handling.
- Edo_chess_bot_app/app.js is not part of this model: it is a prototype without move rules.
- The `turnColor` parameter of `basicLegalMove` and `makeMove` is never read by the source, so the model drops it.
- App.BasicLegal and Core.BasicLegal require the source square to be on the board, as do the methods built on them. Every caller passes a square it read from the board.
- App.MakeMove, Core.MakeMove and Simulate require the en-passant target to be none or a square on row 2 or 5. That is the only kind of target makeMove ever produces, and the capture's index into the board depends on it.
- Cells are a datatype, not strings. A board holding letters other than the seven piece letters cannot be expressed.
- App.PieceRule and Core.PieceRule state in their own contracts only that the empty cell has no rule. The per-piece meaning is stated by KnightJumps, SlidersNeedClearPath, PawnMoves, KingStepsWhenIgnoring, CastlingConditions and SentinelSteps.
- App.Game.TryMove models only the engine part of `tryMove`. The UI resets and the redraw are left out.
- `getLegalMoves`' inner and outer loops, and the per-square call, are separate methods (CollectRows, CollectRow, TestDestination), as is the inner loop of `hasAnyLegalMove` (RowHasLegalMove, PieceCanMove). The work they do is that of the source's nested loops.

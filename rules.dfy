/**
 * The turn transition `movePiece` and the promotion rule
 * `checkForGovernorPromotion`, as functions of the game state; the methods
 * of Engine.Game are proved to change the board in place exactly as these
 * say.
 */
module Rules {
  import opened Options
  import opened Board
  import opened Moves
  import opened MoveFacts

  /** The global game state of script.js: `boardState`, `currentPlayer`,
      `lastFlippedPieceCoords`, `isGameOver`, and the winner `endGame`
      announces. */
  datatype GameState = GameState(board: Board, currentPlayer: Player, lastFlipped: Option<Coord>,
                                 isGameOver: bool, winner: Option<Player>)

  /** What `movePiece` needs of its arguments: a piece on the start cell, a
      landing cell on the grid and, for a capture, a piece on the jumped cell
      (the source fails on a missing piece and writes outside the grid on an
      off-grid landing). */
  predicate MovePre(b: Board, from: Coord, m: Move)
    requires WellFormed(b)
  {
    At(b, from).Some? && InBounds(m.to) && (m.Capture? ==> At(b, m.jumped).Some?)
  }

  // -------------------------------------------------------------- promotion

  /** A Governor promotes on row 1 (player One) or row 9 (player Two): the
      last playable row in its owner's forward direction. */
  function PromotionRow(p: Player): (row: int)
    ensures Playable(Coord(row, 1)) && !Playable(Coord(row + Forward(p), 1))
  {
    if p == One then 1 else 9
  }

  predicate Promotes(endRow: int, moved: Piece)
  {
    moved.kind == Governor && endRow == PromotionRow(moved.player)
  }

  function UntrapCell(cell: Cell, p: Player): Cell
  {
    if cell.Some? && cell.value.player == p && cell.value.kind == Ambassador && cell.value.isTrapped
    then Some(cell.value.(isTrapped := false))
    else cell
  }

  /** `checkForGovernorPromotion(endRow, movedPiece)`. */
  function Promote(b: Board, endRow: int, moved: Piece): (b': Board)
    requires WellFormed(b)
    ensures WellFormed(b')
  {
    if !Promotes(endRow, moved) then b
    else seq(Rows, i requires 0 <= i < Rows => seq(Cols, j requires 0 <= j < Cols => UntrapCell(b[i][j], moved.player)))
  }

  /** Promotion fires only for a Governor ending on its promotion row; it
      then clears the trapped flag of exactly the mover's own Ambassadors and
      changes nothing else on the board. */
  lemma PromotionEffect(b: Board, endRow: int, moved: Piece, q: Coord)
    requires WellFormed(b)
    ensures var before := At(b, q);
      var after := At(Promote(b, endRow, moved), q);
      if Promotes(endRow, moved) && before.Some? && before.value.kind == Ambassador && before.value.player == moved.player
      then after == Some(before.value.(isTrapped := false))
      else after == before
  {
  }

  /** Promotion keeps every piece where it is: the piece count is unchanged. */
  lemma PromotionKeepsPieces(b: Board, endRow: int, moved: Piece)
    requires WellFormed(b)
    ensures Occupied(Promote(b, endRow, moved)) == Occupied(b)
  {
    forall q
      ensures At(Promote(b, endRow, moved), q).Some? == At(b, q).Some?
    {
      PromotionEffect(b, endRow, moved, q);
    }
  }

  // ------------------------------------------------------------------- move

  /** The jumped piece changes owner: `jumpedPiece.player = currentPlayer`. */
  function Flip(b: Board, q: Coord, p: Player): Board
    requires WellFormed(b) && At(b, q).Some?
  {
    Put(b, q, Some(At(b, q).value.(player := p)))
  }

  predicate EmperorCapture(b: Board, m: Move)
    requires WellFormed(b)
  {
    m.Capture? && At(b, m.jumped).Some? && At(b, m.jumped).value.kind == Emperor
  }

  /** The moved piece: an unmoved Governor is marked as moved, and a piece
      that lands outside the playable region is trapped. */
  function Moved(piece: Piece, to: Coord): Piece
  {
    var p1 := if piece.kind == Governor && !piece.hasMoved then piece.(hasMoved := true) else piece;
    if !Playable(to) then p1.(isTrapped := true) else p1
  }

  /** `movePiece(startRow, startCol, move)`. Capturing an Emperor ends the
      game and changes nothing else. Otherwise the jumped piece is flipped,
      the mover is read after the flip (the source holds a reference to the
      same object, so it sees a flip of its own cell), moved, the promotion
      rule runs, the turn passes and the flipped cell becomes immune. */
  function ApplyMove(s: GameState, from: Coord, m: Move): GameState
    requires WellFormed(s.board) && MovePre(s.board, from, m)
  {
    if EmperorCapture(s.board, m) then
      s.(isGameOver := true, winner := Some(s.currentPlayer))
    else
      var b1 := if m.Capture? then Flip(s.board, m.jumped, s.currentPlayer) else s.board;
      var piece := Moved(At(b1, from).value, m.to);
      var b2 := Put(Put(b1, from, None), m.to, Some(piece));
      GameState(Promote(b2, m.to.r, piece), Other(s.currentPlayer),
                if m.Capture? then Some(m.jumped) else None, s.isGameOver, s.winner)
  }

  /** Capturing an Emperor sets the game over with the mover as winner and
      leaves the board, the turn and the immune cell as they were. */
  lemma EmperorCaptureEndsGame(s: GameState, from: Coord, m: Move)
    requires WellFormed(s.board) && MovePre(s.board, from, m) && EmperorCapture(s.board, m)
    ensures var s' := ApplyMove(s, from, m);
      && s'.isGameOver && s'.winner == Some(s.currentPlayer)
      && s'.board == s.board && s'.currentPlayer == s.currentPlayer && s'.lastFlipped == s.lastFlipped
  {
  }

  /** The hypotheses of the board-effect lemmas: the landing cell is empty,
      and a capture jumps a non-Emperor piece its mover does not own. */
  predicate OrdinaryMove(b: Board, from: Coord, m: Move)
    requires WellFormed(b)
  {
    && MovePre(b, from, m)
    && At(b, m.to).None?
    && (m.Capture? ==> At(b, m.jumped).value.player != At(b, from).value.player && !EmperorCapture(b, m))
  }

  /** Board effect of a move: the start cell is emptied, the landing cell
      holds the mover with its flags updated, a jumped piece stays where it
      was with its owner set to the player who moved, and every other cell
      changes only by promotion. */
  lemma MoveEffect(s: GameState, from: Coord, m: Move)
    requires WellFormed(s.board) && OrdinaryMove(s.board, from, m)
    ensures var s' := ApplyMove(s, from, m);
      var piece := At(s.board, from).value;
      && WellFormed(s'.board)
      && At(s'.board, from).None?
      && At(s'.board, m.to) == Some(piece.(hasMoved := piece.hasMoved || piece.kind == Governor,
                                           isTrapped := piece.isTrapped || !Playable(m.to)))
      && (m.Capture? ==>
            var flipped := Some(At(s.board, m.jumped).value.(player := s.currentPlayer));
            At(s'.board, m.jumped) == if Promotes(m.to.r, piece) then UntrapCell(flipped, piece.player) else flipped)
      && (forall q :: q != from && q != m.to && (m.Capture? ==> q != m.jumped) ==>
            At(s'.board, q) == if Promotes(m.to.r, piece) then UntrapCell(At(s.board, q), piece.player) else At(s.board, q))
  {
    var b := s.board;
    var b1 := if m.Capture? then Flip(b, m.jumped, s.currentPlayer) else b;
    assert At(b1, from) == At(b, from);
    var piece := Moved(At(b1, from).value, m.to);
    var b2 := Put(Put(b1, from, None), m.to, Some(piece));
    forall q
      ensures At(ApplyMove(s, from, m).board, q) == if Promotes(m.to.r, piece) then UntrapCell(At(b2, q), piece.player) else At(b2, q)
    {
      PromotionEffect(b2, m.to.r, piece, q);
    }
    if m.Capture? {
      PromotionEffect(b2, m.to.r, piece, m.jumped);
    }
  }

  /** A move conserves the piece count: a capture flips, it never removes. */
  lemma MoveKeepsPieceCount(s: GameState, from: Coord, m: Move)
    requires WellFormed(s.board) && OrdinaryMove(s.board, from, m)
    ensures |Occupied(ApplyMove(s, from, m).board)| == |Occupied(s.board)|
  {
    var b := s.board;
    var b1 := if m.Capture? then Flip(b, m.jumped, s.currentPlayer) else b;
    if m.Capture? {
      OccupiedAfterPut(b, m.jumped, Some(At(b, m.jumped).value.(player := s.currentPlayer)));
      assert Occupied(b) + {m.jumped} == Occupied(b);
    }
    assert Occupied(b1) == Occupied(b);
    var piece := Moved(At(b1, from).value, m.to);
    var b2a := Put(b1, from, None);
    var b2 := Put(b2a, m.to, Some(piece));
    OccupiedAfterPut(b1, from, None);
    OccupiedAfterPut(b2a, m.to, Some(piece));
    assert from in Occupied(b1) && m.to !in Occupied(b1);
    assert Occupied(b2) == (Occupied(b1) - {from}) + {m.to};
    PromotionKeepsPieces(b2, m.to.r, piece);
  }

  /** Bookkeeping of a move: the turn passes to the other player and the
      flipped cell, or none after a plain move, becomes the immune one. */
  lemma MoveBookkeeping(s: GameState, from: Coord, m: Move)
    requires WellFormed(s.board) && MovePre(s.board, from, m) && !EmperorCapture(s.board, m)
    ensures var s' := ApplyMove(s, from, m);
      && s'.currentPlayer == Other(s.currentPlayer)
      && s'.lastFlipped == (if m.Capture? then Some(m.jumped) else None)
      && s'.isGameOver == s.isGameOver && s'.winner == s.winner
  {
  }

  /** Every generated move can be handed to `movePiece`. */
  lemma GeneratedMovesApplicable(b: Board, from: Coord, mover: Player, immune: Option<Coord>, m: Move)
    requires WellFormed(b) && m in ValidMoves(b, from, mover, immune)
    ensures MovePre(b, from, m)
  {
    GeneratedMovesSound(b, from, mover, immune);
  }

  /** A generated move of the mover's own piece meets the hypotheses of the
      board-effect lemmas, unless it captures an Emperor. */
  lemma GeneratedMovesOrdinary(b: Board, from: Coord, mover: Player, immune: Option<Coord>, m: Move)
    requires WellFormed(b) && m in ValidMoves(b, from, mover, immune)
    requires At(b, from).Some? && At(b, from).value.player == mover && !EmperorCapture(b, m)
    ensures OrdinaryMove(b, from, m)
  {
    GeneratedMovesSound(b, from, mover, immune);
  }

  /** Immunity: on the turn after a flip, no generated capture jumps the
      flipped piece. */
  lemma FlipGrantsImmunity(s: GameState, from: Coord, m: Move, from2: Coord, m2: Move)
    requires WellFormed(s.board) && MovePre(s.board, from, m) && m.Capture? && !EmperorCapture(s.board, m)
    requires var s' := ApplyMove(s, from, m);
      WellFormed(s'.board) && m2 in ValidMoves(s'.board, from2, s'.currentPlayer, s'.lastFlipped) && m2.Capture?
    ensures m2.jumped != m.jumped
  {
    var s' := ApplyMove(s, from, m);
    GeneratedMovesSound(s'.board, from2, s'.currentPlayer, s'.lastFlipped);
  }

  /** ... and the protection lasts one turn only: the next generated move
      replaces the immune cell, by a different one or by none. */
  lemma ImmunityExpires(s: GameState, from: Coord, m: Move)
    requires WellFormed(s.board) && m in ValidMoves(s.board, from, s.currentPlayer, s.lastFlipped)
    requires s.lastFlipped.Some?
    ensures MovePre(s.board, from, m)
    ensures !EmperorCapture(s.board, m) ==> ApplyMove(s, from, m).lastFlipped != s.lastFlipped
  {
    GeneratedMovesSound(s.board, from, s.currentPlayer, s.lastFlipped);
  }
}

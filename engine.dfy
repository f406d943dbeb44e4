/**
 * The imperative core of script.js: the game's globals as the fields of one
 * object, the board as an 11 x 9 array updated in place, and the handlers
 * as methods. Each method is proved to do to the fields exactly what the
 * functions of Moves, Rules and Session say.
 */
module Engine {
  import opened Options
  import opened Board
  import opened Moves
  import opened Rules
  import opened Session

  lemma AppendAssoc<T>(a: seq<T>, b: seq<T>, c: seq<T>)
    ensures a + (b + c) == (a + b) + c
  {
  }

  class Game {
    /** `boardState` */
    var board: array2<Cell>
    var currentPlayer: Player
    /** `selectedPiece` (its row and column) and `validMoves` */
    var selected: Option<Coord>
    var validMoves: seq<Move>
    var isGameOver: bool
    /** The player `endGame` announces. */
    var winner: Option<Player>
    /** `lastFlippedPieceCoords` */
    var lastFlipped: Option<Coord>
    var playerNumber: Player
    /** What `conn.send` has sent. */
    var sent: seq<Message>

    predicate Shape()
      reads this`board
    {
      board.Length0 == Rows && board.Length1 == Cols
    }

    /** The board as a value. */
    ghost function Cells(): (b: Board)
      reads this`board, board
      requires Shape()
      ensures WellFormed(b)
    {
      var a := board;
      seq(Rows, i requires 0 <= i < Rows reads a => seq(Cols, j requires 0 <= j < Cols reads a => a[i, j]))
    }

    /** `b` holds, cell by cell, what the array holds. */
    ghost predicate Mirrors(b: Board)
      reads this`board, board
    {
      Shape() && WellFormed(b) && forall q {:trigger At(b, q)} :: InBounds(q) ==> At(b, q) == board[q.r, q.c]
    }

    /** The value mirrors the array cell by cell. */
    lemma CellsMirror()
      requires Shape()
      ensures Mirrors(Cells())
    {
    }

    ghost function State(): GameState
      reads this, board
      requires Shape()
    {
      GameState(Cells(), currentPlayer, lastFlipped, isGameOver, winner)
    }

    ghost function Peer(): PeerState
      reads this, board
      requires Shape()
    {
      PeerState(State(), selected, validMoves, playerNumber, sent)
    }

    ghost predicate Valid()
      reads this, board
    {
      Shape() && PeerValid(Peer())
    }

    /** `boardState[r]?.[c]` */
    function Lookup(ghost b: Board, q: Coord): (cell: Cell)
      reads this`board, board
      requires Mirrors(b)
      ensures cell == At(b, q)
    {
      if InBounds(q) then board[q.r, q.c] else None
    }

    /** `boardState[r][c] === null` on a cell of the grid. */
    predicate Empty(ghost b: Board, q: Coord)
      reads this`board, board
      requires Mirrors(b)
      ensures Empty(b, q) == Vacant(b, q)
    {
      InBounds(q) && board[q.r, q.c].None?
    }

    /** The capture test shared by the generators, on the fields. */
    predicate CanCapture(ghost b: Board, jumped: Coord, to: Coord)
      reads this, board
      requires Mirrors(b)
      ensures CanCapture(b, jumped, to) == CanJump(b, jumped, to, currentPlayer, lastFlipped)
    {
      var jumpedPiece := Lookup(b, jumped);
      var isImmune := lastFlipped == Some(jumped);
      !isImmune && Empty(b, to) && jumpedPiece.Some? && jumpedPiece.value.player != currentPlayer
    }

    /** The capture test of the generators, pushing the capture when it
        passes. */
    method JumpOver(ghost b: Board, jumped: Coord, to: Coord) returns (pushed: seq<Move>)
      requires Mirrors(b)
      ensures pushed == JumpIf(b, jumped, to, currentPlayer, lastFlipped)
    {
      pushed := [];
      if CanCapture(b, jumped, to) {
        pushed := [Capture(to, jumped)];
      }
    }

    /** The state once a connection is made and `startGame` has laid out a
        fresh copy of the initial layout. */
    constructor (number: Player)
      ensures Valid() && fresh(board)
      ensures Peer() == Start(number)
    {
      InitialLayoutShape();
      board := new Cell[Rows, Cols]((r, c) => At(InitialLayout, Coord(r, c)));
      currentPlayer := One;
      selected := None;
      validMoves := [];
      isGameOver := false;
      winner := None;
      lastFlipped := None;
      playerNumber := number;
      sent := [];
      new;
      CellsMirror();
      Extensionality(Cells(), InitialLayout);
    }

    /** `boardState[r][c] = x`. */
    method SetCell(q: Coord, x: Cell)
      modifies board
      requires Shape() && InBounds(q)
      ensures Cells() == Put(old(Cells()), q, x)
    {
      CellsMirror();
      ghost var before := Cells();
      board[q.r, q.c] := x;
      CellsMirror();
      Extensionality(Cells(), Put(before, q, x));
    }

    /** The one-step loop of `getGovernorMoves`. */
    method GovernorStepLoop(ghost b: Board, r: int, c: int, forwardDir: int) returns (moves: seq<Move>)
      requires Mirrors(b)
      ensures moves == GovernorSteps(b, Coord(r, c), forwardDir, 2)
    {
      moves := [];
      for dc := -1 to 2
        invariant moves == GovernorSteps(b, Coord(r, c), forwardDir, dc)
      {
        var to := Coord(r + forwardDir, c + dc);
        if Playable(to) && Empty(b, to) {
          moves := moves + [Plain(to)];
        }
      }
    }

    /** The opening two-step loop of `getGovernorMoves`. */
    method GovernorDoubleLoop(ghost b: Board, r: int, c: int, forwardDir: int) returns (moves: seq<Move>)
      requires Mirrors(b)
      ensures moves == GovernorDoubles(b, Coord(r, c), forwardDir, 2)
    {
      moves := [];
      for dc := -1 to 2
        invariant moves == GovernorDoubles(b, Coord(r, c), forwardDir, dc)
      {
        var oneStep := Coord(r + forwardDir, c + dc);
        var twoSteps := Coord(r + 2 * forwardDir, c + 2 * dc);
        ghost var prefix := moves;
        ghost var here := GovernorDouble(b, Coord(r, c), forwardDir, dc);
        if Playable(twoSteps) && Empty(b, oneStep) && Empty(b, twoSteps) {
          assert here == [Plain(twoSteps)];
          moves := moves + [Plain(twoSteps)];
        } else {
          assert here == [];
          assert prefix + here == prefix;
        }
        assert moves == prefix + here;
      }
    }

    /** The capture loop of `getGovernorMoves`. */
    method GovernorJumpLoop(ghost b: Board, r: int, c: int, forwardDir: int) returns (moves: seq<Move>)
      requires Mirrors(b)
      ensures moves == GovernorJumps(b, Coord(r, c), forwardDir, 2, currentPlayer, lastFlipped)
    {
      moves := [];
      for dc := -1 to 2
        invariant moves == GovernorJumps(b, Coord(r, c), forwardDir, dc, currentPlayer, lastFlipped)
      {
        if dc != 0 {
          var jumped := Coord(r + forwardDir, c + dc);
          var jumpTo := Coord(r + 2 * forwardDir, c + 2 * dc);
          if CanCapture(b, jumped, jumpTo) {
            moves := moves + [Capture(jumpTo, jumped)];
          }
        }
      }
    }

    /** `getGovernorMoves(r, c, player)`: the moves of its three loops, in
        order. */
    method GetGovernorMoves(r: int, c: int, player: Player) returns (moves: seq<Move>)
      requires Shape() && InBounds(Coord(r, c)) && board[r, c].Some?
      ensures moves == GovernorMoves(Cells(), Coord(r, c), player, currentPlayer, lastFlipped)
    {
      ghost var b := Cells();
      CellsMirror();
      var piece := board[r, c].value;
      var forwardDir := if player == One then -1 else 1;
      assert forwardDir == Forward(player) && piece == At(b, Coord(r, c)).value;
      var steps := GovernorStepLoop(b, r, c, forwardDir);
      var doubles := [];
      if !piece.hasMoved {
        doubles := GovernorDoubleLoop(b, r, c, forwardDir);
      }
      var jumps := GovernorJumpLoop(b, r, c, forwardDir);
      moves := steps + doubles + jumps;
      assert Cells() == b;
      assert moves == GovernorMoves(b, Coord(r, c), player, currentPlayer, lastFlipped);
    }

    /** The inner `while` loop of `getAmbassadorMoves`: the slide from
        `start` along `dir` while the cells are playable and empty, and the
        cell where it stopped. */
    method Slide(ghost b: Board, start: Coord, dir: Coord) returns (pushed: seq<Move>, cur: Coord)
      requires Mirrors(b) && IsDirection(dir)
      ensures (pushed, cur) == Ray(b, start, dir)
    {
      cur := start;
      pushed := [];
      while Playable(cur)
        invariant pushed + Ray(b, cur, dir).0 == Ray(b, start, dir).0
        invariant Ray(b, cur, dir).1 == Ray(b, start, dir).1
        decreases RayMeasure(cur, dir)
      {
        if Empty(b, cur) {
          AppendAssoc(pushed, [Plain(cur)], Ray(b, Offset(cur, dir.r, dir.c), dir).0);
          pushed := pushed + [Plain(cur)];
          cur := Coord(cur.r + dir.r, cur.c + dir.c);
        } else {
          break;
        }
      }
      assert Ray(b, cur, dir) == ([], cur);
      assert pushed + [] == pushed;
    }

    /** One pass of the outer loop of `getAmbassadorMoves`: the slide along
        `dir`, then the capture over the cell where it stopped. */
    method AmbassadorDirAt(ghost b: Board, r: int, c: int, dir: Coord) returns (pushed: seq<Move>)
      requires Mirrors(b) && IsDirection(dir)
      ensures pushed == AmbassadorDir(b, Coord(r, c), dir, currentPlayer, lastFlipped)
    {
      ghost var ray := Ray(b, Offset(Coord(r, c), dir.r, dir.c), dir);
      var cur;
      pushed, cur := Slide(b, Coord(r + dir.r, c + dir.c), dir);
      assert pushed == ray.0 && cur == ray.1;
      var tail := JumpOver(b, cur, Coord(cur.r + dir.r, cur.c + dir.c));
      assert tail == JumpIf(b, ray.1, Offset(ray.1, dir.r, dir.c), currentPlayer, lastFlipped);
      pushed := pushed + tail;
    }

    /** `getAmbassadorMoves(r, c)`. */
    method GetAmbassadorMoves(r: int, c: int) returns (moves: seq<Move>)
      requires Shape()
      ensures moves == AmbassadorMoves(Cells(), Coord(r, c), currentPlayer, lastFlipped)
    {
      ghost var b := Cells();
      CellsMirror();
      moves := [];
      for k := 0 to |Directions|
        invariant moves == AmbassadorUpTo(b, Coord(r, c), k, currentPlayer, lastFlipped)
      {
        DirectionsAreDirections(k);
        var pushed := AmbassadorDirAt(b, r, c, Directions[k]);
        assert pushed == AmbassadorPass(b, Coord(r, c), k, currentPlayer, lastFlipped);
        moves := moves + pushed;
      }
      assert Cells() == b;
    }

    /** Pass (dr, dc) of the double loop of `getEmperorMoves`. */
    method EmperorDirAt(ghost b: Board, r: int, c: int, dr: int, dc: int) returns (pushed: seq<Move>)
      requires Mirrors(b) && !(dr == 0 && dc == 0)
      ensures pushed == EmperorDir(b, Coord(r, c), dr, dc, currentPlayer, lastFlipped)
    {
      var next := Coord(r + dr, c + dc);
      pushed := [];
      if Playable(next) && Empty(b, next) {
        pushed := [Plain(next)];
      }
      var tail := JumpOver(b, next, Coord(r + 2 * dr, c + 2 * dc));
      pushed := pushed + tail;
    }

    /** The inner loop of `getEmperorMoves`, for one row offset `dr`. */
    method EmperorRowLoop(ghost b: Board, r: int, c: int, dr: int) returns (moves: seq<Move>)
      requires Mirrors(b)
      ensures moves == EmperorRow(b, Coord(r, c), dr, 2, currentPlayer, lastFlipped)
    {
      moves := [];
      for dc := -1 to 2
        invariant moves == EmperorRow(b, Coord(r, c), dr, dc, currentPlayer, lastFlipped)
      {
        ghost var prefix := moves;
        if !(dr == 0 && dc == 0) {
          var pushed := EmperorDirAt(b, r, c, dr, dc);
          moves := moves + pushed;
        } else {
          assert prefix + EmperorDir(b, Coord(r, c), dr, dc, currentPlayer, lastFlipped) == prefix;
        }
        assert moves == prefix + EmperorDir(b, Coord(r, c), dr, dc, currentPlayer, lastFlipped);
      }
    }

    /** `getEmperorMoves(r, c)`. */
    method GetEmperorMoves(r: int, c: int) returns (moves: seq<Move>)
      requires Shape()
      ensures moves == EmperorMoves(Cells(), Coord(r, c), currentPlayer, lastFlipped)
    {
      ghost var b := Cells();
      CellsMirror();
      moves := [];
      for dr := -1 to 2
        invariant moves == EmperorUpTo(b, Coord(r, c), dr, currentPlayer, lastFlipped)
      {
        var row := EmperorRowLoop(b, r, c, dr);
        moves := moves + row;
      }
      assert Cells() == b;
    }

    /** `getValidMoves(r, c)`. */
    method GetValidMoves(r: int, c: int) returns (moves: seq<Move>)
      requires Shape()
      ensures moves == ValidMoves(Cells(), Coord(r, c), currentPlayer, lastFlipped)
    {
      CellsMirror();
      var piece := Lookup(Cells(), Coord(r, c));
      if piece.None? {
        return [];
      }
      match piece.value.kind {
        case Emperor => moves := GetEmperorMoves(r, c);
        case Governor => moves := GetGovernorMoves(r, c, piece.value.player);
        case Ambassador => moves := GetAmbassadorMoves(r, c);
      }
    }

    /** `checkForGovernorPromotion(endRow, movedPiece)`: sweeps the whole
        board, clearing the trapped flag of the mover's own Ambassadors. */
    method CheckForGovernorPromotion(endRow: int, movedPiece: Piece)
      modifies board
      requires Shape()
      ensures Cells() == Promote(old(Cells()), endRow, movedPiece)
    {
      CellsMirror();
      ghost var before := Cells();
      if movedPiece.kind != Governor {
        return;
      }
      var promotionRow := if movedPiece.player == One then 1 else 9;
      if endRow == promotionRow {
        for r := 0 to Rows
          invariant forall q :: InBounds(q) ==>
            board[q.r, q.c] == if q.r < r then UntrapCell(At(before, q), movedPiece.player) else At(before, q)
        {
          for c := 0 to Cols
            invariant forall q :: InBounds(q) ==>
              board[q.r, q.c] == if q.r < r || (q.r == r && q.c < c) then UntrapCell(At(before, q), movedPiece.player) else At(before, q)
          {
            var piece := board[r, c];
            if piece.Some? && piece.value.player == movedPiece.player && piece.value.kind == Ambassador && piece.value.isTrapped {
              board[r, c] := Some(piece.value.(isTrapped := false));
            }
          }
        }
      }
      CellsMirror();
      forall q | InBounds(q)
        ensures At(Cells(), q) == At(Promote(before, endRow, movedPiece), q)
      {
        PromotionEffect(before, endRow, movedPiece, q);
      }
      Extensionality(Cells(), Promote(before, endRow, movedPiece));
    }

    /** `endGame(winner)`, without the overlay and the confetti. */
    method EndGame(w: Player)
      modifies this`isGameOver, this`winner
      ensures isGameOver && winner == Some(w)
      ensures board == old(board) && currentPlayer == old(currentPlayer) && lastFlipped == old(lastFlipped)
      ensures selected == old(selected) && validMoves == old(validMoves)
      ensures playerNumber == old(playerNumber) && sent == old(sent)
    {
      isGameOver := true;
      winner := Some(w);
    }

    /** The middle of `movePiece`: the piece on `from`, marked as moved and
        trapped when it lands off the playable region, goes to `to`. */
    method Relocate(from: Coord, to: Coord) returns (piece: Piece)
      modifies board
      requires Shape() && InBounds(from) && InBounds(to) && board[from.r, from.c].Some?
      ensures piece == Moved(At(old(Cells()), from).value, to)
      ensures Cells() == Put(Put(old(Cells()), from, None), to, Some(piece))
    {
      CellsMirror();
      piece := board[from.r, from.c].value;
      if piece.kind == Governor && !piece.hasMoved {
        piece := piece.(hasMoved := true);
      }
      if !Playable(to) {
        piece := piece.(isTrapped := true);
      }
      SetCell(from, None);
      SetCell(to, Some(piece));
    }

    /** `movePiece(startRow, startCol, move)`. */
    method MovePiece(startRow: int, startCol: int, move: Move)
      modifies this`currentPlayer, this`lastFlipped, this`isGameOver, this`winner, board
      requires Shape() && MovePre(Cells(), Coord(startRow, startCol), move)
      ensures Shape() && board == old(board)
      ensures State() == ApplyMove(old(State()), Coord(startRow, startCol), move)
      ensures selected == old(selected) && validMoves == old(validMoves)
      ensures playerNumber == old(playerNumber) && sent == old(sent)
    {
      ghost var s := State();
      var start := Coord(startRow, startCol);
      ghost var next := ApplyMove(s, start, move);
      var capturedCoords: Option<Coord> := None;
      if move.Capture? {
        var jumpedPiece := board[move.jumped.r, move.jumped.c].value;
        if jumpedPiece.kind == Emperor {
          EndGame(currentPlayer);
          assert Cells() == s.board;
          assert State() == next;
          return;
        }
        SetCell(move.jumped, Some(jumpedPiece.(player := currentPlayer)));
        capturedCoords := Some(move.jumped);
      }
      ghost var b1 := Cells();
      assert b1 == if move.Capture? then Flip(s.board, move.jumped, s.currentPlayer) else s.board;
      // Read after the flip: the source's `pieceToMove` is the start cell's
      // object itself, so it sees the flip when the jumped cell is the start.
      CellsMirror();
      var pieceToMove := Relocate(start, move.to);
      CheckForGovernorPromotion(move.to.r, pieceToMove);
      assert Cells() == next.board;
      PassTurn(capturedCoords);
    }

    /** The end of `movePiece`: the turn passes and the flipped cell, if
        any, becomes the immune one. */
    method PassTurn(capturedCoords: Option<Coord>)
      modifies this`currentPlayer, this`lastFlipped
      ensures currentPlayer == Other(old(currentPlayer)) && lastFlipped == capturedCoords
    {
      currentPlayer := if currentPlayer == One then Two else One;
      lastFlipped := capturedCoords;
    }

    /** `clearSelection()`, without the highlighting. */
    method ClearSelection()
      modifies this`selected, this`validMoves
      ensures selected.None? && validMoves == []
      ensures board == old(board) && currentPlayer == old(currentPlayer) && lastFlipped == old(lastFlipped)
      ensures isGameOver == old(isGameOver) && winner == old(winner)
      ensures playerNumber == old(playerNumber) && sent == old(sent)
    {
      selected := None;
      validMoves := [];
    }

    /** `selectPiece(row, col)`, without the highlighting. */
    method SelectPiece(row: int, col: int)
      modifies this`selected, this`validMoves
      requires Shape()
      ensures selected == Some(Coord(row, col))
      ensures validMoves == ValidMoves(old(Cells()), Coord(row, col), currentPlayer, lastFlipped)
      ensures board == old(board) && currentPlayer == old(currentPlayer) && lastFlipped == old(lastFlipped)
      ensures isGameOver == old(isGameOver) && winner == old(winner)
      ensures playerNumber == old(playerNumber) && sent == old(sent)
    {
      ClearSelection();
      selected := Some(Coord(row, col));
      validMoves := GetValidMoves(row, col);
    }

    /** `handleSquareClick` on the square (row, col). */
    method HandleSquareClick(row: int, col: int)
      modifies this`currentPlayer, this`lastFlipped, this`isGameOver, this`winner, this`selected,
               this`validMoves, this`sent, board
      requires Valid()
      ensures Valid() && board == old(board)
      ensures Peer() == Click(old(Peer()), row, col)
    {
      if isGameOver {
        return;
      }
      if currentPlayer != playerNumber {
        return;
      }
      // Only a click on one of the grid's squares reaches the rest.
      if !InBounds(Coord(row, col)) {
        return;
      }
      if selected.Some? {
        var from := selected.value;
        var move := FindMove(validMoves, Coord(row, col));
        if move.Some? {
          sent := sent + [MoveMessage(from.r, from.c, move.value)];
          GeneratedMovesApplicable(Cells(), from, currentPlayer, lastFlipped, move.value);
          MovePiece(from.r, from.c, move.value);
        }
        ClearSelection();
      } else {
        CellsMirror();
        var pieceData := Lookup(Cells(), Coord(row, col));
        if pieceData.Some? && pieceData.value.player == currentPlayer && !pieceData.value.isTrapped {
          SelectPiece(row, col);
        }
      }
    }

    /** The `conn.on('data')` handler. */
    method Receive(msg: Message)
      modifies this`currentPlayer, this`lastFlipped, this`isGameOver, this`winner, board
      requires Shape()
      requires msg.MoveMessage? ==> MovePre(Cells(), Coord(msg.startRow, msg.startCol), msg.move)
      ensures Shape() && board == old(board)
      ensures Peer() == Deliver(old(Peer()), msg)
    {
      if msg.MoveMessage? {
        MovePiece(msg.startRow, msg.startCol, msg.move);
      }
    }
  }
}

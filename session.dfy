/**
 * One peer of a networked game: the click handler `handleSquareClick` with
 * its two states (nothing selected; a piece selected with its cached
 * `validMoves`), the message it sends, and the receive handler, which
 * replays `movePiece` with the sender's arguments.
 */
module Session {
  import opened Options
  import opened Board
  import opened Moves
  import opened Rules

  /** What a peer sends: `{type: 'move', move: {startRow, startCol, move}}`.
      Any other data reaching the receive handler is ignored. */
  datatype Message = MoveMessage(startRow: int, startCol: int, move: Move) | OtherData

  /** A peer: the game state, the selection (`selectedPiece` and
      `validMoves`), the player number fixed when the connection was made
      (1 for the host, 2 for the joiner), and the messages sent so far. */
  datatype PeerState = PeerState(game: GameState, selected: Option<Coord>, validMoves: seq<Move>,
                                 playerNumber: Player, sent: seq<Message>)

  /** The selection invariant: a selected cell holds an untrapped piece of
      the player to move, it is this peer's turn, and the cached moves are
      the ones the generator gives for the current board. */
  predicate PeerValid(p: PeerState)
  {
    && WellFormed(p.game.board)
    && (p.selected.Some? ==>
          var q := p.selected.value;
          && At(p.game.board, q).Some?
          && At(p.game.board, q).value.player == p.game.currentPlayer
          && !At(p.game.board, q).value.isTrapped
          && p.playerNumber == p.game.currentPlayer
          && p.validMoves == ValidMoves(p.game.board, q, p.game.currentPlayer, p.game.lastFlipped))
  }

  /** The peer right after the connection is made: `startGame` lays out a
      fresh board while the other globals keep their initial values. */
  function Start(number: Player): (p: PeerState)
    ensures PeerValid(p)
  {
    InitialLayoutShape();
    PeerState(GameState(InitialLayout, One, None, false, None), None, [], number, [])
  }

  /** `validMoves.find(m => m.r === row && m.c === col)`: the first cached
      move landing on the clicked cell. */
  function FindMove(ms: seq<Move>, to: Coord): (r: Option<Move>)
    ensures r.None? ==> forall m :: m in ms ==> m.to != to
    ensures r.Some? ==> exists i :: 0 <= i < |ms| && ms[i] == r.value && r.value.to == to
                          && forall j :: 0 <= j < i ==> ms[j].to != to
  {
    if ms == [] then None
    else if ms[0].to == to then Some(ms[0])
    else
      var r := FindMove(ms[1..], to);
      if r.Some? then
        ghost var i :| 0 <= i < |ms[1..]| && ms[1..][i] == r.value && r.value.to == to
                          && forall j :: 0 <= j < i ==> ms[1..][j].to != to;
        assert ms[i + 1] == r.value && forall j :: 0 <= j < i + 1 ==> ms[j].to != to;
        r
      else r
  }

  /** `handleSquareClick` on the square (row, col): ignored once the game
      is over, on the other player's turn and off the board; with a piece
      selected, a click on a cached destination sends that move and plays it,
      and any click ends the selection; with none selected, a click on an
      untrapped piece of the player to move selects it and caches its moves. */
  function Click(p: PeerState, row: int, col: int): (p': PeerState)
    requires PeerValid(p)
    ensures PeerValid(p')
  {
    var s := p.game;
    var at := Coord(row, col);
    if s.isGameOver || s.currentPlayer != p.playerNumber || !InBounds(at) then p
    else if p.selected.Some? then
      var from := p.selected.value;
      match FindMove(p.validMoves, at)
      case None => p.(selected := None, validMoves := [])
      case Some(m) =>
        GeneratedMovesApplicable(s.board, from, s.currentPlayer, s.lastFlipped, m);
        p.(game := ApplyMove(s, from, m), selected := None, validMoves := [],
           sent := p.sent + [MoveMessage(from.r, from.c, m)])
    else
      var cell := At(s.board, at);
      if cell.Some? && cell.value.player == s.currentPlayer && !cell.value.isTrapped then
        p.(selected := Some(at), validMoves := ValidMoves(s.board, at, s.currentPlayer, s.lastFlipped))
      else p
  }

  /** The receive handler: a move message replays `movePiece` with the
      sender's arguments, without checking them; other data is ignored. */
  function Deliver(p: PeerState, msg: Message): PeerState
    requires WellFormed(p.game.board)
    requires msg.MoveMessage? ==> MovePre(p.game.board, Coord(msg.startRow, msg.startCol), msg.move)
  {
    match msg
    case MoveMessage(r, c, m) => p.(game := ApplyMove(p.game, Coord(r, c), m))
    case OtherData => p
  }

  /** Clicks change nothing once the game is over or while it is the other
      player's turn. */
  lemma ClickGated(p: PeerState, row: int, col: int)
    requires PeerValid(p)
    requires p.game.isGameOver || p.game.currentPlayer != p.playerNumber
    ensures Click(p, row, col) == p
  {
  }

  /** Only an untrapped piece of the player to move can be selected, and
      selecting it caches exactly its generated moves. */
  lemma ClickSelects(p: PeerState, row: int, col: int)
    requires PeerValid(p) && p.selected.None?
    ensures var p' := Click(p, row, col);
      var q := Coord(row, col);
      p'.selected.Some? <==>
        && !p.game.isGameOver && p.game.currentPlayer == p.playerNumber
        && At(p.game.board, q).Some? && At(p.game.board, q).value.player == p.game.currentPlayer
        && !At(p.game.board, q).value.isTrapped
    ensures var p' := Click(p, row, col);
      p'.selected.Some? ==>
        && p'.selected == Some(Coord(row, col)) && p'.game == p.game && p'.sent == p.sent
        && p'.validMoves == ValidMoves(p.game.board, Coord(row, col), p.game.currentPlayer, p.game.lastFlipped)
  {
  }

  /** The game state changes only by playing a generated move of the
      selected piece that lands on the clicked cell, and exactly that move is
      sent to the other peer. */
  lemma ClickPlaysGeneratedMoves(p: PeerState, row: int, col: int)
    requires PeerValid(p)
    requires Click(p, row, col).game != p.game
    ensures p.selected.Some?
    ensures var from := p.selected.value;
      var p' := Click(p, row, col);
      && p'.selected.None?
      && |p'.sent| == |p.sent| + 1 && p'.sent[..|p.sent|] == p.sent
      && var msg := p'.sent[|p.sent|];
      && msg.MoveMessage? && msg.startRow == from.r && msg.startCol == from.c
      && msg.move in ValidMoves(p.game.board, from, p.game.currentPlayer, p.game.lastFlipped)
      && msg.move.to == Coord(row, col)
      && MovePre(p.game.board, from, msg.move)
      && p'.game == ApplyMove(p.game, from, msg.move)
  {
    var p' := Click(p, row, col);
    var from := p.selected.value;
    var m := p'.sent[|p.sent|].move;
    GeneratedMovesApplicable(p.game.board, from, p.game.currentPlayer, p.game.lastFlipped, m);
    assert p'.sent[..|p.sent|] == p.sent;
  }

  /** With a piece selected, a click on a cell where a cached move lands
      plays the first such move, sends exactly that move and ends the
      selection. */
  lemma ClickPlaysFoundMove(p: PeerState, row: int, col: int, m: Move)
    requires PeerValid(p)
    requires !p.game.isGameOver && p.game.currentPlayer == p.playerNumber
    requires InBounds(Coord(row, col)) && p.selected.Some?
    requires FindMove(p.validMoves, Coord(row, col)) == Some(m)
    ensures var from := p.selected.value;
      var p' := Click(p, row, col);
      && MovePre(p.game.board, from, m)
      && p'.game == ApplyMove(p.game, from, m)
      && p'.sent == p.sent + [MoveMessage(from.r, from.c, m)]
      && p'.selected.None? && p'.validMoves == []
  {
    GeneratedMovesApplicable(p.game.board, p.selected.value, p.game.currentPlayer, p.game.lastFlipped, m);
  }

  /** Every other click sends nothing and leaves the game as it was: a
      click off the board, a click with a piece selected on a cell where no
      cached move lands (which only ends the selection), and a click that
      selects nothing. */
  lemma ClickOtherwiseSendsNothing(p: PeerState, row: int, col: int)
    requires PeerValid(p)
    requires || !InBounds(Coord(row, col))
             || (p.selected.Some? && FindMove(p.validMoves, Coord(row, col)).None?)
             || (p.selected.None? && Click(p, row, col).selected.None?)
    ensures Click(p, row, col).game == p.game && Click(p, row, col).sent == p.sent
    ensures p.selected.Some? && InBounds(Coord(row, col)) && !p.game.isGameOver
            && p.game.currentPlayer == p.playerNumber ==>
              Click(p, row, col).selected.None? && Click(p, row, col).validMoves == []
  {
  }

  /** Replication: a peer whose game state equals the sender's, on
      receiving the message a click sent, reaches the sender's new state. */
  lemma ReplicaAgrees(a: PeerState, b: PeerState, row: int, col: int)
    requires PeerValid(a) && b.game == a.game
    requires Click(a, row, col).game != a.game
    ensures var a' := Click(a, row, col);
      var msg := a'.sent[|a.sent|];
      && msg.MoveMessage?
      && MovePre(b.game.board, Coord(msg.startRow, msg.startCol), msg.move)
      && Deliver(b, msg).game == a'.game
  {
    ClickPlaysGeneratedMoves(a, row, col);
  }

  /** A peer waiting for the other player's move holds no selection, so the
      replayed move keeps the selection invariant; unless it captured the
      Emperor, the turn comes back to this peer. */
  lemma DeliverKeepsValid(p: PeerState, msg: Message)
    requires PeerValid(p) && p.game.currentPlayer != p.playerNumber
    requires msg.MoveMessage? ==> MovePre(p.game.board, Coord(msg.startRow, msg.startCol), msg.move)
    ensures var p' := Deliver(p, msg);
      && PeerValid(p')
      && p'.selected == p.selected == None && p'.sent == p.sent
      && (msg.MoveMessage? && !EmperorCapture(p.game.board, msg.move) ==>
            p'.game.currentPlayer == p.playerNumber)
  {
  }
}

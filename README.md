# Dragon Face and blackjack, modelled in Dafny

This project models the game logic of two browser games and proves properties of the model.

**Dragon Face** (`script.js`) is a two-player game on an 11 × 9 grid:

- The outer ring of the grid is the sacrifice zone. The 9 × 7 interior is the playable region.
- Each player has three kinds of piece:
  - Governors step forward, or move two squares on their first move, and capture diagonally forward.
  - Ambassadors slide in eight directions and capture by jumping the piece that stops them.
  - The Emperor steps to any neighbour and captures by jumping it.
- A capture does not remove the jumped piece. It changes the piece's owner, and that piece is immune on the next turn.
- Capturing an Emperor ends the game.
- A piece that lands in the sacrifice zone is trapped.
- A Governor that reaches its last row frees its owner's trapped Ambassadors.
- Two browsers play over a peer connection:
  - the player to move clicks to select a piece, then clicks a destination;
  - the move is sent to the other peer, which replays it.

**Blackjack** (`sabacc.js`) has these parts:

- a 52-card deck;
- card values, with aces at 11;
- a hand score that counts aces as 1 while the hand is over 21;
- the dealer's rule of drawing below 17;
- the decision of the round.

## Layout

- `options.dfy` (module `Options`): the `Option` type.
- `board.dfy` (module `Board`):
  - pieces, cells, coordinates and the grid as a value;
  - `isPlayableSquare` and `isWithinBoardBounds`;
  - a total lookup `At`, which finds no piece off the grid, and a cell update `Put`;
  - the occupied set, whose size is the piece count;
  - the initial layout.
- `moves.dfy` (module `Moves`):
  - the move generators as functions that return the list each JavaScript loop builds, in the same order;
  - the loops are written as prefix functions such as `GovernorSteps(…, k)`, the moves pushed once the loop variable reaches `k`;
  - `ValidMoves` dispatches on the piece kind.
- `movefacts.dfy` (module `MoveFacts`):
  - what each generator produces, stated without reference to its loops;
  - what every generated move guarantees.
- `rules.dfy` (module `Rules`):
  - the game state;
  - `movePiece` as the function `ApplyMove`, and the promotion rule as `Promote`;
  - lemmas on the board effect, bookkeeping, piece count, Emperor capture and immunity.
- `session.dfy` (module `Session`):
  - one peer: the click state machine of `handleSquareClick` as `Click`, with the selection and the cached moves, and the receive handler as `Deliver`;
  - lemmas on gating, selection, sending and replication.
- `engine.dfy` (module `Engine`): the imperative form of `script.js`.
  - Class `Game` holds the globals as fields and the board as an `array2<Cell>` updated in place.
  - The generators are methods with the source's `for` and `while` loops, each proved equal to its function in `Moves`.
  - `MovePiece`, `CheckForGovernorPromotion`, `HandleSquareClick` and `Receive` are proved to change the fields exactly as `ApplyMove`, `Promote`, `Click` and `Deliver` say.
  - Through those, every lemma of `MoveFacts`, `Rules` and `Session` applies to the class.
- `blackjack.dfy` (module `Blackjack`):
  - cards, the deck and the score;
  - class `Table` with the globals `deck`, `playerHand`, `dealerHand` and `gameOver`, and with the outcome that `endGame` shows.

## Model

| member | source | states |
|---|---|---|
| Board.Other | script.js:166 | the turn always passes to the other player |
| Board.PlayableIsInterior | script.js:263-264 | a square is playable exactly when it is on the grid and not on its outer ring |
| Board.InitialLayoutShape | script.js:37-49 | the start position is an 11 × 9 grid; the occupied cells are exactly the playable cells of rows 1, 2, 8 and 9; every piece on it is unmoved and untrapped; player 2 holds rows 1–2 and player 1 rows 8–9; Governors fill rows 2 and 8; each Emperor sits in column 4 of its back row |
| MoveFacts.GovernorStepsPlain | script.js:177-183 | the one-step loop yields exactly the empty playable cells one row forward and at most one column aside |
| MoveFacts.GovernorDoublesPlain | script.js:184-193 | the two-step loop yields exactly the empty playable cells two rows forward, straight or diagonal, whose intermediate cell is empty |
| MoveFacts.GovernorJumpsAreCaptures | script.js:194-206 | the capture loop yields no plain move; it captures exactly the two forward-diagonal neighbours that pass the capture test, landing two cells away |
| MoveFacts.GovernorPlainMoves | script.js:173-193 | a Governor's plain moves are exactly the empty playable cells one row forward within one column, or, while it has not moved, two rows forward in a line over an empty cell |
| MoveFacts.GovernorCaptures | script.js:194-206 | a Governor captures exactly over a forward-diagonal neighbour that passes the capture test, landing on the cell beyond it |
| MoveFacts.RayShape | script.js:215-221 | the slide lists, in order, the contiguous empty playable cells along the ray, and stops on the first cell that is not one of them |
| MoveFacts.AmbassadorDirection | script.js:212-230 | in one direction, the Ambassador's plain moves are the first n cells of the ray, which are exactly the contiguous empty playable ones; then comes at most one capture, over the cell where the slide stopped, landing on the next cell |
| MoveFacts.AmbassadorMembers | script.js:209-233 | an Ambassador's moves are exactly the union of its eight directions |
| MoveFacts.EmperorDirMembers | script.js:238-253 | one pass offers the neighbour when it is empty and playable, and the capture over the neighbour landing at distance 2 when it passes the capture test; the centre pass offers nothing |
| MoveFacts.EmperorMembers | script.js:234-256 | an Emperor's moves are exactly the union of its eight neighbour passes |
| MoveFacts.EmperorPlainMoves | script.js:238-242 | an Emperor's plain moves are exactly the empty playable cells among its eight neighbours |
| MoveFacts.EmperorCaptures | script.js:243-253 | an Emperor captures exactly by jumping one adjacent cell that passes the capture test and landing at distance 2 in the same direction |
| MoveFacts.GeneratedMovesSound | script.js:173-261 | every generated plain move lands on an empty playable cell; every generated capture jumps a piece the mover does not own and that is not the last flipped one, landing on an empty cell of the grid |
| Rules.PromotionRow | script.js:262 | the promotion row is the last playable row in the owner's forward direction |
| Rules.PromotionEffect | script.js:262 | promotion fires only for a Governor that ends on its promotion row; it then clears the trapped flag of exactly the mover's own Ambassadors and leaves every other cell as it was |
| Rules.PromotionKeepsPieces | script.js:262 | promotion leaves the set of occupied cells unchanged |
| Rules.EmperorCaptureEndsGame | script.js:144-149 | capturing an Emperor sets the game over, with the mover as winner, and leaves the board, the turn and the immune cell unchanged |
| Rules.MoveEffect | script.js:140-163 | after a generated non-Emperor move, the start cell is empty and the landing cell holds the mover with `hasMoved` and `isTrapped` updated; a jumped piece stays in its cell with only its owner changed, to the mover's player, and is then untrapped if the move promotes; every other cell changes only by promotion |
| Rules.MoveKeepsPieceCount | script.js:140-163 | a move leaves the number of occupied cells unchanged, because a capture flips and never removes |
| Rules.MoveBookkeeping | script.js:154-167 | after a non-Emperor move the turn passes to the other player, and the immune cell becomes the jumped cell, or none after a plain move |
| Rules.GeneratedMovesApplicable | script.js:118-128 | every generated move meets what `movePiece` needs: an occupied start cell, an in-bounds landing cell and an occupied jumped cell |
| Rules.GeneratedMovesOrdinary | script.js:173-261 | a generated move of the player's own piece that does not capture an Emperor lands on an empty cell, and a capture jumps an opposing piece: the hypotheses of the board-effect lemmas |
| Rules.FlipGrantsImmunity | script.js:167 | on the turn after a flip, no generated capture jumps the flipped piece |
| Rules.ImmunityExpires | script.js:167 | the next move replaces the immune cell, so the protection lasts one turn |
| Session.Start | script.js:85-97 | the peer after the connection is made holds the initial layout, player 1 to move, no selection; it meets the selection invariant |
| Session.FindMove | script.js:118 | `validMoves.find`: None exactly when no cached move lands on the cell; otherwise the first such move |
| Session.Click | script.js:103-137 | every click keeps the selection invariant: a selected cell holds an untrapped piece of the player to move, it is this peer's turn, and the cached moves are the generator's for the current board |
| Session.ClickGated | script.js:104-109 | clicks change nothing once the game is over or on the other player's turn |
| Session.ClickSelects | script.js:131-136 | with nothing selected, a click selects exactly an untrapped piece of the player to move on this peer's turn, and caches exactly its generated moves |
| Session.ClickPlaysGeneratedMoves | script.js:117-130 | the game changes only by playing a generated move of the selected piece that lands on the clicked cell; exactly that move is appended to the messages sent, and the selection ends |
| Session.ClickPlaysFoundMove | script.js:117-130 | with a piece selected, a click on a cell where a cached move lands plays the move `find` returns, appends exactly that move message to the messages sent, and clears the selection and the cached moves |
| Session.ClickOtherwiseSendsNothing | script.js:103-137 | a click off the grid, a click on a cell no cached move reaches, or a click that selects nothing leaves the game and the messages sent unchanged; with a piece selected on this peer's turn, a click on a grid cell that no cached move reaches clears the selection and the cached moves |
| Session.ReplicaAgrees | script.js:89-93 | a peer with the same game state that receives the sent message reaches the sender's new state |
| Session.DeliverKeepsValid | script.js:89-93 | a peer waiting for the other player's move keeps the selection invariant when it replays the move, and the turn comes back to it unless the Emperor was captured |
| Engine.Game.constructor | script.js:85-97 | the fresh object is the peer `Session.Start` describes, with a freshly allocated 11 × 9 board |
| Engine.Game.Lookup | script.js:201 | reading a cell of the array, or no piece off the grid, agrees with `At` on the board's value |
| Engine.Game.Empty | script.js:180 | the array test `=== null` on a cell of the grid agrees with `Vacant` |
| Engine.Game.CanCapture | script.js:202-203 | the capture test on the fields agrees with `CanJump` on the board's value, the player to move and the immune cell |
| Engine.Game.JumpOver | script.js:202-205 | pushes the capture exactly when the capture test passes |
| Engine.Game.SetCell | script.js:162-163 | writing one array cell is `Put` on the board's value |
| Engine.Game.GovernorStepLoop | script.js:177-183 | the one-step loop returns `GovernorSteps` |
| Engine.Game.GovernorDoubleLoop | script.js:184-193 | the two-step loop returns `GovernorDoubles` |
| Engine.Game.GovernorJumpLoop | script.js:194-206 | the capture loop returns `GovernorJumps` |
| Engine.Game.GetGovernorMoves | script.js:173-208 | returns `GovernorMoves`, with the forward direction taken from the piece's player |
| Engine.Game.Slide | script.js:215-221 | the `while` loop returns the ray's plain moves and the cell where it stopped |
| Engine.Game.AmbassadorDirAt | script.js:212-230 | one pass of the direction loop returns `AmbassadorDir` |
| Engine.Game.GetAmbassadorMoves | script.js:209-233 | returns `AmbassadorMoves` |
| Engine.Game.EmperorDirAt | script.js:238-253 | one pass of the double loop returns `EmperorDir` |
| Engine.Game.EmperorRowLoop | script.js:236-254 | the inner loop returns `EmperorRow` |
| Engine.Game.GetEmperorMoves | script.js:234-256 | returns `EmperorMoves` |
| Engine.Game.GetValidMoves | script.js:261 | returns `ValidMoves`: nothing for an empty cell, otherwise the generator of the piece's kind |
| Engine.Game.CheckForGovernorPromotion | script.js:262 | the sweep over the array leaves the board `Promote` says |
| Engine.Game.EndGame | script.js:260 | sets the game over with the given winner and changes no other field |
| Engine.Game.Relocate | script.js:154-163 | the piece leaves the start cell and lands on the destination, marked as moved if it is a Governor and trapped if it lands off the playable region |
| Engine.Game.PassTurn | script.js:166-167 | the turn passes and the immune cell becomes the one flipped, if any |
| Engine.Game.MovePiece | script.js:140-170 | the fields and the board change exactly as `ApplyMove` says, and the selection, player number and messages are unchanged |
| Engine.Game.ClearSelection | script.js:258 | nothing stays selected or cached, and no game field changes |
| Engine.Game.SelectPiece | script.js:257 | the cell is selected and its generated moves are cached, and no game field changes |
| Engine.Game.HandleSquareClick | script.js:103-137 | the object changes exactly as `Session.Click` says, and keeps the selection invariant |
| Engine.Game.Receive | script.js:89-93 | the object changes exactly as `Session.Deliver` says: a move message replays `MovePiece` and other data is ignored |
| Blackjack.DeckUpToOrder | sabacc.js:38-42 | after k suits the deck has 13·k cards, card 13·s + v being value v of suit s |
| Blackjack.FullDeckOrder | sabacc.js:36-43 | the deck has 52 cards in suit-major order |
| Blackjack.FullDeckComplete | sabacc.js:36-43 | every (suit, value) pair is in the deck |
| Blackjack.FullDeckDistinct | sabacc.js:36-43 | no card is in the deck twice |
| Blackjack.CardValue | sabacc.js:56-60 | a value lies in [2, 11]; a number card is worth its number; it is 11 exactly for an ace and 10 exactly for a 10 or a face card |
| Blackjack.CalculateScore | sabacc.js:62-77 | the two loops compute `Score`: the raw sum, softened by 10 per ace while over 21 |
| Blackjack.SoftenedCounts | sabacc.js:71-75 | the softening loop takes off 10 for each of the fewest aces that bring the score to 21 or below, or for all aces when that never happens |
| Blackjack.ScoreSoftening | sabacc.js:62-77 | the score is the raw sum less 10·k, for the least k ≤ the ace count that brings it to 21 or below, or the ace count itself; an empty hand scores 0, and a hand without aces scores its raw sum |
| Blackjack.SoftenedClosed | sabacc.js:71-75 | the softening loop agrees with a closed formula |
| Blackjack.ScoreClosedForm | sabacc.js:62-77 | when over 21, the score is the raw sum less 10 times the smaller of the ace count and the number of tens needed to reach 21 |
| Blackjack.HardScoreBounds | sabacc.js:62-77 | each card adds at least 1 with aces counted as 1, and the score is never below that count |
| Blackjack.SoftenedAtLeast | sabacc.js:71-75 | the softening takes off at most 10 per ace |
| Blackjack.Decide | sabacc.js:109-122 | a dealer over 21 loses whatever the player holds; otherwise the higher score wins and equal scores push; the result is never a player bust |
| Blackjack.DecideSwap | sabacc.js:113-121 | with both scores at most 21, swapping them swaps the winner and keeps a push |
| Blackjack.Table.constructor | sabacc.js:6-9 | the globals start empty, with the round not over |
| Blackjack.Table.CreateDeck | sabacc.js:36-43 | the deck becomes `FullDeck`, which the lemmas above describe |
| Blackjack.Table.DrawCard | sabacc.js:52-54 | returns the last card and removes exactly that card; an empty deck yields no card |
| Blackjack.Table.EndGame | sabacc.js:124-131 | the round is over with the given outcome |
| Blackjack.Table.CheckForBust | sabacc.js:94-99 | the round ends with a player bust exactly when the player's score is over 21; otherwise nothing changes |
| Blackjack.Table.DetermineWinner | sabacc.js:109-122 | the round ends with `Decide` applied to the two scores |
| Blackjack.Table.DealerTurn | sabacc.js:101-107 | the dealer takes cards only from the end of the deck, in order, while the score is below 17, and every intermediate hand scored below 17; on success the score is at least 17 and the winner is decided; with at least 17 cards in the deck it always succeeds |

## Left out

- Rendering and the page:
  - the DOM half of `initializeBoard`;
  - `renderPieces`, `updateStatusDisplay` and `highlightValidMoves`;
  - the class toggling in `selectPiece` and `clearSelection`;
  - the `endGame` overlay and `location.reload`;
  - `renderGame`, `createCardElement` and the button listeners of the blackjack page.

  These are presentation only.
- PeerJS networking: creating the peer, connecting, and the `open` and `connection` events. This is a foreign library and asynchronous I/O.
  - `conn.send` is modelled as appending to the field `sent`.
  - Only the receive handler's replay of `movePiece` is modelled.
  - The model assumes one connection, made before any click. `playerNumber` is therefore a player, and the `!playerNumber` gate of `handleSquareClick` always passes.
- confetti.js is left out. It is a canvas animation driven by floating point, randomness and animation frames.
- `shuffleDeck` is left out, because it depends on `Math.random`. The deck order is whatever sequence `Table.deck` holds.
- The blackjack `startGame` and the Hit and Stand listeners are left out. They only chain `createDeck`, the shuffle, `drawCard`, `checkForBust` and `dealerTurn`, which are modelled.
- `rows` and `cols` are used in `script.js` without a declaration there. They are fixed at 11 and 9, the size of the initial layout.
- Piece identity:
  - the board is a grid of values; `initializeBoard` deep-copies the layout, so no two cells share a piece object in the source either;
  - `movePiece` reads the moving piece after the flip, which is what the source's shared object reference gives when the flipped cell is the start cell;
  - `selectedPiece.piece` is stored by the source but never read again, so it is not part of the selection.
- `hasMoved` exists only on Governors in the source. Other kinds carry it as `false`, and only Governors read or write it.
- Engine.Game.MovePiece requires a start cell with a piece, a landing cell on the grid and, for a capture, a jumped cell with a piece. The source would throw or write outside the grid otherwise, except on an Emperor capture: that move ends the game before the start or landing cell is read (script.js:145-148), so the source accepts an empty start cell or an off-grid landing cell there and the model does not. No caller passes such a move: `Rules.GeneratedMovesApplicable` proves that every generated move meets these requirements.
- Engine.Game.Receive requires the same of the received move. It does not validate data from the other peer, just as the source does not. `Session.DeliverKeepsValid` covers the lockstep case, where the receiver has no selection: the other player moves only on their own turn.
- Session.Click and Engine.Game.HandleSquareClick take the clicked row and column directly. A click outside the grid, which the page cannot produce, changes nothing.
- The generators return one concatenated list of the moves each loop pushes, in the source's order, rather than pushing into one shared array.
- Blackjack.Table.DrawCard returns no card on an empty deck, where the source returns `undefined`.
- Blackjack.Table.DealerTurn stops and reports failure when the deck runs out while the score is below 17. The source would push `undefined` and then throw in `getCardValue`.

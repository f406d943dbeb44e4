/**
 * Move generation: the legal destinations of a piece, as the three
 * generators `getGovernorMoves`, `getAmbassadorMoves` and `getEmperorMoves`
 * list them, and `getValidMoves`, which picks one by the piece's kind.
 * Each generator is a loop over directions in the source; here each loop is
 * a function giving the moves of its first k iterations, so that the methods
 * of Engine.Game can be proved against them iteration by iteration.
 */
module Moves {
  import opened Options
  import opened Board

  /** `{r, c, type: 'move'}` or `{r, c, type: 'capture', jumped: {r, c}}`. */
  datatype Move = Plain(to: Coord) | Capture(to: Coord, jumped: Coord)

  /** A Governor's row step: towards row 0 for player One, row 10 for player Two. */
  function Forward(p: Player): (f: int)
    ensures f == -1 || f == 1
    ensures (f == -1) <==> (p == One)
  {
    if p == One then -1 else 1
  }

  function Offset(p: Coord, dr: int, dc: int): Coord
  {
    Coord(p.r + dr, p.c + dc)
  }

  /** `boardState[r][c] === null`: an existing cell with no piece. */
  predicate Vacant(b: Board, q: Coord)
    requires WellFormed(b)
  {
    InBounds(q) && At(b, q).None?
  }

  /** The capture test all three generators share: the jumped cell is not
      the immune one, the landing cell lies on the grid and is empty, and the
      jumped cell holds a piece that `mover` does not own. */
  predicate CanJump(b: Board, jumped: Coord, to: Coord, mover: Player, immune: Option<Coord>)
    requires WellFormed(b)
  {
    && immune != Some(jumped)
    && Vacant(b, to)
    && At(b, jumped).Some?
    && At(b, jumped).value.player != mover
  }

  function PlainIf(b: Board, to: Coord): seq<Move>
    requires WellFormed(b)
  {
    if Playable(to) && Vacant(b, to) then [Plain(to)] else []
  }

  function JumpIf(b: Board, jumped: Coord, to: Coord, mover: Player, immune: Option<Coord>): seq<Move>
    requires WellFormed(b)
  {
    if CanJump(b, jumped, to, mover, immune) then [Capture(to, jumped)] else []
  }

  // ---------------------------------------------------------------- Governor

  /** Iteration `dc` of the one-step loop. */
  function GovernorStep(b: Board, from: Coord, f: int, dc: int): seq<Move>
    requires WellFormed(b)
  {
    PlainIf(b, Offset(from, f, dc))
  }

  /** Iteration `dc` of the opening two-step loop: both cells must be empty
      and the landing cell playable. */
  function GovernorDouble(b: Board, from: Coord, f: int, dc: int): seq<Move>
    requires WellFormed(b)
  {
    var mid := Offset(from, f, dc);
    var to := Offset(from, 2 * f, 2 * dc);
    if Playable(to) && Vacant(b, mid) && Vacant(b, to) then [Plain(to)] else []
  }

  /** Iteration `dc` of the capture loop, which skips the straight column. */
  function GovernorJump(b: Board, from: Coord, f: int, dc: int, mover: Player, immune: Option<Coord>): seq<Move>
    requires WellFormed(b)
  {
    if dc == 0 then [] else JumpIf(b, Offset(from, f, dc), Offset(from, 2 * f, 2 * dc), mover, immune)
  }

  /** The moves the one-step loop has pushed once `dc` has reached `k`. */
  function GovernorSteps(b: Board, from: Coord, f: int, k: int): seq<Move>
    requires WellFormed(b) && -1 <= k
    decreases k + 1
  {
    if k == -1 then [] else GovernorSteps(b, from, f, k - 1) + GovernorStep(b, from, f, k - 1)
  }

  function GovernorDoubles(b: Board, from: Coord, f: int, k: int): seq<Move>
    requires WellFormed(b) && -1 <= k
    decreases k + 1
  {
    if k == -1 then [] else GovernorDoubles(b, from, f, k - 1) + GovernorDouble(b, from, f, k - 1)
  }

  function GovernorJumps(b: Board, from: Coord, f: int, k: int, mover: Player, immune: Option<Coord>): seq<Move>
    requires WellFormed(b) && -1 <= k
    decreases k + 1
  {
    if k == -1 then [] else GovernorJumps(b, from, f, k - 1, mover, immune) + GovernorJump(b, from, f, k - 1, mover, immune)
  }

  /** `getGovernorMoves(r, c, player)`: `player` sets the direction, the
      Governor on `from` says whether it has moved, `mover` is `currentPlayer`
      and `immune` is `lastFlippedPieceCoords`. */
  function GovernorMoves(b: Board, from: Coord, player: Player, mover: Player, immune: Option<Coord>): seq<Move>
    requires WellFormed(b) && At(b, from).Some?
  {
    var f := Forward(player);
    GovernorSteps(b, from, f, 2)
      + (if !At(b, from).value.hasMoved then GovernorDoubles(b, from, f, 2) else [])
      + GovernorJumps(b, from, f, 2, mover, immune)
  }

  // -------------------------------------------------------------- Ambassador

  /** The eight directions, in the order `getAmbassadorMoves` lists them. */
  const Directions: seq<Coord> := [Coord(-1, 0), Coord(1, 0), Coord(0, -1), Coord(0, 1),
                                   Coord(-1, -1), Coord(-1, 1), Coord(1, -1), Coord(1, 1)]

  predicate IsDirection(d: Coord)
  {
    -1 <= d.r <= 1 && -1 <= d.c <= 1 && d != Coord(0, 0)
  }

  lemma DirectionsAreDirections(k: int)
    requires 0 <= k < |Directions|
    ensures IsDirection(Directions[k])
  {
  }

  /** The cell `i` steps from `p` in direction `d`. */
  function Along(p: Coord, d: Coord, i: int): Coord
  {
    Coord(p.r + i * d.r, p.c + i * d.c)
  }

  /** How many more steps in direction `d` can stay on the playable region. */
  function RayMeasure(p: Coord, d: Coord): int
  {
    (if d.r == 1 then 10 - p.r else if d.r == -1 then p.r else 0)
    + (if d.c == 1 then 8 - p.c else if d.c == -1 then p.c else 0)
  }

  /** The inner `while` loop: the plain moves of a slide that starts on `p`,
      and the cell where the slide stopped. */
  function Ray(b: Board, p: Coord, d: Coord): (seq<Move>, Coord)
    requires WellFormed(b) && IsDirection(d)
    decreases RayMeasure(p, d)
  {
    if Playable(p) && Vacant(b, p) then
      var rest := Ray(b, Offset(p, d.r, d.c), d);
      ([Plain(p)] + rest.0, rest.1)
    else
      ([], p)
  }

  /** One pass of the outer loop: the slide, then a capture over the cell
      where it stopped. */
  function AmbassadorDir(b: Board, from: Coord, d: Coord, mover: Player, immune: Option<Coord>): seq<Move>
    requires WellFormed(b) && IsDirection(d)
  {
    var ray := Ray(b, Offset(from, d.r, d.c), d);
    ray.0 + JumpIf(b, ray.1, Offset(ray.1, d.r, d.c), mover, immune)
  }

  /** Pass `j` of the outer loop, in direction `Directions[j]`. */
  function AmbassadorPass(b: Board, from: Coord, j: int, mover: Player, immune: Option<Coord>): seq<Move>
    requires WellFormed(b) && 0 <= j < |Directions|
  {
    DirectionsAreDirections(j);
    AmbassadorDir(b, from, Directions[j], mover, immune)
  }

  function AmbassadorUpTo(b: Board, from: Coord, k: int, mover: Player, immune: Option<Coord>): seq<Move>
    requires WellFormed(b) && 0 <= k <= |Directions|
  {
    if k == 0 then [] else AmbassadorUpTo(b, from, k - 1, mover, immune) + AmbassadorPass(b, from, k - 1, mover, immune)
  }

  /** `getAmbassadorMoves(r, c)`. */
  function AmbassadorMoves(b: Board, from: Coord, mover: Player, immune: Option<Coord>): seq<Move>
    requires WellFormed(b)
  {
    AmbassadorUpTo(b, from, |Directions|, mover, immune)
  }

  // ----------------------------------------------------------------- Emperor

  /** Iteration (dr, dc) of the double loop; (0, 0) is skipped. */
  function EmperorDir(b: Board, from: Coord, dr: int, dc: int, mover: Player, immune: Option<Coord>): seq<Move>
    requires WellFormed(b)
  {
    if dr == 0 && dc == 0 then []
    else PlainIf(b, Offset(from, dr, dc)) + JumpIf(b, Offset(from, dr, dc), Offset(from, 2 * dr, 2 * dc), mover, immune)
  }

  function EmperorRow(b: Board, from: Coord, dr: int, k: int, mover: Player, immune: Option<Coord>): seq<Move>
    requires WellFormed(b) && -1 <= k
    decreases k + 1
  {
    if k == -1 then [] else EmperorRow(b, from, dr, k - 1, mover, immune) + EmperorDir(b, from, dr, k - 1, mover, immune)
  }

  function EmperorUpTo(b: Board, from: Coord, k: int, mover: Player, immune: Option<Coord>): seq<Move>
    requires WellFormed(b) && -1 <= k
    decreases k + 1
  {
    if k == -1 then [] else EmperorUpTo(b, from, k - 1, mover, immune) + EmperorRow(b, from, k - 1, 2, mover, immune)
  }

  /** `getEmperorMoves(r, c)`. */
  function EmperorMoves(b: Board, from: Coord, mover: Player, immune: Option<Coord>): seq<Move>
    requires WellFormed(b)
  {
    EmperorUpTo(b, from, 2, mover, immune)
  }

  // ---------------------------------------------------------------- dispatch

  /** `getValidMoves(r, c)`: nothing for an empty cell, otherwise the
      generator of the piece's kind; a Governor's direction is its owner's. */
  function ValidMoves(b: Board, from: Coord, mover: Player, immune: Option<Coord>): seq<Move>
    requires WellFormed(b)
  {
    match At(b, from)
    case None => []
    case Some(piece) =>
      match piece.kind
      case Emperor => EmperorMoves(b, from, mover, immune)
      case Governor => GovernorMoves(b, from, piece.player, mover, immune)
      case Ambassador => AmbassadorMoves(b, from, mover, immune)
  }
}

/**
 * The Dragon Face board: an 11-by-9 grid whose cells hold a piece or nothing.
 * The outer ring of the grid is the sacrifice zone; the 9-by-7 interior is
 * the playable region.
 */
module Board {
  import opened Options

  /** Grid size. script.js uses `rows` and `cols` without declaring them;
      the initial layout fixes them at 11 and 9. */
  const Rows: int := 11
  const Cols: int := 9

  datatype Player = One | Two

  /** The turn hand-over `currentPlayer === 1 ? 2 : 1`. */
  function Other(p: Player): (q: Player)
    ensures q != p
  {
    if p == One then Two else One
  }

  datatype Kind = Governor | Ambassador | Emperor

  /** A piece. `hasMoved` is read and written only for Governors; the other
      kinds do not carry it in the source and keep it false here. */
  datatype Piece = Piece(kind: Kind, player: Player, hasMoved: bool, isTrapped: bool)

  type Cell = Option<Piece>

  datatype Coord = Coord(r: int, c: int)

  /** `boardState`: a list of rows, each a list of cells. */
  type Board = seq<seq<Cell>>

  predicate WellFormed(b: Board)
  {
    |b| == Rows && forall r :: 0 <= r < Rows ==> |b[r]| == Cols
  }

  /** `isWithinBoardBounds`: the whole grid. */
  predicate InBounds(p: Coord)
  {
    0 <= p.r < Rows && 0 <= p.c < Cols
  }

  /** `isPlayableSquare`: the interior, rows 1 to 9 and columns 1 to 7. */
  predicate Playable(p: Coord)
  {
    0 < p.r < 10 && 0 < p.c < 8
  }

  /** The playable region is the grid less its outer ring, the sacrifice
      zone. */
  lemma PlayableIsInterior(p: Coord)
    ensures Playable(p) <==> InBounds(p) && p.r != 0 && p.r != Rows - 1 && p.c != 0 && p.c != Cols - 1
  {
  }

  /** `boardState[r]?.[c]`: a total lookup that finds no piece off the grid. */
  function At(b: Board, p: Coord): (cell: Cell)
    requires WellFormed(b)
    ensures !InBounds(p) ==> cell.None?
  {
    if InBounds(p) then b[p.r][p.c] else None
  }

  /** `boardState[r][c] = x`. */
  function Put(b: Board, p: Coord, x: Cell): (b': Board)
    requires WellFormed(b) && InBounds(p)
    ensures WellFormed(b')
    ensures At(b', p) == x
    ensures forall q :: q != p ==> At(b', q) == At(b, q)
  {
    b[p.r := b[p.r][p.c := x]]
  }

  /** Two boards with the same contents are the same board. */
  lemma Extensionality(a: Board, b: Board)
    requires WellFormed(a) && WellFormed(b)
    requires forall q :: InBounds(q) ==> At(a, q) == At(b, q)
    ensures a == b
  {
    forall r | 0 <= r < Rows
      ensures a[r] == b[r]
    {
      forall c | 0 <= c < Cols
        ensures a[r][c] == b[r][c]
      {
        assert At(a, Coord(r, c)) == At(b, Coord(r, c));
      }
    }
  }

  /** The occupied cells; their number is the piece count. */
  function Occupied(b: Board): (s: set<Coord>)
    requires WellFormed(b)
    ensures forall q :: q in s <==> At(b, q).Some?
  {
    var s := set r: int, c: int | 0 <= r < Rows && 0 <= c < Cols && b[r][c].Some? :: Coord(r, c);
    assert forall q :: At(b, q).Some? ==> q in s by {
      forall q | At(b, q).Some? ensures q in s {
        assert q == Coord(q.r, q.c);
      }
    }
    s
  }

  /** Writing a cell changes the occupied set at that cell only. */
  lemma OccupiedAfterPut(b: Board, p: Coord, x: Cell)
    requires WellFormed(b) && InBounds(p)
    ensures Occupied(Put(b, p, x)) == if x.Some? then Occupied(b) + {p} else Occupied(b) - {p}
  {
  }

  // The piece definitions and the initial layout of script.js.
  const P1G: Cell := Some(Piece(Governor, One, false, false))
  const P1A: Cell := Some(Piece(Ambassador, One, false, false))
  const P1E: Cell := Some(Piece(Emperor, One, false, false))
  const P2G: Cell := Some(Piece(Governor, Two, false, false))
  const P2A: Cell := Some(Piece(Ambassador, Two, false, false))
  const P2E: Cell := Some(Piece(Emperor, Two, false, false))
  const E: Cell := None

  const InitialLayout: Board := [
    [E, E,   E,   E,   E,   E,   E,   E,   E],
    [E, P2A, P2A, P2A, P2E, P2A, P2A, P2A, E],
    [E, P2G, P2G, P2G, P2G, P2G, P2G, P2G, E],
    [E, E,   E,   E,   E,   E,   E,   E,   E],
    [E, E,   E,   E,   E,   E,   E,   E,   E],
    [E, E,   E,   E,   E,   E,   E,   E,   E],
    [E, E,   E,   E,   E,   E,   E,   E,   E],
    [E, E,   E,   E,   E,   E,   E,   E,   E],
    [E, P1G, P1G, P1G, P1G, P1G, P1G, P1G, E],
    [E, P1A, P1A, P1A, P1E, P1A, P1A, P1A, E],
    [E, E,   E,   E,   E,   E,   E,   E,   E]
  ]

  /** The start position: every piece is on the playable region, fresh and
      untrapped; player Two holds rows 1 and 2, player One rows 8 and 9, and
      each Emperor sits in column 4 of its back row. */
  lemma InitialLayoutShape()
    ensures WellFormed(InitialLayout)
    ensures forall q :: At(InitialLayout, q).Some? ==>
      var piece := At(InitialLayout, q).value;
      && Playable(q) && !piece.hasMoved && !piece.isTrapped
      && (piece.player == Two <==> q.r <= 2)
      && (piece.kind == Emperor <==> q.c == 4 && (q.r == 1 || q.r == 9))
      && (piece.kind == Governor <==> q.r == 2 || q.r == 8)
    ensures forall q :: At(InitialLayout, q).Some? <==> Playable(q) && (q.r == 1 || q.r == 2 || q.r == 8 || q.r == 9)
  {
  }
}

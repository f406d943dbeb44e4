/**
 * What the generators promise: the exact set of plain moves and captures of
 * each piece kind, and that every generated move is one the turn logic can
 * apply (its landing cell is on the grid and empty, a capture jumps an
 * opposing piece that is not immune).
 */
module MoveFacts {
  import opened Options
  import opened Board
  import opened Moves

  lemma GovernorLoops(b: Board, from: Coord, f: int, mover: Player, immune: Option<Coord>)
    requires WellFormed(b)
    ensures GovernorSteps(b, from, f, 2) == GovernorStep(b, from, f, -1) + GovernorStep(b, from, f, 0) + GovernorStep(b, from, f, 1)
    ensures GovernorDoubles(b, from, f, 2) == GovernorDouble(b, from, f, -1) + GovernorDouble(b, from, f, 0) + GovernorDouble(b, from, f, 1)
    ensures GovernorJumps(b, from, f, 2, mover, immune) == GovernorJump(b, from, f, -1, mover, immune) + GovernorJump(b, from, f, 1, mover, immune)
  {
  }

  lemma GovernorStepsPlain(b: Board, from: Coord, f: int, to: Coord)
    requires WellFormed(b)
    ensures Plain(to) in GovernorSteps(b, from, f, 2) <==>
      Playable(to) && Vacant(b, to) && to.r == from.r + f && from.c - 1 <= to.c <= from.c + 1
  {
    GovernorLoops(b, from, f, One, None);
    if Playable(to) && Vacant(b, to) && to.r == from.r + f && from.c - 1 <= to.c <= from.c + 1 {
      assert to == Offset(from, f, to.c - from.c);
    }
  }

  lemma GovernorDoublesPlain(b: Board, from: Coord, f: int, to: Coord)
    requires WellFormed(b)
    ensures Plain(to) in GovernorDoubles(b, from, f, 2) <==>
      && Playable(to) && Vacant(b, to)
      && to.r == from.r + 2 * f
      && (to.c == from.c - 2 || to.c == from.c || to.c == from.c + 2)
      && Vacant(b, Coord(from.r + f, (from.c + to.c) / 2))
  {
    GovernorLoops(b, from, f, One, None);
    if to.c == from.c - 2 {
      assert (from.c + to.c) / 2 == from.c - 1;
    } else if to.c == from.c {
      assert (from.c + to.c) / 2 == from.c;
    } else if to.c == from.c + 2 {
      assert (from.c + to.c) / 2 == from.c + 1;
    }
  }

  lemma GovernorJumpsAreCaptures(b: Board, from: Coord, f: int, mover: Player, immune: Option<Coord>, to: Coord, jumped: Coord)
    requires WellFormed(b)
    ensures Plain(to) !in GovernorJumps(b, from, f, 2, mover, immune)
    ensures Capture(to, jumped) in GovernorJumps(b, from, f, 2, mover, immune) <==>
        && jumped.r == from.r + f
        && (jumped.c == from.c - 1 || jumped.c == from.c + 1)
        && to == Coord(from.r + 2 * f, 2 * jumped.c - from.c)
        && CanJump(b, jumped, to, mover, immune)
  {
    GovernorLoops(b, from, f, mover, immune);
  }

  /** A Governor's plain moves land on an empty playable cell either one row
      forward and at most one column aside, or, before its first move, two
      rows forward in a straight or diagonal line over an empty cell. */
  lemma GovernorPlainMoves(b: Board, from: Coord, player: Player, mover: Player, immune: Option<Coord>, to: Coord)
    requires WellFormed(b) && At(b, from).Some?
    ensures var f := Forward(player);
      Plain(to) in GovernorMoves(b, from, player, mover, immune) <==>
        && Playable(to) && Vacant(b, to)
        && ( (to.r == from.r + f && from.c - 1 <= to.c <= from.c + 1)
          || (&& !At(b, from).value.hasMoved
              && to.r == from.r + 2 * f
              && (to.c == from.c - 2 || to.c == from.c || to.c == from.c + 2)
              && Vacant(b, Coord(from.r + f, (from.c + to.c) / 2))))
  {
    var f := Forward(player);
    GovernorStepsPlain(b, from, f, to);
    GovernorDoublesPlain(b, from, f, to);
    GovernorJumpsAreCaptures(b, from, f, mover, immune, to, to);
    var steps := GovernorSteps(b, from, f, 2);
    var doubles := if !At(b, from).value.hasMoved then GovernorDoubles(b, from, f, 2) else [];
    var jumps := GovernorJumps(b, from, f, 2, mover, immune);
    assert GovernorMoves(b, from, player, mover, immune) == steps + doubles + jumps;
    assert Plain(to) in steps + doubles + jumps <==> Plain(to) in steps || Plain(to) in doubles || Plain(to) in jumps;
  }

  /** A Governor captures only diagonally forward: it jumps one of the two
      forward-diagonal neighbours and lands just beyond it. */
  lemma GovernorCaptures(b: Board, from: Coord, player: Player, mover: Player, immune: Option<Coord>, to: Coord, jumped: Coord)
    requires WellFormed(b) && At(b, from).Some?
    ensures var f := Forward(player);
      Capture(to, jumped) in GovernorMoves(b, from, player, mover, immune) <==>
        && jumped.r == from.r + f
        && (jumped.c == from.c - 1 || jumped.c == from.c + 1)
        && to == Coord(from.r + 2 * f, 2 * jumped.c - from.c)
        && CanJump(b, jumped, to, mover, immune)
  {
    var f := Forward(player);
    GovernorLoops(b, from, f, mover, immune);
    GovernorJumpsAreCaptures(b, from, f, mover, immune, to, jumped);
  }

  /** A slide lists, in order, the contiguous empty playable cells along
      its ray and stops on the first cell that is not one of them. */
  lemma {:induction false} RayShape(b: Board, p: Coord, d: Coord)
    requires WellFormed(b) && IsDirection(d)
    ensures var ray := Ray(b, p, d);
      && ray.1 == Along(p, d, |ray.0|)
      && !(Playable(ray.1) && Vacant(b, ray.1))
      && forall i :: 0 <= i < |ray.0| ==>
           ray.0[i] == Plain(Along(p, d, i)) && Playable(Along(p, d, i)) && Vacant(b, Along(p, d, i))
    decreases RayMeasure(p, d)
  {
    if Playable(p) && Vacant(b, p) {
      var q := Offset(p, d.r, d.c);
      RayShape(b, q, d);
      var rest := Ray(b, q, d);
      forall i | 0 <= i <= |rest.0|
        ensures Along(q, d, i) == Along(p, d, i + 1)
      {
        assert (i + 1) * d.r == i * d.r + d.r;
        assert (i + 1) * d.c == i * d.c + d.c;
      }
      assert Along(p, d, 0) == p;
    }
  }

  /** One direction of an Ambassador: plain moves to the first n cells of
      the ray, exactly the contiguous empty playable ones, then at most one
      capture, over the cell where the slide stopped, landing on the next. */
  lemma AmbassadorDirection(b: Board, from: Coord, d: Coord, mover: Player, immune: Option<Coord>)
    requires WellFormed(b) && IsDirection(d)
    ensures var dir := AmbassadorDir(b, from, d, mover, immune);
      var n := |Ray(b, Offset(from, d.r, d.c), d).0|;
      var stop := Along(from, d, n + 1);
      var land := Along(from, d, n + 2);
      && (forall i :: 1 <= i <= n ==> Playable(Along(from, d, i)) && Vacant(b, Along(from, d, i)))
      && !(Playable(stop) && Vacant(b, stop))
      && |dir| == (if CanJump(b, stop, land, mover, immune) then n + 1 else n)
      && (forall i :: 0 <= i < n ==> dir[i] == Plain(Along(from, d, i + 1)))
      && (|dir| == n + 1 ==> dir[n] == Capture(land, stop))
  {
    var start := Offset(from, d.r, d.c);
    RayShape(b, start, d);
    var n := |Ray(b, start, d).0|;
    forall i | 0 <= i <= n + 1
      ensures Along(start, d, i) == Along(from, d, i + 1)
    {
      assert (i + 1) * d.r == i * d.r + d.r;
      assert (i + 1) * d.c == i * d.c + d.c;
    }
    forall i | 1 <= i <= n
      ensures Playable(Along(from, d, i)) && Vacant(b, Along(from, d, i))
    {
      assert Along(from, d, i) == Along(start, d, i - 1);
    }
    var ray := Ray(b, start, d);
    var stop := Along(from, d, n + 1);
    var land := Along(from, d, n + 2);
    assert ray.1 == stop;
    assert Offset(ray.1, d.r, d.c) == land by {
      assert (n + 2) * d.r == (n + 1) * d.r + d.r;
      assert (n + 2) * d.c == (n + 1) * d.c + d.c;
    }
    var dir := AmbassadorDir(b, from, d, mover, immune);
    assert dir == ray.0 + JumpIf(b, stop, land, mover, immune);
  }

  lemma {:induction false} AmbassadorUpToMembers(b: Board, from: Coord, k: int, mover: Player, immune: Option<Coord>, m: Move)
    requires WellFormed(b) && 0 <= k <= |Directions|
    ensures m in AmbassadorUpTo(b, from, k, mover, immune) <==>
      exists j :: 0 <= j < k && m in AmbassadorPass(b, from, j, mover, immune)
  {
    if k > 0 {
      AmbassadorUpToMembers(b, from, k - 1, mover, immune, m);
      var last := AmbassadorPass(b, from, k - 1, mover, immune);
      assert AmbassadorUpTo(b, from, k, mover, immune) == AmbassadorUpTo(b, from, k - 1, mover, immune) + last;
      if m in last {
        assert 0 <= k - 1 < k && m in AmbassadorPass(b, from, k - 1, mover, immune);
      }
    }
  }

  /** An Ambassador's moves are those of its eight directions. */
  lemma AmbassadorMembers(b: Board, from: Coord, mover: Player, immune: Option<Coord>, m: Move)
    requires WellFormed(b)
    ensures m in AmbassadorMoves(b, from, mover, immune) <==>
      exists j :: 0 <= j < |Directions| && m in AmbassadorPass(b, from, j, mover, immune)
  {
    AmbassadorUpToMembers(b, from, |Directions|, mover, immune, m);
  }

  lemma EmperorRowMembers(b: Board, from: Coord, dr: int, mover: Player, immune: Option<Coord>, m: Move)
    requires WellFormed(b)
    ensures m in EmperorRow(b, from, dr, 2, mover, immune) <==>
      m in EmperorDir(b, from, dr, -1, mover, immune) || m in EmperorDir(b, from, dr, 0, mover, immune)
      || m in EmperorDir(b, from, dr, 1, mover, immune)
  {
    assert EmperorRow(b, from, dr, 2, mover, immune)
      == EmperorDir(b, from, dr, -1, mover, immune) + EmperorDir(b, from, dr, 0, mover, immune)
         + EmperorDir(b, from, dr, 1, mover, immune);
  }

  lemma EmperorDirMembers(b: Board, from: Coord, dr: int, dc: int, mover: Player, immune: Option<Coord>, m: Move)
    requires WellFormed(b)
    ensures m in EmperorDir(b, from, dr, dc, mover, immune) <==>
      && (dr != 0 || dc != 0)
      && (|| (m == Plain(Offset(from, dr, dc)) && Playable(m.to) && Vacant(b, m.to))
          || (m == Capture(Offset(from, 2 * dr, 2 * dc), Offset(from, dr, dc))
              && CanJump(b, m.jumped, m.to, mover, immune)))
  {
  }

  lemma EmperorLoops(b: Board, from: Coord, mover: Player, immune: Option<Coord>)
    requires WellFormed(b)
    ensures EmperorMoves(b, from, mover, immune)
      == EmperorRow(b, from, -1, 2, mover, immune) + EmperorRow(b, from, 0, 2, mover, immune)
         + EmperorRow(b, from, 1, 2, mover, immune)
  {
    assert EmperorUpTo(b, from, -1, mover, immune) == [];
    assert EmperorUpTo(b, from, 0, mover, immune) == EmperorRow(b, from, -1, 2, mover, immune);
    assert EmperorUpTo(b, from, 1, mover, immune) == EmperorUpTo(b, from, 0, mover, immune) + EmperorRow(b, from, 0, 2, mover, immune);
  }

  lemma EmperorMembers(b: Board, from: Coord, mover: Player, immune: Option<Coord>, m: Move)
    requires WellFormed(b)
    ensures m in EmperorMoves(b, from, mover, immune) <==>
      exists dr, dc :: -1 <= dr <= 1 && -1 <= dc <= 1 && m in EmperorDir(b, from, dr, dc, mover, immune)
  {
    EmperorLoops(b, from, mover, immune);
    EmperorRowMembers(b, from, -1, mover, immune, m);
    EmperorRowMembers(b, from, 0, mover, immune, m);
    EmperorRowMembers(b, from, 1, mover, immune, m);
    if exists dr, dc :: -1 <= dr <= 1 && -1 <= dc <= 1 && m in EmperorDir(b, from, dr, dc, mover, immune) {
      var dr, dc :| -1 <= dr <= 1 && -1 <= dc <= 1 && m in EmperorDir(b, from, dr, dc, mover, immune);
      assert dr == -1 || dr == 0 || dr == 1;
      assert dc == -1 || dc == 0 || dc == 1;
    }
  }

  /** An Emperor's plain moves go to the empty playable cells among its
      eight neighbours. */
  lemma EmperorPlainMoves(b: Board, from: Coord, mover: Player, immune: Option<Coord>, to: Coord)
    requires WellFormed(b)
    ensures Plain(to) in EmperorMoves(b, from, mover, immune) <==>
      && Playable(to) && Vacant(b, to) && to != from
      && from.r - 1 <= to.r <= from.r + 1 && from.c - 1 <= to.c <= from.c + 1
  {
    EmperorMembers(b, from, mover, immune, Plain(to));
    if Plain(to) in EmperorMoves(b, from, mover, immune) {
      var dr, dc :| -1 <= dr <= 1 && -1 <= dc <= 1 && Plain(to) in EmperorDir(b, from, dr, dc, mover, immune);
      EmperorDirMembers(b, from, dr, dc, mover, immune, Plain(to));
    }
    if Playable(to) && Vacant(b, to) && to != from && from.r - 1 <= to.r <= from.r + 1 && from.c - 1 <= to.c <= from.c + 1 {
      EmperorDirMembers(b, from, to.r - from.r, to.c - from.c, mover, immune, Plain(to));
    }
  }

  /** An Emperor captures by jumping one adjacent cell and landing on the
      cell beyond it in the same direction. */
  lemma EmperorCaptures(b: Board, from: Coord, mover: Player, immune: Option<Coord>, to: Coord, jumped: Coord)
    requires WellFormed(b)
    ensures Capture(to, jumped) in EmperorMoves(b, from, mover, immune) <==>
      && jumped != from
      && from.r - 1 <= jumped.r <= from.r + 1 && from.c - 1 <= jumped.c <= from.c + 1
      && to == Coord(2 * jumped.r - from.r, 2 * jumped.c - from.c)
      && CanJump(b, jumped, to, mover, immune)
  {
    var m := Capture(to, jumped);
    EmperorMembers(b, from, mover, immune, m);
    if m in EmperorMoves(b, from, mover, immune) {
      EmperorCaptureShape(b, from, mover, immune, to, jumped);
    } else if && jumped != from
       && from.r - 1 <= jumped.r <= from.r + 1 && from.c - 1 <= jumped.c <= from.c + 1
       && to == Coord(2 * jumped.r - from.r, 2 * jumped.c - from.c)
       && CanJump(b, jumped, to, mover, immune) {
      EmperorCaptureWitness(b, from, mover, immune, to, jumped);
    }
  }

  lemma EmperorCaptureShape(b: Board, from: Coord, mover: Player, immune: Option<Coord>, to: Coord, jumped: Coord)
    requires WellFormed(b)
    requires exists dr, dc :: -1 <= dr <= 1 && -1 <= dc <= 1 && Capture(to, jumped) in EmperorDir(b, from, dr, dc, mover, immune)
    ensures && jumped != from
      && from.r - 1 <= jumped.r <= from.r + 1 && from.c - 1 <= jumped.c <= from.c + 1
      && to == Coord(2 * jumped.r - from.r, 2 * jumped.c - from.c)
      && CanJump(b, jumped, to, mover, immune)
  {
    var m := Capture(to, jumped);
    var dr, dc :| -1 <= dr <= 1 && -1 <= dc <= 1 && m in EmperorDir(b, from, dr, dc, mover, immune);
    EmperorDirMembers(b, from, dr, dc, mover, immune, m);
  }

  lemma EmperorCaptureWitness(b: Board, from: Coord, mover: Player, immune: Option<Coord>, to: Coord, jumped: Coord)
    requires WellFormed(b)
    requires jumped != from
    requires from.r - 1 <= jumped.r <= from.r + 1 && from.c - 1 <= jumped.c <= from.c + 1
    requires to == Coord(2 * jumped.r - from.r, 2 * jumped.c - from.c)
    requires CanJump(b, jumped, to, mover, immune)
    ensures Capture(to, jumped) in EmperorDir(b, from, jumped.r - from.r, jumped.c - from.c, mover, immune)
  {
    EmperorDirMembers(b, from, jumped.r - from.r, jumped.c - from.c, mover, immune, Capture(to, jumped));
  }

  /** What every generated move guarantees: a plain move lands on an empty
      playable cell; a capture jumps a piece `mover` does not own, that is
      not the immune one, onto an empty cell of the grid. */
  predicate Sound(b: Board, m: Move, mover: Player, immune: Option<Coord>)
    requires WellFormed(b)
  {
    match m
    case Plain(to) => Playable(to) && Vacant(b, to)
    case Capture(to, jumped) => CanJump(b, jumped, to, mover, immune)
  }

  lemma GovernorSound(b: Board, from: Coord, player: Player, mover: Player, immune: Option<Coord>, m: Move)
    requires WellFormed(b) && At(b, from).Some?
    requires m in GovernorMoves(b, from, player, mover, immune)
    ensures Sound(b, m, mover, immune)
  {
    match m
    case Plain(to) => GovernorPlainMoves(b, from, player, mover, immune, to);
    case Capture(to, jumped) => GovernorCaptures(b, from, player, mover, immune, to, jumped);
  }

  lemma AmbassadorSound(b: Board, from: Coord, mover: Player, immune: Option<Coord>, m: Move)
    requires WellFormed(b)
    requires m in AmbassadorMoves(b, from, mover, immune)
    ensures Sound(b, m, mover, immune)
  {
    AmbassadorMembers(b, from, mover, immune, m);
    var j :| 0 <= j < |Directions| && m in AmbassadorPass(b, from, j, mover, immune);
    DirectionsAreDirections(j);
    var d := Directions[j];
    AmbassadorDirection(b, from, d, mover, immune);
    var dir := AmbassadorDir(b, from, d, mover, immune);
    var n := |Ray(b, Offset(from, d.r, d.c), d).0|;
    var i :| 0 <= i < |dir| && dir[i] == m;
    if i < n {
      assert m == Plain(Along(from, d, i + 1));
    }
  }

  lemma EmperorSound(b: Board, from: Coord, mover: Player, immune: Option<Coord>, m: Move)
    requires WellFormed(b)
    requires m in EmperorMoves(b, from, mover, immune)
    ensures Sound(b, m, mover, immune)
  {
    match m
    case Plain(to) => EmperorPlainMoves(b, from, mover, immune, to);
    case Capture(to, jumped) => EmperorCaptures(b, from, mover, immune, to, jumped);
  }

  /** Capture validity and immunity, for every piece kind: each generated
      capture jumps an opposing piece other than the last one flipped and
      lands on an empty cell of the grid; each plain move lands on an empty
      playable cell. */
  lemma GeneratedMovesSound(b: Board, from: Coord, mover: Player, immune: Option<Coord>)
    requires WellFormed(b)
    ensures forall m :: m in ValidMoves(b, from, mover, immune) ==> Sound(b, m, mover, immune)
  {
    forall m | m in ValidMoves(b, from, mover, immune)
      ensures Sound(b, m, mover, immune)
    {
      var piece := At(b, from).value;
      match piece.kind
      case Governor => GovernorSound(b, from, piece.player, mover, immune, m);
      case Ambassador => AmbassadorSound(b, from, mover, immune, m);
      case Emperor => EmperorSound(b, from, mover, immune, m);
    }
  }
}

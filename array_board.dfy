/**
 * The array board of src/board.rs: an 8x8 grid of optional stones indexed
 * [y][x], whose rules are checked by walking the eight neighbour directions
 * square by square. It is the brute-force counterpart of the bitboard engine.
 */
module ArrayBoard {
  import opened Wrappers
  import Parse

  datatype Stone = White | Black

  /** The other colour. */
  function Reverse(s: Stone): (r: Stone)
    ensures r != s
  {
    if s == Black then White else Black
  }

  lemma ReverseInvolution(s: Stone)
    ensures Reverse(Reverse(s)) == s
  {}

  const Size: nat := 8

  /** The neighbour offsets (dx, dy), in the order in which the scans try them. */
  const D: seq<(int, int)> := [(-1, -1), (-1, 0), (-1, 1), (0, -1), (0, 1), (1, -1), (1, 0), (1, 1)]

  predicate OnBoard(a: int, b: int) {
    0 <= a < Size && 0 <= b < Size
  }

  /** One step to a neighbour: each coordinate moves by at most one, and not both by none. */
  predicate Unit(dx: int, dy: int) {
    -1 <= dx <= 1 && -1 <= dy <= 1 && (dx != 0 || dy != 0)
  }

  lemma DirectionsAreUnits(i: nat)
    requires i < |D|
    ensures Unit(D[i].0, D[i].1)
  {}

  /** The neighbour of (x, y) at offset (dx, dy), or an error when it is off the board. */
  function AddCoord(x: nat, y: nat, dx: int, dy: int): (r: Result<(nat, nat), string>)
    ensures r.Ok? <==> OnBoard(x + dx, y + dy)
    ensures r.Ok? ==> r.value.0 == x + dx && r.value.1 == y + dy
    ensures r.Err? ==> r.error == "Out of range"
  {
    var a := x + dx;
    var b := y + dy;
    if !(0 <= a < Size && 0 <= b < Size) then Err("Out of range") else Ok((a, b))
  }

  /** A step and the opposite step lead back to the start. */
  lemma AddCoordBack(x: nat, y: nat, dx: int, dy: int)
    requires OnBoard(x, y) && AddCoord(x, y, dx, dy).Ok?
    ensures AddCoord(AddCoord(x, y, dx, dy).value.0, AddCoord(x, y, dx, dy).value.1, -dx, -dy) == Ok((x, y))
  {}

  /** A square named by its column x and row y. */
  datatype Square = Square(x: nat, y: nat)

  /**
   * `Square::parse`: the shared move-input parser, its pair read as a square.
   * On ASCII input it accepts exactly a letter `a`..`h` followed by a digit `0`..`7`.
   */
  function ParseSquare(input: string, isAlphabetic: char -> bool, isNumeric: char -> bool): (r: Result<Square, string>)
    ensures r.Ok? ==> OnBoard(r.value.x, r.value.y)
    ensures Parse.AsciiClasses(isAlphabetic, isNumeric) && Parse.Ascii(input) ==>
      (r.Ok? <==> |input| == 2 && 'a' <= input[0] <= 'h' && '0' <= input[1] <= '7')
    ensures Parse.AsciiClasses(isAlphabetic, isNumeric) && Parse.Ascii(input) && r.Ok? ==>
      Parse.Render(r.value.x, r.value.y) == input
    ensures r.Err? ==> r.error == Parse.InvalidInput
  {
    Parse.AsciiParseWhen(input, isAlphabetic, isNumeric);
    match Parse.InputParse(input, isAlphabetic, isNumeric)
    case Ok(c) =>
      if Parse.StrictParse(input).Ok? then Parse.RenderStrictParse(input); Ok(Square(c.0, c.1))
      else Ok(Square(c.0, c.1))
    case Err(e) => Err(e)
  }

  /** A board as a value: row y, column x is g[y][x]. */
  type Grid = seq<seq<Option<Stone>>>

  predicate IsGrid(g: Grid) {
    |g| == Size && forall y :: 0 <= y < Size ==> |g[y]| == Size
  }

  /** How far a walk along one coordinate can still go; it is 0 for a coordinate that does not move. */
  function Reach(a: int, d: int): nat {
    if d > 0 && a < Size then Size - a else if d < 0 && a >= 0 then a + 1 else 0
  }

  /**
   * The walk beyond (a, b) in direction (dx, dy): it passes over the stones of
   * the other colour and holds when it then meets a stone of `p`, rather than an
   * empty square or the edge.
   */
  predicate Closed(g: Grid, p: Stone, a: nat, b: nat, dx: int, dy: int)
    requires IsGrid(g) && OnBoard(a, b) && Unit(dx, dy)
    decreases Reach(a, dx), Reach(b, dy)
  {
    var next := AddCoord(a, b, dx, dy);
    next.Ok? &&
    var (na, nb) := next.value;
    (g[nb][na] == Some(p) || (g[nb][na] == Some(Reverse(p)) && Closed(g, p, na, nb, dx, dy)))
  }

  /** The squares the walk beyond (a, b) passes over: the stones of the other colour before the first that is not. */
  function Run(g: Grid, p: Stone, a: nat, b: nat, dx: int, dy: int): seq<(nat, nat)>
    requires IsGrid(g) && OnBoard(a, b) && Unit(dx, dy)
    decreases Reach(a, dx), Reach(b, dy)
  {
    var next := AddCoord(a, b, dx, dy);
    if next.Err? then []
    else
      var (na, nb) := next.value;
      if g[nb][na] == Some(Reverse(p)) then [(na, nb)] + Run(g, p, na, nb, dx, dy) else []
  }

  /** Moving one square from the front of a run to the end of the squares collected before it. */
  lemma AppendOne<T>(front: seq<T>, x: T, rest: seq<T>)
    ensures (front + [x]) + rest == front + ([x] + rest)
  {}

  /**
   * A stone of `p` on (x, y) brackets the line in direction (dx, dy): the
   * neighbour holds the other colour and the walk from it is closed by `p`.
   */
  predicate Brackets(g: Grid, p: Stone, x: nat, y: nat, dx: int, dy: int)
    requires IsGrid(g) && OnBoard(x, y)
  {
    var next := AddCoord(x, y, dx, dy);
    Unit(dx, dy) && next.Ok? &&
    g[next.value.1][next.value.0] == Some(Reverse(p)) && Closed(g, p, next.value.0, next.value.1, dx, dy)
  }

  /** The rule of the game: an empty square from which some direction is bracketed. */
  ghost predicate Available(g: Grid, p: Stone, x: nat, y: nat)
    requires IsGrid(g) && OnBoard(x, y)
  {
    g[y][x].None? &&
    exists i :: 0 <= i < |D| && Brackets(g, p, x, y, D[i].0, D[i].1)
  }

  /**
   * The squares a stone of `p` on (x, y) turns over in direction (dx, dy): the
   * neighbour and the run behind it when the line is bracketed, none otherwise.
   */
  function LineFlips(g: Grid, p: Stone, x: nat, y: nat, dx: int, dy: int): seq<(nat, nat)>
    requires IsGrid(g) && OnBoard(x, y)
  {
    if Brackets(g, p, x, y, dx, dy) then
      var next := AddCoord(x, y, dx, dy).value;
      [next] + Run(g, p, next.0, next.1, dx, dy)
    else []
  }

  /** The squares turned over in the first n directions of D, in the order the move collects them. */
  function FlipsBelow(g: Grid, p: Stone, x: nat, y: nat, n: nat): seq<(nat, nat)>
    requires IsGrid(g) && OnBoard(x, y) && n <= |D|
  {
    if n == 0 then [] else FlipsBelow(g, p, x, y, n - 1) + LineFlips(g, p, x, y, D[n - 1].0, D[n - 1].1)
  }

  /** Every square a stone of `p` on (x, y) turns over. */
  function FlipList(g: Grid, p: Stone, x: nat, y: nat): seq<(nat, nat)>
    requires IsGrid(g) && OnBoard(x, y)
  {
    FlipsBelow(g, p, x, y, |D|)
  }

  // ---- The shape of a line: the k-th square of a run is k + 1 steps away ----

  /** The coordinate j steps away from a when each step moves it by d (-1, 0 or 1). */
  function Along(a: int, d: int, j: int): int {
    if d > 0 then a + j else if d < 0 then a - j else a
  }

  function Sign(v: int): int {
    if v > 0 then 1 else if v < 0 then -1 else 0
  }

  /** The index in D of the offset (dx, dy); 8 for no offset at all. */
  function Heading(dx: int, dy: int): nat {
    if dx < 0 then (if dy < 0 then 0 else if dy == 0 then 1 else 2)
    else if dx == 0 then (if dy < 0 then 3 else if dy == 0 then 8 else 4)
    else (if dy < 0 then 5 else if dy == 0 then 6 else 7)
  }

  /** The direction in which square c lies as seen from (x, y). */
  function HeadingOf(x: int, y: int, c: (int, int)): nat {
    Heading(Sign(c.0 - x), Sign(c.1 - y))
  }

  lemma HeadingAlong(x: int, y: int, i: nat, j: int)
    requires i < |D| && j >= 1
    ensures HeadingOf(x, y, (Along(x, D[i].0, j), Along(y, D[i].1, j))) == i
  {}

  lemma {:induction false} RunShape(g: Grid, p: Stone, x: int, y: int, dx: int, dy: int, t: nat, a: nat, b: nat)
    requires IsGrid(g) && OnBoard(a, b) && Unit(dx, dy)
    requires a == Along(x, dx, t) && b == Along(y, dy, t)
    ensures forall k :: 0 <= k < |Run(g, p, a, b, dx, dy)| ==>
              var c := Run(g, p, a, b, dx, dy)[k];
              c == (Along(x, dx, t + k + 1), Along(y, dy, t + k + 1)) &&
              OnBoard(c.0, c.1) && g[c.1][c.0] == Some(Reverse(p))
    decreases Reach(a, dx), Reach(b, dy)
  {
    var next := AddCoord(a, b, dx, dy);
    if next.Ok? {
      var (na, nb) := next.value;
      if g[nb][na] == Some(Reverse(p)) {
        RunShape(g, p, x, y, dx, dy, t + 1, na, nb);
      }
    }
  }

  // ---- The rule stated directly, without the walk ----

  /** The square j steps from (x, y) along (dx, dy). */
  function Ray(x: int, y: int, dx: int, dy: int, j: int): (int, int) {
    (Along(x, dx, j), Along(y, dy, j))
  }

  /** Square c is on the board and holds a stone of colour s. */
  predicate Holds(g: Grid, c: (int, int), s: Stone)
    requires IsGrid(g)
  {
    OnBoard(c.0, c.1) && g[c.1][c.0] == Some(s)
  }

  /** Beyond step t the line from (x, y) has stones of the other colour up to a stone of p at some step k. */
  ghost predicate ClosedAt(g: Grid, p: Stone, x: int, y: int, dx: int, dy: int, t: int)
    requires IsGrid(g)
  {
    exists k :: t < k && Holds(g, Ray(x, y, dx, dy, k), p) &&
      forall j :: t < j < k ==> Holds(g, Ray(x, y, dx, dy, j), Reverse(p))
  }

  /**
   * A stone of p on (x, y) brackets direction (dx, dy) exactly when, for some
   * k >= 2, the square k steps away holds p and every square before it holds
   * the other colour.
   */
  ghost predicate Sandwich(g: Grid, p: Stone, x: int, y: int, dx: int, dy: int)
    requires IsGrid(g)
  {
    Holds(g, Ray(x, y, dx, dy, 1), Reverse(p)) && ClosedAt(g, p, x, y, dx, dy, 1)
  }

  /** The next square of a walk that has gone t steps is step t + 1. */
  lemma NextOnRay(x: int, y: int, dx: int, dy: int, t: nat, a: nat, b: nat)
    requires OnBoard(a, b) && Unit(dx, dy) && (a, b) == Ray(x, y, dx, dy, t)
    ensures AddCoord(a, b, dx, dy).Ok? <==> OnBoard(Ray(x, y, dx, dy, t + 1).0, Ray(x, y, dx, dy, t + 1).1)
    ensures AddCoord(a, b, dx, dy).Ok? ==> AddCoord(a, b, dx, dy).value == Ray(x, y, dx, dy, t + 1)
  {}

  lemma {:induction false} ClosedToAt(g: Grid, p: Stone, x: int, y: int, dx: int, dy: int, t: nat, a: nat, b: nat)
    requires IsGrid(g) && OnBoard(a, b) && Unit(dx, dy)
    requires (a, b) == Ray(x, y, dx, dy, t)
    requires Closed(g, p, a, b, dx, dy)
    ensures ClosedAt(g, p, x, y, dx, dy, t)
    decreases Reach(a, dx), Reach(b, dy)
  {
    NextOnRay(x, y, dx, dy, t, a, b);
    var (na, nb) := AddCoord(a, b, dx, dy).value;
    if g[nb][na] == Some(p) {
      assert Holds(g, Ray(x, y, dx, dy, t + 1), p);
    } else {
      ClosedToAt(g, p, x, y, dx, dy, t + 1, na, nb);
      var k :| t + 1 < k && Holds(g, Ray(x, y, dx, dy, k), p) &&
               forall j :: t + 1 < j < k ==> Holds(g, Ray(x, y, dx, dy, j), Reverse(p));
      assert Holds(g, Ray(x, y, dx, dy, t + 1), Reverse(p));
      assert forall j :: t < j < k ==> Holds(g, Ray(x, y, dx, dy, j), Reverse(p));
    }
  }

  lemma {:induction false} AtToClosed(g: Grid, p: Stone, x: int, y: int, dx: int, dy: int, t: nat, a: nat, b: nat, k: int)
    requires IsGrid(g) && OnBoard(a, b) && Unit(dx, dy)
    requires (a, b) == Ray(x, y, dx, dy, t)
    requires t < k && Holds(g, Ray(x, y, dx, dy, k), p)
    requires forall j :: t < j < k ==> Holds(g, Ray(x, y, dx, dy, j), Reverse(p))
    ensures Closed(g, p, a, b, dx, dy)
    decreases k - t
  {
    NextOnRay(x, y, dx, dy, t, a, b);
    if k > t + 1 {
      assert Holds(g, Ray(x, y, dx, dy, t + 1), Reverse(p));
      var (na, nb) := AddCoord(a, b, dx, dy).value;
      AtToClosed(g, p, x, y, dx, dy, t + 1, na, nb, k);
    }
  }

  lemma ClosedIff(g: Grid, p: Stone, x: int, y: int, dx: int, dy: int, t: nat, a: nat, b: nat)
    requires IsGrid(g) && OnBoard(a, b) && Unit(dx, dy)
    requires (a, b) == Ray(x, y, dx, dy, t)
    ensures Closed(g, p, a, b, dx, dy) <==> ClosedAt(g, p, x, y, dx, dy, t)
  {
    if Closed(g, p, a, b, dx, dy) {
      ClosedToAt(g, p, x, y, dx, dy, t, a, b);
    }
    if ClosedAt(g, p, x, y, dx, dy, t) {
      var k :| t < k && Holds(g, Ray(x, y, dx, dy, k), p) &&
               forall j :: t < j < k ==> Holds(g, Ray(x, y, dx, dy, j), Reverse(p));
      AtToClosed(g, p, x, y, dx, dy, t, a, b, k);
    }
  }

  /** The walk of the scans agrees with the direct statement of the rule. */
  lemma BracketsIffSandwich(g: Grid, p: Stone, x: nat, y: nat, dx: int, dy: int)
    requires IsGrid(g) && OnBoard(x, y) && Unit(dx, dy)
    ensures Brackets(g, p, x, y, dx, dy) <==> Sandwich(g, p, x, y, dx, dy)
  {
    var first := Ray(x, y, dx, dy, 1);
    if OnBoard(first.0, first.1) {
      ClosedIff(g, p, x, y, dx, dy, 1, first.0, first.1);
    }
  }

  /**
   * is_available_square's rule, stated directly: an empty square and some
   * direction of D with stones of the other colour up to a stone of p.
   */
  lemma AvailableIffSandwich(g: Grid, p: Stone, x: nat, y: nat)
    requires IsGrid(g) && OnBoard(x, y)
    ensures Available(g, p, x, y) <==>
            g[y][x].None? && exists i :: 0 <= i < |D| && Sandwich(g, p, x, y, D[i].0, D[i].1)
  {
    forall i | 0 <= i < |D|
      ensures Brackets(g, p, x, y, D[i].0, D[i].1) <==> Sandwich(g, p, x, y, D[i].0, D[i].1)
    {
      BracketsIffSandwich(g, p, x, y, D[i].0, D[i].1);
    }
  }

  ghost predicate Distinct<T>(s: seq<T>) {
    forall k, l :: 0 <= k < l < |s| ==> s[k] != s[l]
  }

  /** The squares of one line lie one after another in its direction and hold the other colour. */
  lemma LineShape(g: Grid, p: Stone, x: nat, y: nat, i: nat)
    requires IsGrid(g) && OnBoard(x, y) && i < |D|
    ensures forall k :: 0 <= k < |LineFlips(g, p, x, y, D[i].0, D[i].1)| ==>
              var c := LineFlips(g, p, x, y, D[i].0, D[i].1)[k];
              c == (Along(x, D[i].0, k + 1), Along(y, D[i].1, k + 1)) &&
              OnBoard(c.0, c.1) && g[c.1][c.0] == Some(Reverse(p))
  {
    var (dx, dy) := D[i];
    if Brackets(g, p, x, y, dx, dy) {
      var next := AddCoord(x, y, dx, dy).value;
      RunShape(g, p, x, y, dx, dy, 1, next.0, next.1);
    }
  }

  /**
   * What the move has collected from the first n directions: distinct squares
   * holding the other colour, each lying in one of those directions.
   */
  ghost predicate Collected(g: Grid, p: Stone, x: nat, y: nat, s: seq<(nat, nat)>, n: nat)
    requires IsGrid(g)
  {
    Distinct(s) &&
    forall c :: c in s ==> OnBoard(c.0, c.1) && g[c.1][c.0] == Some(Reverse(p)) && HeadingOf(x, y, c) < n
  }

  lemma LineCollected(g: Grid, p: Stone, x: nat, y: nat, i: nat)
    requires IsGrid(g) && OnBoard(x, y) && i < |D|
    ensures Distinct(LineFlips(g, p, x, y, D[i].0, D[i].1))
    ensures forall c :: c in LineFlips(g, p, x, y, D[i].0, D[i].1) ==>
              OnBoard(c.0, c.1) && g[c.1][c.0] == Some(Reverse(p)) && HeadingOf(x, y, c) == i
  {
    var line := LineFlips(g, p, x, y, D[i].0, D[i].1);
    LineShape(g, p, x, y, i);
    forall c | c in line
      ensures HeadingOf(x, y, c) == i
    {
      var k :| 0 <= k < |line| && line[k] == c;
      HeadingAlong(x, y, i, k + 1);
    }
  }

  lemma DistinctConcat<T>(s: seq<T>, t: seq<T>)
    requires Distinct(s) && Distinct(t)
    requires forall c :: c in s ==> c !in t
    ensures Distinct(s + t)
  {
    forall k, l | 0 <= k < l < |s + t|
      ensures (s + t)[k] != (s + t)[l]
    {
      if k < |s| <= l {
        assert (s + t)[k] in s && (s + t)[l] in t;
      }
    }
  }

  lemma {:induction false} FlipsBelowCollected(g: Grid, p: Stone, x: nat, y: nat, n: nat)
    requires IsGrid(g) && OnBoard(x, y) && n <= |D|
    ensures Collected(g, p, x, y, FlipsBelow(g, p, x, y, n), n)
  {
    if n > 0 {
      FlipsBelowCollected(g, p, x, y, n - 1);
      LineCollected(g, p, x, y, n - 1);
      var front := FlipsBelow(g, p, x, y, n - 1);
      var line := LineFlips(g, p, x, y, D[n - 1].0, D[n - 1].1);
      forall c | c in front
        ensures c !in line
      {}
      DistinctConcat(front, line);
    }
  }

  // ---- Boards as values: the opening layout, stone sets, the board after a move ----

  /** The opening layout: White on (3, 3) and (4, 4), Black on (4, 3) and (3, 4), as (x, y). */
  function InitialAt(a: int, b: int): Option<Stone> {
    if (a, b) == (3, 3) || (a, b) == (4, 4) then Some(White)
    else if (a, b) == (4, 3) || (a, b) == (3, 4) then Some(Black)
    else None
  }

  function Initial(): (g: Grid)
    ensures IsGrid(g)
    ensures forall a, b :: OnBoard(a, b) ==> g[b][a] == InitialAt(a, b)
  {
    seq(Size, b => seq(Size, a => InitialAt(a, b)))
  }

  /** Two grids that agree on every square are the same grid. */
  lemma GridExt(g: Grid, h: Grid)
    requires IsGrid(g) && IsGrid(h)
    requires forall a, b :: OnBoard(a, b) ==> g[b][a] == h[b][a]
    ensures g == h
  {
    forall b | 0 <= b < Size
      ensures g[b] == h[b]
    {
      assert forall a :: 0 <= a < Size ==> g[b][a] == h[b][a];
    }
  }

  /**
   * The board after a stone of `s` is put on (x, y): that square and every
   * square the move turns over hold `s`, the rest is as before.
   */
  ghost function AfterPut(g: Grid, s: Stone, x: nat, y: nat): (h: Grid)
    requires IsGrid(g) && OnBoard(x, y)
    ensures IsGrid(h)
    ensures forall a, b :: OnBoard(a, b) ==>
              h[b][a] == if (a, b) == (x, y) || (a, b) in FlipList(g, s, x, y) then Some(s) else g[b][a]
  {
    seq(Size, b requires 0 <= b < Size =>
      seq(Size, a requires 0 <= a < Size =>
        if (a, b) == (x, y) || (a, b) in FlipList(g, s, x, y) then Some(s) else g[b][a]))
  }

  /** Square s comes before t in get_available_squares' order: by x, then by y. */
  predicate Before(s: (nat, nat), t: (nat, nat)) {
    s.0 < t.0 || (s.0 == t.0 && s.1 < t.1)
  }

  /**
   * Whether c is available, one level of recursion deep: the scans of the whole
   * board then treat it as a unit and unfold it only through PlayableDef.
   */
  ghost predicate Playable(g: Grid, p: Stone, c: (nat, nat), depth: nat)
    requires IsGrid(g)
  {
    if depth == 0 then OnBoard(c.0, c.1) && Available(g, p, c.0, c.1) else Playable(g, p, c, depth - 1)
  }

  lemma PlayableDef(g: Grid, p: Stone, c: (nat, nat))
    requires IsGrid(g)
    ensures Playable(g, p, c, 1) <==> OnBoard(c.0, c.1) && Available(g, p, c.0, c.1)
  {
    assert Playable(g, p, c, 1) == Playable(g, p, c, 0);
  }

  /**
   * The squares found so far by get_available_squares, having scanned every
   * column before i and the first j squares of column i: exactly the available
   * ones among them, in scan order.
   */
  ghost predicate Listed(g: Grid, player: Stone, squares: seq<(nat, nat)>, i: nat, j: nat)
    requires IsGrid(g)
  {
    (forall c :: c in squares <==> Before(c, (i, j)) && Playable(g, player, c, 1)) &&
    (forall k, l :: 0 <= k < l < |squares| ==> Before(squares[k], squares[l]))
  }

  lemma ListedStep(g: Grid, player: Stone, squares: seq<(nat, nat)>, i: nat, j: nat, available: bool)
    requires IsGrid(g) && OnBoard(i, j) && Listed(g, player, squares, i, j)
    requires available == Playable(g, player, (i, j), 1)
    ensures Listed(g, player, if available then squares + [(i, j)] else squares, i, j + 1)
  {
    var next := if available then squares + [(i, j)] else squares;
    forall c
      ensures c in next <==> Before(c, (i, j + 1)) && Playable(g, player, c, 1)
    {
      if c == (i, j) {
        assert !Before(c, (i, j));
      } else {
        assert Before(c, (i, j + 1)) == Before(c, (i, j));
      }
    }
    forall k, l | 0 <= k < l < |next|
      ensures Before(next[k], next[l])
    {
      if l == |squares| {
        assert next[k] in squares;
      }
    }
  }

  lemma ListedColumn(g: Grid, player: Stone, squares: seq<(nat, nat)>, i: nat)
    requires IsGrid(g) && Listed(g, player, squares, i, Size)
    ensures Listed(g, player, squares, i + 1, 0)
  {
    forall c
      ensures c in squares <==> Before(c, (i + 1, 0)) && Playable(g, player, c, 1)
    {
      PlayableDef(g, player, c);
    }
  }

  lemma ListedAll(g: Grid, player: Stone, squares: seq<(nat, nat)>)
    requires IsGrid(g) && Listed(g, player, squares, Size, 0)
    ensures forall c :: c in squares <==> OnBoard(c.0, c.1) && Available(g, player, c.0, c.1)
    ensures forall k, l :: 0 <= k < l < |squares| ==> Before(squares[k], squares[l])
  {
    forall c
      ensures c in squares <==> OnBoard(c.0, c.1) && Available(g, player, c.0, c.1)
    {
      PlayableDef(g, player, c);
    }
  }

  /** The k-th collected square is new, is not the target, and holds the other colour. */
  lemma FlipStep(g: Grid, stone: Stone, x: nat, y: nat, list: seq<(nat, nat)>, k: nat)
    requires IsGrid(g) && Collected(g, stone, x, y, list, |D|) && k < |list|
    ensures OnBoard(list[k].0, list[k].1) && list[k] != (x, y) && list[k] !in list[..k]
    ensures g[list[k].1][list[k].0] == Some(Reverse(stone))
    ensures forall c :: c in list[..k + 1] <==> c in list[..k] || c == list[k]
  {
    assert list[k] in list;
    assert list[..k + 1] == list[..k] + [list[k]];
  }

  lemma PutDone(g: Grid, stone: Stone, x: nat, y: nat, list: seq<(nat, nat)>, h: Grid)
    requires IsGrid(g) && IsGrid(h) && OnBoard(x, y) && list == FlipList(g, stone, x, y)
    requires forall a, b :: OnBoard(a, b) ==>
               h[b][a] == if (a, b) == (x, y) || (a, b) in list[..|list|] then Some(stone) else g[b][a]
    ensures h == AfterPut(g, stone, x, y)
  {
    assert list[..|list|] == list;
    GridExt(h, AfterPut(g, stone, x, y));
  }

  datatype PutError = CannotPut(stone: Stone, x: nat, y: nat)

  // ---- Counting stones ----

  function Squares(): set<(nat, nat)> {
    set a: nat, b: nat | a < Size && b < Size :: (a, b)
  }

  lemma SquaresHas(c: (nat, nat))
    ensures c in Squares() <==> OnBoard(c.0, c.1)
  {
    if OnBoard(c.0, c.1) {
      assert c == (c.0, c.1);
    }
  }

  /** The squares holding a stone of colour s. */
  ghost function Stones(g: Grid, s: Stone): set<(nat, nat)>
    requires IsGrid(g)
  {
    set c | c in Squares() && g[c.1][c.0] == Some(s)
  }

  /** The same, among the first n squares in row-by-row order. */
  ghost function StonesBefore(g: Grid, s: Stone, n: int): set<(nat, nat)>
    requires IsGrid(g)
  {
    set c | c in Squares() && Size * c.1 + c.0 < n && g[c.1][c.0] == Some(s)
  }

  lemma StonesBeforeHas(g: Grid, s: Stone, n: int, c: (nat, nat))
    requires IsGrid(g)
    ensures c in StonesBefore(g, s, n) <==> OnBoard(c.0, c.1) && Size * c.1 + c.0 < n && g[c.1][c.0] == Some(s)
  {
    SquaresHas(c);
  }

  lemma StonesStepAt(g: Grid, s: Stone, i: nat, j: nat, c: (nat, nat))
    requires IsGrid(g) && OnBoard(j, i)
    ensures c in StonesBefore(g, s, Size * i + j + 1) <==>
            c in StonesBefore(g, s, Size * i + j) || (c == (j, i) && g[i][j] == Some(s))
  {
    StonesBeforeHas(g, s, Size * i + j, c);
    StonesBeforeHas(g, s, Size * i + j + 1, c);
  }

  lemma StonesStep(g: Grid, s: Stone, i: nat, j: nat)
    requires IsGrid(g) && OnBoard(j, i)
    ensures |StonesBefore(g, s, Size * i + j + 1)| == |StonesBefore(g, s, Size * i + j)| + if g[i][j] == Some(s) then 1 else 0
  {
    var before := StonesBefore(g, s, Size * i + j);
    var after := StonesBefore(g, s, Size * i + j + 1);
    var added: set<(nat, nat)> := if g[i][j] == Some(s) then {(j, i)} else {};
    forall c
      ensures c in after <==> c in before + added
    {
      StonesStepAt(g, s, i, j, c);
    }
    StonesBeforeHas(g, s, Size * i + j, (j, i));
    assert after == before + added;
    assert (j, i) !in before;
  }

  lemma StonesAll(g: Grid, s: Stone)
    requires IsGrid(g)
    ensures StonesBefore(g, s, Size * Size) == Stones(g, s)
  {
    forall c | c in Squares()
      ensures Size * c.1 + c.0 < Size * Size
    {
      SquaresHas(c);
    }
  }

  // ---- What the rules promise ----

  /** The opening layout holds two stones of each colour. */
  lemma InitialCounts()
    ensures |Stones(Initial(), Black)| == 2 && |Stones(Initial(), White)| == 2
  {
    forall c | c in Squares()
      ensures OnBoard(c.0, c.1)
    {
      SquaresHas(c);
    }
    SquaresHas((4, 3));
    SquaresHas((3, 4));
    SquaresHas((3, 3));
    SquaresHas((4, 4));
    assert Stones(Initial(), Black) == {(4, 3), (3, 4)};
    assert Stones(Initial(), White) == {(3, 3), (4, 4)};
  }

  lemma {:induction false} DistinctCard<T>(s: seq<T>)
    requires Distinct(s)
    ensures |Elems(s)| == |s|
  {
    if s != [] {
      var t := s[..|s| - 1];
      assert Distinct(t);
      DistinctCard(t);
      assert Elems(s) == Elems(t) + {s[|s| - 1]};
    }
  }

  lemma StonesHas(g: Grid, s: Stone, c: (nat, nat))
    requires IsGrid(g)
    ensures c in Stones(g, s) <==> OnBoard(c.0, c.1) && g[c.1][c.0] == Some(s)
  {
    SquaresHas(c);
  }

  /** The squares of a list, as a set. */
  function Elems<T>(s: seq<T>): set<T> {
    set c | c in s
  }

  lemma PutMine(g: Grid, s: Stone, x: nat, y: nat)
    requires IsGrid(g) && OnBoard(x, y) && g[y][x].None?
    requires Collected(g, s, x, y, FlipList(g, s, x, y), |D|)
    ensures Stones(AfterPut(g, s, x, y), s) == Stones(g, s) + {(x, y)} + Elems(FlipList(g, s, x, y))
    ensures (x, y) !in Stones(g, s) && (x, y) !in Elems(FlipList(g, s, x, y))
    ensures Stones(g, s) !! Elems(FlipList(g, s, x, y))
  {
    var h := AfterPut(g, s, x, y);
    forall c
      ensures c in Stones(h, s) <==> c in Stones(g, s) + {(x, y)} + Elems(FlipList(g, s, x, y))
      ensures c in Elems(FlipList(g, s, x, y)) ==> c !in Stones(g, s)
    {
      StonesHas(h, s, c);
      StonesHas(g, s, c);
    }
    StonesHas(g, s, (x, y));
  }

  lemma PutTheirs(g: Grid, s: Stone, x: nat, y: nat)
    requires IsGrid(g) && OnBoard(x, y) && g[y][x].None?
    requires Collected(g, s, x, y, FlipList(g, s, x, y), |D|)
    ensures Stones(AfterPut(g, s, x, y), Reverse(s)) == Stones(g, Reverse(s)) - Elems(FlipList(g, s, x, y))
    ensures Elems(FlipList(g, s, x, y)) <= Stones(g, Reverse(s))
  {
    var h := AfterPut(g, s, x, y);
    forall c
      ensures c in Stones(h, Reverse(s)) <==> c in Stones(g, Reverse(s)) - Elems(FlipList(g, s, x, y))
      ensures c in Elems(FlipList(g, s, x, y)) ==> c in Stones(g, Reverse(s))
    {
      StonesHas(h, Reverse(s), c);
      StonesHas(g, Reverse(s), c);
    }
  }

  /** Cardinalities when one square and a set of taken squares pass from one side to the other. */
  lemma TransferCard<T>(mine: set<T>, theirs: set<T>, q: T, taken: set<T>, mine': set<T>, theirs': set<T>)
    requires q !in mine && q !in taken && mine !! taken && taken <= theirs
    requires mine' == mine + {q} + taken && theirs' == theirs - taken
    ensures |mine'| == |mine| + 1 + |taken| && |theirs'| == |theirs| - |taken|
  {
    assert |mine + {q}| == |mine| + 1;
    assert theirs == theirs' + taken;
  }

  /**
   * On an empty square a move adds the placed stone and every stone it turns
   * over to the mover's count, and takes the turned stones from the opponent's.
   */
  lemma PutCounts(g: Grid, s: Stone, x: nat, y: nat)
    requires IsGrid(g) && OnBoard(x, y) && g[y][x].None?
    ensures |Stones(AfterPut(g, s, x, y), s)| == |Stones(g, s)| + 1 + |FlipList(g, s, x, y)|
    ensures |Stones(AfterPut(g, s, x, y), Reverse(s))| == |Stones(g, Reverse(s))| - |FlipList(g, s, x, y)|
  {
    FlipsBelowCollected(g, s, x, y, |D|);
    DistinctCard(FlipList(g, s, x, y));
    PutMine(g, s, x, y);
    PutTheirs(g, s, x, y);
    TransferCard(Stones(g, s), Stones(g, Reverse(s)), (x, y), Elems(FlipList(g, s, x, y)),
                 Stones(AfterPut(g, s, x, y), s), Stones(AfterPut(g, s, x, y), Reverse(s)));
  }

  lemma {:induction false} FlipsBelowNone(g: Grid, p: Stone, x: nat, y: nat, n: nat)
    requires IsGrid(g) && OnBoard(x, y) && n <= |D|
    ensures FlipsBelow(g, p, x, y, n) == [] <==> forall i :: 0 <= i < n ==> !Brackets(g, p, x, y, D[i].0, D[i].1)
  {
    if n > 0 {
      FlipsBelowNone(g, p, x, y, n - 1);
      var front := FlipsBelow(g, p, x, y, n - 1);
      var line := LineFlips(g, p, x, y, D[n - 1].0, D[n - 1].1);
      assert |front + line| == |front| + |line|;
      assert line == [] <==> !Brackets(g, p, x, y, D[n - 1].0, D[n - 1].1);
      assert FlipsBelow(g, p, x, y, n) == front + line;
      assert (forall i :: 0 <= i < n ==> !Brackets(g, p, x, y, D[i].0, D[i].1))
         <==> (forall i :: 0 <= i < n - 1 ==> !Brackets(g, p, x, y, D[i].0, D[i].1)) && line == [];
    }
  }

  /** On an empty square, put succeeds exactly where is_available_square holds. */
  lemma PutIffAvailable(g: Grid, s: Stone, x: nat, y: nat)
    requires IsGrid(g) && OnBoard(x, y) && g[y][x].None?
    ensures FlipList(g, s, x, y) != [] <==> Available(g, s, x, y)
  {
    FlipsBelowNone(g, s, x, y, |D|);
  }

  class Board {
    /** The grid, indexed [y, x]. */
    const cells: array2<Option<Stone>>

    ghost predicate Valid() {
      cells.Length0 == Size && cells.Length1 == Size
    }

    /** The board as a value. */
    function Snapshot(): (g: Grid)
      reads cells
      requires Valid()
      ensures IsGrid(g)
      ensures forall a, b :: OnBoard(a, b) ==> g[b][a] == cells[b, a]
    {
      seq(Size, b requires 0 <= b < Size reads cells =>
        seq(Size, a requires 0 <= a < Size reads cells => cells[b, a]))
    }

    /** Board::new: the opening layout. */
    constructor ()
      ensures Valid() && fresh(cells)
      ensures Snapshot() == Initial()
    {
      var c := new Option<Stone>[Size, Size]((b, a) => None);
      c[3, 3] := Some(White);
      c[4, 4] := Some(White);
      c[3, 4] := Some(Black);
      c[4, 3] := Some(Black);
      cells := c;
      new;
      GridExt(Snapshot(), Initial());
    }
  
    /** One direction of is_available_square: whether the line from (x, y) along (dx, dy) is bracketed. */
    method Probe(player: Stone, x: nat, y: nat, dx: int, dy: int) returns (found: bool)
      requires Valid() && OnBoard(x, y) && Unit(dx, dy)
      ensures found == Brackets(Snapshot(), player, x, y, dx, dy)
    {
      ghost var g := Snapshot();
      var first := AddCoord(x, y, dx, dy);
      if first.Err? {
        return false;
      }
      var a, b := first.value.0, first.value.1;
      if cells[b, a] != Some(Reverse(player)) {
        return false;
      }
      var next := AddCoord(a, b, dx, dy);
      while next.Ok?
        invariant OnBoard(a, b) && next == AddCoord(a, b, dx, dy)
        invariant g[b][a] == Some(Reverse(player))
        invariant Closed(g, player, a, b, dx, dy) == Closed(g, player, first.value.0, first.value.1, dx, dy)
        decreases Reach(a, dx), Reach(b, dy)
      {
        a, b := next.value.0, next.value.1;
        if cells[b, a].None? {
          return false;
        }
        if cells[b, a] == Some(player) {
          return true;
        }
        assert cells[b, a].Some?;
        assert cells[b, a].value != player;
        assert cells[b, a] == Some(Reverse(player));
        next := AddCoord(a, b, dx, dy);
      }
      return false;
    }

    /** is_available_square: an empty square from which some direction of D is bracketed. */
    method IsAvailableSquare(player: Stone, x: nat, y: nat) returns (available: bool)
      requires Valid() && OnBoard(x, y)
      ensures available == Available(Snapshot(), player, x, y)
    {
      if cells[y, x].Some? {
        return false;
      }
      var i := 0;
      while i < |D|
        invariant 0 <= i <= |D|
        invariant forall k :: 0 <= k < i ==> !Brackets(Snapshot(), player, x, y, D[k].0, D[k].1)
      {
        var (dx, dy) := D[i];
        DirectionsAreUnits(i);
        var found := Probe(player, x, y, dx, dy);
        if found {
          return true;
        }
        i := i + 1;
      }
      return false;
    }

    /** get_available_squares: every available (x, y), column by column and down each column. */
    method GetAvailableSquares(player: Stone) returns (squares: seq<(nat, nat)>)
      requires Valid()
      ensures forall c :: c in squares <==> OnBoard(c.0, c.1) && Available(Snapshot(), player, c.0, c.1)
      ensures forall k, l :: 0 <= k < l < |squares| ==> Before(squares[k], squares[l])
    {
      ghost var g := Snapshot();
      squares := [];
      for i := 0 to Size
        invariant Listed(g, player, squares, i, 0)
      {
        for j := 0 to Size
          invariant Listed(g, player, squares, i, j)
        {
          var available := IsAvailableSquare(player, i, j);
          PlayableDef(g, player, (i, j));
          ListedStep(g, player, squares, i, j, available);
          if available {
            squares := squares + [(i, j)];
          }
        }
        ListedColumn(g, player, squares, i);
      }
      ListedAll(g, player, squares);
    }

    /** One direction of put's scan: the stones it turns over there, or none. */
    method CollectLine(stone: Stone, x: nat, y: nat, dx: int, dy: int) returns (taken: seq<(nat, nat)>)
      requires Valid() && OnBoard(x, y) && Unit(dx, dy)
      ensures taken == LineFlips(Snapshot(), stone, x, y, dx, dy)
    {
      ghost var g := Snapshot();
      taken := [];
      var first := AddCoord(x, y, dx, dy);
      if first.Err? {
        return;
      }
      var a, b := first.value.0, first.value.1;
      if cells[b, a] != Some(Reverse(stone)) {
        return;
      }
      var tmp := [(a, b)];
      var next := AddCoord(a, b, dx, dy);
      while next.Ok?
        invariant OnBoard(a, b) && next == AddCoord(a, b, dx, dy)
        invariant g[b][a] == Some(Reverse(stone))
        invariant Closed(g, stone, a, b, dx, dy) == Closed(g, stone, first.value.0, first.value.1, dx, dy)
        invariant tmp + Run(g, stone, a, b, dx, dy) == [first.value] + Run(g, stone, first.value.0, first.value.1, dx, dy)
        decreases Reach(a, dx), Reach(b, dy)
      {
        ghost var pa, pb := a, b;
        a, b := next.value.0, next.value.1;
        if cells[b, a].None? {
          return;
        }
        if cells[b, a] == Some(stone) {
          assert Run(g, stone, pa, pb, dx, dy) == [];
          taken := tmp;
          return;
        }
        assert cells[b, a].Some? && cells[b, a].value != stone;
        assert cells[b, a] == Some(Reverse(stone));
        assert Run(g, stone, pa, pb, dx, dy) == [(a, b)] + Run(g, stone, a, b, dx, dy);
        AppendOne(tmp, (a, b), Run(g, stone, a, b, dx, dy));
        tmp := tmp + [(a, b)];
        next := AddCoord(a, b, dx, dy);
      }
    }
  
    /** The scan of Board::put over the directions of D: every stone the move turns over. */
    method Collect(stone: Stone, x: nat, y: nat) returns (reverseStones: seq<(nat, nat)>)
      requires Valid() && OnBoard(x, y)
      ensures reverseStones == FlipList(Snapshot(), stone, x, y)
    {
      ghost var g := Snapshot();
      reverseStones := [];
      for i := 0 to |D|
        invariant reverseStones == FlipsBelow(g, stone, x, y, i)
      {
        var (dx, dy) := D[i];
        DirectionsAreUnits(i);
        var taken := CollectLine(stone, x, y, dx, dy);
        reverseStones := reverseStones + taken;
      }
    }

    /**
     * Board::put: collect, direction by direction in D's order, the stones each
     * bracketed line turns over; fail and leave the board as it is when there
     * are none, otherwise put the stone on (x, y) and turn every collected stone
     * over. Whether (x, y) is empty is not checked.
     */
    method Put(stone: Stone, x: nat, y: nat) returns (r: Result<(), PutError>)
      requires Valid() && OnBoard(x, y)
      modifies cells
      ensures r.Err? <==> old(FlipList(Snapshot(), stone, x, y)) == []
      ensures r.Err? ==> r.error == CannotPut(stone, x, y) && Snapshot() == old(Snapshot())
      ensures r.Ok? ==> Snapshot() == AfterPut(old(Snapshot()), stone, x, y)
    {
      ghost var g := Snapshot();
      var reverseStones := Collect(stone, x, y);
      if reverseStones == [] {
        return Err(CannotPut(stone, x, y));
      }
      FlipsBelowCollected(g, stone, x, y, |D|);
      cells[y, x] := Some(stone);
      for k := 0 to |reverseStones|
        invariant forall a, b :: OnBoard(a, b) ==>
                    cells[b, a] == if (a, b) == (x, y) || (a, b) in reverseStones[..k] then Some(stone) else g[b][a]
      {
        var (a, b) := reverseStones[k];
        FlipStep(g, stone, x, y, reverseStones, k);
        match cells[b, a]
        case Some(s) =>
          cells[b, a] := Some(Reverse(s));
        case None =>
          assert false;
      }
      PutDone(g, stone, x, y, reverseStones, Snapshot());
      return Ok(());
    }
  }

  datatype StoneCounter = StoneCounter(black: nat, white: nat)

  /** StoneCounter::count: the stones of each colour, counted row by row. */
  method Count(board: Board) returns (counter: StoneCounter)
    requires board.Valid()
    ensures counter.black == |Stones(board.Snapshot(), Black)|
    ensures counter.white == |Stones(board.Snapshot(), White)|
  {
    ghost var g := board.Snapshot();
    counter := StoneCounter(0, 0);
    for i := 0 to Size
      invariant counter.black == |StonesBefore(g, Black, Size * i)|
      invariant counter.white == |StonesBefore(g, White, Size * i)|
    {
      for j := 0 to Size
        invariant counter.black == |StonesBefore(g, Black, Size * i + j)|
        invariant counter.white == |StonesBefore(g, White, Size * i + j)|
      {
        StonesStep(g, Black, i, j);
        StonesStep(g, White, i, j);
        match board.cells[i, j]
        case Some(Black) => counter := counter.(black := counter.black + 1);
        case Some(White) => counter := counter.(white := counter.white + 1);
        case None =>
      }
    }
    StonesAll(g, Black);
    StonesAll(g, White);
  }
}

/**
 * Board geometry on square indices: the eight directions, single steps that stay
 * on the board, and how a shift of a bitboard moves its squares.
 */
module Geometry {
  import opened Bits

  datatype Dir = N | S | E | W | NE | NW | SE | SW

  function Opp(d: Dir): Dir {
    match d
    case N => S
    case S => N
    case E => W
    case W => E
    case NE => SW
    case SW => NE
    case NW => SE
    case SE => NW
  }

  /** Row 0 is the top row; column 0 the left column. */
  function Row(c: Square): bv7 { c >> 3 }

  function Col(c: Square): bv7 { c & 7 }

  /** Whether the neighbour of `c` in direction `d` is on the board. */
  predicate CanStep(c: Square, d: Dir) {
    match d
    case N => Row(c) > 0
    case S => Row(c) < 7
    case E => Col(c) < 7
    case W => Col(c) > 0
    case NE => Row(c) > 0 && Col(c) < 7
    case NW => Row(c) > 0 && Col(c) > 0
    case SE => Row(c) < 7 && Col(c) < 7
    case SW => Row(c) < 7 && Col(c) > 0
  }

  /** The index of the neighbour, computed without regard for the board's edges. */
  function Raw(c: bv7, d: Dir): bv7 {
    match d
    case N => c - 8
    case S => c + 8
    case E => c + 1
    case W => c - 1
    case NE => c - 7
    case SW => c + 7
    case NW => c - 9
    case SE => c + 9
  }

  function Step(c: Square, d: Dir): (n: Square)
    requires CanStep(c, d)
    ensures n == Raw(c, d)
  {
    Raw(c, d)
  }

  /** Every stone of `x` moved one square in direction `d`; no edge mask is applied. */
  function Move(x: bv64, d: Dir): bv64 {
    match d
    case N => x << 8
    case S => x >> 8
    case E => x >> 1
    case W => x << 1
    case NE => x << 7
    case SW => x >> 7
    case NW => x << 9
    case SE => x >> 9
  }

  lemma MoveTestN(x: bv64, c: Square)
    requires c < 56
    ensures ((x << 8) & Cell(c) != 0) == (x & Cell(c + 8) != 0)
  {}

  lemma MoveOffN(x: bv64, c: Square)
    requires c >= 56
    ensures (x << 8) & Cell(c) == 0
  {}

  lemma MoveHasN(x: bv64, c: Square)
    ensures Has(x << 8, c) == (c + 8 < 64 && Has(x, c + 8))
  {
    HasDef(x << 8, c);
    if c < 56 {
      HasDef(x, c + 8);
      MoveTestN(x, c);
    } else {
      MoveOffN(x, c);
    }
  }

  lemma MoveTestS(x: bv64, c: Square)
    requires c >= 8
    ensures ((x >> 8) & Cell(c) != 0) == (x & Cell(c - 8) != 0)
  {}

  lemma MoveOffS(x: bv64, c: Square)
    requires c < 8
    ensures (x >> 8) & Cell(c) == 0
  {}

  lemma MoveHasS(x: bv64, c: Square)
    ensures Has(x >> 8, c) == (c - 8 < 64 && Has(x, c - 8))
  {
    HasDef(x >> 8, c);
    if c >= 8 {
      HasDef(x, c - 8);
      MoveTestS(x, c);
    } else {
      MoveOffS(x, c);
    }
  }

  lemma MoveTestE(x: bv64, c: Square)
    requires c >= 1
    ensures ((x >> 1) & Cell(c) != 0) == (x & Cell(c - 1) != 0)
  {}

  lemma MoveOffE(x: bv64, c: Square)
    requires c < 1
    ensures (x >> 1) & Cell(c) == 0
  {}

  lemma MoveHasE(x: bv64, c: Square)
    ensures Has(x >> 1, c) == (c - 1 < 64 && Has(x, c - 1))
  {
    HasDef(x >> 1, c);
    if c >= 1 {
      HasDef(x, c - 1);
      MoveTestE(x, c);
    } else {
      MoveOffE(x, c);
    }
  }

  lemma MoveTestW(x: bv64, c: Square)
    requires c < 63
    ensures ((x << 1) & Cell(c) != 0) == (x & Cell(c + 1) != 0)
  {}

  lemma MoveOffW(x: bv64, c: Square)
    requires c >= 63
    ensures (x << 1) & Cell(c) == 0
  {}

  lemma MoveHasW(x: bv64, c: Square)
    ensures Has(x << 1, c) == (c + 1 < 64 && Has(x, c + 1))
  {
    HasDef(x << 1, c);
    if c < 63 {
      HasDef(x, c + 1);
      MoveTestW(x, c);
    } else {
      MoveOffW(x, c);
    }
  }

  lemma MoveTestNE(x: bv64, c: Square)
    requires c < 57
    ensures ((x << 7) & Cell(c) != 0) == (x & Cell(c + 7) != 0)
  {}

  lemma MoveOffNE(x: bv64, c: Square)
    requires c >= 57
    ensures (x << 7) & Cell(c) == 0
  {}

  lemma MoveHasNE(x: bv64, c: Square)
    ensures Has(x << 7, c) == (c + 7 < 64 && Has(x, c + 7))
  {
    HasDef(x << 7, c);
    if c < 57 {
      HasDef(x, c + 7);
      MoveTestNE(x, c);
    } else {
      MoveOffNE(x, c);
    }
  }

  lemma MoveTestSW(x: bv64, c: Square)
    requires c >= 7
    ensures ((x >> 7) & Cell(c) != 0) == (x & Cell(c - 7) != 0)
  {}

  lemma MoveOffSW(x: bv64, c: Square)
    requires c < 7
    ensures (x >> 7) & Cell(c) == 0
  {}

  lemma MoveHasSW(x: bv64, c: Square)
    ensures Has(x >> 7, c) == (c - 7 < 64 && Has(x, c - 7))
  {
    HasDef(x >> 7, c);
    if c >= 7 {
      HasDef(x, c - 7);
      MoveTestSW(x, c);
    } else {
      MoveOffSW(x, c);
    }
  }

  lemma MoveTestNW(x: bv64, c: Square)
    requires c < 55
    ensures ((x << 9) & Cell(c) != 0) == (x & Cell(c + 9) != 0)
  {}

  lemma MoveOffNW(x: bv64, c: Square)
    requires c >= 55
    ensures (x << 9) & Cell(c) == 0
  {}

  lemma MoveHasNW(x: bv64, c: Square)
    ensures Has(x << 9, c) == (c + 9 < 64 && Has(x, c + 9))
  {
    HasDef(x << 9, c);
    if c < 55 {
      HasDef(x, c + 9);
      MoveTestNW(x, c);
    } else {
      MoveOffNW(x, c);
    }
  }

  lemma MoveTestSE(x: bv64, c: Square)
    requires c >= 9
    ensures ((x >> 9) & Cell(c) != 0) == (x & Cell(c - 9) != 0)
  {}

  lemma MoveOffSE(x: bv64, c: Square)
    requires c < 9
    ensures (x >> 9) & Cell(c) == 0
  {}

  lemma MoveHasSE(x: bv64, c: Square)
    ensures Has(x >> 9, c) == (c - 9 < 64 && Has(x, c - 9))
  {
    HasDef(x >> 9, c);
    if c >= 9 {
      HasDef(x, c - 9);
      MoveTestSE(x, c);
    } else {
      MoveOffSE(x, c);
    }
  }

  /** A square of the moved word came from the square one step back. */
  lemma MoveHas(x: bv64, d: Dir, c: Square)
    ensures Has(Move(x, d), c) == (Raw(c, Opp(d)) < 64 && Has(x, Raw(c, Opp(d))))
  {
    match d
    case N => MoveHasN(x, c);
    case S => MoveHasS(x, c);
    case E => MoveHasE(x, c);
    case W => MoveHasW(x, c);
    case NE => MoveHasNE(x, c);
    case SW => MoveHasSW(x, c);
    case NW => MoveHasNW(x, c);
    case SE => MoveHasSE(x, c);
  }

  lemma StepBackCan(c: Square, d: Dir)
    requires CanStep(c, d)
    ensures CanStep(Step(c, d), Opp(d))
  {}

  lemma RawBack(c: bv7, d: Dir)
    ensures Raw(Raw(c, d), Opp(d)) == c
  {}

  /** A step followed by a step in the opposite direction returns to the start. */
  lemma StepBack(c: Square, d: Dir)
    requires CanStep(c, d)
    ensures CanStep(Step(c, d), Opp(d)) && Step(Step(c, d), Opp(d)) == c
  {
    StepBackCan(c, d);
    RawBack(c, d);
  }

  /** How far a walk in direction `d` can go: the rows (or columns) left ahead. */
  function Room(c: Square, d: Dir): bv7 {
    match d
    case N => Row(c)
    case NE => Row(c)
    case NW => Row(c)
    case S => 7 - Row(c)
    case SE => 7 - Row(c)
    case SW => 7 - Row(c)
    case E => 7 - Col(c)
    case W => Col(c)
  }

  lemma RoomStep(c: Square, d: Dir)
    requires CanStep(c, d)
    ensures Room(Step(c, d), d) == Room(c, d) - 1
  {}

  lemma RoomPositive(c: Square, d: Dir)
    requires CanStep(c, d)
    ensures Room(c, d) > 0
  {}

  lemma RoomBound(c: Square, d: Dir)
    ensures Room(c, d) <= 7
  {}

  lemma Predecessor(a: bv7)
    requires a > 0
    ensures (a - 1) as int == a as int - 1
  {}

  /** Every step uses up one unit of room, so walks along a line terminate. */
  lemma RoomShrinks(c: Square, d: Dir)
    requires CanStep(c, d)
    ensures Room(Step(c, d), d) as int < Room(c, d) as int
  {
    RoomStep(c, d);
    RoomPositive(c, d);
    Predecessor(Room(c, d));
  }

  /** Where the square one step back is on the board, a moved word holds what the original held there. */
  lemma MoveInto(x: bv64, d: Dir, c: Square)
    requires CanStep(c, Opp(d))
    ensures Has(Move(x, d), c) == Has(x, Step(c, Opp(d)))
  {
    MoveHas(x, d, c);
  }

  /** A word whose squares can all step in direction `d` moves without wrapping round an edge. */
  lemma MoveFits(x: bv64, d: Dir, c: Square)
    requires forall r: Square :: Has(x, r) ==> CanStep(r, d)
    ensures Has(Move(x, d), c) == (CanStep(c, Opp(d)) && Has(x, Step(c, Opp(d))))
  {
    MoveHas(x, d, c);
    var r := Raw(c, Opp(d));
    if r < 64 && Has(x, r) {
      StepBack(r, d);
      RawBack(c, Opp(d));
      OppOpp(d);
    }
  }

  lemma OppOpp(d: Dir)
    ensures Opp(Opp(d)) == d
  {}
}

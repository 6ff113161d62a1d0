/**
 * The bitboard engine of src/othello_logic.rs: legal moves, the stones a move
 * turns over, and the move itself, each on two 64-bit words (the side to move
 * and its opponent).
 */
module OthelloLogic {
  import opened Bits
  import opened BitCount
  import opened Geometry

  /** The shift amounts of the engine's tables: along a row (1), an anti-diagonal (7), a column (8), a diagonal (9). */
  type Amount = n: bv7 | n == 1 || n == 7 || n == 8 || n == 9 witness 1

  datatype ShiftOp = Shr | Shl

  /** `x >> n` or `x << n`, written out for the four amounts. */
  function Shift(op: ShiftOp, x: bv64, n: Amount): bv64 {
    match op
    case Shr => if n == 1 then x >> 1 else if n == 7 then x >> 7 else if n == 8 then x >> 8 else x >> 9
    case Shl => if n == 1 then x << 1 else if n == 7 then x << 7 else if n == 8 then x << 8 else x << 9
  }

  /** The direction in which a shift carries every stone of a word. */
  function Travel(op: ShiftOp, n: Amount): Dir {
    match op
    case Shr => if n == 1 then E else if n == 7 then SW else if n == 8 then S else SE
    case Shl => if n == 1 then W else if n == 7 then NE else if n == 8 then N else NW
  }

  lemma ShiftTravel(op: ShiftOp, x: bv64, n: Amount)
    ensures Shift(op, x, n) == Move(x, Travel(op, n))
  {}

  /**
   * A line of opponent stones that starts at `c`, runs in direction `d` and is
   * closed by a player stone.
   */
  predicate Run(player: bv64, opponent: bv64, c: Square, d: Dir)
    decreases Room(c, d) as int
  {
    Has(opponent, c) && CanStep(c, d) &&
    (RoomShrinks(c, d);
     Has(player, Step(c, d)) || Run(player, opponent, Step(c, d), d))
  }

  /** A stone placed on `q` brackets a line of opponent stones in direction `d`. */
  predicate Captures(player: bv64, opponent: bv64, q: Square, d: Dir) {
    CanStep(q, d) && Run(player, opponent, Step(q, d), d)
  }

  /** The rule of the game: an empty square from which some line is bracketed. */
  ghost predicate IsLegal(player: bv64, opponent: bv64, q: Square) {
    Vacant(player, opponent, q) && exists d: Dir :: Captures(player, opponent, q, d)
  }

  /** Square `q` holds no stone. */
  predicate Vacant(player: bv64, opponent: bv64, q: Square) {
    !Has(player, q) && !Has(opponent, q)
  }

  /** `c` is one of the opponent stones of the run that starts at `s`. */
  predicate InRun(player: bv64, opponent: bv64, s: Square, d: Dir, c: Square)
    decreases Room(s, d) as int
  {
    Run(player, opponent, s, d) &&
    (c == s ||
     (RoomShrinks(s, d);
      !Has(player, Step(s, d)) && InRun(player, opponent, Step(s, d), d, c)))
  }

  /** The stone on `c` turns over when a stone is placed on `q`, because of the line in direction `d`. */
  predicate Flips(player: bv64, opponent: bv64, q: Square, d: Dir, c: Square) {
    CanStep(q, d) && InRun(player, opponent, Step(q, d), d, c)
  }

  /** A run of at most t + 1 opponent stones: the reach of legal_move's fixed number of rounds. */
  predicate RunWithin(player: bv64, opponent: bv64, c: Square, d: Dir, t: nat)
    decreases t
  {
    Has(opponent, c) && CanStep(c, d) &&
    (Has(player, Step(c, d)) || (t > 0 && RunWithin(player, opponent, Step(c, d), d, t - 1)))
  }

  lemma {:induction false} RunWithinMono(player: bv64, opponent: bv64, c: Square, d: Dir, t: nat)
    requires RunWithin(player, opponent, c, d, t)
    ensures RunWithin(player, opponent, c, d, t + 1)
    decreases t
  {
    if t > 0 && !Has(player, Step(c, d)) {
      RunWithinMono(player, opponent, Step(c, d), d, t - 1);
    }
  }

  lemma RoomEmpty(c: Square, d: Dir)
    requires Room(c, d) == 0
    ensures !CanStep(c, d)
  {}

  /** Where the board leaves room for at most t + 1 steps, the bound on the run does not bind. */
  lemma {:induction false} RunWithinRoom(player: bv64, opponent: bv64, c: Square, d: Dir, t: nat)
    requires Room(c, d) as int <= t + 1
    ensures RunWithin(player, opponent, c, d, t) == Run(player, opponent, c, d)
    decreases t
  {
    if CanStep(c, d) {
      var n := Step(c, d);
      RoomStep(c, d);
      RoomPositive(c, d);
      Predecessor(Room(c, d));
      if t == 0 {
        RoomEmpty(n, d);
      } else {
        RunWithinRoom(player, opponent, n, d, t - 1);
      }
    }
  }

  /** Every stone of a run belongs to the opponent. */
  lemma {:induction false} InRunOpponent(player: bv64, opponent: bv64, s: Square, d: Dir, c: Square)
    requires InRun(player, opponent, s, d, c)
    ensures Has(opponent, c)
    decreases Room(s, d) as int
  {
    if c != s {
      RoomShrinks(s, d);
      InRunOpponent(player, opponent, Step(s, d), d, c);
    }
  }

  /** A run lies ahead of its start: its stones never have more room than the start. */
  lemma {:induction false} InRunAhead(player: bv64, opponent: bv64, s: Square, d: Dir, c: Square)
    requires InRun(player, opponent, s, d, c)
    ensures Room(c, d) as int <= Room(s, d) as int
    decreases Room(s, d) as int
  {
    if c != s {
      RoomShrinks(s, d);
      InRunAhead(player, opponent, Step(s, d), d, c);
    }
  }

  /** A direction turns over some stone exactly when it brackets a line. */
  lemma FlipsSome(player: bv64, opponent: bv64, q: Square, d: Dir)
    ensures Captures(player, opponent, q, d) == exists c: Square :: Flips(player, opponent, q, d, c)
  {
    if Captures(player, opponent, q, d) {
      assert Flips(player, opponent, q, d, Step(q, d));
    }
  }

  /** The stones turned over are opponent stones, and never the square played. */
  lemma FlipsOpponent(player: bv64, opponent: bv64, q: Square, d: Dir, c: Square)
    requires Flips(player, opponent, q, d, c)
    ensures Has(opponent, c) && c != q
  {
    InRunOpponent(player, opponent, Step(q, d), d, c);
    InRunAhead(player, opponent, Step(q, d), d, c);
    RoomShrinks(q, d);
  }

  /**
   * Both loops of the engine visit the eight directions as four shift amounts
   * times two shift directions. Line j (j = 2i + k for amount i and shift k)
   * is the direction legal_move looks in from a candidate square and the
   * direction reverse walks in; the two orders coincide. LegalLineFacts and
   * ReverseLineFacts tie each entry to the line's own shift.
   */
  const LineDirs: seq<Dir> := [W, E, NE, SW, N, S, NW, SE]

  function LineDir(j: nat): Dir
    requires j < 8
  {
    LineDirs[j]
  }

  /** The line that covers direction `d`. */
  function LineOf(d: Dir): (j: nat)
    ensures j < 8
  {
    match d
    case W => 0
    case E => 1
    case NE => 2
    case SW => 3
    case N => 4
    case S => 5
    case NW => 6
    case SE => 7
  }

  lemma LineOfDir(d: Dir)
    ensures LineDir(LineOf(d)) == d
  {}

  /*
   * legal_move
   */

  /** Per line of the board: the shift amount and the squares that have a neighbour on both sides along it. */
  const LegalMasks: seq<(Amount, bv64)> :=
    [(1, 0x7e7e_7e7e_7e7e_7e7e), (7, 0x007e_7e7e_7e7e_7e00), (8, 0x00ff_ffff_ffff_ff00), (9, 0x007e_7e7e_7e7e_7e00)]

  const LegalShifts: seq<ShiftOp> := [Shr, Shl]

  /** Some line among legal_move's first j lines is bracketed from `q`. */
  predicate CapturesBelow(player: bv64, opponent: bv64, q: Square, j: nat)
    requires j <= 8
  {
    j > 0 && (CapturesBelow(player, opponent, q, j - 1) || Captures(player, opponent, q, LineDir(j - 1)))
  }

  lemma {:induction false} CapturesBelowSome(player: bv64, opponent: bv64, q: Square, j: nat, k: nat)
    requires k < j <= 8
    requires Captures(player, opponent, q, LineDir(k))
    ensures CapturesBelow(player, opponent, q, j)
  {
    if k < j - 1 {
      CapturesBelowSome(player, opponent, q, j - 1, k);
    }
  }

  lemma {:induction false} CapturesBelowWitness(player: bv64, opponent: bv64, q: Square, j: nat)
    requires j <= 8
    requires CapturesBelow(player, opponent, q, j)
    ensures exists k: nat :: k < j && Captures(player, opponent, q, LineDir(k))
  {
    if !Captures(player, opponent, q, LineDir(j - 1)) {
      CapturesBelowWitness(player, opponent, q, j - 1);
    }
  }

  /** The eight lines of legal_move look in all eight directions. */
  lemma CapturesAllLines(player: bv64, opponent: bv64, q: Square)
    ensures CapturesBelow(player, opponent, q, 8) == exists d: Dir :: Captures(player, opponent, q, d)
  {
    if exists d: Dir :: Captures(player, opponent, q, d) {
      var d: Dir :| Captures(player, opponent, q, d);
      LineOfDir(d);
      CapturesBelowSome(player, opponent, q, 8, LineOf(d));
    }
    if CapturesBelow(player, opponent, q, 8) {
      CapturesBelowWitness(player, opponent, q, 8);
      var k: nat :| k < 8 && Captures(player, opponent, q, LineDir(k));
      assert Captures(player, opponent, q, LineDir(k));
    }
  }

  /** The mask keeps exactly the squares with a neighbour in direction `d` and in the opposite one. */
  ghost predicate LegalMaskFits(mask: bv64, d: Dir) {
    forall c: Square {:trigger Has(mask, c)} :: Has(mask, c) == (CanStep(c, d) && CanStep(c, Opp(d)))
  }

  lemma LegalMaskTestRow(c: Square)
    ensures (0x7e7e_7e7e_7e7e_7e7e & Cell(c) != 0) == (CanStep(c, E) && CanStep(c, W))
  {}

  lemma LegalMaskTestDiagonal(c: Square)
    ensures (0x007e_7e7e_7e7e_7e00 & Cell(c) != 0) == (CanStep(c, SW) && CanStep(c, NE))
  {}

  lemma LegalMaskTestColumn(c: Square)
    ensures (0x00ff_ffff_ffff_ff00 & Cell(c) != 0) == (CanStep(c, S) && CanStep(c, N))
  {}

  lemma LegalMaskTestDiagonal9(c: Square)
    ensures (0x007e_7e7e_7e7e_7e00 & Cell(c) != 0) == (CanStep(c, SE) && CanStep(c, NW))
  {}

  lemma LegalMaskRowFits()
    ensures LegalMaskFits(0x7e7e_7e7e_7e7e_7e7e, E)
  {
    forall c: Square ensures Has(0x7e7e_7e7e_7e7e_7e7e, c) == (CanStep(c, E) && CanStep(c, W)) {
      HasDef(0x7e7e_7e7e_7e7e_7e7e, c);
      LegalMaskTestRow(c);
    }
  }

  lemma LegalMaskDiagonalFits()
    ensures LegalMaskFits(0x007e_7e7e_7e7e_7e00, SW)
  {
    forall c: Square ensures Has(0x007e_7e7e_7e7e_7e00, c) == (CanStep(c, SW) && CanStep(c, NE)) {
      HasDef(0x007e_7e7e_7e7e_7e00, c);
      LegalMaskTestDiagonal(c);
    }
  }

  lemma LegalMaskColumnFits()
    ensures LegalMaskFits(0x00ff_ffff_ffff_ff00, S)
  {
    forall c: Square ensures Has(0x00ff_ffff_ffff_ff00, c) == (CanStep(c, S) && CanStep(c, N)) {
      HasDef(0x00ff_ffff_ffff_ff00, c);
      LegalMaskTestColumn(c);
    }
  }

  lemma LegalMaskDiagonal9Fits()
    ensures LegalMaskFits(0x007e_7e7e_7e7e_7e00, SE)
  {
    forall c: Square ensures Has(0x007e_7e7e_7e7e_7e00, c) == (CanStep(c, SE) && CanStep(c, NW)) {
      HasDef(0x007e_7e7e_7e7e_7e00, c);
      LegalMaskTestDiagonal9(c);
    }
  }

  lemma MaskFitsOpp(mask: bv64, d: Dir)
    requires LegalMaskFits(mask, d)
    ensures LegalMaskFits(mask, Opp(d))
  {
    OppOpp(d);
  }

  /** Line (i, k) of legal_move: its mask fits its direction, and it is line 2i + k of the order above. */
  lemma LegalLineFacts(i: nat, k: nat)
    requires i < 4 && k < 2
    ensures LegalMaskFits(LegalMasks[i].1, Travel(LegalShifts[k], LegalMasks[i].0))
    ensures LineDir(2 * i + k) == Opp(Travel(LegalShifts[k], LegalMasks[i].0))
  {
    assert (2 * i + k) / 2 == i && (2 * i + k) % 2 == k;
    if i == 0 {
      LegalMaskRowFits();
      MaskFitsOpp(0x7e7e_7e7e_7e7e_7e7e, E);
    } else if i == 1 {
      LegalMaskDiagonalFits();
      MaskFitsOpp(0x007e_7e7e_7e7e_7e00, SW);
    } else if i == 2 {
      LegalMaskColumnFits();
      MaskFitsOpp(0x00ff_ffff_ffff_ff00, S);
    } else {
      LegalMaskDiagonal9Fits();
      MaskFitsOpp(0x007e_7e7e_7e7e_7e00, SE);
    }
  }

  /**
   * The loop state of legal_move's inner loop after t rounds: `bits` holds the
   * opponent stones inside the mask from which a run of at most t + 1 stones
   * leads back, against direction `d`, to a player stone.
   */
  ghost predicate Spread(player: bv64, opponent: bv64, mask: bv64, d: Dir, bits: bv64, t: nat) {
    forall c: Square {:trigger Has(bits, c)} ::
      Has(bits, c) == (Has(mask, c) && RunWithin(player, opponent, c, Opp(d), t))
  }

  lemma SpreadInitAt(player: bv64, opponent: bv64, mask: bv64, d: Dir, masked: bv64, bits: bv64, c: Square)
    requires LegalMaskFits(mask, d)
    requires forall c: Square :: Has(masked, c) == (Has(mask, c) && Has(opponent, c))
    requires bits == masked & Move(player, d)
    ensures Has(bits, c) == (Has(mask, c) && RunWithin(player, opponent, c, Opp(d), 0))
  {
    HasAnd(masked, Move(player, d), c);
    if Has(mask, c) {
      MoveInto(player, d, c);
    }
  }

  /** Before the first round, the spread holds the masked opponent stones next to a player stone. */
  lemma SpreadInit(player: bv64, opponent: bv64, mask: bv64, d: Dir, masked: bv64, bits: bv64)
    requires LegalMaskFits(mask, d)
    requires forall c: Square :: Has(masked, c) == (Has(mask, c) && Has(opponent, c))
    requires bits == masked & Move(player, d)
    ensures Spread(player, opponent, mask, d, bits, 0)
  {
    forall c: Square
      ensures Has(bits, c) == (Has(mask, c) && RunWithin(player, opponent, c, Opp(d), 0))
    {
      SpreadInitAt(player, opponent, mask, d, masked, bits, c);
    }
  }

  /** A run within t + 1 stones either fits within t, or is one more stone before such a run. */
  lemma RunGrow(player: bv64, opponent: bv64, c: Square, d: Dir, t: nat)
    requires CanStep(c, d)
    ensures RunWithin(player, opponent, c, d, t + 1)
         == (RunWithin(player, opponent, c, d, t) || (Has(opponent, c) && RunWithin(player, opponent, Step(c, d), d, t)))
  {
    if RunWithin(player, opponent, c, d, t) {
      RunWithinMono(player, opponent, c, d, t);
    }
  }

  lemma SpreadStepAt(player: bv64, opponent: bv64, mask: bv64, d: Dir, masked: bv64, bits: bv64, t: nat,
                     reached: bv64, next: bv64, c: Square)
    requires LegalMaskFits(mask, d)
    requires forall c: Square :: Has(masked, c) == (Has(mask, c) && Has(opponent, c))
    requires Spread(player, opponent, mask, d, bits, t)
    requires reached == masked & Move(bits, d)
    requires next == bits | reached
    ensures Has(next, c) == (Has(mask, c) && RunWithin(player, opponent, c, Opp(d), t + 1))
  {
    HasOr(bits, reached, c);
    HasAnd(masked, Move(bits, d), c);
    if Has(mask, c) {
      var b := Step(c, Opp(d));
      MoveInto(bits, d, c);
      BehindInMask(mask, d, c);
      RunGrow(player, opponent, c, Opp(d), t);
    }
  }

  /** The square behind a masked square is in the mask whenever a run can continue from it. */
  lemma BehindInMask(mask: bv64, d: Dir, c: Square)
    requires LegalMaskFits(mask, d)
    requires CanStep(c, Opp(d))
    ensures Has(mask, Step(c, Opp(d))) == CanStep(Step(c, Opp(d)), Opp(d))
  {
    StepBackCan(c, Opp(d));
    OppOpp(d);
  }

  /** One round of the inner loop lets every run grow by one stone. */
  lemma SpreadStep(player: bv64, opponent: bv64, mask: bv64, d: Dir, masked: bv64, bits: bv64, t: nat,
                   reached: bv64, next: bv64)
    requires LegalMaskFits(mask, d)
    requires forall c: Square :: Has(masked, c) == (Has(mask, c) && Has(opponent, c))
    requires Spread(player, opponent, mask, d, bits, t)
    requires reached == masked & Move(bits, d)
    requires next == bits | reached
    ensures Spread(player, opponent, mask, d, next, t + 1)
  {
    forall c: Square
      ensures Has(next, c) == (Has(mask, c) && RunWithin(player, opponent, c, Opp(d), t + 1))
    {
      SpreadStepAt(player, opponent, mask, d, masked, bits, t, reached, next, c);
    }
  }

  /** The spread stays inside the mask, so all its squares can move in direction `d`. */
  lemma SpreadFits(player: bv64, opponent: bv64, mask: bv64, d: Dir, bits: bv64, t: nat)
    requires LegalMaskFits(mask, d)
    requires Spread(player, opponent, mask, d, bits, t)
    ensures forall r: Square :: Has(bits, r) ==> CanStep(r, d)
  {}

  /** Five rounds reach every run that can stand behind a square of the board. */
  lemma RunBehind(player: bv64, opponent: bv64, q: Square, d: Dir)
    requires CanStep(q, d)
    ensures RunWithin(player, opponent, Step(q, d), d, 5) == Run(player, opponent, Step(q, d), d)
  {
    RoomShrinks(q, d);
    RoomBound(q, d);
    RunWithinRoom(player, opponent, Step(q, d), d, 5);
  }

  /** After the last round, one more shift lands on exactly the squares that bracket a line in direction Opp(d). */
  lemma Landing(player: bv64, opponent: bv64, mask: bv64, d: Dir, bits: bv64, q: Square)
    requires LegalMaskFits(mask, d)
    requires Spread(player, opponent, mask, d, bits, 5)
    ensures Has(Move(bits, d), q) == Captures(player, opponent, q, Opp(d))
  {
    SpreadFits(player, opponent, mask, d, bits, 5);
    MoveFits(bits, d, q);
    if CanStep(q, Opp(d)) {
      BehindInMask(mask, d, q);
      RunBehind(player, opponent, q, Opp(d));
    }
  }

  /** The three steps of one line of legal_move, stated on the engine's own shifts. */
  lemma ShiftSpreadInit(player: bv64, opponent: bv64, mask: bv64, op: ShiftOp, n: Amount, masked: bv64, bits: bv64)
    requires LegalMaskFits(mask, Travel(op, n))
    requires forall c: Square :: Has(masked, c) == (Has(mask, c) && Has(opponent, c))
    requires bits == masked & Shift(op, player, n)
    ensures Spread(player, opponent, mask, Travel(op, n), bits, 0)
  {
    ShiftTravel(op, player, n);
    SpreadInit(player, opponent, mask, Travel(op, n), masked, bits);
  }

  lemma ShiftSpreadStep(player: bv64, opponent: bv64, mask: bv64, op: ShiftOp, n: Amount, masked: bv64, bits: bv64,
                        t: nat, reached: bv64, next: bv64)
    requires LegalMaskFits(mask, Travel(op, n))
    requires forall c: Square :: Has(masked, c) == (Has(mask, c) && Has(opponent, c))
    requires Spread(player, opponent, mask, Travel(op, n), bits, t)
    requires reached == masked & Shift(op, bits, n)
    requires next == bits | reached
    ensures Spread(player, opponent, mask, Travel(op, n), next, t + 1)
  {
    ShiftTravel(op, bits, n);
    SpreadStep(player, opponent, mask, Travel(op, n), masked, bits, t, reached, next);
  }

  lemma ShiftLanding(player: bv64, opponent: bv64, mask: bv64, op: ShiftOp, n: Amount, bits: bv64, landing: bv64)
    requires LegalMaskFits(mask, Travel(op, n))
    requires Spread(player, opponent, mask, Travel(op, n), bits, 5)
    requires landing == Shift(op, bits, n)
    ensures forall q: Square :: Has(landing, q) == Captures(player, opponent, q, Opp(Travel(op, n)))
  {
    ShiftTravel(op, bits, n);
    forall q: Square
      ensures Has(landing, q) == Captures(player, opponent, q, Opp(Travel(op, n)))
    {
      Landing(player, opponent, mask, Travel(op, n), bits, q);
    }
  }

  lemma CandidateStep(player: bv64, opponent: bv64, candidate: bv64, landing: bv64, j: nat, next: bv64)
    requires j < 8
    requires forall q: Square :: Has(candidate, q) == CapturesBelow(player, opponent, q, j)
    requires forall q: Square :: Has(landing, q) == Captures(player, opponent, q, LineDir(j))
    requires next == candidate | landing
    ensures forall q: Square :: Has(next, q) == CapturesBelow(player, opponent, q, j + 1)
  {
    OrAll(candidate, landing, next);
  }

  lemma LegalResult(player: bv64, opponent: bv64, candidate: bv64, legal: bv64)
    requires forall q: Square :: Has(candidate, q) == CapturesBelow(player, opponent, q, 8)
    requires legal == candidate & !(player | opponent)
    ensures forall q: Square :: Has(legal, q) == IsLegal(player, opponent, q)
  {
    AndNotOrAll(candidate, player, opponent, legal);
    forall q: Square
      ensures Has(legal, q) == IsLegal(player, opponent, q)
    {
      CapturesAllLines(player, opponent, q);
    }
  }

  /**
   * One pass of legal_move's loop over the shifts: spread the player's stones
   * over the masked opponent stones for five more rounds, then shift once more.
   * The result is every square that brackets a line in the direction of line
   * 2i + k.
   */
  method ScanLine(player: bv64, opponent: bv64, i: nat, k: nat, lineMask: bv64, mask: bv64) returns (landing: bv64)
    requires i < 4 && k < 2
    requires lineMask == LegalMasks[i].1 && mask == lineMask & opponent
    ensures forall q: Square :: Has(landing, q) == Captures(player, opponent, q, LineDir(2 * i + k))
  {
    var n := LegalMasks[i].0;
    var shift := LegalShifts[k];
    LegalLineFacts(i, k);
    AndAll(lineMask, opponent, mask);
    var bits := mask & Shift(shift, player, n);
    ShiftSpreadInit(player, opponent, lineMask, shift, n, mask, bits);
    for t := 0 to 5
      invariant Spread(player, opponent, lineMask, Travel(shift, n), bits, t)
    {
      var reached := mask & Shift(shift, bits, n);
      ShiftSpreadStep(player, opponent, lineMask, shift, n, mask, bits, t, reached, bits | reached);
      bits := bits | reached;
    }
    landing := Shift(shift, bits, n);
    ShiftLanding(player, opponent, lineMask, shift, n, bits, landing);
  }

  /**
   * legal_move: the squares where the side to move may play. Each of the four
   * masks is first restricted to the opponent's stones; each line then adds
   * the squares found by ScanLine.
   */
  method LegalMove(player: bv64, opponent: bv64) returns (legal: bv64)
    ensures forall q: Square :: Has(legal, q) == IsLegal(player, opponent, q)
  {
    var candidate: bv64 := 0;
    forall q: Square
      ensures !Has(candidate, q)
    {
      HasZero(q);
    }
    for i := 0 to 4
      invariant forall q: Square :: Has(candidate, q) == CapturesBelow(player, opponent, q, 2 * i)
    {
      var lineMask := LegalMasks[i].1;
      var mask := lineMask & opponent;
      for k := 0 to 2
        invariant forall q: Square :: Has(candidate, q) == CapturesBelow(player, opponent, q, 2 * i + k)
      {
        var landing := ScanLine(player, opponent, i, k, lineMask, mask);
        CandidateStep(player, opponent, candidate, landing, 2 * i + k, candidate | landing);
        candidate := candidate | landing;
      }
    }
    legal := candidate & !(player | opponent);
    LegalResult(player, opponent, candidate, legal);
  }

  /*
   * reverse
   */

  /** Per line of the board: the shift amount and the squares a left shift may land on. */
  const ReverseMasks: seq<(Amount, bv64)> :=
    [(1, 0xfefe_fefe_fefe_fefe), (7, 0x7f7f_7f7f_7f7f_7f00), (8, 0xffff_ffff_ffff_ff00), (9, 0xfefe_fefe_fefe_fe00)]

  const ReverseShifts: seq<ShiftOp> := [Shl, Shr]

  /** The mask in force on line (i, k): the table's own for the left shift, shifted right once for the right shift. */
  function ReverseMask(i: nat, k: nat): bv64
    requires i < 4 && k < 2
  {
    if k == 0 then ReverseMasks[i].1 else Shift(Shr, ReverseMasks[i].1, ReverseMasks[i].0)
  }

  lemma ReverseStepW(c: Square)
    ensures 0xfefe_fefe_fefe_fefe & (Cell(c) << 1) == if CanStep(c, W) then Cell(Step(c, W)) else 0
  {}

  lemma ReverseStepE(c: Square)
    ensures 0x7f7f_7f7f_7f7f_7f7f & (Cell(c) >> 1) == if CanStep(c, E) then Cell(Step(c, E)) else 0
  {}

  lemma ReverseStepNE(c: Square)
    ensures 0x7f7f_7f7f_7f7f_7f00 & (Cell(c) << 7) == if CanStep(c, NE) then Cell(Step(c, NE)) else 0
  {}

  lemma ReverseStepSW(c: Square)
    ensures 0x00fe_fefe_fefe_fefe & (Cell(c) >> 7) == if CanStep(c, SW) then Cell(Step(c, SW)) else 0
  {}

  lemma ReverseStepN(c: Square)
    ensures 0xffff_ffff_ffff_ff00 & (Cell(c) << 8) == if CanStep(c, N) then Cell(Step(c, N)) else 0
  {}

  lemma ReverseStepS(c: Square)
    ensures 0x00ff_ffff_ffff_ffff & (Cell(c) >> 8) == if CanStep(c, S) then Cell(Step(c, S)) else 0
  {}

  lemma ReverseStepNW(c: Square)
    ensures 0xfefe_fefe_fefe_fe00 & (Cell(c) << 9) == if CanStep(c, NW) then Cell(Step(c, NW)) else 0
  {}

  lemma ReverseStepSE(c: Square)
    ensures 0x007f_7f7f_7f7f_7f7f & (Cell(c) >> 9) == if CanStep(c, SE) then Cell(Step(c, SE)) else 0
  {}

  /** The masks reverse uses: on the right shift, the left shift's mask moved right by the shift amount. */
  lemma ReverseMaskValues()
    ensures ReverseMask(0, 0) == 0xfefe_fefe_fefe_fefe && ReverseMask(0, 1) == 0x7f7f_7f7f_7f7f_7f7f
    ensures ReverseMask(1, 0) == 0x7f7f_7f7f_7f7f_7f00 && ReverseMask(1, 1) == 0x00fe_fefe_fefe_fefe
    ensures ReverseMask(2, 0) == 0xffff_ffff_ffff_ff00 && ReverseMask(2, 1) == 0x00ff_ffff_ffff_ffff
    ensures ReverseMask(3, 0) == 0xfefe_fefe_fefe_fe00 && ReverseMask(3, 1) == 0x007f_7f7f_7f7f_7f7f
  {}

  /** The walk from `cur` in direction `d` closes on a player stone, possibly after more opponent stones. */
  predicate Closing(player: bv64, opponent: bv64, cur: Square, d: Dir) {
    CanStep(cur, d) && (Has(player, Step(cur, d)) || Run(player, opponent, Step(cur, d), d))
  }

  /**
   * The state of reverse's walk from `q` in direction `d`, having collected in
   * `r` the opponent stones up to `cur`: a stone turns over exactly when it has
   * been collected and the walk will close, or it lies in the run still ahead.
   */
  ghost predicate Walk(player: bv64, opponent: bv64, q: Square, d: Dir, cur: Square, r: bv64) {
    forall c: Square {:trigger Flips(player, opponent, q, d, c)} ::
      Flips(player, opponent, q, d, c)
      == ((Has(r, c) && Closing(player, opponent, cur, d)) ||
          (CanStep(cur, d) && InRun(player, opponent, Step(cur, d), d, c)))
  }

  /** No square holds stones of both sides. */
  ghost predicate Disjoint(player: bv64, opponent: bv64) {
    forall c: Square {:trigger Has(player, c)} {:trigger Has(opponent, c)} :: !(Has(player, c) && Has(opponent, c))
  }

  lemma DisjointWords(player: bv64, opponent: bv64)
    requires player & opponent == 0
    ensures Disjoint(player, opponent)
  {
    forall c: Square ensures !(Has(player, c) && Has(opponent, c)) {
      HasDisjoint(player, opponent, c);
    }
  }

  lemma WalkInit(player: bv64, opponent: bv64, q: Square, d: Dir)
    ensures Walk(player, opponent, q, d, q, 0)
  {
    forall c: Square
      ensures Flips(player, opponent, q, d, c)
           == ((Has(0, c) && Closing(player, opponent, q, d)) ||
               (CanStep(q, d) && InRun(player, opponent, Step(q, d), d, c)))
    {
      HasZero(c);
    }
  }

  /** Past one more opponent stone, the walk still closes exactly when it did. */
  lemma ClosingOn(player: bv64, opponent: bv64, cur: Square, d: Dir)
    requires CanStep(cur, d) && Has(opponent, Step(cur, d)) && !Has(player, Step(cur, d))
    ensures Closing(player, opponent, cur, d) == Closing(player, opponent, Step(cur, d), d)
  {}

  /** A run starting on an opponent stone: the stone itself, then the run after it. */
  lemma InRunOn(player: bv64, opponent: bv64, s: Square, d: Dir, c: Square)
    requires Disjoint(player, opponent)
    requires Has(opponent, s)
    ensures InRun(player, opponent, s, d, c)
         == (Closing(player, opponent, s, d) && (c == s || (CanStep(s, d) && InRun(player, opponent, Step(s, d), d, c))))
    ensures CanStep(s, d) && InRun(player, opponent, Step(s, d), d, c) ==> Closing(player, opponent, s, d)
  {
    if CanStep(s, d) && InRun(player, opponent, Step(s, d), d, c) {
      RoomShrinks(s, d);
      assert Run(player, opponent, Step(s, d), d);
      assert !Has(player, Step(s, d));
    }
  }

  lemma WalkOnAt(player: bv64, opponent: bv64, q: Square, d: Dir, cur: Square, r: bv64, next: bv64, c: Square)
    requires Disjoint(player, opponent)
    requires Walk(player, opponent, q, d, cur, r)
    requires CanStep(cur, d) && Has(opponent, Step(cur, d))
    requires forall x: Square :: Has(next, x) == (Has(r, x) || x == Step(cur, d))
    ensures Flips(player, opponent, q, d, c)
         == ((Has(next, c) && Closing(player, opponent, Step(cur, d), d)) ||
             (CanStep(Step(cur, d), d) && InRun(player, opponent, Step(Step(cur, d), d), d, c)))
  {
    var nx := Step(cur, d);
    assert !Has(player, nx);
    ClosingOn(player, opponent, cur, d);
    InRunOn(player, opponent, nx, d, c);
  }

  /** Passing one more opponent stone: collect it and move on. */
  lemma WalkOn(player: bv64, opponent: bv64, q: Square, d: Dir, cur: Square, r: bv64, next: bv64)
    requires Disjoint(player, opponent)
    requires Walk(player, opponent, q, d, cur, r)
    requires CanStep(cur, d) && Has(opponent, Step(cur, d))
    requires forall x: Square :: Has(next, x) == (Has(r, x) || x == Step(cur, d))
    ensures Walk(player, opponent, q, d, Step(cur, d), next)
  {
    forall c: Square
      ensures Flips(player, opponent, q, d, c)
           == ((Has(next, c) && Closing(player, opponent, Step(cur, d), d)) ||
               (CanStep(Step(cur, d), d) && InRun(player, opponent, Step(Step(cur, d), d), d, c)))
    {
      WalkOnAt(player, opponent, q, d, cur, r, next, c);
    }
  }

  /** `pos` holds exactly the square one step from `cur` in direction `d`, or nothing off the board. */
  ghost predicate Ahead(pos: bv64, cur: Square, d: Dir) {
    forall x: Square {:trigger Has(pos, x)} :: Has(pos, x) == (CanStep(cur, d) && x == Step(cur, d))
  }

  lemma AheadCell(pos: bv64, c: Square, d: Dir)
    requires pos == if CanStep(c, d) then Cell(Step(c, d)) else 0
    ensures Ahead(pos, c, d)
  {
    forall x: Square
      ensures Has(pos, x) == (CanStep(c, d) && x == Step(c, d))
    {
      if CanStep(c, d) {
        HasCell(Step(c, d), x);
      } else {
        HasZero(x);
      }
    }
  }

  lemma CellAhead(pos: bv64, cur: Square, d: Dir)
    requires Ahead(pos, cur, d) && CanStep(cur, d)
    ensures pos == Cell(Step(cur, d))
  {
    forall x: Square
      ensures Has(pos, x) == Has(Cell(Step(cur, d)), x)
    {
      HasCell(Step(cur, d), x);
    }
    Extensional(pos, Cell(Step(cur, d)));
  }

  /** A word holding at most the square ahead meets `x` exactly when that square is in `x`. */
  lemma AheadAnd(pos: bv64, cur: Square, d: Dir, x: bv64, z: bv64)
    requires Ahead(pos, cur, d)
    requires z == pos & x
    ensures (z != 0) == (CanStep(cur, d) && Has(x, Step(cur, d)))
  {
    AndAll(pos, x, z);
    NonzeroHas(z);
    if CanStep(cur, d) && Has(x, Step(cur, d)) {
      assert Has(z, Step(cur, d));
    }
  }

  lemma ReverseAheadW(mask: bv64, n: Amount, shift: ShiftOp, c: Square, p: bv64, pos: bv64)
    requires mask == 0xfefe_fefe_fefe_fefe && n == 1 && shift == Shl
    requires p == Cell(c) && pos == mask & Shift(shift, p, n)
    ensures Ahead(pos, c, W)
  {
    ReverseStepW(c);
    AheadCell(pos, c, W);
  }

  lemma ReverseAheadE(mask: bv64, n: Amount, shift: ShiftOp, c: Square, p: bv64, pos: bv64)
    requires mask == 0x7f7f_7f7f_7f7f_7f7f && n == 1 && shift == Shr
    requires p == Cell(c) && pos == mask & Shift(shift, p, n)
    ensures Ahead(pos, c, E)
  {
    ReverseStepE(c);
    AheadCell(pos, c, E);
  }

  lemma ReverseAheadNE(mask: bv64, n: Amount, shift: ShiftOp, c: Square, p: bv64, pos: bv64)
    requires mask == 0x7f7f_7f7f_7f7f_7f00 && n == 7 && shift == Shl
    requires p == Cell(c) && pos == mask & Shift(shift, p, n)
    ensures Ahead(pos, c, NE)
  {
    ReverseStepNE(c);
    AheadCell(pos, c, NE);
  }

  lemma ReverseAheadSW(mask: bv64, n: Amount, shift: ShiftOp, c: Square, p: bv64, pos: bv64)
    requires mask == 0x00fe_fefe_fefe_fefe && n == 7 && shift == Shr
    requires p == Cell(c) && pos == mask & Shift(shift, p, n)
    ensures Ahead(pos, c, SW)
  {
    ReverseStepSW(c);
    AheadCell(pos, c, SW);
  }

  lemma ReverseAheadN(mask: bv64, n: Amount, shift: ShiftOp, c: Square, p: bv64, pos: bv64)
    requires mask == 0xffff_ffff_ffff_ff00 && n == 8 && shift == Shl
    requires p == Cell(c) && pos == mask & Shift(shift, p, n)
    ensures Ahead(pos, c, N)
  {
    ReverseStepN(c);
    AheadCell(pos, c, N);
  }

  lemma ReverseAheadS(mask: bv64, n: Amount, shift: ShiftOp, c: Square, p: bv64, pos: bv64)
    requires mask == 0x00ff_ffff_ffff_ffff && n == 8 && shift == Shr
    requires p == Cell(c) && pos == mask & Shift(shift, p, n)
    ensures Ahead(pos, c, S)
  {
    ReverseStepS(c);
    AheadCell(pos, c, S);
  }

  lemma ReverseAheadNW(mask: bv64, n: Amount, shift: ShiftOp, c: Square, p: bv64, pos: bv64)
    requires mask == 0xfefe_fefe_fefe_fe00 && n == 9 && shift == Shl
    requires p == Cell(c) && pos == mask & Shift(shift, p, n)
    ensures Ahead(pos, c, NW)
  {
    ReverseStepNW(c);
    AheadCell(pos, c, NW);
  }

  lemma ReverseAheadSE(mask: bv64, n: Amount, shift: ShiftOp, c: Square, p: bv64, pos: bv64)
    requires mask == 0x007f_7f7f_7f7f_7f7f && n == 9 && shift == Shr
    requires p == Cell(c) && pos == mask & Shift(shift, p, n)
    ensures Ahead(pos, c, SE)
  {
    ReverseStepSE(c);
    AheadCell(pos, c, SE);
  }

  /**
   * On line (i, k), one masked shift of a single stone moves it one square in
   * the line's direction, or drops it where that square is off the board.
   */
  /** Line (i, k) of reverse walks in direction `d` with this mask, shift amount and shift. */
  ghost predicate ReverseLineOf(i: nat, k: nat, d: Dir, mask: bv64, n: Amount, shift: ShiftOp) {
    i < 4 && k < 2 && d == LineDir(2 * i + k) &&
    mask == ReverseMask(i, k) && n == ReverseMasks[i].0 && shift == ReverseShifts[k]
  }

  lemma ReverseAhead(i: nat, k: nat, d: Dir, mask: bv64, n: Amount, shift: ShiftOp, c: Square, p: bv64, pos: bv64)
    requires ReverseLineOf(i, k, d, mask, n, shift)
    requires p == Cell(c)
    requires pos == mask & Shift(shift, p, n)
    ensures Ahead(pos, c, d)
  {
    ReverseMaskValues();
    assert LineDir(2 * i + k) == LineDirs[2 * i + k];
    if i == 0 {
      if k == 0 { ReverseAheadW(mask, n, shift, c, p, pos); } else { ReverseAheadE(mask, n, shift, c, p, pos); }
    } else if i == 1 {
      if k == 0 { ReverseAheadNE(mask, n, shift, c, p, pos); } else { ReverseAheadSW(mask, n, shift, c, p, pos); }
    } else if i == 2 {
      if k == 0 { ReverseAheadN(mask, n, shift, c, p, pos); } else { ReverseAheadS(mask, n, shift, c, p, pos); }
    } else {
      if k == 0 { ReverseAheadNW(mask, n, shift, c, p, pos); } else { ReverseAheadSE(mask, n, shift, c, p, pos); }
    }
  }

  /** One more masked shift of the square ahead moves on to the square after it. */
  lemma ReverseNext(i: nat, k: nat, d: Dir, mask: bv64, n: Amount, shift: ShiftOp, cur: Square, pos: bv64, next: bv64)
    requires ReverseLineOf(i, k, d, mask, n, shift)
    requires Ahead(pos, cur, d) && CanStep(cur, d)
    requires next == mask & Shift(shift, pos, n)
    ensures Ahead(next, Step(cur, d), d)
  {
    CellAhead(pos, cur, d);
    ReverseAhead(i, k, d, mask, n, shift, Step(cur, d), pos, next);
  }

  lemma WalkEndAt(player: bv64, opponent: bv64, q: Square, d: Dir, cur: Square, r: bv64, c: Square)
    requires Walk(player, opponent, q, d, cur, r)
    requires CanStep(cur, d) ==> !Has(opponent, Step(cur, d))
    ensures Flips(player, opponent, q, d, c) == (Has(r, c) && CanStep(cur, d) && Has(player, Step(cur, d)))
  {}

  /** Where the walk stops, the collected stones turn over exactly when it stopped on a player stone. */
  lemma WalkEnd(player: bv64, opponent: bv64, q: Square, d: Dir, cur: Square, r: bv64, stops: bool)
    requires Walk(player, opponent, q, d, cur, r)
    requires CanStep(cur, d) ==> !Has(opponent, Step(cur, d))
    requires stops == (CanStep(cur, d) && Has(player, Step(cur, d)))
    ensures stops ==> forall c: Square :: Has(r, c) == Flips(player, opponent, q, d, c)
    ensures !stops ==> forall c: Square :: !Flips(player, opponent, q, d, c)
  {
    forall c: Square
      ensures Flips(player, opponent, q, d, c) == (Has(r, c) && stops)
    {
      WalkEndAt(player, opponent, q, d, cur, r, c);
    }
  }

  /**
   * The body of reverse's loop over the two shifts of line (i, k): walk from
   * `position` over opponent stones, collecting them in `r`, and stop at the
   * first square that is not an opponent stone, which `pos` holds (0 off the
   * board). The collected stones turn over exactly when that square holds a
   * player stone; otherwise the line turns nothing over.
   */
  /** Reverse's walk along line (i, k) from `q` has reached `cur`, collecting `r`; `pos` holds the square ahead. */
  ghost predicate Walking(player: bv64, opponent: bv64, q: Square, d: Dir, cur: Square, r: bv64, pos: bv64) {
    Ahead(pos, cur, d) && Walk(player, opponent, q, d, cur, r)
  }

  /** One round of reverse's inner loop: the square ahead holds an opponent stone, so collect it and step on. */
  lemma WalkAdvance(player: bv64, opponent: bv64, q: Square, i: nat, k: nat, d: Dir, mask: bv64, n: Amount,
                    shift: ShiftOp, cur: Square, r: bv64, pos: bv64, met: bv64, r': bv64, pos': bv64)
    requires ReverseLineOf(i, k, d, mask, n, shift)
    requires Disjoint(player, opponent) && Walking(player, opponent, q, d, cur, r, pos)
    requires met == pos & opponent && met != 0
    requires r' == r | pos
    requires pos' == mask & Shift(shift, pos, n)
    ensures CanStep(cur, d) && Room(Step(cur, d), d) as int < Room(cur, d) as int
    ensures Walking(player, opponent, q, d, Step(cur, d), r', pos')
  {
    AheadAnd(pos, cur, d, opponent, met);
    OrAll(r, pos, r');
    WalkOn(player, opponent, q, d, cur, r, r');
    RoomShrinks(cur, d);
    ReverseNext(i, k, d, mask, n, shift, cur, pos, pos');
  }

  /** Where the walk stops, the collected stones turn over exactly when the square ahead holds a player stone. */
  lemma WalkStop(player: bv64, opponent: bv64, q: Square, d: Dir, cur: Square, r: bv64, pos: bv64, met: bv64,
                 closed: bv64, rev: bv64, rev': bv64)
    requires Walking(player, opponent, q, d, cur, r, pos)
    requires met == pos & opponent && met == 0
    requires closed == pos & player
    requires rev' == if closed != 0 then rev | r else rev
    ensures forall c: Square :: Has(rev', c) == (Has(rev, c) || Flips(player, opponent, q, d, c))
  {
    AheadAnd(pos, cur, d, opponent, met);
    AheadAnd(pos, cur, d, player, closed);
    WalkEnd(player, opponent, q, d, cur, r, closed != 0);
    if closed != 0 {
      OrAll(rev, r, rev');
    }
  }

  /**
   * Reverse's work on line (i, k): walk from `position` over opponent stones,
   * collecting them in `r`, up to the first square `pos` that is not an
   * opponent stone (0 off the board), and add the collected stones to `rev`
   * when that square holds a player stone. The line adds to `rev` exactly the
   * stones that a move on `q` turns over in the line's direction.
   */
  method ReverseLine(player: bv64, opponent: bv64, position: bv64, mask: bv64, n: Amount, shift: ShiftOp, rev: bv64,
                     ghost q: Square, ghost i: nat, ghost k: nat, ghost d: Dir)
    returns (rev': bv64)
    requires ReverseLineOf(i, k, d, mask, n, shift)
    requires Disjoint(player, opponent) && position == Cell(q)
    ensures forall c: Square :: Has(rev', c) == (Has(rev, c) || Flips(player, opponent, q, d, c))
  {
    var r := 0;
    var pos := mask & Shift(shift, position, n);
    ReverseAhead(i, k, d, mask, n, shift, q, position, pos);
    ghost var cur := q;
    WalkInit(player, opponent, q, d);
    while pos & opponent != 0
      invariant Walking(player, opponent, q, d, cur, r, pos)
      decreases Room(cur, d) as int
    {
      WalkAdvance(player, opponent, q, i, k, d, mask, n, shift, cur, r, pos, pos & opponent, r | pos, mask & Shift(shift, pos, n));
      r := r | pos;
      pos := mask & Shift(shift, pos, n);
      cur := Step(cur, d);
    }
    rev' := rev;
    if pos & player != 0 {
      rev' := rev | r;
    }
    WalkStop(player, opponent, q, d, cur, r, pos, pos & opponent, pos & player, rev, rev');
  }

  /** Some line among reverse's first j lines turns the stone on `c` over. */
  predicate FlipsBelow(player: bv64, opponent: bv64, q: Square, c: Square, j: nat)
    requires j <= 8
  {
    j > 0 && (FlipsBelow(player, opponent, q, c, j - 1) || Flips(player, opponent, q, LineDir(j - 1), c))
  }

  lemma {:induction false} FlipsBelowSome(player: bv64, opponent: bv64, q: Square, c: Square, j: nat, k: nat)
    requires k < j <= 8
    requires Flips(player, opponent, q, LineDir(k), c)
    ensures FlipsBelow(player, opponent, q, c, j)
  {
    if k < j - 1 {
      FlipsBelowSome(player, opponent, q, c, j - 1, k);
    }
  }

  lemma {:induction false} FlipsBelowWitness(player: bv64, opponent: bv64, q: Square, c: Square, j: nat)
    requires j <= 8
    requires FlipsBelow(player, opponent, q, c, j)
    ensures exists k: nat :: k < j && Flips(player, opponent, q, LineDir(k), c)
  {
    if !Flips(player, opponent, q, LineDir(j - 1), c) {
      FlipsBelowWitness(player, opponent, q, c, j - 1);
    }
  }

  /** A stone turns over by some line of the board. */
  ghost predicate Flipped(player: bv64, opponent: bv64, q: Square, c: Square) {
    exists d: Dir :: Flips(player, opponent, q, d, c)
  }

  /** The eight lines of reverse walk in all eight directions. */
  lemma FlipsAllLines(player: bv64, opponent: bv64, q: Square, c: Square)
    ensures FlipsBelow(player, opponent, q, c, 8) == Flipped(player, opponent, q, c)
  {
    if Flipped(player, opponent, q, c) {
      var d: Dir :| Flips(player, opponent, q, d, c);
      LineOfDir(d);
      FlipsBelowSome(player, opponent, q, c, 8, LineOf(d));
    }
    if FlipsBelow(player, opponent, q, c, 8) {
      FlipsBelowWitness(player, opponent, q, c, 8);
      var k: nat :| k < 8 && Flips(player, opponent, q, LineDir(k), c);
      assert Flips(player, opponent, q, LineDir(k), c);
    }
  }

  lemma RevSomeIf(player: bv64, opponent: bv64, q: Square, rev: bv64, d: Dir)
    requires forall c: Square :: Has(rev, c) == Flipped(player, opponent, q, c)
    requires Captures(player, opponent, q, d)
    ensures exists c: Square :: Has(rev, c)
  {
    FlipsSome(player, opponent, q, d);
    var c: Square :| Flips(player, opponent, q, d, c);
    assert Has(rev, c);
  }

  lemma RevSomeOnly(player: bv64, opponent: bv64, q: Square, rev: bv64, c: Square)
    requires forall c: Square :: Has(rev, c) == Flipped(player, opponent, q, c)
    requires Has(rev, c)
    ensures exists d: Dir :: Captures(player, opponent, q, d)
  {
    var d: Dir :| Flips(player, opponent, q, d, c);
    FlipsSome(player, opponent, q, d);
  }

  /** A move turns over some stone exactly when it brackets a line. */
  lemma RevSome(player: bv64, opponent: bv64, q: Square, rev: bv64)
    requires forall c: Square :: Has(rev, c) == Flipped(player, opponent, q, c)
    ensures (rev != 0) == exists d: Dir :: Captures(player, opponent, q, d)
  {
    NonzeroHas(rev);
    if exists d: Dir :: Captures(player, opponent, q, d) {
      var d: Dir :| Captures(player, opponent, q, d);
      RevSomeIf(player, opponent, q, rev, d);
    }
    if rev != 0 {
      var c: Square :| Has(rev, c);
      RevSomeOnly(player, opponent, q, rev, c);
    }
  }

  /** The stones reverse collects over its eight lines are the stones the move turns over, all of them opponent stones. */
  lemma RevResult(player: bv64, opponent: bv64, q: Square, rev: bv64)
    requires forall c: Square :: Has(rev, c) == FlipsBelow(player, opponent, q, c, 8)
    ensures forall c: Square :: Has(rev, c) == Flipped(player, opponent, q, c)
    ensures forall c: Square :: Has(rev, c) ==> Has(opponent, c)
    ensures (rev != 0) == exists d: Dir :: Captures(player, opponent, q, d)
  {
    forall c: Square
      ensures Has(rev, c) == Flipped(player, opponent, q, c)
    {
      FlipsAllLines(player, opponent, q, c);
    }
    forall c: Square | Has(rev, c)
      ensures Has(opponent, c)
    {
      var d: Dir :| Flips(player, opponent, q, d, c);
      FlipsOpponent(player, opponent, q, d, c);
    }
    RevSome(player, opponent, q, rev);
  }

  /**
   * The body of reverse's outer loop: line i with its shift amount `n` and
   * mask, walked first with the left shift and then, the mask moved right by
   * `n`, with the right shift.
   */
  method ReversePair(player: bv64, opponent: bv64, position: bv64, n: Amount, mask: bv64, rev: bv64,
                     ghost q: Square, ghost i: nat)
    returns (rev': bv64)
    requires i < 4 && n == ReverseMasks[i].0 && mask == ReverseMasks[i].1
    requires Disjoint(player, opponent) && position == Cell(q)
    requires forall c: Square :: Has(rev, c) == FlipsBelow(player, opponent, q, c, 2 * i)
    ensures forall c: Square :: Has(rev', c) == FlipsBelow(player, opponent, q, c, 2 * i + 2)
  {
    rev' := rev;
    var mask := mask;
    for k := 0 to 2
      invariant forall c: Square :: Has(rev', c) == FlipsBelow(player, opponent, q, c, 2 * i + k)
      invariant k < 2 ==> mask == ReverseMask(i, k)
    {
      var shift := ReverseShifts[k];
      rev' := ReverseLine(player, opponent, position, mask, n, shift, rev', q, i, k, LineDir(2 * i + k));
      mask := Shift(Shr, mask, n);
    }
  }

  /**
   * reverse: the opponent stones that a stone placed on `position` (the
   * single square q) turns over. For each shift amount and both shift
   * directions it walks over opponent stones and keeps them if the walk
   * stops on a player stone.
   */
  method Reverse(player: bv64, opponent: bv64, position: bv64, ghost q: Square) returns (rev: bv64)
    requires Disjoint(player, opponent)
    requires position == Cell(q)
    ensures forall c: Square :: Has(rev, c) == Flipped(player, opponent, q, c)
    ensures forall c: Square :: Has(rev, c) ==> Has(opponent, c)
    ensures (rev != 0) == exists d: Dir :: Captures(player, opponent, q, d)
  {
    rev := 0;
    RevNone(player, opponent, q);
    for i := 0 to 4
      invariant forall c: Square :: Has(rev, c) == FlipsBelow(player, opponent, q, c, 2 * i)
    {
      rev := ReversePair(player, opponent, position, ReverseMasks[i].0, ReverseMasks[i].1, rev, q, i);
    }
    RevResult(player, opponent, q, rev);
  }

  /** Before any line is walked, nothing is collected. */
  lemma RevNone(player: bv64, opponent: bv64, q: Square)
    ensures forall c: Square :: Has(0, c) == FlipsBelow(player, opponent, q, c, 0)
  {
    forall c: Square
      ensures !Has(0, c)
    {
      HasZero(c);
    }
  }

  /*
   * put
   */

  lemma CellAll(q: Square, position: bv64)
    requires position == Cell(q)
    ensures forall c: Square :: Has(position, c) == (c == q)
  {
    forall c: Square ensures Has(position, c) == (c == q) {
      HasCell(q, c);
    }
  }

  lemma CellAnd(x: bv64, j: Square)
    ensures (Cell(j) & x != 0) == Has(x, j)
  {
    HasDef(x, j);
    AndComm(Cell(j), x);
  }

  lemma AndComm(a: bv64, b: bv64)
    ensures a & b == b & a
  {}

  /** The square played on is never among the stones it turns over. */
  lemma NotFlippedSelf(player: bv64, opponent: bv64, q: Square)
    ensures !Flipped(player, opponent, q, q)
  {
    if Flipped(player, opponent, q, q) {
      var d: Dir :| Flips(player, opponent, q, d, q);
      FlipsOpponent(player, opponent, q, d, q);
    }
  }

  /** The squares of both new boards, from the squares of the words put combines. */
  lemma PutSquares(player: bv64, opponent: bv64, q: Square, position: bv64, rev: bv64, moved: bv64,
                   newPlayer: bv64, newOpponent: bv64)
    requires Disjoint(player, opponent)
    requires forall c: Square :: Has(position, c) == (c == q)
    requires forall c: Square :: Has(rev, c) == Flipped(player, opponent, q, c)
    requires forall c: Square :: Has(rev, c) ==> Has(opponent, c)
    requires forall c: Square :: Has(moved, c) == (Has(position, c) || Has(rev, c))
    requires forall c: Square :: Has(newPlayer, c) == (Has(player, c) != Has(moved, c))
    requires forall c: Square :: Has(newOpponent, c) == (Has(opponent, c) != Has(rev, c))
    ensures forall c: Square :: Has(newOpponent, c) == (Has(opponent, c) && !Flipped(player, opponent, q, c))
    ensures forall c: Square ::
              Has(newPlayer, c) == (if c == q then !Has(player, c) else Has(player, c) || Flipped(player, opponent, q, c))
  {
    NotFlippedSelf(player, opponent, q);
  }

  /**
   * On a vacant square the mover gains the square played and the stones
   * turned over, and the opponent loses exactly those stones.
   */
  lemma PutCount(player: bv64, opponent: bv64, q: Square, position: bv64, rev: bv64, moved: bv64,
                 newPlayer: bv64, newOpponent: bv64)
    requires Disjoint(player, opponent) && Vacant(player, opponent, q)
    requires forall c: Square :: Has(position, c) == (c == q)
    requires forall c: Square :: Has(rev, c) ==> Has(opponent, c)
    requires forall c: Square :: Has(moved, c) == (Has(position, c) || Has(rev, c))
    requires forall c: Square :: Has(newPlayer, c) == (Has(player, c) != Has(moved, c))
    requires forall c: Square :: Has(newOpponent, c) == (Has(opponent, c) != Has(rev, c))
    ensures PopCount(moved) == 1 + PopCount(rev)
    ensures PopCount(newPlayer) == PopCount(player) + PopCount(moved)
    ensures PopCount(opponent) == PopCount(newOpponent) + PopCount(rev)
  {
    PopCountOne(position, q);
    PopCountSplit(position, rev, moved);
    PopCountSplit(player, moved, newPlayer);
    PopCountSplit(newOpponent, rev, opponent);
  }

  /** The squares of the words put computes. */
  lemma PutWords(player: bv64, opponent: bv64, position: bv64, rev: bv64, moved: bv64, newPlayer: bv64, newOpponent: bv64)
    requires moved == position | rev
    requires newPlayer == player ^ moved && newOpponent == opponent ^ rev
    ensures forall c: Square :: Has(moved, c) == (Has(position, c) || Has(rev, c))
    ensures forall c: Square :: Has(newPlayer, c) == (Has(player, c) != Has(moved, c))
    ensures forall c: Square :: Has(newOpponent, c) == (Has(opponent, c) != Has(rev, c))
  {
    OrAll(position, rev, moved);
    XorAll(player, moved, newPlayer);
    XorAll(opponent, rev, newOpponent);
  }

  /** On a vacant square, the boards put returns still have no square in common. */
  lemma PutDisjoint(player: bv64, opponent: bv64, q: Square, newPlayer: bv64, newOpponent: bv64)
    requires Disjoint(player, opponent) && Vacant(player, opponent, q)
    requires forall c: Square :: Has(newOpponent, c) == (Has(opponent, c) && !Flipped(player, opponent, q, c))
    requires forall c: Square ::
               Has(newPlayer, c) == (if c == q then !Has(player, c) else Has(player, c) || Flipped(player, opponent, q, c))
    ensures Disjoint(newPlayer, newOpponent)
  {
    forall c: Square
      ensures !(Has(newPlayer, c) && Has(newOpponent, c))
    {
      assert Has(newOpponent, c) ==> Has(opponent, c);
    }
  }

  /** A legal move turns over at least one stone. */
  lemma PutLoses(player: bv64, opponent: bv64, q: Square, rev: bv64)
    requires forall c: Square :: Has(rev, c) == Flipped(player, opponent, q, c)
    requires IsLegal(player, opponent, q)
    ensures PopCount(rev) >= 1
  {
    var d: Dir :| Captures(player, opponent, q, d);
    FlipsSome(player, opponent, q, d);
    var c: Square :| Flips(player, opponent, q, d, c);
    PopCountSome(rev, c);
  }

  /** The popcounts put promises, from the squares of the words it computes. */
  lemma PutCounts(player: bv64, opponent: bv64, q: Square, position: bv64, rev: bv64, moved: bv64,
                  newPlayer: bv64, newOpponent: bv64)
    requires Disjoint(player, opponent)
    requires forall c: Square :: Has(position, c) == (c == q)
    requires forall c: Square :: Has(rev, c) == Flipped(player, opponent, q, c)
    requires forall c: Square :: Has(rev, c) ==> Has(opponent, c)
    requires forall c: Square :: Has(moved, c) == (Has(position, c) || Has(rev, c))
    requires forall c: Square :: Has(newPlayer, c) == (Has(player, c) != Has(moved, c))
    requires forall c: Square :: Has(newOpponent, c) == (Has(opponent, c) != Has(rev, c))
    ensures Vacant(player, opponent, q) ==>
              PopCount(newPlayer) + PopCount(newOpponent) == PopCount(player) + PopCount(opponent) + 1
    ensures Vacant(player, opponent, q) ==>
              PopCount(newOpponent) <= PopCount(opponent) &&
              PopCount(newPlayer) - PopCount(player) == 1 + (PopCount(opponent) - PopCount(newOpponent))
    ensures IsLegal(player, opponent, q) ==> PopCount(newOpponent) < PopCount(opponent)
  {
    if Vacant(player, opponent, q) {
      PutCount(player, opponent, q, position, rev, moved, newPlayer, newOpponent);
    }
    if IsLegal(player, opponent, q) {
      PutLoses(player, opponent, q, rev);
    }
  }

  /** With nothing turned over, put leaves the opponent's board as it was. */
  lemma NoneMoved(opponent: bv64, rev: bv64, newOpponent: bv64)
    requires newOpponent == opponent ^ rev
    ensures rev == 0 ==> newOpponent == opponent
  {}

  /**
   * put: play the single square `position` (square q) for the player. The
   * player's board toggles the square played and the stones turned over,
   * the opponent's board toggles the stones turned over. Legality is not
   * checked: where nothing is turned over the stone is still placed.
   */
  method Put(player: bv64, opponent: bv64, position: bv64, ghost q: Square) returns (newPlayer: bv64, newOpponent: bv64)
    requires Disjoint(player, opponent)
    requires position == Cell(q)
    ensures forall c: Square :: Has(newOpponent, c) == (Has(opponent, c) && !Flipped(player, opponent, q, c))
    ensures forall c: Square ::
              Has(newPlayer, c) == (if c == q then !Has(player, c) else Has(player, c) || Flipped(player, opponent, q, c))
    ensures Vacant(player, opponent, q) ==> Disjoint(newPlayer, newOpponent)
    ensures Vacant(player, opponent, q) ==>
              PopCount(newPlayer) + PopCount(newOpponent) == PopCount(player) + PopCount(opponent) + 1
    ensures Vacant(player, opponent, q) ==>
              PopCount(newOpponent) <= PopCount(opponent) &&
              PopCount(newPlayer) - PopCount(player) == 1 + (PopCount(opponent) - PopCount(newOpponent))
    ensures IsLegal(player, opponent, q) ==> PopCount(newOpponent) < PopCount(opponent)
    ensures (forall d: Dir :: !Captures(player, opponent, q, d)) ==>
              newOpponent == opponent && forall c: Square :: Has(newPlayer, c) == (Has(player, c) != (c == q))
  {
    var rev := Reverse(player, opponent, position, q);
    var moved := position | rev;
    newPlayer := player ^ moved;
    newOpponent := opponent ^ rev;
    CellAll(q, position);
    PutWords(player, opponent, position, rev, moved, newPlayer, newOpponent);
    PutSquares(player, opponent, q, position, rev, moved, newPlayer, newOpponent);
    if Vacant(player, opponent, q) {
      PutDisjoint(player, opponent, q, newPlayer, newOpponent);
    }
    PutCounts(player, opponent, q, position, rev, moved, newPlayer, newOpponent);
    NoneMoved(opponent, rev, newOpponent);
  }

  /**
   * On a vacant square, legal_move marks the square exactly when reverse
   * turns some stone over: the two loops agree on the eight lines.
   */
  method LegalAgreesWithReverse(player: bv64, opponent: bv64, position: bv64, ghost q: Square)
    returns (legal: bv64, rev: bv64)
    requires Disjoint(player, opponent) && position == Cell(q)
    requires Vacant(player, opponent, q)
    ensures (position & legal != 0) == (rev != 0)
  {
    legal := LegalMove(player, opponent);
    rev := Reverse(player, opponent, position, q);
    CellAnd(legal, q);
  }
}

/** Bitboards: a 64-bit word holds one bit per square of the 8x8 board. */
module Bits {
  /** The bit of the upper-left square; square j is this bit shifted right by j. */
  const UpperLeft: bv64 := 0x8000_0000_0000_0000

  /** A square index 0..63, row by row from the upper-left corner. */
  type Square = j: bv7 | j < 64

  function Cell(j: Square): bv64 { UpperLeft >> j }

  /** Whether square j is set in x: the engine's test `x & (UPPER_LEFT >> j) != 0`. */
  predicate Has(x: bv64, j: Square) {
    Test(x, j, 1)
  }

  /**
   * The bit test, one level of recursion deep. The solver then unfolds it only
   * where HasDef asks for it, so the lemmas that combine squares reason about
   * Has alone and not about 64-bit words.
   */
  predicate Test(x: bv64, j: Square, depth: nat) {
    if depth == 0 then x & Cell(j) != 0 else Test(x, j, depth - 1)
  }

  lemma HasDef(x: bv64, j: Square)
    ensures Has(x, j) == (x & Cell(j) != 0)
  {
    assert Test(x, j, 1) == Test(x, j, 0);
  }

  lemma SingleBit(x: bv64, j: Square)
    ensures x & Cell(j) == 0 || x & Cell(j) == Cell(j)
  {}

  lemma CellNonzero(j: Square)
    ensures Cell(j) != 0
  {}

  lemma DistAnd(x: bv64, y: bv64, c: bv64)
    ensures (x & y) & c == (x & c) & (y & c)
  {}

  lemma DistOr(x: bv64, y: bv64, c: bv64)
    ensures (x | y) & c == (x & c) | (y & c)
  {}

  lemma DistXor(x: bv64, y: bv64, c: bv64)
    ensures (x ^ y) & c == (x & c) ^ (y & c)
  {}

  lemma NotAnd(x: bv64, c: bv64)
    ensures !x & c == c ^ (x & c)
  {}

  lemma OrNonzero(a: bv64, b: bv64)
    ensures (a | b != 0) == (a != 0 || b != 0)
  {}

  lemma XorNonzero(a: bv64, b: bv64, c: bv64)
    requires (a == 0 || a == c) && (b == 0 || b == c) && c != 0
    ensures (a ^ b != 0) == ((a != 0) != (b != 0))
  {}

  lemma FlipNonzero(a: bv64, c: bv64)
    requires (a == 0 || a == c) && c != 0
    ensures (c ^ a != 0) == !(a != 0)
  {}

  lemma HasZero(j: Square)
    ensures !Has(0, j)
  {
    HasDef(0, j);
  }

  lemma HasOr(x: bv64, y: bv64, j: Square)
    ensures Has(x | y, j) == (Has(x, j) || Has(y, j))
  {
    HasDef(x | y, j);
    HasDef(x, j);
    HasDef(y, j);
    OrTest(x, y, Cell(j));
  }

  lemma OrTest(x: bv64, y: bv64, c: bv64)
    ensures ((x | y) & c != 0) == (x & c != 0 || y & c != 0)
  {
    DistOr(x, y, c);
    OrNonzero(x & c, y & c);
  }

  lemma HasAnd(x: bv64, y: bv64, j: Square)
    ensures Has(x & y, j) == (Has(x, j) && Has(y, j))
  {
    HasDef(x & y, j);
    HasDef(x, j);
    HasDef(y, j);
    SingleBit(x, j);
    SingleBit(y, j);
    CellNonzero(j);
    AndTest(x, y, Cell(j));
  }

  lemma AndTest(x: bv64, y: bv64, c: bv64)
    requires (x & c == 0 || x & c == c) && (y & c == 0 || y & c == c) && c != 0
    ensures ((x & y) & c != 0) == (x & c != 0 && y & c != 0)
  {
    DistAnd(x, y, c);
    if x & c == 0 {
      AndZero(y & c);
    } else if y & c == 0 {
      AndZero(x & c);
      AndComm(x & c, 0);
    } else {
      AndSelf(c);
    }
  }

  lemma AndZero(a: bv64)
    ensures 0 & a == 0
  {}

  lemma AndComm(a: bv64, b: bv64)
    ensures a & b == b & a
  {}

  lemma AndSelf(c: bv64)
    ensures c & c == c
  {}

  lemma HasXor(x: bv64, y: bv64, j: Square)
    ensures Has(x ^ y, j) == (Has(x, j) != Has(y, j))
  {
    HasDef(x ^ y, j);
    HasDef(x, j);
    HasDef(y, j);
    SingleBit(x, j);
    SingleBit(y, j);
    CellNonzero(j);
    XorTest(x, y, Cell(j));
  }

  lemma XorTest(x: bv64, y: bv64, c: bv64)
    requires (x & c == 0 || x & c == c) && (y & c == 0 || y & c == c) && c != 0
    ensures ((x ^ y) & c != 0) == ((x & c != 0) != (y & c != 0))
  {
    DistXor(x, y, c);
    XorNonzero(x & c, y & c, c);
  }

  lemma HasNot(x: bv64, j: Square)
    ensures Has(!x, j) == !Has(x, j)
  {
    HasDef(!x, j);
    HasDef(x, j);
    SingleBit(x, j);
    CellNonzero(j);
    NotTest(x, Cell(j));
  }

  lemma NotTest(x: bv64, c: bv64)
    requires (x & c == 0 || x & c == c) && c != 0
    ensures (!x & c != 0) == !(x & c != 0)
  {
    NotAnd(x, c);
    FlipNonzero(x & c, c);
  }

  /** The squares of a conjunction, a union and a complement, for every square at once. */
  lemma AndAll(x: bv64, y: bv64, z: bv64)
    requires z == x & y
    ensures forall j: Square :: Has(z, j) == (Has(x, j) && Has(y, j))
  {
    forall j: Square ensures Has(z, j) == (Has(x, j) && Has(y, j)) {
      HasAnd(x, y, j);
    }
  }

  lemma OrAll(x: bv64, y: bv64, z: bv64)
    requires z == x | y
    ensures forall j: Square :: Has(z, j) == (Has(x, j) || Has(y, j))
  {
    forall j: Square ensures Has(z, j) == (Has(x, j) || Has(y, j)) {
      HasOr(x, y, j);
    }
  }

  lemma XorAll(x: bv64, y: bv64, z: bv64)
    requires z == x ^ y
    ensures forall j: Square :: Has(z, j) == (Has(x, j) != Has(y, j))
  {
    forall j: Square ensures Has(z, j) == (Has(x, j) != Has(y, j)) {
      HasXor(x, y, j);
    }
  }

  lemma NotAll(x: bv64, z: bv64)
    requires z == !x
    ensures forall j: Square :: Has(z, j) == !Has(x, j)
  {
    forall j: Square ensures Has(z, j) == !Has(x, j) {
      HasNot(x, j);
    }
  }

  /** The squares of `x` outside both `y` and `z`: legal_move's final masking. */
  lemma HasAndNotOr(x: bv64, y: bv64, z: bv64, j: Square)
    ensures Has(x & !(y | z), j) == (Has(x, j) && !Has(y, j) && !Has(z, j))
  {
    HasAnd(x, !(y | z), j);
    HasNot(y | z, j);
    HasOr(y, z, j);
  }

  lemma AndNotOrAll(x: bv64, y: bv64, z: bv64, r: bv64)
    requires r == x & !(y | z)
    ensures forall j: Square :: Has(r, j) == (Has(x, j) && !Has(y, j) && !Has(z, j))
  {
    forall j: Square ensures Has(r, j) == (Has(x, j) && !Has(y, j) && !Has(z, j)) {
      HasAndNotOr(x, y, z, j);
    }
  }

  lemma HasDisjoint(x: bv64, y: bv64, j: Square)
    requires x & y == 0
    ensures !(Has(x, j) && Has(y, j))
  {
    HasAnd(x, y, j);
    HasZero(j);
  }

  lemma CellTest(j: Square, k: Square)
    ensures (Cell(j) & Cell(k) != 0) == (j == k)
  {}

  lemma HasCell(j: Square, k: Square)
    ensures Has(Cell(j), k) == (j == k)
  {
    HasDef(Cell(j), k);
    CellTest(j, k);
  }
}

/** Counting the squares of a bitboard. */
module BitCount {
  import opened Bits

  /** The square with nat index k. */
  function Index(k: nat): Square
    requires k < 64
  { k as bv7 }

  lemma IndexInt(k: nat)
    requires k < 64
    ensures Index(k) as int == k
  {
    if k < 8 {} else if k < 16 {} else if k < 24 {} else if k < 32 {}
    else if k < 40 {} else if k < 48 {} else if k < 56 {} else {}
  }

  lemma IndexEq(k: nat, j: Square)
    requires k < 64
    ensures (Index(k) == j) == (k == j as int)
  {
    IndexInt(k);
  }

  /** The number of squares of `x` among indices 0 .. k-1. */
  function CountBelow(x: bv64, k: nat): nat
    requires k <= 64
  {
    if k == 0 then 0 else CountBelow(x, k - 1) + Bit(x, Index(k - 1))
  }

  /** 1 when square j is set in x, else 0. */
  function Bit(x: bv64, j: Square): nat {
    if Has(x, j) then 1 else 0
  }

  /** The number of set bits (Rust's `u64::count_ones`). */
  function PopCount(x: bv64): nat { CountBelow(x, 64) }

  /** Counting a word that splits into two disjoint words. */
  lemma {:induction false} CountSplit(x: bv64, y: bv64, z: bv64, k: nat)
    requires k <= 64
    requires forall c: Square :: Has(z, c) == (Has(x, c) || Has(y, c))
    requires forall c: Square :: !(Has(x, c) && Has(y, c))
    ensures CountBelow(z, k) == CountBelow(x, k) + CountBelow(y, k)
  {
    if k > 0 {
      CountSplit(x, y, z, k - 1);
      var j := Index(k - 1);
      assert Has(z, j) == (Has(x, j) || Has(y, j));
      assert !(Has(x, j) && Has(y, j));
    }
  }

  /** The popcount of a disjoint union is the sum of the popcounts. */
  lemma PopCountSplit(x: bv64, y: bv64, z: bv64)
    requires forall c: Square :: Has(z, c) == (Has(x, c) || Has(y, c))
    requires forall c: Square :: !(Has(x, c) && Has(y, c))
    ensures PopCount(z) == PopCount(x) + PopCount(y)
  {
    CountSplit(x, y, z, 64);
  }

  lemma {:induction false} CountOne(x: bv64, q: Square, k: nat)
    requires k <= 64
    requires forall c: Square :: Has(x, c) == (c == q)
    ensures CountBelow(x, k) == if q as int < k then 1 else 0
  {
    if k > 0 {
      CountOne(x, q, k - 1);
      IndexEq(k - 1, q);
      assert Has(x, Index(k - 1)) == (Index(k - 1) == q);
    }
  }

  /** A word holding exactly one square has popcount 1. */
  lemma PopCountOne(x: bv64, q: Square)
    requires forall c: Square :: Has(x, c) == (c == q)
    ensures PopCount(x) == 1
  {
    CountOne(x, q, 64);
  }

  lemma {:induction false} CountSome(x: bv64, q: Square, k: nat)
    requires k <= 64 && q as int < k && Has(x, q)
    ensures CountBelow(x, k) >= 1
  {
    IndexEq(k - 1, q);
    if Index(k - 1) != q {
      CountSome(x, q, k - 1);
    }
  }

  /** A word holding some square has a positive popcount. */
  lemma PopCountSome(x: bv64, q: Square)
    requires Has(x, q)
    ensures PopCount(x) >= 1
  {
    CountSome(x, q, 64);
  }

  const Full: bv64 := 0xffff_ffff_ffff_ffff

  /** The squares 0 .. k-1 as a word. */
  function Prefix(k: nat): bv64
    requires k <= 64
  {
    if k == 0 then 0 else Prefix(k - 1) | Cell(Index(k - 1))
  }

  lemma ShiftStep(k: Square)
    ensures !(Full >> (k + 1)) == !(Full >> k) | Cell(k)
  {}

  lemma BvPred(s: bv7)
    requires 0 < s <= 64
    ensures (s - 1) as int == s as int - 1
  {}

  lemma BvBound(s: bv7, k: nat)
    requires s as int == k && k <= 64
    ensures s <= 64 && (k > 0 ==> s > 0)
  {}

  /** The squares below k are the complement of the full word shifted right by k (= s). */
  lemma {:induction false} PrefixShift(k: nat, s: bv7)
    requires k <= 64 && s as int == k
    ensures Prefix(k) == !(Full >> s)
  {
    BvBound(s, k);
    if k > 0 {
      BvPred(s);
      PrefixShift(k - 1, s - 1);
      IndexEq(k - 1, s - 1);
      ShiftStep(s - 1);
    }
  }

  lemma AndOver(x: bv64, a: bv64, b: bv64)
    requires x & a == 0 && x & b == 0
    ensures x & (a | b) == 0
  {}

  lemma {:induction false} ZeroBelow(x: bv64, k: nat)
    requires k <= 64
    requires forall i: nat {:trigger Index(i)} :: i < k ==> !Has(x, Index(i))
    ensures x & Prefix(k) == 0
    decreases k
  {
    if k > 0 {
      var j := Index(k - 1);
      assert !Has(x, j);
      ZeroBelow(x, k - 1);
      HasDef(x, j);
      AndOver(x, Prefix(k - 1), Cell(j));
    }
  }

  /** A word with no square set is zero. */
  lemma Empty(x: bv64)
    requires forall c: Square :: !Has(x, c)
    ensures x == 0
  {
    ZeroBelow(x, 64);
    PrefixShift(64, 64);
  }

  /** A word is non-zero exactly when some square is set in it. */
  lemma NonzeroHas(x: bv64)
    ensures (x != 0) == exists c: Square :: Has(x, c)
  {
    if x != 0 {
      if forall c: Square :: !Has(x, c) {
        Empty(x);
      }
    } else {
      forall c: Square ensures !Has(x, c) {
        HasZero(c);
      }
    }
  }

  /** Two words with the same squares are equal. */
  lemma Extensional(x: bv64, y: bv64)
    requires forall c: Square :: Has(x, c) == Has(y, c)
    ensures x == y
  {
    var z := x ^ y;
    forall c: Square ensures !Has(z, c) {
      HasXor(x, y, c);
    }
    Empty(z);
    XorZero(x, y);
  }

  lemma XorZero(x: bv64, y: bv64)
    requires x ^ y == 0
    ensures x == y
  {}
}

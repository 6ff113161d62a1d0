/**
 * The random player of the bitboard crate: it draws an index below the number of
 * legal moves and plays the legal square with that many legal squares before it,
 * counting from the upper-left corner. The draw is a parameter.
 */
module RandomPlayer {
  import opened Wrappers
  import opened Bits
  import opened BitCount
  import opened Game

  /** Square q is the legal square that draw `idx` picks: it has `idx` legal squares before it. */
  predicate Picks(legal: bv64, q: Square, idx: nat) {
    Has(legal, q) && CountBelow(legal, q as int) == idx
  }

  lemma CountNext(x: bv64, q: Square)
    ensures CountBelow(x, q as int + 1) == CountBelow(x, q as int) + Bit(x, q)
  {
    IndexInt(q as int);
    IndexEq(q as int, q);
  }

  lemma CountStep(x: bv64, i: nat)
    requires i < 64
    ensures CountBelow(x, i + 1) == CountBelow(x, i) + if Has(x, Index(i)) then 1 else 0
  {}

  lemma {:induction false} CountMono(x: bv64, j: nat, k: nat)
    requires j <= k <= 64
    ensures CountBelow(x, j) <= CountBelow(x, k)
    decreases k
  {
    if j < k {
      CountMono(x, j, k - 1);
    }
  }

  /** A set square counts towards every later square. */
  lemma Later(x: bv64, p: Square, q: Square)
    requires p < q && Has(x, p)
    ensures CountBelow(x, p as int) < CountBelow(x, q as int)
  {
    CountNext(x, p);
    CountMono(x, p as int + 1, q as int);
  }

  /** Two legal squares with as many legal squares before them are the same square. */
  lemma PicksUnique(legal: bv64, p: Square, q: Square, idx: nat)
    requires Picks(legal, p, idx) && Picks(legal, q, idx)
    ensures p == q
  {
    if p < q {
      Later(legal, p, q);
    } else if q < p {
      Later(legal, q, p);
    }
  }

  /** Every legal square is picked by one of the draws 0 .. n-1. */
  lemma EverySquareDrawn(legal: bv64, q: Square)
    requires Has(legal, q)
    ensures CountBelow(legal, q as int) < PopCount(legal)
    ensures Picks(legal, q, CountBelow(legal, q as int))
  {
    CountNext(legal, q);
    CountMono(legal, q as int + 1, 64);
  }

  lemma {:induction false} CountWitness(x: bv64, k: nat)
    requires k <= 64 && CountBelow(x, k) > 0
    ensures exists q: Square :: Has(x, q)
  {
    if !Has(x, Index(k - 1)) {
      CountWitness(x, k - 1);
    }
  }

  /** A mask with a positive count has a square. */
  lemma PopCountWitness(x: bv64)
    requires PopCount(x) > 0
    ensures exists q: Square :: Has(x, q)
  {
    CountWitness(x, 64);
  }

  /**
   * The counting-down loop of the random choices: walk the squares from the upper-left
   * corner and, on each legal one, stop if `idx` is 0 or count it down.
   */
  method NthSquare(legal: bv64, draw: nat) returns (q: Square)
    requires draw < PopCount(legal)
    ensures Picks(legal, q, draw)
  {
    var idx: nat := draw;
    for i := 0 to 64
      invariant idx + CountBelow(legal, i) == draw
    {
      CountStep(legal, i);
      if Has(legal, Index(i)) {
        if idx == 0 {
          IndexInt(i);
          return Index(i);
        }
        idx := idx - 1;
      }
    }
    assert false;
  }

  /** `find_move`: no legal move is an error; otherwise the square that the draw picks. */
  method FindMove(e: Engine, board: Board, draw: nat) returns (r: Result<bv64, Error>)
    requires PopCount(e.legal(board)) == 0 || draw < PopCount(e.legal(board))
    ensures r.Err? <==> PopCount(e.legal(board)) == 0
    ensures r.Err? ==> r.error == NotFoundLegalMove
    ensures r.Ok? ==> exists q: Square :: r.value == Cell(q) && Picks(e.legal(board), q, draw)
  {
    var legal := e.legal(board);
    var n := PopCount(legal);
    if n == 0 {
      return Err(NotFoundLegalMove);
    }
    var q := NthSquare(legal, draw);
    return Ok(Cell(q));
  }
}

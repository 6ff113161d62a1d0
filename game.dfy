/**
 * The bitboard `Board` that the players and the tree searches drive. Its code is
 * not part of this model: its three fields (the black mask, the white mask and the
 * side to move) are concrete, and its rules (the legal-move mask, the position
 * list, `put` and `finished`) are the functions of an `Engine` value.
 */
module Game {
  import opened Wrappers
  import opened Bits
  import opened BitCount

  datatype Stone = Black | White

  /** The other colour. */
  function Other(s: Stone): (r: Stone)
    ensures r != s
  {
    if s == Black then White else Black
  }

  datatype Board = Board(black: bv64, white: bv64, turn: Stone)

  /** The errors a player or a search reports. */
  datatype Error =
    | NotFoundLegalMove
      /** A move the engine's `put` refused. */
    | Rejected
      /** A choice among no moves: `max_by(..).unwrap()` on an empty list, a panic in the source. */
    | NoMove
      /** The network failed, or its policy did not have one entry per square. */
    | BadOutput

  /**
   * The rules of the unseen board: the legal-move mask, the squares of a mask in
   * the order of `to_position_list`, `put` of the move on a square (the board it
   * leads to, or None when the board refuses it), and whether a board ends the game.
   */
  datatype Engine = Engine(
    legal: Board -> bv64,
    positions: bv64 -> seq<Square>,
    put: (Board, Square) -> Option<Board>,
    finished: Board -> bool)

  /** The position list of a board's legal moves. */
  function Moves(e: Engine, b: Board): seq<Square> {
    e.positions(e.legal(b))
  }

  /** The position list names every legal square, and only those. */
  ghost predicate ListsLegal(e: Engine, b: Board) {
    forall q: Square :: q in Moves(e, b) <==> Has(e.legal(b), q)
  }

  /** Both masks, counted (`count_stone`). */
  datatype StoneCount = StoneCount(black: nat, white: nat)

  function CountStone(b: Board): (c: StoneCount)
    ensures c.black <= 64 && c.white <= 64
  {
    CountBelowBound(b.black, 64);
    CountBelowBound(b.white, 64);
    StoneCount(PopCount(b.black), PopCount(b.white))
  }

  lemma {:induction false} CountBelowBound(x: bv64, k: nat)
    requires k <= 64
    ensures CountBelow(x, k) <= k
  {
    if k > 0 {
      CountBelowBound(x, k - 1);
    }
  }

  /** The mask of colour `s`. */
  function StonesOf(b: Board, s: Stone): bv64 {
    if s == Black then b.black else b.white
  }

  /** The number of stones of colour `s` on `b`. */
  function CountOf(b: Board, s: Stone): (n: nat)
    ensures n == PopCount(StonesOf(b, s))
  {
    if s == Black then CountStone(b).black else CountStone(b).white
  }

  /**
   * The number of stones in two masks. `depth` only keeps the solver from unfolding
   * the count where nothing asks for it (as Bits.Test does); StonesDef unfolds it.
   */
  function Stones(x: bv64, y: bv64, depth: nat): (t: nat)
    ensures t <= 128
  {
    if depth == 0 then
      CountBelowBound(x, 64);
      CountBelowBound(y, 64);
      PopCount(x) + PopCount(y)
    else Stones(x, y, depth - 1)
  }

  lemma StonesDef(x: bv64, y: bv64)
    ensures Stones(x, y, 1) == PopCount(x) + PopCount(y)
  {
    assert Stones(x, y, 1) == Stones(x, y, 0);
  }

  /** The number of stones on the board. */
  function Total(b: Board): (t: nat)
    ensures t <= 128
  {
    Stones(b.black, b.white, 1)
  }

  /** Every move the engine accepts adds a stone, so play cannot go on forever. */
  ghost predicate AddsStones(e: Engine) {
    forall b: Board, q: Square :: e.put(b, q).Some? ==> Total(e.put(b, q).value) > Total(b)
  }

  /** The searches' table key: the mover's mask first, then the opponent's. */
  function Key(b: Board): (s: (bv64, bv64)) {
    if b.turn == Black then (b.black, b.white) else (b.white, b.black)
  }

  /** The key holds the mover's stones, then the opponent's, whoever is to move. */
  lemma KeyMoverFirst(b: Board)
    ensures Key(b) == (StonesOf(b, b.turn), StonesOf(b, Other(b.turn)))
  {}

  /** The board a key stands for, given the side to move. */
  function Unkey(s: (bv64, bv64), turn: Stone): (b: Board)
    ensures b.turn == turn
  {
    if turn == Black then Board(s.0, s.1, turn) else Board(s.1, s.0, turn)
  }

  /** The key and the side to move determine the board. */
  lemma KeyUnkey(b: Board)
    ensures Unkey(Key(b), b.turn) == b
  {}

  /** A key counts the same stones as its board. */
  lemma KeyTotal(b: Board)
    ensures Stones(Key(b).0, Key(b).1, 1) == Total(b)
  {
    StonesDef(b.black, b.white);
    StonesDef(b.white, b.black);
  }
}

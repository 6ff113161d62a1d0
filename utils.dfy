/**
 * The helpers of the bitboard crate's utilities: the outcome of a finished game
 * seen from one side, and the two-plane encoding of a board that the policy and
 * value network reads. (The move-input parser is the module Parse.)
 */
module Utils {
  import opened Bits
  import opened BitCount
  import opened Game

  /**
   * `game_result`: 1 when `player` has more stones, -1 when fewer, 0 on a draw.
   * `depth` only keeps the solver from counting stones where nothing asks for it;
   * GameResultSign states what the result is.
   */
  function GameResult(b: Board, player: Stone, depth: nat := 1): int {
    if depth == 0 then
      var count := CountStone(b);
      var res := if count.black == count.white then 0 else if count.black > count.white then 1 else -1;
      if player == Black then res else -res
    else GameResult(b, player, depth - 1)
  }

  /** The result is 1 for the side with more stones, -1 for the side with fewer, 0 on a draw. */
  lemma GameResultSign(b: Board, player: Stone)
    ensures GameResult(b, player) == 0 <==> CountOf(b, Black) == CountOf(b, White)
    ensures GameResult(b, player) == 1 <==> CountOf(b, player) > CountOf(b, Other(player))
    ensures GameResult(b, player) == -1 <==> CountOf(b, player) < CountOf(b, Other(player))
  {
    assert GameResult(b, player) == GameResult(b, player, 0);
  }

  /** The result is zero-sum: what one side wins, the other loses. */
  lemma GameResultZeroSum(b: Board)
    ensures GameResult(b, White) == -GameResult(b, Black)
  {
    assert GameResult(b, White) == GameResult(b, White, 0);
    assert GameResult(b, Black) == GameResult(b, Black, 0);
  }

  /** The plane that holds the stones of colour `s`: 0 for the side to move, 1 for the other. */
  function PlaneOf(turn: Stone, s: Stone): nat {
    if s == turn then 0 else 1
  }

  /**
   * Entry (plane, i) of the encoding for square i: a black stone marks the black
   * plane; a white stone marks the white plane only where there is no black stone.
   */
  function Entry(b: Board, plane: nat, i: Square): real {
    if Has(b.black, i) then
      (if plane == PlaneOf(b.turn, Black) then 1.0 else 0.0)
    else if Has(b.white, i) then
      (if plane == PlaneOf(b.turn, White) then 1.0 else 0.0)
    else
      0.0
  }

  /** Every entry is 0 or 1, and no square is marked in both planes. */
  lemma EntryOneHot(b: Board, i: Square)
    ensures Entry(b, 0, i) in {0.0, 1.0} && Entry(b, 1, i) in {0.0, 1.0}
    ensures !(Entry(b, 0, i) == 1.0 && Entry(b, 1, i) == 1.0)
  {}

  /**
   * On a square that is not in both masks, plane 0 holds the mover's stones and
   * plane 1 the opponent's: the planes are the two halves of the table key.
   */
  lemma EntryMoverFirst(b: Board, i: Square)
    requires !(Has(b.black, i) && Has(b.white, i))
    ensures Entry(b, 0, i) == 1.0 <==> Has(Key(b).0, i)
    ensures Entry(b, 1, i) == 1.0 <==> Has(Key(b).1, i)
  {}

  /** Square i sits in row i / 8 and column i % 8 of a plane. */
  lemma RowColumn(i: nat, r: nat, c: nat)
    requires c < 8
    ensures (8 * r + c == i) <==> (r == i / 8 && c == i % 8)
  {}

  /** One round of the encoding loop: square i marks its row and column in one plane at most. */
  method Mark(t: array3<real>, b: Board, i: nat, blackIdx: nat, whiteIdx: nat)
    requires t.Length0 == 2 && t.Length1 == 8 && t.Length2 == 8 && i < 64
    requires blackIdx == PlaneOf(b.turn, Black) && whiteIdx == PlaneOf(b.turn, White)
    requires t[0, i / 8, i % 8] == 0.0 && t[1, i / 8, i % 8] == 0.0
    modifies t
    ensures forall p, r, c :: 0 <= p < 2 && 0 <= r < 8 && 0 <= c < 8 ==>
      t[p, r, c] == if r == i / 8 && c == i % 8 then Entry(b, p, Index(i)) else old(t[p, r, c])
  {
    if Has(b.black, Index(i)) {
      t[blackIdx, i / 8, i % 8] := 1.0;
    } else if Has(b.white, Index(i)) {
      t[whiteIdx, i / 8, i % 8] := 1.0;
    }
  }

  /** `create_board_tensor`: the 2 x 8 x 8 array of entries, square i at row i / 8, column i % 8. */
  method CreateBoardTensor(b: Board) returns (t: array3<real>)
    ensures fresh(t) && t.Length0 == 2 && t.Length1 == 8 && t.Length2 == 8
    ensures forall p, r, c :: 0 <= p < 2 && 0 <= r < 8 && 0 <= c < 8 ==>
      t[p, r, c] == Entry(b, p, Index(8 * r + c))
  {
    t := new real[2, 8, 8]((_, _, _) => 0.0);
    var (blackIdx, whiteIdx) := if b.turn == Black then (0, 1) else (1, 0);
    for i := 0 to 64
      invariant forall p, r, c :: 0 <= p < 2 && 0 <= r < 8 && 0 <= c < 8 ==>
        t[p, r, c] == if 8 * r + c < i then Entry(b, p, Index(8 * r + c)) else 0.0
    {
      RowColumn(i, i / 8, i % 8);
      Mark(t, b, i, blackIdx, whiteIdx);
      forall p, r, c | 0 <= p < 2 && 0 <= r < 8 && 0 <= c < 8
        ensures t[p, r, c] == if 8 * r + c < i + 1 then Entry(b, p, Index(8 * r + c)) else 0.0
      {
        RowColumn(i, r, c);
      }
    }
  }
}

/**
 * The random player of the first generation's player module that already drives a
 * bitboard: it keeps the colour it plays and picks the legal square a draw names,
 * exactly as the bitboard crate's random player does.
 */
module LegacyRandomPlayer {
  import opened Wrappers
  import opened Bits
  import opened BitCount
  import opened Game
  import RandomPlayer

  const CannotPut: string := "Can't put stone"

  class Player {
    /** The colour this player plays. */
    const stone: Stone

    constructor(stone: Stone)
      ensures Colour() == stone
    {
      this.stone := stone;
    }

    /** `stone()`. */
    function Colour(): Stone {
      stone
    }

    /** `find_move`: no legal move is an error; otherwise the square that the draw picks. */
    method FindMove(e: Engine, board: Board, draw: nat) returns (r: Result<bv64, string>)
      requires PopCount(e.legal(board)) == 0 || draw < PopCount(e.legal(board))
      ensures r.Err? <==> PopCount(e.legal(board)) == 0
      ensures r.Err? ==> r.error == CannotPut
      ensures r.Ok? ==> exists q: Square :: r.value == Cell(q) && RandomPlayer.Picks(e.legal(board), q, draw)
    {
      var legal := e.legal(board);
      var n := PopCount(legal);
      if n == 0 {
        return Err(CannotPut);
      }
      var q := RandomPlayer.NthSquare(legal, draw);
      return Ok(Cell(q));
    }
  }
}

/**
 * The greedy player of the bitboard crate. A coin (drawn with probability 0.8 by
 * default) decides between the greedy choice, which tries every legal move on a copy
 * of the board and keeps the first one that leaves the mover the most stones, and
 * the random player's choice. The coin and the draw are parameters.
 */
module GreedyPlayer {
  import opened Wrappers
  import opened Bits
  import opened BitCount
  import opened Game
  import opened RandomPlayer

  /** The mover's stone count after the move on q, when the board accepts it. */
  function Gain(e: Engine, board: Board, q: Square): nat
    requires e.put(board, q).Some?
  {
    CountOf(e.put(board, q).value, board.turn)
  }

  /** The board accepts each of the first k moves of ps. */
  predicate Accepted(e: Engine, board: Board, ps: seq<Square>, k: nat) {
    k <= |ps| && forall j :: 0 <= j < k ==> e.put(board, ps[j]).Some?
  }

  /** The gains of all the moves of ps, when the board accepts each of them. */
  function Gains(e: Engine, board: Board, ps: seq<Square>): (g: seq<nat>)
    requires Accepted(e, board, ps, |ps|)
    ensures |g| == |ps| && forall j :: 0 <= j < |ps| ==> g[j] == Gain(e, board, ps[j])
  {
    seq(|ps|, j requires 0 <= j < |ps| && e.put(board, ps[j]).Some? => Gain(e, board, ps[j]))
  }

  /** s[b] is a largest element of s, and every element before it is smaller. */
  predicate FirstMax(s: seq<nat>, b: nat) {
    b < |s| && (forall j :: 0 <= j < |s| ==> s[j] <= s[b]) && (forall j :: 0 <= j < b ==> s[j] < s[b])
  }

  /** An element no larger than the best so far leaves the best in place. */
  lemma FirstMaxKeep(s: seq<nat>, b: nat, x: nat)
    requires FirstMax(s, b) && x <= s[b]
    ensures FirstMax(s + [x], b)
  {
    var t := s + [x];
    forall j | 0 <= j < |t|
      ensures t[j] <= t[b]
    {
      if j < |s| {
        assert t[j] == s[j];
      }
    }
  }

  /** An element strictly larger than the best so far becomes the best. */
  lemma FirstMaxNew(s: seq<nat>, b: nat, x: nat)
    requires (s == [] || (FirstMax(s, b) && s[b] < x))
    ensures FirstMax(s + [x], |s|)
  {
    var t := s + [x];
    forall j | 0 <= j < |s|
      ensures t[j] < x
    {
      assert t[j] == s[j] <= s[b];
    }
  }

  /** Every move the board accepts leaves the mover at least one stone (the one just placed). */
  ghost predicate LeavesStone(e: Engine, board: Board) {
    forall q: Square :: e.put(board, q).Some? ==> Gain(e, board, q) >= 1
  }

  /** One round of the greedy loop: a move whose gain beats the best so far replaces it. */
  method Consider(ghost gains: seq<nat>, best: Option<Square>, bestNum: nat, ghost b: nat, q: Square, num: nat)
    returns (best': Option<Square>, bestNum': nat, ghost b': nat)
    requires best.None? <==> gains == []
    requires best.None? ==> bestNum == 0
    requires best.Some? ==> FirstMax(gains, b) && bestNum == gains[b]
    requires num >= 1
    ensures FirstMax(gains + [num], b') && bestNum' == (gains + [num])[b']
    ensures best' == if b' == |gains| then Some(q) else best
  {
    if bestNum < num {
      FirstMaxNew(gains, b, num);
      bestNum', best', b' := num, Some(q), |gains|;
    } else {
      FirstMaxKeep(gains, b, num);
      bestNum', best', b' := bestNum, best, b;
    }
  }

  /**
   * The greedy loop: try each move of ps on a copy of the board, and keep the first
   * one whose gain beats the best so far (which starts at 0). A refused move is an error.
   */
  method Greediest(e: Engine, board: Board, ps: seq<Square>) returns (r: Result<Square, Error>)
    requires 0 < |ps|
    requires forall j :: 0 <= j < |ps| && e.put(board, ps[j]).Some? ==> Gain(e, board, ps[j]) >= 1
    ensures r.Ok? <==> Accepted(e, board, ps, |ps|)
    ensures r.Err? ==> r.error == Rejected
    ensures r.Ok? ==> exists b :: 0 <= b < |ps| && r.value == ps[b] && FirstMax(Gains(e, board, ps), b)
  {
    var best: Option<Square> := None;
    var bestNum: nat := 0;
    ghost var b: nat := 0;
    ghost var gains: seq<nat> := [];
    for k := 0 to |ps|
      invariant Accepted(e, board, ps, k)
      invariant |gains| == k && forall j :: 0 <= j < k ==> gains[j] == Gain(e, board, ps[j])
      invariant best.None? <==> k == 0
      invariant best.None? ==> bestNum == 0
      invariant best.Some? ==> FirstMax(gains, b) && best.value == ps[b] && bestNum == gains[b]
    {
      var tmp := e.put(board, ps[k]);
      if tmp.None? {
        return Err(Rejected);
      }
      var num := CountOf(tmp.value, board.turn);
      assert num == Gain(e, board, ps[k]) >= 1;
      best, bestNum, b := Consider(gains, best, bestNum, b, ps[k], num);
      gains := gains + [num];
    }
    assert gains == Gains(e, board, ps);
    match best
    case Some(q) =>
      r := Ok(q);
    case None =>
      assert false;
  }

  /**
   * `find_move`. No legal move is an error. With the coin up, a move the board
   * refuses is an error; otherwise the result is the first legal move, in position
   * list order, whose gain is the largest. With the coin down, the square the draw picks.
   */
  method FindMove(e: Engine, board: Board, greedy: bool, draw: nat) returns (r: Result<bv64, Error>)
    requires ListsLegal(e, board) && LeavesStone(e, board)
    requires !greedy && PopCount(e.legal(board)) > 0 ==> draw < PopCount(e.legal(board))
    ensures PopCount(e.legal(board)) == 0 ==> r == Err(NotFoundLegalMove)
    ensures PopCount(e.legal(board)) > 0 && r.Err? ==> r.error == Rejected
    ensures PopCount(e.legal(board)) > 0 && greedy ==>
      (r.Ok? <==> Accepted(e, board, Moves(e, board), |Moves(e, board)|))
    ensures greedy && r.Ok? ==>
      exists b :: 0 <= b < |Moves(e, board)| && r.value == Cell(Moves(e, board)[b])
        && Has(e.legal(board), Moves(e, board)[b]) && FirstMax(Gains(e, board, Moves(e, board)), b)
    ensures PopCount(e.legal(board)) > 0 && !greedy ==> r.Ok?
    ensures !greedy && r.Ok? ==> exists q: Square :: r.value == Cell(q) && Picks(e.legal(board), q, draw)
  {
    var legal := e.legal(board);
    var n := PopCount(legal);
    if n == 0 {
      return Err(NotFoundLegalMove);
    }
    if greedy {
      var ps := Moves(e, board);
      PopCountWitness(legal);
      var best := Greediest(e, board, ps);
      match best
      case Ok(q) =>
        r := Ok(Cell(q));
      case Err(err) =>
        r := Err(err);
    } else {
      var q := NthSquare(legal, draw);
      r := Ok(Cell(q));
    }
  }
}

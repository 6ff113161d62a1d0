/**
 * The AlphaZero player of the bitboard crate: a tree search whose tables (action
 * values Qsa, action visits Nsa, state visits Ns and priors Ps) live in one object and
 * grow with every simulation. The network is a function from a board (through its
 * encoding, Utils.CreateBoardTensor) to a policy and a value; its random Dirichlet
 * noise is a parameter.
 */
module AlphaZero {
  import opened Wrappers
  import opened Bits
  import opened BitCount
  import opened Game
  import opened SearchTables
  import Utils

  /** The Dirichlet concentration and the weight of the noise at the root. */
  const Alpha: real := 0.35
  const Eps: real := 0.25

  /** What the network returns for a board: the policy over the squares and the value. */
  datatype Evaluation = Evaluation(policy: seq<real>, value: real)

  /** The network's outputs: None when it fails, otherwise a policy and a value. */
  type Network = Board -> Option<Evaluation>

  /** The network succeeded and its policy has one entry per square (`to_shape(64)?`). */
  predicate Evaluated(o: Option<Evaluation>) {
    o.Some? && |o.value.policy| == 64
  }

  /** Every value the network gives lies in [-1, 1], as a `tanh` head's does. */
  ghost predicate ValueRange(net: Network) {
    forall b :: net(b).Some? ==> -1.0 <= net(b).value.value <= 1.0
  }

  /** The legal-move mask: 1 on the legal squares, 0 elsewhere. */
  function MaskOf(legal: bv64): (m: seq<real>)
    ensures |m| == 64
  {
    seq(64, i requires 0 <= i < 64 => if Has(legal, Index(i)) then 1.0 else 0.0)
  }

  lemma {:induction false} MaskPrefix(legal: bv64, k: nat)
    requires k <= 64
    ensures RealSum(MaskOf(legal)[..k]) == CountBelow(legal, k) as real
  {
    if k > 0 {
      MaskPrefix(legal, k - 1);
      assert MaskOf(legal)[..k][..k - 1] == MaskOf(legal)[..k - 1];
    }
  }

  /** The mask adds up to the number of legal moves. */
  lemma MaskSum(legal: bv64)
    ensures RealSum(MaskOf(legal)) == PopCount(legal) as real
  {
    MaskPrefix(legal, 64);
    assert MaskOf(legal)[..64] == MaskOf(legal);
  }

  /** `legal_move_to_array`: the mask, filled square by square from the upper-left corner. */
  method LegalMoveToArray(legal: bv64) returns (arr: array<real>)
    ensures fresh(arr) && arr[..] == MaskOf(legal)
  {
    arr := new real[64](_ => 0.0);
    for i := 0 to 64
      invariant forall j :: 0 <= j < 64 ==> arr[j] == if j < i then MaskOf(legal)[j] else 0.0
    {
      if Has(legal, Index(i)) {
        arr[i] := 1.0;
      }
    }
  }

  /** Entrywise product, sum and quotient of policies. */
  function Times(p: seq<real>, m: seq<real>): (r: seq<real>)
    requires |p| == |m|
    ensures |r| == |p|
  {
    seq(|p|, i requires 0 <= i < |p| => p[i] * m[i])
  }

  function Plus(p: seq<real>, m: seq<real>): (r: seq<real>)
    requires |p| == |m|
    ensures |r| == |p|
  {
    seq(|p|, i requires 0 <= i < |p| => p[i] + m[i])
  }

  function Over(p: seq<real>, d: real): (r: seq<real>)
    requires d != 0.0
    ensures |r| == |p|
  {
    seq(|p|, i requires 0 <= i < |p| => p[i] / d)
  }

  lemma {:induction false} OverSum(p: seq<real>, d: real)
    requires d != 0.0
    ensures RealSum(Over(p, d)) == RealSum(p) / d
  {
    if |p| > 0 {
      OverSum(p[..|p| - 1], d);
      assert Over(p, d)[..|p| - 1] == Over(p[..|p| - 1], d);
    }
  }

  /** The masked policy, with the mask added when the legal squares hold no positive mass. */
  function Adjusted(policy: seq<real>, mask: seq<real>): (r: seq<real>)
    requires |policy| == |mask|
    ensures |r| == |mask|
  {
    var masked := Times(policy, mask);
    if RealSum(masked) <= 0.0 then Plus(masked, mask) else masked
  }

  /**
   * The prior stored for a new state: the adjusted policy divided by its sum (where
   * that sum is 0 the source divides 0 by 0 and stores NaN; the model keeps the zeros).
   */
  function Prior(policy: seq<real>, mask: seq<real>): (r: seq<real>)
    requires |policy| == |mask|
    ensures |r| == |mask|
    ensures forall i :: 0 <= i < |mask| && mask[i] == 0.0 ==> r[i] == 0.0
    ensures RealSum(Adjusted(policy, mask)) != 0.0 ==> RealSum(r) == 1.0
  {
    var a := Adjusted(policy, mask);
    assert forall i :: 0 <= i < |mask| && mask[i] == 0.0 ==> a[i] == 0.0 by {
      forall i | 0 <= i < |mask| && mask[i] == 0.0
        ensures a[i] == 0.0
      {
        assert Times(policy, mask)[i] == 0.0;
      }
    }
    if RealSum(a) == 0.0 then a
    else
      OverSum(a, RealSum(a));
      assert RealSum(a) / RealSum(a) == 1.0;
      Over(a, RealSum(a))
  }

  /** A policy that gives the legal squares nothing falls back to the uniform prior over them. */
  lemma UniformFallback(policy: seq<real>, legal: bv64)
    requires |policy| == 64 && PopCount(legal) > 0
    requires forall i :: 0 <= i < 64 && Has(legal, Index(i)) ==> policy[i] == 0.0
    ensures Prior(policy, MaskOf(legal)) == Over(MaskOf(legal), PopCount(legal) as real)
  {
    AdjustedFallback(policy, legal);
    MaskSum(legal);
  }

  /** Such a policy is masked to nothing, so the mask itself is added. */
  lemma AdjustedFallback(policy: seq<real>, legal: bv64)
    requires |policy| == 64
    requires forall i :: 0 <= i < 64 && Has(legal, Index(i)) ==> policy[i] == 0.0
    ensures Adjusted(policy, MaskOf(legal)) == MaskOf(legal)
  {
    var mask := MaskOf(legal);
    var masked := Times(policy, mask);
    assert masked == seq(64, i requires 0 <= i < 64 => 0.0);
    ZeroSum(64);
    assert Plus(masked, mask) == mask;
  }

  lemma {:induction false} ZeroSum(n: nat)
    ensures RealSum(seq(n, i requires 0 <= i < n => 0.0)) == 0.0
  {
    if n > 0 {
      ZeroSum(n - 1);
      assert seq(n, i requires 0 <= i < n => 0.0)[..n - 1] == seq(n - 1, i requires 0 <= i < n - 1 => 0.0);
    }
  }

  /** The root prior mixed with the noise: `(1 - eps) p + eps noise`. */
  function Mix(p: seq<real>, noise: seq<real>): (r: seq<real>)
    requires |p| == |noise|
    ensures |r| == |p|
  {
    seq(|p|, i requires 0 <= i < |p| => (1.0 - Eps) * p[i] + Eps * noise[i])
  }

  lemma {:induction false} MixSum(p: seq<real>, noise: seq<real>)
    requires |p| == |noise|
    ensures RealSum(Mix(p, noise)) == (1.0 - Eps) * RealSum(p) + Eps * RealSum(noise)
  {
    if |p| > 0 {
      var k := |p| - 1;
      MixSum(p[..k], noise[..k]);
      assert Mix(p, noise)[..k] == Mix(p[..k], noise[..k]);
    }
  }

  /** Two distributions mixed are a distribution. */
  lemma MixDistribution(p: seq<real>, noise: seq<real>)
    requires |p| == |noise| && RealSum(p) == 1.0 && RealSum(noise) == 1.0
    ensures RealSum(Mix(p, noise)) == 1.0
  {
    MixSum(p, noise);
  }

  /**
   * The PUCT score of the move on square a from state s: the action value plus the
   * prior-weighted exploration term, which shrinks with the action's visits.
   * `sqrt` is the square root of a visit count.
   */
  function Score(qsa: map<Action, real>, nsa: map<Action, nat>, ns: map<State, nat>, prior: seq<real>,
                 cpuct: real, sqrt: nat -> real, s: State, a: Square): real
    requires |prior| == 64
  {
    var explore := cpuct * prior[a as int] * sqrt(Get(ns, s));
    if (s, a) in qsa then qsa[(s, a)] + explore / (1.0 + Get(nsa, (s, a)) as real) else explore
  }

  /** The move the search follows from a known state: the last of the best scores. */
  function Choose(qsa: map<Action, real>, nsa: map<Action, nat>, ns: map<State, nat>, prior: seq<real>,
                  cpuct: real, sqrt: nat -> real, s: State, moves: seq<Square>): (q: Square)
    requires |prior| == 64 && |moves| > 0
    ensures q in moves
    ensures forall a :: a in moves ==> Score(qsa, nsa, ns, prior, cpuct, sqrt, s, a) <= Score(qsa, nsa, ns, prior, cpuct, sqrt, s, q)
  {
    moves[LastMax(moves, (a: Square) => Score(qsa, nsa, ns, prior, cpuct, sqrt, s, a))]
  }

  /**
   * The choice as the source writes it: `max_by` compares the positions, not the
   * scores, so the move with the largest position, the first square in board
   * order, wins.
   */
  function LargestPosition(ps: seq<Square>): (r: nat)
    requires |ps| > 0
    ensures r < |ps|
    ensures forall j :: 0 <= j < |ps| ==> ps[r] as int <= ps[j] as int
  {
    if |ps| == 1 then 0
    else
      var r := LargestPosition(ps[..|ps| - 1]);
      CellOrder(ps[r], ps[|ps| - 1]);
      if Cell(ps[r]) > Cell(ps[|ps| - 1]) then r else |ps| - 1
  }

  /** A larger position is an earlier square. */
  lemma CellOrder(p: Square, q: Square)
    ensures Cell(p) > Cell(q) <==> p as int < q as int
  {}

  /** Two moves where the later square scores higher: as written the search still takes the earlier. */
  lemma PositionChoiceDiffers(key: Square -> real)
    requires key(Index(1)) > key(Index(0))
    ensures [Index(1), Index(0)][LargestPosition([Index(1), Index(0)])] == Index(0)
    ensures [Index(1), Index(0)][LastMax([Index(1), Index(0)], key)] == Index(1)
  {
    IndexInt(0);
    IndexInt(1);
  }

  /**
   * The move each form of the search follows from a known state: as written, the
   * legal move with the largest position, whatever the scores; once corrected, the
   * last of the best-scoring moves.
   */
  function Pick(variant: Variant, qsa: map<Action, real>, nsa: map<Action, nat>, ns: map<State, nat>, prior: seq<real>,
                cpuct: real, sqrt: nat -> real, s: State, moves: seq<Square>): (q: Square)
    requires |prior| == 64 && |moves| > 0
    ensures q in moves
    ensures variant == AsWritten ==> forall a :: a in moves ==> Cell(a) <= Cell(q)
    ensures variant == Corrected ==>
      forall a :: a in moves ==> Score(qsa, nsa, ns, prior, cpuct, sqrt, s, a) <= Score(qsa, nsa, ns, prior, cpuct, sqrt, s, q)
  {
    match variant
    case AsWritten =>
      var r := LargestPosition(moves);
      LargestCell(moves, r);
      moves[r]
    case Corrected => Choose(qsa, nsa, ns, prior, cpuct, sqrt, s, moves)
  }

  /** The earliest square of a list holds the largest position of the list. */
  lemma LargestCell(ps: seq<Square>, r: nat)
    requires r < |ps| && forall j :: 0 <= j < |ps| ==> ps[r] as int <= ps[j] as int
    ensures forall a :: a in ps ==> Cell(a) <= Cell(ps[r])
  {
    forall a | a in ps
      ensures Cell(a) <= Cell(ps[r])
    {
      CellOrder(a, ps[r]);
    }
  }

  /** The four tables of a search, taken together. */
  datatype Tables = Tables(qsa: map<Action, real>, nsa: map<Action, nat>, ns: map<State, nat>, ps: map<State, seq<real>>)

  /** The tables a simulation leaves and the value it returns (or its error). */
  datatype Outcome = Outcome(tables: Tables, result: Result<real, Error>)

  /** Every stored prior has one entry per square. */
  ghost predicate Sized(t: Tables) {
    forall s :: s in t.ps ==> |t.ps[s]| == 64
  }

  /**
   * The tables agree: the known states carry a prior and a visit count, the visited
   * actions a value and a count of at least one, and every state's count is the sum
   * of its actions' counts.
   */
  ghost predicate Consistent(t: Tables) {
    (forall s :: s in t.ps <==> s in t.ns)
    && (forall a :: a in t.qsa <==> a in t.nsa)
    && Sized(t)
    && (forall a :: a in t.nsa ==> t.nsa[a] >= 1)
    && Balanced(t.ns, t.nsa, 0)
  }

  /** Every action value lies in [-1, hi]. */
  ghost predicate ValuesWithin(t: Tables, hi: real) {
    forall a :: a in t.qsa ==> -1.0 <= t.qsa[a] <= hi
  }

  /** Every action with a value has been counted at least once. */
  ghost predicate Counted(t: Tables) {
    forall a :: a in t.qsa ==> Get(t.nsa, a) >= 1
  }

  /**
   * The value an action holds after one more value v is backed up through it: the
   * first value as it is, and after that the variant's update.
   */
  function Updated(variant: Variant, t: Tables, sa: Action, v: real): real {
    if sa in t.qsa then Update(variant, Get(t.nsa, sa), t.qsa[sa], v) else v
  }

  /** The tables after v is backed up through the move on q from state s. */
  function Recorded(variant: Variant, t: Tables, s: State, q: Square, v: real): Tables {
    Tables(t.qsa[(s, q) := Updated(variant, t, (s, q), v)],
           t.nsa[(s, q) := Get(t.nsa, (s, q)) + 1],
           t.ns[s := Get(t.ns, s) + 1],
           t.ps)
  }

  /** Backing a value up through a known state keeps the tables consistent. */
  lemma RecordedConsistent(variant: Variant, t: Tables, s: State, q: Square, v: real)
    requires Consistent(t) && s in t.ns
    ensures Consistent(Recorded(variant, t, s, q, v))
  {
    var u := Recorded(variant, t, s, q, v);
    assert u.ps == t.ps && u.ns.Keys == t.ns.Keys;
    assert u.qsa.Keys == t.qsa.Keys + {(s, q)} && u.nsa.Keys == t.nsa.Keys + {(s, q)};
    forall a | a in u.nsa
      ensures u.nsa[a] >= 1
    {
      if a != (s, q) {
        assert u.nsa[a] == t.nsa[a];
      }
    }
    RecordedBalanced(variant, t, s, q, v);
  }

  /** Backing a value up through a known state keeps every state's count the sum of its actions' counts. */
  lemma RecordedBalanced(variant: Variant, t: Tables, s: State, q: Square, v: real)
    requires Balanced(t.ns, t.nsa, 0) && s in t.ns
    ensures Balanced(Recorded(variant, t, s, q, v).ns, Recorded(variant, t, s, q, v).nsa, 0)
  {
    assert Get(t.ns, s) == t.ns[s];
    BalancedVisit(t.ns, t.nsa, 0, s, q);
  }

  /**
   * Backing up a value in [-1, 1] keeps every action value within the variant's
   * ceiling: 1 for the running mean, 2 for the update as written, which needs the
   * action to have been counted before.
   */
  lemma RecordedBounded(variant: Variant, t: Tables, s: State, q: Square, v: real)
    requires variant == AsWritten ==> Counted(t)
    requires ValuesWithin(t, Ceiling(variant)) && -1.0 <= v <= 1.0
    ensures ValuesWithin(Recorded(variant, t, s, q, v), Ceiling(variant))
  {
    var sa := (s, q);
    if sa in t.qsa {
      UpdateBounded(variant, Get(t.nsa, sa), t.qsa[sa], v);
    }
  }

  /**
   * The expansion of a state the tables do not know: the network's prior for it
   * (masked to the legal moves and normalised) and a visit count of 0; the result
   * is the network's value. A failed network, or a policy of the wrong shape, is
   * an error.
   */
  function Expanded(e: Engine, net: Network, t: Tables, board: Board): Outcome {
    var out := net(board);
    if !Evaluated(out) then Outcome(t, Err(BadOutput))
    else
      var s := Key(board);
      var prior := Prior(out.value.policy, MaskOf(e.legal(board)));
      Outcome(Tables(t.qsa, t.nsa, t.ns[s := 0], t.ps[s := prior]), Ok(out.value.value))
  }

  /** Expanding a new state keeps the tables consistent. */
  lemma ExpandedConsistent(e: Engine, net: Network, t: Tables, board: Board)
    requires Consistent(t) && Key(board) !in t.ps
    ensures Consistent(Expanded(e, net, t, board).tables)
  {
    if Evaluated(net(board)) {
      BalancedEnter(t.ns, t.nsa, 0, Key(board));
    }
  }

  /**
   * `_search`: one simulation from `board`. A state the tables do not know is
   * expanded; from a known state the search goes on in Visited.
   */
  function Simulated(variant: Variant, e: Engine, net: Network, sqrt: nat -> real, cpuct: real, t: Tables, board: Board): (o: Outcome)
    requires AddsStones(e) && Sized(t)
    ensures Sized(o.tables)
    decreases 128 - Total(board), 2
  {
    if Key(board) !in t.ps then Expanded(e, net, t, board) else Visited(variant, e, net, sqrt, cpuct, t, board)
  }

  /** From a known state the search follows the legal move `Pick` gives for the variant. */
  function Visited(variant: Variant, e: Engine, net: Network, sqrt: nat -> real, cpuct: real, t: Tables, board: Board): (o: Outcome)
    requires AddsStones(e) && Sized(t) && Key(board) in t.ps
    ensures Sized(o.tables)
    decreases 128 - Total(board), 1
  {
    var s := Key(board);
    var moves := Moves(e, board);
    if moves == [] then Outcome(t, Err(NoMove))
    else Followed(variant, e, net, sqrt, cpuct, t, board, Pick(variant, t.qsa, t.nsa, t.ns, t.ps[s], cpuct, sqrt, s, moves))
  }

  /**
   * The move on q played from a known state: the value is the game's result for the
   * mover if the move ends the game, and otherwise the deeper simulation's value,
   * negated when the turn passes to the opponent. It is backed up through the move
   * and returned.
   */
  function Followed(variant: Variant, e: Engine, net: Network, sqrt: nat -> real, cpuct: real, t: Tables, board: Board, q: Square): (o: Outcome)
    requires AddsStones(e) && Sized(t)
    ensures Sized(o.tables)
    decreases 128 - Total(board), 0
  {
    var next := e.put(board, q);
    if next.None? then Outcome(t, Err(Rejected))
    else if e.finished(next.value) then
      var v := Utils.GameResult(next.value, board.turn) as real;
      Outcome(Recorded(variant, t, Key(board), q, v), Ok(v))
    else Backed(variant, board, next.value, q, Simulated(variant, e, net, sqrt, cpuct, t, next.value))
  }

  /** The value of the deeper simulation from `child`, seen from `board`'s mover. */
  function Signed(board: Board, child: Board, v: real): real {
    if child.turn == board.turn then v else -v
  }

  /** The backup after a deeper simulation: its error, or its value backed up through q. */
  function Backed(variant: Variant, board: Board, child: Board, q: Square, deeper: Outcome): Outcome {
    if deeper.result.Err? then deeper
    else
      var v := Signed(board, child, deeper.result.value);
      Outcome(Recorded(variant, deeper.tables, Key(board), q, v), Ok(v))
  }

  /** From a known state with a legal move, a simulation plays the chosen move. */
  lemma VisitedMove(variant: Variant, e: Engine, net: Network, sqrt: nat -> real, cpuct: real, t: Tables, board: Board)
    requires AddsStones(e) && Sized(t) && Key(board) in t.ps && Moves(e, board) != []
    ensures Simulated(variant, e, net, sqrt, cpuct, t, board)
         == Followed(variant, e, net, sqrt, cpuct, t, board, Pick(variant, t.qsa, t.nsa, t.ns, t.ps[Key(board)], cpuct, sqrt, Key(board), Moves(e, board)))
  {
    assert Simulated(variant, e, net, sqrt, cpuct, t, board) == Visited(variant, e, net, sqrt, cpuct, t, board);
  }

  /** A simulation never forgets a state. */
  lemma {:induction false} SimulatedGrows(variant: Variant, e: Engine, net: Network, sqrt: nat -> real, cpuct: real, t: Tables, board: Board)
    requires AddsStones(e) && Sized(t)
    ensures forall s :: s in t.ps ==> s in Simulated(variant, e, net, sqrt, cpuct, t, board).tables.ps
    decreases 128 - Total(board)
  {
    var s := Key(board);
    if s in t.ps && Moves(e, board) != [] {
      var q := Pick(variant, t.qsa, t.nsa, t.ns, t.ps[s], cpuct, sqrt, s, Moves(e, board));
      VisitedMove(variant, e, net, sqrt, cpuct, t, board);
      var next := e.put(board, q);
      if next.Some? && !e.finished(next.value) {
        SimulatedGrows(variant, e, net, sqrt, cpuct, t, next.value);
      }
    }
  }

  /** A simulation keeps the tables consistent. */
  lemma {:induction false} SimulatedConsistent(variant: Variant, e: Engine, net: Network, sqrt: nat -> real, cpuct: real, t: Tables, board: Board)
    requires AddsStones(e) && Consistent(t)
    ensures Consistent(Simulated(variant, e, net, sqrt, cpuct, t, board).tables)
    decreases 128 - Total(board)
  {
    var s := Key(board);
    if s !in t.ps {
      ExpandedConsistent(e, net, t, board);
    } else if Moves(e, board) != [] {
      var q := Pick(variant, t.qsa, t.nsa, t.ns, t.ps[s], cpuct, sqrt, s, Moves(e, board));
      VisitedMove(variant, e, net, sqrt, cpuct, t, board);
      var next := e.put(board, q);
      if next.Some? {
        var child := next.value;
        if e.finished(child) {
          RecordedConsistent(variant, t, s, q, Utils.GameResult(child, board.turn) as real);
        } else {
          var deeper := Simulated(variant, e, net, sqrt, cpuct, t, child);
          SimulatedConsistent(variant, e, net, sqrt, cpuct, t, child);
          if deeper.result.Ok? {
            SimulatedGrows(variant, e, net, sqrt, cpuct, t, child);
            RecordedConsistent(variant, deeper.tables, s, q, Signed(board, child, deeper.result.value));
          }
        }
      }
    }
  }


  /** The entries of state x, and of its action on square a, are the same in t and u. */
  ghost predicate SameAt(t: Tables, u: Tables, x: State, a: Square) {
    (x in t.ns <==> x in u.ns) && Get(t.ns, x) == Get(u.ns, x)
    && (x in t.ps <==> x in u.ps) && (x in t.ps ==> t.ps[x] == u.ps[x])
    && ((x, a) in t.nsa <==> (x, a) in u.nsa) && Get(t.nsa, (x, a)) == Get(u.nsa, (x, a))
    && ((x, a) in t.qsa <==> (x, a) in u.qsa) && ((x, a) in t.qsa ==> t.qsa[(x, a)] == u.qsa[(x, a)])
  }

  /**
   * A simulation from `board` changes no entry of a state with fewer stones than
   * `board`: every table it writes is keyed by `board` or a later position.
   */
  lemma {:induction false} SimulatedKeeps(variant: Variant, e: Engine, net: Network, sqrt: nat -> real, cpuct: real, t: Tables, board: Board, x: State, a: Square)
    requires AddsStones(e) && Sized(t) && Weight(x) < Total(board)
    ensures SameAt(t, Simulated(variant, e, net, sqrt, cpuct, t, board).tables, x, a)
    decreases 128 - Total(board), 1
  {
    var s := Key(board);
    KeyTotal(board);
    if s in t.ps && Moves(e, board) != [] {
      var q := Pick(variant, t.qsa, t.nsa, t.ns, t.ps[s], cpuct, sqrt, s, Moves(e, board));
      VisitedMove(variant, e, net, sqrt, cpuct, t, board);
      FollowedKeeps(variant, e, net, sqrt, cpuct, t, board, q, x, a);
    }
  }

  /** The same for the move on q played from `board`. */
  lemma {:induction false} FollowedKeeps(variant: Variant, e: Engine, net: Network, sqrt: nat -> real, cpuct: real, t: Tables, board: Board, q: Square, x: State, a: Square)
    requires AddsStones(e) && Sized(t) && Weight(x) < Total(board)
    ensures SameAt(t, Followed(variant, e, net, sqrt, cpuct, t, board, q).tables, x, a)
    decreases 128 - Total(board), 0
  {
    var s := Key(board);
    KeyTotal(board);
    var next := e.put(board, q);
    if next.Some? {
      var child := next.value;
      if e.finished(child) {
        RecordedKeeps(variant, t, t, s, q, Utils.GameResult(child, board.turn) as real, x, a);
      } else {
        var deeper := Simulated(variant, e, net, sqrt, cpuct, t, child);
        SimulatedKeeps(variant, e, net, sqrt, cpuct, t, child, x, a);
        if deeper.result.Ok? {
          RecordedKeeps(variant, t, deeper.tables, s, q, Signed(board, child, deeper.result.value), x, a);
        }
      }
    }
  }

  /** A backup through a state other than x leaves the entries of x as they were. */
  lemma RecordedKeeps(variant: Variant, t: Tables, u: Tables, s: State, q: Square, v: real, x: State, a: Square)
    requires s != x && SameAt(t, u, x, a)
    ensures SameAt(t, Recorded(variant, u, s, q, v), x, a)
  {}

  /**
   * A simulation from a known state that returns a value has followed the move q
   * that `Pick` gives: the state's count and the action's count each grew by one
   * and the action's value took the returned value in by the variant's update.
   */
  lemma SimulatedVisit(variant: Variant, e: Engine, net: Network, sqrt: nat -> real, cpuct: real, t: Tables, board: Board)
    requires AddsStones(e) && Consistent(t) && Key(board) in t.ps
    requires Simulated(variant, e, net, sqrt, cpuct, t, board).result.Ok?
    ensures Moves(e, board) != []
    ensures
      var s, o := Key(board), Simulated(variant, e, net, sqrt, cpuct, t, board);
      var q := Pick(variant, t.qsa, t.nsa, t.ns, t.ps[s], cpuct, sqrt, s, Moves(e, board));
      && s in o.tables.ns && o.tables.ns[s] == t.ns[s] + 1
      && (s, q) in o.tables.nsa && (s, q) in o.tables.qsa
      && o.tables.nsa[(s, q)] == Get(t.nsa, (s, q)) + 1
      && o.tables.qsa[(s, q)] == Updated(variant, t, (s, q), o.result.value)
    ensures
      var s, o := Key(board), Simulated(variant, e, net, sqrt, cpuct, t, board);
      var q := Pick(variant, t.qsa, t.nsa, t.ns, t.ps[s], cpuct, sqrt, s, Moves(e, board));
      && e.put(board, q).Some?
      && var child := e.put(board, q).value;
      && (e.finished(child) ==> o.result.value == Utils.GameResult(child, board.turn) as real)
      && (!e.finished(child) ==>
            var d := Simulated(variant, e, net, sqrt, cpuct, t, child);
            d.result.Ok? && o.result.value == Signed(board, child, d.result.value))
  {
    var s := Key(board);
    var q := Pick(variant, t.qsa, t.nsa, t.ns, t.ps[s], cpuct, sqrt, s, Moves(e, board));
    VisitedMove(variant, e, net, sqrt, cpuct, t, board);
    var child := e.put(board, q).value;
    FollowedBy(variant, e, net, sqrt, cpuct, t, board, q, child);
    if !e.finished(child) {
      KeyTotal(board);
      SimulatedKeeps(variant, e, net, sqrt, cpuct, t, child, s, q);
    }
  }

  /**
   * The move on q played from a known state: a finished child gives the game's
   * result for the mover; otherwise the deeper simulation's error is passed on, or
   * its value, negated when the turn passes, is backed up through q and returned.
   */
  lemma FollowedBy(variant: Variant, e: Engine, net: Network, sqrt: nat -> real, cpuct: real, t: Tables, board: Board, q: Square, child: Board)
    requires AddsStones(e) && Sized(t) && e.put(board, q) == Some(child)
    ensures
      var o := Followed(variant, e, net, sqrt, cpuct, t, board, q);
      var v := Utils.GameResult(child, board.turn) as real;
      e.finished(child) ==> o == Outcome(Recorded(variant, t, Key(board), q, v), Ok(v))
    ensures
      var o, d := Followed(variant, e, net, sqrt, cpuct, t, board, q), Simulated(variant, e, net, sqrt, cpuct, t, child);
      && (!e.finished(child) && d.result.Err? ==> o == d)
      && (!e.finished(child) && d.result.Ok? ==>
            var v := Signed(board, child, d.result.value);
            o == Outcome(Recorded(variant, d.tables, Key(board), q, v), Ok(v)))
  {
    if !e.finished(child) {
      var d := Simulated(variant, e, net, sqrt, cpuct, t, child);
      assert Followed(variant, e, net, sqrt, cpuct, t, board, q) == Backed(variant, board, child, q, d);
    }
  }

  /**
   * With a network whose values lie in [-1, 1], a simulation returns a value in
   * [-1, 1] and keeps every action value within the variant's ceiling: [-1, 1] once
   * corrected, [-1, 2] as written (where the tables must be consistent, so that
   * every action with a value has been counted).
   */
  lemma {:induction false} SimulatedBounded(variant: Variant, e: Engine, net: Network, sqrt: nat -> real, cpuct: real, t: Tables, board: Board)
    requires AddsStones(e) && Sized(t) && ValueRange(net) && ValuesWithin(t, Ceiling(variant))
    requires variant == AsWritten ==> Consistent(t)
    ensures
      var o := Simulated(variant, e, net, sqrt, cpuct, t, board);
      ValuesWithin(o.tables, Ceiling(variant)) && (o.result.Ok? ==> -1.0 <= o.result.value <= 1.0)
    decreases 128 - Total(board)
  {
    var s := Key(board);
    if s in t.ps && Moves(e, board) != [] {
      var q := Pick(variant, t.qsa, t.nsa, t.ns, t.ps[s], cpuct, sqrt, s, Moves(e, board));
      VisitedMove(variant, e, net, sqrt, cpuct, t, board);
      var next := e.put(board, q);
      if next.Some? {
        var child := next.value;
        if e.finished(child) {
          Utils.GameResultSign(child, board.turn);
          RecordedBounded(variant, t, s, q, Utils.GameResult(child, board.turn) as real);
        } else {
          var deeper := Simulated(variant, e, net, sqrt, cpuct, t, child);
          SimulatedBounded(variant, e, net, sqrt, cpuct, t, child);
          if variant == AsWritten {
            SimulatedConsistent(variant, e, net, sqrt, cpuct, t, child);
          }
          if deeper.result.Ok? {
            RecordedBounded(variant, deeper.tables, s, q, Signed(board, child, deeper.result.value));
          }
        }
      }
    }
  }

  /**
   * One simulation that returns a value counts one more visit of its root, or
   * enters an unknown root with no visits, and leaves the tables consistent.
   */
  lemma SimulatedRoot(variant: Variant, e: Engine, net: Network, sqrt: nat -> real, cpuct: real, t: Tables, board: Board)
    requires AddsStones(e) && Consistent(t)
    requires Simulated(variant, e, net, sqrt, cpuct, t, board).result.Ok?
    ensures
      var u, s := Simulated(variant, e, net, sqrt, cpuct, t, board).tables, Key(board);
      && Consistent(u) && s in u.ps && s in u.ns
      && u.ns[s] == Get(t.ns, s) + (if s in t.ps then 1 else 0)
  {
    SimulatedConsistent(variant, e, net, sqrt, cpuct, t, board);
    if Key(board) in t.ps {
      SimulatedVisit(variant, e, net, sqrt, cpuct, t, board);
    }
  }

  /**
   * A simulation from a known state with a legal move touches no action of that
   * state other than the one it follows.
   */
  lemma SimulatedOnlyChosen(variant: Variant, e: Engine, net: Network, sqrt: nat -> real, cpuct: real, t: Tables, board: Board, a: Square)
    requires AddsStones(e) && Sized(t) && Key(board) in t.ps && Moves(e, board) != []
    requires a != Pick(variant, t.qsa, t.nsa, t.ns, t.ps[Key(board)], cpuct, sqrt, Key(board), Moves(e, board))
    ensures
      var s, u := Key(board), Simulated(variant, e, net, sqrt, cpuct, t, board).tables;
      && Get(u.nsa, (s, a)) == Get(t.nsa, (s, a))
      && ((s, a) in u.qsa <==> (s, a) in t.qsa) && ((s, a) in t.qsa ==> u.qsa[(s, a)] == t.qsa[(s, a)])
  {
    var s := Key(board);
    var q := Pick(variant, t.qsa, t.nsa, t.ns, t.ps[s], cpuct, sqrt, s, Moves(e, board));
    VisitedMove(variant, e, net, sqrt, cpuct, t, board);
    var next := e.put(board, q);
    if next.Some? && !e.finished(next.value) {
      KeyTotal(board);
      SimulatedKeeps(variant, e, net, sqrt, cpuct, t, next.value, s, a);
    }
  }

  /**
   * As written, a simulation from a known state that returns a value counts one more
   * visit of the legal move with the largest position, the first in board order,
   * and of no other move from that state, whatever the scores are.
   */
  lemma SimulatedLargestPosition(e: Engine, net: Network, sqrt: nat -> real, cpuct: real, t: Tables, board: Board)
    requires AddsStones(e) && Consistent(t) && Key(board) in t.ps
    requires Simulated(AsWritten, e, net, sqrt, cpuct, t, board).result.Ok?
    ensures Moves(e, board) != []
    ensures
      var s, u, moves := Key(board), Simulated(AsWritten, e, net, sqrt, cpuct, t, board).tables, Moves(e, board);
      var q := moves[LargestPosition(moves)];
      && (forall a :: a in moves ==> Cell(a) <= Cell(q))
      && (s, q) in u.nsa && u.nsa[(s, q)] == Get(t.nsa, (s, q)) + 1
      && (forall a :: a != q ==> Get(u.nsa, (s, a)) == Get(t.nsa, (s, a)))
  {
    SimulatedVisit(AsWritten, e, net, sqrt, cpuct, t, board);
    var s, moves := Key(board), Moves(e, board);
    var q := Pick(AsWritten, t.qsa, t.nsa, t.ns, t.ps[s], cpuct, sqrt, s, moves);
    assert q == moves[LargestPosition(moves)];
    forall a | a != q
      ensures Get(Simulated(AsWritten, e, net, sqrt, cpuct, t, board).tables.nsa, (s, a)) == Get(t.nsa, (s, a))
    {
      SimulatedOnlyChosen(AsWritten, e, net, sqrt, cpuct, t, board, a);
    }
  }

  /**
   * The update as written within a search: when the followed action holds the value
   * 1 from one earlier visit and the simulation returns 1 again, the action's value
   * becomes 1.5, outside the range of values, where the corrected update keeps 1.
   */
  lemma SimulatedLeavesRange(e: Engine, net: Network, sqrt: nat -> real, cpuct: real, t: Tables, board: Board)
    requires AddsStones(e) && Consistent(t) && Key(board) in t.ps && Moves(e, board) != []
    requires
      var s, moves := Key(board), Moves(e, board);
      var q := moves[LargestPosition(moves)];
      (s, q) in t.qsa && t.qsa[(s, q)] == 1.0 && Get(t.nsa, (s, q)) == 1
    requires Simulated(AsWritten, e, net, sqrt, cpuct, t, board).result == Ok(1.0)
    ensures
      var s, moves, u := Key(board), Moves(e, board), Simulated(AsWritten, e, net, sqrt, cpuct, t, board).tables;
      var q := moves[LargestPosition(moves)];
      && (s, q) in u.qsa && u.qsa[(s, q)] == 1.5 && !ValuesWithin(u, 1.0)
      && Update(Corrected, Get(t.nsa, (s, q)), t.qsa[(s, q)], 1.0) == 1.0
  {
    SimulatedVisit(AsWritten, e, net, sqrt, cpuct, t, board);
    QUpdateLeavesRange();
  }

  /** The root's counts add up to its visit count, so divided by their sum they are a distribution. */
  lemma ReadoutTotal(t: Tables, s: State)
    requires Consistent(t) && s in t.ns
    ensures Sum(Counts(t.nsa, s)) == t.ns[s]
    ensures t.ns[s] > 0 ==> RealSum(Divided(Counts(t.nsa, s), t.ns[s])) == 1.0
  {
    CountsTotal(t.ns, t.nsa, 0, s);
    if t.ns[s] > 0 {
      DistributionSum(Counts(t.nsa, s));
    }
  }

  /** The tables with the noise mixed into the prior of the known state s. */
  function Mixed(t: Tables, s: State, noise: seq<real>): Tables
    requires s in t.ps && |t.ps[s]| == |noise|
  {
    t.(ps := t.ps[s := Mix(t.ps[s], noise)])
  }

  /** Mixing noise into a prior keeps the tables consistent and every action value as it was. */
  lemma MixedConsistent(t: Tables, s: State, noise: seq<real>)
    requires Consistent(t) && s in t.ps && |noise| == 64
    ensures Consistent(Mixed(t, s, noise)) && Mixed(t, s, noise).qsa == t.qsa
  {}

  /**
   * `MCTS`: the search's tables, which persist from one search to the next, and
   * its constants. The network and the noise are parameters of the methods.
   */
  class Mcts {
    const cpuct: real
    const numSimulation: nat
    var Qsa: map<Action, real>
    var Nsa: map<Action, nat>
    var Ns: map<State, nat>
    var Ps: map<State, seq<real>>

    ghost function Snapshot(): Tables
      reads this
    {
      Tables(Qsa, Nsa, Ns, Ps)
    }

    ghost predicate Valid()
      reads this
    {
      Consistent(Snapshot())
    }

    /** `new`: empty tables. */
    constructor(cpuct: real, numSimulation: nat)
      ensures Valid() && ValuesWithin(Snapshot(), 1.0)
      ensures this.cpuct == cpuct && this.numSimulation == numSimulation
      ensures Qsa == map[] && Nsa == map[] && Ns == map[] && Ps == map[]
    {
      this.cpuct := cpuct;
      this.numSimulation := numSimulation;
      Qsa, Nsa, Ns, Ps := map[], map[], map[], map[];
    }

    /** `clear_cache`: forget every table. */
    method ClearCache()
      modifies this
      ensures Valid() && ValuesWithin(Snapshot(), 1.0)
      ensures Qsa == map[] && Nsa == map[] && Ns == map[] && Ps == map[]
    {
      Qsa, Nsa, Ns, Ps := map[], map[], map[], map[];
    }

    /** The expansion of a new state, in place. */
    method Expand(e: Engine, net: Network, board: Board) returns (r: Result<real, Error>)
      modifies this
      ensures Outcome(Snapshot(), r) == Expanded(e, net, old(Snapshot()), board)
    {
      var output := net(board);
      if !Evaluated(output) {
        return Err(BadOutput);
      }
      var mask := LegalMoveToArray(e.legal(board));
      var state := Key(board);
      Ps := Ps[state := Prior(output.value.policy, mask[..])];
      Ns := Ns[state := 0];
      r := Ok(output.value.value);
    }

    /** The backup of v through the move on q from state s, in place, with the update as written. */
    method Record(s: State, q: Square, v: real)
      modifies this
      ensures Snapshot() == Recorded(AsWritten, old(Snapshot()), s, q, v)
    {
      var sa := (s, q);
      if sa in Qsa {
        Qsa := Qsa[sa := QUpdateAsWritten(Get(Nsa, sa), Qsa[sa], v)];
        Nsa := Nsa[sa := Get(Nsa, sa) + 1];
      } else {
        Qsa := Qsa[sa := v];
        Nsa := Nsa[sa := Get(Nsa, sa) + 1];
      }
      Ns := Ns[s := Get(Ns, s) + 1];
    }

    /** `_search`, in place: the tables and the value are those of Simulated as written. */
    method Simulate(e: Engine, net: Network, sqrt: nat -> real, board: Board) returns (r: Result<real, Error>)
      requires AddsStones(e) && Sized(Snapshot())
      modifies this
      ensures Outcome(Snapshot(), r) == Simulated(AsWritten, e, net, sqrt, cpuct, old(Snapshot()), board)
      decreases 128 - Total(board), 1
    {
      var state := Key(board);
      if state !in Ps {
        r := Expand(e, net, board);
        return;
      }
      ghost var t := Snapshot();
      var moves := Moves(e, board);
      if moves == [] {
        return Err(NoMove);
      }
      var q := moves[LargestPosition(moves)];
      VisitedMove(AsWritten, e, net, sqrt, cpuct, t, board);
      r := Follow(e, net, sqrt, board, q);
    }

    /** The move on q played from `board`, the deeper simulation run in place, and the value backed up. */
    method Follow(e: Engine, net: Network, sqrt: nat -> real, board: Board, q: Square) returns (r: Result<real, Error>)
      requires AddsStones(e) && Sized(Snapshot())
      modifies this
      ensures Outcome(Snapshot(), r) == Followed(AsWritten, e, net, sqrt, cpuct, old(Snapshot()), board, q)
      decreases 128 - Total(board), 0
    {
      var next := e.put(board, q);
      if next.None? {
        return Err(Rejected);
      }
      var child := next.value;
      var v: real;
      if e.finished(child) {
        v := Utils.GameResult(child, board.turn) as real;
      } else {
        var deeper := Simulate(e, net, sqrt, child);
        if deeper.Err? {
          return deeper;
        }
        v := if child.turn == board.turn then deeper.value else -deeper.value;
      }
      Record(Key(board), q, v);
      r := Ok(v);
    }

    /**
     * `search`: one simulation, the noise mixed into the root's prior, `numSimulation`
     * more simulations, and the root's visit counts divided by their total. The
     * total is the root's visit count, which grew by one with each simulation.
     */
    method Search(e: Engine, net: Network, sqrt: nat -> real, noise: seq<real>, board: Board) returns (r: Result<seq<real>, Error>)
      requires Valid() && AddsStones(e) && |noise| == 64
      modifies this
      ensures Valid()
      ensures ValueRange(net) && old(ValuesWithin(Snapshot(), Ceiling(AsWritten))) ==> ValuesWithin(Snapshot(), Ceiling(AsWritten))
      ensures r.Ok? ==> (Key(board) in Ns
        && Ns[Key(board)] == Get(old(Ns), Key(board)) + numSimulation + (if old(Key(board) in Ps) then 1 else 0)
        && r.value == Divided(Counts(Nsa, Key(board)), Ns[Key(board)]))
      ensures r.Ok? && Ns[Key(board)] > 0 ==> RealSum(r.value) == 1.0
    {
      var state := Key(board);
      ghost var bounded := ValueRange(net) && ValuesWithin(Snapshot(), Ceiling(AsWritten));
      ghost var base := Get(Ns, state) + (if state in Ps then 1 else 0);
      ghost var t := Snapshot();
      var first := Simulate(e, net, sqrt, board);
      if bounded {
        SimulatedBounded(AsWritten, e, net, sqrt, cpuct, t, board);
      }
      if first.Err? {
        SimulatedConsistent(AsWritten, e, net, sqrt, cpuct, t, board);
        return Err(first.error);
      }
      SimulatedRoot(AsWritten, e, net, sqrt, cpuct, t, board);
      if state in Ps {
        ghost var u := Snapshot();
        MixedConsistent(u, state, noise);
        Ps := Ps[state := Mix(Ps[state], noise)];
        assert Snapshot() == Mixed(u, state, noise);
      }
      for i := 0 to numSimulation
        invariant Valid() && state in Ps && Ns[state] == base + i
        invariant bounded ==> ValuesWithin(Snapshot(), Ceiling(AsWritten))
      {
        t := Snapshot();
        var res := Simulate(e, net, sqrt, board);
        if bounded {
          SimulatedBounded(AsWritten, e, net, sqrt, cpuct, t, board);
        }
        if res.Err? {
          SimulatedConsistent(AsWritten, e, net, sqrt, cpuct, t, board);
          return Err(res.error);
        }
        SimulatedRoot(AsWritten, e, net, sqrt, cpuct, t, board);
      }
      var counts := Counts(Nsa, state);
      ReadoutTotal(Snapshot(), state);
      r := Ok(Divided(counts, Sum(counts)));
    }

    /**
     * `find_move`: the square with the largest share of the root's visits (the last of
     * them on a tie). Where no move was visited the shares are 0 / 0, NaN in the
     * source, whose comparison then panics; the model reports NoMove.
     */
    method FindMove(e: Engine, net: Network, sqrt: nat -> real, noise: seq<real>, board: Board) returns (r: Result<bv64, Error>)
      requires Valid() && AddsStones(e) && |noise| == 64
      modifies this
      ensures Valid()
      ensures r.Ok? ==> Key(board) in Ns && exists i :: 0 <= i < 64 && r.value == Cell(Index(i)) && MostVisited(Nsa, Key(board), i)
    {
      var ret := Search(e, net, sqrt, noise, board);
      if ret.Err? {
        return Err(ret.error);
      }
      var shares := ret.value;
      if RealSum(shares) == 0.0 {
        return Err(NoMove);
      }
      var state := Key(board);
      if Ns[state] == 0 {
        DividedZero(Counts(Nsa, state));
        assert false;
      }
      var idx := LastMaxIndex(shares);
      ReadoutChoice(Nsa, state, Ns[state]);
      r := Ok(Cell(Index(idx)));
    }
  }
}

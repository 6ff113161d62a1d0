/**
 * The first AlphaZero player, from the crate's own player module. Its search keeps
 * the same four tables as AlphaZero's (action values, action visits, state visits
 * and priors), but it keys them by the black mask and then the white mask whoever
 * is to move, values a finished board from White's side, returns the negation of
 * every value it computes, and reads the root's visit counts out divided by their
 * maximum. It adds no noise at the root.
 */
module LegacyAlphaZero {
  import opened Wrappers
  import opened Bits
  import opened BitCount
  import opened Game
  import opened SearchTables
  import Utils
  import AZ = AlphaZero

  /** The table key: the black mask, then the white mask. */
  function BoardKey(b: Board): (s: State)
    ensures Weight(s) == Total(b)
  {
    (b.black, b.white)
  }

  /**
   * Unlike the mover-first key, this key does not change with the side to move: it
   * agrees with the mover-first key when Black moves and differs from it (for
   * distinct masks) when White moves.
   */
  lemma BoardKeyIgnoresTurn(b: Board)
    ensures BoardKey(b) == BoardKey(b.(turn := Other(b.turn)))
    ensures b.turn == Black ==> BoardKey(b) == Key(b)
    ensures b.turn == White && b.black != b.white ==> BoardKey(b) != Key(b)
  {}

  /**
   * The value of a finished board: minus the sign of Black's lead. `depth` only keeps
   * the solver from counting stones where nothing asks for it; TerminalValue states
   * what it is.
   */
  function Terminal(b: Board, depth: nat := 1): real {
    if depth == 0 then
      var count := CountStone(b);
      -(if count.black == count.white then 0.0 else if count.black > count.white then 1.0 else -1.0)
    else Terminal(b, depth - 1)
  }

  /** The value of a finished board is White's game result, whoever is to move. */
  lemma TerminalValue(b: Board)
    ensures Terminal(b) == Utils.GameResult(b, White) as real
    ensures Terminal(b) == -(Utils.GameResult(b, Black) as real)
  {
    assert Terminal(b) == Terminal(b, 0);
    assert Utils.GameResult(b, Black) == Utils.GameResult(b, Black, 0);
    Utils.GameResultZeroSum(b);
  }

  /** The masked policy as this search adjusts it: the mask is added whenever the masked sum is at least 0. */
  function AdjustedAsWritten(policy: seq<real>, mask: seq<real>): (r: seq<real>)
    requires |policy| == |mask|
    ensures |r| == |mask|
    ensures RealSum(AZ.Times(policy, mask)) >= 0.0 ==> r == AZ.Plus(AZ.Times(policy, mask), mask)
  {
    var masked := AZ.Times(policy, mask);
    if RealSum(masked) >= 0.0 then AZ.Plus(masked, mask) else masked
  }

  /** The prior as this search stores it: the adjusted policy divided by its sum. */
  function PriorAsWritten(policy: seq<real>, mask: seq<real>): (r: seq<real>)
    requires |policy| == |mask|
    ensures |r| == |mask|
    ensures RealSum(AdjustedAsWritten(policy, mask)) != 0.0 ==> RealSum(r) == 1.0
  {
    var a := AdjustedAsWritten(policy, mask);
    if RealSum(a) == 0.0 then a
    else
      AZ.OverSum(a, RealSum(a));
      assert RealSum(a) / RealSum(a) == 1.0;
      AZ.Over(a, RealSum(a))
  }

  /**
   * A network sure of the first of two legal squares: as written the stored prior
   * still gives the second a third of the mass, where adding the mask only to a
   * masked policy with no positive mass keeps the network's own prior.
   */
  lemma MaskAlwaysAdded()
    ensures PriorAsWritten([1.0, 0.0], [1.0, 1.0]) == [2.0 / 3.0, 1.0 / 3.0]
    ensures AZ.Prior([1.0, 0.0], [1.0, 1.0]) == [1.0, 0.0]
  {
    var masked := AZ.Times([1.0, 0.0], [1.0, 1.0]);
    assert masked == [1.0, 0.0];
    assert masked[..1] == [1.0];
    assert RealSum(masked) == 1.0;
    var plus := AZ.Plus(masked, [1.0, 1.0]);
    assert plus == [2.0, 1.0];
    assert plus[..1] == [2.0];
    assert RealSum(plus) == 3.0;
    assert AZ.Over(plus, 3.0) == [2.0 / 3.0, 1.0 / 3.0];
    assert AZ.Over(masked, 1.0) == [1.0, 0.0];
  }

  /**
   * The expansion of a state the tables do not know: the network's prior for it, as
   * written (the mask always added) or corrected, and a visit count of 0; the result
   * is the negated network value.
   */
  function Expanded(variant: Variant, e: Engine, net: AZ.Network, t: AZ.Tables, board: Board): AZ.Outcome {
    var out := net(board);
    if !AZ.Evaluated(out) then AZ.Outcome(t, Err(BadOutput))
    else
      var s := BoardKey(board);
      var mask := AZ.MaskOf(e.legal(board));
      var prior := match variant
        case AsWritten => PriorAsWritten(out.value.policy, mask)
        case Corrected => AZ.Prior(out.value.policy, mask);
      AZ.Outcome(AZ.Tables(t.qsa, t.nsa, t.ns[s := 0], t.ps[s := prior]), Ok(-out.value.value))
  }

  /** Expanding a new state keeps the tables consistent. */
  lemma ExpandedConsistent(variant: Variant, e: Engine, net: AZ.Network, t: AZ.Tables, board: Board)
    requires AZ.Consistent(t) && BoardKey(board) !in t.ps
    ensures AZ.Consistent(Expanded(variant, e, net, t, board).tables)
  {
    if AZ.Evaluated(net(board)) {
      BalancedEnter(t.ns, t.nsa, 0, BoardKey(board));
    }
  }

  /**
   * `_search`: one simulation from `board`. A finished board is valued from White's
   * side and changes nothing; an unknown state is expanded; from a known state the
   * search goes on in Visited.
   */
  function Simulated(variant: Variant, e: Engine, net: AZ.Network, sqrt: nat -> real, cpuct: real, t: AZ.Tables, board: Board): (o: AZ.Outcome)
    requires AddsStones(e) && AZ.Sized(t)
    ensures AZ.Sized(o.tables)
    decreases 128 - Total(board), 2
  {
    if e.finished(board) then AZ.Outcome(t, Ok(Terminal(board)))
    else if BoardKey(board) !in t.ps then Expanded(variant, e, net, t, board)
    else Visited(variant, e, net, sqrt, cpuct, t, board)
  }

  /** From a known state the search follows the last of the best-scoring legal moves. */
  function Visited(variant: Variant, e: Engine, net: AZ.Network, sqrt: nat -> real, cpuct: real, t: AZ.Tables, board: Board): (o: AZ.Outcome)
    requires AddsStones(e) && AZ.Sized(t) && BoardKey(board) in t.ps
    ensures AZ.Sized(o.tables)
    decreases 128 - Total(board), 1
  {
    var s := BoardKey(board);
    var moves := Moves(e, board);
    if moves == [] then AZ.Outcome(t, Err(NoMove))
    else Followed(variant, e, net, sqrt, cpuct, t, board, AZ.Choose(t.qsa, t.nsa, t.ns, t.ps[s], cpuct, sqrt, s, moves))
  }

  /** The move on q played, the deeper simulation run, and its value backed up. */
  function Followed(variant: Variant, e: Engine, net: AZ.Network, sqrt: nat -> real, cpuct: real, t: AZ.Tables, board: Board, q: Square): (o: AZ.Outcome)
    requires AddsStones(e) && AZ.Sized(t)
    ensures AZ.Sized(o.tables)
    decreases 128 - Total(board), 0
  {
    var next := e.put(board, q);
    if next.None? then AZ.Outcome(t, Err(Rejected))
    else Backed(variant, board, q, Simulated(variant, e, net, sqrt, cpuct, t, next.value))
  }

  /** The deeper value v is recorded through the move on q as it is, and -v is returned. */
  function Backed(variant: Variant, board: Board, q: Square, deeper: AZ.Outcome): AZ.Outcome {
    if deeper.result.Err? then deeper
    else
      var v := deeper.result.value;
      AZ.Outcome(AZ.Recorded(variant, deeper.tables, BoardKey(board), q, v), Ok(-v))
  }

  /** From an unfinished known state with a legal move, a simulation plays the chosen move. */
  lemma VisitedMove(variant: Variant, e: Engine, net: AZ.Network, sqrt: nat -> real, cpuct: real, t: AZ.Tables, board: Board)
    requires AddsStones(e) && AZ.Sized(t) && !e.finished(board) && BoardKey(board) in t.ps && Moves(e, board) != []
    ensures Simulated(variant, e, net, sqrt, cpuct, t, board)
         == Followed(variant, e, net, sqrt, cpuct, t, board, AZ.Choose(t.qsa, t.nsa, t.ns, t.ps[BoardKey(board)], cpuct, sqrt, BoardKey(board), Moves(e, board)))
  {
    assert Simulated(variant, e, net, sqrt, cpuct, t, board) == Visited(variant, e, net, sqrt, cpuct, t, board);
  }

  /** Followed, given the outcome of the deeper simulation from the board the move leads to. */
  lemma FollowedBy(variant: Variant, e: Engine, net: AZ.Network, sqrt: nat -> real, cpuct: real, t: AZ.Tables, board: Board, q: Square, child: Board, d: AZ.Outcome)
    requires AddsStones(e) && AZ.Sized(t) && e.put(board, q) == Some(child) && d == Simulated(variant, e, net, sqrt, cpuct, t, child)
    ensures d.result.Err? ==> Followed(variant, e, net, sqrt, cpuct, t, board, q) == d
    ensures d.result.Ok? ==> Followed(variant, e, net, sqrt, cpuct, t, board, q) == AZ.Outcome(AZ.Recorded(variant, d.tables, BoardKey(board), q, d.result.value), Ok(-d.result.value))
  {
    assert Followed(variant, e, net, sqrt, cpuct, t, board, q) == Backed(variant, board, q, d);
  }

  /** A simulation never forgets a state. */
  lemma {:induction false} SimulatedGrows(variant: Variant, e: Engine, net: AZ.Network, sqrt: nat -> real, cpuct: real, t: AZ.Tables, board: Board)
    requires AddsStones(e) && AZ.Sized(t)
    ensures forall s :: s in t.ps ==> s in Simulated(variant, e, net, sqrt, cpuct, t, board).tables.ps
    decreases 128 - Total(board)
  {
    var s := BoardKey(board);
    if !e.finished(board) && s in t.ps && Moves(e, board) != [] {
      var q := AZ.Choose(t.qsa, t.nsa, t.ns, t.ps[s], cpuct, sqrt, s, Moves(e, board));
      VisitedMove(variant, e, net, sqrt, cpuct, t, board);
      var next := e.put(board, q);
      if next.Some? {
        SimulatedGrows(variant, e, net, sqrt, cpuct, t, next.value);
      }
    }
  }

  /** A simulation keeps the tables consistent. */
  lemma {:induction false} SimulatedConsistent(variant: Variant, e: Engine, net: AZ.Network, sqrt: nat -> real, cpuct: real, t: AZ.Tables, board: Board)
    requires AddsStones(e) && AZ.Consistent(t)
    ensures AZ.Consistent(Simulated(variant, e, net, sqrt, cpuct, t, board).tables)
    decreases 128 - Total(board)
  {
    var s := BoardKey(board);
    if e.finished(board) {
    } else if s !in t.ps {
      ExpandedConsistent(variant, e, net, t, board);
    } else if Moves(e, board) != [] {
      var q := AZ.Choose(t.qsa, t.nsa, t.ns, t.ps[s], cpuct, sqrt, s, Moves(e, board));
      VisitedMove(variant, e, net, sqrt, cpuct, t, board);
      var next := e.put(board, q);
      if next.Some? {
        var child := next.value;
        var deeper := Simulated(variant, e, net, sqrt, cpuct, t, child);
        SimulatedConsistent(variant, e, net, sqrt, cpuct, t, child);
        if deeper.result.Ok? {
          SimulatedGrows(variant, e, net, sqrt, cpuct, t, child);
          AZ.RecordedConsistent(variant, deeper.tables, s, q, deeper.result.value);
        }
      }
    }
  }

  /** A simulation from `board` changes no entry of a state with fewer stones than `board`. */
  lemma {:induction false} SimulatedKeeps(variant: Variant, e: Engine, net: AZ.Network, sqrt: nat -> real, cpuct: real, t: AZ.Tables, board: Board, x: State, a: Square)
    requires AddsStones(e) && AZ.Sized(t) && Weight(x) < Total(board)
    ensures AZ.SameAt(t, Simulated(variant, e, net, sqrt, cpuct, t, board).tables, x, a)
    decreases 128 - Total(board), 1
  {
    var s := BoardKey(board);
    if !e.finished(board) && s in t.ps && Moves(e, board) != [] {
      var q := AZ.Choose(t.qsa, t.nsa, t.ns, t.ps[s], cpuct, sqrt, s, Moves(e, board));
      VisitedMove(variant, e, net, sqrt, cpuct, t, board);
      FollowedKeeps(variant, e, net, sqrt, cpuct, t, board, q, x, a);
    }
  }

  /** The same for the move on q played from `board`. */
  lemma {:induction false} FollowedKeeps(variant: Variant, e: Engine, net: AZ.Network, sqrt: nat -> real, cpuct: real, t: AZ.Tables, board: Board, q: Square, x: State, a: Square)
    requires AddsStones(e) && AZ.Sized(t) && Weight(x) < Total(board)
    ensures AZ.SameAt(t, Followed(variant, e, net, sqrt, cpuct, t, board, q).tables, x, a)
    decreases 128 - Total(board), 0
  {
    var s := BoardKey(board);
    assert s != x;
    var next := e.put(board, q);
    if next.Some? {
      var deeper := Simulated(variant, e, net, sqrt, cpuct, t, next.value);
      SimulatedKeeps(variant, e, net, sqrt, cpuct, t, next.value, x, a);
      if deeper.result.Ok? {
        AZ.RecordedKeeps(variant, t, deeper.tables, s, q, deeper.result.value, x, a);
      }
    }
  }

  /**
   * A simulation from an unfinished known state that returns a value has followed
   * the best-scoring move q: the state's count and the action's count each grew by
   * one, the action's value took the deeper value in by the variant's update, and the
   * value returned is that deeper value negated.
   */
  lemma SimulatedVisit(variant: Variant, e: Engine, net: AZ.Network, sqrt: nat -> real, cpuct: real, t: AZ.Tables, board: Board)
    requires AddsStones(e) && AZ.Consistent(t) && !e.finished(board) && BoardKey(board) in t.ps
    requires Simulated(variant, e, net, sqrt, cpuct, t, board).result.Ok?
    ensures Moves(e, board) != []
    ensures
      var s, o := BoardKey(board), Simulated(variant, e, net, sqrt, cpuct, t, board);
      var q := AZ.Choose(t.qsa, t.nsa, t.ns, t.ps[s], cpuct, sqrt, s, Moves(e, board));
      && s in o.tables.ns && o.tables.ns[s] == t.ns[s] + 1
      && (s, q) in o.tables.nsa && (s, q) in o.tables.qsa
      && o.tables.nsa[(s, q)] == Get(t.nsa, (s, q)) + 1
      && o.tables.qsa[(s, q)] == AZ.Updated(variant, t, (s, q), -o.result.value)
  {
    var s := BoardKey(board);
    var q := AZ.Choose(t.qsa, t.nsa, t.ns, t.ps[s], cpuct, sqrt, s, Moves(e, board));
    VisitedMove(variant, e, net, sqrt, cpuct, t, board);
    assert e.put(board, q).Some?;
    var child := e.put(board, q).value;
    var d := Simulated(variant, e, net, sqrt, cpuct, t, child);
    FollowedBy(variant, e, net, sqrt, cpuct, t, board, q, child, d);
    SimulatedKeeps(variant, e, net, sqrt, cpuct, t, child, s, q);
    var o := Simulated(variant, e, net, sqrt, cpuct, t, board);
    var v := d.result.value;
    assert o.tables == AZ.Recorded(variant, d.tables, s, q, v) && -o.result.value == v;
    assert s in t.ns && Get(t.ns, s) == t.ns[s] == Get(d.tables.ns, s);
    assert AZ.Updated(variant, d.tables, (s, q), v) == AZ.Updated(variant, t, (s, q), v);
  }

  /**
   * With a network whose values lie in [-1, 1], a simulation returns a value in
   * [-1, 1] and keeps every action value within the variant's ceiling: [-1, 1] once
   * corrected, [-1, 2] as written (where the tables must be consistent, so that
   * every action with a value has been counted).
   */
  lemma {:induction false} SimulatedBounded(variant: Variant, e: Engine, net: AZ.Network, sqrt: nat -> real, cpuct: real, t: AZ.Tables, board: Board)
    requires AddsStones(e) && AZ.Sized(t) && AZ.ValueRange(net) && AZ.ValuesWithin(t, Ceiling(variant))
    requires variant == AsWritten ==> AZ.Consistent(t)
    ensures
      var o := Simulated(variant, e, net, sqrt, cpuct, t, board);
      AZ.ValuesWithin(o.tables, Ceiling(variant)) && (o.result.Ok? ==> -1.0 <= o.result.value <= 1.0)
    decreases 128 - Total(board)
  {
    var s := BoardKey(board);
    if e.finished(board) {
      TerminalValue(board);
    } else if s in t.ps && Moves(e, board) != [] {
      var q := AZ.Choose(t.qsa, t.nsa, t.ns, t.ps[s], cpuct, sqrt, s, Moves(e, board));
      VisitedMove(variant, e, net, sqrt, cpuct, t, board);
      var next := e.put(board, q);
      if next.Some? {
        var deeper := Simulated(variant, e, net, sqrt, cpuct, t, next.value);
        SimulatedBounded(variant, e, net, sqrt, cpuct, t, next.value);
        if variant == AsWritten {
          SimulatedConsistent(variant, e, net, sqrt, cpuct, t, next.value);
        }
        if deeper.result.Ok? {
          AZ.RecordedBounded(variant, deeper.tables, s, q, deeper.result.value);
        }
      }
    }
  }

  /**
   * One simulation that returns a value keeps the tables consistent; from a finished
   * board it changes nothing, and otherwise it counts one more visit of its root, or
   * enters an unknown root with no visits.
   */
  lemma SimulatedRoot(variant: Variant, e: Engine, net: AZ.Network, sqrt: nat -> real, cpuct: real, t: AZ.Tables, board: Board)
    requires AddsStones(e) && AZ.Consistent(t)
    requires Simulated(variant, e, net, sqrt, cpuct, t, board).result.Ok?
    ensures
      var u, s := Simulated(variant, e, net, sqrt, cpuct, t, board).tables, BoardKey(board);
      && AZ.Consistent(u)
      && (e.finished(board) ==> u == t)
      && (!e.finished(board) ==> s in u.ps && s in u.ns && u.ns[s] == Get(t.ns, s) + (if s in t.ps then 1 else 0))
  {
    SimulatedConsistent(variant, e, net, sqrt, cpuct, t, board);
    if !e.finished(board) && BoardKey(board) in t.ps {
      SimulatedVisit(variant, e, net, sqrt, cpuct, t, board);
    }
  }

  /**
   * The update as written within this search: when the followed action holds the
   * value 1 from one earlier visit and the deeper simulation gives 1 again (the
   * search returning -1), the action's value becomes 1.5, outside the range of
   * values, where the corrected update keeps 1.
   */
  lemma SimulatedLeavesRange(e: Engine, net: AZ.Network, sqrt: nat -> real, cpuct: real, t: AZ.Tables, board: Board)
    requires AddsStones(e) && AZ.Consistent(t) && !e.finished(board) && BoardKey(board) in t.ps && Moves(e, board) != []
    requires
      var s := BoardKey(board);
      var q := AZ.Choose(t.qsa, t.nsa, t.ns, t.ps[s], cpuct, sqrt, s, Moves(e, board));
      (s, q) in t.qsa && t.qsa[(s, q)] == 1.0 && Get(t.nsa, (s, q)) == 1
    requires Simulated(AsWritten, e, net, sqrt, cpuct, t, board).result == Ok(-1.0)
    ensures
      var s, u := BoardKey(board), Simulated(AsWritten, e, net, sqrt, cpuct, t, board).tables;
      var q := AZ.Choose(t.qsa, t.nsa, t.ns, t.ps[s], cpuct, sqrt, s, Moves(e, board));
      && (s, q) in u.qsa && u.qsa[(s, q)] == 1.5 && !AZ.ValuesWithin(u, 1.0)
      && Update(Corrected, Get(t.nsa, (s, q)), t.qsa[(s, q)], 1.0) == 1.0
  {
    SimulatedVisit(AsWritten, e, net, sqrt, cpuct, t, board);
    QUpdateLeavesRange();
  }

  /**
   * `MCTS` of the first player: the tables, which persist from one search to the
   * next, and the constants. The network is a parameter of the methods.
   */
  class Mcts {
    const cpuct: real
    const numSimulation: nat
    var Qsa: map<Action, real>
    var Nsa: map<Action, nat>
    var Ns: map<State, nat>
    var Ps: map<State, seq<real>>

    ghost function Snapshot(): AZ.Tables
      reads this
    {
      AZ.Tables(Qsa, Nsa, Ns, Ps)
    }

    ghost predicate Valid()
      reads this
    {
      AZ.Consistent(Snapshot())
    }

    /** `new`: empty tables. */
    constructor(cpuct: real, numSimulation: nat)
      ensures Valid() && AZ.ValuesWithin(Snapshot(), 1.0)
      ensures this.cpuct == cpuct && this.numSimulation == numSimulation
      ensures Qsa == map[] && Nsa == map[] && Ns == map[] && Ps == map[]
    {
      this.cpuct := cpuct;
      this.numSimulation := numSimulation;
      Qsa, Nsa, Ns, Ps := map[], map[], map[], map[];
    }

    /** `clear_cache`: forget every table. */
    method ClearCache()
      modifies this
      ensures Valid() && AZ.ValuesWithin(Snapshot(), 1.0)
      ensures Qsa == map[] && Nsa == map[] && Ns == map[] && Ps == map[]
    {
      Qsa, Nsa, Ns, Ps := map[], map[], map[], map[];
    }

    /** The expansion of a new state, in place, with the prior as written. */
    method Expand(e: Engine, net: AZ.Network, board: Board) returns (r: Result<real, Error>)
      modifies this
      ensures AZ.Outcome(Snapshot(), r) == Expanded(AsWritten, e, net, old(Snapshot()), board)
    {
      var output := net(board);
      if !AZ.Evaluated(output) {
        return Err(BadOutput);
      }
      var mask := AZ.LegalMoveToArray(e.legal(board));
      var state := BoardKey(board);
      Ps := Ps[state := PriorAsWritten(output.value.policy, mask[..])];
      Ns := Ns[state := 0];
      r := Ok(-output.value.value);
    }

    /** The backup of v through the move on q from state s, in place, with the update as written. */
    method Record(s: State, q: Square, v: real)
      modifies this
      ensures Snapshot() == AZ.Recorded(AsWritten, old(Snapshot()), s, q, v)
    {
      var sa := (s, q);
      if sa in Qsa {
        Qsa := Qsa[sa := QUpdateAsWritten(Get(Nsa, sa), Qsa[sa], v)];
        Nsa := Nsa[sa := Get(Nsa, sa) + 1];
      } else {
        Qsa := Qsa[sa := v];
        Nsa := Nsa[sa := Get(Nsa, sa) + 1];
      }
      Ns := Ns[s := Get(Ns, s) + 1];
    }

    /** `_search`, in place: the tables and the value are those of Simulated as written. */
    method Simulate(e: Engine, net: AZ.Network, sqrt: nat -> real, board: Board) returns (r: Result<real, Error>)
      requires AddsStones(e) && AZ.Sized(Snapshot())
      modifies this
      ensures AZ.Outcome(Snapshot(), r) == Simulated(AsWritten, e, net, sqrt, cpuct, old(Snapshot()), board)
      decreases 128 - Total(board), 1
    {
      if e.finished(board) {
        return Ok(Terminal(board));
      }
      var state := BoardKey(board);
      if state !in Ps {
        r := Expand(e, net, board);
        return;
      }
      ghost var t := Snapshot();
      assert t == old(Snapshot());
      var moves := Moves(e, board);
      if moves == [] {
        return Err(NoMove);
      }
      var q := AZ.Choose(Qsa, Nsa, Ns, Ps[state], cpuct, sqrt, state, moves);
      VisitedMove(AsWritten, e, net, sqrt, cpuct, t, board);
      r := Follow(e, net, sqrt, board, q);
    }

    /** The move on q played from `board`, the deeper simulation run in place, and its value recorded. */
    method Follow(e: Engine, net: AZ.Network, sqrt: nat -> real, board: Board, q: Square) returns (r: Result<real, Error>)
      requires AddsStones(e) && AZ.Sized(Snapshot())
      modifies this
      ensures AZ.Outcome(Snapshot(), r) == Followed(AsWritten, e, net, sqrt, cpuct, old(Snapshot()), board, q)
      decreases 128 - Total(board), 0
    {
      ghost var t := Snapshot();
      var next := e.put(board, q);
      if next.None? {
        return Err(Rejected);
      }
      var deeper := Simulate(e, net, sqrt, next.value);
      FollowedBy(AsWritten, e, net, sqrt, cpuct, t, board, q, next.value, AZ.Outcome(Snapshot(), deeper));
      if deeper.Err? {
        return deeper;
      }
      Record(BoardKey(board), q, deeper.value);
      r := Ok(-deeper.value);
    }

    /**
     * `search`: `numSimulation` simulations, then the root's visit counts divided by
     * the largest of them, so that the most visited square reads 1.
     */
    method Search(e: Engine, net: AZ.Network, sqrt: nat -> real, board: Board) returns (r: Result<seq<real>, Error>)
      requires Valid() && AddsStones(e)
      modifies this
      ensures Valid()
      ensures AZ.ValueRange(net) && old(AZ.ValuesWithin(Snapshot(), Ceiling(AsWritten))) ==> AZ.ValuesWithin(Snapshot(), Ceiling(AsWritten))
      ensures r.Ok? ==> r.value == Divided(Counts(Nsa, BoardKey(board)), Max(Counts(Nsa, BoardKey(board))))
      ensures r.Ok? && Max(Counts(Nsa, BoardKey(board))) > 0 ==>
        (forall i :: 0 <= i < 64 ==> r.value[i] <= 1.0) && (exists i :: 0 <= i < 64 && r.value[i] == 1.0)
      ensures r.Ok? && numSimulation > 0 && !e.finished(board) ==> (BoardKey(board) in Ns
        && Ns[BoardKey(board)] + (if old(BoardKey(board) in Ps) then 0 else 1) == Get(old(Ns), BoardKey(board)) + numSimulation
        && Sum(Counts(Nsa, BoardKey(board))) == Ns[BoardKey(board)])
    {
      var state := BoardKey(board);
      ghost var bounded := AZ.ValueRange(net) && AZ.ValuesWithin(Snapshot(), Ceiling(AsWritten));
      ghost var known := state in Ps;
      ghost var base := Get(Ns, state);
      for i := 0 to numSimulation
        invariant Valid()
        invariant bounded ==> AZ.ValuesWithin(Snapshot(), Ceiling(AsWritten))
        invariant i == 0 ==> (state in Ps <==> known) && Get(Ns, state) == base
        invariant i > 0 && !e.finished(board) ==> state in Ps && Ns[state] + (if known then 0 else 1) == base + i
      {
        ghost var t := Snapshot();
        var res := Simulate(e, net, sqrt, board);
        if bounded {
          SimulatedBounded(AsWritten, e, net, sqrt, cpuct, t, board);
        }
        if res.Err? {
          SimulatedConsistent(AsWritten, e, net, sqrt, cpuct, t, board);
          return Err(res.error);
        }
        SimulatedRoot(AsWritten, e, net, sqrt, cpuct, t, board);
      }
      var counts := Counts(Nsa, state);
      if Max(counts) > 0 {
        PeakIsOne(counts);
      }
      if numSimulation > 0 && !e.finished(board) {
        CountsTotal(Ns, Nsa, 0, state);
      }
      r := Ok(Divided(counts, Max(counts)));
    }

    /**
     * `find_move`: the square with the largest share of the root's visits (the last of
     * them on a tie). With no visit every share is 0 / 0, NaN in the source, whose
     * comparison panics; the model reports NoMove.
     */
    method FindMove(e: Engine, net: AZ.Network, sqrt: nat -> real, board: Board) returns (r: Result<bv64, Error>)
      requires Valid() && AddsStones(e)
      modifies this
      ensures Valid()
      ensures r.Ok? ==> exists i :: 0 <= i < 64 && r.value == Cell(Index(i)) && MostVisited(Nsa, BoardKey(board), i)
    {
      var ret := Search(e, net, sqrt, board);
      if ret.Err? {
        return Err(ret.error);
      }
      var state := BoardKey(board);
      var peak := Max(Counts(Nsa, state));
      if peak == 0 {
        return Err(NoMove);
      }
      var idx := LastMaxIndex(ret.value);
      ReadoutChoice(Nsa, state, peak);
      r := Ok(Cell(Index(idx)));
    }
  }
}

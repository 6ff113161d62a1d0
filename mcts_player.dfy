/**
 * The plain Monte Carlo tree search player of the bitboard crate. It has no
 * network: every simulation plays down to the end of the game. Its tables count,
 * per state, the visits (Ns) and, per action, the visits (Nsa) and the wins plus
 * one (Qsa); N counts every backup since the player was made.
 *
 * The exploration term `cpuct * sqrt(ln N / n)` is computed in f32; the model takes
 * `sqrt(ln N / n)` as the parameter `sqrtLn`, a function of N and n.
 */
module MctsPlayer {
  import opened Wrappers
  import opened Bits
  import opened BitCount
  import opened Game
  import opened SearchTables
  import Utils

  /** The tables of the search and the backup counter N. */
  datatype Tables = Tables(n: nat, qsa: map<Action, nat>, nsa: map<Action, nat>, ns: map<State, nat>)

  /** The tables a simulation leaves and the game value it returns (or its error). */
  datatype Outcome = Outcome(tables: Tables, result: Result<int, Error>)

  /** Every counted state has been counted at least once. */
  ghost predicate Positive(t: Tables) {
    forall s :: s in t.ns ==> t.ns[s] >= 1
  }

  /**
   * The tables agree: N is at least 1; every visited action has a win count, of at
   * least 1 and at most one more than its visits; every action belongs to a counted
   * state; and every state's count is 1 plus the counts of its actions.
   */
  ghost predicate Consistent(t: Tables) {
    t.n >= 1
    && (forall a :: a in t.nsa ==> a in t.qsa)
    && (forall a :: a in t.qsa ==> a.0 in t.ns && 1 <= t.qsa[a] <= 1 + Get(t.nsa, a))
    && Balanced(t.ns, t.nsa, 1)
  }

  /** `Qsa.entry((s, a)).or_insert(1)` for each move a, in list order. */
  function Seeded(qsa: map<Action, nat>, s: State, moves: seq<Square>): map<Action, nat> {
    if moves == [] then qsa
    else
      var m := Seeded(qsa, s, moves[..|moves| - 1]);
      var sa := (s, moves[|moves| - 1]);
      if sa in m then m else m[sa := 1]
  }

  /** Seeding keeps every entry and adds a 1 for every move that had none. */
  lemma {:induction false} SeededEntries(qsa: map<Action, nat>, s: State, moves: seq<Square>)
    ensures forall a :: a in Seeded(qsa, s, moves) <==> a in qsa || (a.0 == s && a.1 in moves)
    ensures forall a :: a in qsa ==> Seeded(qsa, s, moves)[a] == qsa[a]
    ensures forall a :: a in Seeded(qsa, s, moves) && a !in qsa ==> Seeded(qsa, s, moves)[a] == 1
  {
    if moves != [] {
      var init := moves[..|moves| - 1];
      SeededEntries(qsa, s, init);
      forall a: Action | a.0 == s && a.1 in moves
        ensures a.1 in init || a.1 == moves[|moves| - 1]
      {
        var i :| 0 <= i < |moves| && moves[i] == a.1;
        if i < |moves| - 1 {
          assert init[i] == a.1;
        }
      }
    }
  }

  /**
   * The side effects of scoring the moves from state s: its visit count is entered
   * as 1 if it had none, and every move's win count as 1 if it had none.
   */
  function Entered(t: Tables, s: State, moves: seq<Square>): (u: Tables)
    ensures Positive(t) ==> Positive(u) && Get(u.ns, s) >= 1
  {
    Tables(t.n, Seeded(t.qsa, s, moves), t.nsa, if s in t.ns then t.ns else t.ns[s := 1])
  }

  /** The score of the move on a from s: its win count over the state's visits, plus the exploration term. */
  function Score(u: Tables, s: State, a: Square, cpuct: real, sqrtLn: (nat, nat) -> real): real
    requires Get(u.ns, s) >= 1
  {
    Get(u.qsa, (s, a)) as real / Get(u.ns, s) as real + cpuct * sqrtLn(u.n, Get(u.ns, s))
  }

  /** The move the search follows: the last of the best scores (`max_by` on the score). */
  function Choose(u: Tables, s: State, moves: seq<Square>, cpuct: real, sqrtLn: (nat, nat) -> real): (q: Square)
    requires moves != [] && Get(u.ns, s) >= 1
    ensures q in moves
    ensures forall a :: a in moves ==> Score(u, s, a, cpuct, sqrtLn) <= Score(u, s, q, cpuct, sqrtLn)
  {
    moves[LastMax(moves, (a: Square) => Score(u, s, a, cpuct, sqrtLn))]
  }

  /**
   * The exploration term is the same for every move of a state, so the search
   * follows the last of the moves with the most wins.
   */
  lemma ChooseByWins(u: Tables, s: State, moves: seq<Square>, cpuct: real, sqrtLn: (nat, nat) -> real)
    requires moves != [] && Get(u.ns, s) >= 1
    ensures Choose(u, s, moves, cpuct, sqrtLn) == moves[LastMax(moves, (a: Square) => Get(u.qsa, (s, a)) as real)]
  {
    var score := (a: Square) => Score(u, s, a, cpuct, sqrtLn);
    var wins := (a: Square) => Get(u.qsa, (s, a)) as real;
    var n := Get(u.ns, s) as real;
    forall a: Square, b: Square
      ensures score(a) > score(b) <==> wins(a) > wins(b)
    {
      DivOrderReal(wins(a), wins(b), n);
    }
    LastMaxOrder(moves, score, wins);
  }

  lemma DivOrderReal(x: real, y: real, n: real)
    requires n > 0.0
    ensures x / n > y / n <==> x > y
  {
    assert x / n * n == x && y / n * n == y;
  }

  /** The backup of the game value v through the move on q from s: a win counts in Qsa, every visit in N, Nsa and Ns. */
  function Backup(t: Tables, s: State, q: Square, v: int): Tables {
    var sa := (s, q);
    Tables(t.n + 1,
           if v == 1 then t.qsa[sa := Get(t.qsa, sa) + 1] else t.qsa,
           t.nsa[sa := Get(t.nsa, sa) + 1],
           t.ns[s := Get(t.ns, s) + 1])
  }

  /**
   * `_search`: one simulation from `board`. The moves are scored (entering the
   * state and its moves), the best is played, and the value is the game's result
   * for the mover if the move ends the game, and otherwise the deeper simulation's
   * value, negated when the turn passes to the opponent. It is backed up and returned.
   * With no legal move, `max_by(..).unwrap()` panics: NoMove.
   */
  function Simulated(e: Engine, cpuct: real, sqrtLn: (nat, nat) -> real, t: Tables, board: Board): Outcome
    requires AddsStones(e) && Positive(t)
    decreases 128 - Total(board), 1
  {
    var s, moves := Key(board), Moves(e, board);
    if moves == [] then Outcome(t, Err(NoMove))
    else
      var u := Entered(t, s, moves);
      Followed(e, cpuct, sqrtLn, u, board, Choose(u, s, moves, cpuct, sqrtLn))
  }

  /** The move on q played from the entered tables u, and the backup. */
  function Followed(e: Engine, cpuct: real, sqrtLn: (nat, nat) -> real, u: Tables, board: Board, q: Square): Outcome
    requires AddsStones(e) && Positive(u)
    decreases 128 - Total(board), 0
  {
    var next := e.put(board, q);
    if next.None? then Outcome(u, Err(Rejected))
    else if e.finished(next.value) then
      var v := Utils.GameResult(next.value, board.turn);
      Outcome(Backup(u, Key(board), q, v), Ok(v))
    else Backed(board, next.value, q, Simulated(e, cpuct, sqrtLn, u, next.value))
  }

  /** The backup after a deeper simulation: its error, or its value seen from `board`'s mover. */
  function Backed(board: Board, child: Board, q: Square, deeper: Outcome): Outcome {
    if deeper.result.Err? then deeper
    else
      var v := if child.turn == board.turn then deeper.result.value else -deeper.result.value;
      Outcome(Backup(deeper.tables, Key(board), q, v), Ok(v))
  }

  /** A move that does not end the game backs up the deeper value, negated when the turn passes. */
  lemma FollowedDeeper(e: Engine, cpuct: real, sqrtLn: (nat, nat) -> real, u: Tables, board: Board, q: Square, child: Board, v: int)
    requires AddsStones(e) && Positive(u)
    requires e.put(board, q) == Some(child) && !e.finished(child)
    requires
      var d := Simulated(e, cpuct, sqrtLn, u, child);
      d.result.Ok? && v == (if child.turn == board.turn then d.result.value else -d.result.value)
    ensures Followed(e, cpuct, sqrtLn, u, board, q) == Outcome(Backup(Simulated(e, cpuct, sqrtLn, u, child).tables, Key(board), q, v), Ok(v))
  {
    var d := Simulated(e, cpuct, sqrtLn, u, child);
    assert Followed(e, cpuct, sqrtLn, u, board, q) == Backed(board, child, q, d);
  }

  /** With a legal move, a simulation plays the chosen one from the entered tables. */
  lemma SimulatedMove(e: Engine, cpuct: real, sqrtLn: (nat, nat) -> real, t: Tables, board: Board)
    requires AddsStones(e) && Positive(t) && Moves(e, board) != []
    ensures
      var u := Entered(t, Key(board), Moves(e, board));
      Simulated(e, cpuct, sqrtLn, t, board) == Followed(e, cpuct, sqrtLn, u, board, Choose(u, Key(board), Moves(e, board), cpuct, sqrtLn))
  {}

  /** The entries of state x, and of its action on square a, are the same in t and u. */
  ghost predicate SameAt(t: Tables, u: Tables, x: State, a: Square) {
    (x in t.ns <==> x in u.ns) && Get(t.ns, x) == Get(u.ns, x)
    && ((x, a) in t.nsa <==> (x, a) in u.nsa) && Get(t.nsa, (x, a)) == Get(u.nsa, (x, a))
    && ((x, a) in t.qsa <==> (x, a) in u.qsa) && Get(t.qsa, (x, a)) == Get(u.qsa, (x, a))
  }

  /** Entering state s leaves the entries of every other state alone. */
  lemma EnteredKeeps(t: Tables, s: State, moves: seq<Square>, x: State, a: Square)
    requires s != x
    ensures SameAt(t, Entered(t, s, moves), x, a)
  {
    SeededEntries(t.qsa, s, moves);
  }

  /** A backup through state s leaves the entries of every other state alone. */
  lemma BackupKeeps(t: Tables, s: State, q: Square, v: int, x: State, a: Square)
    requires s != x
    ensures SameAt(t, Backup(t, s, q, v), x, a)
  {}

  /** A simulation from `board` changes no entry of a state with fewer stones than `board`. */
  lemma {:induction false} SimulatedKeeps(e: Engine, cpuct: real, sqrtLn: (nat, nat) -> real, t: Tables, board: Board, x: State, a: Square)
    requires AddsStones(e) && Positive(t) && Weight(x) < Total(board)
    ensures SameAt(t, Simulated(e, cpuct, sqrtLn, t, board).tables, x, a)
    decreases 128 - Total(board)
  {
    var s, moves := Key(board), Moves(e, board);
    var o := Simulated(e, cpuct, sqrtLn, t, board).tables;
    KeyTotal(board);
    assert s != x;
    if moves != [] {
      var u := Entered(t, s, moves);
      EnteredKeeps(t, s, moves, x, a);
      var q := Choose(u, s, moves, cpuct, sqrtLn);
      SimulatedMove(e, cpuct, sqrtLn, t, board);
      var next := e.put(board, q);
      if next.None? {
        assert o == u;
      } else if e.finished(next.value) {
        var v := Utils.GameResult(next.value, board.turn);
        assert o == Backup(u, s, q, v);
        BackupKeeps(u, s, q, v, x, a);
      } else {
        var child := next.value;
        var deeper := Simulated(e, cpuct, sqrtLn, u, child);
        SimulatedKeeps(e, cpuct, sqrtLn, u, child, x, a);
        if deeper.result.Ok? {
          var v := if child.turn == board.turn then deeper.result.value else -deeper.result.value;
          FollowedDeeper(e, cpuct, sqrtLn, u, board, q, child, v);
          BackupKeeps(deeper.tables, s, q, v, x, a);
        } else {
          assert o == deeper.tables;
        }
      }
    }
  }

  /** Entering a state and its moves keeps the tables consistent. */
  lemma EnteredConsistent(t: Tables, s: State, moves: seq<Square>)
    requires Consistent(t)
    ensures
      var u := Entered(t, s, moves);
      Consistent(u) && s in u.ns && (forall a :: a in moves ==> (s, a) in u.qsa)
  {
    SeededEntries(t.qsa, s, moves);
    if s !in t.ns {
      BalancedEnter(t.ns, t.nsa, 1, s);
    }
  }

  /** Backing a value up through an entered move keeps the tables consistent. */
  lemma BackupConsistent(t: Tables, s: State, q: Square, v: int)
    requires Consistent(t) && s in t.ns && (s, q) in t.qsa
    ensures Consistent(Backup(t, s, q, v))
  {
    var u := Backup(t, s, q, v);
    assert Get(u.nsa, (s, q)) == Get(t.nsa, (s, q)) + 1;
    forall a | a in u.qsa
      ensures a.0 in u.ns && 1 <= u.qsa[a] <= 1 + Get(u.nsa, a)
    {
      if a != (s, q) {
        assert u.qsa[a] == t.qsa[a] && Get(u.nsa, a) == Get(t.nsa, a);
      }
    }
    assert Get(t.ns, s) == t.ns[s];
    BalancedVisit(t.ns, t.nsa, 1, s, q);
    assert Balanced(u.ns, u.nsa, 1);
  }

  /** A simulation keeps the tables consistent. */
  lemma {:induction false} SimulatedConsistent(e: Engine, cpuct: real, sqrtLn: (nat, nat) -> real, t: Tables, board: Board)
    requires AddsStones(e) && Consistent(t)
    ensures Consistent(Simulated(e, cpuct, sqrtLn, t, board).tables)
    decreases 128 - Total(board)
  {
    var s, moves := Key(board), Moves(e, board);
    if moves != [] {
      var u := Entered(t, s, moves);
      EnteredConsistent(t, s, moves);
      var q := Choose(u, s, moves, cpuct, sqrtLn);
      SimulatedMove(e, cpuct, sqrtLn, t, board);
      var o := Simulated(e, cpuct, sqrtLn, t, board).tables;
      var next := e.put(board, q);
      if next.None? {
        assert o == u;
      } else {
        var child := next.value;
        if e.finished(child) {
          var v := Utils.GameResult(child, board.turn);
          assert o == Backup(u, s, q, v);
          BackupConsistent(u, s, q, v);
        } else {
          var deeper := Simulated(e, cpuct, sqrtLn, u, child);
          SimulatedConsistent(e, cpuct, sqrtLn, u, child);
          if deeper.result.Ok? {
            DeeperConsistent(e, cpuct, sqrtLn, u, board, q, child);
          } else {
            assert o == deeper.tables;
          }
        }
      }
    }
  }

  /** The backup after a deeper simulation that kept the tables consistent keeps them consistent. */
  lemma DeeperConsistent(e: Engine, cpuct: real, sqrtLn: (nat, nat) -> real, u: Tables, board: Board, q: Square, child: Board)
    requires AddsStones(e) && Consistent(u) && Key(board) in u.ns && (Key(board), q) in u.qsa
    requires e.put(board, q) == Some(child) && !e.finished(child)
    requires
      var d := Simulated(e, cpuct, sqrtLn, u, child);
      d.result.Ok? && Consistent(d.tables)
    ensures Consistent(Followed(e, cpuct, sqrtLn, u, board, q).tables)
  {
    var s, d := Key(board), Simulated(e, cpuct, sqrtLn, u, child);
    KeyTotal(board);
    SimulatedKeeps(e, cpuct, sqrtLn, u, child, s, q);
    var v := if child.turn == board.turn then d.result.value else -d.result.value;
    FollowedDeeper(e, cpuct, sqrtLn, u, board, q, child, v);
    BackupConsistent(d.tables, s, q, v);
  }

  /** Every value a simulation returns is a game result: -1, 0 or 1. */
  lemma {:induction false} SimulatedResult(e: Engine, cpuct: real, sqrtLn: (nat, nat) -> real, t: Tables, board: Board)
    requires AddsStones(e) && Positive(t)
    ensures
      var o := Simulated(e, cpuct, sqrtLn, t, board);
      o.result.Ok? ==> -1 <= o.result.value <= 1
    decreases 128 - Total(board)
  {
    var s, moves := Key(board), Moves(e, board);
    if moves != [] {
      var u := Entered(t, s, moves);
      var q := Choose(u, s, moves, cpuct, sqrtLn);
      SimulatedMove(e, cpuct, sqrtLn, t, board);
      var next := e.put(board, q);
      if next.Some? && e.finished(next.value) {
        Utils.GameResultSign(next.value, board.turn);
      } else if next.Some? {
        SimulatedResult(e, cpuct, sqrtLn, u, next.value);
      }
    }
  }

  /**
   * A simulation that returns a value v followed the move q with the most wins:
   * the state's count grew by one (from 1 for a new state), the action's count by
   * one, and its win count by one exactly when v is a win.
   */
  lemma SimulatedVisit(e: Engine, cpuct: real, sqrtLn: (nat, nat) -> real, t: Tables, board: Board)
    requires AddsStones(e) && Consistent(t)
    requires Simulated(e, cpuct, sqrtLn, t, board).result.Ok?
    ensures Moves(e, board) != []
    ensures
      var s, moves, o := Key(board), Moves(e, board), Simulated(e, cpuct, sqrtLn, t, board);
      var u := Entered(t, s, moves);
      var q := moves[LastMax(moves, (a: Square) => Get(u.qsa, (s, a)) as real)];
      && s in o.tables.ns && o.tables.ns[s] == (if s in t.ns then t.ns[s] else 1) + 1
      && (s, q) in o.tables.nsa && (s, q) in o.tables.qsa && (s, q) in u.qsa
      && o.tables.nsa[(s, q)] == Get(t.nsa, (s, q)) + 1
      && o.tables.qsa[(s, q)] == u.qsa[(s, q)] + (if o.result.value == 1 then 1 else 0)
  {
    var s, moves := Key(board), Moves(e, board);
    var u := Entered(t, s, moves);
    EnteredConsistent(t, s, moves);
    var q := Choose(u, s, moves, cpuct, sqrtLn);
    ChooseByWins(u, s, moves, cpuct, sqrtLn);
    SimulatedMove(e, cpuct, sqrtLn, t, board);
    var child := e.put(board, q).value;
    if !e.finished(child) {
      KeyTotal(board);
      SimulatedKeeps(e, cpuct, sqrtLn, u, child, s, q);
    }
  }

  /** A simulation from a root that returns a value counts one more visit of the root. */
  lemma SimulatedRoot(e: Engine, cpuct: real, sqrtLn: (nat, nat) -> real, t: Tables, board: Board)
    requires AddsStones(e) && Consistent(t)
    requires Simulated(e, cpuct, sqrtLn, t, board).result.Ok?
    ensures
      var u, s := Simulated(e, cpuct, sqrtLn, t, board).tables, Key(board);
      && Consistent(u) && s in u.ns && u.ns[s] == (if s in t.ns then t.ns[s] else 1) + 1
  {
    SimulatedConsistent(e, cpuct, sqrtLn, t, board);
    SimulatedVisit(e, cpuct, sqrtLn, t, board);
  }

  /** The root's counts add up to its visit count less one, so divided by their sum they are a distribution. */
  lemma ReadoutTotal(t: Tables, s: State)
    requires Consistent(t) && s in t.ns
    ensures Sum(Counts(t.nsa, s)) == t.ns[s] - 1
    ensures t.ns[s] > 1 ==> RealSum(Divided(Counts(t.nsa, s), t.ns[s] - 1)) == 1.0
  {
    CountsTotal(t.ns, t.nsa, 1, s);
    if t.ns[s] > 1 {
      DistributionSum(Counts(t.nsa, s));
    }
  }

  /** `MCTSPlayer`: the tables and the backup counter, kept from one search to the next. */
  class Player {
    const cpuct: real
    const numSimulation: nat
    var N: nat
    var Qsa: map<Action, nat>
    var Nsa: map<Action, nat>
    var Ns: map<State, nat>

    ghost function Snapshot(): Tables
      reads this
    {
      Tables(N, Qsa, Nsa, Ns)
    }

    ghost predicate Valid()
      reads this
    {
      Consistent(Snapshot())
    }

    /** `new`: N is 1 and the tables are empty. */
    constructor(cpuct: real, numSimulation: nat)
      ensures Valid()
      ensures this.cpuct == cpuct && this.numSimulation == numSimulation
      ensures N == 1 && Qsa == map[] && Nsa == map[] && Ns == map[]
    {
      this.cpuct := cpuct;
      this.numSimulation := numSimulation;
      N := 1;
      Qsa, Nsa, Ns := map[], map[], map[];
    }

    /** `clear_cache`: forget the tables; N is kept. */
    method ClearCache()
      requires Valid()
      modifies this
      ensures Valid()
      ensures N == old(N) && Qsa == map[] && Nsa == map[] && Ns == map[]
    {
      Qsa, Nsa, Ns := map[], map[], map[];
    }

    /** Scoring the moves from s enters the state and its moves, in list order. */
    method Enter(s: State, moves: seq<Square>)
      modifies this
      ensures Snapshot() == Entered(old(Snapshot()), s, moves)
    {
      if s !in Ns {
        Ns := Ns[s := 1];
      }
      var qsa := Qsa;
      for i := 0 to |moves|
        invariant qsa == Seeded(Qsa, s, moves[..i])
      {
        assert moves[..i + 1][..i] == moves[..i];
        if (s, moves[i]) !in qsa {
          qsa := qsa[(s, moves[i]) := 1];
        }
      }
      assert moves[..|moves|] == moves;
      Qsa := qsa;
    }

    /** The backup of the game value v through the move on q from s, in place. */
    method Back(s: State, q: Square, v: int)
      modifies this
      ensures Snapshot() == Backup(old(Snapshot()), s, q, v)
    {
      var sa := (s, q);
      if v == 1 {
        Qsa := Qsa[sa := Get(Qsa, sa) + 1];
      }
      N := N + 1;
      Nsa := Nsa[sa := Get(Nsa, sa) + 1];
      Ns := Ns[s := Get(Ns, s) + 1];
    }

    /** `_search`, in place: the tables and the value are those of Simulated. */
    method Simulate(e: Engine, sqrtLn: (nat, nat) -> real, board: Board) returns (r: Result<int, Error>)
      requires AddsStones(e) && Positive(Snapshot())
      modifies this
      ensures Outcome(Snapshot(), r) == Simulated(e, cpuct, sqrtLn, old(Snapshot()), board)
      decreases 128 - Total(board)
    {
      var state, moves := Key(board), Moves(e, board);
      if moves == [] {
        return Err(NoMove);
      }
      ghost var t := Snapshot();
      SimulatedMove(e, cpuct, sqrtLn, t, board);
      Enter(state, moves);
      ghost var u := Snapshot();
      var q := Choose(Tables(N, Qsa, Nsa, Ns), state, moves, cpuct, sqrtLn);
      assert Simulated(e, cpuct, sqrtLn, t, board) == Followed(e, cpuct, sqrtLn, u, board, q);
      var next := e.put(board, q);
      if next.None? {
        return Err(Rejected);
      }
      var child := next.value;
      var v: int;
      ghost var pre: Tables;
      if e.finished(child) {
        v := Utils.GameResult(child, board.turn);
        pre := Snapshot();
        assert Followed(e, cpuct, sqrtLn, u, board, q) == Outcome(Backup(pre, state, q, v), Ok(v));
      } else {
        var deeper := Simulate(e, sqrtLn, child);
        ghost var o := Simulated(e, cpuct, sqrtLn, u, child);
        assert Followed(e, cpuct, sqrtLn, u, board, q) == Backed(board, child, q, o);
        assert o.tables == Snapshot() && o.result == deeper;
        if deeper.Err? {
          return deeper;
        }
        v := if child.turn == board.turn then deeper.value else -deeper.value;
        FollowedDeeper(e, cpuct, sqrtLn, u, board, q, child, v);
        pre := Snapshot();
      }
      Back(state, q, v);
      r := Ok(v);
    }

    /** `init_search`: k simulations from `board`, stopping at the first error. */
    method InitSearch(e: Engine, sqrtLn: (nat, nat) -> real, k: nat, board: Board) returns (r: Result<(), Error>)
      requires Valid() && AddsStones(e)
      modifies this
      ensures Valid()
      ensures r.Ok? && k > 0 ==> Key(board) in Ns && Ns[Key(board)] == (if old(Key(board) in Ns) then old(Ns[Key(board)]) else 1) + k
    {
      var state := Key(board);
      ghost var base := if state in Ns then Ns[state] else 1;
      for i := 0 to k
        invariant Valid()
        invariant i > 0 ==> state in Ns && Ns[state] == base + i
        invariant i == 0 ==> (state in Ns ==> Ns[state] == base) && (state !in Ns ==> base == 1)
      {
        ghost var t := Snapshot();
        var res := Simulate(e, sqrtLn, board);
        if res.Err? {
          SimulatedConsistent(e, cpuct, sqrtLn, t, board);
          return Err(res.error);
        }
        SimulatedRoot(e, cpuct, sqrtLn, t, board);
      }
      r := Ok(());
    }

    /**
     * `search`: `numSimulation` simulations, then the root's visit counts divided by
     * their sum. That sum is the root's count less the 1 it was entered with.
     */
    method Search(e: Engine, sqrtLn: (nat, nat) -> real, board: Board) returns (r: Result<seq<real>, Error>)
      requires Valid() && AddsStones(e)
      modifies this
      ensures Valid()
      ensures r.Ok? ==> r.value == Divided(Counts(Nsa, Key(board)), Sum(Counts(Nsa, Key(board))))
      ensures r.Ok? && numSimulation > 0 ==> (Key(board) in Ns
        && Ns[Key(board)] == (if old(Key(board) in Ns) then old(Ns[Key(board)]) else 1) + numSimulation
        && Sum(Counts(Nsa, Key(board))) == Ns[Key(board)] - 1
        && RealSum(r.value) == 1.0)
    {
      var state := Key(board);
      var ran := InitSearch(e, sqrtLn, numSimulation, board);
      if ran.Err? {
        return Err(ran.error);
      }
      var counts := Counts(Nsa, state);
      if numSimulation > 0 {
        assert state in Ns && Ns[state] > 1;
        ReadoutTotal(Snapshot(), state);
        assert RealSum(Divided(counts, Sum(counts))) == 1.0;
      }
      r := Ok(Divided(counts, Sum(counts)));
    }

    /**
     * `find_move`: the square with the largest share of the root's visits (the last
     * of them on a tie). With no visit the shares are 0 / 0, NaN in the source,
     * whose comparison panics; the model reports NoMove.
     */
    method FindMove(e: Engine, sqrtLn: (nat, nat) -> real, board: Board) returns (r: Result<bv64, Error>)
      requires Valid() && AddsStones(e)
      modifies this
      ensures Valid()
      ensures r.Ok? ==> exists i :: 0 <= i < 64 && r.value == Cell(Index(i)) && MostVisited(Nsa, Key(board), i)
    {
      var ret := Search(e, sqrtLn, board);
      if ret.Err? {
        return Err(ret.error);
      }
      var shares := ret.value;
      if RealSum(shares) == 0.0 {
        return Err(NoMove);
      }
      var state := Key(board);
      var total := Sum(Counts(Nsa, state));
      if total == 0 {
        DividedZero(Counts(Nsa, state));
        assert false;
      }
      var idx := LastMaxIndex(shares);
      ReadoutChoice(Nsa, state, total);
      r := Ok(Cell(Index(idx)));
    }
  }
}

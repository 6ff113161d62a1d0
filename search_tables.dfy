/**
 * What the three tree searches share: the keys of their tables, the sum of the
 * visit counts of one state, the `max_by` choice (the last of the largest), and the
 * readouts that turn the visit counts of the root into a 64-entry vector.
 *
 * A Position is the word with one bit, `UPPER_LEFT >> i`; the tables here key it by
 * its square i, which carries the same information.
 */
module SearchTables {
  import opened Bits
  import opened BitCount
  import opened Game

  /** A state: the pair of masks a search keys its tables by. */
  type State = (bv64, bv64)

  /** A state and a move from it. */
  type Action = (State, Square)

  /** A count, 0 where the table has no entry (`get(..).unwrap_or(&0)`). */
  function Get<K>(m: map<K, nat>, k: K): nat {
    if k in m then m[k] else 0
  }

  /** The counts of the actions of state s on squares 0 .. k-1. */
  function Visits(nsa: map<Action, nat>, s: State, k: nat): nat
    requires k <= 64
  {
    if k == 0 then 0 else Visits(nsa, s, k - 1) + Get(nsa, (s, Index(k - 1)))
  }

  lemma {:induction false} VisitsBump(nsa: map<Action, nat>, s: State, q: Square, k: nat)
    requires k <= 64
    ensures Visits(nsa[(s, q) := Get(nsa, (s, q)) + 1], s, k) == Visits(nsa, s, k) + (if (q as int) < k then 1 else 0)
  {
    if k > 0 {
      VisitsBump(nsa, s, q, k - 1);
      IndexEq(k - 1, q);
    }
  }

  lemma {:induction false} VisitsOther(nsa: map<Action, nat>, s: State, a: Action, n: nat, k: nat)
    requires k <= 64 && a.0 != s
    ensures Visits(nsa[a := n], s, k) == Visits(nsa, s, k)
  {
    if k > 0 {
      VisitsOther(nsa, s, a, n, k - 1);
    }
  }

  lemma {:induction false} VisitsNone(nsa: map<Action, nat>, s: State, k: nat)
    requires k <= 64 && forall a :: a in nsa ==> a.0 != s
    ensures Visits(nsa, s, k) == 0
  {
    if k > 0 {
      VisitsNone(nsa, s, k - 1);
    }
  }

  /**
   * The bookkeeping invariant of a search: every visit count of a state is `base`
   * plus the visit counts of its actions, and every action belongs to a counted state.
   */
  ghost predicate Balanced(ns: map<State, nat>, nsa: map<Action, nat>, base: nat) {
    (forall a :: a in nsa ==> a.0 in ns)
    && (forall s :: s in ns ==> ns[s] == base + Visits(nsa, s, 64))
  }

  /** Counting one more visit of state s through the move on q keeps the books balanced. */
  lemma BalancedVisit(ns: map<State, nat>, nsa: map<Action, nat>, base: nat, s: State, q: Square)
    requires Balanced(ns, nsa, base) && s in ns
    ensures Balanced(ns[s := ns[s] + 1], nsa[(s, q) := Get(nsa, (s, q)) + 1], base)
  {
    var ns', nsa' := ns[s := ns[s] + 1], nsa[(s, q) := Get(nsa, (s, q)) + 1];
    forall t | t in ns'
      ensures ns'[t] == base + Visits(nsa', t, 64)
    {
      if t == s {
        VisitsBump(nsa, s, q, 64);
      } else {
        VisitsOther(nsa, t, (s, q), Get(nsa, (s, q)) + 1, 64);
      }
    }
  }

  /** Entering a new state with `base` visits keeps the books balanced. */
  lemma BalancedEnter(ns: map<State, nat>, nsa: map<Action, nat>, base: nat, s: State)
    requires Balanced(ns, nsa, base) && s !in ns
    ensures Balanced(ns[s := base], nsa, base)
  {
    VisitsNone(nsa, s, 64);
  }

  /**
   * `max_by` over a move list: the fold keeps the move so far only while it is
   * strictly larger than the next one, so the result is the last of the largest.
   */
  function LastMax(ps: seq<Square>, key: Square -> real): (r: nat)
    requires |ps| > 0
    ensures r < |ps|
    ensures forall j :: 0 <= j < |ps| ==> key(ps[j]) <= key(ps[r])
    ensures forall j :: r < j < |ps| ==> key(ps[j]) < key(ps[r])
  {
    if |ps| == 1 then 0
    else
      var r := LastMax(ps[..|ps| - 1], key);
      if key(ps[r]) > key(ps[|ps| - 1]) then r else |ps| - 1
  }

  /** `max_by` over the 64 entries of a readout: the index of the last of the largest. */
  function LastMaxIndex(v: seq<real>): (r: nat)
    requires |v| > 0
    ensures r < |v|
    ensures forall j :: 0 <= j < |v| ==> v[j] <= v[r]
    ensures forall j :: r < j < |v| ==> v[j] < v[r]
  {
    if |v| == 1 then 0
    else
      var r := LastMaxIndex(v[..|v| - 1]);
      if v[r] > v[|v| - 1] then r else |v| - 1
  }

  /** The counts of the 64 moves of state s, square by square. */
  function Counts(nsa: map<Action, nat>, s: State): (c: seq<nat>)
    ensures |c| == 64 && forall i :: 0 <= i < 64 ==> c[i] == Get(nsa, (s, Index(i)))
  {
    seq(64, i requires 0 <= i < 64 => Get(nsa, (s, Index(i))))
  }

  function Sum(c: seq<nat>): nat {
    if |c| == 0 then 0 else Sum(c[..|c| - 1]) + c[|c| - 1]
  }

  lemma {:induction false} SumCounts(nsa: map<Action, nat>, s: State, k: nat)
    requires k <= 64
    ensures Sum(Counts(nsa, s)[..k]) == Visits(nsa, s, k)
  {
    if k > 0 {
      SumCounts(nsa, s, k - 1);
      assert Counts(nsa, s)[..k][..k - 1] == Counts(nsa, s)[..k - 1];
    }
  }

  /** The total of the root's counts is the root's visit count, less the base. */
  lemma CountsTotal(ns: map<State, nat>, nsa: map<Action, nat>, base: nat, s: State)
    requires Balanced(ns, nsa, base) && s in ns
    ensures Sum(Counts(nsa, s)) + base == ns[s]
  {
    SumCounts(nsa, s, 64);
    assert Counts(nsa, s)[..64] == Counts(nsa, s);
  }

  /** Each count divided by `d` (as f32 division; 0 / 0 is NaN in the source, 0 here). */
  function Divided(c: seq<nat>, d: nat): (v: seq<real>)
    ensures |v| == |c|
  {
    seq(|c|, i requires 0 <= i < |c| => if d == 0 then 0.0 else c[i] as real / d as real)
  }

  function RealSum(v: seq<real>): real {
    if |v| == 0 then 0.0 else RealSum(v[..|v| - 1]) + v[|v| - 1]
  }

  lemma {:induction false} DividedSum(c: seq<nat>, d: nat)
    requires d > 0
    ensures RealSum(Divided(c, d)) == Sum(c) as real / d as real
  {
    if |c| > 0 {
      var c' := c[..|c| - 1];
      DividedSum(c', d);
      assert Divided(c, d)[..|c| - 1] == Divided(c', d);
      assert Divided(c, d)[|c| - 1] == c[|c| - 1] as real / d as real;
      AddQuotients(Sum(c') as real, c[|c| - 1] as real, d as real);
    }
  }

  lemma AddQuotients(a: real, b: real, d: real)
    requires d != 0.0
    ensures a / d + b / d == (a + b) / d
  {}

  lemma SelfQuotient(d: real)
    requires d != 0.0
    ensures d / d == 1.0
  {}

  /** Counts divided by their total are a distribution: they sum to 1. */
  lemma DistributionSum(c: seq<nat>)
    requires Sum(c) > 0
    ensures RealSum(Divided(c, Sum(c))) == 1.0
  {
    DividedSum(c, Sum(c));
    SelfQuotient(Sum(c) as real);
  }

  /** With nothing to divide by, every share is 0. */
  lemma {:induction false} DividedZero(c: seq<nat>)
    ensures RealSum(Divided(c, 0)) == 0.0
  {
    if |c| > 0 {
      DividedZero(c[..|c| - 1]);
      assert Divided(c, 0)[..|c| - 1] == Divided(c[..|c| - 1], 0);
    }
  }

  /** Shares of one positive total order as their counts do. */
  lemma DivOrder(a: nat, b: nat, d: nat)
    requires d > 0
    ensures a as real / d as real <= b as real / d as real <==> a <= b
    ensures a as real / d as real < b as real / d as real <==> a < b
  {
    var x, y := a as real / d as real, b as real / d as real;
    assert x * d as real == a as real && y * d as real == b as real;
  }
  /** Square i has the most visits from state s, and every later square strictly fewer. */
  predicate MostVisited(nsa: map<Action, nat>, s: State, i: nat)
    requires i < 64
  {
    (forall j :: 0 <= j < 64 ==> Get(nsa, (s, Index(j))) <= Get(nsa, (s, Index(i))))
    && (forall j :: i < j < 64 ==> Get(nsa, (s, Index(j))) < Get(nsa, (s, Index(i))))
  }

  /** The last of the largest shares of a positive total is the most visited square. */
  lemma ReadoutChoice(nsa: map<Action, nat>, s: State, d: nat)
    requires d > 0
    ensures MostVisited(nsa, s, LastMaxIndex(Divided(Counts(nsa, s), d)))
  {
    var shares := Divided(Counts(nsa, s), d);
    var idx := LastMaxIndex(shares);
    forall j | 0 <= j < 64
      ensures Get(nsa, (s, Index(j))) <= Get(nsa, (s, Index(idx)))
      ensures idx < j ==> Get(nsa, (s, Index(j))) < Get(nsa, (s, Index(idx)))
    {
      assert shares[j] == Get(nsa, (s, Index(j))) as real / d as real;
      assert shares[idx] == Get(nsa, (s, Index(idx))) as real / d as real;
      DivOrder(Get(nsa, (s, Index(j))), Get(nsa, (s, Index(idx))), d);
    }
  }



  /** The largest count (`iter().max().unwrap()`). */
  function Max(c: seq<nat>): (m: nat)
    requires |c| > 0
    ensures forall i :: 0 <= i < |c| ==> c[i] <= m
    ensures exists i :: 0 <= i < |c| && c[i] == m
  {
    if |c| == 1 then c[0]
    else
      var m := Max(c[..|c| - 1]);
      assert c[..|c| - 1][0] == c[0];
      if c[|c| - 1] > m then c[|c| - 1] else m
  }

  /** Counts divided by the largest of them: every entry is at most 1 and the largest is exactly 1. */
  lemma PeakIsOne(c: seq<nat>)
    requires |c| > 0 && Max(c) > 0
    ensures forall i :: 0 <= i < |c| ==> Divided(c, Max(c))[i] <= 1.0
    ensures exists i :: 0 <= i < |c| && Divided(c, Max(c))[i] == 1.0
  {
    var m := Max(c);
    forall i | 0 <= i < |c|
      ensures Divided(c, m)[i] <= 1.0
    {
      assert Divided(c, m)[i] == c[i] as real / m as real;
      AtMostOne(c[i], m);
    }
    var i :| 0 <= i < |c| && c[i] == m;
    assert Divided(c, m)[i] == m as real / m as real;
    SelfQuotient(m as real);
  }

  lemma AtMostOne(a: nat, b: nat)
    requires a <= b && b > 0
    ensures a as real / b as real <= 1.0
  {
    var f := a as real / b as real;
    assert f * b as real == a as real;
  }

  /** The number of stones a state holds. */
  function Weight(s: State): nat {
    Stones(s.0, s.1, 1)
  }

  /** The running mean of the values backed up through an action (`(n q + v) / (n + 1)`). */
  function Mean(n: nat, q: real, v: real): real {
    (n as real * q + v) / (n as real + 1.0)
  }

  /** The average of a list of backed-up values. */
  function Average(vs: seq<real>): real
    requires |vs| > 0
  {
    RealSum(vs) / |vs| as real
  }

  lemma RealSumAppend(vs: seq<real>, v: real)
    ensures RealSum(vs + [v]) == RealSum(vs) + v
  {
    assert (vs + [v])[..|vs|] == vs;
  }

  /** Folding one more value into the mean of n values gives the mean of the n + 1 values. */
  lemma MeanIsAverage(vs: seq<real>, q: real, v: real)
    requires |vs| > 0 && q == Average(vs)
    ensures Mean(|vs|, q, v) == Average(vs + [v])
  {
    RealSumAppend(vs, v);
    var n := |vs| as real;
    assert q * n == RealSum(vs);
  }

  lemma MeanBoundedWhen(n: nat, q: real, v: real)
    ensures -1.0 <= q <= 1.0 && -1.0 <= v <= 1.0 ==> -1.0 <= Mean(n, q, v) <= 1.0
  {
    if -1.0 <= q <= 1.0 && -1.0 <= v <= 1.0 {
      MeanBounded(n, q, v);
    }
  }

  /** The mean of values in [-1, 1] stays in [-1, 1]. */
  lemma MeanBounded(n: nat, q: real, v: real)
    requires -1.0 <= q <= 1.0 && -1.0 <= v <= 1.0
    ensures -1.0 <= Mean(n, q, v) <= 1.0
  {
    var d := n as real + 1.0;
    ScaleBounded(n as real, q);
    QuotientBounded(n as real * q + v, d);
  }

  lemma ScaleBounded(a: real, q: real)
    requires a >= 0.0 && -1.0 <= q <= 1.0
    ensures -a <= a * q <= a
  {
    assert a * q - a == a * (q - 1.0);
    assert a * q + a == a * (q + 1.0);
  }

  lemma QuotientBounded(x: real, d: real)
    requires d > 0.0 && -d <= x <= d
    ensures -1.0 <= x / d <= 1.0
  {
    var m := x / d;
    assert m * d == x;
    assert (m - 1.0) * d <= 0.0;
    assert (m + 1.0) * d >= 0.0;
  }

  /** The update of the action value as the two AlphaZero searches write it: `(n + q + v) / (n + 1)`. */
  function QUpdateAsWritten(n: nat, q: real, v: real): real {
    (n as real + q + v) / (n as real + 1.0)
  }

  /**
   * After one win, a second win through the same action takes the value as written to
   * 1.5, outside the range of values, where the running mean stays at 1.
   */
  lemma QUpdateLeavesRange()
    ensures QUpdateAsWritten(1, 1.0, 1.0) == 1.5
    ensures Mean(1, 1.0, 1.0) == 1.0 == Average([1.0, 1.0])
  {
    RealSumAppend([], 1.0);
    RealSumAppend([1.0], 1.0);
    assert [1.0] + [1.0] == [1.0, 1.0];
  }

  /**
   * Which form of a search a definition follows: the program as written, or the
   * program with the defects recorded among the findings corrected.
   */
  datatype Variant = AsWritten | Corrected

  /** The update of an action value in each form: as written, or the running mean. */
  function Update(variant: Variant, n: nat, q: real, v: real): real {
    match variant
    case AsWritten => QUpdateAsWritten(n, q, v)
    case Corrected => Mean(n, q, v)
  }

  /** The largest action value each form can hold: 2 as written, 1 once corrected. */
  function Ceiling(variant: Variant): real {
    match variant
    case AsWritten => 2.0
    case Corrected => 1.0
  }

  lemma QuotientWithin(x: real, d: real, lo: real, hi: real)
    requires d > 0.0 && lo * d <= x <= hi * d
    ensures lo <= x / d <= hi
  {
    var m := x / d;
    assert m * d == x;
    assert (m - hi) * d <= 0.0;
    assert (m - lo) * d >= 0.0;
  }

  /**
   * The update as written keeps a value in [-1, 2] once the action has been
   * counted: `(n + q + v) / (n + 1)` is at most `(n + 3) / (n + 1) <= 2` and at
   * least `(n - 2) / (n + 1) >= -1`.
   */
  lemma QUpdateWithin(n: nat, q: real, v: real)
    requires n >= 1 && -1.0 <= q <= 2.0 && -1.0 <= v <= 1.0
    ensures -1.0 <= QUpdateAsWritten(n, q, v) <= 2.0
  {
    QuotientWithin(n as real + q + v, n as real + 1.0, -1.0, 2.0);
  }

  /**
   * Each form keeps an action value within its ceiling; the form as written
   * needs the action to have been counted before.
   */
  lemma UpdateBounded(variant: Variant, n: nat, q: real, v: real)
    requires variant == AsWritten ==> n >= 1
    requires -1.0 <= q <= Ceiling(variant) && -1.0 <= v <= 1.0
    ensures -1.0 <= Update(variant, n, q, v) <= Ceiling(variant)
  {
    match variant
    case AsWritten => QUpdateWithin(n, q, v);
    case Corrected => MeanBounded(n, q, v);
  }

  /** Two keys that order the moves alike make `max_by` choose the same move. */
  lemma {:induction false} LastMaxOrder(ps: seq<Square>, k1: Square -> real, k2: Square -> real)
    requires |ps| > 0
    requires forall a, b :: k1(a) > k1(b) <==> k2(a) > k2(b)
    ensures LastMax(ps, k1) == LastMax(ps, k2)
  {
    if |ps| > 1 {
      LastMaxOrder(ps[..|ps| - 1], k1, k2);
    }
  }
}

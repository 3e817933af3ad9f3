/** Finite sums and means of real-valued sequences, the counterpart of
    `quicksum` and of the `(1/Scenarios) * quicksum(...)` averages. */
module Sums {

  /** Sum of a sequence, accumulated from the front (the last element is added last). */
  function Sum(xs: seq<real>): real
  {
    if xs == [] then 0.0 else Sum(xs[..|xs| - 1]) + xs[|xs| - 1]
  }

  /** A total over `n` items averaged as `(1/n) * total`. */
  function Average(n: nat, total: real): real
    requires n > 0
  {
    (1.0 / (n as real)) * total
  }

  function Mean(xs: seq<real>): real
    requires |xs| > 0
  {
    Average(|xs|, Sum(xs))
  }

  /** Averaging distributes over a difference of totals. */
  lemma AverageOfDifference(n: nat, a: real, b: real, c: real)
    requires n > 0
    ensures Average(n, a - b - c) == Average(n, a) - Average(n, b) - Average(n, c)
  {
  }

  lemma {:induction false} SumAppend(a: seq<real>, b: seq<real>)
    ensures Sum(a + b) == Sum(a) + Sum(b)
  {
    if b == [] {
      assert a + b == a;
    } else {
      assert (a + b)[..|a + b| - 1] == a + b[..|b| - 1];
      SumAppend(a, b[..|b| - 1]);
    }
  }

  lemma SumSingleton(v: real)
    ensures Sum([v]) == v
  {
    assert [v][..0] == [];
  }

  /** Adding `v` to one element adds `v` to the sum. */
  lemma SumUpdate(s: seq<real>, i: nat, v: real)
    requires i < |s|
    ensures Sum(s[i := s[i] + v]) == Sum(s) + v
  {
    var t := s[i := s[i] + v];
    assert s == s[..i] + [s[i]] + s[i + 1..];
    assert t == s[..i] + [s[i] + v] + s[i + 1..];
    SumAppend(s[..i] + [s[i]], s[i + 1..]);
    SumAppend(s[..i], [s[i]]);
    SumAppend(s[..i] + [s[i] + v], s[i + 1..]);
    SumAppend(s[..i], [s[i] + v]);
    SumSingleton(s[i]);
    SumSingleton(s[i] + v);
  }

  lemma {:induction false} SumPointwise(a: seq<real>, b: seq<real>, c: seq<real>)
    requires |a| == |b| == |c|
    requires forall i :: 0 <= i < |c| ==> c[i] == a[i] + b[i]
    ensures Sum(c) == Sum(a) + Sum(b)
  {
    if c != [] {
      var n := |c| - 1;
      SumPointwise(a[..n], b[..n], c[..n]);
    }
  }

  lemma {:induction false} SumEqual(a: seq<real>, b: seq<real>)
    requires |a| == |b|
    requires forall i :: 0 <= i < |a| ==> a[i] == b[i]
    ensures Sum(a) == Sum(b)
  {
    assert a == b;
  }

  lemma {:induction false} SumConstant(xs: seq<real>, c: real)
    requires forall i :: 0 <= i < |xs| ==> xs[i] == c
    ensures Sum(xs) == (|xs| as real) * c
  {
    if xs != [] {
      SumConstant(xs[..|xs| - 1], c);
    }
  }

  lemma MeanConstant(xs: seq<real>, c: real)
    requires |xs| > 0
    requires forall i :: 0 <= i < |xs| ==> xs[i] == c
    ensures Mean(xs) == c
  {
    SumConstant(xs, c);
  }

  lemma {:induction false} SumNonNegative(xs: seq<real>)
    requires forall i :: 0 <= i < |xs| ==> xs[i] >= 0.0
    ensures Sum(xs) >= 0.0
  {
    if xs != [] {
      SumNonNegative(xs[..|xs| - 1]);
    }
  }

  /** With no negative element, every element is at most the sum. */
  lemma {:induction false} ElementAtMostSum(xs: seq<real>, k: nat)
    requires forall i :: 0 <= i < |xs| ==> xs[i] >= 0.0
    requires k < |xs|
    ensures xs[k] <= Sum(xs)
  {
    var n := |xs| - 1;
    if k == n {
      SumNonNegative(xs[..n]);
    } else {
      ElementAtMostSum(xs[..n], k);
    }
  }

  /** Column `t` of a matrix given as a sequence of rows. */
  function Column(m: seq<seq<real>>, t: nat): seq<real>
    requires forall s :: 0 <= s < |m| ==> t < |m[s]|
  {
    seq(|m|, s requires 0 <= s < |m| => m[s][t])
  }

  function RowSums(m: seq<seq<real>>): seq<real>
  {
    seq(|m|, s requires 0 <= s < |m| => Sum(m[s]))
  }

  function ColumnSums(m: seq<seq<real>>, T: nat): seq<real>
    requires forall s :: 0 <= s < |m| ==> |m[s]| == T
  {
    seq(T, t requires 0 <= t < T => Sum(Column(m, t)))
  }

  /** Summing a rectangular matrix row by row or column by column gives the same total. */
  lemma {:induction false} SumInterchange(m: seq<seq<real>>, T: nat)
    requires forall s :: 0 <= s < |m| ==> |m[s]| == T
    ensures Sum(RowSums(m)) == Sum(ColumnSums(m, T))
  {
    if m == [] {
      SumConstant(ColumnSums(m, T), 0.0);
    } else {
      var n := |m| - 1;
      SumInterchange(m[..n], T);
      assert RowSums(m)[..n] == RowSums(m[..n]);
      ColumnSumsStep(m, T);
      SumPointwise(ColumnSums(m[..n], T), m[n], ColumnSums(m, T));
    }
  }

  /** Adding a last row adds it to every column sum. */
  lemma ColumnSumsStep(m: seq<seq<real>>, T: nat)
    requires |m| > 0 && forall s :: 0 <= s < |m| ==> |m[s]| == T
    ensures forall t :: 0 <= t < T ==>
              ColumnSums(m, T)[t] == ColumnSums(m[..|m| - 1], T)[t] + m[|m| - 1][t]
  {
    var n := |m| - 1;
    forall t | 0 <= t < T
      ensures ColumnSums(m, T)[t] == ColumnSums(m[..n], T)[t] + m[n][t]
    {
      assert Column(m, t)[..n] == Column(m[..n], t);
    }
  }
}

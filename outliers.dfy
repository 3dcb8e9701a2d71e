/**
 * The outlier filter of the upsampling service: keep the points whose mean
 * distance to their nearest neighbours is below one and a half times the
 * mean over all points and neighbours.
 */
module Outliers {
  import opened Masks
  import opened Reshape

  function SumR(s: seq<real>): real
  {
    if |s| == 0 then 0.0 else s[0] + SumR(s[1..])
  }

  /** `np.mean`: the sum over the number of entries. */
  function Mean(s: seq<real>): real
    requires |s| > 0
  {
    SumR(s) / (|s| as real)
  }

  lemma {:induction false} SumAppend(a: seq<real>, b: seq<real>)
    ensures SumR(a + b) == SumR(a) + SumR(b)
  {
    if |a| == 0 {
      assert a + b == b;
    } else {
      SumAppend(a[1..], b);
      assert (a + b)[1..] == a[1..] + b;
    }
  }

  /** The sum of all entries is the sum of the row sums. */
  lemma {:induction false} SumRows(rows: seq<seq<real>>)
    ensures SumR(Concat(rows)) == SumR(seq(|rows|, i requires 0 <= i < |rows| => SumR(rows[i])))
  {
    if |rows| > 0 {
      SumRows(rows[1..]);
      SumAppend(rows[0], Concat(rows[1..]));
      var sums := seq(|rows|, i requires 0 <= i < |rows| => SumR(rows[i]));
      assert sums[1..] == seq(|rows| - 1, i requires 0 <= i < |rows| - 1 => SumR(rows[1..][i]));
    }
  }

  /** Dividing every entry by `c` divides the sum by `c`. */
  lemma {:induction false} SumDiv(s: seq<real>, c: real)
    requires c != 0.0
    ensures SumR(seq(|s|, i requires 0 <= i < |s| => s[i] / c)) == SumR(s) / c
  {
    var d := seq(|s|, i requires 0 <= i < |s| => s[i] / c);
    if |s| > 0 {
      SumDiv(s[1..], c);
      assert d[1..] == seq(|s| - 1, i requires 0 <= i < |s| - 1 => s[1..][i] / c);
    }
  }

  /** A sum of entries all at least `c` is at least `|s| * c`. */
  lemma {:induction false} SumAtLeast(s: seq<real>, c: real)
    requires forall i :: 0 <= i < |s| ==> s[i] >= c
    ensures SumR(s) >= (|s| as real) * c
  {
    if |s| > 0 {
      SumAtLeast(s[1..], c);
    }
  }

  /** Rows of `k` neighbour distances each, one row per point. */
  ghost predicate Uniform(rows: seq<seq<real>>, k: nat)
  {
    k > 0 && forall i :: 0 <= i < |rows| ==> |rows[i]| == k
  }

  /** `np.mean(dist, axis=1)`: the mean of each row. */
  function RowMeans(rows: seq<seq<real>>): (avg: seq<real>)
    requires forall i :: 0 <= i < |rows| ==> |rows[i]| > 0
    ensures |avg| == |rows|
  {
    seq(|rows|, i requires 0 <= i < |rows| => Mean(rows[i]))
  }

  /** Dividing by `m * k` is dividing by `k`, then by `m`. */
  lemma DivTwice(total: real, m: nat, k: nat)
    requires m > 0 && k > 0
    ensures (m * k) as real > 0.0
    ensures total / ((m * k) as real) == total / (k as real) / (m as real)
  {
    assert (m * k) as real == (m as real) * (k as real);
  }

  /** With rows of equal length, the overall mean is the mean of the row means. */
  lemma MeanOfRowMeans(rows: seq<seq<real>>, k: nat)
    requires |rows| > 0 && Uniform(rows, k)
    ensures |Concat(rows)| == |rows| * k > 0
    ensures Mean(Concat(rows)) == Mean(RowMeans(rows))
  {
    RowsConcat(rows, k);
    MulIsTimes(|rows|, k);
    var sums := seq(|rows|, i requires 0 <= i < |rows| => SumR(rows[i]));
    SumRows(rows);
    SumDiv(sums, k as real);
    assert RowMeans(rows) == seq(|sums|, i requires 0 <= i < |sums| => sums[i] / (k as real));
    DivTwice(SumR(sums), |rows|, k);
  }

  /** `avg < avg_total * 1.5`: the points the filter keeps. */
  function KeepMask(rows: seq<seq<real>>, k: nat): (keep: seq<bool>)
    requires |rows| > 0 && Uniform(rows, k)
    ensures |keep| == |rows|
  {
    RowsConcat(rows, k);
    MulIsTimes(|rows|, k);
    var avg := RowMeans(rows);
    var total := Mean(Concat(rows));
    seq(|rows|, i requires 0 <= i < |rows| => avg[i] < total * 1.5)
  }

  /**
   * `np.where(avg < avg_total * 1.5)[0]`: exactly the points whose mean
   * neighbour distance is below one and a half times the overall mean, in
   * their original order.
   */
  lemma KeptExactly(rows: seq<seq<real>>, k: nat)
    requires |rows| > 0 && Uniform(rows, k)
    ensures |Concat(rows)| > 0
    ensures StrictlyIncreasing(Where(KeepMask(rows, k)))
    ensures forall p: nat :: p in Where(KeepMask(rows, k)) <==>
      p < |rows| && Mean(rows[p]) < Mean(Concat(rows)) * 1.5
  {
    MeanOfRowMeans(rows, k);
    var w := Where(KeepMask(rows, k));
    forall p: nat | p in w ensures p < |rows| && Mean(rows[p]) < Mean(Concat(rows)) * 1.5 {
      var t :| 0 <= t < |w| && w[t] == p;
    }
  }

  /** Some entry is at most the mean. */
  lemma {:induction false} SomeAtMost(s: seq<real>, c: real)
    requires |s| > 0 && SumR(s) <= (|s| as real) * c
    ensures exists i :: 0 <= i < |s| && s[i] <= c
  {
    if s[0] > c {
      assert ((|s| - 1) as real) * c == (|s| as real) * c - c;
      SomeAtMost(s[1..], c);
      var i :| 0 <= i < |s| - 1 && s[1..][i] <= c;
      assert s[i + 1] <= c;
    }
  }

  /** The row means add up to the number of rows times the overall mean. */
  lemma SumOfRowMeans(rows: seq<seq<real>>, k: nat)
    requires |rows| > 0 && Uniform(rows, k)
    ensures |Concat(rows)| > 0
    ensures SumR(RowMeans(rows)) == (|rows| as real) * Mean(Concat(rows))
  {
    MeanOfRowMeans(rows, k);
  }

  /** When the overall mean distance is positive the filter keeps at least one point. */
  lemma SomePointKept(rows: seq<seq<real>>, k: nat)
    requires |rows| > 0 && Uniform(rows, k)
    ensures |Concat(rows)| > 0
    ensures Mean(Concat(rows)) > 0.0 ==> |Where(KeepMask(rows, k))| > 0
  {
    SumOfRowMeans(rows, k);
    var total := Mean(Concat(rows));
    if total > 0.0 {
      var avg := RowMeans(rows);
      SomeAtMost(avg, total);
      var i :| 0 <= i < |avg| && avg[i] <= total;
      KeptExactly(rows, k);
      assert i in Where(KeepMask(rows, k));
    }
  }

  /** A row of zero distances has mean zero. */
  lemma ZeroMean(s: seq<real>)
    requires |s| > 0 && forall t :: 0 <= t < |s| ==> s[t] == 0.0
    ensures Mean(s) == 0.0
  {
    SumAtLeast(s, 0.0);
    SumAtMost(s, 0.0);
  }

  /** When every neighbour distance is zero (all points coincide) the filter keeps nothing. */
  lemma NothingKeptWhenAllZero(rows: seq<seq<real>>, k: nat)
    requires |rows| > 0 && Uniform(rows, k)
    requires forall i, t :: 0 <= i < |rows| && 0 <= t < k ==> rows[i][t] == 0.0
    ensures Where(KeepMask(rows, k)) == []
  {
    var avg := RowMeans(rows);
    forall i | 0 <= i < |rows| ensures avg[i] == 0.0 {
      ZeroMean(rows[i]);
    }
    ZeroMean(avg);
    MeanOfRowMeans(rows, k);
    KeptExactly(rows, k);
    WhereUnique(KeepMask(rows, k), []);
  }

  /** A sum of entries all at most `c` is at most `|s| * c`. */
  lemma {:induction false} SumAtMost(s: seq<real>, c: real)
    requires forall i :: 0 <= i < |s| ==> s[i] <= c
    ensures SumR(s) <= (|s| as real) * c
  {
    if |s| > 0 {
      SumAtMost(s[1..], c);
    }
  }
}

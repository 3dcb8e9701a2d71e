/**
 * `np.array_split(a, k)` along the first axis: `k` contiguous parts whose
 * sizes differ by at most one, the larger ones first.
 */
module ArraySplit {
  import opened Wrappers
  import opened Reshape

  function Sum(s: seq<nat>): nat
  {
    if |s| == 0 then 0 else s[0] + Sum(s[1..])
  }

  /** `divmod(total, k)`: `extras` parts of `total // k + 1` entries, then parts of `total // k`. */
  function PartSizes(total: nat, k: nat): (sizes: seq<nat>)
    requires k > 0
    ensures |sizes| == k
  {
    seq(k, i requires 0 <= i < k => if i < total % k then total / k + 1 else total / k)
  }

  /** Part sizes are `total // k` or one more, never increasing, and add up to `total`. */
  lemma PartSizesSum(total: nat, k: nat)
    requires k > 0
    ensures forall i :: 0 <= i < k ==> total / k <= PartSizes(total, k)[i] <= total / k + 1
    ensures forall i, j :: 0 <= i <= j < k ==> PartSizes(total, k)[i] >= PartSizes(total, k)[j]
    ensures Sum(PartSizes(total, k)) == total
  {
    SumSteps(PartSizes(total, k), total / k, total % k);
    MulIsTimes(k, total / k);
  }

  lemma {:induction false} SumSteps(s: seq<nat>, q: nat, e: nat)
    requires e <= |s|
    requires forall i :: 0 <= i < |s| ==> s[i] == if i < e then q + 1 else q
    ensures Sum(s) == Mul(|s|, q) + e
  {
    if |s| > 0 {
      var e' := if e > 0 then e - 1 else 0;
      SumSteps(s[1..], q, e');
    }
  }

  /** Consecutive parts of the given sizes. */
  function SplitBySizes<T>(s: seq<T>, sizes: seq<nat>): (parts: seq<seq<T>>)
    requires |s| == Sum(sizes)
    ensures |parts| == |sizes|
    ensures forall i :: 0 <= i < |sizes| ==> |parts[i]| == sizes[i]
  {
    if |sizes| == 0 then []
    else [s[..sizes[0]]] + SplitBySizes(s[sizes[0]..], sizes[1..])
  }

  /** Concatenating the parts gives the sequence back. */
  lemma {:induction false} ConcatSplit<T>(s: seq<T>, sizes: seq<nat>)
    requires |s| == Sum(sizes)
    ensures Concat(SplitBySizes(s, sizes)) == s
  {
    if |sizes| > 0 {
      var parts := SplitBySizes(s, sizes);
      assert parts[0] == s[..sizes[0]] && parts[1..] == SplitBySizes(s[sizes[0]..], sizes[1..]);
      ConcatSplit(s[sizes[0]..], sizes[1..]);
      assert s == s[..sizes[0]] + s[sizes[0]..];
    }
  }

  /** Splitting a concatenation at the sizes of its pieces gives the pieces back. */
  lemma {:induction false} SplitConcat<T>(parts: seq<seq<T>>, sizes: seq<nat>)
    requires |parts| == |sizes|
    requires forall i :: 0 <= i < |parts| ==> |parts[i]| == sizes[i]
    ensures |Concat(parts)| == Sum(sizes)
    ensures SplitBySizes(Concat(parts), sizes) == parts
  {
    if |parts| > 0 {
      SplitConcat(parts[1..], sizes[1..]);
      var flat := Concat(parts);
      assert flat == parts[0] + Concat(parts[1..]);
      assert flat[..sizes[0]] == parts[0] && flat[sizes[0]..] == Concat(parts[1..]);
      assert parts == [parts[0]] + parts[1..];
    }
  }

  /** `np.array_split(s, k)`: `None` where numpy raises because `k` is not positive. */
  function Split<T>(s: seq<T>, k: int): (r: Option<seq<seq<T>>>)
    ensures r.Some? <==> k > 0
    ensures r.Some? ==> |r.value| == k
    ensures r.Some? ==> forall i :: 0 <= i < k ==> |r.value[i]| == PartSizes(|s|, k)[i]
  {
    if k <= 0 then None
    else
      PartSizesSum(|s|, k);
      Some(SplitBySizes(s, PartSizes(|s|, k)))
  }

  /** The parts of a split, concatenated in order, are the whole sequence. */
  lemma SplitCovers<T>(s: seq<T>, k: nat)
    requires k > 0
    ensures Concat(Split(s, k).value) == s
  {
    PartSizesSum(|s|, k);
    ConcatSplit(s, PartSizes(|s|, k));
  }

  /**
   * Two sequences of the same length split into the same number of parts are
   * cut at the same places: part `i` of one lines up with part `i` of the other.
   */
  lemma SplitAligned<T, U>(a: seq<T>, b: seq<U>, k: nat)
    requires k > 0 && |a| == |b|
    ensures forall i :: 0 <= i < k ==> |Split(a, k).value[i]| == |Split(b, k).value[i]|
  {
  }

  /** Splitting pieces of the sizes `array_split` would give returns those pieces. */
  lemma SplitOfConcat<T>(parts: seq<seq<T>>, total: nat)
    requires |parts| > 0
    requires forall i :: 0 <= i < |parts| ==> |parts[i]| == PartSizes(total, |parts|)[i]
    ensures |Concat(parts)| == total
    ensures Split(Concat(parts), |parts|) == Some(parts)
  {
    PartSizesSum(total, |parts|);
    SplitConcat(parts, PartSizes(total, |parts|));
  }

  /** `f` applied to every element, in order. */
  function Map<T, U>(s: seq<T>, f: T -> U): (r: seq<U>)
    ensures |r| == |s|
  {
    seq(|s|, i requires 0 <= i < |s| => f(s[i]))
  }

  /** Mapping each part and concatenating the results is mapping the concatenation. */
  lemma {:induction false} ConcatMap<T, U>(parts: seq<seq<T>>, f: T -> U)
    ensures Concat(seq(|parts|, i requires 0 <= i < |parts| => Map(parts[i], f))) == Map(Concat(parts), f)
  {
    var mapped := seq(|parts|, i requires 0 <= i < |parts| => Map(parts[i], f));
    if |parts| > 0 {
      ConcatMap(parts[1..], f);
      assert mapped[1..] == seq(|parts| - 1, i requires 0 <= i < |parts| - 1 => Map(parts[1..][i], f));
      assert Concat(parts) == parts[0] + Concat(parts[1..]);
      assert Map(Concat(parts), f) == Map(parts[0], f) + Map(Concat(parts[1..]), f);
    }
  }
}

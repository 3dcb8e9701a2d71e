/**
 * Boolean masks and index lists: `np.where(mask)[0]` and selection by an
 * ascending index list, as both services use them.
 */
module Masks {

  ghost predicate StrictlyIncreasing(s: seq<nat>)
  {
    forall a, b :: 0 <= a < b < |s| ==> s[a] < s[b]
  }

  /** `np.where(m)[0]`: the positions where `m` holds, in ascending order. */
  function Where(m: seq<bool>): (w: seq<nat>)
    ensures forall t :: 0 <= t < |w| ==> w[t] < |m| && m[w[t]]
    ensures forall p :: 0 <= p < |m| && m[p] ==> p in w
    ensures StrictlyIncreasing(w)
  {
    if |m| == 0 then []
    else
      var w' := Where(m[..|m| - 1]);
      assert forall p :: 0 <= p < |m| - 1 ==> m[..|m| - 1][p] == m[p];
      if m[|m| - 1] then w' + [|m| - 1] else w'
  }

  /** Two ascending index lists with the same members are the same list. */
  lemma {:induction false} IncreasingUnique(a: seq<nat>, b: seq<nat>)
    requires StrictlyIncreasing(a) && StrictlyIncreasing(b)
    requires forall x :: x in a <==> x in b
    ensures a == b
  {
    // A non-empty list has a member, so `b` is empty along with `a`.
    assert |b| > 0 ==> b[0] in b;
    if |a| > 0 {
      assert |b| > 0 by { assert a[0] in b; }
      var la, lb := a[|a| - 1], b[|b| - 1];
      // The last element of an ascending list is its largest member.
      assert lb in b && la in a;
      LastIsLargest(a, lb);
      LastIsLargest(b, la);
      var a', b' := a[..|a| - 1], b[..|b| - 1];
      assert la == lb;
      forall x ensures x in a' <==> x in b' {
        InInit(a, x);
        InInit(b, x);
      }
      SliceIncreasing(a, 0, |a| - 1);
      SliceIncreasing(b, 0, |b| - 1);
      IncreasingUnique(a', b');
      assert a == a' + [la] && b == b' + [lb];
    }
  }

  /** Dropping the last element of an ascending list removes exactly that member. */
  lemma InInit(s: seq<nat>, x: nat)
    requires StrictlyIncreasing(s) && |s| > 0
    ensures x in s[..|s| - 1] <==> x in s && x != s[|s| - 1]
  {
    if x in s[..|s| - 1] {
      var k :| 0 <= k < |s| - 1 && s[..|s| - 1][k] == x;
      assert s[k] == x;
    }
    if x in s && x != s[|s| - 1] {
      var k :| 0 <= k < |s| && s[k] == x;
      assert s[..|s| - 1][k] == x;
    }
  }

  /** No member of an ascending list exceeds its last element. */
  lemma LastIsLargest(s: seq<nat>, x: nat)
    requires StrictlyIncreasing(s) && x in s
    ensures x <= s[|s| - 1]
  {
    var k :| 0 <= k < |s| && s[k] == x;
    assert k == |s| - 1 || s[k] < s[|s| - 1];
  }

  /** `np.where` is the only ascending list of exactly the masked positions. */
  lemma WhereUnique(m: seq<bool>, s: seq<nat>)
    requires StrictlyIncreasing(s)
    requires forall x: nat :: x in s <==> x < |m| && m[x]
    ensures Where(m) == s
  {
    var w := Where(m);
    forall x ensures x in w <==> x in s {
      if x in w {
        var t :| 0 <= t < |w| && w[t] == x;
      }
    }
    IncreasingUnique(w, s);
  }

  /** The mask that marks exactly the members of a list of positions: `mask[idx] = True`. */
  function MaskOf(n: nat, idx: seq<nat>): (m: seq<bool>)
    ensures |m| == n
    ensures forall p :: 0 <= p < n ==> (m[p] <==> p in idx)
  {
    seq(n, p => p in idx)
  }

  /** Selecting with the mask of an ascending list yields that list back. */
  lemma WhereMaskOf(n: nat, idx: seq<nat>)
    requires StrictlyIncreasing(idx)
    requires forall t :: 0 <= t < |idx| ==> idx[t] < n
    ensures Where(MaskOf(n, idx)) == idx
  {
    var m := MaskOf(n, idx);
    forall x: nat ensures x in idx <==> x < |m| && m[x] {
      if x in idx {
        var t :| 0 <= t < |idx| && idx[t] == x;
      }
    }
    WhereUnique(m, idx);
  }

  /** A slice of an ascending list is ascending. */
  lemma SliceIncreasing(s: seq<nat>, lo: nat, hi: nat)
    requires StrictlyIncreasing(s) && lo <= hi <= |s|
    ensures StrictlyIncreasing(s[lo..hi])
  {
  }

  /** `xs[idx]`: the elements at the listed positions, in list order. */
  function Gather<T>(xs: seq<T>, idx: seq<nat>): (r: seq<T>)
    requires forall t :: 0 <= t < |idx| ==> idx[t] < |xs|
    ensures |r| == |idx|
    ensures forall t :: 0 <= t < |idx| ==> r[t] == xs[idx[t]]
  {
    seq(|idx|, t requires 0 <= t < |idx| => xs[idx[t]])
  }
}

/** The array operations the pages and generators are built from: `filter`, `find`, `slice`. */
module Seqs {
  import opened Wrappers

  /** `a` can be obtained from `b` by deleting elements: order is preserved. */
  predicate IsSubseq<T(==)>(a: seq<T>, b: seq<T>)
    decreases |b|
  {
    if |a| == 0 then true
    else if |b| == 0 then false
    else if a[0] == b[0] then IsSubseq(a[1..], b[1..])
    else IsSubseq(a, b[1..])
  }

  /** `s.filter(p)` */
  function Filter<T(==)>(s: seq<T>, p: T -> bool): (r: seq<T>)
    ensures |r| <= |s|
    ensures forall i | 0 <= i < |r| :: r[i] in s && p(r[i])
    ensures forall i | 0 <= i < |s| :: p(s[i]) ==> s[i] in r
  {
    if |s| == 0 then [] else (if p(s[0]) then [s[0]] else []) + Filter(s[1..], p)
  }

  lemma {:induction false} FilterIsSubseq<T>(s: seq<T>, p: T -> bool)
    ensures IsSubseq(Filter(s, p), s)
  {
    if |s| > 0 {
      FilterIsSubseq(s[1..], p);
      var r := Filter(s, p);
      if p(s[0]) {
        assert r[0] == s[0] && r[1..] == Filter(s[1..], p);
      } else {
        assert r == Filter(s[1..], p);
        SubseqOfTail(r, s);
      }
    }
  }

  lemma {:induction false} SubseqOfTail<T>(a: seq<T>, b: seq<T>)
    requires |b| > 0 && IsSubseq(a, b[1..])
    ensures IsSubseq(a, b)
    decreases |b|, 0
  {
    if |a| > 0 && a[0] == b[0] {
      SubseqDropHead(a, b[1..]);
    }
  }

  lemma {:induction false} SubseqDropHead<T>(a: seq<T>, c: seq<T>)
    requires |a| > 0 && IsSubseq(a, c)
    ensures IsSubseq(a[1..], c)
    decreases |c|, 1
  {
    if a[0] == c[0] {
      SubseqOfTail(a[1..], c);
    } else {
      SubseqDropHead(a, c[1..]);
      SubseqOfTail(a[1..], c);
    }
  }

  /** A predicate that holds of every element filters nothing out. */
  lemma {:induction false} FilterAllPass<T>(s: seq<T>, p: T -> bool)
    requires forall i | 0 <= i < |s| :: p(s[i])
    ensures Filter(s, p) == s
  {
    if |s| > 0 {
      FilterAllPass(s[1..], p);
    }
  }

  lemma {:induction false} FilterIdempotent<T>(s: seq<T>, p: T -> bool)
    ensures Filter(Filter(s, p), p) == Filter(s, p)
  {
    FilterAllPass(Filter(s, p), p);
  }

  /** Filtering a concatenation filters each part. */
  lemma {:induction false} FilterAppend<T>(s: seq<T>, t: seq<T>, p: T -> bool)
    ensures Filter(s + t, p) == Filter(s, p) + Filter(t, p)
  {
    if |s| > 0 {
      assert (s + t)[1..] == s[1..] + t;
      FilterAppend(s[1..], t, p);
    } else {
      assert s + t == t;
    }
  }

  /** When no element passes, nothing is kept. */
  lemma {:induction false} FilterNonePass<T>(s: seq<T>, p: T -> bool)
    requires forall i | 0 <= i < |s| :: !p(s[i])
    ensures Filter(s, p) == []
  {
    if |s| > 0 {
      FilterNonePass(s[1..], p);
    }
  }

  /** When exactly one element passes, the filter keeps just that one. */
  lemma {:induction false} FilterSingle<T>(s: seq<T>, p: T -> bool, k: nat)
    requires k < |s| && p(s[k])
    requires forall i | 0 <= i < |s| && i != k :: !p(s[i])
    ensures Filter(s, p) == [s[k]]
  {
    if k == 0 {
      FilterNonePass(s[1..], p);
    } else {
      FilterSingle(s[1..], p, k - 1);
    }
  }

  /** Filtering depends only on the predicate's verdicts on the list's own elements. */
  lemma {:induction false} FilterExt<T>(s: seq<T>, p: T -> bool, q: T -> bool)
    requires forall i | 0 <= i < |s| :: p(s[i]) == q(s[i])
    ensures Filter(s, p) == Filter(s, q)
  {
    if |s| > 0 {
      FilterExt(s[1..], p, q);
    }
  }

  /** The number of elements the predicate accepts: `s.filter(p).length`. */
  function Count<T(==)>(s: seq<T>, p: T -> bool): nat {
    |Filter(s, p)|
  }

  /**
   * When every element of `t` passes `q` exactly if its counterpart in `s` passes `q` and is
   * not dropped by `d`, then `t` has as many passing elements as `s` less the dropped ones
   * (those passing `qd`, which is `q` and `d` together).
   */
  lemma {:induction false} CountPointwise<T>(s: seq<T>, t: seq<T>, q: T -> bool, d: T -> bool, qd: T -> bool)
    requires |s| == |t|
    requires forall i | 0 <= i < |s| :: q(t[i]) == (q(s[i]) && !d(s[i]))
    requires forall i | 0 <= i < |s| :: qd(s[i]) == (q(s[i]) && d(s[i]))
    ensures Count(t, q) + Count(s, qd) == Count(s, q)
  {
    if |s| > 0 {
      CountPointwise(s[1..], t[1..], q, d, qd);
    }
  }

  /** Lists whose elements agree pointwise on `q` have equally many elements passing it. */
  lemma {:induction false} CountUnchanged<T>(s: seq<T>, t: seq<T>, q: T -> bool)
    requires |s| == |t|
    requires forall i | 0 <= i < |s| :: q(t[i]) == q(s[i])
    ensures Count(t, q) == Count(s, q)
  {
    if |s| > 0 {
      CountUnchanged(s[1..], t[1..], q);
    }
  }

  /** Index of the first element satisfying `p` (`findIndex`, with `None` for -1). */
  function FindIndex<T>(s: seq<T>, p: T -> bool): (r: Option<nat>)
    ensures r.Some? ==> r.value < |s| && p(s[r.value])
    ensures r.Some? ==> forall j | 0 <= j < r.value :: !p(s[j])
    ensures r.None? ==> forall j | 0 <= j < |s| :: !p(s[j])
  {
    if |s| == 0 then None
    else if p(s[0]) then Some(0)
    else match FindIndex(s[1..], p)
      case None => None
      case Some(k) => Some(k + 1)
  }

  /** `s.find(p)`, with `None` for `undefined`. */
  function Find<T>(s: seq<T>, p: T -> bool): (r: Option<T>)
    ensures r.Some? ==> exists k :: 0 <= k < |s| && s[k] == r.value && p(s[k])
    ensures r.None? <==> forall j | 0 <= j < |s| :: !p(s[j])
  {
    match FindIndex(s, p)
    case None => None
    case Some(k) => Some(s[k])
  }

  /** `s.slice(0, n)` for `n >= 0`. */
  function Take<T>(s: seq<T>, n: nat): (r: seq<T>)
    ensures |r| <= n && |r| <= |s|
    ensures r <= s
  {
    if n <= |s| then s[..n] else s
  }

  lemma TakeOfSubseq<T>(a: seq<T>, b: seq<T>, n: nat)
    requires IsSubseq(a, b)
    ensures IsSubseq(Take(a, n), b)
  {
    PrefixSubseq(Take(a, n), a, b);
  }

  lemma {:induction false} PrefixSubseq<T>(p: seq<T>, a: seq<T>, b: seq<T>)
    requires p <= a && IsSubseq(a, b)
    ensures IsSubseq(p, b)
    decreases |b|
  {
    if |p| > 0 {
      if a[0] == b[0] {
        assert p[1..] <= a[1..];
        PrefixSubseq(p[1..], a[1..], b[1..]);
      } else {
        PrefixSubseq(p, a, b[1..]);
      }
    }
  }

  /** `s.map(x => p(x) ? f(x) : x)`: the replace-by-id shape of every record action. */
  function MapWhere<T>(s: seq<T>, p: T -> bool, f: T -> T): (r: seq<T>)
    ensures |r| == |s|
    ensures forall i | 0 <= i < |s| :: r[i] == if p(s[i]) then f(s[i]) else s[i]
  {
    seq(|s|, i requires 0 <= i < |s| => if p(s[i]) then f(s[i]) else s[i])
  }
}

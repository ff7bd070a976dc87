/**
 * The few array primitives the services are built from, stated once:
 * `Array.prototype.filter`, `findIndex`/`find`, and the first-occurrence order of
 * `Array.from(new Set(xs))`.
 */
module Seqs {
  import opened Wrappers

  /** `xs` is obtained from `ys` by deleting elements, keeping the order of the rest. */
  ghost predicate IsSubsequence<T>(xs: seq<T>, ys: seq<T>)
    decreases |ys|
  {
    || xs == []
    || (&& ys != []
        && ((xs[0] == ys[0] && IsSubsequence(xs[1..], ys[1..])) || IsSubsequence(xs, ys[1..])))
  }

  lemma {:induction false} SubsequenceTransitive<T>(xs: seq<T>, ys: seq<T>, zs: seq<T>)
    requires IsSubsequence(xs, ys) && IsSubsequence(ys, zs)
    ensures IsSubsequence(xs, zs)
    decreases |zs|
  {
    if xs != [] {
      if ys[0] == zs[0] && IsSubsequence(ys[1..], zs[1..]) {
        if xs[0] == ys[0] && IsSubsequence(xs[1..], ys[1..]) {
          SubsequenceTransitive(xs[1..], ys[1..], zs[1..]);
        } else {
          SubsequenceTransitive(xs, ys[1..], zs[1..]);
        }
      } else {
        SubsequenceTransitive(xs, ys, zs[1..]);
      }
    }
  }

  /** Putting elements in front of the larger sequence keeps a subsequence a subsequence. */
  lemma {:induction false} SubsequenceOfLonger<T>(xs: seq<T>, pre: seq<T>, ys: seq<T>)
    requires IsSubsequence(xs, ys)
    ensures IsSubsequence(xs, pre + ys)
    decreases |pre|
  {
    if pre == [] {
      assert pre + ys == ys;
    } else if xs != [] {
      SubsequenceOfLonger(xs, pre[1..], ys);
      assert (pre + ys)[1..] == pre[1..] + ys;
    }
  }

  /** Every element of a subsequence is an element of the larger sequence. */
  lemma {:induction false} SubsequenceMember<T>(xs: seq<T>, ys: seq<T>, k: nat)
    requires IsSubsequence(xs, ys) && k < |xs|
    ensures xs[k] in ys
    decreases |ys|
  {
    if xs[0] == ys[0] && IsSubsequence(xs[1..], ys[1..]) {
      if k > 0 {
        SubsequenceMember(xs[1..], ys[1..], k - 1);
        assert xs[k] == xs[1..][k - 1];
      }
    } else {
      SubsequenceMember(xs, ys[1..], k);
    }
  }

  /** Subsequences concatenate. */
  lemma {:induction false} SubsequenceAppend<T>(a: seq<T>, b: seq<T>, c: seq<T>, d: seq<T>)
    requires IsSubsequence(a, b) && IsSubsequence(c, d)
    ensures IsSubsequence(a + c, b + d)
    decreases |b|
  {
    if a == [] {
      assert a + c == c;
      SubsequenceOfLonger(c, b, d);
    } else {
      assert (a + c)[0] == a[0] && (b + d)[0] == b[0];
      assert (b + d)[1..] == b[1..] + d;
      if a[0] == b[0] && IsSubsequence(a[1..], b[1..]) {
        SubsequenceAppend(a[1..], b[1..], c, d);
        assert (a + c)[1..] == a[1..] + c;
      } else {
        SubsequenceAppend(a, b[1..], c, d);
      }
    }
  }

  /**
   * `s.filter(p)`: the elements satisfying `p`, each with its full multiplicity,
   * in their original order; nothing else.
   */
  function Filter<T(!new)>(s: seq<T>, p: T -> bool): (r: seq<T>)
    ensures IsSubsequence(r, s)
    ensures forall i :: 0 <= i < |r| ==> p(r[i])
    ensures forall x :: multiset(r)[x] == if p(x) then multiset(s)[x] else 0
  {
    if s == [] then []
    else
      var rest := Filter(s[1..], p);
      assert multiset(s) == multiset{s[0]} + multiset(s[1..]) by {
        assert s == [s[0]] + s[1..];
      }
      if p(s[0]) then
        assert ([s[0]] + rest)[1..] == rest;
        [s[0]] + rest
      else
        rest
  }

  /** A filter that rejects nothing returns its input unchanged. */
  lemma {:induction false} FilterKeepsAll<T(!new)>(s: seq<T>, p: T -> bool)
    requires forall i :: 0 <= i < |s| ==> p(s[i])
    ensures Filter(s, p) == s
  {
    if s != [] {
      assert forall i :: 0 <= i < |s[1..]| ==> p(s[1..][i]) by {
        forall i | 0 <= i < |s[1..]| ensures p(s[1..][i]) {
          assert s[1..][i] == s[i + 1];
        }
      }
      FilterKeepsAll(s[1..], p);
    }
  }

  /** `s.findIndex(p)`: the position of the FIRST element satisfying `p`, if any. */
  function FirstIndex<T>(s: seq<T>, p: T -> bool): (r: Option<nat>)
    ensures r.Some? ==> r.value < |s| && p(s[r.value])
    ensures r.Some? ==> forall j :: 0 <= j < r.value ==> !p(s[j])
    ensures r.None? <==> forall j :: 0 <= j < |s| ==> !p(s[j])
  {
    if s == [] then None
    else if p(s[0]) then Some(0)
    else
      match FirstIndex(s[1..], p)
      case None => None
      case Some(i) => Some(i + 1)
  }

  ghost predicate NoDuplicates<T>(s: seq<T>) {
    forall i, j :: 0 <= i < j < |s| ==> s[i] != s[j]
  }

  /** `x` first appears in `s` before `y` does: every occurrence of `y` has an `x` ahead of it. */
  ghost predicate SeenBefore<T>(s: seq<T>, x: T, y: T) {
    forall k :: 0 <= k < |s| && s[k] == y ==> x in s[..k]
  }

  /** Appending an element keeps an order that earlier elements already had. */
  lemma SeenBeforeAppend<T>(s: seq<T>, e: T, x: T, y: T)
    requires SeenBefore(s, x, y) && x in s
    ensures SeenBefore(s + [e], x, y)
  {
    forall k | 0 <= k < |s + [e]| && (s + [e])[k] == y ensures x in (s + [e])[..k] {
      if k < |s| {
        assert (s + [e])[..k] == s[..k];
      } else {
        assert (s + [e])[..k] == s;
      }
    }
  }

  /** A new value appended at the end comes after everything already there. */
  lemma SeenBeforeNew<T>(s: seq<T>, e: T, x: T)
    requires x in s && e !in s
    ensures SeenBefore(s + [e], x, e)
  {
    forall k | 0 <= k < |s + [e]| && (s + [e])[k] == e ensures x in (s + [e])[..k] {
      if k == |s| {
        assert (s + [e])[..k] == s;
      }
    }
  }

  /**
   * `Array.from(new Set(s))`: every value of `s` exactly once, in the order in
   * which it first appears.
   */
  function Distinct<T(==,!new)>(s: seq<T>): (r: seq<T>)
    ensures NoDuplicates(r)
    ensures forall x :: x in r <==> x in s
    ensures IsSubsequence(r, s)
    ensures forall i, j :: 0 <= i < j < |r| ==> SeenBefore(s, r[i], r[j])
  {
    if s == [] then []
    else
      var n := |s| - 1;
      var pre, e := s[..n], s[n];
      assert s == pre + [e];
      var init := Distinct(pre);
      assert forall i, j :: 0 <= i < j < |init| ==> SeenBefore(s, init[i], init[j]) by {
        forall i, j | 0 <= i < j < |init| ensures SeenBefore(s, init[i], init[j]) {
          SeenBeforeAppend(pre, e, init[i], init[j]);
        }
      }
      if e in init then
        SubsequenceAppend(init, pre, [], [e]);
        assert init + [] == init;
        init
      else
        SubsequenceAppend(init, pre, [e], [e]);
        var r := init + [e];
        assert forall i :: 0 <= i < |init| ==> SeenBefore(s, init[i], e) by {
          forall i | 0 <= i < |init| ensures SeenBefore(s, init[i], e) {
            SeenBeforeNew(pre, e, init[i]);
          }
        }
        assert forall i :: 0 <= i < |init| ==> r[i] == init[i];
        r
  }
}

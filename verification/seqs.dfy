/**
 Sequence utilities the ledger is built from: the order-preserving filter that
 JavaScript's `Array.prototype.filter` performs, and what it means for one
 sequence to be a subsequence of another.
 */
module Seqs {

  /** The elements of `s` that satisfy `p`, in their original order. */
  function Filter<T(!new)>(p: T -> bool, s: seq<T>): (r: seq<T>)
    ensures |r| <= |s|
    ensures forall x :: x in r <==> x in s && p(x)
    ensures forall x :: multiset(r)[x] == if p(x) then multiset(s)[x] else 0
  {
    if |s| == 0 then []
    else
      assert s == [s[0]] + s[1..];
      if p(s[0]) then [s[0]] + Filter(p, s[1..]) else Filter(p, s[1..])
  }

  /** `idx` lists, in strictly increasing order, positions of `b` that spell out `a`. */
  ghost predicate Embeds<T(!new)>(a: seq<T>, b: seq<T>, idx: seq<nat>) {
    && |idx| == |a|
    && (forall k :: 0 <= k < |idx| ==> idx[k] < |b| && a[k] == b[idx[k]])
    && (forall j, k :: 0 <= j < k < |idx| ==> idx[j] < idx[k])
  }

  /** `a` is obtained from `b` by dropping elements without reordering the rest. */
  ghost predicate IsSubsequence<T(!new)>(a: seq<T>, b: seq<T>) {
    exists idx :: Embeds(a, b, idx)
  }

  /** Putting the same element in front of both sides keeps a subsequence one. */
  lemma SubsequenceCons<T(!new)>(x: T, a: seq<T>, b: seq<T>)
    requires IsSubsequence(a, b)
    ensures IsSubsequence([x] + a, [x] + b)
  {
    var idx :| Embeds(a, b, idx);
    var shifted: seq<nat> := [0] + seq(|idx|, k requires 0 <= k < |idx| => idx[k] + 1);
    assert Embeds([x] + a, [x] + b, shifted);
  }

  /** An extra element in front of the longer side keeps a subsequence one. */
  lemma SubsequenceSkip<T(!new)>(x: T, a: seq<T>, b: seq<T>)
    requires IsSubsequence(a, b)
    ensures IsSubsequence(a, [x] + b)
  {
    var idx :| Embeds(a, b, idx);
    var shifted: seq<nat> := seq(|idx|, k requires 0 <= k < |idx| => idx[k] + 1);
    assert Embeds(a, [x] + b, shifted);
  }

  /** Filtering keeps the survivors in their original order. */
  lemma {:induction false} FilterIsSubsequence<T(!new)>(p: T -> bool, s: seq<T>)
    ensures IsSubsequence(Filter(p, s), s)
  {
    if |s| == 0 {
      assert Embeds(Filter(p, s), s, []);
    } else {
      FilterIsSubsequence(p, s[1..]);
      assert s == [s[0]] + s[1..];
      if p(s[0]) {
        SubsequenceCons(s[0], Filter(p, s[1..]), s[1..]);
      } else {
        SubsequenceSkip(s[0], Filter(p, s[1..]), s[1..]);
      }
    }
  }

  /** Every sequence is a subsequence of itself. */
  lemma SubsequenceReflexive<T(!new)>(s: seq<T>)
    ensures IsSubsequence(s, s)
  {
    var idx: seq<nat> := seq(|s|, k requires 0 <= k < |s| => k);
    assert Embeds(s, s, idx);
  }

  /** A filter whose predicate every element already satisfies changes nothing. */
  lemma {:induction false} FilterKeepsAll<T(!new)>(p: T -> bool, s: seq<T>)
    ensures (forall x :: x in s ==> p(x)) ==> Filter(p, s) == s
  {
    if |s| > 0 && forall x :: x in s ==> p(x) {
      FilterKeepsAll(p, s[1..]);
    }
  }

  /** Two filters may be applied in either order. */
  lemma {:induction false} FilterCommutes<T(!new)>(p: T -> bool, q: T -> bool, s: seq<T>)
    ensures Filter(p, Filter(q, s)) == Filter(q, Filter(p, s))
  {
    if |s| > 0 {
      FilterCommutes(p, q, s[1..]);
      var t := s[1..];
      if p(s[0]) && q(s[0]) {
        assert Filter(q, s) == [s[0]] + Filter(q, t);
        assert Filter(p, [s[0]] + Filter(q, t)) == [s[0]] + Filter(p, Filter(q, t)) by {
          assert ([s[0]] + Filter(q, t))[1..] == Filter(q, t);
        }
        assert Filter(q, [s[0]] + Filter(p, t)) == [s[0]] + Filter(q, Filter(p, t)) by {
          assert ([s[0]] + Filter(p, t))[1..] == Filter(p, t);
        }
      } else if q(s[0]) {
        assert Filter(p, [s[0]] + Filter(q, t)) == Filter(p, Filter(q, t)) by {
          assert ([s[0]] + Filter(q, t))[1..] == Filter(q, t);
        }
      } else if p(s[0]) {
        assert Filter(q, [s[0]] + Filter(p, t)) == Filter(q, Filter(p, t)) by {
          assert ([s[0]] + Filter(p, t))[1..] == Filter(p, t);
        }
      }
    }
  }
}

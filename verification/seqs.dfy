/** Order-preserving filtering of sequences, the model of `Array.prototype.filter`. */
module Seqs {

  /** `a` can be obtained from `b` by deleting elements, keeping the order of the rest. */
  ghost predicate IsSubseq<T>(a: seq<T>, b: seq<T>)
    decreases |b|
  {
    || |a| == 0
    || (&& |b| > 0
        && ((a[0] == b[0] && IsSubseq(a[1..], b[1..])) || IsSubseq(a, b[1..])))
  }

  /** The elements of `s` that satisfy `p`, in their original order. */
  function Keep<T(!new)>(p: T -> bool, s: seq<T>): (r: seq<T>)
    ensures |r| <= |s|
    ensures IsSubseq(r, s)
    ensures forall i :: 0 <= i < |r| ==> p(r[i])
    ensures forall i :: 0 <= i < |s| && p(s[i]) ==> s[i] in r
    decreases |s|
  {
    if |s| == 0 then []
    else
      var rest := Keep(p, s[1..]);
      assert forall i :: 0 < i < |s| ==> s[i] == s[1..][i - 1];
      if p(s[0]) then
        assert ([s[0]] + rest)[1..] == rest;
        [s[0]] + rest
      else
        rest
  }

  /** Filtering keeps every passing element as often as it occurs and no failing one. */
  lemma {:induction false} KeepMultiset<T(!new)>(p: T -> bool, s: seq<T>)
    ensures forall x :: multiset(Keep(p, s))[x] == if p(x) then multiset(s)[x] else 0
    decreases |s|
  {
    if |s| > 0 {
      assert s == [s[0]] + s[1..];
      KeepMultiset(p, s[1..]);
    }
  }

  /** A subsequence never holds more copies of an element than the sequence it came from. */
  lemma {:induction false} SubseqMultiset<T>(a: seq<T>, b: seq<T>)
    requires IsSubseq(a, b)
    ensures multiset(a) <= multiset(b)
    decreases |b|
  {
    if |a| == 0 {
    } else {
      assert b == [b[0]] + b[1..];
      if a[0] == b[0] && IsSubseq(a[1..], b[1..]) {
        assert a == [a[0]] + a[1..];
        SubseqMultiset(a[1..], b[1..]);
      } else {
        SubseqMultiset(a, b[1..]);
      }
    }
  }

  /** Keep is the only order-preserving subsequence that keeps exactly the elements
      satisfying `p`, each as often as it occurs. */
  lemma {:induction false} KeepUnique<T(!new)>(p: T -> bool, s: seq<T>, r: seq<T>)
    requires IsSubseq(r, s)
    requires forall x :: multiset(r)[x] == if p(x) then multiset(s)[x] else 0
    ensures r == Keep(p, s)
    decreases |s|
  {
    if |s| == 0 {
      assert |r| == 0;
    } else {
      var x := s[0];
      assert s == [x] + s[1..];
      if |r| == 0 {
        assert multiset(s)[x] > 0 && multiset(r)[x] == 0;
        assert !p(x);
        assert forall y :: multiset(r)[y] == if p(y) then multiset(s[1..])[y] else 0 by {
          forall y ensures multiset(r)[y] == if p(y) then multiset(s[1..])[y] else 0 {
            assert multiset(s[1..])[y] <= multiset(s)[y];
          }
        }
        KeepUnique(p, s[1..], r);
      } else if r[0] == x && IsSubseq(r[1..], s[1..]) {
        assert r == [x] + r[1..];
        assert multiset(r)[x] > 0;
        assert p(x);
        KeepUnique(p, s[1..], r[1..]);
      } else {
        assert IsSubseq(r, s[1..]);
        SubseqMultiset(r, s[1..]);
        assert multiset(r)[x] <= multiset(s[1..])[x] < multiset(s)[x];
        assert !p(x);
        KeepUnique(p, s[1..], r);
      }
    }
  }

  /** Filtering by `q` then by `p` is filtering by their conjunction. */
  lemma {:induction false} KeepKeep<T(!new)>(p: T -> bool, q: T -> bool, pq: T -> bool, s: seq<T>)
    requires forall x :: pq(x) == (q(x) && p(x))
    ensures Keep(p, Keep(q, s)) == Keep(pq, s)
    decreases |s|
  {
    if |s| > 0 {
      KeepKeep(p, q, pq, s[1..]);
    }
  }

  /** Filtering leaves the length alone exactly when every element passes, and then
      it leaves the whole sequence alone. */
  lemma {:induction false} KeepAll<T(!new)>(p: T -> bool, s: seq<T>)
    ensures |Keep(p, s)| == |s| <==> forall i :: 0 <= i < |s| ==> p(s[i])
    ensures (forall i :: 0 <= i < |s| ==> p(s[i])) ==> Keep(p, s) == s
    decreases |s|
  {
    if |s| > 0 {
      var rest := s[1..];
      KeepAll(p, rest);
      assert forall i :: 0 <= i < |rest| ==> rest[i] == s[i + 1];
      if p(s[0]) {
        assert Keep(p, s) == [s[0]] + Keep(p, rest);
        assert (forall i :: 0 <= i < |s| ==> p(s[i])) <==> (forall i :: 0 <= i < |rest| ==> p(rest[i]));
      } else {
        assert Keep(p, s) == Keep(p, rest);
        assert |Keep(p, s)| < |s|;
      }
    }
  }

  /** Filters that agree on every element give the same result. */
  lemma {:induction false} KeepExt<T(!new)>(p: T -> bool, q: T -> bool, s: seq<T>)
    requires forall x :: p(x) == q(x)
    ensures Keep(p, s) == Keep(q, s)
    decreases |s|
  {
    if |s| > 0 {
      KeepExt(p, q, s[1..]);
    }
  }
}

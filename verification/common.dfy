/** Shared vocabulary: optional values, results, sequence filters and
    prefix/suffix tests on strings. */
module Common {

  datatype Option<+T> = None | Some(value: T) {
    function GetOr(default: T): T {
      match this
      case Some(v) => v
      case None => default
    }
  }

  /** A failure-compatible result, so that decoders can use `:-`. */
  datatype Result<+R, +E> = Success(value: R) | Failure(error: E) {
    predicate IsFailure() {
      Failure?
    }

    function PropagateFailure<U>(): Result<U, E>
      requires Failure?
    {
      Failure(error)
    }

    function Extract(): R
      requires Success?
    {
      value
    }
  }

  /** An octet. */
  newtype Byte = x: int | 0 <= x < 256

  predicate HasPrefix<T(==)>(s: seq<T>, p: seq<T>) {
    |p| <= |s| && s[..|p|] == p
  }

  predicate HasSuffix<T(==)>(s: seq<T>, p: seq<T>) {
    |p| <= |s| && s[|s| - |p|..] == p
  }

  /** The elements of `s` satisfying `keep`, in their original order. */
  function Filter<T>(s: seq<T>, keep: T -> bool): (r: seq<T>)
    ensures |r| <= |s|
  {
    if s == [] then []
    else (if keep(s[0]) then [s[0]] else []) + Filter(s[1..], keep)
  }

  /** The elements of `s` mapped through `f` whose image is present
      (Swift's `compactMap`), in order. */
  function CompactMap<T, U>(s: seq<T>, f: T -> Option<U>): (r: seq<U>)
    ensures |r| <= |s|
  {
    if s == [] then []
    else (if f(s[0]).Some? then [f(s[0]).value] else []) + CompactMap(s[1..], f)
  }

  /** How many elements of `s` have an image under `f`. */
  function CountSome<T, U>(s: seq<T>, f: T -> Option<U>): nat {
    if s == [] then 0 else (if f(s[0]).Some? then 1 else 0) + CountSome(s[1..], f)
  }

  /** `compactMap` keeps exactly the images that exist: a value is in the
      result iff some element of the input maps to it. */
  lemma {:induction false} CompactMapMembership<T, U>(s: seq<T>, f: T -> Option<U>)
    ensures forall y :: y in CompactMap(s, f) <==> exists i :: 0 <= i < |s| && f(s[i]) == Some(y)
  {
    if s != [] {
      CompactMapMembership(s[1..], f);
      forall y ensures y in CompactMap(s, f) <==> exists i :: 0 <= i < |s| && f(s[i]) == Some(y) {
        if exists i :: 0 <= i < |s| && f(s[i]) == Some(y) {
          var i :| 0 <= i < |s| && f(s[i]) == Some(y);
          if i > 0 {
            assert s[1..][i - 1] == s[i];
          }
        }
        if y in CompactMap(s[1..], f) {
          var i :| 0 <= i < |s[1..]| && f(s[1..][i]) == Some(y);
          assert s[i + 1] == s[1..][i];
        }
      }
    }
  }

  /** `compactMap` keeps input order: the image of the element at `i` sits
      at its rank among the elements that have an image, and nothing else is
      in the result. */
  lemma {:induction false} CompactMapRank<T, U>(s: seq<T>, f: T -> Option<U>)
    ensures |CompactMap(s, f)| == CountSome(s, f)
    ensures forall i :: 0 <= i < |s| && f(s[i]).Some? ==>
      CountSome(s[..i], f) < |CompactMap(s, f)| && CompactMap(s, f)[CountSome(s[..i], f)] == f(s[i]).value
  {
    if s != [] {
      CompactMapRank(s[1..], f);
      var head := if f(s[0]).Some? then [f(s[0]).value] else [];
      assert CompactMap(s, f) == head + CompactMap(s[1..], f);
      forall i | 0 <= i < |s| && f(s[i]).Some?
        ensures CountSome(s[..i], f) < |CompactMap(s, f)| && CompactMap(s, f)[CountSome(s[..i], f)] == f(s[i]).value
      {
        if i > 0 {
          assert s[..i][0] == s[0] && s[..i][1..] == s[1..][..i - 1];
          assert s[1..][i - 1] == s[i];
          assert CountSome(s[..i], f) == |head| + CountSome(s[1..][..i - 1], f);
        }
      }
    }
  }

  /** `a` can be obtained from `b` by deleting elements. */
  predicate IsSubsequence<T(==)>(a: seq<T>, b: seq<T>)
    decreases |b|
  {
    if a == [] then true
    else if b == [] then false
    else if a[0] == b[0] then IsSubsequence(a[1..], b[1..])
    else IsSubsequence(a, b[1..])
  }

  lemma {:induction false} FilterMembership<T>(s: seq<T>, keep: T -> bool, x: T)
    ensures x in Filter(s, keep) <==> x in s && keep(x)
  {
    if s != [] {
      FilterMembership(s[1..], keep, x);
      assert s == [s[0]] + s[1..];
    }
  }

  lemma {:induction false} FilterIsSubsequence<T>(s: seq<T>, keep: T -> bool)
    ensures IsSubsequence(Filter(s, keep), s)
  {
    if s != [] {
      FilterIsSubsequence(s[1..], keep);
      var rest := Filter(s[1..], keep);
      if keep(s[0]) {
        assert Filter(s, keep) == [s[0]] + rest;
        assert ([s[0]] + rest)[1..] == rest;
      } else {
        assert Filter(s, keep) == rest;
        SubsequenceDropHead(rest, s);
      }
    }
  }

  /** Dropping the head of the longer sequence keeps a subsequence. */
  lemma {:induction false} SubsequenceDropHead<T>(a: seq<T>, b: seq<T>)
    requires |b| > 0 && IsSubsequence(a, b[1..])
    ensures IsSubsequence(a, b)
    decreases |b|, 0
  {
    if a != [] && a[0] == b[0] {
      SubsequenceTail(a, b[1..]);
    }
  }

  /** Dropping the head of the shorter sequence keeps a subsequence. */
  lemma {:induction false} SubsequenceTail<T>(a: seq<T>, c: seq<T>)
    requires a != [] && IsSubsequence(a, c)
    ensures IsSubsequence(a[1..], c)
    decreases |c|, 1
  {
    if a[0] == c[0] {
      SubsequenceDropHead(a[1..], c);
    } else {
      SubsequenceTail(a, c[1..]);
      SubsequenceDropHead(a[1..], c);
    }
  }

  lemma {:induction false} FilterAppend<T>(a: seq<T>, b: seq<T>, keep: T -> bool)
    ensures Filter(a + b, keep) == Filter(a, keep) + Filter(b, keep)
  {
    if a == [] {
      assert a + b == b;
    } else {
      var head := if keep(a[0]) then [a[0]] else [];
      assert (a + b)[0] == a[0];
      assert (a + b)[1..] == a[1..] + b;
      assert Filter(a + b, keep) == head + Filter(a[1..] + b, keep);
      FilterAppend(a[1..], b, keep);
      assert Filter(a, keep) == head + Filter(a[1..], keep);
    }
  }

  lemma {:induction false} FilterAllKept<T>(s: seq<T>, keep: T -> bool)
    requires forall i :: 0 <= i < |s| ==> keep(s[i])
    ensures Filter(s, keep) == s
  {
    if s != [] {
      FilterAllKept(s[1..], keep);
    }
  }

  lemma {:induction false} FilterNoneKept<T>(s: seq<T>, keep: T -> bool)
    requires forall i :: 0 <= i < |s| ==> !keep(s[i])
    ensures Filter(s, keep) == []
  {
    if s != [] {
      FilterNoneKept(s[1..], keep);
    }
  }
}

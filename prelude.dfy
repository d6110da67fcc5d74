/** JavaScript array and object idioms the components are built from:
    `Array.prototype.filter`, `slice(0, n)`, `slice(1)` on strings and the
    `record[key] || fallback` lookup. */
module Prelude {

  datatype Option<T> = None | Some(value: T)

  function Min(a: int, b: int): int { if a <= b then a else b }

  /** `s.filter(keep)`: the elements of `s` that satisfy `keep`, in their order. */
  function Filter<T>(s: seq<T>, keep: T -> bool): (r: seq<T>)
    ensures |r| <= |s|
    ensures forall x :: x in r ==> x in s && keep(x)
  {
    if s == [] then []
    else (if keep(s[0]) then [s[0]] else []) + Filter(s[1..], keep)
  }

  /** `a` can be obtained from `b` by deleting elements. */
  ghost predicate IsSubsequence<T>(a: seq<T>, b: seq<T>)
    decreases |b|
  {
    if a == [] then true
    else if b == [] then false
    else if a[0] == b[0] then IsSubsequence(a[1..], b[1..])
    else IsSubsequence(a, b[1..])
  }

  /** Putting an element in front of the larger sequence keeps a subsequence one. */
  lemma {:induction false} SubsequenceOfTail<T>(a: seq<T>, x: T, b: seq<T>)
    requires IsSubsequence(a, b)
    ensures IsSubsequence(a, [x] + b)
    decreases |b|, 1
  {
    if a != [] {
      assert ([x] + b)[1..] == b;
      if a[0] == x {
        SubsequenceDropHead(a, b);
      }
    }
  }

  /** Deleting the first element of a subsequence keeps it a subsequence. */
  lemma {:induction false} SubsequenceDropHead<T>(a: seq<T>, b: seq<T>)
    requires a != [] && IsSubsequence(a, b)
    ensures IsSubsequence(a[1..], b)
    decreases |b|, 0
  {
    assert b != [];
    assert b == [b[0]] + b[1..];
    if a[0] == b[0] {
      SubsequenceOfTail(a[1..], b[0], b[1..]);
    } else {
      SubsequenceDropHead(a, b[1..]);
      SubsequenceOfTail(a[1..], b[0], b[1..]);
    }
  }

  /** The filtered list keeps the original order: it is a subsequence. */
  lemma {:induction false} FilterIsSubsequence<T>(s: seq<T>, keep: T -> bool)
    ensures IsSubsequence(Filter(s, keep), s)
  {
    if s == [] {
    } else {
      FilterIsSubsequence(s[1..], keep);
      var rest := Filter(s[1..], keep);
      assert s == [s[0]] + s[1..];
      if keep(s[0]) {
        assert Filter(s, keep) == [s[0]] + rest;
        assert ([s[0]] + rest)[1..] == rest;
      } else {
        assert Filter(s, keep) == rest;
        SubsequenceOfTail(rest, s[0], s[1..]);
      }
    }
  }

  /** An element is kept exactly when it occurs in the input and satisfies `keep`. */
  lemma {:induction false} FilterMembership<T>(s: seq<T>, keep: T -> bool, x: T)
    ensures x in Filter(s, keep) <==> x in s && keep(x)
  {
    if s != [] {
      FilterMembership(s[1..], keep, x);
      assert s == [s[0]] + s[1..];
    }
  }

  /** When every element passes, the filter returns its input unchanged. */
  lemma {:induction false} FilterKeepsAll<T>(s: seq<T>, keep: T -> bool)
    requires forall i :: 0 <= i < |s| ==> keep(s[i])
    ensures Filter(s, keep) == s
  {
    if s != [] {
      FilterKeepsAll(s[1..], keep);
      assert s == [s[0]] + s[1..];
    }
  }

  /** Filtering a concatenation filters each part. */
  lemma {:induction false} FilterAppend<T>(a: seq<T>, b: seq<T>, keep: T -> bool)
    ensures Filter(a + b, keep) == Filter(a, keep) + Filter(b, keep)
  {
    if a == [] {
      assert a + b == b;
    } else {
      var head: seq<T> := if keep(a[0]) then [a[0]] else [];
      assert (a + b)[0] == a[0];
      assert (a + b)[1..] == a[1..] + b;
      calc {
        Filter(a + b, keep);
        head + Filter(a[1..] + b, keep);
        { FilterAppend(a[1..], b, keep); }
        head + (Filter(a[1..], keep) + Filter(b, keep));
        (head + Filter(a[1..], keep)) + Filter(b, keep);
        Filter(a, keep) + Filter(b, keep);
      }
    }
  }

  /** `s.find(p)`: the first element satisfying `p`, or `undefined` (here `None`). */
  function Find<T>(s: seq<T>, p: T -> bool): (r: Option<T>)
    ensures r.Some? ==> r.value in s && p(r.value)
    ensures r.None? ==> forall i :: 0 <= i < |s| ==> !p(s[i])
  {
    if s == [] then None else if p(s[0]) then Some(s[0]) else Find(s[1..], p)
  }

  /** `find` returns the first match, not merely some match. */
  lemma {:induction false} FindIsFirst<T>(s: seq<T>, p: T -> bool, i: int)
    requires 0 <= i < |s| && p(s[i])
    requires forall j :: 0 <= j < i ==> !p(s[j])
    ensures Find(s, p) == Some(s[i])
  {
    if i > 0 {
      FindIsFirst(s[1..], p, i - 1);
    }
  }

  /** `s.slice(0, n)` for a non-negative `n`. */
  function Take<T>(s: seq<T>, n: nat): (r: seq<T>)
    ensures |r| == Min(n, |s|)
    ensures forall i :: 0 <= i < |r| ==> r[i] == s[i]
  {
    if n <= |s| then s[..n] else s
  }

  /** `s.slice(1)` on a string: everything after the first character, `""` for `""`. */
  function DropFirst(s: string): (r: string)
    ensures |s| > 0 ==> [s[0]] + r == s
    ensures |s| == 0 ==> r == ""
  {
    if |s| == 0 then "" else s[1..]
  }

  /** JavaScript truthiness of `record[key]` for a string-valued record:
      an absent key (undefined) and the empty string are both falsy. */
  predicate Truthy(m: map<string, string>, key: string)
  {
    key in m && m[key] != ""
  }

  /** `record[key] || fallback`. */
  function LookupOr(m: map<string, string>, key: string, fallback: string): (r: string)
    ensures r == fallback || (key in m && r == m[key])
    ensures r == "" ==> fallback == ""
  {
    if Truthy(m, key) then m[key] else fallback
  }

  /** The lookup returns the entry exactly when it is truthy. */
  lemma LookupOrUsesEntry(m: map<string, string>, key: string, fallback: string)
    ensures Truthy(m, key) ==> LookupOr(m, key, fallback) == m[key]
    ensures !Truthy(m, key) ==> LookupOr(m, key, fallback) == fallback
  {
  }

  /** Nothing is kept when no element passes. */
  lemma {:induction false} FilterNoneKept<T>(s: seq<T>, keep: T -> bool)
    requires forall i :: 0 <= i < |s| ==> !keep(s[i])
    ensures Filter(s, keep) == []
  {
    if s != [] {
      assert forall i :: 0 <= i < |s[1..]| ==> s[1..][i] == s[i + 1];
      FilterNoneKept(s[1..], keep);
    }
  }

  /** The part one element contributes to `Filter`. */
  function Kept<X>(x: X, keep: X -> bool): seq<X>
  {
    if keep(x) then [x] else []
  }


  lemma FilterCons<X>(s: seq<X>, keep: X -> bool)
    requires s != []
    ensures Filter(s, keep) == Kept(s[0], keep) + Filter(s[1..], keep)
  {
  }

  /** `Filter` on a list of five, spelled out. */
  lemma FilterFive<X>(s: seq<X>, keep: X -> bool)
    requires |s| == 5
    ensures Filter(s, keep) == Kept(s[0], keep) + (Kept(s[1], keep) + (Kept(s[2], keep) + (Kept(s[3], keep) + Kept(s[4], keep))))
  {
    var s1, s2, s3, s4 := s[1..], s[2..], s[3..], s[4..];
    assert s1[1..] == s2 && s2[1..] == s3 && s3[1..] == s4 && s4[1..] == [];
    var f4 := Filter(s4, keep);
    assert f4 == Kept(s[4], keep) by { FilterCons(s4, keep); }
    var f3 := Filter(s3, keep);
    assert f3 == Kept(s[3], keep) + f4 by { FilterCons(s3, keep); }
    var f2 := Filter(s2, keep);
    assert f2 == Kept(s[2], keep) + f3 by { FilterCons(s2, keep); }
    var f1 := Filter(s1, keep);
    assert f1 == Kept(s[1], keep) + f2 by { FilterCons(s1, keep); }
    assert Filter(s, keep) == Kept(s[0], keep) + f1 by { FilterCons(s, keep); }
  }
}

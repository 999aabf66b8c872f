/** Generic facts about sequences used across the model: subsequences,
    duplicate-freedom and order-preserving filtering. */
module Seqs {
  import opened Options

  /** `a` can be obtained from `b` by deleting elements (order kept). */
  predicate IsSubseq<T(==)>(a: seq<T>, b: seq<T>)
    decreases |b|
  {
    a == [] || (|b| > 0 && if a[0] == b[0] then IsSubseq(a[1..], b[1..]) else IsSubseq(a, b[1..]))
  }

  predicate NoDup<T(==)>(s: seq<T>) {
    forall i, j :: 0 <= i < j < |s| ==> s[i] != s[j]
  }

  /** Array.prototype.filter / a Python list comprehension with a condition. */
  function Filter<T>(s: seq<T>, p: T -> bool): (r: seq<T>)
    ensures |r| <= |s|
  {
    if s == [] then [] else (if p(s[0]) then [s[0]] else []) + Filter(s[1..], p)
  }

  lemma {:induction false} SubseqMembers<T>(a: seq<T>, b: seq<T>)
    requires IsSubseq(a, b)
    ensures forall x :: x in a ==> x in b
  {
    if a != [] {
      if a[0] == b[0] {
        SubseqMembers(a[1..], b[1..]);
        assert a == [a[0]] + a[1..] && b == [b[0]] + b[1..];
      } else {
        SubseqMembers(a, b[1..]);
      }
    }
  }

  lemma {:induction false} SubseqOfCons<T>(a: seq<T>, x: T, b: seq<T>)
    requires IsSubseq(a, b)
    ensures IsSubseq(a, [x] + b)
    decreases |b|, 1
  {
    if a != [] {
      if a[0] == x {
        // the greedy matcher takes x; the rest of a is still in b
        assert ([x] + b)[1..] == b;
        SubseqOfTail(a, b);
      } else {
        assert ([x] + b)[1..] == b;
      }
    }
  }

  lemma {:induction false} SubseqOfTail<T>(a: seq<T>, b: seq<T>)
    requires a != [] && IsSubseq(a, b)
    ensures IsSubseq(a[1..], b)
    decreases |b|, 0
  {
    if a[0] == b[0] {
      if a[1..] != [] {
        SubseqOfCons(a[1..], b[0], b[1..]);
        assert [b[0]] + b[1..] == b;
      }
    } else {
      SubseqOfTail(a, b[1..]);
      if a[1..] != [] {
        SubseqOfCons(a[1..], b[0], b[1..]);
        assert [b[0]] + b[1..] == b;
      }
    }
  }

  lemma {:induction false} FilterIsSubseq<T>(s: seq<T>, p: T -> bool)
    ensures IsSubseq(Filter(s, p), s)
  {
    if s != [] {
      FilterIsSubseq(s[1..], p);
      var rest := Filter(s[1..], p);
      if p(s[0]) {
        assert Filter(s, p) == [s[0]] + rest;
        assert Filter(s, p)[1..] == rest;
      } else {
        assert Filter(s, p) == rest;
        SubseqOfCons(rest, s[0], s[1..]);
        assert [s[0]] + s[1..] == s;
      }
    }
  }

  lemma {:induction false} FilterMembers<T>(s: seq<T>, p: T -> bool, x: T)
    ensures x in Filter(s, p) <==> x in s && p(x)
  {
    if s != [] {
      FilterMembers(s[1..], p, x);
      assert s == [s[0]] + s[1..];
    }
  }

  lemma {:induction false} FilterAll<T>(s: seq<T>, p: T -> bool)
    requires forall i :: 0 <= i < |s| ==> p(s[i])
    ensures Filter(s, p) == s
  {
    if s != [] {
      FilterAll(s[1..], p);
      assert [s[0]] + s[1..] == s;
    }
  }

  lemma {:induction false} FilterAppend<T>(a: seq<T>, b: seq<T>, p: T -> bool)
    ensures Filter(a + b, p) == Filter(a, p) + Filter(b, p)
  {
    if a != [] {
      assert (a + b)[1..] == a[1..] + b;
      FilterAppend(a[1..], b, p);
    } else {
      assert a + b == b;
    }
  }

  /** Insertion-ordered set semantics: keep the first occurrence of each
      value (a JavaScript `Set` filled in sequence order). */
  function Dedup<T(==)>(s: seq<T>): (r: seq<T>)
    decreases |s|
  {
    if s == [] then []
    else
      var d := Dedup(s[..|s| - 1]);
      if s[|s| - 1] in d then d else d + [s[|s| - 1]]
  }

  lemma {:induction false} DedupProperties<T>(s: seq<T>)
    ensures NoDup(Dedup(s))
    ensures forall x :: x in Dedup(s) <==> x in s
    ensures IsSubseq(Dedup(s), s)
    decreases |s|
  {
    if s != [] {
      var init := s[..|s| - 1];
      var last := s[|s| - 1];
      DedupProperties(init);
      assert s == init + [last];
      SubseqAppend(Dedup(init), init, [last]);
      if last !in Dedup(init) {
        SubseqBothAppend(Dedup(init), init, last);
      }
    }
  }

  lemma {:induction false} SubseqAppend<T>(a: seq<T>, b: seq<T>, c: seq<T>)
    requires IsSubseq(a, b)
    ensures IsSubseq(a, b + c)
    decreases |b|
  {
    if a != [] {
      assert (b + c)[1..] == b[1..] + c;
      if a[0] == b[0] {
        SubseqAppend(a[1..], b[1..], c);
      } else {
        SubseqAppend(a, b[1..], c);
      }
    }
  }

  lemma {:induction false} SubseqBothAppend<T>(a: seq<T>, b: seq<T>, x: T)
    requires IsSubseq(a, b)
    ensures IsSubseq(a + [x], b + [x])
    decreases |b|
  {
    if a == [] {
      assert a + [x] == [x];
      SubseqSingleton(b, x);
    } else {
      assert (a + [x])[1..] == a[1..] + [x];
      assert (b + [x])[1..] == b[1..] + [x];
      if a[0] == b[0] {
        SubseqBothAppend(a[1..], b[1..], x);
      } else {
        SubseqBothAppend(a, b[1..], x);
      }
    }
  }

  lemma {:induction false} SubseqSingleton<T>(b: seq<T>, x: T)
    ensures IsSubseq([x], b + [x])
    decreases |b|
  {
    if b != [] {
      assert (b + [x])[1..] == b[1..] + [x];
      SubseqSingleton(b[1..], x);
    }
  }

  /** Map each element to an optional value and keep the present ones, in
      order (a map followed by a filter on the values). */
  function FilterMap<A, B>(s: seq<A>, f: A -> Option<B>): (r: seq<B>)
    ensures |r| <= |s|
    decreases |s|
  {
    if s == [] then []
    else
      FilterMap(s[..|s| - 1], f) + (match f(s[|s| - 1]) case Some(y) => [y] case None => [])
  }

  lemma FilterMapStep<A, B>(s: seq<A>, f: A -> Option<B>, i: nat)
    requires i < |s|
    ensures FilterMap(s[..i + 1], f) ==
      FilterMap(s[..i], f) + (match f(s[i]) case Some(y) => [y] case None => [])
  {
    assert s[..i + 1][..i] == s[..i];
  }

  lemma {:induction false} FilterMapMembers<A, B>(s: seq<A>, f: A -> Option<B>, y: B)
    ensures y in FilterMap(s, f) <==> exists i :: 0 <= i < |s| && f(s[i]) == Some(y)
    decreases |s|
  {
    if s != [] {
      var init, last := s[..|s| - 1], s[|s| - 1];
      var tail := match f(last) case Some(z) => [z] case None => [];
      FilterMapMembers(init, f, y);
      assert FilterMap(s, f) == FilterMap(init, f) + tail;
      assert y in tail <==> f(last) == Some(y);
      if y in FilterMap(s, f) {
        if y in tail {
          assert f(s[|s| - 1]) == Some(y);
        } else {
          var i :| 0 <= i < |init| && f(init[i]) == Some(y);
          assert s[i] == init[i];
        }
      }
      if exists i :: 0 <= i < |s| && f(s[i]) == Some(y) {
        var i :| 0 <= i < |s| && f(s[i]) == Some(y);
        if i < |init| {
          assert init[i] == s[i];
        }
      }
    }
  }
}

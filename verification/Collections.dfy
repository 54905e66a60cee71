/** Options and the few sequence operations that the models share. */
module Collections {
  newtype byte = x: int | 0 <= x < 256

  type Bytes = seq<byte>


  datatype Option<+T> = None | Some(value: T) {
    function GetOr(default: T): T {
      match this
      case Some(v) => v
      case None => default
    }
  }

  function Last<T>(s: seq<T>): T
    requires s != []
  {
    s[|s| - 1]
  }

  function Front<T>(s: seq<T>): seq<T>
    requires s != []
  {
    s[..|s| - 1]
  }

  lemma Associative<T>(a: seq<T>, b: seq<T>, c: seq<T>)
    ensures (a + b) + c == a + (b + c)
  {
  }

  /** The elements of `s` that satisfy `p`, in order. */
  function Filter<T>(s: seq<T>, p: T -> bool): (r: seq<T>)
    ensures |r| <= |s|
    ensures forall x | x in r :: x in s && p(x)
    ensures forall x | x in s && p(x) :: x in r
  {
    if s == [] then []
    else
      assert s == Front(s) + [Last(s)];
      Filter(Front(s), p) + if p(Last(s)) then [Last(s)] else []
  }

  lemma {:induction false} FilterAppend<T>(a: seq<T>, b: seq<T>, p: T -> bool)
    ensures Filter(a + b, p) == Filter(a, p) + Filter(b, p)
  {
    if b == [] {
      assert a + b == a;
    } else {
      assert Front(a + b) == a + Front(b) && Last(a + b) == Last(b);
      FilterAppend(a, Front(b), p);
      var l := if p(Last(b)) then [Last(b)] else [];
      assert Filter(a + b, p) == Filter(a + Front(b), p) + l;
      assert Filter(b, p) == Filter(Front(b), p) + l;
      Associative(Filter(a, p), Filter(Front(b), p), l);
    }
  }

  lemma {:induction false} FilterAll<T>(s: seq<T>, p: T -> bool)
    requires forall x :: x in s ==> p(x)
    ensures Filter(s, p) == s
  {
    if s != [] {
      FilterAll(Front(s), p);
      assert s == Front(s) + [Last(s)];
    }
  }

  lemma {:induction false} FilterNone<T>(s: seq<T>, p: T -> bool)
    requires forall x :: x in s ==> !p(x)
    ensures Filter(s, p) == []
  {
    if s != [] {
      FilterNone(Front(s), p);
    }
  }

  lemma {:induction false} FilterCount<T>(s: seq<T>, p: T -> bool, x: T)
    ensures multiset(Filter(s, p))[x] == if p(x) then multiset(s)[x] else 0
  {
    if s != [] {
      FilterCount(Front(s), p, x);
      assert s == Front(s) + [Last(s)];
    }
  }

  lemma FilterSnoc<T>(s: seq<T>, x: T, p: T -> bool)
    ensures Filter(s + [x], p) == Filter(s, p) + if p(x) then [x] else []
  {
    assert Front(s + [x]) == s;
  }

  lemma {:induction false} FilterCommutes<T>(s: seq<T>, p: T -> bool, q: T -> bool)
    ensures Filter(Filter(s, p), q) == Filter(Filter(s, q), p)
  {
    if s != [] {
      hide Filter;
      var f, l := Front(s), Last(s);
      assert s == f + [l];
      FilterCommutes(f, p, q);
      FilterSnoc(f, l, p);
      FilterSnoc(f, l, q);
      FilterOptional(Filter(f, p), l, p(l), q);
      FilterOptional(Filter(f, q), l, q(l), p);
    } else {
      assert Filter(s, p) == [] && Filter(s, q) == [];
    }
  }

  lemma FilterOptional<T>(s: seq<T>, x: T, present: bool, q: T -> bool)
    ensures Filter(s + (if present then [x] else []), q) == Filter(s, q) + if present && q(x) then [x] else []
  {
    if present {
      FilterSnoc(s, x, q);
    } else {
      assert s + [] == s;
    }
  }

  lemma {:induction false} FilterSubsumed<T>(s: seq<T>, p: T -> bool, q: T -> bool)
    requires forall x <- s | q(x) :: p(x)
    ensures Filter(Filter(s, p), q) == Filter(s, q)
  {
    if s != [] {
      hide Filter;
      var f, l := Front(s), Last(s);
      assert s == f + [l];
      FilterSubsumed(f, p, q);
      FilterSnoc(f, l, p);
      FilterSnoc(f, l, q);
      FilterOptional(Filter(f, p), l, p(l), q);
    }
  }

  lemma {:induction false} FilterCong<T>(s: seq<T>, p: T -> bool, q: T -> bool)
    requires forall x :: x in s ==> p(x) == q(x)
    ensures Filter(s, p) == Filter(s, q)
  {
    if s != [] {
      FilterCong(Front(s), p, q);
    }
  }

  /** Filtering by two complementary predicates splits a sequence, as a multiset. */
  lemma {:induction false} FilterPartition<T>(s: seq<T>, p: T -> bool, q: T -> bool)
    requires forall x <- s :: p(x) <==> !q(x)
    ensures multiset(s) == multiset(Filter(s, p)) + multiset(Filter(s, q))
  {
    if s != [] {
      FilterPartition(Front(s), p, q);
      assert s == Front(s) + [Last(s)];
    }
  }

  function Elements<T>(s: seq<T>): set<T> {
    set x | x in s
  }

  predicate NoDuplicates<T(==)>(s: seq<T>) {
    forall i, j :: 0 <= i < j < |s| ==> s[i] != s[j]
  }

  lemma {:induction false} NoDuplicatesCardinality<T>(s: seq<T>)
    requires NoDuplicates(s)
    ensures |Elements(s)| == |s|
  {
    if s != [] {
      NoDuplicatesCardinality(Front(s));
      assert s == Front(s) + [Last(s)];
      assert Elements(s) == Elements(Front(s)) + {Last(s)};
    }
  }

  lemma SubsetCardinality<T>(a: set<T>, b: set<T>)
    requires a <= b
    ensures |a| <= |b|
  {
    assert b == a + (b - a);
  }

  lemma {:induction false} FilterNoDuplicates<T>(s: seq<T>, p: T -> bool)
    requires NoDuplicates(s)
    ensures NoDuplicates(Filter(s, p))
  {
    if s != [] {
      FilterNoDuplicates(Front(s), p);
      assert s == Front(s) + [Last(s)];
      assert Last(s) !in Front(s);
    }
  }

  function Flatten<T>(ss: seq<seq<T>>): seq<T> {
    if ss == [] then [] else Flatten(Front(ss)) + Last(ss)
  }
}

/**
 Sequence operations shared by the models: filtering by a predicate, prefixes and sums, with the
 facts about concatenation, membership and length that the proofs of the other modules rest on.
 */
module Sequences {

  datatype Option<+T> = None | Some(value: T)

  function Min(a: int, b: int): int { if a <= b then a else b }

  function Max(a: int, b: int): int { if a <= b then b else a }

  function Take<T>(s: seq<T>, n: nat): seq<T> { if |s| <= n then s else s[..n] }

  lemma Assoc<T>(a: seq<T>, b: seq<T>, c: seq<T>)
    ensures (a + b) + c == a + (b + c)
  {
  }

  lemma PrefixAfter<T>(a: seq<T>, b: seq<T>, c: seq<T>)
    requires b <= c
    ensures a + b <= a + c
  {
  }

  function Filter<T(!new)>(p: T -> bool, s: seq<T>): (r: seq<T>)
    ensures |r| <= |s|
  {
    if s == [] then [] else (if p(s[0]) then [s[0]] else []) + Filter(p, s[1..])
  }

  lemma {:induction false} FilterMembers<T(!new)>(p: T -> bool, s: seq<T>)
    ensures forall x :: x in Filter(p, s) <==> x in s && p(x)
  {
    if s != [] {
      FilterMembers(p, s[1..]);
      assert s == [s[0]] + s[1..];
    }
  }

  lemma FilterCons<T(!new)>(p: T -> bool, x: T, s: seq<T>)
    ensures Filter(p, [x] + s) == (if p(x) then [x] + Filter(p, s) else Filter(p, s))
  {
    assert ([x] + s)[1..] == s;
  }

  function Not<T(!new)>(p: T -> bool): T -> bool { x => !p(x) }

  function Both<T(!new)>(p: T -> bool, q: T -> bool): T -> bool { x => p(x) && q(x) }

  lemma {:induction false} FilterConcat<T(!new)>(p: T -> bool, a: seq<T>, b: seq<T>)
    ensures Filter(p, a + b) == Filter(p, a) + Filter(p, b)
  {
    if a == [] {
      assert a + b == b;
    } else {
      var x, rest := a[0], a[1..];
      FilterConcat(p, rest, b);
      assert a == [x] + rest && a + b == [x] + (rest + b);
      FilterCons(p, x, rest);
      FilterCons(p, x, rest + b);
    }
  }

  lemma FilterSnoc<T(!new)>(p: T -> bool, s: seq<T>, x: T)
    ensures Filter(p, s + [x]) == if p(x) then Filter(p, s) + [x] else Filter(p, s)
  {
    FilterConcat(p, s, [x]);
    assert [x][1..] == [];
    assert Filter(p, s) + [] == Filter(p, s);
  }

  lemma {:induction false} FilterAll<T(!new)>(p: T -> bool, s: seq<T>)
    requires forall x :: x in s ==> p(x)
    ensures Filter(p, s) == s
  {
    if s != [] { FilterAll(p, s[1..]); }
  }

  lemma {:induction false} FilterNone<T(!new)>(p: T -> bool, s: seq<T>)
    requires forall x :: x in s ==> !p(x)
    ensures Filter(p, s) == []
  {
    if s != [] { FilterNone(p, s[1..]); }
  }

  /** Filtering depends only on what the two predicates say about the members. */
  lemma {:induction false} FilterAgree<T(!new)>(p: T -> bool, q: T -> bool, s: seq<T>)
    requires forall x :: x in s ==> p(x) == q(x)
    ensures Filter(p, s) == Filter(q, s)
  {
    if s != [] { FilterAgree(p, q, s[1..]); }
  }

  lemma {:induction false} FilterFilter<T(!new)>(p: T -> bool, q: T -> bool, s: seq<T>)
    ensures Filter(p, Filter(q, s)) == Filter(Both(q, p), s)
  {
    if s != [] {
      var rest := Filter(q, s[1..]);
      if q(s[0]) {
        assert Filter(q, s) == [s[0]] + rest;
        assert ([s[0]] + rest)[1..] == rest;
        assert Filter(p, [s[0]] + rest) == (if p(s[0]) then [s[0]] else []) + Filter(p, rest);
      } else {
        assert Filter(q, s) == rest;
      }
      FilterFilter(p, q, s[1..]);
    }
  }

  /** Every filtered sequence splits its source: kept and dropped members add up. */
  lemma {:induction false} FilterSplit<T(!new)>(p: T -> bool, s: seq<T>)
    ensures |Filter(p, s)| + |Filter(Not(p), s)| == |s|
  {
    if s != [] { FilterSplit(p, s[1..]); }
  }

  function Sum(s: seq<real>): real {
    if s == [] then 0.0 else s[0] + Sum(s[1..])
  }

  lemma {:induction false} SumConcat(a: seq<real>, b: seq<real>)
    ensures Sum(a + b) == Sum(a) + Sum(b)
  {
    if a == [] {
      assert a + b == b;
    } else {
      assert (a + b)[1..] == a[1..] + b;
      SumConcat(a[1..], b);
    }
  }
}

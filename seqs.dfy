/**
 * First-occurrence de-duplication of a sequence, the order in which an
 * insertion-ordered dictionary or a "seen" set keeps its keys.
 */
module Seqs {

  predicate Distinct<T(==)>(s: seq<T>) {
    forall i, j :: 0 <= i < j < |s| ==> s[i] != s[j]
  }

  /** The position of the first `x` in `s`. */
  function FirstIndex<T(==)>(s: seq<T>, x: T): (k: nat)
    requires x in s
    ensures k < |s| && s[k] == x
    ensures forall j :: 0 <= j < k ==> s[j] != x
  {
    if s[0] == x then 0 else 1 + FirstIndex(s[1..], x)
  }

  /** Each element of `s` once, at the place where it first occurs. */
  function FirstOccurrences<T(==,!new)>(s: seq<T>): (r: seq<T>)
    ensures Distinct(r)
    ensures forall x :: x in r <==> x in s
    ensures |r| <= |s|
    decreases |s|
  {
    if s == [] then []
    else
      var p := FirstOccurrences(s[..|s| - 1]);
      var x := s[|s| - 1];
      assert forall y :: y in s <==> y in s[..|s| - 1] || y == x;
      if x in p then p else p + [x]
  }

  /** In a prefix, an element occurring there first occurs at the same place. */
  lemma {:induction false} FirstIndexPrefix<T>(s: seq<T>, n: nat, x: T)
    requires n <= |s| && x in s[..n]
    ensures FirstIndex(s, x) == FirstIndex(s[..n], x)
  {
    var k := FirstIndex(s[..n], x);
    assert s[k] == s[..n][k] == x;
  }

  /** The kept elements appear in the order of their first occurrences. */
  lemma {:induction false} FirstOccurrencesOrder<T(!new)>(s: seq<T>, i: nat, j: nat)
    requires i < j < |FirstOccurrences(s)|
    ensures FirstIndex(s, FirstOccurrences(s)[i]) < FirstIndex(s, FirstOccurrences(s)[j])
    decreases |s|
  {
    var q := s[..|s| - 1];
    var p := FirstOccurrences(q);
    var x := s[|s| - 1];
    var r := FirstOccurrences(s);
    if j < |p| {
      assert r[i] == p[i] && r[j] == p[j];
      FirstOccurrencesOrder(q, i, j);
      FirstIndexPrefix(s, |s| - 1, p[i]);
      FirstIndexPrefix(s, |s| - 1, p[j]);
    } else {
      assert x !in q && r[j] == x && r[i] == p[i];
      assert FirstIndex(s, x) == |s| - 1;
      FirstIndexPrefix(s, |s| - 1, p[i]);
    }
  }

  /** The results of `f` on each element of `s`, concatenated in order. */
  function Gather<A, B>(f: A -> seq<B>, s: seq<A>): (r: seq<B>)
    ensures forall y :: y in r ==> exists x :: x in s && y in f(x)
    decreases |s|
  {
    if s == [] then []
    else
      var rest := Gather(f, s[1..]);
      assert forall x :: x in s[1..] ==> x in s;
      f(s[0]) + rest
  }

  /** Gathering over consecutive blocks concatenates the blocks' results. */
  lemma {:induction false} GatherAppend<A, B>(f: A -> seq<B>, a: seq<A>, b: seq<A>)
    ensures Gather(f, a + b) == Gather(f, a) + Gather(f, b)
    decreases |a|
  {
    if a == [] {
      assert a + b == b;
    } else {
      assert (a + b)[0] == a[0] && (a + b)[1..] == a[1..] + b;
      GatherAppend(f, a[1..], b);
    }
  }

  /** When `f` yields at most `m` values per element, there are at most `m` times as many results as elements. */
  lemma {:induction false} GatherBound<A, B>(f: A -> seq<B>, s: seq<A>, m: nat)
    requires forall x :: x in s ==> |f(x)| <= m
    ensures |Gather(f, s)| <= m * |s|
    decreases |s|
  {
    if s != [] {
      assert forall x :: x in s[1..] ==> x in s;
      GatherBound(f, s[1..], m);
      assert |Gather(f, s)| == |f(s[0])| + |Gather(f, s[1..])|;
      MulSucc(m, |s[1..]|);
    }
  }

  lemma MulSucc(m: nat, n: nat)
    ensures m * (n + 1) == m * n + m
  {
  }

  /** Gathering one element more appends that element's results. */
  lemma GatherSnoc<A, B>(f: A -> seq<B>, s: seq<A>, i: nat)
    requires i < |s|
    ensures Gather(f, s[..i + 1]) == Gather(f, s[..i]) + f(s[i])
  {
    GatherAppend(f, s[..i], [s[i]]);
    assert s[..i + 1] == s[..i] + [s[i]];
    GatherOne(f, s[i]);
  }

  lemma GatherOne<A, B>(f: A -> seq<B>, x: A)
    ensures Gather(f, [x]) == f(x)
  {
    assert [x][1..] == [];
  }

  /** Adding an element keeps the kept elements and adds it if it is new. */
  lemma FirstOccurrencesSnoc<T(!new)>(s: seq<T>, x: T)
    ensures FirstOccurrences(s + [x]) == if x in FirstOccurrences(s) then FirstOccurrences(s) else FirstOccurrences(s) + [x]
  {
    assert (s + [x])[..|s|] == s;
  }
}

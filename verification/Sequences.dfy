/** Permutations, byte-wise string order and sorting, as the seat map and its availability use them. */
module Sequences {

  // ------------------------------------------------------------ permutations

  function Map<A, B>(f: A -> B, s: seq<A>): (r: seq<B>)
    ensures |r| == |s|
    ensures forall i :: 0 <= i < |s| ==> r[i] == f(s[i])
  {
    if s == [] then [] else Map(f, s[..|s| - 1]) + [f(s[|s| - 1])]
  }

  function Flat<A, B>(f: A -> seq<B>, s: seq<A>): seq<B> {
    if s == [] then [] else Flat(f, s[..|s| - 1]) + f(s[|s| - 1])
  }

  function Without<T>(s: seq<T>, i: nat): (r: seq<T>)
    requires i < |s|
    ensures |r| == |s| - 1
    ensures multiset(s) == multiset(r) + multiset{s[i]}
  {
    assert s == s[..i] + [s[i]] + s[i + 1..];
    s[..i] + s[i + 1..]
  }

  lemma SameElements<T>(s: seq<T>, t: seq<T>)
    requires multiset(s) == multiset(t)
    ensures |s| == |t|
    ensures forall x :: x in s <==> x in t
  {
    assert |multiset(s)| == |s| && |multiset(t)| == |t|;
    forall x ensures x in s <==> x in t {
      assert x in s <==> x in multiset(s);
      assert x in t <==> x in multiset(t);
    }
  }

  /** An element of one sequence has a place in its rearrangement, and taking both away keeps the rest matched. */
  lemma Counterpart<T>(s: seq<T>, t: seq<T>, i: nat) returns (j: nat)
    requires multiset(s) == multiset(t) && i < |s|
    ensures j < |t| && t[j] == s[i]
    ensures multiset(Without(s, i)) == multiset(Without(t, j))
  {
    SameElements(s, t);
    assert s[i] in t;
    j :| j < |t| && t[j] == s[i];
    assert multiset(Without(s, i)) == multiset(s) - multiset{s[i]};
    assert multiset(Without(t, j)) == multiset(t) - multiset{t[j]};
  }

  lemma {:induction false} FlatConcat<A, B>(f: A -> seq<B>, a: seq<A>, b: seq<A>)
    ensures Flat(f, a + b) == Flat(f, a) + Flat(f, b)
  {
    if b == [] {
      assert a + b == a;
    } else {
      assert (a + b)[..|a + b| - 1] == a + b[..|b| - 1];
      FlatConcat(f, a, b[..|b| - 1]);
    }
  }

  lemma FlatWithout<A, B>(f: A -> seq<B>, s: seq<A>, i: nat)
    requires i < |s|
    ensures multiset(Flat(f, s)) == multiset(Flat(f, Without(s, i))) + multiset(f(s[i]))
  {
    var before, after := s[..i], s[i + 1..];
    assert Without(s, i) == before + after;
    hide Without, Flat;
    SplitAround(s, i);
    FlatAround(f, before, s[i], after);
  }

  lemma SplitAround<T>(s: seq<T>, i: nat)
    requires i < |s|
    ensures s == s[..i] + [s[i]] + s[i + 1..]
  {
  }

  lemma FlatAround<A, B>(f: A -> seq<B>, before: seq<A>, x: A, after: seq<A>)
    ensures multiset(Flat(f, before + [x] + after)) == multiset(Flat(f, before + after)) + multiset(f(x))
  {
    FlatSingle(f, x);
    FlatConcat(f, before, [x]);
    FlatConcat(f, before + [x], after);
    FlatConcat(f, before, after);
    hide Flat;
    BagOfThree(Flat(f, before), f(x), Flat(f, after));
  }

  lemma FlatSingle<A, B>(f: A -> seq<B>, x: A)
    ensures Flat(f, [x]) == f(x)
  {
    assert [x][..0] == [];
  }

  lemma BagOfThree<B>(a: seq<B>, b: seq<B>, c: seq<B>)
    ensures multiset(a + b + c) == multiset(a + c) + multiset(b)
  {
  }

  /** Rearranging the parts rearranges the whole. */
  lemma {:induction false} FlatPermutes<A, B>(f: A -> seq<B>, s: seq<A>, t: seq<A>)
    requires multiset(s) == multiset(t)
    ensures multiset(Flat(f, s)) == multiset(Flat(f, t))
    decreases |s|
  {
    SameElements(s, t);
    if s == [] {
      assert t == [];
    } else {
      var j := Counterpart(s, t, 0);
      hide Flat, Without;
      FlatWithout(f, s, 0);
      FlatWithout(f, t, j);
      FlatPermutes(f, Without(s, 0), Without(t, j));
    }
  }

  /** Parts that are rearrangements of each other make wholes that are. */
  lemma {:induction false} FlatPointwise<A, B>(f: A -> seq<B>, s: seq<A>, t: seq<A>)
    requires |s| == |t| && forall i :: 0 <= i < |s| ==> multiset(f(s[i])) == multiset(f(t[i]))
    ensures multiset(Flat(f, s)) == multiset(Flat(f, t))
  {
    if s != [] {
      FlatPointwise(f, s[..|s| - 1], t[..|t| - 1]);
    }
  }

  lemma {:induction false} FlatMember<A, B>(f: A -> seq<B>, s: seq<A>, x: B)
    ensures x in Flat(f, s) <==> exists y :: y in s && x in f(y)
  {
    if s != [] {
      var before, last := s[..|s| - 1], s[|s| - 1];
      FlatMember(f, before, x);
      assert s == before + [last];
    }
  }

  /** What all parts hold only elements of, the whole does. */
  lemma FlatAll<A, B>(f: A -> seq<B>, s: seq<A>, p: B -> bool)
    requires forall x, y :: x in s && y in f(x) ==> p(y)
    ensures forall y :: y in Flat(f, s) ==> p(y)
  {
    hide Flat;
    forall y | y in Flat(f, s) ensures p(y) {
      FlatMember(f, s, y);
    }
  }

  lemma FlatOneMore<A, B>(f: A -> seq<B>, s: seq<A>, i: nat)
    requires i < |s|
    ensures Flat(f, s[..i + 1]) == Flat(f, s[..i]) + f(s[i])
  {
    assert s[..i + 1][..i] == s[..i];
  }

  lemma FlatPrefix<A, B>(f: A -> seq<B>, s: seq<A>, i: nat)
    requires i <= |s|
    ensures Flat(f, s[..i]) <= Flat(f, s)
  {
    hide Flat;
    FlatConcat(f, s[..i], s[i..]);
    assert s == s[..i] + s[i..];
  }

  lemma MapConcat<A, B>(f: A -> B, a: seq<A>, b: seq<A>)
    ensures Map(f, a + b) == Map(f, a) + Map(f, b)
  {
  }

  lemma MapMember<A, B>(f: A -> B, s: seq<A>, y: B)
    ensures y in Map(f, s) <==> exists x :: x in s && f(x) == y
  {
    if x :| x in s && f(x) == y {
      var i :| 0 <= i < |s| && s[i] == x;
      assert Map(f, s)[i] == y;
    }
  }

  /** Parts that agree under some reading make wholes that agree under it. */
  lemma {:induction false} FlatAgrees<A, B, C, K>(f: A -> seq<B>, g: A -> seq<C>, p: B -> K, q: C -> K, s: seq<A>)
    requires forall x :: x in s ==> Map(p, f(x)) == Map(q, g(x))
    ensures Map(p, Flat(f, s)) == Map(q, Flat(g, s))
  {
    hide Map;
    if s == [] {
      assert Flat(f, s) == [] && Flat(g, s) == [];
      assert Map(p, []) == [] && Map(q, []) == [];
    } else {
      var before, last := s[..|s| - 1], s[|s| - 1];
      assert s == before + [last];
      FlatAgrees(f, g, p, q, before);
      MapConcat(p, Flat(f, before), f(last));
      MapConcat(q, Flat(g, before), g(last));
    }
  }

  lemma {:induction false} MapIsFlat<A, B>(f: A -> B, s: seq<A>)
    ensures Map(f, s) == Flat(x => [f(x)], s)
  {
    if s != [] {
      MapIsFlat(f, s[..|s| - 1]);
    }
  }

  lemma MapPermutes<A, B>(f: A -> B, s: seq<A>, t: seq<A>)
    requires multiset(s) == multiset(t)
    ensures multiset(Map(f, s)) == multiset(Map(f, t))
  {
    MapIsFlat(f, s);
    MapIsFlat(f, t);
    FlatPermutes(x => [f(x)], s, t);
  }

  ghost predicate Distinct<T>(s: seq<T>) {
    forall i, j :: 0 <= i < j < |s| ==> s[i] != s[j]
  }

  lemma {:induction false} DistinctCounts<T>(s: seq<T>)
    ensures Distinct(s) <==> forall x :: x in s ==> multiset(s)[x] == 1
  {
    forall i, j | 0 <= i < j < |s| && s[i] == s[j] ensures multiset(s)[s[i]] > 1 {
      var rest := Without(s, j);
      assert rest[i] == s[i];
      assert s[i] in multiset(rest);
    }
    forall i | 0 <= i < |s| && multiset(s)[s[i]] != 1 ensures !Distinct(s) {
      var rest := Without(s, i);
      assert s[i] in multiset(s);
      assert s[i] in multiset(rest);
      var k :| 0 <= k < |rest| && rest[k] == s[i];
      assert if k < i then s[k] == s[i] else s[k + 1] == s[i];
    }
  }

  lemma DistinctPermutes<T>(s: seq<T>, t: seq<T>)
    requires multiset(s) == multiset(t)
    ensures Distinct(s) <==> Distinct(t)
  {
    hide Distinct;
    SameElements(s, t);
    DistinctCounts(s);
    DistinctCounts(t);
  }

  lemma DistinctOneMore<T>(s: seq<T>, x: T)
    ensures Distinct(s + [x]) <==> Distinct(s) && x !in s
  {
    var more := s + [x];
    if Distinct(more) {
      forall i | 0 <= i < |s| ensures s[i] != x {
        assert more[i] != more[|s|];
      }
      forall i, j | 0 <= i < j < |s| ensures s[i] != s[j] {
        assert more[i] != more[j];
      }
    }
  }

  /** A key that never repeats identifies its element. */
  lemma DistinctKeys<A, K>(key: A -> K, s: seq<A>, x: A, y: A)
    requires Distinct(Map(key, s)) && x in s && y in s && key(x) == key(y)
    ensures x == y
  {
    var i :| 0 <= i < |s| && s[i] == x;
    var j :| 0 <= j < |s| && s[j] == y;
    var keys := Map(key, s);
    assert keys[i] == keys[j];
  }

  // ------------------------------------------------------------------- order

  /** Lexicographic order of strings by character. */
  predicate Leq(a: string, b: string) {
    a == "" || (b != "" && (a[0] < b[0] || (a[0] == b[0] && Leq(a[1..], b[1..]))))
  }

  lemma {:induction false} LeqTotal(a: string, b: string)
    ensures Leq(a, b) || Leq(b, a)
    ensures Leq(a, b) && Leq(b, a) ==> a == b
  {
    if a != "" && b != "" && a[0] == b[0] {
      LeqTotal(a[1..], b[1..]);
      assert a == [a[0]] + a[1..] && b == [b[0]] + b[1..];
    }
  }

  lemma {:induction false} LeqTransitive(a: string, b: string, c: string)
    requires Leq(a, b) && Leq(b, c)
    ensures Leq(a, c)
  {
    if a != "" && a[0] == b[0] && b[0] == c[0] {
      LeqTransitive(a[1..], b[1..], c[1..]);
    }
  }

  /** The order of pairs of strings, first component first. */
  predicate PairLeq(a: string, b: string, c: string, d: string) {
    if a == c then Leq(b, d) else Leq(a, c)
  }

  lemma PairTotal(a: string, b: string, c: string, d: string)
    ensures PairLeq(a, b, c, d) || PairLeq(c, d, a, b)
    ensures PairLeq(a, b, c, d) && PairLeq(c, d, a, b) ==> a == c && b == d
  {
    LeqTotal(a, c);
    LeqTotal(b, d);
  }

  lemma PairTransitive(a: string, b: string, c: string, d: string, e: string, f: string)
    requires PairLeq(a, b, c, d) && PairLeq(c, d, e, f)
    ensures PairLeq(a, b, e, f)
  {
    hide Leq;
    LeqTotal(a, c);
    if a == c && c == e {
      LeqTransitive(b, d, f);
    } else if a != c && c != e {
      LeqTransitive(a, c, e);
    }
  }

  // ----------------------------------------------------------------- sorting

  ghost predicate TotalPreorder<T(!new)>(leq: (T, T) -> bool) {
    && (forall a, b :: leq(a, b) || leq(b, a))
    && (forall a, b, c :: leq(a, b) && leq(b, c) ==> leq(a, c))
  }

  ghost predicate Sorted<T>(leq: (T, T) -> bool, s: seq<T>) {
    forall i, j :: 0 <= i < j < |s| ==> leq(s[i], s[j])
  }

  function Insert<T>(leq: (T, T) -> bool, s: seq<T>, x: T): seq<T> {
    if s == [] || leq(x, s[0]) then [x] + s else [s[0]] + Insert(leq, s[1..], x)
  }

  /** Stands in for the library sort. */
  function SortBy<T>(leq: (T, T) -> bool, s: seq<T>): seq<T> {
    if s == [] then [] else Insert(leq, SortBy(leq, s[1..]), s[0])
  }

  lemma SortedPrepend<T>(leq: (T, T) -> bool, x: T, rest: seq<T>)
    requires Sorted(leq, rest) && forall y :: y in rest ==> leq(x, y)
    ensures Sorted(leq, [x] + rest)
  {
  }

  lemma LeastFirst<T(!new)>(leq: (T, T) -> bool, x: T, s: seq<T>)
    requires TotalPreorder(leq) && Sorted(leq, s) && s != [] && leq(x, s[0])
    ensures forall y :: y in s ==> leq(x, y)
  {
    forall i | 0 < i < |s| ensures leq(x, s[i]) {
      assert leq(s[0], s[i]);
    }
  }

  lemma InsertedElements<T>(s: seq<T>, x: T, rest: seq<T>)
    requires s != [] && multiset(rest) == multiset(s[1..]) + multiset{x}
    ensures multiset([s[0]] + rest) == multiset(s) + multiset{x}
    ensures forall y :: y in rest ==> y == x || y in s[1..]
  {
    assert s == [s[0]] + s[1..];
    forall y | y in rest ensures y == x || y in s[1..] {
      assert y in multiset(rest);
    }
  }

  lemma {:induction false} InsertSorts<T(!new)>(leq: (T, T) -> bool, s: seq<T>, x: T)
    requires TotalPreorder(leq) && Sorted(leq, s)
    ensures multiset(Insert(leq, s, x)) == multiset(s) + multiset{x}
    ensures Sorted(leq, Insert(leq, s, x))
  {
    if s == [] {
      assert Insert(leq, s, x) == [x];
    } else if leq(x, s[0]) {
      LeastFirst(leq, x, s);
      SortedPrepend(leq, x, s);
    } else {
      assert leq(s[0], x);
      assert forall y :: y in s[1..] ==> leq(s[0], y);
      InsertSorts(leq, s[1..], x);
      var rest := Insert(leq, s[1..], x);
      hide Sorted, TotalPreorder;
      InsertedElements(s, x, rest);
      SortedPrepend(leq, s[0], rest);
    }
  }

  lemma {:induction false} SortBySorts<T(!new)>(leq: (T, T) -> bool, s: seq<T>)
    requires TotalPreorder(leq)
    ensures multiset(SortBy(leq, s)) == multiset(s)
    ensures Sorted(leq, SortBy(leq, s))
  {
    hide Insert, TotalPreorder;
    if s != [] {
      SortBySorts(leq, s[1..]);
      InsertSorts(leq, SortBy(leq, s[1..]), s[0]);
      assert s == [s[0]] + s[1..];
    }
  }

  /** Elements the order tells apart have only one sorted arrangement. */
  lemma {:induction false} SortedUnique<T(!new)>(leq: (T, T) -> bool, s: seq<T>, t: seq<T>)
    requires TotalPreorder(leq)
    requires multiset(s) == multiset(t) && Sorted(leq, s) && Sorted(leq, t)
    requires forall x, y :: x in s && y in s && leq(x, y) && leq(y, x) ==> x == y
    ensures s == t
    decreases |s|
  {
    SameElements(s, t);
    if s != [] {
      assert t[0] in s && s[0] in t;
      FirstIsLeast(leq, s, t[0]);
      FirstIsLeast(leq, t, s[0]);
      assert Sorted(leq, s[1..]) && Sorted(leq, t[1..]);
      hide Sorted, TotalPreorder;
      assert s == [s[0]] + s[1..] && t == [t[0]] + t[1..];
      SameRest(s[0], s[1..], t[1..]);
      SortedUnique(leq, s[1..], t[1..]);
    }
  }

  lemma SameRest<T>(x: T, s: seq<T>, t: seq<T>)
    requires multiset([x] + s) == multiset([x] + t)
    ensures multiset(s) == multiset(t)
  {
    assert multiset(s) == multiset([x] + s) - multiset{x};
    assert multiset(t) == multiset([x] + t) - multiset{x};
  }

  lemma FirstIsLeast<T(!new)>(leq: (T, T) -> bool, s: seq<T>, x: T)
    requires TotalPreorder(leq) && Sorted(leq, s) && x in s
    ensures leq(s[0], x)
  {
    assert leq(x, x);
  }

  // ---------------------------------------------------- images in sorted order

  /** `r` holds the images of the elements of `s`, each as often as there, in sorted order. */
  ghost predicate Arranged<A, B>(of: A -> B, leq: (B, B) -> bool, s: seq<A>, r: seq<B>) {
    multiset(r) == multiset(Map(of, s)) && Sorted(leq, r)
  }

  /** Images that the order tells apart have one arrangement, whatever the order of their elements. */
  lemma ArrangedOnce<A, B(!new)>(
    of: A -> B, leq: (B, B) -> bool, s: seq<A>, t: seq<A>, r: seq<B>, q: seq<B>)
    requires TotalPreorder(leq) && multiset(s) == multiset(t)
    requires Arranged(of, leq, s, r) && Arranged(of, leq, t, q)
    requires forall x, y :: x in s && y in s && leq(of(x), of(y)) && leq(of(y), of(x)) ==> of(x) == of(y)
    ensures r == q
  {
    ArrangedElements(of, leq, s, r);
    MapPermutes(of, s, t);
    hide Map, TotalPreorder, Sorted;
    forall a, b | a in r && b in r && leq(a, b) && leq(b, a) ensures a == b {
      var x :| x in s && of(x) == a;
      var y :| y in s && of(y) == b;
    }
    SortedUnique(leq, r, q);
  }

  lemma ArrangedElements<A, B>(of: A -> B, leq: (B, B) -> bool, s: seq<A>, r: seq<B>)
    requires Arranged(of, leq, s, r)
    ensures |r| == |s|
    ensures forall y :: y in r <==> exists x :: x in s && of(x) == y
  {
    hide Sorted, Map;
    SameElements(r, Map(of, s));
    forall y ensures y in r <==> exists x :: x in s && of(x) == y {
      MapMember(of, s, y);
    }
  }

  /** An arrangement holds only fixed points when taking the image twice changes nothing. */
  lemma ArrangedAgain<A>(of: A -> A, leq: (A, A) -> bool, s: seq<A>, r: seq<A>)
    requires Arranged(of, leq, s, r) && forall x :: x in s ==> of(of(x)) == of(x)
    ensures Map(of, r) == r
  {
    ArrangedElements(of, leq, s, r);
    forall i | 0 <= i < |r| ensures of(r[i]) == r[i] {
      assert r[i] in r;
      var x :| x in s && of(x) == r[i];
    }
  }
}

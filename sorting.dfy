/**
 * `[...xs].sort(cmp)` on a copy: a stable sort by a comparator. The model sorts
 * by insertion, which keeps equal elements in their original order, as
 * JavaScript's `Array.prototype.sort` does.
 */
module Sorting {

  /** Adjacent elements are in order. */
  predicate SortedBy<T>(s: seq<T>, le: (T, T) -> bool) {
    forall i :: 0 < i < |s| ==> le(s[i - 1], s[i])
  }

  /** Every pair of elements is in order. */
  predicate PairwiseSortedBy<T>(s: seq<T>, le: (T, T) -> bool) {
    forall i, j :: 0 <= i < j < |s| ==> le(s[i], s[j])
  }

  ghost predicate Total<T(!new)>(le: (T, T) -> bool) {
    forall a, b :: le(a, b) || le(b, a)
  }

  ghost predicate Transitive<T(!new)>(le: (T, T) -> bool) {
    forall a, b, c :: le(a, b) && le(b, c) ==> le(a, c)
  }

  /** Inserts `x` before the first element it is not after. */
  function Insert<T>(x: T, s: seq<T>, le: (T, T) -> bool): (r: seq<T>)
    ensures multiset(r) == multiset(s) + multiset{x}
    ensures |r| == |s| + 1
  {
    if s == [] then [x]
    else if le(x, s[0]) then [x] + s
    else
      assert s == [s[0]] + s[1..];
      [s[0]] + Insert(x, s[1..], le)
  }

  /** The sorted copy of `s`; `SortByStable` shows that ties keep their order. */
  function SortBy<T>(s: seq<T>, le: (T, T) -> bool): (r: seq<T>)
    ensures multiset(r) == multiset(s)
    ensures |r| == |s|
  {
    if s == [] then []
    else
      assert s == [s[0]] + s[1..];
      Insert(s[0], SortBy(s[1..], le), le)
  }

  lemma {:induction false} InsertSorted<T(!new)>(x: T, s: seq<T>, le: (T, T) -> bool)
    requires Total(le) && SortedBy(s, le)
    ensures SortedBy(Insert(x, s, le), le)
    ensures Insert(x, s, le)[0] == x || (s != [] && Insert(x, s, le)[0] == s[0])
  {
    if s != [] && !le(x, s[0]) {
      InsertSorted(x, s[1..], le);
      var t := Insert(x, s[1..], le);
      assert le(s[0], x);
      assert s[1..] != [] ==> le(s[0], s[1]);
    }
  }

  /** The copy is ordered, given a total comparator. */
  lemma {:induction false} SortBySorted<T(!new)>(s: seq<T>, le: (T, T) -> bool)
    requires Total(le)
    ensures SortedBy(SortBy(s, le), le)
  {
    if s != [] {
      SortBySorted(s[1..], le);
      InsertSorted(s[0], SortBy(s[1..], le), le);
    }
  }

  /** With a transitive comparator, adjacent order is order between every pair. */
  lemma {:induction false} AdjacentToPairwise<T(!new)>(s: seq<T>, le: (T, T) -> bool)
    requires Transitive(le) && SortedBy(s, le)
    ensures PairwiseSortedBy(s, le)
  {
    forall i, j | 0 <= i < j < |s| ensures le(s[i], s[j]) {
      var k := i + 1;
      while k < j
        invariant i < k <= j
        invariant le(s[i], s[k])
      {
        k := k + 1;
      }
    }
  }

  /** An already ordered sequence is its own sorted copy. */
  lemma {:induction false} SortByOfSorted<T>(s: seq<T>, le: (T, T) -> bool)
    requires SortedBy(s, le)
    ensures SortBy(s, le) == s
  {
    if s != [] {
      SortByOfSorted(s[1..], le);
      if |s| > 1 {
        assert le(s[0], s[1]);
      }
    }
  }
  // ---------------------------------------------------------------- stability

  /** Order passes through `x`: whatever is before `x` is before whatever is after it. */
  ghost predicate TransitiveThrough<T(!new)>(x: T, le: (T, T) -> bool) {
    forall a, c :: le(a, x) && le(x, c) ==> le(a, c)
  }

  /** `a` and `b` compare equal: each is in order before the other. */
  predicate Tied<T>(a: T, b: T, le: (T, T) -> bool) { le(a, b) && le(b, a) }

  /** The elements of `s` tied with `x`, in the order `s` has them. */
  function TiedWith<T>(s: seq<T>, x: T, le: (T, T) -> bool): (r: seq<T>)
    ensures |r| <= |s|
  {
    if s == [] then []
    else (if Tied(x, s[0], le) then [s[0]] else []) + TiedWith(s[1..], x, le)
  }

  lemma TiedWithCons<T>(a: T, s: seq<T>, x: T, le: (T, T) -> bool)
    ensures TiedWith([a] + s, x, le) == (if Tied(x, a, le) then [a] else []) + TiedWith(s, x, le)
  {
    assert ([a] + s)[1..] == s;
  }

  /** Inserting `y` moves it only past elements strictly before it, none of them tied with an element tied with `y`. */
  lemma {:induction false} InsertKeepsTies<T(!new)>(y: T, s: seq<T>, x: T, le: (T, T) -> bool)
    requires TransitiveThrough(x, le)
    ensures TiedWith(Insert(y, s, le), x, le) == TiedWith([y] + s, x, le)
  {
    if s != [] && !le(y, s[0]) {
      var rest := TiedWith(s[1..], x, le);
      var ta: seq<T> := if Tied(x, s[0], le) then [s[0]] else [];
      var tb: seq<T> := if Tied(x, y, le) then [y] else [];
      InsertKeepsTies(y, s[1..], x, le);
      TiedWithCons(y, s[1..], x, le);
      TiedWithPast(y, s, x, le);
      TiedWithCons(y, s, x, le);
      NotBothTied(y, s[0], x, le);
      SwapEmpty(ta, tb, rest);
    }
  }

  lemma TiedWithPast<T>(y: T, s: seq<T>, x: T, le: (T, T) -> bool)
    requires s != [] && !le(y, s[0])
    ensures TiedWith(Insert(y, s, le), x, le)
      == (if Tied(x, s[0], le) then [s[0]] else []) + TiedWith(Insert(y, s[1..], le), x, le)
  {
    TiedWithCons(s[0], Insert(y, s[1..], le), x, le);
  }

  lemma SwapEmpty<T>(a: seq<T>, b: seq<T>, c: seq<T>)
    requires a == [] || b == []
    ensures a + (b + c) == b + (a + c)
  {
    if a == [] {
      assert a + (b + c) == b + c == b + (a + c);
    } else {
      assert a + (b + c) == a + c == b + (a + c);
    }
  }

  /** An element strictly after `b` is not tied with anything `b` is tied with. */
  lemma NotBothTied<T(!new)>(a: T, b: T, x: T, le: (T, T) -> bool)
    requires TransitiveThrough(x, le) && !le(a, b)
    ensures !(Tied(x, a, le) && Tied(x, b, le))
  {
  }

  /** The sort is stable: elements that compare equal keep their relative order. */
  lemma {:induction false} SortByStable<T(!new)>(s: seq<T>, x: T, le: (T, T) -> bool)
    requires Transitive(le)
    ensures TiedWith(SortBy(s, le), x, le) == TiedWith(s, x, le)
  {
    if s != [] {
      SortByStable(s[1..], x, le);
      assert TransitiveThrough(x, le);
      InsertKeepsTies(s[0], SortBy(s[1..], le), x, le);
      TiedWithCons(s[0], SortBy(s[1..], le), x, le);
      assert s == [s[0]] + s[1..];
      TiedWithCons(s[0], s[1..], x, le);
    }
  }
}

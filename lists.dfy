/**
 * The array operations the core builds on: `Array.prototype.filter`, the
 * `find` by predicate, and the stable `Array.prototype.sort` that ECMA-262
 * requires (section 23.1.3.30 of the 2023 edition), here as an insertion sort
 * over a "goes no later than" relation.
 */
module Lists {

  /** `s.filter(p)`: the elements satisfying `p`, each as often as in `s`. */
  function Filter<T(!new)>(s: seq<T>, p: T -> bool): (r: seq<T>)
    ensures |r| <= |s|
    ensures forall i :: 0 <= i < |r| ==> p(r[i])
    ensures forall x :: multiset(r)[x] == if p(x) then multiset(s)[x] else 0
  {
    if s == [] then []
    else
      var rest := Filter(s[1..], p);
      assert s == [s[0]] + s[1..];
      if p(s[0]) then [s[0]] + rest else rest
  }

  /** What a filter keeps was in the list and passes the test. */
  lemma FilterMember<T(!new)>(s: seq<T>, p: T -> bool, x: T)
    requires x in Filter(s, p)
    ensures x in s && p(x)
  {
    assert multiset(Filter(s, p))[x] > 0;
  }

  /** `r` can be obtained from `s` by deleting elements, keeping the order of the rest. */
  ghost predicate IsSubsequence<T>(r: seq<T>, s: seq<T>) {
    if r == [] then true
    else if s == [] then false
    else if r[0] == s[0] then IsSubsequence(r[1..], s[1..])
    else IsSubsequence(r, s[1..])
  }

  lemma {:induction false} SubsequenceOfTail<T>(r: seq<T>, s: seq<T>)
    requires s != [] && IsSubsequence(r, s[1..])
    ensures IsSubsequence(r, s)
    decreases |s|, 1
  {
    if r != [] && r[0] == s[0] {
      SubsequenceDropHead(r, s[1..]);
    }
  }

  lemma {:induction false} SubsequenceDropHead<T>(r: seq<T>, t: seq<T>)
    requires r != [] && IsSubsequence(r, t)
    ensures IsSubsequence(r[1..], t)
    decreases |t|, 2
  {
    if r[0] == t[0] {
      SubsequenceOfTail(r[1..], t);
    } else {
      SubsequenceDropHead(r, t[1..]);
      SubsequenceOfTail(r[1..], t);
    }
  }

  /** Filtering only removes: what is left is in the input's order. */
  lemma {:induction false} FilterIsSubsequence<T(!new)>(s: seq<T>, p: T -> bool)
    ensures IsSubsequence(Filter(s, p), s)
  {
    if s != [] {
      FilterIsSubsequence(s[1..], p);
      if !p(s[0]) {
        SubsequenceOfTail(Filter(s, p), s);
      }
    }
  }

  /** Filtering by `p` and then by `q` is filtering by both at once (`both`). */
  lemma {:induction false} FilterFilter<T(!new)>(s: seq<T>, p: T -> bool, q: T -> bool, both: T -> bool)
    requires forall x :: both(x) == (p(x) && q(x))
    ensures Filter(Filter(s, p), q) == Filter(s, both)
  {
    if s != [] {
      FilterFilter(s[1..], p, q, both);
    }
  }

  /** A filter that every element passes keeps the whole sequence. */
  lemma {:induction false} FilterKeepsAll<T(!new)>(s: seq<T>, p: T -> bool)
    requires forall i :: 0 <= i < |s| ==> p(s[i])
    ensures Filter(s, p) == s
  {
    if s != [] {
      FilterKeepsAll(s[1..], p);
      assert s == [s[0]] + s[1..];
    }
  }

  /** Counts over disjoint predicates add up to the count over their union (`either`). */
  lemma {:induction false} FilterCountDisjoint<T(!new)>(s: seq<T>, p: T -> bool, q: T -> bool, either: T -> bool)
    requires forall x :: either(x) == (p(x) || q(x))
    requires forall i :: 0 <= i < |s| ==> !(p(s[i]) && q(s[i]))
    ensures |Filter(s, p)| + |Filter(s, q)| == |Filter(s, either)|
  {
    if s != [] {
      FilterCountDisjoint(s[1..], p, q, either);
    }
  }

  /** `le` is total and transitive: a comparator that never returns inconsistent answers. */
  ghost predicate TotalPreorder<T(!new)>(le: (T, T) -> bool) {
    && (forall a, b :: le(a, b) || le(b, a))
    && (forall a, b, c :: le(a, b) && le(b, c) ==> le(a, c))
  }

  ghost predicate SortedBy<T>(s: seq<T>, le: (T, T) -> bool) {
    forall i, j :: 0 <= i < j < |s| ==> le(s[i], s[j])
  }

  /** Places `x` before the first element it may go no later than. */
  function Insert<T>(x: T, s: seq<T>, le: (T, T) -> bool): (r: seq<T>)
    ensures multiset(r) == multiset(s) + multiset{x}
  {
    if s == [] || le(x, s[0]) then [x] + s
    else
      assert s == [s[0]] + s[1..];
      [s[0]] + Insert(x, s[1..], le)
  }

  /**
   * The stable sort: `x` goes ahead of `y` when `le(x, y)` and `x` came first,
   * or when `le(x, y)` and not `le(y, x)`.
   */
  function Sort<T>(s: seq<T>, le: (T, T) -> bool): (r: seq<T>)
    ensures multiset(r) == multiset(s)
    ensures |r| == |s|
  {
    if s == [] then []
    else
      assert s == [s[0]] + s[1..];
      Insert(s[0], Sort(s[1..], le), le)
  }

  lemma {:induction false} InsertSorted<T(!new)>(x: T, s: seq<T>, le: (T, T) -> bool)
    requires TotalPreorder(le) && SortedBy(s, le)
    ensures SortedBy(Insert(x, s, le), le)
  {
    if s != [] && !le(x, s[0]) {
      InsertSorted(x, s[1..], le);
      var r := Insert(x, s, le);
      var t := Insert(x, s[1..], le);
      forall j | 0 < j < |r| ensures le(s[0], r[j]) {
        assert r[j] in multiset(t);
      }
    }
  }

  /** The sorted output is ordered by the comparator. */
  lemma {:induction false} SortSorted<T(!new)>(s: seq<T>, le: (T, T) -> bool)
    requires TotalPreorder(le)
    ensures SortedBy(Sort(s, le), le)
  {
    if s != [] {
      SortSorted(s[1..], le);
      InsertSorted(s[0], Sort(s[1..], le), le);
    }
  }

  /** `x` and `k` compare equal: neither goes before the other. */
  predicate Tied<T>(le: (T, T) -> bool, x: T, k: T) {
    le(x, k) && le(k, x)
  }

  /** The test "ties with `k`", as a filter predicate. */
  function TiedWith<T>(le: (T, T) -> bool, k: T): T -> bool {
    y => Tied(le, y, k)
  }

  lemma FilterCons<T(!new)>(x: T, t: seq<T>, p: T -> bool)
    ensures Filter([x] + t, p) == (if p(x) then [x] else []) + Filter(t, p)
  {
    assert ([x] + t)[1..] == t;
  }

  /** Under a total preorder, anything tied with `k` goes no later than everything else tied with it. */
  lemma TiedTransitive<T(!new)>(le: (T, T) -> bool, x: T, k: T)
    requires TotalPreorder(le)
    ensures forall y :: Tied(le, x, k) && Tied(le, y, k) ==> le(x, y)
  {
  }

  lemma {:induction false} InsertStable<T(!new)>(x: T, s: seq<T>, le: (T, T) -> bool, k: T)
    requires forall y :: Tied(le, x, k) && Tied(le, y, k) ==> le(x, y)
    ensures Filter(Insert(x, s, le), TiedWith(le, k))
         == (if Tied(le, x, k) then [x] else []) + Filter(s, TiedWith(le, k))
  {
    var p := TiedWith(le, k);
    if s == [] || le(x, s[0]) {
      FilterCons(x, s, p);
    } else {
      var t := Insert(x, s[1..], le);
      var rest := Filter(s[1..], p);
      assert Insert(x, s, le) == [s[0]] + t;
      InsertStable(x, s[1..], le, k);
      FilterCons(s[0], t, p);
      assert Filter(s, p) == (if p(s[0]) then [s[0]] else []) + rest;
      if p(x) {
        assert !p(s[0]);
        assert Filter(s, p) == rest;
      } else {
        assert Filter(t, p) == rest;
      }
    }
  }

  /** Stability: the elements that tie with any `k` come out in their input order. */
  lemma {:induction false} SortStable<T(!new)>(s: seq<T>, le: (T, T) -> bool, k: T)
    requires TotalPreorder(le)
    ensures Filter(Sort(s, le), TiedWith(le, k)) == Filter(s, TiedWith(le, k))
  {
    if s != [] {
      SortStable(s[1..], le, k);
      TiedTransitive(le, s[0], k);
      InsertStable(s[0], Sort(s[1..], le), le, k);
      FilterCons(s[0], s[1..], TiedWith(le, k));
      assert s == [s[0]] + s[1..];
    }
  }
}

/** The array operations the source leans on (`filter`, `map`, `findIndex`,
    `splice`, `Math.max(...ids)`), stated once over sequences and reused by
    every store and page of the model. */
module Lists {

  /** `s.filter(p)`. */
  function Filter<T>(s: seq<T>, p: T -> bool): (r: seq<T>)
    ensures |r| <= |s|
    ensures forall i :: 0 <= i < |r| ==> r[i] in s && p(r[i])
    ensures forall i :: 0 <= i < |s| && p(s[i]) ==> s[i] in r
  {
    if s == [] then [] else (if p(s[0]) then [s[0]] else []) + Filter(s[1..], p)
  }

  /** `s.filter(p).length`. */
  function Count<T>(s: seq<T>, p: T -> bool): nat {
    |Filter(s, p)|
  }

  /** `r` is `s` with some elements left out and the rest in their order. */
  ghost predicate Subsequence<T>(r: seq<T>, s: seq<T>)
    decreases |s|
  {
    r == [] || (s != [] && ((r[0] == s[0] && Subsequence(r[1..], s[1..])) || Subsequence(r, s[1..])))
  }

  /** Filtering keeps the surviving elements in their original relative order. */
  lemma {:induction false} FilterIsSubsequence<T>(s: seq<T>, p: T -> bool)
    ensures Subsequence(Filter(s, p), s)
  {
    if s != [] {
      FilterIsSubsequence(s[1..], p);
      var r := Filter(s, p);
      if p(s[0]) {
        assert r == [s[0]] + Filter(s[1..], p);
        assert r[0] == s[0] && r[1..] == Filter(s[1..], p);
      } else {
        assert r == Filter(s[1..], p);
      }
    }
  }

  /** `r` holds exactly the elements of `s` that `p` accepts, in their order in `s`. */
  ghost predicate Selects<T>(r: seq<T>, s: seq<T>, p: T -> bool) {
    && Subsequence(r, s)
    && (forall i :: 0 <= i < |r| ==> p(r[i]))
    && (forall i :: 0 <= i < |s| && p(s[i]) ==> s[i] in r)
  }

  lemma FilterSelects<T>(s: seq<T>, p: T -> bool)
    ensures Selects(Filter(s, p), s, p)
  {
    FilterIsSubsequence(s, p);
  }

  /** Filtering twice keeps what both predicates accept. */
  lemma {:induction false} FilterFilter<T>(s: seq<T>, p: T -> bool, q: T -> bool, pq: T -> bool)
    requires forall i :: 0 <= i < |s| ==> pq(s[i]) == (p(s[i]) && q(s[i]))
    ensures Filter(Filter(s, p), q) == Filter(s, pq)
  {
    if s != [] {
      assert forall i :: 0 <= i < |s[1..]| ==> s[1..][i] == s[i + 1];
      FilterFilter(s[1..], p, q, pq);
      assert pq(s[0]) == (p(s[0]) && q(s[0]));
      if p(s[0]) {
        calc {
          Filter(Filter(s, p), q);
          Filter([s[0]] + Filter(s[1..], p), q);
          { FilterConcat([s[0]], Filter(s[1..], p), q); }
          Filter([s[0]], q) + Filter(Filter(s[1..], p), q);
          { FilterOne(s[0], q); }
          (if q(s[0]) then [s[0]] else []) + Filter(s[1..], pq);
          Filter(s, pq);
        }
      } else {
        assert Filter(s, p) == Filter(s[1..], p);
      }
    }
  }

  /** A filter no element passes returns nothing. */
  lemma FilterKeepsNone<T>(s: seq<T>, p: T -> bool)
    requires forall i :: 0 <= i < |s| ==> !p(s[i])
    ensures Filter(s, p) == []
  {
  }

  lemma {:induction false} FilterConcat<T>(a: seq<T>, b: seq<T>, p: T -> bool)
    ensures Filter(a + b, p) == Filter(a, p) + Filter(b, p)
  {
    if a == [] {
      assert a + b == b;
    } else {
      var head := if p(a[0]) then [a[0]] else [];
      calc {
        Filter(a + b, p);
        { assert (a + b)[0] == a[0] && (a + b)[1..] == a[1..] + b; }
        head + Filter(a[1..] + b, p);
        { FilterConcat(a[1..], b, p); }
        head + (Filter(a[1..], p) + Filter(b, p));
        (head + Filter(a[1..], p)) + Filter(b, p);
        Filter(a, p) + Filter(b, p);
      }
    }
  }

  /** Filtering a one-element sequence. */
  lemma FilterOne<T>(x: T, p: T -> bool)
    ensures Filter([x], p) == if p(x) then [x] else []
  {
    assert [x][1..] == [];
  }

  /** A filter every element passes returns the whole sequence. */
  lemma {:induction false} FilterKeepsAll<T>(s: seq<T>, p: T -> bool)
    requires forall i :: 0 <= i < |s| ==> p(s[i])
    ensures Filter(s, p) == s
  {
    if s != [] {
      FilterKeepsAll(s[1..], p);
    }
  }

  /** A predicate and its negation split a sequence into two parts whose sizes add up. */
  lemma {:induction false} FilterComplementSizes<T>(s: seq<T>, p: T -> bool, q: T -> bool)
    requires forall i :: 0 <= i < |s| ==> q(s[i]) == !p(s[i])
    ensures Count(s, p) + Count(s, q) == |s|
  {
    if s != [] {
      FilterComplementSizes(s[1..], p, q);
    }
  }

  /** `s.map(x => p(x) ? f(x) : x)`: the elements `p` picks are rewritten by `f`. */
  function MapWhere<T>(s: seq<T>, p: T -> bool, f: T -> T): (r: seq<T>)
    ensures |r| == |s|
    ensures forall i :: 0 <= i < |s| ==> r[i] == if p(s[i]) then f(s[i]) else s[i]
  {
    if s == [] then [] else [if p(s[0]) then f(s[0]) else s[0]] + MapWhere(s[1..], p, f)
  }

  /** `s.findIndex(p)`: the first position `p` accepts, or -1. */
  function FindIndex<T>(s: seq<T>, p: T -> bool): (r: int)
    ensures -1 <= r < |s|
    ensures 0 <= r ==> p(s[r])
    ensures forall j :: 0 <= j < |s| && (r == -1 || j < r) ==> !p(s[j])
  {
    if s == [] then -1
    else if p(s[0]) then 0
    else var k := FindIndex(s[1..], p); if k == -1 then -1 else k + 1
  }

  /** `s.splice(i, 1)` on a valid position: the element at `i` leaves, the rest close up. */
  function RemoveAt<T>(s: seq<T>, i: nat): (r: seq<T>)
    requires i < |s|
    ensures |r| == |s| - 1
    ensures forall j :: 0 <= j < i ==> r[j] == s[j]
    ensures forall j :: i <= j < |r| ==> r[j] == s[j + 1]
  {
    s[..i] + s[i + 1..]
  }

  /** `s.splice(i, 0, x)` on a valid position: `x` enters at `i`, later elements move up. */
  function InsertAt<T>(s: seq<T>, i: nat, x: T): (r: seq<T>)
    requires i <= |s|
    ensures |r| == |s| + 1 && r[i] == x
    ensures forall j :: 0 <= j < i ==> r[j] == s[j]
    ensures forall j :: i < j < |r| ==> r[j] == s[j - 1]
  {
    s[..i] + [x] + s[i..]
  }

  /** `xs.map(f)`. */
  function Project<T, U>(s: seq<T>, f: T -> U): (r: seq<U>)
    ensures |r| == |s|
    ensures forall i :: 0 <= i < |s| ==> r[i] == f(s[i])
  {
    if s == [] then [] else [f(s[0])] + Project(s[1..], f)
  }

  /** `Math.max(base, ...xs)`. */
  function MaxFrom(base: int, xs: seq<int>): (r: int)
    decreases |xs|
    ensures base <= r
    ensures forall i :: 0 <= i < |xs| ==> xs[i] <= r
    ensures r == base || r in xs
  {
    if xs == [] then base
    else MaxFrom(if xs[0] > base then xs[0] else base, xs[1..])
  }
}

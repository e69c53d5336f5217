/** Vocabulary shared by every component: options, duplicate-free lists, sorting, and the
    "best k" specification that all the bounded queries refine. */
module Collections {

  datatype Option<+T> = None | Some(value: T) {
    function GetOr(default: T): T {
      match this
      case Some(v) => v
      case None => default
    }
  }

  function Lookup<K, V>(m: map<K, V>, k: K): Option<V> {
    if k in m then Some(m[k]) else None
  }

  ghost predicate NoDup<T>(s: seq<T>) {
    forall i, j :: 0 <= i < j < |s| ==> s[i] != s[j]
  }

  function Range<T>(s: seq<T>): set<T> {
    set x | x in s
  }

  /** `needle` occurs in `hay`. */
  predicate Contains<T(==)>(hay: seq<T>, needle: seq<T>) {
    exists i :: 0 <= i <= |hay| && needle <= hay[i..]
  }

  lemma RangeAppend<T>(s: seq<T>, t: seq<T>)
    ensures Range(s + t) == Range(s) + Range(t)
  {
    forall x ensures x in Range(s + t) <==> x in Range(s) + Range(t) {}
  }

  lemma RangeEmpty<T>(s: seq<T>)
    ensures Range(s) == {} <==> s == []
  {
    assert s == [] || s[0] in Range(s);
  }

  lemma NoDupAppend<T>(s: seq<T>, t: seq<T>)
    requires NoDup(s) && NoDup(t) && Range(s) !! Range(t)
    ensures NoDup(s + t)
  {
    forall i, j | 0 <= i < j < |s + t| ensures (s + t)[i] != (s + t)[j] {
      if i < |s| <= j {
        assert s[i] in Range(s) && t[j - |s|] in Range(t);
      }
    }
  }

  function Filter<T>(s: seq<T>, p: T -> bool): (r: seq<T>)
    ensures forall x :: x in r ==> x in s && p(x)
    ensures forall x :: x in s && p(x) ==> x in r
    ensures |r| <= |s|
  {
    if s == [] then []
    else (if p(s[0]) then [s[0]] else []) + Filter(s[1..], p)
  }

  lemma FilterFirst<T>(x: T, s: seq<T>, p: T -> bool)
    ensures Filter([x] + s, p) == if p(x) then [x] + Filter(s, p) else Filter(s, p)
  {
    assert ([x] + s)[1..] == s;
  }

  lemma {:induction false} FilterAppend<T>(s: seq<T>, t: seq<T>, p: T -> bool)
    ensures Filter(s + t, p) == Filter(s, p) + Filter(t, p)
  {
    if s == [] {
      assert s + t == t;
    } else {
      assert (s + t)[1..] == s[1..] + t;
      FilterAppend(s[1..], t, p);
    }
  }

  lemma {:induction false} FilterNoDup<T>(s: seq<T>, p: T -> bool)
    requires NoDup(s)
    ensures NoDup(Filter(s, p))
  {
    if s != [] {
      FilterNoDup(s[1..], p);
      if p(s[0]) {
        assert s[0] !in s[1..];
        NoDupAppend([s[0]], Filter(s[1..], p));
      }
    }
  }

  lemma {:induction false} FilterMultiset<T>(s: seq<T>, p: T -> bool)
    ensures forall x :: multiset(Filter(s, p))[x] == if p(x) then multiset(s)[x] else 0
  {
    if s != [] {
      FilterMultiset(s[1..], p);
      assert s == [s[0]] + s[1..];
    }
  }

  lemma FilterNone<T>(s: seq<T>, p: T -> bool)
    requires forall x :: x in s ==> !p(x)
    ensures Filter(s, p) == []
  {}

  function Map<A, B>(s: seq<A>, f: A -> B): (r: seq<B>)
    ensures |r| == |s| && forall i :: 0 <= i < |s| ==> r[i] == f(s[i])
  {
    seq(|s|, i requires 0 <= i < |s| => f(s[i]))
  }

  lemma MapAppend<A, B>(s: seq<A>, t: seq<A>, f: A -> B)
    ensures Map(s + t, f) == Map(s, f) + Map(t, f)
  {}

  // ---------------------------------------------------------------- sorting

  ghost predicate Preorder<T(!new)>(le: (T, T) -> bool) {
    && (forall x, y :: le(x, y) || le(y, x))
    && (forall x, y, z :: le(x, y) && le(y, z) ==> le(x, z))
  }

  ghost predicate Sorted<T>(s: seq<T>, le: (T, T) -> bool) {
    forall i, j :: 0 <= i < j < |s| ==> le(s[i], s[j])
  }

  function Insert<T>(x: T, s: seq<T>, le: (T, T) -> bool): (r: seq<T>)
    ensures multiset(r) == multiset([x]) + multiset(s)
  {
    if s == [] || le(x, s[0]) then [x] + s
    else assert s == [s[0]] + s[1..]; [s[0]] + Insert(x, s[1..], le)
  }

  /** The result of a stable `sort_by`: equal elements keep their order. */
  function StableSort<T>(s: seq<T>, le: (T, T) -> bool): (r: seq<T>)
    ensures multiset(r) == multiset(s) && |r| == |s|
  {
    if s == [] then []
    else
      assert s == [s[0]] + s[1..];
      var r := Insert(s[0], StableSort(s[1..], le), le);
      assert |multiset(r)| == |r| && |multiset(s)| == |s|;
      r
  }

  lemma SameMembers<T>(s: seq<T>, t: seq<T>)
    requires multiset(s) == multiset(t)
    ensures forall x :: x in s <==> x in t
  {
    forall x ensures x in s <==> x in t {
      assert x in s <==> x in multiset(s);
      assert x in t <==> x in multiset(t);
    }
  }

  lemma NoDupMultiset<T>(s: seq<T>)
    requires NoDup(s)
    ensures forall x :: multiset(s)[x] <= 1
  {
    if s != [] {
      assert s == [s[0]] + s[1..];
      NoDupMultiset(s[1..]);
      assert s[0] !in s[1..];
    }
  }

  lemma MultisetNoDup<T>(s: seq<T>)
    requires forall x :: multiset(s)[x] <= 1
    ensures NoDup(s)
  {
    forall i, j | 0 <= i < j < |s| ensures s[i] != s[j] {
      var t := s[i + 1..];
      assert s == s[..i] + [s[i]] + t;
      assert t[j - i - 1] == s[j];
      assert multiset(s)[s[i]] == multiset(s[..i])[s[i]] + 1 + multiset(t)[s[i]];
    }
  }

  lemma {:induction false} InsertSorted<T(!new)>(x: T, s: seq<T>, le: (T, T) -> bool)
    requires Preorder(le) && Sorted(s, le)
    ensures Sorted(Insert(x, s, le), le)
  {
    if s == [] || le(x, s[0]) {
    } else {
      InsertSorted(x, s[1..], le);
      var r := Insert(x, s[1..], le);
      assert multiset(r) == multiset([x] + s[1..]);
      SameMembers(r, [x] + s[1..]);
      forall y | y in r ensures le(s[0], y) {
        assert y in [x] + s[1..];
      }
    }
  }

  lemma {:induction false} StableSortSorted<T(!new)>(s: seq<T>, le: (T, T) -> bool)
    requires Preorder(le)
    ensures Sorted(StableSort(s, le), le)
  {
    if s != [] {
      StableSortSorted(s[1..], le);
      InsertSorted(s[0], StableSort(s[1..], le), le);
    }
  }

  /** `sort_unstable_by`: only order and content are promised. */
  method SortUnstable<T(!new)>(s: seq<T>, le: (T, T) -> bool) returns (r: seq<T>)
    requires Preorder(le)
    ensures multiset(r) == multiset(s) && |r| == |s| && Sorted(r, le)
  {
    StableSortSorted(s, le);
    r := StableSort(s, le);
  }

  lemma TakeOut<A>(a: seq<A>, x: A, b: seq<A>)
    ensures multiset(a + [x] + b) == multiset(a + b) + multiset{x}
  {}

  lemma SameRest<A>(m: multiset<A>, n: multiset<A>, x: A)
    requires m + multiset{x} == n + multiset{x}
    ensures m == n
  {
    assert m == m + multiset{x} - multiset{x} && n == n + multiset{x} - multiset{x};
  }

  // ---------------------------------------------------------------- best k

  /** `r` lists, best first, `k` best elements of `pool` (all of it when it has fewer):
      nothing left out is strictly better than anything listed. */
  ghost predicate BestK<T(!new)>(r: seq<T>, pool: multiset<T>, le: (T, T) -> bool, k: nat) {
    && multiset(r) <= pool
    && |r| == (if k <= |pool| then k else |pool|)
    && Sorted(r, le)
    && forall x, y :: x in r && y in pool - multiset(r) ==> le(x, y)
  }

  lemma TakeIsBestK<T(!new)>(s: seq<T>, le: (T, T) -> bool, k: nat)
    requires Sorted(s, le)
    ensures BestK(s[..if k <= |s| then k else |s|], multiset(s), le, k)
  {
    var n := if k <= |s| then k else |s|;
    assert s == s[..n] + s[n..];
    SplitIsBestK(s[..n], s[n..], le);
  }

  lemma SplitIsBestK<T(!new)>(t: seq<T>, u: seq<T>, le: (T, T) -> bool)
    requires Sorted(t + u, le)
    ensures multiset(t + u) - multiset(t) == multiset(u)
    ensures Sorted(t, le) && forall x, y :: x in t && y in multiset(u) ==> le(x, y)
    ensures |multiset(t + u)| == |t| + |u|
  {
    forall i, j | 0 <= i < j < |t| ensures le(t[i], t[j]) {
      assert le((t + u)[i], (t + u)[j]);
    }
    forall i, j | 0 <= i < |t| && 0 <= j < |u| ensures le(t[i], u[j]) {
      assert le((t + u)[i], (t + u)[|t| + j]);
    }
    assert |multiset(t + u)| == |t + u|;
  }

  /** The elements of a multiset that satisfy `p`, with their multiplicities. */
  ghost function Where<T(!new)>(m: multiset<T>, p: T -> bool): (r: multiset<T>)
    ensures forall x :: r[x] == if p(x) then m[x] else 0
    decreases |m|
  {
    if m == multiset{} then m
    else
      var x :| x in m;
      (if p(x) then multiset{x} else multiset{}) + Where(m - multiset{x}, p)
  }

  lemma WhereAdd<T(!new)>(m: multiset<T>, x: T, p: T -> bool)
    ensures Where(m + multiset{x}, p) == if p(x) then Where(m, p) + multiset{x} else Where(m, p)
  {}

  lemma FilterIsWhere<T(!new)>(s: seq<T>, p: T -> bool)
    ensures multiset(Filter(s, p)) == Where(multiset(s), p)
  {
    FilterMultiset(s, p);
  }

  lemma WhereTwice<T(!new)>(m: multiset<T>, p: T -> bool, q: T -> bool)
    requires forall x :: x in m && q(x) ==> p(x)
    ensures Where(Where(m, p), q) == Where(m, q)
  {}
}

/** Stop-name search and the grouping of its answer by name (crates/gtfs/src/stops.rs,
    crates/api/src/legacy.rs). */
module StopSearch {
  import opened Collections
  import opened Gtfs
  import opened StopGrid

  // ---------------------------------------------------------------- text

  /** Lexicographic order of strings. */
  predicate TextLe(a: string, b: string) {
    a == "" || (b != "" && (a[0] < b[0] || (a[0] == b[0] && TextLe(a[1..], b[1..]))))
  }

  lemma {:induction false} TextTotal(a: string, b: string)
    ensures TextLe(a, b) || TextLe(b, a)
    ensures TextLe(a, b) && TextLe(b, a) ==> a == b
  {
    if a != "" && b != "" {
      TextTotal(a[1..], b[1..]);
      assert a == [a[0]] + a[1..] && b == [b[0]] + b[1..];
    }
  }

  lemma {:induction false} TextTransitive(a: string, b: string, c: string)
    requires TextLe(a, b) && TextLe(b, c)
    ensures TextLe(a, c)
  {
    if a != "" && b != "" && c != "" && a[0] == b[0] == c[0] {
      TextTransitive(a[1..], b[1..], c[1..]);
    }
  }

  // ---------------------------------------------------------------- order of names and hits

  /** Sort key: prefix matches first, then by name, then by id. */
  datatype Key = Key(late: bool, name: string, id: string)

  predicate KeyLe(a: Key, b: Key) {
    if a.late != b.late then b.late
    else if a.name != b.name then TextLe(a.name, b.name)
    else TextLe(a.id, b.id)
  }

  lemma KeysOrdered()
    ensures Preorder(KeyLe)
    ensures forall a, b :: KeyLe(a, b) && KeyLe(b, a) ==> a == b
  {
    forall a, b ensures KeyLe(a, b) || KeyLe(b, a)
      ensures KeyLe(a, b) && KeyLe(b, a) ==> a == b
    {
      TextTotal(a.name, b.name);
      TextTotal(a.id, b.id);
    }
    forall a, b, c | KeyLe(a, b) && KeyLe(b, c) ensures KeyLe(a, c) {
      KeyTransitive(a, b, c);
    }
  }

  lemma KeyTransitive(a: Key, b: Key, c: Key)
    requires KeyLe(a, b) && KeyLe(b, c)
    ensures KeyLe(a, c)
  {
    if a.late == b.late == c.late {
      if a.name == b.name == c.name {
        TextTransitive(a.id, b.id, c.id);
      } else if a.name != b.name && b.name != c.name {
        TextTransitive(a.name, b.name, c.name);
        TextTotal(a.name, b.name);
      }
    }
  }

  predicate Late(q: string, lower: string -> string, name: string) {
    !(q <= lower(name))
  }

  function NameKey(q: string, lower: string -> string, name: string): Key {
    Key(Late(q, lower, name), name, "")
  }

  function HitKey(q: string, lower: string -> string, s: StopInfo): Key {
    Key(Late(q, lower, s.name), s.name, s.stopId)
  }

  // ---------------------------------------------------------------- what a search should find

  /** The names carried by a quay and containing the query. */
  ghost function Matching(stops: Stops, lower: string -> string, q: string): set<string> {
    set id | id in stops && stops[id].IsQuay() && Contains(lower(stops[id].name), q) :: stops[id].name
  }

  ghost function Preceding(names: set<string>, q: string, lower: string -> string, name: string): set<string> {
    set n | n in names && n != name && KeyLe(NameKey(q, lower, n), NameKey(q, lower, name))
  }

  /** Among the `limit` first matching names. */
  ghost predicate Picked(stops: Stops, lower: string -> string, q: string, limit: nat, name: string) {
    var names := Matching(stops, lower, q);
    name in names && |Preceding(names, q, lower, name)| < limit
  }

  predicate QuayOf(stops: Stops, s: StopInfo) {
    s.stopId in stops && stops[s.stopId] == s && s.IsQuay()
  }

  /** Every quay with a picked name, once, in order of (not a prefix match, name, id). */
  ghost predicate Found(r: seq<StopInfo>, stops: Stops, lower: string -> string, q: string, limit: nat) {
    && NoDup(r)
    && (forall s :: s in r <==> QuayOf(stops, s) && Picked(stops, lower, q, limit, s.name))
    && forall i, j :: 0 <= i < j < |r| ==> KeyLe(HitKey(q, lower, r[i]), HitKey(q, lower, r[j]))
  }

  // ---------------------------------------------------------------- the search

  method Search(g: Grid, stops: Stops, ghost lower: string -> string, q: string, limit: nat) returns (r: seq<StopInfo>)
    requires Filed(stops) && GridOk(g, stops, lower)
    ensures q == "" ==> r == []
    ensures q != "" ==> Found(r, stops, lower, q, limit)
  {
    if q == "" {
      return [];
    }
    var names := PickNames(g, stops, lower, q, limit);
    r := HitsNamed(g, stops, lower, q, names);
  }

  // Some slot before `i` carries this matching name.
  ghost predicate SeenAt(g: Grid, stops: Stops, q: string, i: nat, name: string) {
    exists j :: 0 <= j < i <= |g.slots| && g.slots[j].0 in stops && Contains(g.slots[j].1, q) && stops[g.slots[j].0].name == name
  }

  /** The distinct matching names, ranked and capped. */
  method PickNames(g: Grid, stops: Stops, ghost lower: string -> string, q: string, limit: nat) returns (keep: set<string>)
    requires Filed(stops) && GridOk(g, stops, lower)
    ensures forall n :: n in keep <==> Picked(stops, lower, q, limit, n)
  {
    var names: seq<Key> := [];
    var seen: set<string> := {};
    for i := 0 to |g.slots|
      invariant forall n :: n in seen <==> SeenAt(g, stops, q, i, n)
      invariant Ranked(names, seen, q, lower)
    {
      hide Contains, GridOk;
      var (id, low) := g.slots[i];
      SeenNext(g, stops, q, i);
      if Contains(low, q) && stops[id].name !in seen {
        seen := seen + {stops[id].name};
        names := names + [Key(!(q <= low), stops[id].name, "")];
      }
      hide SeenAt;
    }
    SeenAll(g, stops, lower, q);
    assert seen == Matching(stops, lower, q);
    keep := FirstNames(names, seen, q, lower, limit);
  }

  ghost predicate Ranked(names: seq<Key>, seen: set<string>, q: string, lower: string -> string) {
    && NoDup(names)
    && (forall n :: n in seen ==> NameKey(q, lower, n) in names)
    && (forall e :: e in names ==> e.name in seen && e == NameKey(q, lower, e.name))
  }

  method FirstNames(names: seq<Key>, ghost seen: set<string>, ghost q: string, ghost lower: string -> string, limit: nat) returns (keep: set<string>)
    requires Ranked(names, seen, q, lower)
    ensures forall n :: n in keep <==> n in seen && |Preceding(seen, q, lower, n)| < limit
  {
    KeysOrdered();
    hide KeyLe, Late;
    var sorted := StableSort(names, KeyLe);
    StableSortSorted(names, KeyLe);
    NoDupMultiset(names);
    MultisetNoDup(sorted);
    SameMembers(sorted, names);
    RankIsIndex(sorted, seen, q, lower, limit);
    var kept := sorted[..if limit <= |sorted| then limit else |sorted|];
    keep := set e | e in kept :: e.name;
  }

  lemma SeenNext(g: Grid, stops: Stops, q: string, i: nat)
    requires i < |g.slots| && g.slots[i].0 in stops
    ensures forall n :: SeenAt(g, stops, q, i + 1, n) <==>
      SeenAt(g, stops, q, i, n) || (Contains(g.slots[i].1, q) && stops[g.slots[i].0].name == n)
  {
    forall n | SeenAt(g, stops, q, i, n) ensures SeenAt(g, stops, q, i + 1, n) {
      var j :| 0 <= j < i <= |g.slots| && g.slots[j].0 in stops && Contains(g.slots[j].1, q) && stops[g.slots[j].0].name == n;
    }
  }

  lemma SeenAll(g: Grid, stops: Stops, lower: string -> string, q: string)
    requires GridOk(g, stops, lower)
    ensures forall n :: SeenAt(g, stops, q, |g.slots|, n) <==> n in Matching(stops, lower, q)
  {
    forall n | n in Matching(stops, lower, q) ensures SeenAt(g, stops, q, |g.slots|, n) {
      var id :| id in stops && stops[id].IsQuay() && Contains(lower(stops[id].name), q) && stops[id].name == n;
      var i :| 0 <= i < |g.slots| && g.slots[i].0 == id;
      assert g.slots[i].1 == lower(stops[id].name);
    }
    forall n | SeenAt(g, stops, q, |g.slots|, n) ensures n in Matching(stops, lower, q) {
      var j :| 0 <= j < |g.slots| && g.slots[j].0 in stops && Contains(g.slots[j].1, q) && stops[g.slots[j].0].name == n;
      assert stops[g.slots[j].0].IsQuay() && g.slots[j].1 == lower(stops[g.slots[j].0].name);
    }
  }

  // In a ranked list of distinct names, as many names precede the i-th as its index says.
  lemma RankIsIndex(sorted: seq<Key>, names: set<string>, q: string, lower: string -> string, limit: nat)
    requires Ranked(sorted, names, q, lower) && Sorted(sorted, KeyLe)
    ensures forall n :: n in names && |Preceding(names, q, lower, n)| < limit <==>
      exists e :: e in sorted[..if limit <= |sorted| then limit else |sorted|] && e.name == n
  {
    forall i | 0 <= i < |sorted| ensures |Preceding(names, q, lower, sorted[i].name)| == i {
      PrecedingSize(sorted, names, q, lower, i);
    }
    var m := if limit <= |sorted| then limit else |sorted|;
    forall n | n in names && |Preceding(names, q, lower, n)| < limit ensures NameKey(q, lower, n) in sorted[..m] {
      var i :| 0 <= i < |sorted| && sorted[i] == NameKey(q, lower, n);
      assert sorted[i].name == n && i < m;
    }
    forall n, e | e in sorted[..m] && e.name == n ensures n in names && |Preceding(names, q, lower, n)| < limit {
      var i :| 0 <= i < m && sorted[i] == e;
      assert sorted[i] in sorted;
    }
  }

  lemma PrecedingSize(sorted: seq<Key>, names: set<string>, q: string, lower: string -> string, i: nat)
    requires Ranked(sorted, names, q, lower) && Sorted(sorted, KeyLe) && i < |sorted|
    ensures |Preceding(names, q, lower, sorted[i].name)| == i
  {
    KeysOrdered();
    assert forall k :: i < k < |sorted| ==> KeyLe(sorted[i], sorted[k]);
    hide KeyLe, Late;
    forall n ensures n in Preceding(names, q, lower, sorted[i].name) <==> exists k :: 0 <= k < i && sorted[k].name == n {
      if n in Preceding(names, q, lower, sorted[i].name) {
        var k :| 0 <= k < |sorted| && sorted[k] == NameKey(q, lower, n);
        assert sorted[i] in sorted && sorted[k].name == n;
      }
      if k :| 0 <= k < i && sorted[k].name == n {
        assert sorted[k] in sorted && sorted[i] in sorted && KeyLe(sorted[k], sorted[i]);
      }
    }
    forall k | 0 <= k < |sorted| ensures sorted[k] in sorted {}
    NamesCount(sorted, i, Preceding(names, q, lower, sorted[i].name));
  }

  lemma {:induction false} NamesCount(sorted: seq<Key>, i: nat, names: set<string>)
    requires i <= |sorted|
    requires forall j, k :: 0 <= j < k < |sorted| ==> sorted[j].name != sorted[k].name
    requires forall n :: n in names <==> exists k :: 0 <= k < i && sorted[k].name == n
    ensures |names| == i
  {
    if i > 0 {
      NamesCount(sorted, i - 1, names - {sorted[i - 1].name});
      assert sorted[i - 1].name in names;
    } else {
      assert names == {};
    }
  }

  // Some slot before `i` is that of this quay, whose name is kept.
  ghost predicate HitBefore(g: Grid, stops: Stops, keep: set<string>, i: nat, s: StopInfo) {
    exists j :: 0 <= j < i <= |g.slots| && g.slots[j].0 in stops && stops[g.slots[j].0] == s && s.name in keep
  }

  predicate HitLe(a: (Key, StopInfo), b: (Key, StopInfo)) {
    KeyLe(a.0, b.0)
  }

  /** Every quay carrying one of the names, ranked. */
  method HitsNamed(g: Grid, stops: Stops, ghost lower: string -> string, q: string, keep: set<string>) returns (r: seq<StopInfo>)
    requires Filed(stops) && GridOk(g, stops, lower)
    ensures NoDup(r) && (forall s :: s in r <==> QuayOf(stops, s) && s.name in keep)
    ensures forall i, j :: 0 <= i < j < |r| ==> KeyLe(HitKey(q, lower, r[i]), HitKey(q, lower, r[j]))
  {
    var hits: seq<(Key, StopInfo)> := [];
    for i := 0 to |g.slots|
      invariant forall h :: h in hits <==> h.0 == HitKey(q, lower, h.1) && HitBefore(g, stops, keep, i, h.1)
      invariant NoDup(hits)
    {
      var (id, low) := g.slots[i];
      var s := stops[id];
      HitNext(g, stops, lower, keep, i);
      if s.name in keep {
        hits := hits + [(Key(!(q <= low), s.name, id), s)];
      }
      hide HitBefore;
    }
    HitsAll(g, stops, lower, keep);
    r := RankHits(hits, q, lower);
  }

  // Sort by key and drop the keys.
  method RankHits(hits: seq<(Key, StopInfo)>, ghost q: string, ghost lower: string -> string) returns (r: seq<StopInfo>)
    requires NoDup(hits) && forall h :: h in hits ==> h.0 == HitKey(q, lower, h.1)
    ensures NoDup(r) && (forall s :: s in r <==> (HitKey(q, lower, s), s) in hits)
    ensures forall i, j :: 0 <= i < j < |r| ==> KeyLe(HitKey(q, lower, r[i]), HitKey(q, lower, r[j]))
  {
    KeysOrdered();
    hide KeyLe, HitKey;
    var sorted := StableSort(hits, HitLe);
    StableSortSorted(hits, HitLe);
    NoDupMultiset(hits);
    MultisetNoDup(sorted);
    SameMembers(sorted, hits);
    r := Map(sorted, (h: (Key, StopInfo)) => h.1);
    forall k | 0 <= k < |sorted| ensures sorted[k] in hits && r[k] == sorted[k].1 {
      assert sorted[k] in sorted;
    }
    forall s | (HitKey(q, lower, s), s) in hits ensures s in r {
      assert (HitKey(q, lower, s), s) in sorted;
      var k :| 0 <= k < |sorted| && sorted[k] == (HitKey(q, lower, s), s);
      assert r[k] == s;
    }
    forall i, j | 0 <= i < j < |r| ensures KeyLe(HitKey(q, lower, r[i]), HitKey(q, lower, r[j])) && r[i] != r[j] {
      assert HitLe(sorted[i], sorted[j]);
    }
  }

  lemma HitNext(g: Grid, stops: Stops, lower: string -> string, keep: set<string>, i: nat)
    requires Filed(stops) && SlotsOk(g.slots, stops, lower) && i < |g.slots|
    ensures var s := stops[g.slots[i].0];
      && !HitBefore(g, stops, keep, i, s)
      && forall t :: HitBefore(g, stops, keep, i + 1, t) <==> HitBefore(g, stops, keep, i, t) || (t == s && s.name in keep)
  {
    forall t | HitBefore(g, stops, keep, i, t) ensures HitBefore(g, stops, keep, i + 1, t) {
      var j :| 0 <= j < i <= |g.slots| && g.slots[j].0 in stops && stops[g.slots[j].0] == t && t.name in keep;
    }
  }

  lemma HitsAll(g: Grid, stops: Stops, lower: string -> string, keep: set<string>)
    requires Filed(stops) && GridOk(g, stops, lower)
    ensures forall s :: HitBefore(g, stops, keep, |g.slots|, s) <==> QuayOf(stops, s) && s.name in keep
  {
    forall s | QuayOf(stops, s) && s.name in keep ensures HitBefore(g, stops, keep, |g.slots|, s) {
      var i :| 0 <= i < |g.slots| && g.slots[i].0 == s.stopId;
    }
  }

  // ---------------------------------------------------------------- grouping by name

  datatype Group = Group(name: string, stops: seq<StopInfo>)

  function Flatten(groups: seq<Group>): seq<StopInfo> {
    if groups == [] then [] else Flatten(groups[..|groups| - 1]) + groups[|groups| - 1].stops
  }

  function Named(hits: seq<StopInfo>, name: string): seq<StopInfo> {
    Filter(hits, (s: StopInfo) => s.name == name)
  }

  /** One group per name, each listing its hits in their order. */
  ghost predicate GroupsOf(groups: seq<Group>, hits: seq<StopInfo>) {
    && (forall i, j :: 0 <= i < j < |groups| ==> groups[i].name != groups[j].name)
    && (forall k :: 0 <= k < |groups| ==> groups[k].stops == Named(hits, groups[k].name) && groups[k].stops != [])
    && (forall s :: s in hits ==> exists k :: 0 <= k < |groups| && groups[k].name == s.name)
  }

  /** Hits of one name stand together. */
  ghost predicate Contiguous(hits: seq<StopInfo>) {
    forall i, j, k :: 0 <= i < j < k < |hits| && hits[i].name == hits[k].name ==> hits[j].name == hits[i].name
  }

  /** The grouping loop of `stops_search`. */
  method GroupByName(hits: seq<StopInfo>) returns (groups: seq<Group>)
    ensures Grouped(groups, hits)
  {
    hide *;
    groups := [];
    NoneGrouped();
    assert hits[..0] == [];
    for i := 0 to |hits|
      invariant Grouped(groups, hits[..i])
    {
      groups := AddToGroups(groups, hits[i], hits[..i]);
      assert hits[..i + 1] == hits[..i] + [hits[i]];
    }
    assert hits[..|hits|] == hits;
  }

  method AddToGroups(groups: seq<Group>, s: StopInfo, ghost done: seq<StopInfo>) returns (r: seq<Group>)
    requires Grouped(groups, done)
    ensures Grouped(r, done + [s])
  {
    var k := FindGroup(groups, s.name);
    Regrouped(groups, done, s, k);
    hide *;
    r := Regroup(groups, s, k);
  }

  lemma NoneGrouped()
    ensures Grouped([], [])
  {}

  /** Groups that list the hits again, in order, when equal names stand together. */
  ghost predicate Grouped(groups: seq<Group>, hits: seq<StopInfo>) {
    GroupsOf(groups, hits) && (Contiguous(hits) ==> Flatten(groups) == hits && LastNamed(groups, hits))
  }

  // The last group is that of the last hit.
  ghost predicate LastNamed(groups: seq<Group>, hits: seq<StopInfo>) {
    hits != [] ==> |groups| > 0 && groups[|groups| - 1].name == hits[|hits| - 1].name
  }

  // The first group of that name, or the number of groups.
  method FindGroup(groups: seq<Group>, name: string) returns (k: nat)
    ensures IsGroup(groups, name, k)
  {
    k := 0;
    while k < |groups| && groups[k].name != name
      invariant k <= |groups| && forall j :: 0 <= j < k ==> groups[j].name != name
    {
      k := k + 1;
    }
  }

  predicate IsGroup(groups: seq<Group>, name: string, k: nat) {
    k <= |groups| && (forall j :: 0 <= j < k ==> groups[j].name != name) && (k < |groups| ==> groups[k].name == name)
  }

  function Regroup(groups: seq<Group>, s: StopInfo, k: nat): seq<Group> {
    if k < |groups| then groups[k := groups[k].(stops := groups[k].stops + [s])] else groups + [Group(s.name, [s])]
  }

  lemma Regrouped(groups: seq<Group>, hits: seq<StopInfo>, s: StopInfo, k: nat)
    requires Grouped(groups, hits) && IsGroup(groups, s.name, k)
    ensures Grouped(Regroup(groups, s, k), hits + [s])
  {
    hide Named, Flatten, Contiguous, IsGroup, Regroup, LastNamed;
    RegroupedStops(groups, hits, s, k);
    RegroupedCover(groups, hits, s, k);
    if Contiguous(hits + [s]) {
      StillContiguous(hits, s);
      Reflattened(groups, hits, s, k);
    }
  }

  lemma RegroupedStops(groups: seq<Group>, hits: seq<StopInfo>, s: StopInfo, k: nat)
    requires GroupsOf(groups, hits) && IsGroup(groups, s.name, k)
    ensures var r := Regroup(groups, s, k);
      && (forall i, j :: 0 <= i < j < |r| ==> r[i].name != r[j].name)
      && (forall i :: 0 <= i < |r| ==> r[i].stops == Named(hits + [s], r[i].name) && r[i].stops != [])
  {
    var r := Regroup(groups, s, k);
    RegroupedCover(groups, hits, s, k);
    hide Named;
    forall i | 0 <= i < |r| ensures r[i].stops == Named(hits + [s], r[i].name) && r[i].stops != [] {
      NamedNext(hits, s, r[i].name);
    }
  }

  lemma StillContiguous(hits: seq<StopInfo>, s: StopInfo)
    requires Contiguous(hits + [s])
    ensures Contiguous(hits)
  {
    forall i, j, k | 0 <= i < j < k < |hits| && hits[i].name == hits[k].name ensures hits[j].name == hits[i].name {
      assert (hits + [s])[i].name == (hits + [s])[k].name;
      assert (hits + [s])[j].name == (hits + [s])[i].name;
    }
  }

  lemma NamedNext(hits: seq<StopInfo>, s: StopInfo, n: string)
    ensures Named(hits + [s], n) == Named(hits, n) + if s.name == n then [s] else []
    ensures (forall t :: t in hits ==> t.name != s.name) ==> Named(hits, s.name) == []
  {
    FilterAppend(hits, [s], (t: StopInfo) => t.name == n);
    if forall t :: t in hits ==> t.name != s.name {
      FilterNone(hits, (t: StopInfo) => t.name == s.name);
    }
  }

  lemma RegroupedCover(groups: seq<Group>, hits: seq<StopInfo>, s: StopInfo, k: nat)
    requires GroupsOf(groups, hits) && IsGroup(groups, s.name, k)
    ensures forall t :: t in hits + [s] ==> exists j :: 0 <= j < |Regroup(groups, s, k)| && Regroup(groups, s, k)[j].name == t.name
    ensures k == |groups| ==> forall t :: t in hits ==> t.name != s.name
  {
    hide Named;
    var r := Regroup(groups, s, k);
    forall t | t in hits + [s] ensures exists j :: 0 <= j < |r| && r[j].name == t.name {
      if t in hits {
        var j :| 0 <= j < |groups| && groups[j].name == t.name;
        assert r[j].name == t.name;
      } else {
        assert r[k].name == t.name;
      }
    }
  }

  lemma Reflattened(groups: seq<Group>, hits: seq<StopInfo>, s: StopInfo, k: nat)
    requires Contiguous(hits + [s]) && GroupsOf(groups, hits) && IsGroup(groups, s.name, k)
    requires Flatten(groups) == hits && LastNamed(groups, hits)
    ensures Flatten(Regroup(groups, s, k)) == hits + [s] && LastNamed(Regroup(groups, s, k), hits + [s])
  {
    hide Contiguous, GroupsOf;
    var r := Regroup(groups, s, k);
    if k < |groups| {
      HitIsNext(groups, hits, s, k);
      assert r[..k] == groups[..k];
    } else {
      assert r[..k] == groups;
    }
  }

  // A hit whose name has a group already follows a hit of that name.
  lemma HitIsNext(groups: seq<Group>, hits: seq<StopInfo>, s: StopInfo, k: nat)
    requires Contiguous(hits + [s]) && GroupsOf(groups, hits) && k < |groups| && groups[k].name == s.name
    requires LastNamed(groups, hits)
    ensures k == |groups| - 1
  {
    var first := Named(hits, s.name)[0];
    assert first in Named(hits, s.name);
    var j :| 0 <= j < |hits| && hits[j] == first;
    var all := hits + [s];
    assert all[j].name == all[|hits|].name;
    assert hits[|hits| - 1].name == s.name by {
      assert j < |hits| - 1 ==> all[|hits| - 1].name == all[j].name;
    }
  }

  /** Names of a search answer stand together, so grouping loses and moves nothing. */
  lemma SearchIsContiguous(r: seq<StopInfo>, stops: Stops, lower: string -> string, q: string, limit: nat)
    requires Found(r, stops, lower, q, limit)
    ensures Contiguous(r)
  {
    forall i, j, k | 0 <= i < j < k < |r| && r[i].name == r[k].name ensures r[j].name == r[i].name {
      assert KeyLe(HitKey(q, lower, r[i]), HitKey(q, lower, r[j])) && KeyLe(HitKey(q, lower, r[j]), HitKey(q, lower, r[k]));
      TextTotal(r[i].name, r[j].name);
    }
  }

  // ---------------------------------------------------------------- the order, spelled out

  /** `a` is `b` or a beginning of it, or at the first difference has the smaller character. */
  predicate Dictionary(a: string, b: string) {
    a <= b || exists k :: 0 <= k < |a| && k < |b| && a[..k] == b[..k] && a[k] < b[k]
  }

  lemma {:induction false} TextLeIsDictionary(a: string, b: string)
    ensures TextLe(a, b) <==> Dictionary(a, b)
  {
    hide Dictionary;
    if a == "" || b == "" {
      EmptyInDictionary(a, b);
    } else if a[0] == b[0] {
      TextLeIsDictionary(a[1..], b[1..]);
      DictionaryTail(a, b);
    } else {
      DictionaryHead(a, b);
    }
  }

  lemma EmptyInDictionary(a: string, b: string)
    requires a == "" || b == ""
    ensures Dictionary(a, b) <==> a == ""
  {}

  lemma DictionaryHead(a: string, b: string)
    requires a != "" && b != "" && a[0] != b[0]
    ensures Dictionary(a, b) <==> a[0] < b[0]
  {
    assert a[..0] == b[..0];
    forall k | 0 < k <= |a| && k <= |b| ensures a[..k] != b[..k] {
      assert a[..k][0] == a[0] && b[..k][0] == b[0];
    }
  }

  lemma DictionaryTail(a: string, b: string)
    requires a != "" && b != "" && a[0] == b[0]
    ensures Dictionary(a, b) <==> Dictionary(a[1..], b[1..])
  {
    var s, t := a[1..], b[1..];
    assert a == [a[0]] + s && b == [a[0]] + t;
    HeadIsShared(a[0], s, t);
  }

  lemma HeadIsShared(c: char, s: string, t: string)
    ensures Dictionary([c] + s, [c] + t) <==> Dictionary(s, t)
  {
    var a, b := [c] + s, [c] + t;
    assert a <= b <==> s <= t by {
      assert a[1..] == s && b[1..] == t;
    }
    forall k | 0 <= k < |s| && k < |t| ensures a[..k + 1] == b[..k + 1] <==> s[..k] == t[..k] {
      SharedPrefix(c, s, t, k);
    }
    if k :| 0 <= k < |a| && k < |b| && a[..k] == b[..k] && a[k] < b[k] {
      assert k > 0 && s[..k - 1] == t[..k - 1] && s[k - 1] < t[k - 1];
    }
    if k :| 0 <= k < |s| && k < |t| && s[..k] == t[..k] && s[k] < t[k] {
      assert a[..k + 1] == b[..k + 1] && a[k + 1] < b[k + 1];
    }
  }

  lemma SharedPrefix(c: char, s: string, t: string, k: nat)
    requires k <= |s| && k <= |t|
    ensures ([c] + s)[..k + 1] == ([c] + t)[..k + 1] <==> s[..k] == t[..k]
  {
    assert ([c] + s)[..k + 1] == [c] + s[..k] && ([c] + t)[..k + 1] == [c] + t[..k];
    assert ([c] + s[..k])[1..] == s[..k] && ([c] + t[..k])[1..] == t[..k];
  }

  predicate Begins(q: string, lower: string -> string, name: string) {
    q <= lower(name)
  }

  /** Names that begin with the query precede those that only contain it; within each, the dictionary
      decides. */
  lemma PrecedingMeans(names: set<string>, q: string, lower: string -> string, name: string, n: string)
    ensures n in Preceding(names, q, lower, name) <==>
      && n in names && n != name
      && (if Begins(q, lower, n) == Begins(q, lower, name) then Dictionary(n, name) else Begins(q, lower, n))
  {
    TextLeIsDictionary(n, name);
    hide Dictionary, TextLe;
  }

  /** So is an answer ordered, quays of one name by id. */
  lemma FoundIsOrdered(r: seq<StopInfo>, stops: Stops, lower: string -> string, q: string, limit: nat, i: nat, j: nat)
    requires Found(r, stops, lower, q, limit) && i < j < |r|
    ensures if Begins(q, lower, r[i].name) != Begins(q, lower, r[j].name) then Begins(q, lower, r[i].name)
            else if r[i].name != r[j].name then Dictionary(r[i].name, r[j].name)
            else Dictionary(r[i].stopId, r[j].stopId)
  {
    assert KeyLe(HitKey(q, lower, r[i]), HitKey(q, lower, r[j]));
    TextLeIsDictionary(r[i].name, r[j].name);
    TextLeIsDictionary(r[i].stopId, r[j].stopId);
    hide Dictionary, TextLe;
  }

  // ---------------------------------------------------------------- the endpoint

  const STOP_SEARCH_NAME_LIMIT: nat := 20

  datatype SearchResponse = TooShort | NotBuilt | Groups(groups: seq<Group>)

  /** `stops_search`, on the trimmed query; `lower` folds case. */
  method StopsSearch(grid: Option<Grid>, stops: Stops, lower: string -> string, query: string) returns (resp: SearchResponse)
    requires Filed(stops) && (grid.Some? ==> GridOk(grid.value, stops, lower))
    ensures resp.TooShort? <==> |query| < 2
    ensures resp.NotBuilt? <==> |query| >= 2 && grid.None?
    ensures resp.Groups? && lower(query) == "" ==> resp.groups == []
    ensures resp.Groups? && lower(query) != "" ==>
      Found(Flatten(resp.groups), stops, lower, lower(query), STOP_SEARCH_NAME_LIMIT) && GroupsOf(resp.groups, Flatten(resp.groups))
  {
    if |query| < 2 {
      return TooShort;
    }
    if grid.None? {
      return NotBuilt;
    }
    var hits := Search(grid.value, stops, lower, lower(query), STOP_SEARCH_NAME_LIMIT);
    if lower(query) != "" {
      SearchIsContiguous(hits, stops, lower, lower(query), STOP_SEARCH_NAME_LIMIT);
    }
    var groups := GroupByName(hits);
    resp := Groups(groups);
  }
}

/** The client's replica of the fleet (apps/mobile/lib/vehicleStore.ts). */
module VehicleStores {
  import opened Collections
  import opened StreamServer

  type Vehicles = map<string, Vehicle>

  /** What the map draws for a vehicle; properties are fixed on ENTER, coordinates follow MOVE. */
  datatype Feature = Feature(info: VehicleInfo, lat: real, lon: real)

  function FeatureOf(v: Vehicle): Feature {
    Feature(v.info, v.lat, v.lon)
  }

  function Drawn(vs: Vehicles): map<string, Feature> {
    map id | id in vs :: FeatureOf(vs[id])
  }

  /** The fields a MOVE assigns; bearing, current stop and anchor flag are not among them. */
  function MovedBy(v: Vehicle, m: Move): Vehicle {
    v.(lat := m.lat, lon := m.lon, delay := m.delay, delayKnown := m.delayKnown, atStop := m.atStop, speedKmh := m.speedKmh)
  }

  // ---------------------------------------------------------------- replaying a frame

  function SetAll(vs: Vehicles, entered: seq<Vehicle>): Vehicles {
    if entered == [] then vs
    else
      var n := |entered| - 1;
      SetAll(vs, entered[..n])[entered[n].id := entered[n]]
  }

  function MoveOne(vs: Vehicles, m: Move): Vehicles {
    if m.id in vs then vs[m.id := MovedBy(vs[m.id], m)] else vs
  }

  function MoveAll(vs: Vehicles, moved: seq<Move>): Vehicles {
    if moved == [] then vs else MoveOne(MoveAll(vs, moved[..|moved| - 1]), moved[|moved| - 1])
  }

  lemma DrawnWith(vs: Vehicles, v: Vehicle)
    ensures Drawn(vs[v.id := v]) == Drawn(vs)[v.id := FeatureOf(v)]
  {}

  lemma DrawnMoved(vs: Vehicles, m: Move)
    ensures Drawn(vs).Keys == vs.Keys
    ensures Drawn(MoveOne(vs, m)) == if m.id in vs then Drawn(vs)[m.id := Drawn(vs)[m.id].(lat := m.lat, lon := m.lon)] else Drawn(vs)
  {}

  lemma DrawnWithout(vs: Vehicles, id: string)
    ensures Drawn(vs - {id}) == Drawn(vs) - {id}
  {}

  /** The replica after a frame. */
  function Replayed(vs: Vehicles, u: Update): Vehicles {
    MoveAll(SetAll(if u.isSnapshot then map[] else vs, u.entered), u.moved) - Range(u.left)
  }

  lemma {:induction false} SetAllIs(vs: Vehicles, entered: seq<Vehicle>)
    requires forall i, j :: 0 <= i < j < |entered| ==> entered[i].id != entered[j].id
    ensures forall id :: id in SetAll(vs, entered) <==> id in vs || exists v :: v in entered && v.id == id
    ensures forall v :: v in entered ==> v.id in SetAll(vs, entered) && SetAll(vs, entered)[v.id] == v
    ensures forall id :: id in vs && (forall v :: v in entered ==> v.id != id) ==> SetAll(vs, entered)[id] == vs[id]
  {
    if entered != [] {
      var n := |entered| - 1;
      SetAllIs(vs, entered[..n]);
      assert entered == entered[..n] + [entered[n]];
      forall v | v in entered[..n] ensures v.id != entered[n].id {
        var i :| 0 <= i < n && entered[..n][i] == v;
        assert entered[i].id != entered[n].id;
      }
      forall id ensures id in SetAll(vs, entered) <==> id in vs || exists v :: v in entered && v.id == id {
        if id == entered[n].id {
          assert entered[n] in entered;
        } else if exists v :: v in entered[..n] && v.id == id {
          var v :| v in entered[..n] && v.id == id;
          assert v in entered;
        }
      }
    }
  }

  lemma {:induction false} MoveAllIs(vs: Vehicles, moved: seq<Move>)
    requires forall i, j :: 0 <= i < j < |moved| ==> moved[i].id != moved[j].id
    ensures MoveAll(vs, moved).Keys == vs.Keys
    ensures forall m :: m in moved && m.id in vs ==> MoveAll(vs, moved)[m.id] == MovedBy(vs[m.id], m)
    ensures forall id :: id in vs && (forall m :: m in moved ==> m.id != id) ==> MoveAll(vs, moved)[id] == vs[id]
  {
    hide MovedBy;
    if moved != [] {
      var n := |moved| - 1;
      MoveAllIs(vs, moved[..n]);
      assert moved == moved[..n] + [moved[n]];
      forall m | m in moved[..n] ensures m.id != moved[n].id {
        var i :| 0 <= i < n && moved[..n][i] == m;
        assert moved[i].id != moved[n].id;
      }
    }
  }

  // ---------------------------------------------------------------- what is reported

  function Reentered(entered: seq<Vehicle>, selected: seq<string>): seq<Vehicle> {
    Filter(entered, (v: Vehicle) => v.id in selected)
  }

  function Removed(left: seq<string>, selected: seq<string>): seq<string> {
    Filter(left, (id: string) => id in selected)
  }

  function Missing(selected: seq<string>, vs: Vehicles): seq<string> {
    Filter(selected, (id: string) => id !in vs)
  }

  /** Selected vehicles reported gone by a frame: those it removes, and after a snapshot those
      it does not hold. */
  function Gone(vs: Vehicles, u: Update, selected: seq<string>): seq<string> {
    Removed(u.left, selected) + if u.isSnapshot then Missing(selected, Replayed(vs, u)) else []
  }

  lemma FilterNext<T>(s: seq<T>, i: nat, p: T -> bool)
    requires i < |s|
    ensures Filter(s[..i + 1], p) == Filter(s[..i], p) + if p(s[i]) then [s[i]] else []
  {
    assert s[..i + 1] == s[..i] + [s[i]];
    FilterAppend(s[..i], [s[i]], p);
  }

  lemma ReenteredNext(entered: seq<Vehicle>, i: nat, selected: seq<string>)
    requires i < |entered|
    ensures Reentered(entered[..i + 1], selected)
         == Reentered(entered[..i], selected) + if entered[i].id in selected then [entered[i]] else []
  {
    FilterNext(entered, i, (v: Vehicle) => v.id in selected);
  }

  lemma RemovedNext(left: seq<string>, i: nat, selected: seq<string>)
    requires i < |left|
    ensures Removed(left[..i + 1], selected) == Removed(left[..i], selected) + if left[i] in selected then [left[i]] else []
  {
    FilterNext(left, i, (id: string) => id in selected);
  }

  /** The renderer floor between flushes, by fleet size. */
  function MinGap(n: nat): int {
    if n > 1500 then 1000 else if n > 600 then 500 else 250
  }

  class VehicleStore {
    var vehicles: Vehicles
    var features: map<string, Feature>
    var selectedIds: seq<string>
    var dirty: bool
    var timer: Option<int> // when the pending flush is due
    var lastFlush: int

    /** The drawn features mirror the vehicles. */
    ghost predicate Coherent()
      reads this
    {
      features == Drawn(vehicles)
    }

    /** A flush is pending exactly when there is something undrawn, and never too soon after the
        last one. */
    ghost predicate Paced()
      reads this
    {
      && (dirty <==> timer.Some?)
      && (timer.Some? ==> timer.value >= lastFlush + 250)
    }

    constructor ()
      ensures vehicles == map[] && selectedIds == [] && Coherent() && Paced()
    {
      vehicles, features, selectedIds := map[], map[], [];
      dirty, timer, lastFlush := false, None, 0;
    }

    /** Replay one frame; `back` and `gone` are the selection callbacks, in call order. */
    method Apply(u: Update, now: int) returns (back: seq<Vehicle>, gone: seq<string>)
      requires Coherent() && Paced()
      modifies this
      ensures Coherent() && Paced() && selectedIds == old(selectedIds)
      ensures vehicles == Replayed(old(vehicles), u)
      ensures back == Reentered(u.entered, selectedIds) && gone == Gone(old(vehicles), u, selectedIds)
      ensures dirty && lastFlush == old(lastFlush)
    {
      if u.isSnapshot {
        features := map[];
        vehicles := map[];
      }
      back := Enter(u.entered);
      Reposition(u.moved);
      gone := Leave(u.left);
      if u.isSnapshot {
        var missing := FindMissing();
        gone := gone + missing;
      }
      ScheduleFlush(now);
    }

    method Enter(entered: seq<Vehicle>) returns (back: seq<Vehicle>)
      requires Coherent()
      modifies `vehicles, `features
      ensures Coherent() && vehicles == SetAll(old(vehicles), entered)
      ensures back == Reentered(entered, selectedIds)
    {
      back := [];
      assert Reentered([], selectedIds) == [];
      hide Reentered;
      hide Drawn;
      for i := 0 to |entered|
        invariant Coherent() && vehicles == SetAll(old(vehicles), entered[..i])
        invariant back == Reentered(entered[..i], selectedIds)
      {
        var v := entered[i];
        assert entered[..i + 1] == entered[..i] + [v] && entered[..i + 1][..i] == entered[..i];
        DrawnWith(vehicles, v);
        vehicles := vehicles[v.id := v];
        features := features[v.id := FeatureOf(v)];
        ReenteredNext(entered, i, selectedIds);
        if v.id in selectedIds {
          back := back + [v];
        }
      }
      assert entered[..|entered|] == entered;
    }

    method Reposition(moved: seq<Move>)
      requires Coherent()
      modifies `vehicles, `features
      ensures Coherent() && vehicles == MoveAll(old(vehicles), moved)
    {
      for i := 0 to |moved|
        invariant Coherent() && vehicles == MoveAll(old(vehicles), moved[..i])
      {
        var m := moved[i];
        assert moved[..i + 1][..i] == moved[..i];
        DrawnMoved(vehicles, m);
        if m.id in features {
          features := features[m.id := features[m.id].(lat := m.lat, lon := m.lon)];
        }
        if m.id in vehicles {
          vehicles := vehicles[m.id := MovedBy(vehicles[m.id], m)];
        }
      }
      assert moved[..|moved|] == moved;
    }

    method Leave(left: seq<string>) returns (gone: seq<string>)
      requires Coherent()
      modifies `vehicles, `features
      ensures Coherent() && vehicles == old(vehicles) - Range(left)
      ensures gone == Removed(left, selectedIds)
    {
      gone := [];
      assert Removed([], selectedIds) == [];
      hide Removed;
      hide Drawn;
      for i := 0 to |left|
        invariant Coherent() && vehicles == old(vehicles) - Range(left[..i])
        invariant gone == Removed(left[..i], selectedIds)
      {
        var id := left[i];
        assert left[..i + 1] == left[..i] + [id];
        DrawnWithout(vehicles, id);
        features := features - {id};
        vehicles := vehicles - {id};
        RemovedNext(left, i, selectedIds);
        if id in selectedIds {
          gone := gone + [id];
        }
      }
      assert left[..|left|] == left;
    }

    method FindMissing() returns (gone: seq<string>)
      ensures gone == Missing(selectedIds, vehicles)
    {
      gone := [];
      for i := 0 to |selectedIds|
        invariant gone == Missing(selectedIds[..i], vehicles)
      {
        var id := selectedIds[i];
        assert selectedIds[..i + 1] == selectedIds[..i] + [id];
        var vs := vehicles;
        FilterAppend(selectedIds[..i], [id], (id: string) => id !in vs);
        if id !in vehicles {
          gone := gone + [id];
        }
      }
      assert selectedIds[..|selectedIds|] == selectedIds;
    }

    /** Coalesce: one pending flush at most, due no sooner than the floor allows. */
    method ScheduleFlush(now: int)
      requires Paced()
      modifies `dirty, `timer
      ensures Paced() && dirty
      ensures old(dirty) ==> timer == old(timer)
      ensures !old(dirty) ==> timer.value >= now && timer.value >= lastFlush + (if |vehicles| > 1500 then 1000 else if |vehicles| > 600 then 500 else 250)
      ensures !old(dirty) ==> timer == Some(if lastFlush + MinGap(|vehicles|) > now then lastFlush + MinGap(|vehicles|) else now)
    {
      if dirty {
        return;
      }
      dirty := true;
      var wait := lastFlush + MinGap(|vehicles|) - now;
      timer := Some(now + if wait > 0 then wait else 0);
    }

    /** The timer fires, not before it was due: everything applied so far is drawn. */
    method Flush(now: int) returns (drawn: map<string, Feature>)
      requires Coherent() && Paced() && timer.Some? && now >= timer.value
      modifies `dirty, `timer, `lastFlush
      ensures Coherent() && Paced() && !dirty
      ensures drawn == Drawn(vehicles)
      ensures lastFlush == now && now >= old(lastFlush) + 250
    {
      dirty := false;
      timer := None;
      lastFlush := now;
      drawn := features;
    }
  }

  /** Reported back are exactly the selected vehicles a frame enters, as it enters them. */
  lemma BackExactly(entered: seq<Vehicle>, selected: seq<string>)
    ensures forall v :: v in Reentered(entered, selected) <==> v in entered && v.id in selected
    ensures (forall i, j :: 0 <= i < j < |entered| ==> entered[i] != entered[j]) ==> NoDup(Reentered(entered, selected))
  {
    if forall i, j :: 0 <= i < j < |entered| ==> entered[i] != entered[j] {
      FilterNoDup(entered, (v: Vehicle) => v.id in selected);
    }
  }
}

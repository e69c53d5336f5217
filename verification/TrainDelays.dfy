/** Train punctuality curves (crates/core/src/trains.rs). */
module TrainDelays {
  import opened Collections
  import opened Domain

  datatype DelayPoint = DelayPoint(at: Instant, delaySeconds: I32)

  datatype TrainUpdate = TrainUpdate(number: string, operatingDay: Option<string>, lineCode: Option<string>, points: seq<DelayPoint>)

  datatype TrainDelay = TrainDelay(points: seq<DelayPoint>, operatingDay: Option<string>, lineCode: Option<string>, updatedAt: Instant)

  predicate NoLater(p: DelayPoint, q: DelayPoint) {
    p.at <= q.at
  }

  /** `sort_by_key(|p| p.at)`: stable. */
  function Curve(points: seq<DelayPoint>): seq<DelayPoint> {
    StableSort(points, NoLater)
  }

  /** Index of the first point at or after `now` among `points[i..]`, else of the last point. */
  function Chosen(points: seq<DelayPoint>, now: Instant, i: nat): (k: nat)
    requires i < |points|
    ensures i <= k < |points|
    decreases |points| - i
  {
    if points[i].at >= now || i == |points| - 1 then i else Chosen(points, now, i + 1)
  }

  /** `TrainDelay::at`. */
  function At(points: seq<DelayPoint>, now: Instant): Option<I32> {
    if points == [] then None else Some(points[Chosen(points, now, 0)].delaySeconds)
  }

  lemma {:induction false} ChosenIsNext(points: seq<DelayPoint>, now: Instant, i: nat)
    requires i < |points|
    ensures var k := Chosen(points, now, i);
      && (forall j :: i <= j < k ==> points[j].at < now)
      && (points[k].at < now ==> k == |points| - 1)
    decreases |points| - i
  {
    if points[i].at < now && i < |points| - 1 {
      ChosenIsNext(points, now, i + 1);
    }
  }

  /** As time passes the curve is only ever read further along. */
  lemma ChosenMovesForward(points: seq<DelayPoint>, t: Instant, u: Instant)
    requires points != [] && t <= u
    ensures Chosen(points, t, 0) <= Chosen(points, u, 0)
  {
    ChosenIsNext(points, t, 0);
    ChosenIsNext(points, u, 0);
  }

  // ---------------------------------------------------------------- what `at` means

  /** `k` is the point of a journey listed in any order that answers for `now`: the first listed
      among those at the earliest instant not before `now`, else the last listed among those at
      the latest instant. */
  ghost predicate Answers(points: seq<DelayPoint>, now: Instant, k: nat) {
    && k < |points|
    && if exists p :: p in points && p.at >= now then
         && points[k].at >= now
         && (forall j :: 0 <= j < |points| && points[j].at >= now ==> points[k].at <= points[j].at)
         && (forall j :: 0 <= j < k ==> points[j].at != points[k].at)
       else
         && (forall j :: 0 <= j < |points| ==> points[j].at <= points[k].at)
         && (forall j :: k < j < |points| ==> points[j].at != points[k].at)
  }

  function At1(p: DelayPoint, at: Instant): bool {
    p.at == at
  }

  /** Sorting is stable: the points at any one instant keep their listed order. */
  lemma {:induction false} CurveIsStable(points: seq<DelayPoint>, at: Instant)
    ensures Filter(Curve(points), p => At1(p, at)) == Filter(points, p => At1(p, at))
  {
    if points != [] {
      CurveIsStable(points[1..], at);
      InsertIsStable(points[0], Curve(points[1..]), at);
    }
  }

  lemma {:induction false} InsertIsStable(x: DelayPoint, s: seq<DelayPoint>, at: Instant)
    ensures Filter(Insert(x, s, NoLater), p => At1(p, at)) == (if x.at == at then [x] else []) + Filter(s, p => At1(p, at))
  {
    if s == [] || NoLater(x, s[0]) {
      assert ([x] + s)[1..] == s;
    } else {
      InsertIsStable(x, s[1..], at);
      var r := Insert(x, s[1..], NoLater);
      assert ([s[0]] + r)[1..] == r;
    }
  }

  lemma CurveSorted(points: seq<DelayPoint>)
    ensures Sorted(Curve(points), NoLater)
    ensures forall p :: p in Curve(points) <==> p in points
  {
    StableSortSorted(points, NoLater);
    SameMembers(Curve(points), points);
  }

  lemma {:induction false} FirstOfFilter(s: seq<DelayPoint>, at: Instant, k: nat)
    requires k < |s| && s[k].at == at && forall j :: 0 <= j < k ==> s[j].at != at
    ensures var f := Filter(s, p => At1(p, at)); f != [] && f[0] == s[k]
  {
    if k > 0 {
      FirstOfFilter(s[1..], at, k - 1);
    }
  }

  lemma {:induction false} LastOfFilter(s: seq<DelayPoint>, at: Instant, k: nat)
    requires k < |s| && s[k].at == at && forall j :: k < j < |s| ==> s[j].at != at
    ensures var f := Filter(s, p => At1(p, at)); f != [] && f[|f| - 1] == s[k]
  {
    if k > 0 {
      LastOfFilter(s[1..], at, k - 1);
    } else {
      FilterNone(s[1..], p => At1(p, at));
    }
  }

  // The instant `at` lands on is the instant of the answering point.
  lemma SameInstant(points: seq<DelayPoint>, now: Instant, k: nat)
    requires Answers(points, now, k)
    ensures var c := Curve(points); c != [] && c[Chosen(c, now, 0)].at == points[k].at
  {
    var c := Curve(points);
    CurveSorted(points);
    assert points[k] in points;
    var n :| 0 <= n < |c| && c[n] == points[k];
    var i := Chosen(c, now, 0);
    ChosenIsNext(c, now, 0);
    assert c[i] in points;
    var j :| 0 <= j < |points| && points[j] == c[i];
    if exists p :: p in points && p.at >= now {
      assert c[i].at >= now && i <= n;
    } else {
      assert points[j].at < now;
      assert i == |c| - 1;
    }
  }

  /** `at` reads, off the sorted curve, exactly the point that answers among the points in the
      order they were listed. */
  lemma AtAnswers(points: seq<DelayPoint>, now: Instant, k: nat)
    requires Answers(points, now, k)
    ensures At(Curve(points), now) == Some(points[k].delaySeconds)
  {
    var c, at := Curve(points), points[k].at;
    SameInstant(points, now, k);
    CurveSorted(points);
    CurveIsStable(points, at);
    var i := Chosen(c, now, 0);
    ChosenIsNext(c, now, 0);
    assert points[k] in points;
    if at >= now {
      FirstOfFilter(c, at, i);
      FirstOfFilter(points, at, k);
    } else {
      LastOfFilter(c, at, i);
      LastOfFilter(points, at, k);
    }
  }

  lemma {:induction false} SomePointAnswers(points: seq<DelayPoint>, now: Instant)
    requires points != []
    ensures exists k: nat :: Answers(points, now, k)
  {
    if exists p :: p in points && p.at >= now {
      var k := EarliestFrom(points, now);
      assert Answers(points, now, k);
    } else {
      var k := Latest(points);
      assert Answers(points, now, k);
    }
  }

  lemma {:induction false} EarliestFrom(points: seq<DelayPoint>, now: Instant) returns (k: nat)
    requires exists p :: p in points && p.at >= now
    ensures k < |points| && points[k].at >= now
    ensures forall j :: 0 <= j < |points| && points[j].at >= now ==> points[k].at <= points[j].at
    ensures forall j :: 0 <= j < k ==> points[j].at != points[k].at
  {
    var init := points[..|points| - 1];
    var last := points[|points| - 1];
    assert points == init + [last];
    if exists p :: p in init && p.at >= now {
      k := EarliestFrom(init, now);
      assert forall j :: 0 <= j < |init| ==> init[j] == points[j];
      if now <= last.at < points[k].at {
        k := |points| - 1;
      }
    } else {
      k := |points| - 1;
      assert forall j :: 0 <= j < |init| ==> init[j] in init;
    }
  }

  lemma {:induction false} Latest(points: seq<DelayPoint>) returns (k: nat)
    requires points != []
    ensures k < |points|
    ensures forall j :: 0 <= j < |points| ==> points[j].at <= points[k].at
    ensures forall j :: k < j < |points| ==> points[j].at != points[k].at
  {
    if |points| == 1 {
      k := 0;
    } else {
      k := Latest(points[1..]);
      k := k + 1;
      assert forall j :: 0 < j < |points| ==> points[j] == points[1..][j - 1];
      if points[0].at > points[k].at {
        k := 0;
      }
    }
  }

  /** The curve knows a delay at every instant unless it has no points at all. */
  lemma AtIsKnown(points: seq<DelayPoint>, now: Instant)
    ensures At(Curve(points), now).None? <==> points == []
    ensures At(Curve(points), now).Some? ==> exists k: nat :: Answers(points, now, k) && At(Curve(points), now) == Some(points[k].delaySeconds)
  {
    if points != [] {
      SomePointAnswers(points, now);
      var k: nat :| Answers(points, now, k);
      AtAnswers(points, now, k);
    }
  }

  /** With distinct instants the answer does not depend on the order the points came in. */
  lemma AtIgnoresListing(points: seq<DelayPoint>, others: seq<DelayPoint>, now: Instant)
    requires multiset(points) == multiset(others)
    requires forall i, j :: 0 <= i < j < |points| ==> points[i].at != points[j].at
    ensures At(Curve(points), now) == At(Curve(others), now)
  {
    SameMembers(points, others);
    if points == [] {
      assert multiset(others) == multiset{};
    } else {
      assert points[0] in others;
      SomePointAnswers(points, now);
      SomePointAnswers(others, now);
      var k: nat :| Answers(points, now, k);
      var m: nat :| Answers(others, now, m);
      AtAnswers(points, now, k);
      AtAnswers(others, now, m);
      assert points[k] in others && others[m] in points;
      var i :| 0 <= i < |points| && points[i] == others[m];
      var j :| 0 <= j < |others| && others[j] == points[k];
      assert points[i].at == points[k].at;
      assert i == k;
    }
  }

  // ---------------------------------------------------------------- the store

  class Delays {
    var byNumber: map<string, TrainDelay>

    constructor ()
      ensures byNumber == map[]
    {
      byNumber := map[];
    }

    /** A revision replaces the previous curve of its train wholesale. */
    method Apply(u: TrainUpdate, now: Instant)
      modifies this
      ensures byNumber == AfterOp(old(byNumber), Revise(u, now))
    {
      byNumber := byNumber[u.number := TrainDelay(Curve(u.points), u.operatingDay, u.lineCode, now)];
    }

    /** Drops exactly the curves not revised since `cutoff` and counts them. */
    method Prune(cutoff: Instant) returns (gone: nat)
      modifies this
      ensures byNumber == AfterOp(old(byNumber), Sweep(cutoff))
      ensures forall n :: n in byNumber <==> n in old(byNumber) && old(byNumber)[n].updatedAt >= cutoff
      ensures gone == |old(byNumber)| - |byNumber|
    {
      var before := byNumber;
      byNumber := map n | n in before && before[n].updatedAt >= cutoff :: before[n];
      assert byNumber.Keys <= before.Keys;
      SubsetSize(byNumber.Keys, before.Keys);
      gone := |before| - |byNumber|;
    }
  }

  lemma SubsetSize<T>(a: set<T>, b: set<T>)
    requires a <= b
    ensures |a| <= |b|
  {
    if a != {} {
      var x :| x in a;
      SubsetSize(a - {x}, b - {x});
    }
  }

  // ---------------------------------------------------------------- every history of the store

  datatype DelayOp = Revise(u: TrainUpdate, now: Instant) | Sweep(cutoff: Instant)

  type Curves = map<string, TrainDelay>

  function AfterOp(curves: Curves, op: DelayOp): Curves {
    match op
    case Revise(u, now) => curves[u.number := TrainDelay(Curve(u.points), u.operatingDay, u.lineCode, now)]
    case Sweep(cutoff) => map n | n in curves && curves[n].updatedAt >= cutoff :: curves[n]
  }

  function History(ops: seq<DelayOp>): Curves {
    if ops == [] then map[] else AfterOp(History(ops[..|ops| - 1]), ops[|ops| - 1])
  }

  predicate Revises(op: DelayOp, number: string) {
    op.Revise? && op.u.number == number
  }

  /** Operation `k` is the last revision of the train, and no sweep since has found it too old. */
  ghost predicate Stands(ops: seq<DelayOp>, number: string, k: nat) {
    && k < |ops| && Revises(ops[k], number)
    && forall j :: k < j < |ops| ==> !Revises(ops[j], number) && (ops[j].Sweep? ==> ops[j].cutoff <= ops[k].now)
  }

  lemma StandsNext(ops: seq<DelayOp>, op: DelayOp, number: string, k: nat)
    ensures Stands(ops + [op], number, k) <==>
      (k == |ops| && Revises(op, number)) || (Stands(ops, number, k) && !Revises(op, number) && (op.Sweep? ==> op.cutoff <= ops[k].now))
  {
    var more := ops + [op];
    if Stands(more, number, k) && k < |ops| {
      forall j | k < j < |ops| ensures !Revises(ops[j], number) && (ops[j].Sweep? ==> ops[j].cutoff <= ops[k].now) {
        assert ops[j] == more[j];
      }
      assert more[|ops|] == op;
    }
  }

  function CurveOf(op: DelayOp): TrainDelay
    requires op.Revise?
  {
    TrainDelay(Curve(op.u.points), op.u.operatingDay, op.u.lineCode, op.now)
  }

  /** After every history of revisions and sweeps a train has a curve exactly when its last revision
      still stands, and the curve is that revision's alone: every earlier one is forgotten. */
  lemma {:induction false} LastRevisionStands(ops: seq<DelayOp>, number: string)
    ensures number in History(ops) <==> exists k: nat :: Stands(ops, number, k)
    ensures forall k: nat :: Stands(ops, number, k) ==> number in History(ops) && History(ops)[number] == CurveOf(ops[k])
  {
    if ops != [] {
      var n := |ops| - 1;
      var front, op := ops[..n], ops[n];
      LastRevisionStands(front, number);
      hide Stands, CurveOf;
      assert ops == front + [op];
      forall k: nat ensures Stands(ops, number, k) <==>
        (k == n && Revises(op, number)) || (Stands(front, number, k) && !Revises(op, number) && (op.Sweep? ==> k < n && op.cutoff <= front[k].now))
      {
        StandsNext(front, op, number, k);
        StandingIsRevision(front, number, k);
      }
      RevisionOnTop(front, op, number);
      if number in History(front) {
        var k: nat :| Stands(front, number, k);
        StandingIsRevision(front, number, k);
        assert Stands(ops, number, k) || Stands(ops, number, n) || op.Sweep?;
      }
      forall k: nat | Stands(ops, number, k) ensures number in History(ops) && History(ops)[number] == CurveOf(ops[k]) {
        if k < n {
          StandingIsRevision(front, number, k);
        }
      }
    }
  }

  lemma StandingIsRevision(ops: seq<DelayOp>, number: string, k: nat)
    ensures Stands(ops, number, k) ==> k < |ops| && ops[k].Revise? && CurveOf(ops[k]).updatedAt == ops[k].now
  {}

  lemma RevisionOnTop(front: seq<DelayOp>, op: DelayOp, number: string)
    ensures var r := History(front + [op]);
      && r == AfterOp(History(front), op)
      && (Revises(op, number) ==> number in r && r[number] == CurveOf(op))
      && (op.Revise? && !Revises(op, number) ==> (number in r <==> number in History(front)) && (number in r ==> r[number] == History(front)[number]))
  {
    assert (front + [op])[..|front|] == front;
  }

  /** So the delay a train shows is read off its last standing revision, in whatever order that
      listed its stations. */
  lemma StandingDelay(ops: seq<DelayOp>, number: string, k: nat, now: Instant)
    requires Stands(ops, number, k)
    ensures number in History(ops)
    ensures ops[k].u.points == [] ==> At(History(ops)[number].points, now).None?
    ensures ops[k].u.points != [] ==>
      exists i: nat :: Answers(ops[k].u.points, now, i) && At(History(ops)[number].points, now) == Some(ops[k].u.points[i].delaySeconds)
  {
    LastRevisionStands(ops, number);
    AtIsKnown(ops[k].u.points, now);
  }
}

/** Decoding train GPS snapshots: one event per train, from the first of its usable material
    parts in consist order (crates/realtime/src/ns.rs). */
module NsPositions {
  import opened Collections
  import opened Domain
  import opened Xml
  import Gtfs

  const MAX_CLOCK_SKEW: int := 60
  const MAX_ORDER: I32 := 2_147_483_647

  // ---------------------------------------------------------------- material parts

  datatype Reading = Reading(order: Option<I32>, lat: Option<Num>, lon: Option<Num>, speed: Option<real>, course: Option<Num>, timestamp: Option<Instant>)

  const NOTHING := Reading(None, None, None, None, None, None)

  /** `Part::set`: a blank text changes nothing, an unreadable one clears the field. */
  function WithLeaf(p: Reading, name: string, text: string, rd: Reader): Reading {
    var v := rd.trim(text);
    if v == "" then p
    else if name == "Materieelvolgnummer" then p.(order := rd.i32(v))
    else if name == "Latitude" then p.(lat := rd.f64(v))
    else if name == "Longitude" then p.(lon := rd.f64(v))
    else if name == "Snelheid" then p.(speed := rd.speed(v))
    else if name == "Richting" then p.(course := rd.f64(v))
    else if name == "GpsDatumTijd" then p.(timestamp := rd.instant(v))
    else p
  }

  predicate Within(n: Option<Num>, lo: real, hi: real) {
    n.Some? && n.value.Finite? && lo <= n.value.v < hi
  }

  /** `now` and the oldest acceptable age of a fix. */
  datatype Gate = Gate(now: Instant, maxAge: int)

  /** `Part::usable`: real coordinates in the country, dated within the window. */
  predicate Usable(p: Reading, g: Gate) {
    && p.lat.Some? && p.lon.Some? && p.timestamp.Some?
    && Within(p.lon, 3.0, 7.5) && Within(p.lat, 50.0, 54.0)
    && g.now - g.maxAge <= p.timestamp.value <= g.now + MAX_CLOCK_SKEW * SECOND
  }

  class Part {
    var order: Option<I32>
    var lat: Option<Num>
    var lon: Option<Num>
    var speed: Option<real>
    var course: Option<Num>
    var timestamp: Option<Instant>

    function Value(): Reading
      reads this
    {
      Reading(order, lat, lon, speed, course, timestamp)
    }

    constructor ()
      ensures Value() == NOTHING
    {
      order, lat, lon, speed, course, timestamp := None, None, None, None, None, None;
    }

    method Set(name: string, text: string, rd: Reader)
      modifies this
      ensures Value() == WithLeaf(old(Value()), name, text, rd)
    {
      var v := rd.trim(text);
      if v == "" {
        return;
      }
      match name
      case "Materieelvolgnummer" => order := rd.i32(v);
      case "Latitude" => lat := rd.f64(v);
      case "Longitude" => lon := rd.f64(v);
      case "Snelheid" => speed := rd.speed(v);
      case "Richting" => course := rd.f64(v);
      case "GpsDatumTijd" => timestamp := rd.instant(v);
      case _ =>
    }
  }

  /** `event_for`: the train number is the identity; a course counts only while moving. */
  function EventFor(number: string, p: Reading, now: Instant): PosEvent {
    PosEvent(VehicleKey(Gtfs.TRAIN_DATAOWNER, number), OnRoute, None, Some(number), None, None, None, None, p.lat, p.lon,
             if p.speed.GetOr(0.0) > 0.0 then p.course else None, p.speed, Some(Train), None, None, p.timestamp.GetOr(now))
  }

  /** The candidate replaces the best part so far: lowest consist number, a missing one last. */
  predicate Better(best: Option<Reading>, p: Reading, g: Gate) {
    match (best, p.order)
    case (None, _) => Usable(p, g)
    case (Some(b), Some(o)) => Usable(p, g) && o < b.order.GetOr(MAX_ORDER)
    case (Some(_), None) => false
  }

  // ---------------------------------------------------------------- the token machine

  datatype Machine = Machine(events: seq<PosEvent>, train: Option<string>, best: Option<Reading>, part: Option<Reading>, field: Option<string>)

  const IDLE := Machine([], None, None, None, None)

  const TRAIN: string := "TreinLocation"
  const PART: string := "TreinMaterieelDelen"
  const NUMBER: string := "TreinNummer"

  function Step(m: Machine, t: Token, rd: Reader, g: Gate): Machine {
    match t
    case Start(name, _) => (
      if name == TRAIN then Machine(m.events, None, None, None, None)
      else if name == PART then m.(part := Some(NOTHING), field := None)
      else m.(field := Some(name)))
    case Text(text) => (
      if m.part.Some? && m.field.Some? then m.(part := Some(WithLeaf(m.part.value, m.field.value, text, rd)))
      else if m.part.None? && m.field == Some(NUMBER) && rd.trim(text) != "" then m.(train := Some(rd.trim(text)))
      else m)
    case End(name) => (
      if name == PART then
        m.(best := if m.part.Some? && Better(m.best, m.part.value, g) then m.part else m.best, part := None, field := None)
      else if name == TRAIN then
        Machine(m.events + Shown(m.train, m.best, g.now), None, None, m.part, None)
      else m.(field := None))
  }

  function Shown(train: Option<string>, best: Option<Reading>, now: Instant): seq<PosEvent> {
    if train.Some? && best.Some? then [EventFor(train.value, best.value, now)] else []
  }

  function Stepper(rd: Reader, g: Gate): (Machine, Token) -> Machine {
    (m, t) => Step(m, t, rd, g)
  }

  function Run(m: Machine, ts: seq<Token>, rd: Reader, g: Gate): Machine {
    Fold(Stepper(rd, g), m, ts)
  }

  /** `parse_ns_treinposities`. */
  method ParseNsTreinposities(ts: seq<Token>, rd: Reader, g: Gate) returns (events: seq<PosEvent>)
    ensures events == Run(IDLE, ts, rd, g).events
  {
    events := [];
    var train: Option<string> := None;
    var best: Option<Reading> := None;
    var part: Part? := null;
    var field: Option<string> := None;
    for i := 0 to |ts|
      invariant part != null ==> fresh(part)
      invariant Run(IDLE, ts[..i], rd, g) == Machine(events, train, best, if part == null then None else Some(part.Value()), field)
    {
      hide WithLeaf, EventFor, Better;
      assert ts[..i + 1][..i] == ts[..i];
      match ts[i]
      case Start(name, _) =>
        if name == TRAIN {
          train, best, part, field := None, None, null, None;
        } else if name == PART {
          part := new Part();
          field := None;
        } else {
          field := Some(name);
        }
      case Text(text) =>
        if part != null && field.Some? {
          part.Set(field.value, text, rd);
        } else if part == null && field == Some(NUMBER) {
          if rd.trim(text) != "" {
            train := Some(rd.trim(text));
          }
        }
      case End(name) =>
        if name == PART {
          if part != null {
            if Better(best, part.Value(), g) {
              best := Some(part.Value());
            }
            part := null;
          }
        } else if name == TRAIN {
          if train.Some? && best.Some? {
            events := events + [EventFor(train.value, best.value, g.now)];
          }
          train, best := None, None;
        }
        field := None;
    }
    assert ts[..|ts|] == ts;
  }

  // ---------------------------------------------------------------- any token stream

  /** What every decoded fix promises. */
  ghost predicate Accepted(e: PosEvent, g: Gate) {
    && e.kind == OnRoute && e.key.dataowner == Gtfs.TRAIN_DATAOWNER && e.journeyNumber == Some(e.key.vehicleNumber)
    && e.key.vehicleNumber != "" && e.vehicleType == Some(Train)
    && Within(e.lon, 3.0, 7.5) && Within(e.lat, 50.0, 54.0)
    && g.now - g.maxAge <= e.timestamp <= g.now + MAX_CLOCK_SKEW * SECOND
  }

  ghost predicate Sane(m: Machine, g: Gate) {
    && (forall e :: e in m.events ==> Accepted(e, g))
    && (m.best.Some? ==> Usable(m.best.value, g)) && m.train != Some("")
  }

  /** However garbled the snapshot, no stale, future-dated or misplaced fix gets through. */
  lemma {:induction false} EveryFixIsAccepted(ts: seq<Token>, rd: Reader, g: Gate)
    ensures Sane(Run(IDLE, ts, rd, g), g)
    ensures forall e :: e in Run(IDLE, ts, rd, g).events ==> Accepted(e, g)
  {
    if ts != [] {
      EveryFixIsAccepted(ts[..|ts| - 1], rd, g);
      StepIsSane(Run(IDLE, ts[..|ts| - 1], rd, g), ts[|ts| - 1], rd, g);
    }
  }

  lemma StepIsSane(m: Machine, t: Token, rd: Reader, g: Gate)
    requires Sane(m, g)
    ensures Sane(Step(m, t, rd, g), g)
  {
    hide WithLeaf;
  }

  // ---------------------------------------------------------------- snapshots of trains

  /** What a train element holds, in order: leaves of its own and material parts. */
  datatype Inside = Own(leaf: Leaf) | PartOf(leaves: seq<Leaf>)

  /** Between trains anything may stand that does not end one. */
  datatype Item = TrainOf(inside: seq<Inside>) | Stray(token: Token)

  predicate PlainLeaf(l: Leaf) {
    l.name != TRAIN && l.name != PART
  }

  predicate WellFormed(i: Item) {
    match i
    case TrainOf(ins) => forall x :: x in ins ==> (if x.Own? then PlainLeaf(x.leaf) else forall l :: l in x.leaves ==> PlainLeaf(l))
    case Stray(t) => t != Token.End(TRAIN)
  }

  function InsideTokens(x: Inside): seq<Token> {
    match x
    case Own(l) => LeafTokens(l)
    case PartOf(ls) => [Start(PART, map[])] + LeavesTokens(ls) + [Token.End(PART)]
  }

  function AllTokens(ins: seq<Inside>): seq<Token> {
    if ins == [] then [] else AllTokens(ins[..|ins| - 1]) + InsideTokens(ins[|ins| - 1])
  }

  function ItemTokens(i: Item): seq<Token> {
    match i
    case TrainOf(ins) => [Start(TRAIN, map[])] + AllTokens(ins) + [Token.End(TRAIN)]
    case Stray(t) => [t]
  }

  function DocTokens(items: seq<Item>): seq<Token> {
    if items == [] then [] else DocTokens(items[..|items| - 1]) + ItemTokens(items[|items| - 1])
  }

  /** The last non-blank number a train gives. */
  function NumberOf(ins: seq<Inside>, rd: Reader): Option<string> {
    if ins == [] then None
    else
      var x := ins[|ins| - 1];
      if x.Own? && x.leaf.name == NUMBER && rd.trim(x.leaf.text) != "" then Some(rd.trim(x.leaf.text))
      else NumberOf(ins[..|ins| - 1], rd)
  }

  function ReadPart(ls: seq<Leaf>, rd: Reader): Reading {
    if ls == [] then NOTHING else WithLeaf(ReadPart(ls[..|ls| - 1], rd), ls[|ls| - 1].name, ls[|ls| - 1].text, rd)
  }

  function PartsOf(ins: seq<Inside>, rd: Reader): seq<Reading> {
    if ins == [] then []
    else PartsOf(ins[..|ins| - 1], rd) + if ins[|ins| - 1].PartOf? then [ReadPart(ins[|ins| - 1].leaves, rd)] else []
  }

  function OrderOf(p: Reading): int {
    p.order.GetOr(MAX_ORDER)
  }

  /** `k` is the first usable part of lowest consist order. */
  ghost predicate Leads(parts: seq<Reading>, k: nat, g: Gate) {
    && k < |parts| && Usable(parts[k], g)
    && (forall j :: 0 <= j < |parts| && Usable(parts[j], g) ==> OrderOf(parts[k]) <= OrderOf(parts[j]))
    && (forall j :: 0 <= j < k && Usable(parts[j], g) ==> OrderOf(parts[k]) < OrderOf(parts[j]))
  }

  /** The best part so far, as the machine keeps it. */
  function Best(parts: seq<Reading>, g: Gate): Option<Reading> {
    if parts == [] then None
    else
      var best, p := Best(parts[..|parts| - 1], g), parts[|parts| - 1];
      if Better(best, p, g) then Some(p) else best
  }

  lemma {:induction false} BestLeads(parts: seq<Reading>, g: Gate)
    ensures Best(parts, g).None? <==> forall p :: p in parts ==> !Usable(p, g)
    ensures Best(parts, g).Some? ==> exists k: nat :: Leads(parts, k, g) && Best(parts, g) == Some(parts[k])
  {
    if parts != [] {
      var front, n := parts[..|parts| - 1], |parts| - 1;
      var p := parts[n];
      BestLeads(front, g);
      hide Best, Usable;
      assert Best(parts, g) == if Better(Best(front, g), p, g) then Some(p) else Best(front, g) by {
        BestNext(parts, g);
      }
      assert parts == front + [p];
      if Best(front, g).None? {
        if Better(None, p, g) {
          assert Leads(parts, n, g);
        }
      } else {
        var k: nat :| Leads(front, k, g) && Best(front, g) == Some(front[k]);
        if Better(Best(front, g), p, g) {
          assert Leads(parts, n, g);
        } else {
          assert Leads(parts, k, g);
        }
      }
    }
  }

  lemma BestNext(parts: seq<Reading>, g: Gate)
    requires parts != []
    ensures var best, p := Best(parts[..|parts| - 1], g), parts[|parts| - 1];
      Best(parts, g) == if Better(best, p, g) then Some(p) else best
  {}

  /** A train's event, if it has one. */
  function EventOf(i: Item, rd: Reader, g: Gate): seq<PosEvent> {
    match i
    case TrainOf(ins) => Shown(NumberOf(ins, rd), Best(PartsOf(ins, rd), g), g.now)
    case Stray(_) => []
  }

  function DocEvents(items: seq<Item>, rd: Reader, g: Gate): seq<PosEvent> {
    if items == [] then [] else DocEvents(items[..|items| - 1], rd, g) + EventOf(items[|items| - 1], rd, g)
  }

  /** A train with a number and a usable part gives exactly the event of its leading part; any
      other train gives none. */
  lemma TrainEvent(ins: seq<Inside>, rd: Reader, g: Gate)
    ensures var parts, number, evs := PartsOf(ins, rd), NumberOf(ins, rd), EventOf(TrainOf(ins), rd, g);
      && |evs| == (if number.Some? && (exists p :: p in parts && Usable(p, g)) then 1 else 0)
      && (evs != [] ==> exists k: nat :: Leads(parts, k, g) && evs[0] == EventFor(number.value, parts[k], g.now))
  {
    BestLeads(PartsOf(ins, rd), g);
  }

  lemma {:induction false} PartParses(m: Machine, ls: seq<Leaf>, rd: Reader, g: Gate)
    requires m.part == Some(NOTHING) && m.field == None && forall l :: l in ls ==> PlainLeaf(l)
    ensures Run(m, LeavesTokens(ls), rd, g) == m.(part := Some(ReadPart(ls, rd)))
  {
    if ls != [] {
      var front, l := ls[..|ls| - 1], ls[|ls| - 1];
      assert l in ls;
      PartParses(m, front, rd, g);
      FoldAppend(Stepper(rd, g), m, LeavesTokens(front), LeafTokens(l));
      FoldLeaf(Stepper(rd, g), Run(m, LeavesTokens(front), rd, g), l);
      hide WithLeaf;
    }
  }

  lemma {:induction false} InsideParses(m: Machine, ins: seq<Inside>, rd: Reader, g: Gate)
    requires WellFormed(TrainOf(ins)) && m == Machine(m.events, None, None, None, None)
    ensures Run(m, AllTokens(ins), rd, g) == Machine(m.events, NumberOf(ins, rd), Best(PartsOf(ins, rd), g), None, None)
  {
    if ins != [] {
      var front, x := ins[..|ins| - 1], ins[|ins| - 1];
      assert x in ins;
      InsideParses(m, front, rd, g);
      FoldAppend(Stepper(rd, g), m, AllTokens(front), InsideTokens(x));
      OneParses(Run(m, AllTokens(front), rd, g), x, rd, g);
      InsideNext(ins, rd, g);
      hide NumberOf, PartsOf, Best, Better, InsideTokens;
    }
  }

  lemma InsideNext(ins: seq<Inside>, rd: Reader, g: Gate)
    requires ins != []
    ensures var front, x := ins[..|ins| - 1], ins[|ins| - 1];
      var best := Best(PartsOf(front, rd), g);
      && NumberOf(ins, rd) == (if x.Own? && x.leaf.name == NUMBER && rd.trim(x.leaf.text) != "" then Some(rd.trim(x.leaf.text)) else NumberOf(front, rd))
      && Best(PartsOf(ins, rd), g)
      == (if x.PartOf? && Better(best, ReadPart(x.leaves, rd), g) then Some(ReadPart(x.leaves, rd)) else best)
  {
    var front, x := ins[..|ins| - 1], ins[|ins| - 1];
    hide Better, ReadPart;
    if x.PartOf? {
      assert PartsOf(ins, rd)[..|PartsOf(ins, rd)| - 1] == PartsOf(front, rd);
    } else {
      assert PartsOf(ins, rd) == PartsOf(front, rd);
    }
  }

  lemma OneParses(m: Machine, x: Inside, rd: Reader, g: Gate)
    requires WellFormed(TrainOf([x])) && m.part.None? && m.field.None?
    ensures var r := Run(m, InsideTokens(x), rd, g);
      && (x.Own? ==> r == if x.leaf.name == NUMBER && rd.trim(x.leaf.text) != "" then m.(train := Some(rd.trim(x.leaf.text))) else m)
      && (x.PartOf? ==> r == if Better(m.best, ReadPart(x.leaves, rd), g) then m.(best := Some(ReadPart(x.leaves, rd))) else m)
  {
    assert x in [x];
    match x
    case Own(l) =>
      FoldLeaf(Stepper(rd, g), m, l);
    case PartOf(ls) =>
      var inside := m.(part := Some(NOTHING));
      FoldOne(Stepper(rd, g), m, Start(PART, map[]));
      FoldAppend(Stepper(rd, g), m, [Start(PART, map[])], LeavesTokens(ls));
      PartParses(inside, ls, rd, g);
      FoldAppend(Stepper(rd, g), m, [Start(PART, map[])] + LeavesTokens(ls), [Token.End(PART)]);
      FoldOne(Stepper(rd, g), inside.(part := Some(ReadPart(ls, rd))), Token.End(PART));
  }

  lemma ItemParses(m: Machine, i: Item, rd: Reader, g: Gate)
    requires WellFormed(i)
    ensures Run(m, ItemTokens(i), rd, g).events == m.events + EventOf(i, rd, g)
  {
    match i
    case Stray(t) =>
      FoldOne(Stepper(rd, g), m, t);
    case TrainOf(ins) =>
      var reset := Machine(m.events, None, None, None, None);
      FoldOne(Stepper(rd, g), m, Start(TRAIN, map[]));
      FoldAppend(Stepper(rd, g), m, [Start(TRAIN, map[])], AllTokens(ins));
      InsideParses(reset, ins, rd, g);
      FoldAppend(Stepper(rd, g), m, [Start(TRAIN, map[])] + AllTokens(ins), [Token.End(TRAIN)]);
      FoldOne(Stepper(rd, g), Run(reset, AllTokens(ins), rd, g), Token.End(TRAIN));
  }

  /** A snapshot decodes train by train, in document order, whatever stands between them. */
  lemma {:induction false} SnapshotDecodes(items: seq<Item>, rd: Reader, g: Gate)
    requires forall i :: i in items ==> WellFormed(i)
    ensures Run(IDLE, DocTokens(items), rd, g).events == DocEvents(items, rd, g)
  {
    if items != [] {
      var front, i := items[..|items| - 1], items[|items| - 1];
      assert i in items;
      SnapshotDecodes(front, rd, g);
      FoldAppend(Stepper(rd, g), IDLE, DocTokens(front), ItemTokens(i));
      ItemParses(Run(IDLE, DocTokens(front), rd, g), i, rd, g);
    }
  }

  // ---------------------------------------------------------------- what a fix says

  /** The last non-blank text of the leaves of this name. */
  function LastText(ls: seq<Leaf>, name: string, rd: Reader): Option<string> {
    if ls == [] then None
    else
      var l := ls[|ls| - 1];
      if l.name == name && rd.trim(l.text) != "" then Some(rd.trim(l.text)) else LastText(ls[..|ls| - 1], name, rd)
  }

  function Read<T>(ls: seq<Leaf>, name: string, rd: Reader, read: string -> Option<T>): Option<T> {
    var text := LastText(ls, name, rd);
    if text.Some? then read(text.value) else None
  }

  /** Each field of a part is what its leaves last said, if that can be read. */
  lemma {:induction false} PartSays(ls: seq<Leaf>, rd: Reader)
    ensures var p := ReadPart(ls, rd);
      && p.order == Read(ls, "Materieelvolgnummer", rd, rd.i32)
      && p.lat == Read(ls, "Latitude", rd, rd.f64) && p.lon == Read(ls, "Longitude", rd, rd.f64)
      && p.speed == Read(ls, "Snelheid", rd, rd.speed) && p.course == Read(ls, "Richting", rd, rd.f64)
      && p.timestamp == Read(ls, "GpsDatumTijd", rd, rd.instant)
  {
    hide WithLeaf;
    if ls != [] {
      PartSays(ls[..|ls| - 1], rd);
      LeafSays(ReadPart(ls[..|ls| - 1], rd), ls[|ls| - 1], rd);
    }
  }

  // What one leaf says, field by field.
  lemma LeafSays(p: Reading, l: Leaf, rd: Reader)
    ensures var r, v := WithLeaf(p, l.name, l.text, rd), rd.trim(l.text);
      && r.order == (if l.name == "Materieelvolgnummer" && v != "" then rd.i32(v) else p.order)
      && r.lat == (if l.name == "Latitude" && v != "" then rd.f64(v) else p.lat)
      && r.lon == (if l.name == "Longitude" && v != "" then rd.f64(v) else p.lon)
      && r.speed == (if l.name == "Snelheid" && v != "" then rd.speed(v) else p.speed)
      && r.course == (if l.name == "Richting" && v != "" then rd.f64(v) else p.course)
      && r.timestamp == (if l.name == "GpsDatumTijd" && v != "" then rd.instant(v) else p.timestamp)
  {
    LeafNamesDiffer(l.name);
  }

  predicate OnlyOne(a: bool, b: bool, c: bool, d: bool, e: bool, f: bool) {
    !(a && (b || c || d || e || f)) && !(b && (c || d || e || f)) && !(c && (d || e || f)) && !(d && (e || f)) && !(e && f)
  }

  lemma LeafNamesDiffer(name: string)
    ensures OnlyOne(name == "Materieelvolgnummer", name == "Latitude", name == "Longitude", name == "Snelheid", name == "Richting", name == "GpsDatumTijd")
  {
    assert |"Materieelvolgnummer"| == 19 && |"Latitude"| == 8 && |"Longitude"| == 9 && |"Snelheid"| == 8 && |"Richting"| == 8 && |"GpsDatumTijd"| == 12;
    assert "Latitude"[0] == 'L' && "Snelheid"[0] == 'S' && "Richting"[0] == 'R';
  }

  /** A part is usable exactly when it has coordinates in the country and a time no older than the limit
      and no more than a minute ahead. */
  lemma UsableIff(p: Reading, g: Gate)
    ensures Usable(p, g) <==>
      && p.lat.Some? && p.lat.value.Finite? && 50.0 <= p.lat.value.v && p.lat.value.v < 54.0
      && p.lon.Some? && p.lon.value.Finite? && 3.0 <= p.lon.value.v && p.lon.value.v < 7.5
      && p.timestamp.Some? && g.now - g.maxAge <= p.timestamp.value && p.timestamp.value <= g.now + 60_000_000_000
  {}

  /** A train's event is its leading part's word: place, speed and time as that part last gave them, the
      course only while it moves; the train number is vehicle and journey; nothing else is said. */
  lemma FixSays(ins: seq<Inside>, rd: Reader, g: Gate)
    requires EventOf(TrainOf(ins), rd, g) != []
    ensures var e := EventOf(TrainOf(ins), rd, g)[0];
      && e.kind == OnRoute && e.key.dataowner == "IFF" && NumberOf(ins, rd) == Some(e.key.vehicleNumber)
      && e.journeyNumber == Some(e.key.vehicleNumber) && e.vehicleType == Some(Train)
      && e.linePlanningNumber.None? && e.operatingDay.None? && e.blockCode.None? && e.rdX.None? && e.rdY.None?
      && e.punctuality.None? && e.userStopCode.None?
      && exists k: nat :: k < |ins| && ins[k].PartOf? && SaidBy(e, ins[k].leaves, rd)
  {
    var parts := PartsOf(ins, rd);
    TrainEvent(ins, rd, g);
    var k: nat :| Leads(parts, k, g) && EventOf(TrainOf(ins), rd, g)[0] == EventFor(NumberOf(ins, rd).value, parts[k], g.now);
    var n := PartIsInside(ins, rd, k);
    PartSays(ins[n].leaves, rd);
    hide ReadPart, Read, PartsOf, Best;
    assert SaidBy(EventOf(TrainOf(ins), rd, g)[0], ins[n].leaves, rd);
  }

  ghost predicate SaidBy(e: PosEvent, ls: seq<Leaf>, rd: Reader) {
    var speed := Read(ls, "Snelheid", rd, rd.speed);
    && e.lat == Read(ls, "Latitude", rd, rd.f64) && e.lon == Read(ls, "Longitude", rd, rd.f64)
    && e.speedKmh == speed
    && e.bearing == (if speed.Some? && speed.value > 0.0 then Read(ls, "Richting", rd, rd.f64) else None)
    && Read(ls, "GpsDatumTijd", rd, rd.instant) == Some(e.timestamp)
  }

  // Every part read is one of the train's.
  lemma {:induction false} PartIsInside(ins: seq<Inside>, rd: Reader, k: nat) returns (n: nat)
    requires k < |PartsOf(ins, rd)|
    ensures n < |ins| && ins[n].PartOf? && PartsOf(ins, rd)[k] == ReadPart(ins[n].leaves, rd)
  {
    var front := ins[..|ins| - 1];
    if k < |PartsOf(front, rd)| {
      n := PartIsInside(front, rd, k);
    } else {
      n := |ins| - 1;
    }
  }
}

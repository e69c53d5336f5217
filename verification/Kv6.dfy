/** Decoding BISON KV6 records from a stream of XML tokens (crates/realtime/src/kv6.rs). */
module Kv6 {
  import opened Collections
  import opened Domain
  import opened Xml

  // ---------------------------------------------------------------- names

  function KindName(k: MessageKind): string {
    match k
    case Init => "INIT"
    case Arrival => "ARRIVAL"
    case OnStop => "ONSTOP"
    case Departure => "DEPARTURE"
    case OnRoute => "ONROUTE"
    case Delay => "DELAY"
    case Offroute => "OFFROUTE"
    case End => "END"
  }

  function KindFrom(name: string): (r: Option<MessageKind>)
    ensures r.Some? ==> KindName(r.value) == name
  {
    if name == "INIT" then Some(Init)
    else if name == "ARRIVAL" then Some(Arrival)
    else if name == "ONSTOP" then Some(OnStop)
    else if name == "DEPARTURE" then Some(MessageKind.Departure)
    else if name == "ONROUTE" then Some(OnRoute)
    else if name == "DELAY" then Some(MessageKind.Delay)
    else if name == "OFFROUTE" then Some(Offroute)
    else if name == "END" then Some(MessageKind.End)
    else None
  }

  datatype Field = DataOwner | VehicleNumber | Line | JourneyNumber | OperatingDay | Block | UserStop | Punctuality | RdX | RdY | Timestamp

  function FieldFrom(name: string): Option<Field> {
    if name == "dataownercode" then Some(DataOwner)
    else if name == "vehiclenumber" then Some(VehicleNumber)
    else if name == "lineplanningnumber" then Some(Line)
    else if name == "journeynumber" then Some(JourneyNumber)
    else if name == "operatingday" then Some(OperatingDay)
    else if name == "blockcode" || name == "omloopnumber" then Some(Block)
    else if name == "userstopcode" then Some(UserStop)
    else if name == "punctuality" then Some(Punctuality)
    else if name == "rd-x" then Some(RdX)
    else if name == "rd-y" then Some(RdY)
    else if name == "timestamp" then Some(Timestamp)
    else None
  }

  function FieldName(f: Field): string {
    match f
    case DataOwner => "dataownercode"
    case VehicleNumber => "vehiclenumber"
    case Line => "lineplanningnumber"
    case JourneyNumber => "journeynumber"
    case OperatingDay => "operatingday"
    case Block => "blockcode"
    case UserStop => "userstopcode"
    case Punctuality => "punctuality"
    case RdX => "rd-x"
    case RdY => "rd-y"
    case Timestamp => "timestamp"
  }

  lemma KindRoundTrip(k: MessageKind)
    ensures KindFrom(KindName(k)) == Some(k)
  {
    assert |"INIT"| == 4 && |"ARRIVAL"| == 7 && |"ONSTOP"| == 6 && |"DEPARTURE"| == 9 && |"ONROUTE"| == 7 && |"DELAY"| == 5 && |"OFFROUTE"| == 8 && |"END"| == 3;
    assert "ARRIVAL"[0] == 'A' && "ONROUTE"[0] == 'O';
  }

  lemma FieldRoundTrip(f: Field)
    ensures FieldFrom(FieldName(f)) == Some(f)
  {
    assert "dataownercode"[0] == 'd' && "vehiclenumber"[0] == 'v' && "lineplanningnumber"[0] == 'l' && "journeynumber"[0] == 'j';
    assert "operatingday"[0] == 'o' && "blockcode"[0] == 'b' && "omloopnumber"[0] == 'o' && "userstopcode"[0] == 'u';
    assert "punctuality"[0] == 'p' && "rd-x"[0] == 'r' && "rd-y"[0] == 'r' && "timestamp"[0] == 't';
    assert "rd-x"[3] == 'x' && "rd-y"[3] == 'y';
  }

  lemma FieldIsNoKind(f: Field)
    ensures KindFrom(FieldName(f)) == None
  {
    assert "INIT"[0] == 'I' && "ARRIVAL"[0] == 'A' && "ONSTOP"[0] == 'O' && "DEPARTURE"[0] == 'D' && "ONROUTE"[0] == 'O';
    assert "DELAY"[0] == 'D' && "OFFROUTE"[0] == 'O' && "END"[0] == 'E';
    assert 'a' <= FieldName(f)[0] by {
      assert "dataownercode"[0] == 'd' && "vehiclenumber"[0] == 'v' && "lineplanningnumber"[0] == 'l' && "journeynumber"[0] == 'j';
      assert "operatingday"[0] == 'o' && "blockcode"[0] == 'b' && "userstopcode"[0] == 'u';
      assert "punctuality"[0] == 'p' && "rd-x"[0] == 'r' && "rd-y"[0] == 'r' && "timestamp"[0] == 't';
    }
  }

  // ---------------------------------------------------------------- one record

  datatype Reading = Reading(
    dataowner: Option<string>, vehicleNumber: Option<string>, line: Option<string>, journey: Option<string>,
    operatingDay: Option<string>, blockCode: Option<string>, userStopCode: Option<string>,
    punctuality: Option<I32>, rdX: Option<Num>, rdY: Option<Num>, timestamp: Option<Instant>)

  const NOTHING := Reading(None, None, None, None, None, None, None, None, None, None, None)

  predicate PositiveOrNone(n: Option<Num>) {
    n.Some? ==> n.value.Finite? && n.value.v > 0.0
  }

  /** A coordinate counts only when positive. */
  function Positive(n: Option<Num>): (r: Option<Num>)
    ensures PositiveOrNone(r)
  {
    if n.Some? && n.value.Finite? && n.value.v > 0.0 then n else None
  }

  /** `Builder::set`. */
  function WithLeaf(b: Reading, name: string, text: string, rd: Reader): Reading {
    var v := rd.trim(text);
    if v == "" then b
    else
      match FieldFrom(name)
      case None => b
      case Some(DataOwner) => b.(dataowner := Some(v))
      case Some(VehicleNumber) => b.(vehicleNumber := Some(v))
      case Some(Line) => b.(line := Some(v))
      case Some(JourneyNumber) => b.(journey := Some(v))
      case Some(OperatingDay) => b.(operatingDay := Some(v))
      case Some(Block) => if b.blockCode.GetOr("") == "" then b.(blockCode := Some(v)) else b
      case Some(UserStop) => b.(userStopCode := Some(v))
      case Some(Punctuality) => b.(punctuality := rd.i32(v))
      case Some(RdX) => b.(rdX := Positive(rd.f64(v)))
      case Some(RdY) => b.(rdY := Positive(rd.f64(v)))
      case Some(Timestamp) => b.(timestamp := rd.instant(v))
  }

  /** `Builder::build`. */
  function Built(kind: MessageKind, b: Reading, now: Instant): Option<PosEvent> {
    if b.dataowner.None? || b.vehicleNumber.None? || b.vehicleNumber.value == "0" then None
    else Some(PosEvent(VehicleKey(b.dataowner.value, b.vehicleNumber.value), kind, b.line, b.journey, b.operatingDay, b.blockCode,
                       b.rdX, b.rdY, None, None, None, None, None, b.punctuality, b.userStopCode, b.timestamp.GetOr(now)))
  }

  class Builder {
    const kind: MessageKind
    var dataowner: Option<string>
    var vehicleNumber: Option<string>
    var line: Option<string>
    var journey: Option<string>
    var operatingDay: Option<string>
    var blockCode: Option<string>
    var userStopCode: Option<string>
    var punctuality: Option<I32>
    var rdX: Option<Num>
    var rdY: Option<Num>
    var timestamp: Option<Instant>

    ghost function Value(): Reading
      reads this
    {
      Reading(dataowner, vehicleNumber, line, journey, operatingDay, blockCode, userStopCode, punctuality, rdX, rdY, timestamp)
    }

    constructor (kind: MessageKind)
      ensures this.kind == kind && Value() == NOTHING
    {
      this.kind := kind;
      dataowner, vehicleNumber, line, journey, operatingDay := None, None, None, None, None;
      blockCode, userStopCode, punctuality, rdX, rdY, timestamp := None, None, None, None, None, None;
    }

    method Set(name: string, text: string, rd: Reader)
      modifies this
      ensures Value() == WithLeaf(old(Value()), name, text, rd)
    {
      var v := rd.trim(text);
      if v == "" {
        return;
      }
      match FieldFrom(name)
      case None =>
      case Some(DataOwner) => dataowner := Some(v);
      case Some(VehicleNumber) => vehicleNumber := Some(v);
      case Some(Line) => line := Some(v);
      case Some(JourneyNumber) => journey := Some(v);
      case Some(OperatingDay) => operatingDay := Some(v);
      case Some(Block) =>
        // Two element names for one value: keep what is there.
        if blockCode.GetOr("") == "" {
          blockCode := Some(v);
        }
      case Some(UserStop) => userStopCode := Some(v);
      case Some(Punctuality) => punctuality := rd.i32(v);
      case Some(RdX) => rdX := Positive(rd.f64(v));
      case Some(RdY) => rdY := Positive(rd.f64(v));
      case Some(Timestamp) => timestamp := rd.instant(v);
    }

    method Build(now: Instant) returns (ev: Option<PosEvent>)
      ensures ev == Built(kind, Value(), now)
    {
      if dataowner.None? || vehicleNumber.None? {
        return None;
      }
      // 0 is the feed's "vehicle unknown": all such records would share one key.
      if vehicleNumber.value == "0" {
        return None;
      }
      ev := Some(PosEvent(VehicleKey(dataowner.value, vehicleNumber.value), kind, line, journey, operatingDay, blockCode,
                          rdX, rdY, None, None, None, None, None, punctuality, userStopCode, timestamp.GetOr(now)));
    }
  }

  // ---------------------------------------------------------------- the token machine

  /** The record being read, if any, and the leaf whose text comes next. */
  datatype Machine = Machine(events: seq<PosEvent>, cur: Option<(MessageKind, Reading)>, field: Option<string>)

  const IDLE := Machine([], None, None)

  function Step(m: Machine, t: Token, rd: Reader, now: Instant): Machine {
    match t
    case Start(name, _) => (
      if m.cur.None? then
        if KindFrom(name).Some? then m.(cur := Some((KindFrom(name).value, NOTHING)), field := None) else m
      else m.(field := Some(name)))
    case Text(text) => (
      if m.cur.Some? && m.field.Some? then m.(cur := Some((m.cur.value.0, WithLeaf(m.cur.value.1, m.field.value, text, rd))))
      else m)
    case End(name) => (
      if m.cur.Some? && KindFrom(name) == Some(m.cur.value.0) then
        var ev := Built(m.cur.value.0, m.cur.value.1, now);
        Machine(if ev.Some? then m.events + [ev.value] else m.events, None, None)
      else m.(field := None))
  }

  function Stepper(rd: Reader, now: Instant): (Machine, Token) -> Machine {
    (m, t) => Step(m, t, rd, now)
  }

  function Run(m: Machine, ts: seq<Token>, rd: Reader, now: Instant): Machine {
    Fold(Stepper(rd, now), m, ts)
  }

  function Parsed(ts: seq<Token>, rd: Reader, now: Instant): seq<PosEvent> {
    Run(IDLE, ts, rd, now).events
  }

  /** `parse_kv6` over the tokens up to the end of the document or its first syntax error. */
  method ParseKv6(ts: seq<Token>, rd: Reader, now: Instant) returns (events: seq<PosEvent>)
    ensures events == Parsed(ts, rd, now)
  {
    events := [];
    var cur: Builder? := null;
    var field: Option<string> := None;
    for i := 0 to |ts|
      invariant cur != null ==> fresh(cur)
      invariant Run(IDLE, ts[..i], rd, now)
             == Machine(events, if cur == null then None else Some((cur.kind, cur.Value())), field)
    {
      assert ts[..i + 1][..i] == ts[..i];
      match ts[i]
      case Start(name, _) =>
        var kind := KindFrom(name);
        if cur == null {
          if kind.Some? {
            cur := new Builder(kind.value);
            field := None;
          }
        } else {
          field := Some(name);
        }
      case Text(text) =>
        if cur != null && field.Some? {
          cur.Set(field.value, text, rd);
        }
      case End(name) =>
        if cur != null && KindFrom(name) == Some(cur.kind) {
          var ev := cur.Build(now);
          cur := null;
          if ev.Some? {
            events := events + [ev.value];
          }
        }
        field := None;
    }
    assert ts[..|ts|] == ts;
  }

  // ---------------------------------------------------------------- any token stream

  /** Cutting a document short, as a syntax error does, keeps the events read so far. */
  lemma {:induction false} EventsOnlyGrow(m: Machine, ts: seq<Token>, rd: Reader, now: Instant)
    ensures m.events <= Run(m, ts, rd, now).events
  {
    if ts != [] {
      EventsOnlyGrow(m, ts[..|ts| - 1], rd, now);
    }
  }

  lemma CutShort(ts: seq<Token>, n: nat, rd: Reader, now: Instant)
    requires n <= |ts|
    ensures Parsed(ts[..n], rd, now) <= Parsed(ts, rd, now)
  {
    assert ts == ts[..n] + ts[n..];
    FoldAppend(Stepper(rd, now), IDLE, ts[..n], ts[n..]);
    EventsOnlyGrow(Run(IDLE, ts[..n], rd, now), ts[n..], rd, now);
  }

  /** What every decoded event promises: a usable key, Rijksdriehoek positions or none. */
  ghost predicate Sane(e: PosEvent) {
    && e.key.vehicleNumber != "0" && e.key.vehicleNumber != "" && e.key.dataowner != ""
    && e.lat.None? && e.lon.None? && e.bearing.None? && e.speedKmh.None? && e.vehicleType.None?
    && PositiveOrNone(e.rdX) && PositiveOrNone(e.rdY)
    && (e.blockCode.Some? ==> e.blockCode.value != "")
  }

  ghost predicate SaneReading(b: Reading) {
    && b.dataowner != Some("") && b.vehicleNumber != Some("") && b.blockCode != Some("")
    && PositiveOrNone(b.rdX) && PositiveOrNone(b.rdY)
  }

  ghost predicate SaneMachine(m: Machine) {
    && (forall e :: e in m.events ==> Sane(e))
    && (m.cur.Some? ==> SaneReading(m.cur.value.1)) && (m.cur.None? ==> m.field.None?)
  }

  /** However garbled the stream, every event that comes out is sane. */
  lemma {:induction false} EveryEventIsSane(ts: seq<Token>, rd: Reader, now: Instant)
    ensures SaneMachine(Run(IDLE, ts, rd, now))
    ensures forall e :: e in Parsed(ts, rd, now) ==> Sane(e)
  {
    if ts != [] {
      EveryEventIsSane(ts[..|ts| - 1], rd, now);
      StepIsSane(Run(IDLE, ts[..|ts| - 1], rd, now), ts[|ts| - 1], rd, now);
    }
  }

  lemma StepIsSane(m: Machine, t: Token, rd: Reader, now: Instant)
    requires SaneMachine(m)
    ensures SaneMachine(Step(m, t, rd, now))
  {
    if t.Text? && m.cur.Some? && m.field.Some? {
      LeafIsSane(m.cur.value.1, m.field.value, t.text, rd);
    }
    hide WithLeaf, KindFrom;
  }

  lemma LeafIsSane(b: Reading, name: string, text: string, rd: Reader)
    requires SaneReading(b)
    ensures SaneReading(WithLeaf(b, name, text, rd))
  {
    hide FieldFrom, Positive, PositiveOrNone;
  }

  /** A document splits wherever no record is open. */
  lemma ParseSplits(a: seq<Token>, b: seq<Token>, rd: Reader, now: Instant)
    requires Run(IDLE, a, rd, now).cur.None?
    ensures Parsed(a + b, rd, now) == Parsed(a, rd, now) + Parsed(b, rd, now)
  {
    EveryEventIsSane(a, rd, now);
    FoldAppend(Stepper(rd, now), IDLE, a, b);
    EventsFrame(IDLE, Parsed(a, rd, now), b, rd, now);
    assert Parsed(a, rd, now) + [] == Parsed(a, rd, now);
  }

  lemma {:induction false} EventsFrame(m: Machine, before: seq<PosEvent>, ts: seq<Token>, rd: Reader, now: Instant)
    ensures Run(m.(events := before + m.events), ts, rd, now)
         == Run(m, ts, rd, now).(events := before + Run(m, ts, rd, now).events)
  {
    if ts != [] {
      EventsFrame(m, before, ts[..|ts| - 1], rd, now);
      var r := Run(m, ts[..|ts| - 1], rd, now);
      forall e: PosEvent ensures before + (r.events + [e]) == before + r.events + [e] {}
    }
  }

  // ---------------------------------------------------------------- documents of records

  datatype Record = Record(kind: MessageKind, leaves: seq<Leaf>)

  /** Between records anything may stand that does not open one: wrappers, headers, text. */
  datatype Item = Rec(record: Record) | Stray(token: Token)

  function RecordTokens(r: Record): seq<Token> {
    [Start(KindName(r.kind), map[])] + LeavesTokens(r.leaves) + [Token.End(KindName(r.kind))]
  }

  function ItemTokens(i: Item): seq<Token> {
    match i
    case Rec(r) => RecordTokens(r)
    case Stray(t) => [t]
  }

  function DocTokens(items: seq<Item>): seq<Token> {
    if items == [] then [] else DocTokens(items[..|items| - 1]) + ItemTokens(items[|items| - 1])
  }

  /** No leaf is named like the record that holds it (which would close it early). */
  predicate WellFormed(i: Item) {
    match i
    case Rec(r) => forall l :: l in r.leaves ==> KindFrom(l.name) != Some(r.kind)
    case Stray(t) => t.Start? ==> KindFrom(t.name).None?
  }

  function ReadAll(ls: seq<Leaf>, rd: Reader): Reading {
    if ls == [] then NOTHING
    else WithLeaf(ReadAll(ls[..|ls| - 1], rd), ls[|ls| - 1].name, ls[|ls| - 1].text, rd)
  }

  function EventOf(i: Item, rd: Reader, now: Instant): Option<PosEvent> {
    match i
    case Rec(r) => Built(r.kind, ReadAll(r.leaves, rd), now)
    case Stray(_) => None
  }

  function DocEvents(items: seq<Item>, rd: Reader, now: Instant): seq<PosEvent> {
    if items == [] then []
    else DocEvents(items[..|items| - 1], rd, now) + OneOrNone(EventOf(items[|items| - 1], rd, now))
  }

  function OneOrNone<T>(o: Option<T>): seq<T> {
    if o.Some? then [o.value] else []
  }

  lemma {:induction false} LeavesParse(m: Machine, kind: MessageKind, ls: seq<Leaf>, rd: Reader, now: Instant)
    requires m.cur == Some((kind, NOTHING)) && m.field == None
    requires forall l :: l in ls ==> KindFrom(l.name) != Some(kind)
    ensures Run(m, LeavesTokens(ls), rd, now) == m.(cur := Some((kind, ReadAll(ls, rd))))
  {
    if ls != [] {
      var front, l := ls[..|ls| - 1], ls[|ls| - 1];
      assert l in ls;
      LeavesParse(m, kind, front, rd, now);
      FoldAppend(Stepper(rd, now), m, LeavesTokens(front), LeafTokens(l));
      FoldLeaf(Stepper(rd, now), Run(m, LeavesTokens(front), rd, now), l);
      hide WithLeaf, KindFrom;
    }
  }

  lemma ItemParses(m: Machine, i: Item, rd: Reader, now: Instant)
    requires WellFormed(i) && m.cur.None? && m.field.None?
    ensures Run(m, ItemTokens(i), rd, now) == m.(events := m.events + OneOrNone(EventOf(i, rd, now)))
  {
    match i
    case Stray(t) =>
      FoldOne(Stepper(rd, now), m, t);
    case Rec(r) =>
      var name := KindName(r.kind);
      KindRoundTrip(r.kind);
      hide KindName, KindFrom, WithLeaf, Built;
      var inside := m.(cur := Some((r.kind, NOTHING)));
      FoldOne(Stepper(rd, now), m, Start(name, map[]));
      LeavesParse(inside, r.kind, r.leaves, rd, now);
      FoldAppend(Stepper(rd, now), m, [Start(name, map[])], LeavesTokens(r.leaves));
      FoldAppend(Stepper(rd, now), m, [Start(name, map[])] + LeavesTokens(r.leaves), [Token.End(name)]);
      FoldOne(Stepper(rd, now), inside.(cur := Some((r.kind, ReadAll(r.leaves, rd)))), Token.End(name));
  }

  /** A document decodes record by record: each gives its own event or, when it cannot be built,
      nothing, without touching its neighbours. */
  lemma {:induction false} DocParses(items: seq<Item>, rd: Reader, now: Instant)
    requires forall i :: i in items ==> WellFormed(i)
    ensures Run(IDLE, DocTokens(items), rd, now) == IDLE.(events := DocEvents(items, rd, now))
  {
    if items != [] {
      var front, i := items[..|items| - 1], items[|items| - 1];
      assert i in items;
      DocParses(front, rd, now);
      FoldAppend(Stepper(rd, now), IDLE, DocTokens(front), ItemTokens(i));
      ItemParses(Run(IDLE, DocTokens(front), rd, now), i, rd, now);
    }
  }

  /** Exactly the records with an owner and a vehicle number other than 0 give an event. */
  lemma BuildableIff(r: Record, rd: Reader, now: Instant)
    ensures EventOf(Rec(r), rd, now).Some? <==>
      && LastText(r.leaves, DataOwner, rd).Some?
      && LastText(r.leaves, VehicleNumber, rd).Some? && LastText(r.leaves, VehicleNumber, rd) != Some("0")
  {
    ReadingMeans(r.leaves, rd);
    assert FieldMeans(ReadAll(r.leaves, rd), r.leaves, DataOwner, rd) && FieldMeans(ReadAll(r.leaves, rd), r.leaves, VehicleNumber, rd);
  }

  // ---------------------------------------------------------------- what a record says

  predicate Says(l: Leaf, f: Field, rd: Reader) {
    FieldFrom(l.name) == Some(f) && rd.trim(l.text) != ""
  }

  /** The last non-blank text given for a field. */
  function LastText(ls: seq<Leaf>, f: Field, rd: Reader): Option<string> {
    if ls == [] then None
    else if Says(ls[|ls| - 1], f, rd) then Some(rd.trim(ls[|ls| - 1].text))
    else LastText(ls[..|ls| - 1], f, rd)
  }

  /** The first non-blank text given for a field. */
  function FirstText(ls: seq<Leaf>, f: Field, rd: Reader): Option<string> {
    if ls == [] then None
    else
      var before := FirstText(ls[..|ls| - 1], f, rd);
      if before.None? && Says(ls[|ls| - 1], f, rd) then Some(rd.trim(ls[|ls| - 1].text)) else before
  }

  function Bind<A, B>(o: Option<A>, f: A -> Option<B>): Option<B> {
    if o.Some? then f(o.value) else None
  }

  /** The last mention counts, except that a block keeps its first; an unreadable last mention of
      a number or time leaves none. */
  ghost predicate FieldMeans(b: Reading, ls: seq<Leaf>, f: Field, rd: Reader) {
    match f
    case DataOwner => b.dataowner == LastText(ls, f, rd)
    case VehicleNumber => b.vehicleNumber == LastText(ls, f, rd)
    case Line => b.line == LastText(ls, f, rd)
    case JourneyNumber => b.journey == LastText(ls, f, rd)
    case OperatingDay => b.operatingDay == LastText(ls, f, rd)
    case Block => b.blockCode == FirstText(ls, f, rd) && b.blockCode != Some("")
    case UserStop => b.userStopCode == LastText(ls, f, rd)
    case Punctuality => b.punctuality == Bind(LastText(ls, f, rd), rd.i32)
    case RdX => b.rdX == Positive(Bind(LastText(ls, f, rd), rd.f64))
    case RdY => b.rdY == Positive(Bind(LastText(ls, f, rd), rd.f64))
    case Timestamp => b.timestamp == Bind(LastText(ls, f, rd), rd.instant)
  }

  ghost predicate Means(b: Reading, ls: seq<Leaf>, rd: Reader) {
    forall f :: FieldMeans(b, ls, f, rd)
  }

  lemma {:induction false} ReadingMeans(ls: seq<Leaf>, rd: Reader)
    ensures Means(ReadAll(ls, rd), ls, rd)
  {
    if ls != [] {
      ReadingMeans(ls[..|ls| - 1], rd);
      forall f ensures FieldMeans(ReadAll(ls, rd), ls, f, rd) {
        assert FieldMeans(ReadAll(ls[..|ls| - 1], rd), ls[..|ls| - 1], f, rd);
        LeafMeans(ReadAll(ls[..|ls| - 1], rd), ls, f, rd);
      }
      hide FieldMeans;
    }
  }

  lemma LeafMeans(b: Reading, ls: seq<Leaf>, f: Field, rd: Reader)
    requires ls != [] && FieldMeans(b, ls[..|ls| - 1], f, rd)
    ensures FieldMeans(WithLeaf(b, ls[|ls| - 1].name, ls[|ls| - 1].text, rd), ls, f, rd)
  {
    hide FieldFrom;
  }

  /** The element names that count, and what for. */
  lemma NamesMean()
    ensures KindFrom("INIT") == Some(Init) && KindFrom("ARRIVAL") == Some(Arrival) && KindFrom("ONSTOP") == Some(OnStop)
    ensures KindFrom("DEPARTURE") == Some(MessageKind.Departure) && KindFrom("ONROUTE") == Some(OnRoute) && KindFrom("DELAY") == Some(MessageKind.Delay)
    ensures KindFrom("OFFROUTE") == Some(Offroute) && KindFrom("END") == Some(MessageKind.End)
    ensures FieldFrom("dataownercode") == Some(DataOwner) && FieldFrom("vehiclenumber") == Some(VehicleNumber)
    ensures FieldFrom("lineplanningnumber") == Some(Line) && FieldFrom("journeynumber") == Some(JourneyNumber)
    ensures FieldFrom("operatingday") == Some(OperatingDay) && FieldFrom("userstopcode") == Some(UserStop)
    ensures FieldFrom("blockcode") == Some(Block) && FieldFrom("omloopnumber") == Some(Block)
    ensures FieldFrom("punctuality") == Some(Punctuality) && FieldFrom("timestamp") == Some(Timestamp)
    ensures FieldFrom("rd-x") == Some(RdX) && FieldFrom("rd-y") == Some(RdY)
  {
    KindRoundTrip(Init);
    KindRoundTrip(Arrival);
    KindRoundTrip(OnStop);
    KindRoundTrip(MessageKind.Departure);
    KindRoundTrip(OnRoute);
    KindRoundTrip(MessageKind.Delay);
    KindRoundTrip(Offroute);
    KindRoundTrip(MessageKind.End);
    hide KindFrom;
    forall f {:trigger FieldFrom(FieldName(f))} ensures FieldFrom(FieldName(f)) == Some(f) {
      FieldRoundTrip(f);
    }
    assert FieldFrom(FieldName(DataOwner)) == Some(DataOwner) && FieldFrom(FieldName(VehicleNumber)) == Some(VehicleNumber);
    assert FieldFrom(FieldName(Line)) == Some(Line) && FieldFrom(FieldName(JourneyNumber)) == Some(JourneyNumber);
    assert FieldFrom(FieldName(OperatingDay)) == Some(OperatingDay) && FieldFrom(FieldName(UserStop)) == Some(UserStop);
    assert FieldFrom(FieldName(Block)) == Some(Block) && FieldFrom(FieldName(Punctuality)) == Some(Punctuality);
    assert FieldFrom(FieldName(Timestamp)) == Some(Timestamp) && FieldFrom(FieldName(RdX)) == Some(RdX) && FieldFrom(FieldName(RdY)) == Some(RdY);
    Omloop();
    hide FieldFrom;
  }

  lemma Omloop()
    ensures FieldFrom("omloopnumber") == Some(Block)
  {
    assert "dataownercode"[0] == 'd' && "vehiclenumber"[0] == 'v' && "lineplanningnumber"[0] == 'l' && "journeynumber"[0] == 'j';
    assert "operatingday"[1] == 'p' && "omloopnumber"[1] == 'm' && "omloopnumber"[0] == 'o' && "blockcode"[0] == 'b';
  }

  predicate OverZero(n: Option<Num>) {
    n.Some? && n.value.Finite? && n.value.v > 0.0
  }

  /** The event of a record, field by field: what its leaves last said, the block what they said first;
      a coordinate only if readable and positive; the time as read, or else the time of decoding. */
  lemma RecordSays(r: Record, rd: Reader, now: Instant)
    requires EventOf(Rec(r), rd, now).Some?
    ensures var e, ls := EventOf(Rec(r), rd, now).value, r.leaves;
      var x, y := Bind(LastText(ls, RdX, rd), rd.f64), Bind(LastText(ls, RdY, rd), rd.f64);
      var time := Bind(LastText(ls, Timestamp, rd), rd.instant);
      && e.kind == r.kind
      && LastText(ls, DataOwner, rd) == Some(e.key.dataowner) && LastText(ls, VehicleNumber, rd) == Some(e.key.vehicleNumber)
      && e.linePlanningNumber == LastText(ls, Line, rd) && e.journeyNumber == LastText(ls, JourneyNumber, rd)
      && e.operatingDay == LastText(ls, OperatingDay, rd) && e.blockCode == FirstText(ls, Block, rd)
      && e.userStopCode == LastText(ls, UserStop, rd) && e.punctuality == Bind(LastText(ls, Punctuality, rd), rd.i32)
      && e.rdX == (if OverZero(x) then x else None) && e.rdY == (if OverZero(y) then y else None)
      && e.timestamp == (if time.Some? then time.value else now)
      && e.lat.None? && e.lon.None? && e.bearing.None? && e.speedKmh.None? && e.vehicleType.None?
  {
    hide ReadAll, LastText, FirstText;
    ReadingMeans(r.leaves, rd);
    var b := ReadAll(r.leaves, rd);
    assert FieldMeans(b, r.leaves, DataOwner, rd) && FieldMeans(b, r.leaves, VehicleNumber, rd) && FieldMeans(b, r.leaves, Line, rd);
    assert FieldMeans(b, r.leaves, JourneyNumber, rd) && FieldMeans(b, r.leaves, OperatingDay, rd) && FieldMeans(b, r.leaves, Block, rd);
    assert FieldMeans(b, r.leaves, UserStop, rd) && FieldMeans(b, r.leaves, Punctuality, rd) && FieldMeans(b, r.leaves, RdX, rd);
    assert FieldMeans(b, r.leaves, RdY, rd) && FieldMeans(b, r.leaves, Timestamp, rd);
    assert EventOf(Rec(r), rd, now) == Built(r.kind, b, now);
    hide FieldMeans, Means;
  }

  // ---------------------------------------------------------------- render and read back

  datatype Writer = Writer(i32: I32 -> string, f64: Num -> string, instant: Instant -> string)

  predicate Back<T(==)>(write: T -> string, read: string -> Option<T>, x: T, rd: Reader) {
    Plain(write(x), rd) && read(write(x)) == Some(x)
  }

  /** What the event carries survives being written and read, and is written trimmed and not
      blank. */
  predicate Faithful(w: Writer, rd: Reader, e: PosEvent) {
    && (e.punctuality.Some? ==> Back(w.i32, rd.i32, e.punctuality.value, rd))
    && (e.rdX.Some? ==> Back(w.f64, rd.f64, e.rdX.value, rd))
    && (e.rdY.Some? ==> Back(w.f64, rd.f64, e.rdY.value, rd))
    && Back(w.instant, rd.instant, e.timestamp, rd)
  }

  predicate Plain(v: string, rd: Reader) {
    v != "" && rd.trim(v) == v
  }

  predicate PlainOpt(v: Option<string>, rd: Reader) {
    v.Some? ==> Plain(v.value, rd)
  }

  /** The events a record can carry. */
  predicate Renderable(e: PosEvent, rd: Reader) {
    && Plain(e.key.dataowner, rd) && Plain(e.key.vehicleNumber, rd) && e.key.vehicleNumber != "0"
    && PlainOpt(e.linePlanningNumber, rd) && PlainOpt(e.journeyNumber, rd) && PlainOpt(e.operatingDay, rd)
    && PlainOpt(e.blockCode, rd) && PlainOpt(e.userStopCode, rd)
    && Positive(e.rdX) == e.rdX && Positive(e.rdY) == e.rdY
    && e.lat.None? && e.lon.None? && e.bearing.None? && e.speedKmh.None? && e.vehicleType.None?
  }

  function Put(ls: seq<Leaf>, f: Field, v: Option<string>): seq<Leaf> {
    if v.Some? then ls + [Leaf(FieldName(f), map[], v.value)] else ls
  }

  function Opt<A, B>(o: Option<A>, f: A -> B): Option<B> {
    if o.Some? then Some(f(o.value)) else None
  }

  function KeyLeaves(e: PosEvent): seq<Leaf> {
    Put(Put([], DataOwner, Some(e.key.dataowner)), VehicleNumber, Some(e.key.vehicleNumber))
  }

  function JourneyLeaves(ls: seq<Leaf>, e: PosEvent): seq<Leaf> {
    Put(Put(Put(ls, Line, e.linePlanningNumber), JourneyNumber, e.journeyNumber), OperatingDay, e.operatingDay)
  }

  function PlaceLeaves(ls: seq<Leaf>, e: PosEvent): seq<Leaf> {
    Put(Put(ls, Block, e.blockCode), UserStop, e.userStopCode)
  }

  function NumberLeaves(ls: seq<Leaf>, e: PosEvent, w: Writer): seq<Leaf> {
    Put(Put(Put(ls, Punctuality, Opt(e.punctuality, w.i32)), RdX, Opt(e.rdX, w.f64)), RdY, Opt(e.rdY, w.f64))
  }

  function Leaves(e: PosEvent, w: Writer): seq<Leaf> {
    Put(NumberLeaves(PlaceLeaves(JourneyLeaves(KeyLeaves(e), e), e), e, w), Timestamp, Some(w.instant(e.timestamp)))
  }

  function Rendered(e: PosEvent, w: Writer): Item {
    Rec(Record(e.kind, Leaves(e, w)))
  }

  // None of these leaves is named like a record.
  predicate NoKinds(ls: seq<Leaf>) {
    forall l :: l in ls ==> KindFrom(l.name) == None
  }

  // What one more leaf does to the reading so far.
  lemma PutReads(ls: seq<Leaf>, f: Field, v: Option<string>, rd: Reader)
    requires PlainOpt(v, rd) && NoKinds(ls)
    ensures v.Some? ==> ReadAll(Put(ls, f, v), rd) == WithLeaf(ReadAll(ls, rd), FieldName(f), v.value, rd)
    ensures v.None? ==> ReadAll(Put(ls, f, v), rd) == ReadAll(ls, rd)
    ensures v.Some? ==> FieldFrom(FieldName(f)) == Some(f)
    ensures NoKinds(Put(ls, f, v))
  {
    FieldRoundTrip(f);
    FieldIsNoKind(f);
    hide KindFrom, FieldFrom, FieldName, WithLeaf;
    if v.Some? {
      assert Put(ls, f, v)[..|ls|] == ls;
    }
  }

  lemma KeyReads(e: PosEvent, rd: Reader)
    requires Renderable(e, rd)
    ensures NoKinds(KeyLeaves(e))
    ensures ReadAll(KeyLeaves(e), rd) == NOTHING.(dataowner := Some(e.key.dataowner), vehicleNumber := Some(e.key.vehicleNumber))
  {
    EmptyReads(rd);
    hide FieldFrom, FieldName, KindFrom, Put, ReadAll;
    PutReads([], DataOwner, Some(e.key.dataowner), rd);
    PutReads(Put([], DataOwner, Some(e.key.dataowner)), VehicleNumber, Some(e.key.vehicleNumber), rd);
  }

  lemma JourneyReads(ls: seq<Leaf>, e: PosEvent, rd: Reader)
    requires Renderable(e, rd) && NoKinds(ls)
    requires var b := ReadAll(ls, rd); b.line.None? && b.journey.None? && b.operatingDay.None?
    ensures NoKinds(JourneyLeaves(ls, e))
    ensures ReadAll(JourneyLeaves(ls, e), rd)
         == ReadAll(ls, rd).(line := e.linePlanningNumber, journey := e.journeyNumber, operatingDay := e.operatingDay)
  {
    hide FieldFrom, FieldName, KindFrom, Put, ReadAll;
    var l1 := Put(ls, Line, e.linePlanningNumber);
    var l2 := Put(l1, JourneyNumber, e.journeyNumber);
    PutReads(ls, Line, e.linePlanningNumber, rd);
    PutReads(l1, JourneyNumber, e.journeyNumber, rd);
    PutReads(l2, OperatingDay, e.operatingDay, rd);
  }

  lemma PlaceReads(ls: seq<Leaf>, e: PosEvent, rd: Reader)
    requires Renderable(e, rd) && NoKinds(ls)
    requires var b := ReadAll(ls, rd); b.blockCode.None? && b.userStopCode.None?
    ensures NoKinds(PlaceLeaves(ls, e))
    ensures ReadAll(PlaceLeaves(ls, e), rd) == ReadAll(ls, rd).(blockCode := e.blockCode, userStopCode := e.userStopCode)
  {
    hide FieldFrom, FieldName, KindFrom, Put, ReadAll;
    PutReads(ls, Block, e.blockCode, rd);
    PutReads(Put(ls, Block, e.blockCode), UserStop, e.userStopCode, rd);
  }

  lemma OptBack<T>(o: Option<T>, write: T -> string, read: string -> Option<T>, rd: Reader)
    requires o.Some? ==> Back(write, read, o.value, rd)
    ensures PlainOpt(Opt(o, write), rd) && Bind(Opt(o, write), read) == o
  {}

  lemma NumberReads(ls: seq<Leaf>, e: PosEvent, w: Writer, rd: Reader)
    requires Faithful(w, rd, e) && Renderable(e, rd) && NoKinds(ls)
    requires var b := ReadAll(ls, rd); b.punctuality.None? && b.rdX.None? && b.rdY.None?
    ensures NoKinds(NumberLeaves(ls, e, w))
    ensures ReadAll(NumberLeaves(ls, e, w), rd) == ReadAll(ls, rd).(punctuality := e.punctuality, rdX := e.rdX, rdY := e.rdY)
  {
    OptBack(e.punctuality, w.i32, rd.i32, rd);
    OptBack(e.rdX, w.f64, rd.f64, rd);
    OptBack(e.rdY, w.f64, rd.f64, rd);
    hide KindFrom, FieldFrom;
    var l1 := Put(ls, Punctuality, Opt(e.punctuality, w.i32));
    var l2 := Put(l1, RdX, Opt(e.rdX, w.f64));
    NumberRead(ls, Punctuality, Opt(e.punctuality, w.i32), rd);
    NumberRead(l1, RdX, Opt(e.rdX, w.f64), rd);
    NumberRead(l2, RdY, Opt(e.rdY, w.f64), rd);
    hide *;
  }

  lemma NumberRead(ls: seq<Leaf>, f: Field, v: Option<string>, rd: Reader)
    requires PlainOpt(v, rd) && NoKinds(ls)
    requires f == Punctuality || f == RdX || f == RdY
    ensures NoKinds(Put(ls, f, v))
    ensures ReadAll(Put(ls, f, v), rd) ==
      var b := ReadAll(ls, rd);
      if v.None? then b
      else if f == Punctuality then b.(punctuality := Bind(v, rd.i32))
      else if f == RdX then b.(rdX := Positive(Bind(v, rd.f64)))
      else b.(rdY := Positive(Bind(v, rd.f64)))
  {
    hide FieldFrom, FieldName, KindFrom, Put, ReadAll;
    PutReads(ls, f, v, rd);
  }

  lemma RenderReads(e: PosEvent, w: Writer, rd: Reader, now: Instant)
    requires Faithful(w, rd, e) && Renderable(e, rd)
    ensures WellFormed(Rendered(e, w)) && EventOf(Rendered(e, w), rd, now) == Some(e)
  {
    hide FieldFrom, FieldName, KindFrom, Put, ReadAll, KeyLeaves, JourneyLeaves, PlaceLeaves, NumberLeaves;
    var k := KeyLeaves(e);
    var j := JourneyLeaves(k, e);
    var p := PlaceLeaves(j, e);
    KeyReads(e, rd);
    JourneyReads(k, e, rd);
    PlaceReads(j, e, rd);
    NumberReads(p, e, w, rd);
    assert Back(w.instant, rd.instant, e.timestamp, rd);
    PutReads(NumberLeaves(p, e, w), Timestamp, Some(w.instant(e.timestamp)), rd);
  }

  lemma EmptyReads(rd: Reader)
    ensures ReadAll([], rd) == NOTHING
  {}

  /** Rendering any list of events and decoding it gives the list back. */
  lemma {:induction false} DecodeUndoesRender(es: seq<PosEvent>, w: Writer, rd: Reader, now: Instant)
    requires forall e :: e in es ==> Faithful(w, rd, e) && Renderable(e, rd)
    ensures Parsed(DocTokens(Map(es, e => Rendered(e, w))), rd, now) == es
  {
    var items := Map(es, e => Rendered(e, w));
    forall k | 0 <= k < |es| ensures WellFormed(items[k]) && EventOf(items[k], rd, now) == Some(es[k]) {
      assert es[k] in es;
      RenderReads(es[k], w, rd, now);
    }
    DocParses(items, rd, now);
    AllEvents(items, es, rd, now);
  }

  lemma {:induction false} AllEvents(items: seq<Item>, es: seq<PosEvent>, rd: Reader, now: Instant)
    requires |items| == |es| && forall k :: 0 <= k < |es| ==> EventOf(items[k], rd, now) == Some(es[k])
    ensures DocEvents(items, rd, now) == es
  {
    if es != [] {
      AllEvents(items[..|items| - 1], es[..|es| - 1], rd, now);
    }
  }

  /** Such readers, writers and events exist, with every number present. */
  lemma RoundTripsExist()
    returns (w: Writer, rd: Reader, e: PosEvent)
    ensures Faithful(w, rd, e) && Renderable(e, rd) && e.punctuality.Some? && e.rdX.Some? && e.rdY.Some?
  {
    w := Writer((n: I32) => "n", (x: Num) => if x == Finite(120700.0) then "x" else "y", (t: Instant) => "t");
    rd := Reader((s: string) => s, (s: string) => Some(-30), (s: string) => Some(Finite(if s == "x" then 120700.0 else 487200.0)),
                 (s: string) => None, (s: string) => Some(7));
    e := PosEvent(VehicleKey("RET", "1001"), OnRoute, Some("M1"), Some("4001"), None, None, Some(Finite(120700.0)), Some(Finite(487200.0)),
                  None, None, None, None, None, Some(-30), None, 7);
    assert "x" != "y" && "1001" != "0" by {
      assert "x"[0] == 'x' && "y"[0] == 'y' && |"1001"| == 4;
    }
  }
}

/** Decoding train journey revisions into delay curves (crates/realtime/src/ns_rit.rs). */
module RitInfo {
  import opened Collections
  import opened Domain
  import opened Xml
  import opened TrainDelays

  const STATION: string := "LogischeRitDeelStation"
  const KIND: string := "TreinSoort"
  const NUMBER: string := "TreinNummer"
  const DAY: string := "TreinDatum"
  const DEPARTURE: string := "VertrekTijd"
  const ARRIVAL: string := "AankomstTijd"

  // ---------------------------------------------------------------- one station

  /** Planned and actual times, as named: departure first because it is the later one. */
  datatype Times = Times(plannedDep: Option<Instant>, actualDep: Option<Instant>, plannedArr: Option<Instant>, actualArr: Option<Instant>)

  const NO_TIMES := Times(None, None, None, None)

  /** `as i32` on an integer wraps. */
  function WrapI32(n: int): I32 {
    (n + 2_147_483_648) % 4_294_967_296 - 2_147_483_648
  }

  function PointAt(planned: Instant, actual: Instant): DelayPoint {
    DelayPoint(actual, WrapI32(WholeSeconds(actual - planned)))
  }

  /** `StationTimes::point`. */
  function Point(t: Times): Option<DelayPoint> {
    if t.plannedDep.Some? && t.actualDep.Some? then Some(PointAt(t.plannedDep.value, t.actualDep.value))
    else if t.plannedArr.Some? && t.actualArr.Some? then Some(PointAt(t.plannedArr.value, t.actualArr.value))
    else None
  }

  /** Short of 68 years of delay the wrap is invisible: shifting the plan by the delay gives the
      actual time, to the second. */
  lemma PointIsExact(planned: Instant, actual: Instant)
    requires -2_147_483_648 * SECOND <= actual - planned < 2_147_483_648 * SECOND
    ensures var d := PointAt(planned, actual).delaySeconds;
      (actual >= planned ==> 0 <= actual - (planned + d * SECOND) < SECOND) && (actual < planned ==> 0 <= planned + d * SECOND - actual < SECOND)
  {}

  /** The first time given for each of the four is kept. */
  function WithTime(t: Times, name: string, actual: bool, at: Instant): Times {
    if name == DEPARTURE then
      if actual then (if t.actualDep.None? then t.(actualDep := Some(at)) else t)
      else (if t.plannedDep.None? then t.(plannedDep := Some(at)) else t)
    else if name == ARRIVAL then
      if actual then (if t.actualArr.None? then t.(actualArr := Some(at)) else t)
      else (if t.plannedArr.None? then t.(plannedArr := Some(at)) else t)
    else t
  }

  // ---------------------------------------------------------------- the token machine

  /** What has been read; `station` is the block being read, if any. */
  datatype Core = Core(number: Option<string>, day: Option<string>, lineCode: Option<string>, points: seq<DelayPoint>, station: Option<Times>)

  datatype Machine = Machine(core: Core, field: Option<string>, actual: bool)

  const IDLE := Machine(Core(None, None, None, [], None), None, false)

  function Attr(attrs: map<string, string>, name: string): Option<string> {
    if name in attrs then Some(attrs[name]) else None
  }

  function NonEmpty(o: Option<string>): Option<string> {
    if o == Some("") then None else o
  }

  predicate IsActual(attrs: map<string, string>) {
    Attr(attrs, "InfoStatus") == Some("Actueel")
  }

  /** One non-blank text `v` in a leaf. */
  function WithText(c: Core, name: string, actual: bool, v: string, rd: Reader): Core {
    if name == NUMBER && c.number.None? then c.(number := Some(v))
    else if name == DAY && c.day.None? then c.(day := Some(v))
    else if (name == DEPARTURE || name == ARRIVAL) && c.station.Some? && rd.instant(v).Some? then
      c.(station := Some(WithTime(c.station.value, name, actual, rd.instant(v).value)))
    else c
  }

  function Step(m: Machine, t: Token, rd: Reader): Machine {
    match t
    case Start(name, attrs) => (
      if name == STATION then m.(core := m.core.(station := Some(NO_TIMES)))
      else if name == KIND then Machine(m.core.(lineCode := NonEmpty(Attr(attrs, "Code"))), Some(name), false)
      else if name == DEPARTURE || name == ARRIVAL then m.(field := Some(name), actual := IsActual(attrs))
      else m.(field := Some(name), actual := false))
    case Text(text) => (
      if m.field.None? || rd.trim(text) == "" then m
      else m.(core := WithText(m.core, m.field.value, m.actual, rd.trim(text), rd)))
    case End(name) => (
      if name == STATION then m.(core := Closed(m.core), field := None) else m.(field := None))
  }

  function Closed(c: Core): Core {
    if c.station.None? || Point(c.station.value).None? then c.(station := None)
    else c.(station := None, points := c.points + [Point(c.station.value).value])
  }

  function Stepper(rd: Reader): (Machine, Token) -> Machine {
    (m, t) => Step(m, t, rd)
  }

  function Run(m: Machine, ts: seq<Token>, rd: Reader): Machine {
    Fold(Stepper(rd), m, ts)
  }

  function Update(c: Core): Option<TrainUpdate> {
    if c.number.None? then None else Some(TrainUpdate(c.number.value, c.day, c.lineCode, c.points))
  }

  /** `parse_ns_rit`. */
  method ParseNsRit(ts: seq<Token>, rd: Reader) returns (u: Option<TrainUpdate>)
    ensures u == Update(Run(IDLE, ts, rd).core)
  {
    var number: Option<string>, day: Option<string>, lineCode: Option<string> := None, None, None;
    var points: seq<DelayPoint> := [];
    var field: Option<string> := None;
    var actual := false;
    var station: Option<Times> := None;
    var inStationBlock := false;
    for i := 0 to |ts|
      invariant inStationBlock == station.Some?
      invariant Run(IDLE, ts[..i], rd) == Machine(Core(number, day, lineCode, points, station), field, actual)
    {
      hide Point, WithTime;
      assert ts[..i + 1][..i] == ts[..i];
      match ts[i]
      case Start(name, attrs) =>
        if name == STATION {
          station, inStationBlock := Some(NO_TIMES), true;
        } else if name == KIND {
          lineCode := NonEmpty(Attr(attrs, "Code"));
          field, actual := Some(name), false;
        } else if name == DEPARTURE || name == ARRIVAL {
          actual := IsActual(attrs);
          field := Some(name);
        } else {
          field, actual := Some(name), false;
        }
      case Text(text) =>
        if field.Some? && rd.trim(text) != "" {
          var f, v := field.value, rd.trim(text);
          if f == NUMBER && number.None? {
            number := Some(v);
          } else if f == DAY && day.None? {
            day := Some(v);
          } else if (f == DEPARTURE || f == ARRIVAL) && inStationBlock {
            var at := rd.instant(v);
            if at.Some? {
              station := Some(WithTime(station.value, f, actual, at.value));
            }
          }
        }
      case End(name) =>
        if name == STATION {
          if station.Some? {
            var p := Point(station.value);
            if p.Some? {
              points := points + [p.value];
            }
          }
          station, inStationBlock := None, false;
        }
        field := None;
    }
    assert ts[..|ts|] == ts;
    u := if number.None? then None else Some(TrainUpdate(number.value, day, lineCode, points));
  }

  // ---------------------------------------------------------------- journey documents

  /** A leaf, or the start or end tag of some wrapper. */
  datatype Bit = LeafBit(leaf: Leaf) | Wrap(token: Token)

  datatype Item = Bare(bit: Bit) | Block(bits: seq<Bit>)

  predicate WellFormedBit(b: Bit) {
    match b
    case LeafBit(l) => l.name != STATION
    case Wrap(t) => (t.Start? && t.name != STATION && t.name != KIND) || (t.End? && t.name != STATION)
  }

  predicate WellFormed(i: Item) {
    match i
    case Bare(b) => WellFormedBit(b)
    case Block(bits) => forall b :: b in bits ==> WellFormedBit(b)
  }

  function BitTokens(b: Bit): seq<Token> {
    match b
    case LeafBit(l) => LeafTokens(l)
    case Wrap(t) => [t]
  }

  function BitsTokens(bits: seq<Bit>): seq<Token> {
    if bits == [] then [] else BitsTokens(bits[..|bits| - 1]) + BitTokens(bits[|bits| - 1])
  }

  function ItemTokens(i: Item): seq<Token> {
    match i
    case Bare(b) => BitTokens(b)
    case Block(bits) => [Start(STATION, map[])] + BitsTokens(bits) + [Token.End(STATION)]
  }

  function DocTokens(items: seq<Item>): seq<Token> {
    if items == [] then [] else DocTokens(items[..|items| - 1]) + ItemTokens(items[|items| - 1])
  }

  /** All leaves of a document in order. */
  function Bits(items: seq<Item>): seq<Bit> {
    if items == [] then []
    else Bits(items[..|items| - 1]) + match items[|items| - 1] case Bare(b) => [b] case Block(bits) => bits
  }

  /** The first non-blank text of the leaves of this name. */
  function FirstText(bits: seq<Bit>, name: string, rd: Reader): Option<string> {
    if bits == [] then None
    else
      var before, b := FirstText(bits[..|bits| - 1], name, rd), bits[|bits| - 1];
      if before.None? && b.LeafBit? && b.leaf.name == name && rd.trim(b.leaf.text) != "" then Some(rd.trim(b.leaf.text)) else before
  }

  /** The line code the last train-kind element gives. */
  function LastCode(bits: seq<Bit>): Option<string> {
    if bits == [] then None
    else
      var b := bits[|bits| - 1];
      if b.LeafBit? && b.leaf.name == KIND then NonEmpty(Attr(b.leaf.attrs, "Code")) else LastCode(bits[..|bits| - 1])
  }

  /** The first readable time of this name and status in a block. */
  function FirstTime(bits: seq<Bit>, name: string, actual: bool, rd: Reader): Option<Instant> {
    if bits == [] then None
    else
      var before, b := FirstTime(bits[..|bits| - 1], name, actual, rd), bits[|bits| - 1];
      if before.None? && b.LeafBit? && b.leaf.name == name && IsActual(b.leaf.attrs) == actual && rd.trim(b.leaf.text) != ""
      then rd.instant(rd.trim(b.leaf.text)) else before
  }

  function BlockTimes(bits: seq<Bit>, rd: Reader): Times {
    Times(FirstTime(bits, DEPARTURE, false, rd), FirstTime(bits, DEPARTURE, true, rd),
          FirstTime(bits, ARRIVAL, false, rd), FirstTime(bits, ARRIVAL, true, rd))
  }

  function Blocks(items: seq<Item>): seq<seq<Bit>> {
    if items == [] then []
    else Blocks(items[..|items| - 1]) + if items[|items| - 1].Block? then [items[|items| - 1].bits] else []
  }

  /** One point per station that has a planned and an actual time of the same kind. */
  function Points(blocks: seq<seq<Bit>>, rd: Reader): seq<DelayPoint> {
    if blocks == [] then [] else Points(blocks[..|blocks| - 1], rd) + PointOf(blocks[|blocks| - 1], rd)
  }

  function PointOf(block: seq<Bit>, rd: Reader): seq<DelayPoint> {
    var p := Point(BlockTimes(block, rd));
    if p.Some? then [p.value] else []
  }

  /** What a document says. */
  function Said(items: seq<Item>, rd: Reader): Core {
    var bits := Bits(items);
    Core(FirstText(bits, NUMBER, rd), FirstText(bits, DAY, rd), LastCode(bits), Points(Blocks(items), rd), None)
  }

  // What has been read after `bits` of a document, `block` of them in the open station.
  ghost predicate Read(c: Core, bits: seq<Bit>, points: seq<DelayPoint>, block: Option<seq<Bit>>, rd: Reader) {
    && c.number == FirstText(bits, NUMBER, rd) && c.day == FirstText(bits, DAY, rd) && c.lineCode == LastCode(bits)
    && c.points == points
    && c.station == if block.None? then None else Some(BlockTimes(block.value, rd))
  }

  lemma BitParses(m: Machine, b: Bit, bits: seq<Bit>, points: seq<DelayPoint>, block: Option<seq<Bit>>, rd: Reader)
    requires WellFormedBit(b) && Read(m.core, bits, points, block, rd)
    ensures Read(Run(m, BitTokens(b), rd).core, bits + [b], points, if block.None? then None else Some(block.value + [b]), rd)
  {
    assert (bits + [b])[..|bits|] == bits;
    assert block.Some? ==> (block.value + [b])[..|block.value|] == block.value;
    match b
    case Wrap(t) =>
      FoldOne(Stepper(rd), m, t);
    case LeafBit(l) =>
      FoldLeaf(Stepper(rd), m, l);
      LeafReads(m, l, rd);
  }

  // A leaf changes what it says and nothing else.
  lemma LeafReads(m: Machine, l: Leaf, rd: Reader)
    requires l.name != STATION
    ensures var v, c := rd.trim(l.text), m.core;
      var d := if l.name == KIND then c.(lineCode := NonEmpty(Attr(l.attrs, "Code"))) else c;
      Step(Step(Step(m, Start(l.name, l.attrs), rd), Text(l.text), rd), Token.End(l.name), rd).core
      == if v == "" then d else WithText(d, l.name, (l.name == DEPARTURE || l.name == ARRIVAL) && IsActual(l.attrs), v, rd)
  {
    hide WithText;
  }

  lemma {:induction false} BitsParse(m: Machine, more: seq<Bit>, bits: seq<Bit>, points: seq<DelayPoint>, block: seq<Bit>, rd: Reader)
    requires (forall b :: b in more ==> WellFormedBit(b)) && Read(m.core, bits, points, Some(block), rd)
    ensures Read(Run(m, BitsTokens(more), rd).core, bits + more, points, Some(block + more), rd)
  {
    NoBits(m, rd);
    hide *;
    if more == [] {
      assert bits + more == bits && block + more == block;
    } else {
      var front, b := more[..|more| - 1], more[|more| - 1];
      assert b in more && more == front + [b];
      BitsParse(m, front, bits, points, block, rd);
      OneMoreBit(m, front, b, rd);
      BitParses(Run(m, BitsTokens(front), rd), b, bits + front, points, Some(block + front), rd);
      assert bits + more == bits + front + [b] && block + more == block + front + [b];
    }
  }

  lemma NoBits(m: Machine, rd: Reader)
    ensures Run(m, BitsTokens([]), rd) == m
  {}

  lemma OneMoreBit(m: Machine, front: seq<Bit>, b: Bit, rd: Reader)
    ensures Run(m, BitsTokens(front + [b]), rd) == Run(Run(m, BitsTokens(front), rd), BitTokens(b), rd)
  {
    assert (front + [b])[..|front|] == front;
    FoldAppend(Stepper(rd), m, BitsTokens(front), BitTokens(b));
  }

  lemma BlockParses(m: Machine, block: seq<Bit>, bits: seq<Bit>, points: seq<DelayPoint>, rd: Reader)
    requires WellFormed(Block(block)) && Read(m.core, bits, points, None, rd)
    ensures Read(Run(m, ItemTokens(Block(block)), rd).core, bits + block, points + PointOf(block, rd), None, rd)
  {
    var at := Step(m, Start(STATION, map[]), rd);
    FoldOne(Stepper(rd), m, Start(STATION, map[]));
    FoldAppend(Stepper(rd), m, [Start(STATION, map[])], BitsTokens(block));
    assert Read(at.core, bits, points, Some([]), rd);
    BitsParse(at, block, bits, points, [], rd);
    assert [] + block == block;
    FoldAppend(Stepper(rd), m, [Start(STATION, map[])] + BitsTokens(block), [Token.End(STATION)]);
    FoldOne(Stepper(rd), Run(at, BitsTokens(block), rd), Token.End(STATION));
  }

  /** A journey document decodes to what it says: the first number and day, the last line code,
      and a point for every station with a planned and an actual time. */
  lemma {:induction false} DocumentDecodes(items: seq<Item>, rd: Reader)
    requires forall i :: i in items ==> WellFormed(i)
    ensures Run(IDLE, DocTokens(items), rd).core == Said(items, rd)
  {
    if items != [] {
      var front, i := items[..|items| - 1], items[|items| - 1];
      assert i in items;
      DocumentDecodes(front, rd);
      FoldAppend(Stepper(rd), IDLE, DocTokens(front), ItemTokens(i));
      var m := Run(IDLE, DocTokens(front), rd);
      assert Read(m.core, Bits(front), Points(Blocks(front), rd), None, rd);
      match i
      case Bare(b) =>
        BitParses(m, b, Bits(front), Points(Blocks(front), rd), None, rd);
        assert Blocks(items) == Blocks(front);
      case Block(block) =>
        BlockParses(m, block, Bits(front), Points(Blocks(front), rd), rd);
        assert Blocks(items)[..|Blocks(items)| - 1] == Blocks(front);
    }
  }

  // ---------------------------------------------------------------- what a block's point is

  /** `d` is the delay of an actual time against a planned one: the difference in whole seconds, toward
      zero, as far as 32 bits tell it. */
  predicate IsDelay(d: int, planned: Instant, actual: Instant) {
    var secs := if actual >= planned then (actual - planned) / 1_000_000_000 else -((planned - actual) / 1_000_000_000);
    (d - secs) % 4_294_967_296 == 0 && -2_147_483_648 <= d < 2_147_483_648
  }

  /** A station's point, from the times its block gives: with a planned and an actual departure it is at
      the actual departure with the delay there; otherwise, with a planned and an actual arrival, at
      the actual arrival with the delay there; otherwise there is none. */
  lemma BlockPoint(block: seq<Bit>, rd: Reader)
    ensures var pd, ad := FirstTime(block, "VertrekTijd", false, rd), FirstTime(block, "VertrekTijd", true, rd);
      var pa, aa, p := FirstTime(block, "AankomstTijd", false, rd), FirstTime(block, "AankomstTijd", true, rd), PointOf(block, rd);
      if pd.Some? && ad.Some? then |p| == 1 && p[0].at == ad.value && IsDelay(p[0].delaySeconds, pd.value, ad.value)
      else if pa.Some? && aa.Some? then |p| == 1 && p[0].at == aa.value && IsDelay(p[0].delaySeconds, pa.value, aa.value)
      else p == []
  {
    var pd, ad := FirstTime(block, "VertrekTijd", false, rd), FirstTime(block, "VertrekTijd", true, rd);
    var pa, aa := FirstTime(block, "AankomstTijd", false, rd), FirstTime(block, "AankomstTijd", true, rd);
    if pd.Some? && ad.Some? {
      PointIsDelay(pd.value, ad.value);
    } else if pa.Some? && aa.Some? {
      PointIsDelay(pa.value, aa.value);
    }
    hide FirstTime, IsDelay, PointAt;
    assert BlockTimes(block, rd) == Times(pd, ad, pa, aa);
    assert pd.Some? && ad.Some? ==> PointOf(block, rd) == [PointAt(pd.value, ad.value)];
  }

  lemma PointIsDelay(planned: Instant, actual: Instant)
    ensures PointAt(planned, actual).at == actual && IsDelay(PointAt(planned, actual).delaySeconds, planned, actual)
  {
    var secs := WholeSeconds(actual - planned);
    assert secs == if actual >= planned then (actual - planned) / 1_000_000_000 else -((planned - actual) / 1_000_000_000);
  }

  /** What marks a time as actual, and a train's line code: the attributes themselves. */
  lemma AttributesRead(attrs: map<string, string>)
    ensures IsActual(attrs) <==> "InfoStatus" in attrs && attrs["InfoStatus"] == "Actueel"
    ensures NonEmpty(Attr(attrs, "Code")) == if "Code" in attrs && attrs["Code"] != "" then Some(attrs["Code"]) else None
  {}

  // ---------------------------------------------------------------- from document to delay

  /** The delay a train shows at `now` after this journey document: unknown exactly when no
      station has a planned and an actual time, else that of the station expected next, or of the
      last one when all are past. */
  lemma DelayEndToEnd(items: seq<Item>, rd: Reader, now: Instant)
    requires (forall i :: i in items ==> WellFormed(i)) && FirstText(Bits(items), NUMBER, rd).Some?
    ensures var u := Update(Run(IDLE, DocTokens(items), rd).core);
      && u.Some? && u.value.points == Points(Blocks(items), rd)
      && (At(Curve(u.value.points), now).None? <==> forall b :: b in Blocks(items) ==> Point(BlockTimes(b, rd)).None?)
      && (At(Curve(u.value.points), now).Some? ==>
            exists k: nat :: Answers(u.value.points, now, k) && At(Curve(u.value.points), now) == Some(u.value.points[k].delaySeconds))
  {
    DocumentDecodes(items, rd);
    AtIsKnown(Points(Blocks(items), rd), now);
    PointsEmpty(Blocks(items), rd);
  }

  lemma {:induction false} PointsEmpty(blocks: seq<seq<Bit>>, rd: Reader)
    ensures Points(blocks, rd) == [] <==> forall b :: b in blocks ==> Point(BlockTimes(b, rd)).None?
  {
    if blocks != [] {
      var front, b := blocks[..|blocks| - 1], blocks[|blocks| - 1];
      PointsEmpty(front, rd);
      hide BlockTimes, Point;
      assert blocks == front + [b];
    }
  }

  /** With distinct expected instants the delay does not depend on the order the station blocks
      come in. */
  lemma BlockOrderIsIrrelevant(items: seq<Item>, others: seq<Item>, rd: Reader, now: Instant)
    requires multiset(Blocks(items)) == multiset(Blocks(others))
    requires var ps := Points(Blocks(items), rd); forall i, j :: 0 <= i < j < |ps| ==> ps[i].at != ps[j].at
    ensures At(Curve(Points(Blocks(items), rd)), now) == At(Curve(Points(Blocks(others), rd)), now)
  {
    PointsPermute(Blocks(items), Blocks(others), rd);
    AtIgnoresListing(Points(Blocks(items), rd), Points(Blocks(others), rd), now);
  }

  lemma {:induction false} PointsPermute(s: seq<seq<Bit>>, t: seq<seq<Bit>>, rd: Reader)
    requires multiset(s) == multiset(t)
    ensures multiset(Points(s, rd)) == multiset(Points(t, rd))
  {
    if s == [] {
      assert |t| == |multiset(t)| == 0;
    } else {
      var x := s[|s| - 1];
      assert s == s[..|s| - 1] + [x] + [];
      assert x in multiset(t);
      var i :| 0 <= i < |t| && t[i] == x;
      var a, b := t[..i], t[i + 1..];
      assert t == a + [x] + b;
      TakeOut(s[..|s| - 1], x, []);
      TakeOut(a, x, b);
      SameRest(multiset(s[..|s| - 1] + []), multiset(a + b), x);
      assert s[..|s| - 1] + [] == s[..|s| - 1];
      PointsPermute(s[..|s| - 1], a + b, rd);
      PointsOne(s[..|s| - 1], x, [], rd);
      PointsOne(a, x, b, rd);
    }
  }

  lemma PointsSnoc(blocks: seq<seq<Bit>>, b: seq<Bit>, rd: Reader)
    ensures Points(blocks + [b], rd) == Points(blocks, rd) + PointOf(b, rd)
  {
    assert (blocks + [b])[..|blocks|] == blocks;
  }

  lemma {:induction false} PointsOne(a: seq<seq<Bit>>, x: seq<Bit>, b: seq<seq<Bit>>, rd: Reader)
    ensures multiset(Points(a + [x] + b, rd)) == multiset(Points(a + b, rd)) + multiset(PointOf(x, rd))
  {
    hide *;
    if b == [] {
      assert a + [x] + b == a + [x] && a + b == a;
      PointsSnoc(a, x, rd);
    } else {
      var front, y := b[..|b| - 1], b[|b| - 1];
      PointsOne(a, x, front, rd);
      assert a + [x] + b == a + [x] + front + [y] && a + b == a + front + [y];
      PointsSnoc(a + [x] + front, y, rd);
      PointsSnoc(a + front, y, rd);
    }
  }
}

/** The domain model: vehicle keys, realtime events and live trips (crates/core/src/model.rs). */
module Domain {
  import opened Collections

  /** An `f64`: a finite number, or NaN where the source tests `is_finite`. */
  datatype Num = Finite(v: real) | NaN

  const I32_MIN: int := -2_147_483_648
  const I32_MAX: int := 2_147_483_647

  type I32 = n: int | I32_MIN <= n <= I32_MAX

  type Instant = int // nanoseconds since the epoch

  const SECOND: int := 1_000_000_000

  /** chrono's `num_seconds`: whole seconds, truncated toward zero. */
  function WholeSeconds(d: int): int {
    if d >= 0 then d / SECOND else -((-d) / SECOND)
  }

  function AbsReal(x: real): real {
    if x < 0.0 then -x else x
  }

  /** A viewport, by its corners. */
  datatype BBox = BBox(minLat: real, minLon: real, maxLat: real, maxLon: real)

  datatype VehicleType = Unknown | Bus | Tram | Metro | Train | Ferry

  datatype MessageKind = Init | Arrival | OnStop | Departure | OnRoute | Delay | Offroute | End

  datatype VehicleKey = VehicleKey(dataowner: string, vehicleNumber: string) {
    function Id(): string {
      dataowner + ":" + vehicleNumber
    }
  }

  /** Ids identify keys as long as no data owner code contains the separator. */
  lemma IdIdentifies(a: VehicleKey, b: VehicleKey)
    requires ':' !in a.dataowner && ':' !in b.dataowner
    ensures a.Id() == b.Id() <==> a == b
  {
    if a.Id() == b.Id() {
      var n, m := |a.dataowner|, |b.dataowner|;
      assert a.Id()[n] == ':' && b.Id()[m] == ':';
      assert forall i :: 0 <= i < n ==> a.Id()[i] == a.dataowner[i] && a.dataowner[i] != ':';
      assert forall i :: 0 <= i < m ==> b.Id()[i] == b.dataowner[i] && b.dataowner[i] != ':';
      assert n == m;
      assert a.dataowner == a.Id()[..n] && b.dataowner == b.Id()[..n];
      assert a.vehicleNumber == a.Id()[n + 1..] && b.vehicleNumber == b.Id()[n + 1..];
    }
  }

  /** Exactly when two different vehicles share an id: the longer owner code starts with the shorter
      one and a separator, and the rest of it opens the other's vehicle number. */
  lemma IdsClashIff(a: VehicleKey, b: VehicleKey)
    requires |a.dataowner| <= |b.dataowner|
    ensures a.Id() == b.Id() && a != b <==>
      && a.dataowner + ":" <= b.dataowner
      && a.vehicleNumber == b.dataowner[|a.dataowner| + 1..] + ":" + b.vehicleNumber
  {
    var n, m := |a.dataowner|, |b.dataowner|;
    if a.Id() == b.Id() && a != b {
      assert a.dataowner == a.Id()[..n] && b.dataowner == b.Id()[..m];
      assert a.vehicleNumber == a.Id()[n + 1..] && b.vehicleNumber == b.Id()[m + 1..];
      assert n < m;
      assert a.Id()[n] == ':' == b.dataowner[n];
      assert a.dataowner + ":" == b.dataowner[..n + 1];
      assert b.Id() == b.dataowner[..n + 1] + (b.dataowner[n + 1..] + ":" + b.vehicleNumber);
    }
    if a.dataowner + ":" <= b.dataowner && a.vehicleNumber == b.dataowner[n + 1..] + ":" + b.vehicleNumber {
      assert b.dataowner == a.dataowner + ":" + b.dataowner[n + 1..];
      assert a.Id() == b.Id();
      assert n < m;
    }
  }

  /** With a separator in the owner code two vehicles can share an id. */
  lemma IdClash()
    ensures VehicleKey("A:B", "1").Id() == VehicleKey("A", "B:1").Id()
    ensures VehicleKey("A:B", "1") != VehicleKey("A", "B:1")
  {
    assert "A:B" + ":" + "1" == "A" + ":" + "B:1";
    assert |"A:B"| != |"A"|;
  }

  /** A normalized realtime event. KV6 carries Rijksdriehoek metres, NS positions WGS84. */
  datatype PosEvent = PosEvent(
    key: VehicleKey,
    kind: MessageKind,
    linePlanningNumber: Option<string>,
    journeyNumber: Option<string>,
    operatingDay: Option<string>,
    blockCode: Option<string>,
    rdX: Option<Num>,
    rdY: Option<Num>,
    lat: Option<Num>,
    lon: Option<Num>,
    bearing: Option<Num>,
    speedKmh: Option<real>,
    vehicleType: Option<VehicleType>,
    punctuality: Option<I32>,
    userStopCode: Option<string>,
    timestamp: Instant)

  // A live trip's fields, grouped by who writes them.

  /** What names the run; from events, a train's line code and day also from its match. */
  datatype Journey = Journey(
    linePlanningNumber: Option<string>,
    journeyNumber: Option<string>,
    operatingDay: Option<string>,
    blockCode: Option<string>)

  /** What the schedule adds. */
  datatype Schedule = Schedule(
    vehicleType: VehicleType,
    operatorName: Option<string>,
    agencyId: Option<string>,
    linePublicNumber: Option<string>,
    destination: Option<string>,
    matchedTripId: Option<string>,
    lineColor: Option<string>,
    lineTextColor: Option<string>)

  /** Where the vehicle is and how it moves. */
  datatype Motion = Motion(
    lat: Num,
    lon: Num,
    bearing: Num,
    prevLat: Num,
    prevLon: Num,
    schedulePositioned: bool)
  {
    predicate HasPosition() {
      lat.Finite? && lon.Finite?
    }
  }

  datatype Status = Status(
    speedKmh: Option<real>,
    delaySeconds: I32,
    delayKnown: bool,
    atStop: bool,
    currentStopId: Option<string>,
    lastKind: Option<MessageKind>,
    hasInit: bool,
    lastUpdate: Instant)

  datatype LiveTrip = LiveTrip(id: string, key: VehicleKey, journey: Journey, schedule: Schedule, motion: Motion, status: Status)

  const NO_JOURNEY := Journey(None, None, None, None)
  const NO_SCHEDULE := Schedule(Unknown, None, None, None, None, None, None, None)
  const NO_MOTION := Motion(NaN, NaN, NaN, NaN, NaN, false)

  /** `LiveTrip::new`. */
  function NewTrip(key: VehicleKey, ts: Instant): LiveTrip {
    LiveTrip(key.Id(), key, NO_JOURNEY, NO_SCHEDULE, NO_MOTION, Status(None, 0, false, false, None, None, false, ts))
  }
}

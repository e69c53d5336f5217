/** Which service runs on which date: `parse_services` (crates/gtfs/src/parse.rs) and the
    binary search behind `runs_on` (crates/gtfs/src/model.rs). */
module Services {
  import opened Collections
  import opened Dates

  /** One flag per weekday, Monday first. */
  type Mask = m: seq<bool> | |m| == 7 witness [true, true, true, true, true, false, false]

  /** A `calendar.txt` row; a date column that does not parse is `None`. */
  datatype CalendarRow = CalendarRow(serviceId: string, start: Option<Date>, end: Option<Date>, mask: Mask)

  /** A `calendar_dates.txt` row; `removes` is `exception_type` "2", anything else adds. */
  datatype ExceptionRow = ExceptionRow(serviceId: string, date: Option<Date>, removes: bool)

  /** The expansion stops after this many days from the start of the row. */
  const HORIZON: nat := 732

  type DateSets = map<string, set<nat>>

  // ---------------------------------------------------------------- what the feed says

  ghost predicate RowRuns(r: CalendarRow, d: Date) {
    && r.start.Some? && r.end.Some?
    && !Before(d, r.start.value) && !Before(r.end.value, d)
    && DayNumber(d) < DayNumber(r.start.value) + 732
    && r.mask[Weekday(d)]
  }

  ghost predicate Expanded(calendar: seq<CalendarRow>, sid: string, d: Date) {
    exists r :: r in calendar && r.serviceId == sid && RowRuns(r, d)
  }

  ghost predicate Excepted(exceptions: seq<ExceptionRow>, sid: string, d: Date, removes: bool) {
    ExceptionRow(sid, Some(d), removes) in exceptions
  }

  /** The service calendar as a set: expanded weekdays and added dates, minus removed dates. */
  ghost predicate Scheduled(calendar: seq<CalendarRow>, exceptions: seq<ExceptionRow>, sid: string, d: Date) {
    && sid != ""
    && (Expanded(calendar, sid, d) || Excepted(exceptions, sid, d, false))
    && !Excepted(exceptions, sid, d, true)
  }

  /** Only dates are listed. */
  ghost predicate AllDates(dates: set<nat>) {
    forall n :: n in dates ==> IsDate(n)
  }

  ghost predicate IsDate(n: nat) {
    exists d: Date :: n == Ymd(d)
  }

  /** The lists hold exactly the scheduled dates. */
  ghost predicate Lists(serviceDates: map<string, seq<nat>>, calendar: seq<CalendarRow>, exceptions: seq<ExceptionRow>) {
    forall sid, d: Date :: (sid in serviceDates && Ymd(d) in serviceDates[sid]) <==> Scheduled(calendar, exceptions, sid, d)
  }

  // ---------------------------------------------------------------- what the parser builds

  function DatesOf(m: DateSets, sid: string): set<nat> {
    if sid in m then m[sid] else {}
  }

  method ExpandRow(r: CalendarRow, have: set<nat>) returns (dates: set<nat>)
    requires r.start.Some? && r.end.Some?
    ensures forall d: Date :: Ymd(d) in dates <==> Ymd(d) in have || RowRuns(r, d)
    ensures have <= dates && AllDates(dates - have)
  {
    dates := have;
    var day := r.start.value;
    var k := 0;
    forall d: Date ensures RowRuns(r, d) ==> DayNumber(day) <= DayNumber(d) {
      OrderAgrees(d, day);
    }
    while k < HORIZON && !Before(r.end.value, day)
      invariant have <= dates && AllDates(dates - have)
      invariant k <= HORIZON && DayNumber(day) == DayNumber(r.start.value) + k
      invariant forall d: Date :: Ymd(d) in dates <==> Ymd(d) in have || (RowRuns(r, d) && DayNumber(d) < DayNumber(day))
      decreases HORIZON - k
    {
      ghost var before := dates;
      if r.mask[Weekday(day)] {
        assert IsDate(Ymd(day));
        dates := dates + {Ymd(day)};
      }
      forall d: Date
        ensures Ymd(d) in dates <==> Ymd(d) in have || (RowRuns(r, d) && DayNumber(d) < DayNumber(day) + 1)
      {
        OrderAgrees(d, day);
        OrderAgrees(day, d);
        OrderAgrees(day, r.start.value);
      }
      NextCounts(day);
      day := Next(day);
      k := k + 1;
    }
    forall d: Date ensures RowRuns(r, d) ==> DayNumber(d) < DayNumber(day) {
      OrderAgrees(r.end.value, day);
      OrderAgrees(r.end.value, d);
    }
  }

  lemma ExpandedByRow(calendar: seq<CalendarRow>, i: nat)
    requires i < |calendar|
    ensures forall sid, d: Date :: Expanded(calendar[..i + 1], sid, d) <==>
        Expanded(calendar[..i], sid, d) || (calendar[i].serviceId == sid && RowRuns(calendar[i], d))
  {
    assert calendar[..i + 1] == calendar[..i] + [calendar[i]];
    forall sid, d: Date | Expanded(calendar[..i], sid, d) ensures Expanded(calendar[..i + 1], sid, d) {
      var r :| r in calendar[..i] && r.serviceId == sid && RowRuns(r, d);
      assert r in calendar[..i + 1];
    }
    assert calendar[i] in calendar[..i + 1];
  }

  lemma MoreDates(had: set<nat>, dates: set<nat>)
    requires AllDates(had) && AllDates(dates - had)
    ensures AllDates(dates)
  {
    forall n | n in dates ensures IsDate(n) {
      assert n in had || n in dates - had;
    }
  }

  method AddCalendar(calendar: seq<CalendarRow>) returns (added: DateSets)
    ensures "" !in added
    ensures forall sid, d: Date :: Ymd(d) in DatesOf(added, sid) <==> sid != "" && Expanded(calendar, sid, d)
    ensures forall sid :: AllDates(DatesOf(added, sid))
  {
    added := map[];
    for i := 0 to |calendar|
      invariant "" !in added
      invariant forall sid, d: Date :: Ymd(d) in DatesOf(added, sid) <==> sid != "" && Expanded(calendar[..i], sid, d)
      invariant forall sid :: AllDates(DatesOf(added, sid))
    {
      var r := calendar[i];
      ghost var before := added;
      ExpandedByRow(calendar, i);
      if r.serviceId != "" && r.start.Some? && r.end.Some? {
        var had := DatesOf(added, r.serviceId);
        var dates := ExpandRow(r, had);
        MoreDates(had, dates);
        added := added[r.serviceId := dates];
      }
      hide AllDates;
      assert forall sid :: DatesOf(added, sid) == DatesOf(before, sid) || AllDates(DatesOf(added, sid));
      forall sid, d: Date
        ensures Ymd(d) in DatesOf(added, sid) <==> sid != "" && Expanded(calendar[..i + 1], sid, d)
      {
        assert Ymd(d) in DatesOf(before, sid) <==> sid != "" && Expanded(calendar[..i], sid, d);
      }
    }
    assert calendar[..|calendar|] == calendar;
  }

  method AddExceptions(exceptions: seq<ExceptionRow>, start: DateSets) returns (added: DateSets, removed: DateSets)
    requires "" !in start
    requires forall sid :: AllDates(DatesOf(start, sid))
    ensures forall sid :: AllDates(DatesOf(added, sid))
    ensures "" !in added
    ensures forall sid, d: Date :: Ymd(d) in DatesOf(added, sid) <==>
        Ymd(d) in DatesOf(start, sid) || (sid != "" && Excepted(exceptions, sid, d, false))
    ensures forall sid, d: Date :: Ymd(d) in DatesOf(removed, sid) <==> sid != "" && Excepted(exceptions, sid, d, true)
  {
    added, removed := start, map[];
    for i := 0 to |exceptions|
      invariant "" !in added && forall sid :: AllDates(DatesOf(added, sid))
      invariant forall sid, d: Date :: Ymd(d) in DatesOf(added, sid) <==>
          Ymd(d) in DatesOf(start, sid) || (sid != "" && Excepted(exceptions[..i], sid, d, false))
      invariant forall sid, d: Date :: Ymd(d) in DatesOf(removed, sid) <==> sid != "" && Excepted(exceptions[..i], sid, d, true)
    {
      var e := exceptions[i];
      ghost var added0, removed0 := added, removed;
      assert exceptions[..i + 1] == exceptions[..i] + [e];
      if e.date.Some? && e.serviceId != "" {
        forall d: Date ensures Ymd(d) == Ymd(e.date.value) <==> d == e.date.value {
          YmdMonotone(d, e.date.value);
        }
        if e.removes {
          removed := removed[e.serviceId := DatesOf(removed, e.serviceId) + {Ymd(e.date.value)}];
        } else {
          assert IsDate(Ymd(e.date.value));
          added := added[e.serviceId := DatesOf(added, e.serviceId) + {Ymd(e.date.value)}];
        }
      }
      forall sid, d: Date
        ensures Ymd(d) in DatesOf(removed, sid) <==> sid != "" && Excepted(exceptions[..i + 1], sid, d, true)
        ensures Ymd(d) in DatesOf(added, sid) <==>
            Ymd(d) in DatesOf(start, sid) || (sid != "" && Excepted(exceptions[..i + 1], sid, d, false))
      {
        assert Ymd(d) in DatesOf(removed0, sid) <==> sid != "" && Excepted(exceptions[..i], sid, d, true);
        assert Ymd(d) in DatesOf(added0, sid) <==>
            Ymd(d) in DatesOf(start, sid) || (sid != "" && Excepted(exceptions[..i], sid, d, false));
      }
    }
    assert exceptions[..|exceptions|] == exceptions;
  }

  ghost predicate Ascending(dates: seq<nat>) {
    forall i, j :: 0 <= i < j < |dates| ==> dates[i] < dates[j]
  }

  method SortedDates(dates: set<nat>) returns (v: seq<nat>)
    ensures Ascending(v) && forall x :: x in v <==> x in dates
  {
    v := [];
    var rest := dates;
    while rest != {}
      invariant Ascending(v) && rest <= dates
      invariant forall x :: x in v <==> x in dates - rest
      invariant forall x, y :: x in v && y in rest ==> x < y
      decreases rest
    {
      var least := Least(rest);
      forall i | 0 <= i < |v| ensures v[i] < least {
        assert v[i] in v;
      }
      v := v + [least];
      rest := rest - {least};
    }
  }

  lemma {:induction false} HasLeast(s: set<nat>)
    requires s != {}
    ensures exists x :: x in s && forall y :: y in s ==> x <= y
    decreases s
  {
    var x :| x in s;
    if y :| y in s && y < x {
      var t := set z | z in s && z < x;
      assert x !in t && y in t;
      HasLeast(t);
      var w :| w in t && forall z :: z in t ==> w <= z;
      forall z | z in s ensures w <= z {
        if z < x { assert z in t; }
      }
    }
  }

  function Least(s: set<nat>): (x: nat)
    requires s != {}
    ensures x in s && forall y :: y in s ==> x <= y
  {
    HasLeast(s);
    var x :| x in s && forall y :: y in s ==> x <= y;
    x
  }

  /** `service_id -> ascending YYYYMMDD dates`: exactly the scheduled dates, and no service is
      listed with none. */
  method ParseServices(calendar: seq<CalendarRow>, exceptions: seq<ExceptionRow>) returns (serviceDates: map<string, seq<nat>>)
    ensures forall sid :: sid in serviceDates ==> serviceDates[sid] != [] && Ascending(serviceDates[sid])
    ensures Lists(serviceDates, calendar, exceptions)
    ensures forall sid, n :: sid in serviceDates && n in serviceDates[sid] ==> IsDate(n)
  {
    var added := AddCalendar(calendar);
    var removed;
    added, removed := AddExceptions(exceptions, added);
    serviceDates := map[];
    var todo := added.Keys;
    while todo != {}
      invariant todo <= added.Keys
      invariant forall sid :: sid in serviceDates ==>
          sid in added && sid !in todo && serviceDates[sid] != [] && Ascending(serviceDates[sid])
      invariant forall sid, n: nat :: sid !in todo ==>
          ((sid in serviceDates && n in serviceDates[sid]) <==> n in DatesOf(added, sid) - DatesOf(removed, sid))
      decreases todo
    {
      var sid :| sid in todo;
      var v := SortedDates(added[sid] - DatesOf(removed, sid));
      if v != [] {
        serviceDates := serviceDates[sid := v];
      }
      todo := todo - {sid};
    }
    forall sid, d: Date
      ensures (sid in serviceDates && Ymd(d) in serviceDates[sid]) <==> Scheduled(calendar, exceptions, sid, d)
    {
      assert Ymd(d) in DatesOf(removed, sid) <==> sid != "" && Excepted(exceptions, sid, d, true);
      assert (sid in serviceDates && Ymd(d) in serviceDates[sid]) <==> Ymd(d) in DatesOf(added, sid) - DatesOf(removed, sid);
    }
    forall sid, n | sid in serviceDates && n in serviceDates[sid] ensures IsDate(n) {
      assert AllDates(DatesOf(added, sid));
    }
  }

  /** `runs_on`: a binary search in a service's ascending dates is a membership test. */
  method RunsOn(serviceDates: map<string, seq<nat>>, sid: string, date: nat) returns (runs: bool)
    requires forall s :: s in serviceDates ==> Ascending(serviceDates[s])
    ensures runs <==> Runs(serviceDates, sid, date)
  {
    if sid !in serviceDates {
      return false;
    }
    var dates := serviceDates[sid];
    var lo, hi := 0, |dates|;
    while lo < hi
      invariant 0 <= lo <= hi <= |dates|
      invariant forall i :: 0 <= i < |dates| && !(lo <= i < hi) ==> dates[i] != date
    {
      var mid := (lo + hi) / 2;
      if dates[mid] == date {
        return true;
      } else if dates[mid] < date {
        lo := mid + 1;
      } else {
        hi := mid;
      }
    }
    runs := false;
  }

  predicate Runs(serviceDates: map<string, seq<nat>>, sid: string, date: nat) {
    sid in serviceDates && date in serviceDates[sid]
  }

  /** From the feed's two tables to the answer: a service runs on an encoded day exactly when the
      encoding is that of a date the calendar schedules. */
  method ServiceRuns(calendar: seq<CalendarRow>, exceptions: seq<ExceptionRow>, sid: string, day: nat) returns (runs: bool)
    ensures runs <==> exists d: Date :: day == Ymd(d) && Scheduled(calendar, exceptions, sid, d)
  {
    var serviceDates := ParseServices(calendar, exceptions);
    runs := RunsOn(serviceDates, sid, day);
    if runs {
      assert IsDate(day);
    }
  }
}

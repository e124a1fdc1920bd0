/** The event booking of `homepage/models.py`: what a booking costs, the
    end time it stores, and the test whether a slot is still free. Dates
    are day numbers, times are minutes since midnight, money is rubles. */
module Bookings {
  import opened Wrappers

  // ---------------------------------------------------------------------
  // Cost
  // ---------------------------------------------------------------------

  /** Rubles per hour of the event. */
  const BaseHourlyRate: int := 2500

  /** The flat price of each extra service; any other name costs nothing. */
  function ServicePrice(service: string): (p: int)
    ensures 0 <= p <= 2500
  {
    if service == "animator" then 1000
    else if service == "cake" then 1500
    else if service == "decorations" then 2000
    else if service == "photographer" then 2500
    else 0
  }

  /** `sum(services_prices.get(service, 0) for service in self.services)`. */
  function ServicesCost(services: seq<string>): (c: int)
    ensures 0 <= c <= 2500 * |services|
  {
    if services == [] then 0
    else ServicesCost(services[..|services| - 1]) + ServicePrice(services[|services| - 1])
  }

  /** The services cost of a list is the sum over its parts, so a service
      listed twice is charged twice. */
  lemma {:induction false} ServicesCostAppend(a: seq<string>, b: seq<string>)
    ensures ServicesCost(a + b) == ServicesCost(a) + ServicesCost(b)
    decreases |b|
  {
    if b == [] {
      assert a + b == a;
    } else {
      var b' := b[..|b| - 1];
      assert (a + b)[..|a + b| - 1] == a + b';
      ServicesCostAppend(a, b');
    }
  }

  /** A service name outside the table adds nothing; a known one adds its
      price. */
  lemma ServicesCostAddOne(services: seq<string>, s: string)
    ensures ServicesCost(services + [s]) == ServicesCost(services) + ServicePrice(s)
    ensures ServicePrice(s) == 0 ==> ServicesCost(services + [s]) == ServicesCost(services)
  {
    assert (services + [s])[..|services|] == services;
  }

  /** Listing a service twice costs twice its price. */
  lemma ServicesCostDuplicate(s: string)
    ensures ServicesCost([s, s]) == 2 * ServicePrice(s)
  {
    ServicesCostAddOne([s], s);
    ServicesCostAddOne([], s);
    assert [s] + [s] == [s, s];
    assert [] + [s] == [s];
  }

  // ---------------------------------------------------------------------
  // End time
  // ---------------------------------------------------------------------

  const MinutesPerDay: int := 1440

  /** `(datetime.combine(date, time) + timedelta(hours=duration)).time()`:
      the clock time at the end, which wraps past midnight. */
  function EndTimeOfDay(time: int, duration: int): (e: int)
    ensures 0 <= e < MinutesPerDay
    ensures 0 <= time + 60 * duration < MinutesPerDay ==> e == time + 60 * duration
    ensures (e - (time + 60 * duration)) % MinutesPerDay == 0
  {
    (time + 60 * duration) % MinutesPerDay
  }

  /** An evening booking that runs past midnight stores an early-morning
      end: 20:00 plus 8 hours is stored as 04:00. */
  lemma EndTimeWraps()
    ensures EndTimeOfDay(20 * 60, 8) == 4 * 60
  {
  }

  // ---------------------------------------------------------------------
  // Stored bookings
  // ---------------------------------------------------------------------

  datatype Status = Pending | Confirmed | Cancelled | Completed

  /** A stored booking. `endTime` is the clock time `save` computed. */
  datatype BookingRow = BookingRow(
    id: int,
    userId: int,
    date: int,
    time: int,
    duration: int,
    endTime: int,
    guests: int,
    eventType: string,
    services: seq<string>,
    phone: string,
    comments: string,
    status: Status,
    baseCost: int,
    servicesCost: int,
    totalCost: int)

  /** Ids are the table's primary key. */
  predicate UniqueIds(rows: seq<BookingRow>) {
    forall i, j :: 0 <= i < j < |rows| ==> rows[i].id != rows[j].id
  }

  /** The bookings the slot test looks at: same date, still pending or
      confirmed, and not the booking being checked itself. */
  predicate Considered(row: BookingRow, selfId: Option<int>, date: int) {
    row.date == date
    && (row.status == Pending || row.status == Confirmed)
    && (selfId.None? || row.id != selfId.value)
  }

  /** Half-open intervals `[s1, e1)` and `[s2, e2)` share a moment. */
  predicate Overlaps(s1: int, e1: int, s2: int, e2: int) {
    s1 < e2 && e1 > s2
  }

  /** Overlap does not depend on which interval is named first. */
  lemma OverlapsSymmetric(s1: int, e1: int, s2: int, e2: int)
    requires s1 <= e1 && s2 <= e2
    ensures Overlaps(s1, e1, s2, e2) == Overlaps(s2, e2, s1, e1)
  {
  }

  /** The real end of a stored booking, in minutes from the start of its
      date (it may exceed a day). */
  function RowEnd(row: BookingRow): (e: int)
    ensures e == row.time + 60 * row.duration
  {
    row.time + 60 * row.duration
  }

  /** `is_time_slot_available` as written: the existing booking's interval
      ends at its stored clock time, which has wrapped for an event that
      runs past midnight. A free slot never starts together with a
      considered booking whose stored end lies after its start. */
  function SlotAvailableAsWritten(rows: seq<BookingRow>, selfId: Option<int>, date: int, time: int, duration: int): (free: bool)
    ensures rows == [] ==> free
    ensures free && duration > 0 ==>
      forall i :: 0 <= i < |rows| && Considered(rows[i], selfId, date) && rows[i].endTime > rows[i].time ==>
        rows[i].time != time
  {
    forall i :: 0 <= i < |rows| && Considered(rows[i], selfId, date) ==>
      !Overlaps(time, time + 60 * duration, rows[i].time, rows[i].endTime)
  }

  /** The slot test with each existing booking running to its real end: a
      free slot never starts together with a considered booking of positive
      length. */
  function SlotAvailable(rows: seq<BookingRow>, selfId: Option<int>, date: int, time: int, duration: int): (free: bool)
    ensures rows == [] ==> free
    ensures free && duration > 0 ==>
      forall i :: 0 <= i < |rows| && Considered(rows[i], selfId, date) && rows[i].duration > 0 ==>
        rows[i].time != time
  {
    forall i :: 0 <= i < |rows| && Considered(rows[i], selfId, date) ==>
      !Overlaps(time, time + 60 * duration, rows[i].time, RowEnd(rows[i]))
  }

  /** The two tests agree whenever no considered booking's stored end has
      wrapped, which is every booking that ends before midnight. */
  lemma SlotAvailableAgrees(rows: seq<BookingRow>, selfId: Option<int>, date: int, time: int, duration: int)
    requires forall i :: 0 <= i < |rows| && Considered(rows[i], selfId, date) ==> rows[i].endTime == RowEnd(rows[i])
    ensures SlotAvailableAsWritten(rows, selfId, date, time, duration) == SlotAvailable(rows, selfId, date, time, duration)
  {
  }

  /** A stored booking starting at `time` for `duration` hours, saved as
      `save` would save it. */
  function SampleRow(id: int, date: int, time: int, duration: int, status: Status): (row: BookingRow)
    ensures row.id == id && row.date == date && row.time == time && row.duration == duration
    ensures row.status == status && row.endTime == EndTimeOfDay(time, duration)
  {
    BookingRow(id, 1, date, time, duration, EndTimeOfDay(time, duration), 10, "birthday", [], "", "",
               status, BaseHourlyRate * duration, 0, BaseHourlyRate * duration)
  }

  /** The wrapped end lets a booking through that overlaps an existing one:
      19:00 for 6 hours is stored as ending at 01:00, so 20:00 for 2 hours on
      the same date is reported free although both run at 20:30. */
  lemma SlotAvailableAsWrittenMissesOvernight()
    ensures SlotAvailableAsWritten([SampleRow(1, 0, 19 * 60, 6, Confirmed)], None, 0, 20 * 60, 2)
    ensures !SlotAvailable([SampleRow(1, 0, 19 * 60, 6, Confirmed)], None, 0, 20 * 60, 2)
  {
    var rows := [SampleRow(1, 0, 19 * 60, 6, Confirmed)];
    assert rows[0].endTime == 60;
    assert Considered(rows[0], None, 0);
  }

  /** A slot is taken exactly when some considered booking overlaps it, up
      to its stored end in the test as written and up to its real end in the
      corrected one. */
  lemma SlotTakenWitness(rows: seq<BookingRow>, selfId: Option<int>, date: int, time: int, duration: int)
    ensures !SlotAvailableAsWritten(rows, selfId, date, time, duration) <==>
      exists i :: 0 <= i < |rows| && Considered(rows[i], selfId, date)
        && Overlaps(time, time + 60 * duration, rows[i].time, rows[i].endTime)
    ensures !SlotAvailable(rows, selfId, date, time, duration) <==>
      exists i :: 0 <= i < |rows| && Considered(rows[i], selfId, date)
        && Overlaps(time, time + 60 * duration, rows[i].time, RowEnd(rows[i]))
  {
  }

  /** A booking that is cancelled or completed, on another date, or the
      booking itself never affects the answer, in either test. */
  lemma SlotIgnoresInactive(rows: seq<BookingRow>, row: BookingRow, selfId: Option<int>, date: int, time: int, duration: int)
    requires row.status == Cancelled || row.status == Completed || row.date != date || selfId == Some(row.id)
    ensures SlotAvailableAsWritten(rows + [row], selfId, date, time, duration) == SlotAvailableAsWritten(rows, selfId, date, time, duration)
    ensures SlotAvailable(rows + [row], selfId, date, time, duration) == SlotAvailable(rows, selfId, date, time, duration)
  {
    var all := rows + [row];
    assert !Considered(all[|rows|], selfId, date);
    assert forall i :: 0 <= i < |rows| ==> all[i] == rows[i];
  }

  /** Adding a booking can only take slots away, in either test. */
  lemma SlotAvailableShrinks(rows: seq<BookingRow>, row: BookingRow, selfId: Option<int>, date: int, time: int, duration: int)
    ensures SlotAvailableAsWritten(rows + [row], selfId, date, time, duration) ==> SlotAvailableAsWritten(rows, selfId, date, time, duration)
    ensures SlotAvailable(rows + [row], selfId, date, time, duration) ==> SlotAvailable(rows, selfId, date, time, duration)
  {
    var all := rows + [row];
    assert forall i :: 0 <= i < |rows| ==> all[i] == rows[i];
  }

  /** Back-to-back bookings do not clash: 14:00-16:00 and 16:00-18:00, in
      both tests. */
  lemma TouchingSlotsFree()
    ensures SlotAvailableAsWritten([SampleRow(1, 0, 14 * 60, 2, Pending)], None, 0, 16 * 60, 2)
    ensures SlotAvailableAsWritten([SampleRow(1, 0, 16 * 60, 2, Pending)], None, 0, 14 * 60, 2)
    ensures SlotAvailable([SampleRow(1, 0, 14 * 60, 2, Pending)], None, 0, 16 * 60, 2)
    ensures SlotAvailable([SampleRow(1, 0, 16 * 60, 2, Pending)], None, 0, 14 * 60, 2)
  {
  }

  /** 14:00 for 2 hours blocks 15:00 for 2 hours on the same date, in both
      tests. */
  lemma OverlappingSlotTaken()
    ensures !SlotAvailable([SampleRow(1, 0, 14 * 60, 2, Pending)], None, 0, 15 * 60, 2)
    ensures !SlotAvailableAsWritten([SampleRow(1, 0, 14 * 60, 2, Pending)], None, 0, 15 * 60, 2)
  {
    var rows := [SampleRow(1, 0, 14 * 60, 2, Pending)];
    assert Considered(rows[0], None, 0);
  }

  // ---------------------------------------------------------------------
  // The Booking object
  // ---------------------------------------------------------------------

  /** A booking as the view code holds it before and after saving. */
  class Booking {
    var id: Option<int>
    var userId: int
    var eventDate: int
    var eventTime: int
    var eventDuration: int
    var eventEndTime: Option<int>
    var guestsCount: int
    var eventType: string
    var services: seq<string>
    var phone: string
    var comments: string
    var status: Status
    var baseCost: int
    var servicesCost: int
    var totalCost: int

    /** A new, unsaved booking: status `pending`, the default costs 5000,
        0 and 5000, no end time and no id yet. */
    constructor (userId: int, eventDate: int, eventTime: int, eventDuration: int, guestsCount: int,
                 eventType: string, services: seq<string>, phone: string, comments: string)
      ensures this.id == None && this.eventEndTime == None && this.status == Pending
      ensures this.baseCost == 5000 && this.servicesCost == 0 && this.totalCost == 5000
      ensures this.userId == userId && this.eventDate == eventDate && this.eventTime == eventTime
      ensures this.eventDuration == eventDuration && this.guestsCount == guestsCount
      ensures this.eventType == eventType && this.services == services
      ensures this.phone == phone && this.comments == comments
    {
      id := None;
      this.userId := userId;
      this.eventDate := eventDate;
      this.eventTime := eventTime;
      this.eventDuration := eventDuration;
      eventEndTime := None;
      this.guestsCount := guestsCount;
      this.eventType := eventType;
      this.services := services;
      this.phone := phone;
      this.comments := comments;
      status := Pending;
      baseCost := 5000;
      servicesCost := 0;
      totalCost := 5000;
    }

    /** A stored booking loaded from its row. */
    constructor Load(row: BookingRow)
      ensures Row() == row
    {
      id := Some(row.id);
      userId := row.userId;
      eventDate := row.date;
      eventTime := row.time;
      eventDuration := row.duration;
      eventEndTime := Some(row.endTime);
      guestsCount := row.guests;
      eventType := row.eventType;
      services := row.services;
      phone := row.phone;
      comments := row.comments;
      status := row.status;
      baseCost := row.baseCost;
      servicesCost := row.servicesCost;
      totalCost := row.totalCost;
    }

    /** The row this booking is stored as (a missing end time or id reads
        as 0). */
    function Row(): (row: BookingRow)
      reads this
      ensures row.status == status && row.date == eventDate && row.time == eventTime
      ensures row.duration == eventDuration && row.services == services
      ensures eventEndTime.Some? ==> row.endTime == eventEndTime.value
      ensures id.Some? ==> row.id == id.value
    {
      BookingRow(id.GetOr(0), userId, eventDate, eventTime, eventDuration, eventEndTime.GetOr(0),
                 guestsCount, eventType, services, phone, comments, status, baseCost, servicesCost, totalCost)
    }

    /** `calculate_cost`: 2500 per hour, plus the services, for the total. */
    method CalculateCost()
      modifies this
      ensures baseCost == BaseHourlyRate * eventDuration
      ensures servicesCost == ServicesCost(services)
      ensures totalCost == baseCost + servicesCost
      ensures id == old(id) && userId == old(userId) && eventDate == old(eventDate) && eventTime == old(eventTime)
      ensures eventDuration == old(eventDuration) && eventEndTime == old(eventEndTime)
      ensures guestsCount == old(guestsCount) && eventType == old(eventType) && services == old(services)
      ensures phone == old(phone) && comments == old(comments) && status == old(status)
    {
      baseCost := BaseHourlyRate * eventDuration;
      servicesCost := ServicesCost(services);
      totalCost := baseCost + servicesCost;
    }

    /** `save`: the end time and the costs are recomputed from the start,
        the duration and the services; a new booking receives the id the
        database hands out (`freshId`). The stored row is returned. */
    method Save(freshId: int) returns (row: BookingRow)
      modifies this
      ensures eventEndTime == Some(EndTimeOfDay(eventTime, eventDuration))
      ensures baseCost == BaseHourlyRate * eventDuration
      ensures servicesCost == ServicesCost(services)
      ensures totalCost == baseCost + servicesCost
      ensures id == Some(old(id).GetOr(freshId))
      ensures userId == old(userId) && eventDate == old(eventDate) && eventTime == old(eventTime)
      ensures eventDuration == old(eventDuration)
      ensures guestsCount == old(guestsCount) && eventType == old(eventType) && services == old(services)
      ensures phone == old(phone) && comments == old(comments) && status == old(status)
      ensures row == Row()
      ensures old(id).Some? ==> row == Resaved(old(Row()))
    {
      eventEndTime := Some(EndTimeOfDay(eventTime, eventDuration));
      CalculateCost();
      if id.None? {
        id := Some(freshId);
      }
      row := Row();
    }

    /** `is_time_slot_available` as written: each existing booking runs
        from its start to its stored end time on its own date, and the first
        considered booking that overlaps answers no. */
    method IsTimeSlotAvailable(rows: seq<BookingRow>) returns (available: bool)
      ensures available == SlotAvailableAsWritten(rows, id, eventDate, eventTime, eventDuration)
    {
      var start := eventTime;
      var end := eventTime + 60 * eventDuration;
      var i := 0;
      while i < |rows|
        invariant 0 <= i <= |rows|
        invariant forall j :: 0 <= j < i && Considered(rows[j], id, eventDate) ==>
          !Overlaps(start, end, rows[j].time, rows[j].endTime)
      {
        var b := rows[i];
        if Considered(b, id, eventDate) && start < b.endTime && end > b.time {
          return false;
        }
        i := i + 1;
      }
      return true;
    }

    /** The slot test corrected: each existing booking runs to its real
        end, its start plus its duration, even past midnight. */
    method IsTimeSlotAvailableToRealEnd(rows: seq<BookingRow>) returns (available: bool)
      ensures available == SlotAvailable(rows, id, eventDate, eventTime, eventDuration)
    {
      var start := eventTime;
      var end := eventTime + 60 * eventDuration;
      var i := 0;
      while i < |rows|
        invariant 0 <= i <= |rows|
        invariant forall j :: 0 <= j < i && Considered(rows[j], id, eventDate) ==>
          !Overlaps(start, end, rows[j].time, RowEnd(rows[j]))
      {
        var b := rows[i];
        if Considered(b, id, eventDate) && start < b.time + 60 * b.duration && end > b.time {
          return false;
        }
        i := i + 1;
      }
      return true;
    }
  }

  /** What `save` writes for a stored booking: end time and costs
      recomputed, everything else kept. */
  function Resaved(row: BookingRow): (r: BookingRow)
    ensures r.endTime == EndTimeOfDay(row.time, row.duration)
    ensures r.baseCost == BaseHourlyRate * row.duration && r.servicesCost == ServicesCost(row.services)
    ensures r.totalCost == r.baseCost + r.servicesCost
    ensures r.(endTime := row.endTime, baseCost := row.baseCost, servicesCost := row.servicesCost, totalCost := row.totalCost) == row
  {
    var base := BaseHourlyRate * row.duration;
    var extra := ServicesCost(row.services);
    row.(endTime := EndTimeOfDay(row.time, row.duration), baseCost := base, servicesCost := extra, totalCost := base + extra)
  }

  /** Replacing a row by one with the same id keeps the ids unique. */
  lemma UniqueIdsReplace(rows: seq<BookingRow>, i: int, row: BookingRow)
    requires UniqueIds(rows) && 0 <= i < |rows| && row.id == rows[i].id
    ensures UniqueIds(rows[i := row])
  {
    var t := rows[i := row];
    forall a, b | 0 <= a < b < |t| ensures t[a].id != t[b].id {
      assert t[a].id == rows[a].id && t[b].id == rows[b].id;
    }
  }

  /** The two-hour party with an animator and a cake costs 5000 + 2500. */
  lemma CostExample()
    ensures BaseHourlyRate * 2 + ServicesCost(["animator", "cake"]) == 7500
  {
    ServicesCostAddOne(["animator"], "cake");
    ServicesCostAddOne([], "animator");
    assert [] + ["animator"] == ["animator"];
    assert ["animator"] + ["cake"] == ["animator", "cake"];
  }
}

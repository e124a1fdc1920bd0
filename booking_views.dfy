/** The booking endpoints of `homepage/views.py`: the availability check
    the booking page calls while the visitor types, the creation of a
    booking, and its cancellation by its owner. The booking table is a
    sequence of rows passed in and handed back. */
module BookingViews {
  import opened Wrappers
  import opened Text
  import opened Bookings

  /** 22:00 in minutes. */
  const ClosingTime: int := 22 * 60

  // ---------------------------------------------------------------------
  // check_time_availability
  // ---------------------------------------------------------------------

  /** The JSON body of an availability request, already parsed. */
  datatype AvailabilityRequest = AvailabilityRequest(eventDate: Option<int>, eventTime: Option<int>, eventDuration: Option<int>)

  /** The answer; `endsAt` is the clock time shown in the message. */
  datatype Availability =
    | WrongMethod
    | DateOrTimeMissing
    | OpensAtTen
    | Available(endsAt: int)
    | EndsAfterClosing(endsAt: int)
    | Taken

  /** `check_time_availability`: date and time are required, the start may
      not be before 10:00, a taken slot is refused, and a free one must end
      by 22:00 of the same date, compared on the full date and time so an
      event running past midnight is refused too. */
  function CheckTimeAvailability(isPost: bool, rows: seq<BookingRow>, req: AvailabilityRequest): (r: Availability)
    ensures !isPost <==> r == WrongMethod
    ensures isPost ==> (r == DateOrTimeMissing <==> req.eventDate.None? || req.eventTime.None?)
    ensures r.Available? ==>
      req.eventDate.Some? && req.eventTime.Some?
      && 10 * 60 <= req.eventTime.value
      && req.eventTime.value + 60 * req.eventDuration.GetOr(2) <= ClosingTime
      && SlotAvailableAsWritten(rows, None, req.eventDate.value, req.eventTime.value, req.eventDuration.GetOr(2))
      && r.endsAt == EndTimeOfDay(req.eventTime.value, req.eventDuration.GetOr(2))
    ensures isPost && req.eventDate.Some? && req.eventTime.Some? ==>
      var date, time, duration := req.eventDate.value, req.eventTime.value, req.eventDuration.GetOr(2);
      && (r == OpensAtTen <==> time < 10 * 60)
      && (r == Taken <==> time >= 10 * 60 && !SlotAvailableAsWritten(rows, None, date, time, duration))
      && (r.EndsAfterClosing? <==> time >= 10 * 60 && SlotAvailableAsWritten(rows, None, date, time, duration)
                                    && time + 60 * duration > ClosingTime)
      && (r.Available? <==> time >= 10 * 60 && SlotAvailableAsWritten(rows, None, date, time, duration)
                             && time + 60 * duration <= ClosingTime)
      && (r.EndsAfterClosing? ==> r.endsAt == EndTimeOfDay(time, duration))
  {
    if !isPost then WrongMethod
    else if req.eventDate.None? || req.eventTime.None? then DateOrTimeMissing
    else
      var date, time := req.eventDate.value, req.eventTime.value;
      var duration := req.eventDuration.GetOr(2);
      if time < 10 * 60 then OpensAtTen
      else if SlotAvailableAsWritten(rows, None, date, time, duration) then
        var shown := EndTimeOfDay(time, duration);
        if time + 60 * duration > ClosingTime then EndsAfterClosing(shown) else Available(shown)
      else Taken
  }

  /** The overnight miss reaches the endpoint: with a confirmed booking
      from 19:00 for 6 hours (stored as ending at 01:00), 20:00 for 2 hours
      on the same date is answered as available until 22:00. */
  lemma CheckTimeAvailabilityMissesOvernight()
    ensures CheckTimeAvailability(true, [SampleRow(1, 0, 19 * 60, 6, Confirmed)],
                                  AvailabilityRequest(Some(0), Some(20 * 60), Some(2))) == Available(22 * 60)
  {
    SlotAvailableAsWrittenMissesOvernight();
  }

  /** An event reported available lies within the opening hours of one day,
      so the end time shown is its real end. */
  lemma AvailableFitsTheDay(isPost: bool, rows: seq<BookingRow>, req: AvailabilityRequest)
    requires CheckTimeAvailability(isPost, rows, req).Available?
    requires req.eventDuration.GetOr(2) >= 0
    ensures CheckTimeAvailability(isPost, rows, req).endsAt == req.eventTime.value + 60 * req.eventDuration.GetOr(2)
    ensures 10 * 60 <= CheckTimeAvailability(isPost, rows, req).endsAt <= ClosingTime
  {
  }

  // ---------------------------------------------------------------------
  // create_booking
  // ---------------------------------------------------------------------

  /** The JSON body of a booking request, already parsed; a key that is
      absent is `None`. */
  datatype BookingRequest = BookingRequest(
    phone: Option<string>,
    eventDate: Option<int>,
    eventTime: Option<int>,
    eventDuration: Option<int>,
    guestsCount: Option<int>,
    eventType: Option<string>,
    comments: Option<string>,
    services: Option<seq<string>>)

  datatype CreateError =
    | NotPost
    | PhoneTooShort
    | MissingField(name: string)
    | SlotTaken

  /** The phone gate: a phone must be given and hold at least ten digits,
      so it is at least ten characters long; a plain string of ten or more
      digits passes. */
  function PhoneAccepted(phone: string): (ok: bool)
    ensures ok ==> |phone| >= 10
    ensures AllDigits(phone) ==> (ok <==> |phone| >= 10)
  {
    if AllDigits(phone) then
      DigitsOfAllDigits(phone);
      phone != [] && |DigitsOf(phone)| >= 10
    else
      phone != [] && |DigitsOf(phone)| >= 10
  }

  /** The first required key missing from the request, in the order the
      booking is built from it. */
  function MissingKey(req: BookingRequest): (r: Option<string>)
    ensures r.None? <==> req.eventDate.Some? && req.eventTime.Some? && req.guestsCount.Some? && req.eventType.Some?
    ensures r == Some("eventDate") <==> req.eventDate.None?
  {
    if req.eventDate.None? then Some("eventDate")
    else if req.eventTime.None? then Some("eventTime")
    else if req.guestsCount.None? then Some("guestsCount")
    else if req.eventType.None? then Some("eventType")
    else None
  }

  /** `create_booking`: the phone is checked first, then the required keys,
      then the slot; only a booking that passes all three is saved (as
      pending, with its end time and costs computed) and added to the table.
      The form's date window, hours and duration bounds are not applied
      here. `freshId` is the id the database hands out. */
  method CreateBooking(isPost: bool, rows: seq<BookingRow>, userId: int, req: BookingRequest, freshId: int)
    returns (r: Result<BookingRow, CreateError>, table: seq<BookingRow>)
    requires forall i :: 0 <= i < |rows| ==> rows[i].id != freshId
    ensures r.Err? ==> table == rows
    ensures UniqueIds(rows) ==> UniqueIds(table)
    ensures r.Ok? <==>
      isPost && PhoneAccepted(req.phone.GetOr("")) && MissingKey(req).None?
      && SlotAvailableAsWritten(rows, None, req.eventDate.value, req.eventTime.value, req.eventDuration.GetOr(2))
    ensures !isPost ==> r == Err(NotPost)
    ensures isPost && !PhoneAccepted(req.phone.GetOr("")) ==> r == Err(PhoneTooShort)
    ensures isPost && PhoneAccepted(req.phone.GetOr("")) && MissingKey(req).Some? ==>
      r == Err(MissingField(MissingKey(req).value))
    ensures isPost && PhoneAccepted(req.phone.GetOr("")) && MissingKey(req).None? ==>
      (r == Err(SlotTaken) <==>
         !SlotAvailableAsWritten(rows, None, req.eventDate.value, req.eventTime.value, req.eventDuration.GetOr(2)))
    ensures r.Ok? ==>
      && isPost && PhoneAccepted(req.phone.GetOr("")) && MissingKey(req).None?
      && table == rows + [r.value]
      && r.value.id == freshId && r.value.userId == userId && r.value.status == Pending
      && r.value.date == req.eventDate.value && r.value.time == req.eventTime.value
      && r.value.duration == req.eventDuration.GetOr(2)
      && r.value.services == req.services.GetOr([])
      && r.value.guests == req.guestsCount.value && r.value.eventType == req.eventType.value
      && r.value.phone == req.phone.GetOr("") && r.value.comments == req.comments.GetOr("")
      && r.value.endTime == EndTimeOfDay(r.value.time, r.value.duration)
      && r.value.baseCost == BaseHourlyRate * r.value.duration
      && r.value.servicesCost == ServicesCost(r.value.services)
      && r.value.totalCost == r.value.baseCost + r.value.servicesCost
      && SlotAvailableAsWritten(rows, None, r.value.date, r.value.time, r.value.duration)
  {
    table := rows;
    if !isPost {
      return Err(NotPost), table;
    }
    var phone := req.phone.GetOr("");
    if !PhoneAccepted(phone) {
      return Err(PhoneTooShort), table;
    }
    var missing := MissingKey(req);
    if missing.Some? {
      return Err(MissingField(missing.value)), table;
    }
    var booking := new Booking(userId, req.eventDate.value, req.eventTime.value, req.eventDuration.GetOr(2),
                               req.guestsCount.value, req.eventType.value, req.services.GetOr([]),
                               phone, req.comments.GetOr(""));
    var free := booking.IsTimeSlotAvailable(rows);
    if !free {
      return Err(SlotTaken), table;
    }
    var row := booking.Save(freshId);
    table := rows + [row];
    r := Ok(row);
  }

  /** Once a booking of positive length that ends before midnight is
      stored as `save` stores it, its slot is no longer free for another
      booking of positive length starting at the same time. */
  lemma StoredBookingBlocksSlot(rows: seq<BookingRow>, row: BookingRow, duration: int)
    requires row.status == Pending && row.duration > 0 && duration > 0
    requires 0 <= row.time && RowEnd(row) < MinutesPerDay && row.endTime == EndTimeOfDay(row.time, row.duration)
    ensures !SlotAvailableAsWritten(rows + [row], None, row.date, row.time, duration)
  {
    var all := rows + [row];
    assert all[|rows|] == row;
    assert Considered(all[|rows|], None, row.date);
  }

  /** A stored booking that runs past midnight does not block its own
      start: 20:00 for 5 hours is stored as ending at 01:00, and 20:00 for
      2 hours on that date is still reported free. */
  lemma StoredOvernightBookingDoesNotBlock()
    ensures SlotAvailableAsWritten([SampleRow(1, 0, 20 * 60, 5, Pending)], None, 0, 20 * 60, 2)
  {
  }

  /** With the corrected test every stored booking of positive length
      blocks its own start, wherever it ends. */
  lemma StoredBookingBlocksRealSlot(rows: seq<BookingRow>, row: BookingRow, duration: int)
    requires row.status == Pending && row.duration > 0 && duration > 0
    ensures !SlotAvailable(rows + [row], None, row.date, row.time, duration)
  {
    var all := rows + [row];
    assert all[|rows|] == row;
    assert Considered(all[|rows|], None, row.date);
  }

  // ---------------------------------------------------------------------
  // cancel_booking
  // ---------------------------------------------------------------------

  datatype CancelResult = CancelSuccess | NotCancellable | NotFound

  /** The booking `id` belongs to `userId`. */
  predicate Owned(row: BookingRow, bookingId: int, userId: int) {
    row.id == bookingId && row.userId == userId
  }

  /** With unique ids, at most one row is the caller's booking `id`. */
  lemma OwnedOnce(rows: seq<BookingRow>, i: int, bookingId: int, userId: int)
    requires UniqueIds(rows) && 0 <= i < |rows| && Owned(rows[i], bookingId, userId)
    ensures forall j :: 0 <= j < |rows| && Owned(rows[j], bookingId, userId) ==> j == i
  {
  }

  /** `cancel_booking`: the caller's booking with that id is looked up; a
      pending one becomes cancelled and is saved again (so its end time and
      costs are recomputed); one in any other status, or none found, gives
      an error and leaves the table as it was. */
  method CancelBooking(rows: seq<BookingRow>, bookingId: int, userId: int)
    returns (r: CancelResult, table: seq<BookingRow>)
    requires UniqueIds(rows)
    ensures UniqueIds(table) && |table| == |rows|
    ensures (forall i :: 0 <= i < |rows| ==> !Owned(rows[i], bookingId, userId)) <==> r == NotFound
    ensures r != CancelSuccess ==> table == rows
    ensures forall i :: 0 <= i < |rows| && Owned(rows[i], bookingId, userId) ==>
      && (r == CancelSuccess <==> rows[i].status == Pending)
      && (r == CancelSuccess ==> table == rows[i := Resaved(rows[i].(status := Cancelled))])
  {
    table := rows;
    if forall i :: 0 <= i < |rows| ==> !Owned(rows[i], bookingId, userId) {
      return NotFound, table;
    }
    var i :| 0 <= i < |rows| && Owned(rows[i], bookingId, userId);
    OwnedOnce(rows, i, bookingId, userId);
    var booking := new Booking.Load(rows[i]);
    if booking.status == Pending {
      booking.status := Cancelled;
      assert booking.Row() == rows[i].(status := Cancelled);
      var row := booking.Save(rows[i].id);
      UniqueIdsReplace(rows, i, row);
      table := rows[i := row];
      r := CancelSuccess;
    } else {
      r := NotCancellable;
    }
  }
}

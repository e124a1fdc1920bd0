/** `BookingForm`'s field and form validation: the booking window, the
    opening hours for the start, the duration bounds, and the slot test
    that runs once date, time and duration are all clean. */
module BookingForms {
  import opened Wrappers
  import opened Bookings

  /** How many days ahead a booking may be made. */
  const MaxDaysAhead: int := 90

  /** 10:00 and 20:00 in minutes. */
  const FirstStart: int := 10 * 60
  const LastStart: int := 20 * 60

  datatype FieldError =
    | Required
    | PastDate
    | TooFarAhead
    | BeforeOpening
    | AfterLastStart
    | BelowMin
    | AboveMax

  /** `clean_event_date`: a date in the past is refused first, then one more
      than 90 days ahead; both ends of the window are allowed. */
  function CleanEventDate(eventDate: int, today: int): (r: Result<int, FieldError>)
    ensures r.Ok? <==> today <= eventDate <= today + MaxDaysAhead
    ensures r.Ok? ==> r.value == eventDate
    ensures r == Err(PastDate) <==> eventDate < today
    ensures r == Err(TooFarAhead) <==> eventDate > today + MaxDaysAhead && eventDate >= today
  {
    if eventDate < today then Err(PastDate)
    else if eventDate > today + MaxDaysAhead then Err(TooFarAhead)
    else Ok(eventDate)
  }

  /** `clean_event_time`: no start before 10:00 or after 20:00; 20:00
      itself is accepted. */
  function CleanEventTime(eventTime: int): (r: Result<int, FieldError>)
    ensures r.Ok? <==> FirstStart <= eventTime <= LastStart
    ensures r.Ok? ==> r.value == eventTime
    ensures r == Err(BeforeOpening) <==> eventTime < FirstStart
    ensures r == Err(AfterLastStart) <==> eventTime > LastStart
  {
    if eventTime < FirstStart then Err(BeforeOpening)
    else if eventTime > LastStart then Err(AfterLastStart)
    else Ok(eventTime)
  }

  /** The `event_duration` field: required, an integer from 1 to 8 hours. */
  function CleanDuration(duration: Option<int>): (r: Result<int, FieldError>)
    ensures r.Ok? <==> duration.Some? && 1 <= duration.value <= 8
    ensures r.Ok? ==> r.value == duration.value
    ensures r == Err(Required) <==> duration.None?
  {
    match duration
    case None => Err(Required)
    case Some(d) =>
      if d < 1 then Err(BelowMin)
      else if d > 8 then Err(AboveMax)
      else Ok(d)
  }

  /** The outcome of validating a booking form: one optional error per
      field, and the form-level slot error. */
  datatype BookingFormErrors = BookingFormErrors(
    date: Option<FieldError>,
    time: Option<FieldError>,
    duration: Option<FieldError>,
    slotTaken: bool)

  function ErrorOf(r: Result<int, FieldError>): Option<FieldError> {
    if r.Err? then Some(r.error) else None
  }

  /** A field that was not submitted is `Required`; a submitted one is run
      through its own cleaner. */
  function CleanSubmitted(value: Option<int>, clean: int -> Result<int, FieldError>): (r: Result<int, FieldError>)
    ensures value.None? ==> r == Err(Required)
    ensures value.Some? ==> r == clean(value.value)
  {
    if value.None? then Err(Required) else clean(value.value)
  }

  /** `BookingForm`'s full clean against the stored bookings: the fields
      are cleaned, and the slot test (`clean`) runs only when date, time and
      duration are all clean; it fails exactly when the slot is taken. */
  function ValidateBookingForm(rows: seq<BookingRow>, today: int, eventDate: Option<int>,
                               eventTime: Option<int>, duration: Option<int>): (r: BookingFormErrors)
    ensures r.date.None? <==> eventDate.Some? && today <= eventDate.value <= today + MaxDaysAhead
    ensures r.time.None? <==> eventTime.Some? && FirstStart <= eventTime.value <= LastStart
    ensures r.duration.None? <==> duration.Some? && 1 <= duration.value <= 8
    ensures r.slotTaken <==>
      r.date.None? && r.time.None? && r.duration.None?
      && !SlotAvailableAsWritten(rows, None, eventDate.value, eventTime.value, duration.value)
  {
    var d := CleanSubmitted(eventDate, x => CleanEventDate(x, today));
    var t := CleanSubmitted(eventTime, CleanEventTime);
    var h := CleanDuration(duration);
    var taken := d.Ok? && t.Ok? && h.Ok? && !SlotAvailableAsWritten(rows, None, d.value, t.value, h.value);
    BookingFormErrors(ErrorOf(d), ErrorOf(t), ErrorOf(h), taken)
  }

  /** A form that passes validation describes an event that starts inside
      the opening hours, inside the window, and clashes with no pending or
      confirmed booking as far as its stored end; a booking whose stored end
      has not wrapped past midnight is not clashed with at all. */
  lemma ValidFormIsBookable(rows: seq<BookingRow>, today: int, eventDate: Option<int>,
                            eventTime: Option<int>, duration: Option<int>)
    requires ValidateBookingForm(rows, today, eventDate, eventTime, duration) == BookingFormErrors(None, None, None, false)
    ensures eventDate.Some? && eventTime.Some? && duration.Some?
    ensures today <= eventDate.value <= today + MaxDaysAhead
    ensures FirstStart <= eventTime.value <= LastStart && 1 <= duration.value <= 8
    ensures forall i :: 0 <= i < |rows| && Considered(rows[i], None, eventDate.value) ==>
      !Overlaps(eventTime.value, eventTime.value + 60 * duration.value, rows[i].time, rows[i].endTime)
    ensures forall i :: 0 <= i < |rows| && Considered(rows[i], None, eventDate.value) && rows[i].endTime == RowEnd(rows[i]) ==>
      !Overlaps(eventTime.value, eventTime.value + 60 * duration.value, rows[i].time, RowEnd(rows[i]))
  {
  }

  /** The window's edges: today and today + 90 are both bookable. */
  lemma DateWindowInclusive(today: int)
    ensures CleanEventDate(today, today) == Ok(today)
    ensures CleanEventDate(today + 90, today) == Ok(today + 90)
    ensures CleanEventDate(today - 1, today) == Err(PastDate)
    ensures CleanEventDate(today + 91, today) == Err(TooFarAhead)
  {
  }
}

/**
 * The "Create New Event" form: the field rules its schema declares, the
 * split of the "HH:MM" time, the request body and the submit sequence.
 */
module CreateEvent {
  import opened Wrappers
  import opened Text
  import opened BrowserState

  /** A day picked in the calendar, standing for a JavaScript `Date`; its calendar arithmetic is not modelled. */
  datatype Instant = Instant(millis: int)

  /**
   * The form values as the schema sees them. `maxAttendees` is the number
   * after coercion with `Number(...)`, `None` standing for NaN; a date or time
   * the user has not picked is `None`.
   */
  datatype FormValues = FormValues(
    title: string,
    description: string,
    date: Option<Instant>,
    time: Option<string>,
    location: string,
    maxAttendees: Option<real>,
    rsvpDeadline: Option<Instant>)

  /** A schema message. */
  datatype Issue =
    | TitleTooShort
    | DescriptionTooShort
    | DateRequired
    | TimeRequired
    | LocationTooShort
    | MaxAttendeesNotANumber
    | MaxAttendeesNotInteger
    | MaxAttendeesNotPositive
    | RsvpDeadlineRequired

  /**
   * The form's `errors`: per field the message shown under it, `None` when
   * the field passes. The resolver keeps the first failing rule of a field.
   */
  datatype FieldErrors = FieldErrors(
    title: Option<Issue>,
    description: Option<Issue>,
    date: Option<Issue>,
    time: Option<Issue>,
    location: Option<Issue>,
    maxAttendees: Option<Issue>,
    rsvpDeadline: Option<Issue>)

  const NoErrors := FieldErrors(None, None, None, None, None, None, None)

  predicate IsInteger(x: real) { x == x.Floor as real }

  function Rule(broken: bool, issue: Issue): Option<Issue>
  {
    if broken then Some(issue) else None
  }

  /**
   * The number chain `z.coerce.number().int().positive()`: NaN fails the
   * number test; otherwise a non-integer is reported before a non-positive
   * value.
   */
  function NumberError(n: Option<real>): (r: Option<Issue>)
    ensures r == Some(MaxAttendeesNotANumber) <==> n.None?
    ensures r == Some(MaxAttendeesNotInteger) <==> n.Some? && !IsInteger(n.value)
    ensures r == Some(MaxAttendeesNotPositive) <==> n.Some? && IsInteger(n.value) && n.value <= 0.0
    ensures r == None <==> n.Some? && IsInteger(n.value) && n.value > 0.0
  {
    match n
    case None => Some(MaxAttendeesNotANumber)
    case Some(x) =>
      if !IsInteger(x) then Some(MaxAttendeesNotInteger)
      else Rule(x <= 0.0, MaxAttendeesNotPositive)
  }

  /**
   * The schema applied to the values: title at least 2 characters,
   * description at least 10, a date, a non-empty time, location at least 2,
   * a positive integer number of attendees, an RSVP deadline. Each field
   * shows its own rule's message, exactly when that rule is broken.
   */
  function Check(v: FormValues): (e: FieldErrors)
    ensures e.title == None || e.title == Some(TitleTooShort)
    ensures e.title.Some? <==> |v.title| < 2
    ensures e.description == None || e.description == Some(DescriptionTooShort)
    ensures e.description.Some? <==> |v.description| < 10
    ensures e.date == None || e.date == Some(DateRequired)
    ensures e.date.Some? <==> v.date.None?
    ensures e.time == None || e.time == Some(TimeRequired)
    ensures e.time.Some? <==> v.time.None? || v.time.value == ""
    ensures e.location == None || e.location == Some(LocationTooShort)
    ensures e.location.Some? <==> |v.location| < 2
    ensures e.maxAttendees == NumberError(v.maxAttendees)
    ensures e.rsvpDeadline == None || e.rsvpDeadline == Some(RsvpDeadlineRequired)
    ensures e.rsvpDeadline.Some? <==> v.rsvpDeadline.None?
  {
    FieldErrors(
      Rule(|v.title| < 2, TitleTooShort),
      Rule(|v.description| < 10, DescriptionTooShort),
      Rule(v.date.None?, DateRequired),
      Rule(v.time.None? || v.time.value == "", TimeRequired),
      Rule(|v.location| < 2, LocationTooShort),
      NumberError(v.maxAttendees),
      Rule(v.rsvpDeadline.None?, RsvpDeadlineRequired))
  }

  /** The schema accepts the values: no field shows a message. */
  predicate IsValid(v: FormValues) { Check(v) == NoErrors }

  /** The rules, stated field by field. */
  ghost predicate MeetsRules(v: FormValues)
  {
    && |v.title| >= 2
    && |v.description| >= 10
    && v.date.Some?
    && v.time.Some? && v.time.value != ""
    && |v.location| >= 2
    && v.maxAttendees.Some? && IsInteger(v.maxAttendees.value) && v.maxAttendees.value > 0.0
    && v.rsvpDeadline.Some?
  }

  /** Accepted values are exactly those that meet every rule. */
  lemma ValidIffMeetsRules(v: FormValues)
    ensures IsValid(v) <==> MeetsRules(v)
  {
  }

  /** The form's `defaultValues`: empty texts and 100 attendees; no date, time or deadline yet. */
  const Defaults := FormValues("", "", None, None, "", Some(100.0), None)

  /** The default attendee count passes its rules; every other field must still be filled in. */
  lemma DefaultsErrors()
    ensures Check(Defaults) == FieldErrors(
      Some(TitleTooShort), Some(DescriptionTooShort), Some(DateRequired), Some(TimeRequired),
      Some(LocationTooShort), None, Some(RsvpDeadlineRequired))
  {
  }

  /** Date and deadline are only required: any two picks are accepted, in either order. */
  lemma DatesUnordered(v: FormValues, date: Instant, deadline: Instant)
    requires IsValid(v)
    ensures IsValid(v.(date := Some(date), rsvpDeadline := Some(deadline)))
  {
    ValidIffMeetsRules(v);
    ValidIffMeetsRules(v.(date := Some(date), rsvpDeadline := Some(deadline)));
  }

  // --------------------------------------------------------------- the time

  /**
   * `const [hours, minutes] = time.split(":").map(Number)`: the first two
   * pieces as numbers. A NaN in either (a missing piece is `undefined`, which
   * `setHours` turns into NaN) makes the date invalid, so that `toISOString`
   * throws; that is `None`. A time without ':' has no minutes, and any
   * further pieces are ignored.
   */
  function ClockTime(time: string): (r: Option<(int, int)>)
    ensures ':' !in time ==> r.None?
    ensures r.Some? <==>
      |Split(time, ':')| >= 2 && AllDigits(Split(time, ':')[0]) && AllDigits(Split(time, ':')[1])
    ensures r.Some? ==>
      r.value == (DigitsValue(Split(time, ':')[0]), DigitsValue(Split(time, ':')[1]))
    ensures r.Some? ==> r.value.0 >= 0 && r.value.1 >= 0
  {
    assert ':' !in time ==> |Split(time, ':')| == 1 by {
      if ':' !in time {
        SplitFree(time, ':');
      }
    }
    var parts := Split(time, ':');
    var hours := ParseNumber(parts[0]);
    var minutes := if |parts| >= 2 then ParseNumber(parts[1]) else None;
    if hours.Some? && minutes.Some? then Some((hours.value, minutes.value)) else None
  }

  /** A time input's "HH:MM" splits into hours HH and minutes MM. */
  lemma ClockTimeOfHhMm(hh: string, mm: string)
    requires |hh| == 2 && |mm| == 2 && AllDigits(hh) && AllDigits(mm)
    ensures ClockTime(hh + ":" + mm) ==
      Some((10 * (hh[0] - '0') as int + (hh[1] - '0') as int, 10 * (mm[0] - '0') as int + (mm[1] - '0') as int))
  {
    assert ':' !in hh && ':' !in mm by {
      assert !IsDigit(':');
    }
    SplitAtSeparator(hh, mm, ':');
    assert hh + ":" + mm == hh + [':'] + mm;
    TwoDigits(hh);
    TwoDigits(mm);
  }

  // ---------------------------------------------------------- request body

  /** The picked day with the time of day set on it (by `setHours`). */
  datatype EventTime = EventTime(day: Instant, hours: int, minutes: int)

  /** The JSON body of the POST. */
  datatype Payload = Payload(
    title: string,
    description: string,
    date: EventTime,
    timezone: string,
    location: string,
    maxAttendees: real,
    rsvpDeadline: Instant)

  /**
   * `eventData`: title, description, location and attendee count copied as
   * entered, the date combined with the time, the timezone fixed to
   * "India". The body therefore meets the same text and number rules.
   */
  function BuildPayload(v: FormValues, when: EventTime): (p: Payload)
    requires IsValid(v)
    ensures p.title == v.title && p.description == v.description && p.location == v.location
    ensures p.maxAttendees == v.maxAttendees.value && p.rsvpDeadline == v.rsvpDeadline.value
    ensures p.date == when && p.timezone == "India"
    ensures |p.title| >= 2 && |p.description| >= 10 && |p.location| >= 2
    ensures IsInteger(p.maxAttendees) && p.maxAttendees > 0.0
  {
    ValidIffMeetsRules(v);
    Payload(v.title, v.description, when, "India", v.location, v.maxAttendees.value, v.rsvpDeadline.value)
  }

  /** The body sent for accepted values, or `None` when the time cannot be combined and nothing is sent. */
  function RequestBody(v: FormValues): (body: Option<Payload>)
    requires IsValid(v)
    ensures body.Some? <==> ClockTime(v.time.value).Some?
    ensures ClockTime(v.time.value).Some? ==>
      var (hours, minutes) := ClockTime(v.time.value).value;
      body == Some(BuildPayload(v, EventTime(v.date.value, hours, minutes)))
    ensures body.Some? ==> body.value.date.day == v.date.value
  {
    ValidIffMeetsRules(v);
    match ClockTime(v.time.value)
    case None => None
    case Some((h, m)) => Some(BuildPayload(v, EventTime(v.date.value, h, m)))
  }

  // ---------------------------------------------------------- page state

  class CreateEventPage {
    var isLoading: bool

    constructor ()
      ensures !isLoading
    {
      isLoading := false;
    }

    /**
     * `onSubmit`, which the form calls only with accepted values. Without a
     * token nothing is sent; a time that cannot be combined fails before the
     * request; only an ok answer redirects to the host dashboard. The token
     * is left as it was, and `isLoading` ends false on every path.
     */
    method OnSubmit(browser: Browser, values: FormValues, response: Response<()>)
      returns (outcome: Outcome, sent: Option<Payload>)
      requires IsValid(values)
      modifies this, browser`history
      ensures !isLoading
      ensures sent == if HasToken(browser.token) then RequestBody(values) else None
      ensures outcome == Unauthenticated <==> !HasToken(browser.token)
      ensures outcome == Succeeded <==> sent.Some? && response.Ok?
      ensures browser.history == old(browser.history) + (if outcome == Succeeded then ["/dashboard/host"] else [])
    {
      isLoading := true;
      ValidIffMeetsRules(values);
      var token := browser.token;
      if !HasToken(token) {
        outcome, sent := Unauthenticated, None;
      } else {
        var clock := ClockTime(values.time.value);
        if clock.None? {
          outcome, sent := Failed, None;
        } else {
          var when := EventTime(values.date.value, clock.value.0, clock.value.1);
          var eventData := BuildPayload(values, when);
          sent := Some(eventData);
          if response.NotOk? {
            outcome := Failed;
          } else {
            outcome := Succeeded;
            browser.history := browser.history + ["/dashboard/host"];
          }
        }
      }
      isLoading := false;
    }
  }
}

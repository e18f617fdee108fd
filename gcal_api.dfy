/**
 * The calendar client (`GoogleCalendarAPI`): it turns day, month, year, hour
 * and minute arguments into the event bodies and the listing window that the
 * calendar service receives, and maps what the service does to a boolean or an
 * item list. The service itself is two oracle functions inside the client
 * value, one per endpoint; the credentials and the SDK handle behind them are
 * not part of this model.
 */
module GcalApi {
  import opened Wrappers
  import opened Calendar
  import opened IsoFormat

  /** The `start` or `end` of an event body: `{'date': ...}` or `{'dateTime': ...}`. */
  datatype EventTime = AllDay(date: string) | AtTime(dateTime: string)

  /** The event body handed to the insert call. */
  datatype EventBody = EventBody(summary: string, description: string, start: EventTime, end: EventTime)

  datatype InsertRequest = InsertRequest(calendarId: string, body: EventBody)

  datatype ListRequest = ListRequest(calendarId: string, timeMin: string, timeMax: string, singleEvents: bool, orderBy: string)

  /** The `start` dictionary of a listed event; either key may be absent. */
  datatype StartTime = StartTime(dateTime: Option<string>, date: Option<string>)

  /** One item of a listing; the service may leave out any key (an untitled event has no `summary`). */
  datatype ListedEvent = ListedEvent(start: Option<StartTime>, summary: Option<string>)

  /** What `insert(...).execute()` does: raise, or return the created event, whose `htmlLink` is read. */
  datatype InsertResponse = InsertRaised | Inserted(htmlLink: Option<string>)

  /** What `list(...).execute()` does: raise, or return a result that may hold `items`. */
  datatype ListResponse = ListRaised | Listed(items: Option<seq<ListedEvent>>)

  /** What one client operation does: an exception escapes before any request
      is sent, or exactly one request is sent and its outcome returned. */
  datatype Effect<Req, T> = Raised(exception: Exception) | Called(request: Req, result: T)

  /** `if v is None: v = today`. */
  function Default(v: Option<int>, today: int): int
  {
    match v
    case None => today
    case Some(x) => x
  }

  /** The date named by three optional components, each missing one taken from today. */
  function DefaultDate(today: Date, day: Option<int>, month: Option<int>, year: Option<int>): (d: Date)
    ensures d.day == (if day.None? then today.day else day.value)
    ensures d.month == (if month.None? then today.month else month.value)
    ensures d.year == (if year.None? then today.year else year.value)
  {
    Date(Default(year, today.year), Default(month, today.month), Default(day, today.day))
  }

  /** The `try` around an insert: True unless `execute()` or reading `htmlLink` raised. */
  function InsertSucceeded(response: InsertResponse): bool
  {
    response.Inserted? && response.htmlLink.Some?
  }

  /** The `try` around a listing: `items` (or `[]` when absent), and `[]` when the call raised. */
  function ListedItems(response: ListResponse): seq<ListedEvent>
  {
    match response
    case ListRaised => []
    case Listed(items) => if items.Some? then items.value else []
  }

  /** The window start "YYYY-MM-DDT00:00:00Z" of a valid date. */
  function DayStart(d: Date): (s: string)
    requires ValidDate(d)
    ensures s == FormatDate(d) + "T00:00:00Z"
    ensures ParseDateTime(s[..19]) == Some(DateTime(d, 0, 0, 0)) && s[19..] == "Z"
  {
    var dt := DateTime(d, 0, 0, 0);
    ParseFormatDateTime(dt);
    PaddedTwoDigits(0);
    FormatDateTime(dt) + "Z"
  }

  /** The window end "YYYY-MM-DDT23:59:59Z" of a valid date. */
  function DayEnd(d: Date): (s: string)
    requires ValidDate(d)
    ensures s == FormatDate(d) + "T23:59:59Z"
    ensures ParseDateTime(s[..19]) == Some(DateTime(d, 23, 59, 59)) && s[19..] == "Z"
  {
    var dt := DateTime(d, 23, 59, 59);
    ParseFormatDateTime(dt);
    PaddedTwoDigits(23);
    PaddedTwoDigits(59);
    FormatDateTime(dt) + "Z"
  }

  /** The client: the calendar it writes to and the service behind it. Both are
      set at construction and never change. */
  datatype CalendarApi = CalendarApi(
    calendarId: string,
    insert: InsertRequest -> InsertResponse,
    list: ListRequest -> ListResponse)
  {
    /** Sends one insert request and maps its outcome to a boolean. */
    function Send(body: EventBody): (r: Effect<InsertRequest, bool>)
    {
      var request := InsertRequest(calendarId, body);
      Called(request, InsertSucceeded(insert(request)))
    }

    /** `add_event_full_day`: a one-day all-day event, its end the exclusive next day. */
    function AddEventFullDay(today: Date, name: string, description: string,
                             day: Option<int>, month: Option<int>, year: Option<int>): (r: Effect<InsertRequest, bool>)
      ensures var d := DefaultDate(today, day, month, year);
        && (r.Called? <==> ValidDate(d) && d != MAX_DATE)
        && (r.Raised? ==> r.exception == if ValidDate(d) then OverflowError else DateError(d))
        && (r.Called? ==>
              && r.request.calendarId == calendarId
              && r.request.body.summary == name
              && r.request.body.description == description
              && r.request.body.start == AllDay(FormatDate(d))
              && r.request.body.end.AllDay?
              && ParseDate(r.request.body.end.date).Some?
              && Ordinal(ParseDate(r.request.body.end.date).value) == Ordinal(d) + 1
              && (r.result <==> insert(r.request).Inserted? && insert(r.request).htmlLink.Some?))
    {
      var d := DefaultDate(today, day, month, year);
      match MakeDate(d.year, d.month, d.day)
      case Raise(e) => Raised(e)
      case Ok(start) =>
        match AddOneDay(start)
        case Raise(e) => Raised(e)
        case Ok(end) =>
          ParseFormatDate(end);
          Send(EventBody(name, description, AllDay(FormatDate(start)), AllDay(FormatDate(end))))
    }

    /** `add_event_with_time`: start and end date-times on one date, in the order given. */
    function AddEventWithTime(today: Date, name: string, startHour: int, startMinute: int,
                              endHour: int, endMinute: int, description: string,
                              day: Option<int>, month: Option<int>, year: Option<int>): (r: Effect<InsertRequest, bool>)
      ensures var d := DefaultDate(today, day, month, year);
        var start := DateTime(d, startHour, startMinute, 0);
        var end := DateTime(d, endHour, endMinute, 0);
        && (r.Called? <==> ValidDateTime(start) && ValidDateTime(end))
        && (r.Raised? ==> r.exception == if !ValidDateTime(start) then DateTimeError(start) else DateTimeError(end))
        && (r.Called? ==>
              && r.request.calendarId == calendarId
              && r.request.body.summary == name
              && r.request.body.description == description
              && r.request.body.start.AtTime?
              && r.request.body.end.AtTime?
              && ParseDateTime(r.request.body.start.dateTime) == Some(start)
              && ParseDateTime(r.request.body.end.dateTime) == Some(end)
              && |r.request.body.start.dateTime| == |r.request.body.end.dateTime| == 19
              && r.request.body.start.dateTime[..10] == r.request.body.end.dateTime[..10] == FormatDate(d)
              && (r.result <==> insert(r.request).Inserted? && insert(r.request).htmlLink.Some?))
    {
      var d := DefaultDate(today, day, month, year);
      match MakeDateTime(d.year, d.month, d.day, startHour, startMinute, 0)
      case Raise(e) => Raised(e)
      case Ok(start) =>
        match MakeDateTime(d.year, d.month, d.day, endHour, endMinute, 0)
        case Raise(e) => Raised(e)
        case Ok(end) =>
          ParseFormatDateTime(start);
          ParseFormatDateTime(end);
          Send(EventBody(name, description, AtTime(FormatDateTime(start)), AtTime(FormatDateTime(end))))
    }

    /** `add_multi_day_event`: an all-day event from the start date through the end date. */
    function AddMultiDayEvent(name: string, description: string,
                              startDay: int, startMonth: int, startYear: int,
                              endDay: int, endMonth: int, endYear: int): (r: Effect<InsertRequest, bool>)
      ensures var s := Date(startYear, startMonth, startDay);
        var e := Date(endYear, endMonth, endDay);
        && (r.Called? <==> ValidDate(s) && ValidDate(e) && e != MAX_DATE)
        && (r.Raised? ==>
              r.exception == (if !ValidDate(s) then DateError(s) else if !ValidDate(e) then DateError(e) else OverflowError))
        && (r.Called? ==>
              && r.request.calendarId == calendarId
              && r.request.body.summary == name
              && r.request.body.description == description
              && r.request.body.start == AllDay(FormatDate(s))
              && r.request.body.end.AllDay?
              && ParseDate(r.request.body.end.date).Some?
              && Ordinal(ParseDate(r.request.body.end.date).value) == Ordinal(e) + 1
              && (r.result <==> insert(r.request).Inserted? && insert(r.request).htmlLink.Some?))
    {
      match MakeDate(startYear, startMonth, startDay)
      case Raise(e) => Raised(e)
      case Ok(start) =>
        match MakeDate(endYear, endMonth, endDay)
        case Raise(e) => Raised(e)
        case Ok(last) =>
          match AddOneDay(last)
          case Raise(e) => Raised(e)
          case Ok(end) =>
            ParseFormatDate(end);
            Send(EventBody(name, description, AllDay(FormatDate(start)), AllDay(FormatDate(end))))
    }

    /** `get_events`: every event starting from the first second of the start
        date through the last second of the end date, recurring events expanded,
        ordered by start time. */
    function GetEvents(today: Date, startDay: Option<int>, startMonth: Option<int>, startYear: Option<int>,
                       endDay: Option<int>, endMonth: Option<int>, endYear: Option<int>): (r: Effect<ListRequest, seq<ListedEvent>>)
      ensures var s := DefaultDate(today, startDay, startMonth, startYear);
        var e := DefaultDate(today, endDay, endMonth, endYear);
        && (r.Called? <==> ValidDate(s) && ValidDate(e))
        && (r.Raised? ==> r.exception == if !ValidDate(s) then DateError(s) else DateError(e))
        && (r.Called? ==>
              && r.request.calendarId == calendarId
              && r.request.timeMin == FormatDate(s) + "T00:00:00Z"
              && r.request.timeMax == FormatDate(e) + "T23:59:59Z"
              && r.request.singleEvents
              && r.request.orderBy == "startTime"
              && (list(r.request).Listed? && list(r.request).items.Some? ==> r.result == list(r.request).items.value)
              && (list(r.request) == ListRaised || list(r.request) == Listed(None) ==> r.result == []))
    {
      var s := DefaultDate(today, startDay, startMonth, startYear);
      var e := DefaultDate(today, endDay, endMonth, endYear);
      match MakeDateTime(s.year, s.month, s.day, 0, 0, 0)
      case Raise(x) => Raised(x)
      case Ok(first) =>
        match MakeDateTime(e.year, e.month, e.day, 23, 59, 59)
        case Raise(x) => Raised(x)
        case Ok(last) =>
          var request := ListRequest(calendarId, DayStart(first.date), DayEnd(last.date), true, "startTime");
          Called(request, ListedItems(list(request)))
    }
  }

  /** A timed event ending before it starts is still sent (here 17:30 to 09:15 on 15 March 2024). */
  lemma ReversedTimesAreSent(api: CalendarApi, today: Date)
    ensures api.AddEventWithTime(today, "x", 17, 30, 9, 15, "", Some(15), Some(3), Some(2024)).Called?
  {
    var d := DefaultDate(today, Some(15), Some(3), Some(2024));
    assert d == Date(2024, 3, 15) && ValidDate(d);
    assert ValidDateTime(DateTime(d, 17, 30, 0)) && ValidDateTime(DateTime(d, 9, 15, 0));
  }

  /** A multi-day event ending before it starts is still sent (here 20 March to 10 March 2024). */
  lemma ReversedDatesAreSent(api: CalendarApi)
    ensures api.AddMultiDayEvent("x", "", 20, 3, 2024, 10, 3, 2024).Called?
  {
    assert ValidDate(Date(2024, 3, 20)) && ValidDate(Date(2024, 3, 10));
  }

  /** ISO form of a date, digit by digit. */
  lemma FormatDateDigits(d: Date)
    requires ValidDate(d)
    ensures FormatDate(d) == [DigitChar(d.year / 1000), DigitChar(d.year / 100 % 10), DigitChar(d.year / 10 % 10),
                              DigitChar(d.year % 10), '-', DigitChar(d.month / 10), DigitChar(d.month % 10), '-',
                              DigitChar(d.day / 10), DigitChar(d.day % 10)]
  {
    PaddedFourDigits(d.year);
    PaddedTwoDigits(d.month);
    PaddedTwoDigits(d.day);
  }

  /** The ISO forms of the two dates of the example below. The dates are
      parameters pinned by `requires` rather than literals in the body, so the
      solver does not unfold the digit functions on the constants. */
  lemma MarchFormats(d15: Date, d16: Date)
    requires d15 == Date(2024, 3, 15) && d16 == Date(2024, 3, 16)
    ensures FormatDate(d15) == "2024-03-15"
    ensures FormatDate(d16) == "2024-03-16"
  {
    FormatDateDigits(d15);
    FormatDateDigits(d16);
  }

  /** The full-day payload of 15 March 2024 runs from "2024-03-15" to "2024-03-16". */
  lemma FullDayExample(api: CalendarApi, today: Date)
    ensures var r := api.AddEventFullDay(today, "Team Sync", "", Some(15), Some(3), Some(2024));
      r.Called? && r.request.body.start == AllDay("2024-03-15") && r.request.body.end == AllDay("2024-03-16")
  {
    MarchFormats(Date(2024, 3, 15), Date(2024, 3, 16));
    assert AddOneDay(Date(2024, 3, 15)) == Ok(Date(2024, 3, 16));
  }

  /** An hour beyond a C `int` is rejected with OverflowError, not ValueError. */
  lemma HugeHourOverflows(api: CalendarApi, today: Date)
    ensures api.AddEventWithTime(today, "x", 3000000000, 0, 10, 0, "", Some(15), Some(3), Some(2024))
            == Raised(OverflowError)
  {
    assert !IsCInt(3000000000);
  }
}

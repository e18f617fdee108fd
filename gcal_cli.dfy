/**
 * The command dispatcher (`gcal_cli`): `add` picks one client operation by the
 * event type after checking that the needed fields were given, `view` lists a
 * date range and prints one line per event. A run is described by what it
 * prints on standard output, the requests it sends and how it terminates.
 */
module GcalCli {
  import opened Wrappers
  import opened Calendar
  import opened IsoFormat
  import opened GcalApi

  /** The parsed arguments of `add`; an option not given is None. */
  datatype AddArgs = AddArgs(
    name: string, eventType: string, desc: Option<string>,
    day: Option<int>, month: Option<int>, year: Option<int>,
    startHour: Option<int>, startMinute: Option<int>, endHour: Option<int>, endMinute: Option<int>,
    startDay: Option<int>, startMonth: Option<int>, startYear: Option<int>,
    endDay: Option<int>, endMonth: Option<int>, endYear: Option<int>)

  /** The parsed arguments of `view`. */
  datatype ViewArgs = ViewArgs(
    startDay: Option<int>, startMonth: Option<int>, startYear: Option<int>,
    endDay: Option<int>, endMonth: Option<int>, endYear: Option<int>)

  datatype Command = Add(addArgs: AddArgs) | View(viewArgs: ViewArgs)

  /** The client operation `add` invokes, with the arguments it passes. */
  datatype ApiCall =
    | FullDayCall(name: string, description: string, day: Option<int>, month: Option<int>, year: Option<int>)
    | TimedCall(name: string, startHour: int, startMinute: int, endHour: int, endMinute: int,
                description: string, day: Option<int>, month: Option<int>, year: Option<int>)
    | MultiDayCall(name: string, description: string, startDay: int, startMonth: int, startYear: int,
                   endDay: int, endMonth: int, endYear: int)

  /** What `add` decides before touching the client. */
  datatype Dispatch = UsageError(message: string) | Invoke(call: ApiCall)

  datatype Request = Insert(insertRequest: InsertRequest) | List(listRequest: ListRequest)

  /** How a run ends: `exit(status)` or normal return (status 0), or an exception no one catches. */
  datatype Termination = Exited(status: int) | Uncaught(exception: Exception)

  /** One run: the lines printed, the requests sent to the service, the way it ended. */
  datatype Process = Process(stdout: seq<string>, requests: seq<Request>, termination: Termination)

  const PARTIAL_USAGE: string := "For partial events, start and end times are required."
  const MULTI_USAGE: string := "For multi-day events, start and end dates are required."
  const TYPE_USAGE: string := "Invalid event type specified."
  const NO_EVENTS: string := "No events found."

  /** Python truthiness of an optional integer: None and 0 are false. */
  predicate Truthy(v: Option<int>)
  {
    v.Some? && v.value != 0
  }

  /** `v or fallback`. */
  function OrElse(v: Option<int>, fallback: int): int
  {
    if Truthy(v) then v.value else fallback
  }

  /** `name.replace("_", " ")`. */
  function Spaced(name: string): (r: string)
    ensures |r| == |name| && '_' !in r
    ensures forall i :: 0 <= i < |name| && name[i] != '_' ==> r[i] == name[i]
    ensures forall i :: 0 <= i < |name| && name[i] == '_' ==> r[i] == ' '
  {
    seq(|name|, i requires 0 <= i < |name| => if name[i] == '_' then ' ' else name[i])
  }

  /** `desc or ""`: a missing or empty description becomes "". */
  function DescOrEmpty(desc: Option<string>): string
  {
    if desc.Some? then desc.value else ""
  }

  /** `error`: print the usage line and exit with status 1. */
  function Error(message: string): Process
  {
    Process(["Usage: " + message], [], Exited(1))
  }

  predicate TimesGiven(args: AddArgs)
  {
    Truthy(args.startHour) && Truthy(args.startMinute) && Truthy(args.endHour) && Truthy(args.endMinute)
  }

  predicate DatesGiven(args: AddArgs)
  {
    Truthy(args.startDay) && Truthy(args.startMonth) && Truthy(args.startYear)
    && Truthy(args.endDay) && Truthy(args.endMonth) && Truthy(args.endYear)
  }

  function CallName(call: ApiCall): string
  {
    match call
    case FullDayCall(name, _, _, _, _) => name
    case TimedCall(name, _, _, _, _, _, _, _, _) => name
    case MultiDayCall(name, _, _, _, _, _, _, _) => name
  }

  function CallDescription(call: ApiCall): string
  {
    match call
    case FullDayCall(_, description, _, _, _) => description
    case TimedCall(_, _, _, _, _, description, _, _, _) => description
    case MultiDayCall(_, description, _, _, _, _, _, _) => description
  }

  /** `add_event`: the type selects the operation; `partial` and `multi` first
      check that their fields are truthy, so a given 0 counts as missing. */
  function AddEvent(args: AddArgs): (r: Dispatch)
    ensures r.Invoke? <==>
      args.eventType == "full"
      || (args.eventType == "partial" && TimesGiven(args))
      || (args.eventType == "multi" && DatesGiven(args))
    ensures r.UsageError? ==>
      r.message == if args.eventType == "partial" then PARTIAL_USAGE
                   else if args.eventType == "multi" then MULTI_USAGE
                   else TYPE_USAGE
    ensures r.Invoke? ==> CallName(r.call) == Spaced(args.name) && CallDescription(r.call) == DescOrEmpty(args.desc)
    ensures r.Invoke? && args.eventType == "full" ==>
      r.call.FullDayCall? && r.call.day == args.day && r.call.month == args.month && r.call.year == args.year
    ensures r.Invoke? && args.eventType == "partial" ==>
      && r.call.TimedCall?
      && Some(r.call.startHour) == args.startHour && Some(r.call.startMinute) == args.startMinute
      && Some(r.call.endHour) == args.endHour && Some(r.call.endMinute) == args.endMinute
      && r.call.day == args.day && r.call.month == args.month && r.call.year == args.year
    ensures r.Invoke? && args.eventType == "multi" ==>
      && r.call.MultiDayCall?
      && Some(r.call.startDay) == args.startDay && Some(r.call.startMonth) == args.startMonth
      && Some(r.call.startYear) == args.startYear && Some(r.call.endDay) == args.endDay
      && Some(r.call.endMonth) == args.endMonth && Some(r.call.endYear) == args.endYear
  {
    var name := Spaced(args.name);
    var description := DescOrEmpty(args.desc);
    if args.eventType == "full" then
      Invoke(FullDayCall(name, description, args.day, args.month, args.year))
    else if args.eventType == "partial" then
      if !TimesGiven(args) then UsageError(PARTIAL_USAGE)
      else Invoke(TimedCall(name, args.startHour.value, args.startMinute.value, args.endHour.value,
                            args.endMinute.value, description, args.day, args.month, args.year))
    else if args.eventType == "multi" then
      if !DatesGiven(args) then UsageError(MULTI_USAGE)
      else Invoke(MultiDayCall(name, description, args.startDay.value, args.startMonth.value, args.startYear.value,
                               args.endDay.value, args.endMonth.value, args.endYear.value))
    else UsageError(TYPE_USAGE)
  }

  /** The client operation a dispatch names, applied; only a date or time error can escape it. */
  function Perform(api: CalendarApi, today: Date, call: ApiCall): (r: Effect<InsertRequest, bool>)
    ensures r.Raised? ==> r.exception == ValueError || r.exception == OverflowError
  {
    match call
    case FullDayCall(name, description, day, month, year) =>
      api.AddEventFullDay(today, name, description, day, month, year)
    case TimedCall(name, sh, sm, eh, em, description, day, month, year) =>
      api.AddEventWithTime(today, name, sh, sm, eh, em, description, day, month, year)
    case MultiDayCall(name, description, sd, sm, sy, ed, em, ey) =>
      api.AddMultiDayEvent(name, description, sd, sm, sy, ed, em, ey)
  }

  /** A whole `add` run. A usage error prints one line, exits 1 and sends
      nothing. Otherwise nothing is printed: the run sends one insert and exits 0
      whatever the service answered, or a date error escapes before any request. */
  function RunAdd(api: CalendarApi, today: Date, args: AddArgs): (p: Process)
    ensures AddEvent(args).UsageError? ==>
      p.stdout == ["Usage: " + AddEvent(args).message] && p.requests == [] && p.termination == Exited(1)
    ensures AddEvent(args).Invoke? ==> p.stdout == []
    ensures p.termination == Exited(1) <==> AddEvent(args).UsageError?
    ensures |p.requests| <= 1
    ensures p.requests != [] <==> AddEvent(args).Invoke? && Perform(api, today, AddEvent(args).call).Called?
    ensures p.requests != [] ==>
      p.termination == Exited(0) && p.requests == [Insert(Perform(api, today, AddEvent(args).call).request)]
    ensures AddEvent(args).Invoke? && Perform(api, today, AddEvent(args).call).Raised? ==>
      p == Process([], [], Uncaught(Perform(api, today, AddEvent(args).call).exception))
    ensures p.termination.Uncaught? ==> (p.termination.exception == ValueError || p.termination.exception == OverflowError)
  {
    match AddEvent(args)
    case UsageError(message) => Error(message)
    case Invoke(call) =>
      match Perform(api, today, call)
      case Raised(e) => Process([], [], Uncaught(e))
      case Called(request, _) => Process([], [Insert(request)], Exited(0))
  }

  /** The text before the colon of a listed event: `dateTime` if present, else
      `date`, else Python's rendering of None. */
  function StartText(start: StartTime): string
  {
    if start.dateTime.Some? then start.dateTime.value
    else if start.date.Some? then start.date.value
    else "None"
  }

  /** An event whose line can be printed: it has both `start` and `summary`. */
  predicate Printable(event: ListedEvent)
  {
    event.start.Some? && event.summary.Some?
  }

  /** The printed line of an event: "<start>: <summary>". */
  function Line(event: ListedEvent): string
    requires Printable(event)
  {
    StartText(event.start.value) + ": " + event.summary.value
  }

  /** The listing `view` asks for: each bound component given as 0 or not at all is today's. */
  function ViewListing(api: CalendarApi, today: Date, args: ViewArgs): (r: Effect<ListRequest, seq<ListedEvent>>)
    ensures var s := Date(OrElse(args.startYear, today.year), OrElse(args.startMonth, today.month), OrElse(args.startDay, today.day));
      var e := Date(OrElse(args.endYear, today.year), OrElse(args.endMonth, today.month), OrElse(args.endDay, today.day));
      && (r.Called? <==> ValidDate(s) && ValidDate(e))
      && (r.Raised? ==> r.exception == if !ValidDate(s) then DateError(s) else DateError(e))
      && (r.Called? ==>
            && r.request.timeMin == FormatDate(s) + "T00:00:00Z"
            && r.request.timeMax == FormatDate(e) + "T23:59:59Z"
            && r.result == ListedItems(api.list(r.request)))
  {
    api.GetEvents(today,
      Some(OrElse(args.startDay, today.day)), Some(OrElse(args.startMonth, today.month)),
      Some(OrElse(args.startYear, today.year)), Some(OrElse(args.endDay, today.day)),
      Some(OrElse(args.endMonth, today.month)), Some(OrElse(args.endYear, today.year)))
  }

  /** The `for` loop of `view_events`: print the line of each event in order;
      the first event without `start` or `summary` raises KeyError, after the
      lines before it were printed. */
  method PrintEvents(events: seq<ListedEvent>) returns (lines: seq<string>, termination: Termination)
    ensures |lines| <= |events|
    ensures forall i :: 0 <= i < |lines| ==> Printable(events[i]) && lines[i] == Line(events[i])
    ensures |lines| < |events| ==> !Printable(events[|lines|])
    ensures termination == if |lines| == |events| then Exited(0) else Uncaught(KeyError)
  {
    lines := [];
    var i := 0;
    while i < |events|
      invariant 0 <= i <= |events|
      invariant |lines| == i
      invariant forall k :: 0 <= k < i ==> Printable(events[k]) && lines[k] == Line(events[k])
    {
      var event := events[i];
      if !Printable(event) {
        return lines, Uncaught(KeyError);
      }
      lines := lines + [Line(event)];
      i := i + 1;
    }
    termination := Exited(0);
  }

  /** `view_events`: list the range, then print "No events found." for an empty
      listing, or the events' lines. */
  method ViewEvents(api: CalendarApi, today: Date, args: ViewArgs) returns (p: Process)
    ensures var listing := ViewListing(api, today, args);
      && (listing.Raised? ==> p == Process([], [], Uncaught(listing.exception)))
      && (listing.Called? ==> p.requests == [List(listing.request)])
      && (p.termination == Exited(0) || p.termination.Uncaught?)
      && |p.requests| <= 1 && (forall r :: r in p.requests ==> r.List?)
      && (listing.Called? && listing.result == [] ==> p.stdout == [NO_EVENTS] && p.termination == Exited(0))
      && (listing.Called? && listing.result != [] ==>
            && |p.stdout| <= |listing.result|
            && (forall i :: 0 <= i < |p.stdout| ==> Printable(listing.result[i]) && p.stdout[i] == Line(listing.result[i]))
            && (|p.stdout| < |listing.result| ==> !Printable(listing.result[|p.stdout|]))
            && p.termination == if |p.stdout| == |listing.result| then Exited(0) else Uncaught(KeyError))
  {
    var listing := ViewListing(api, today, args);
    if listing.Raised? {
      return Process([], [], Uncaught(listing.exception));
    }
    var events := listing.result;
    if events == [] {
      return Process([NO_EVENTS], [List(listing.request)], Exited(0));
    }
    var lines, termination := PrintEvents(events);
    p := Process(lines, [List(listing.request)], termination);
  }

  /** `main` after argument parsing: run the one command. A run sends at most one
      request, and a usage error sends none. */
  method Run(api: CalendarApi, today: Date, command: Command) returns (p: Process)
    ensures |p.requests| <= 1
    ensures p.termination == Exited(1) ==> p.requests == [] && |p.stdout| == 1
    ensures command.Add? ==> p == RunAdd(api, today, command.addArgs)
    ensures command.View? ==> forall r :: r in p.requests ==> r.List?
    ensures command.View? ==> var listing := ViewListing(api, today, command.viewArgs);
      && (listing.Raised? ==> p == Process([], [], Uncaught(listing.exception)))
      && (listing.Called? ==> p.requests == [List(listing.request)])
      && (listing.Called? && listing.result == [] ==> p.stdout == [NO_EVENTS] && p.termination == Exited(0))
      && (listing.Called? && listing.result != [] ==>
            && |p.stdout| <= |listing.result|
            && (forall i :: 0 <= i < |p.stdout| ==> Printable(listing.result[i]) && p.stdout[i] == Line(listing.result[i]))
            && (|p.stdout| < |listing.result| ==> !Printable(listing.result[|p.stdout|]))
            && p.termination == if |p.stdout| == |listing.result| then Exited(0) else Uncaught(KeyError))
  {
    match command
    case Add(args) =>
      p := RunAdd(api, today, args);
    case View(args) =>
      p := ViewEvents(api, today, args);
  }

  /** `partial` with any of its four times missing or 0 (say a start on the hour)
      prints the usage line, exits 1 and sends nothing. */
  lemma PartialZeroIsMissing(api: CalendarApi, today: Date, args: AddArgs)
    requires args.eventType == "partial"
    requires args.startHour in {None, Some(0)} || args.startMinute in {None, Some(0)}
             || args.endHour in {None, Some(0)} || args.endMinute in {None, Some(0)}
    ensures RunAdd(api, today, args) == Process(["Usage: " + PARTIAL_USAGE], [], Exited(1))
  {
  }

  /** An event type other than the three prints the usage line whatever the other fields are. */
  lemma UnknownTypeIsUsageError(api: CalendarApi, today: Date, args: AddArgs)
    requires args.eventType !in {"full", "partial", "multi"}
    ensures RunAdd(api, today, args) == Process(["Usage: " + TYPE_USAGE], [], Exited(1))
  {
  }

  /** The name of the example below, with its underscore turned into a space. */
  lemma TeamSyncSpaced()
    ensures Spaced("Team_Sync") == "Team Sync"
  {
    var r := Spaced("Team_Sync");
    assert r[4] == ' ';
  }

  /** `add Team_Sync --type full --day 15 --month 3 --year 2024` sends one insert
      of "Team Sync" from 2024-03-15 to 2024-03-16 and exits 0 even when the
      service fails. */
  lemma TeamSyncExample(api: CalendarApi, today: Date)
    ensures var args := AddArgs("Team_Sync", "full", None, Some(15), Some(3), Some(2024),
                                None, None, None, None, None, None, None, None, None, None);
      var p := RunAdd(api, today, args);
      && p.stdout == []
      && p.termination == Exited(0)
      && |p.requests| == 1
      && p.requests[0].insertRequest.body
         == EventBody("Team Sync", "", AllDay("2024-03-15"), AllDay("2024-03-16"))
  {
    var args := AddArgs("Team_Sync", "full", None, Some(15), Some(3), Some(2024),
                        None, None, None, None, None, None, None, None, None, None);
    TeamSyncSpaced();
    var call := FullDayCall("Team Sync", "", Some(15), Some(3), Some(2024));
    assert AddEvent(args) == Invoke(call);
    FullDayExample(api, today);
    assert Perform(api, today, call) == api.AddEventFullDay(today, "Team Sync", "", Some(15), Some(3), Some(2024));
  }
}

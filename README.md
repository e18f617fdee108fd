# gcal-cli, modelled in Dafny

gcal-cli is a command-line client for Google Calendar. `gcal add NAME --type
{full|partial|multi} ...` creates an all-day, a timed or a multi-day event, and
`gcal view ...` lists the events of a date range. The program's own logic is
small. It fills in missing date parts from today, builds the event body or the
listing window that goes to the calendar service, maps the service's outcome to
`True`/`False` or an item list, checks the command line before any call, and
prints the listing. This project models that logic and proves what it promises.

Modules, one per file:

- `Wrappers` (wrappers.dfy): `Option`, and `Result` for a value or a raised
  Python exception (`ValueError`, `OverflowError`, `KeyError`).
- `Calendar` (calendar.dfy): the proleptic Gregorian calendar that Python's
  `datetime` uses. It covers years 1 to 9999, the checks of CPython's
  `date`/`datetime` constructors (OverflowError for an argument beyond a C
  `int`, then ValueError for an invalid date or time) and
  `date + timedelta(days=1)`. The successor
  day is proved against the day ordinal (0001-01-01 is day 1, as in
  `date.toordinal`).
- `IsoFormat` (isoformat.dfy): `isoformat()` of dates and naive date-times.
  These are "YYYY-MM-DD", an RFC 3339 full-date, and "YYYY-MM-DDTHH:MM:SS", a
  full-date, "T" and a partial-time (section 5.6 of RFC 3339). Without a
  time-offset the second is not an RFC 3339 date-time. A parser is the inverse
  that the formatting is proved against, in both directions.
- `GcalApi` (gcal_api.dfy): the client `GoogleCalendarAPI` as a datatype
  `CalendarApi`. It holds the calendar id and the service, and the service is
  two oracle functions, one for `insert` and one for `list`. Each operation
  returns an `Effect`: `Raised(e)` when an exception escapes before any request
  is sent, or `Called(request, result)` when exactly one request went out.
- `GcalCli` (gcal_cli.dfy): the dispatcher. `AddEvent` decides between a usage
  error and a client call. `RunAdd` and the method `ViewEvents` describe a whole
  run by the lines printed, the requests sent and how the run ends (exit status,
  or an exception nobody catches). `PrintEvents` is the printing loop, and `Run`
  is `main` after argument parsing.

"Today" is a parameter. Python captures it at import time in both source files;
the model uses one value for both.

The code checks neither that a timed event starts before it ends nor that a
multi-day range is in order. Such requests are still sent, and the model follows
the code (`ReversedTimesAreSent`, `ReversedDatesAreSent`).

## Model

| member | source | states |
|---|---|---|
| Calendar.AddOneDay | gcal_api.py:35 | `date + timedelta(days=1)` fails with OverflowError exactly on 9999-12-31. Otherwise it gives a valid date one ordinal later that comes after the input. |
| Calendar.MakeDate | gcal_api.py:34 | `datetime.date(y, m, d)` succeeds exactly on a valid date and returns it. It raises OverflowError when an argument does not fit a C `int`, otherwise ValueError. |
| Calendar.MakeDateTime | gcal_api.py:55-56 | `datetime.datetime(...)` succeeds exactly on a valid date with hour 0-23, minute and second 0-59. It raises OverflowError when an argument does not fit a C `int`, otherwise ValueError. |
| Calendar.NextDayIsNextOrdinal | gcal_api.py:75 | The successor of a valid date is valid, and its ordinal is one more. This covers month and year rollover and 29 February. |
| Calendar.NextDayIsImmediateSuccessor | gcal_api.py:35 | The successor follows the date, and no valid date lies strictly between them. The end of an all-day event is therefore the very next calendar day. |
| Calendar.OrdinalMonotone | gcal_api.py:74-75 | The ordinal follows chronological order, so it numbers valid dates one to one. |
| Calendar.LeapDayRollover | gcal_api.py:35 | 28 February is followed by 29 February exactly in leap years, 29 February by 1 March, and 31 December by 1 January of the next year. |
| IsoFormat.PaddedValue | gcal_api.py:34 | Zero-padded decimal digits read back as the number that was padded. |
| IsoFormat.PaddedOfDigits | gcal_api.py:34 | Every digit string is the padded form of its own value, so padding at a fixed width is one to one. |
| IsoFormat.ParseFormatDate | gcal_api.py:34 | `date.isoformat()` gives a ten-character full-date that reads back as the same date. |
| IsoFormat.FormatParseDate | gcal_api.py:34-35 | Every full-date naming a valid date is the isoformat of the date it names. |
| IsoFormat.ParseFormatDateTime | gcal_api.py:60-61 | `datetime.isoformat()` gives "date T hh:mm:ss" (19 characters) that reads back as the same date-time, and its first ten characters are the date's isoformat. |
| IsoFormat.FormatParseDateTime | gcal_api.py:55-61 | Every date-time string the parser accepts is the isoformat of what it reads. |
| IsoFormat.FormatDateInjective | gcal_api.py:34 | Distinct dates have distinct isoformats. |
| GcalApi.DefaultDate | gcal_api.py:24-29 | Each of day, month and year that is None is replaced by today's component, independently of the others. A given value, 0 included, is kept. |
| GcalApi.DayStart | gcal_api.py:107 | The window start is the date's isoformat followed by "T00:00:00Z", and reads back as midnight of that date. |
| GcalApi.DayEnd | gcal_api.py:108 | The window end is the date's isoformat followed by "T23:59:59Z", and reads back as 23:59:59 of that date. |
| GcalApi.CalendarApi.AddEventFullDay | gcal_api.py:22-44 | A request is sent exactly when the defaulted date is valid and not 9999-12-31. Otherwise an exception escapes, because the body is built outside the `try`: OverflowError on 9999-12-31 or for a component beyond a C `int`, else ValueError. The body carries summary and description verbatim, `start.date` = isoformat of the date, and `end.date` = a full-date one day later. The result is True exactly when the service returned the event with its `htmlLink`. |
| GcalApi.CalendarApi.AddEventWithTime | gcal_api.py:46-70 | A request is sent exactly when both date-times (defaulted date, hour 0-23, minute 0-59) are valid. Otherwise the exception of the first rejected date-time escapes: OverflowError for an argument beyond a C `int`, else ValueError. Start and end `dateTime` read back as the given times on one shared date. No order between them is required. The result is True exactly when the service returned the event with its link. |
| GcalApi.CalendarApi.AddMultiDayEvent | gcal_api.py:72-90 | A request is sent exactly when both dates are valid and the end is not 9999-12-31. Otherwise the first failing step raises: the start date, then the end date (OverflowError beyond a C `int`, else ValueError), then the day after 9999-12-31 (OverflowError). `start.date` is the start date's isoformat, unchanged. `end.date` is a full-date one day after the end date. Summary and description are verbatim, and the result is True exactly on a returned event with a link. |
| GcalApi.CalendarApi.GetEvents | gcal_api.py:92-123 | Bounds default to today component-wise. A request is sent exactly when both dates are valid. Otherwise the first invalid bound raises OverflowError when a component is beyond a C `int`, else ValueError. `timeMin` = start date + "T00:00:00Z" and `timeMax` = end date + "T23:59:59Z", with `singleEvents` on and order by start time. The result is the response's `items`, or [] when they are absent or the call raised. |
| GcalApi.ReversedTimesAreSent | gcal_api.py:55-62 | A timed event from 17:30 to 09:15 is still sent: nothing checks that start precedes end. |
| GcalApi.ReversedDatesAreSent | gcal_api.py:74-82 | A multi-day event from 20 March to 10 March is still sent: nothing checks that start precedes end. |
| GcalApi.HugeHourOverflows | gcal_api.py:55 | A start hour of 3000000000 makes the timed event raise OverflowError, not ValueError. |
| GcalApi.FullDayExample | gcal_api.py:31-36 | The full-day event of 15 March 2024 runs from "2024-03-15" to the exclusive end "2024-03-16". |
| GcalCli.Spaced | gcal_cli.py:17 | `name.replace("_", " ")` keeps the length, turns every underscore into a space, keeps every other character, and leaves no underscore. |
| GcalCli.AddEvent | gcal_cli.py:13-51 | A client call is chosen exactly for `full`, for `partial` with all four times truthy, and for `multi` with all six dates truthy. Every other case is a usage error with the message of its branch. Every call gets the underscore-free name and the description or "". `full` passes day/month/year through unchanged. |
| GcalCli.RunAdd | gcal_cli.py:9-51 | A usage error prints exactly "Usage: " + message, exits 1 and sends nothing. Otherwise nothing is printed. Either one insert is sent and the run exits 0 whatever the service answered, or the call's ValueError/OverflowError escapes uncaught with nothing printed and no request. A run sends at most one request. |
| GcalCli.Perform | gcal_cli.py:16-49 | The client call a dispatch names can only fail with a date or time error. |
| GcalCli.ViewListing | gcal_cli.py:54-61 | A view bound given as 0 or not at all is today's component. The listing window runs from the first to the last second of those dates, and is requested exactly when both are valid. Otherwise the first invalid bound raises OverflowError beyond a C `int`, else ValueError. |
| GcalCli.PrintEvents | gcal_cli.py:65-67 | Lines are printed in input order as "<start>: <summary>", with `dateTime` preferred over `date`. The first event lacking `start` or `summary` stops the loop with KeyError, and every line before it is kept. |
| GcalCli.ViewEvents | gcal_cli.py:53-67 | One list request is sent when the window is valid. An empty listing prints exactly "No events found." and exits 0. A non-empty one prints the event lines as `PrintEvents` states. An invalid window raises before any request and prints nothing. |
| GcalCli.Run | gcal_cli.py:108-111 | `add` is exactly `RunAdd`. `view` follows `ViewEvents`: an invalid window raises with no output or request. Otherwise one list request is sent, then "No events found." and exit 0 for an empty listing, or the in-order event lines ending in exit 0 or KeyError. A run sends at most one request, and a run that exits 1 sent none and printed one line. |
| GcalCli.PartialZeroIsMissing | gcal_cli.py:24-25 | `partial` with any of the four times given as 0 (a start on the hour, say) or missing takes the usage exit, with no request. |
| GcalCli.UnknownTypeIsUsageError | gcal_cli.py:50-51 | Any other event type prints "Usage: Invalid event type specified." and exits 1, whatever the other fields are. |
| GcalCli.TeamSyncExample | gcal_cli.py:15-22 | `add Team_Sync --type full --day 15 --month 3 --year 2024` prints nothing, sends one insert of "Team Sync" from "2024-03-15" to "2024-03-16", and exits 0. |

## Left out

- Credentials and SDK construction (gcal_api.py:14-20), `load_dotenv` and `os.getenv` (gcal_cli.py:103-106). These are foreign calls and environment input. The client is a parameter built from a calendar id and the service.
- The network calls `events().insert(...).execute()` and `events().list(...).execute()`. They are oracle functions from request to response, so the model says what is sent and how the answer is mapped, not what the service does.
- The server's ordering by start time, recurring-event expansion and paging. The service promises these, not this code.
- Logging (`logger.info`/`logger.error`, including the `htmlLink` message). It is output only and does not affect any result. The text of Python's traceback on an uncaught exception is left out too. The model records only which exception ended the run.
- Argument parsing in `main` (gcal_cli.py:69-101). Parsed arguments are records of optional integers and strings. `choices` at gcal_cli.py:76 already keeps other `--type` values from reaching `add_event`, but `AddEvent` models its `else` branch anyway.
- The wall clock (`date.today()` at gcal_api.py:11 and gcal_cli.py:7) is a parameter. The two imports could in principle read different dates across midnight; the model uses one value.

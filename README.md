# Hotel scraper and hotel API, modelled in Dafny

This project models the core of a small Node.js repository. It has two parts:

- `app.js` is a Selenium scraper for five hotel booking sites: sugar_beach, grace_bay_club, nizuc, wymara_resort and cancun.
- `api.js` holds five AWS Lambda handlers over a DynamoDB hotel table.

The browser, the clock and the database are not modelled. What they answer is an input to the model:

- every element lookup is a `Some(text)`, or `None` when nothing was found;
- every list query is the sequence of texts it found;
- "today" is a `Date` parameter;
- whether the awaited store call succeeds is a `bool`.

The model covers, file by file:

- `text.dfy` (`Text`): the JavaScript string operations the code relies on:
  - `${n}` for a non-negative integer;
  - `split` on one character;
  - `Array.prototype.join` and the array-to-string conversion in a template literal;
  - `indexOf`, and `replace` with a string pattern (first occurrence only);
  - `trim`, using ECMAScript's white-space set.
- `dates.dfy` (`Dates`): `setDate` in its two layouts, and the `date.setDate(date.getDate() + 1)` step as the Gregorian calendar successor. That step is proved against an independent day-count reference.
- `normalize.dfy` (`Normalize`): three value normalisers:
  - the `"\nsquare feet"` size strip;
  - the Cancun room-name cut;
  - the Cancun date split that feeds the calendar XPath selectors.
- `extraction.dfy` (`Extraction`): what the room loops print, as specification functions:
  - the sugar_beach loop, with a try/catch per room and an error logged only at index 0;
  - the parallel-list loop of the other four sites, which has no try. A list shorter than the anchor list makes `list[i]` `undefined`, so the loop throws after the earlier records are printed.
- `sites.dfy` (`Sites`): each run as imperative code. The `Run` class holds the console, whether the browser session is still open, and whether the run's promise has been rejected. Its methods:
  - take the steps before the loop, where only the availability-banner read is guarded;
  - run the room loops as `while` loops proved against the `Extraction` functions;
  - reach `quit` only when nothing unguarded failed.
- `api.dfy` (`Api`):
  - the `updateHotel` parameter builder: `UpdateExpression`, `ExpressionAttributeNames`, the value map before `marshall`, and `Key`;
  - the five handlers' status and message rule.

   The builder reproduces the code's latent placeholder mismatch: the expression names `:values{i}`, while the value map defines `:value{i}`.

The model follows the code as written, including where that is probably not what was intended:

- After a failure at index 0, sugar_beach does not stop with an empty result. It logs the error and goes on to the later rooms.
- A later failure produces no partial record. It is swallowed silently.
- The guests and bed lookups use `//` XPaths, so they read the document's first match for every room, not a value scoped to each room.
- On an uncaught error, `quit` is never reached.

## Model

| member | source | states |
|---|---|---|
| Text.NumeralRoundTrip | app.js:9-13 | the unpadded decimal rendering reads back as its number, and each canonical numeral is the rendering of its value |
| Text.NumeralInjective | api.js:72-85 | distinct indices render as distinct numerals |
| Text.Numeral | app.js:12-13 | `${n}` for a non-negative integer: at least one digit, only digits, and a leading '0' only for 0 itself, which renders as "0" |
| Text.Split | app.js:547-548 | `split` always gives at least one piece, and no piece holds the separator |
| Text.SplitThenJoin | app.js:547 | joining the pieces with the separator gives the text back |
| Text.JoinThenSplit | api.js:71-73 | splitting the join of separator-free pieces gives the pieces back |
| Text.Join | api.js:71-73 | definition, no contract of its own: the pieces with the separator between them, as `Array.prototype.join` and the array-to-string conversion render them; `Text.SplitThenJoin` and `Text.JoinThenSplit` state it |
| Text.SplitThree | app.js:547-548 | `d-m-y` with dash-free fields splits into exactly `[d, m, y]` |
| Text.SplitHead | app.js:618 | the first piece is the prefix before the first separator, and a separator follows it if it is not the whole text |
| Text.SplitCount | app.js:12-13 | there is one more piece than there are separators |
| Text.IndexOf | app.js:126 | the result is an occurrence, and no occurrence lies before it |
| Text.RemoveFirstSpec | app.js:126 | `replace` with a string pattern leaves text without the pattern unchanged; otherwise it removes exactly one copy, and putting it back at its first position restores the text |
| Text.RemoveFirst | app.js:126 | definition, no contract of its own: `replace` with a string pattern and an empty replacement, removing the first occurrence only; `Text.RemoveFirstSpec` states it |
| Text.TrimSpec | app.js:618 | `trim` keeps a slice with only white space outside it and none at either of its ends |
| Text.Trim | app.js:618 | definition, no contract of its own: `trim`, white space removed from both ends; `Text.TrimSpec`, `TrimKeepsOut` and `TrimIdempotent` state it |
| Text.TrimKeepsOut | app.js:618 | trimming adds no character |
| Text.TrimIdempotent | app.js:618 | trimming twice is trimming once |
| Dates.NextDay | app.js:27 | its contract says only that the next day of a valid date is valid; the month and year rollover is in its definition, and `Dates.NextDayIsSuccessor` and `NextDayUnique` state that it is the calendar successor |
| Dates.NextDayIsSuccessor | app.js:27 | tomorrow's day number is today's plus one |
| Dates.DayNumberInjective | app.js:27 | different valid dates have different day numbers (both directions) |
| Dates.NextDayUnique | app.js:27 | a date is tomorrow exactly when its day number is today's plus one |
| Dates.SetDate | app.js:8-19 | definition, no contract of its own: `d-m-yyyy` unless the type is "gracebay", then `yyyy-m-d`, with no zero padding; `Dates.SetDateFields`, `SetDateReadsBack` and `ParsedDateIsCanonical` state its properties |
| Dates.SetDateFields | app.js:12-13 | both layouts hold the same three numerals and exactly two dashes, in opposite orders; any type other than "gracebay" gives day-month-year |
| Dates.SetDateReadsBack | app.js:8-19 | a formatted date reads back as that date in its layout |
| Dates.ParsedDateIsCanonical | app.js:8-19 | any text that reads back as a date is exactly that date's rendering |
| Dates.StayDates | app.js:25-28 | the two dates of one run are today and the calendar successor, in the same layout |
| Dates.SetDateExample | app.js:8-19 | 5 March 2024 is "5-3-2024", and "2024-3-5" with "gracebay" |
| Dates.StayDatesRollover | app.js:25-28 | a run on 31 December 2024 departs on "1-1-2025" |
| Dates.StayDatesLeapDay | app.js:153-156 | the day after 28 February 2024 is "2024-2-29" in the gracebay layout |
| Normalize.RoomSizeSpec | app.js:126 | the size strip leaves text without the suffix as it is, and otherwise is exactly one suffix shorter |
| Normalize.RoomSize | app.js:126 | definition, no contract of its own: the first copy of `"\nsquare feet"` removed (`Text.RemoveFirst`); `Normalize.RoomSizeSpec` and `Text.RemoveFirstSpec` state what that means |
| Normalize.RoomSizeExamples | app.js:241 | "450\nsquare feet" becomes "450"; "450" stays; a doubled suffix loses only its first copy |
| Normalize.CancunRoomNameSpec | app.js:618 | the name is the trimmed text before the first dash; it never holds a dash, and without a dash it is the whole text trimmed |
| Normalize.CancunRoomName | app.js:618 | definition, no contract of its own: the trimmed first piece of a split on '-'; `Normalize.CancunRoomNameSpec` states what that means |
| Normalize.CancunRoomNameOfParts | app.js:618 | whatever follows the first dash has no bearing on the name |
| Normalize.CancunRoomNameExample | app.js:618 | "Ocean Suite - King" gives "Ocean Suite" |
| Normalize.SelectorsOfDate | app.js:547-581 | for `d-m-y` the arrival selector is (d, m - 1, y), and the departure selector is the same with the day's leading zero dropped |
| Normalize.ArrivalSelector | app.js:547-572 | definition, no contract of its own: day, `mth - 1` and year of `arrival.split("-")`, with a missing piece as `undefined`; `Normalize.SelectorsOfDate` states it for every `d-m-y` text |
| Normalize.DepartureSelector | app.js:548-581 | definition, no contract of its own: the same split of the departure, with its day put through the leading-zero rule; `Normalize.SelectorsOfDate` states it for every `d-m-y` text |
| Normalize.DropLeadingZero | app.js:549 | definition, no contract of its own: `dayD[0] == "0" ? dayD[1] : dayD`, where "0" alone gives `undefined`; `Normalize.DropLeadingZeroKeepsValue` states what it keeps |
| Normalize.MonthIndex | app.js:570-580 | definition, no contract of its own: `mth - 1`, where digit-only text reads as its value and any other text is modelled as `NaN` (`None`); `Normalize.SelectorsOfDate` states it for digit months |
| Normalize.DropLeadingZeroKeepsValue | app.js:549 | on a two-digit day the leading-zero drop keeps the day's value, and a day without a leading zero is untouched |
| Normalize.CancunArrivalExample | app.js:545-572 | "30-11-2023" gives day "30", month 10, year "2023" |
| Normalize.CancunDepartureExample | app.js:546-581 | "02-12-2023" gives day "2", month 11, year "2023" |
| Extraction.ReadCard | app.js:83-139 | a room reads in full exactly when all six lookups succeed, the area included; the record then holds the page's guests and bed and the stripped size; otherwise the error names the first lookup, in source order, that found nothing |
| Extraction.CardLines | app.js:83-143 | definition, no contract of its own: one pass prints its record, or, from the catch block, the error only when `i < 1` |
| Extraction.SugarBeachLines | app.js:82-144 | definition, no contract of its own: the first k passes' lines, in order; the lemmas below state what it holds |
| Extraction.Printed | app.js:82-139 | the records of the rooms below k that read in full, in room order; no more than k, and every one a room record |
| Extraction.SugarBeachOutput | app.js:82-144 | no failure stops the loop: the output is index 0's error when room 0 fails, followed by the record of every room that reads, in room order |
| Extraction.ReadRoomPrinted | app.js:82-144 | a room that reads is printed, whatever fails before or after it, and the records printed up to it stay a prefix of the output |
| Extraction.SugarBeachAllRead | app.js:82-144 | when every room reads, exactly one record per room is printed, in room order |
| Extraction.SugarBeachErrorsOnlyFirst | app.js:140-143 | every printed line is a room record, except possibly line 0, which is index 0's lookup error |
| Extraction.SugarBeachFirstError | app.js:142 | when room 0 fails, its error is the first line |
| Extraction.SugarBeachDocumentScoped | app.js:93-108 | every printed record carries the page's first guests and bed values |
| Extraction.SugarBeachLaterFailureSilent | app.js:140-143 | a failing room after the first leaves no trace: the output equals that of the page without that room |
| Extraction.SugarBeachAreaGate | app.js:109-112 | without the never-printed area, no room prints; at most index 0's error appears |
| Extraction.NoRecordsWithoutArea | app.js:109-112 | with no area, the output after k rooms is the single index-0 error |
| Extraction.Reachable | app.js:237-243 | the completed iterations are at most the anchor count and at most each list's length, and fewer than the anchor count only at some list's length |
| Extraction.Row | app.js:238-243 | closed form: element i of every list, aligned by position only; its ensures spell that out, and the `*RecordAt` lemmas use it per site |
| Extraction.ListLines | app.js:237-255 | closed form the parallel-list loop is proved against: one rendered row per completed iteration; `Extraction.ListLinesLength`, `ListLinesIgnoreExtra` and the `*RecordAt` lemmas state what it holds |
| Extraction.ListLinesLength | app.js:237-258 | exactly the anchor count of records exactly when no list is short; otherwise as many as some short list holds |
| Extraction.ListLinesIgnoreExtra | app.js:328-331 | elements past the anchor count are never read |
| Extraction.Render | app.js:244-254 | definition, no contract of its own: the record each site prints from the i-th element of its lists; the four lemmas below state it per site |
| Extraction.GraceBayRecordAt | app.js:237-254 | printed record i holds names[i], beds[i], sleeps[i], the stripped sizes[i], and the beach-escape and standard rates at i |
| Extraction.NizucRecordAt | app.js:328-340 | printed record i holds names[i], details[i] and prices[i], although prices are read second |
| Extraction.WymaraRecordAt | app.js:475-487 | printed record i holds names[i], impDetails[i], details[i] and prices[i] |
| Extraction.CancunRecordAt | app.js:617-629 | printed record i holds the cut names[i], the room-only rate (room-only average and total at i) and the all-inclusive rate (all-inclusive average and total at i) |
| Sites.CompletesIffNoFailure | app.js:146 | the steps before the loop complete exactly when no unguarded step fails |
| Sites.BannerIsGuarded | app.js:48-61 | whether the banner is found never decides whether the steps complete |
| Sites.Fails | app.js:41-73 | definition, no contract of its own: a step throws uncaught when it is an interaction that fails or a hero-title read that finds nothing; the banner read and a `console.log` never do; `Sites.CompletesIffNoFailure` and `BannerIsGuarded` use it |
| Sites.StepLines | app.js:41-61 | definition, no contract of its own: what a step that does not throw logs (the hotel name, the banner or its error message, or the line at hand); `Sites.Run.Take` is proved against it |
| Sites.BookingSteps | app.js:30-73 | definition, no contract of its own: maximise, log the stay dates where the site does, load, read the hotel name, read the banner under its try/catch, then the find-and-clicks of the rate selector |
| Sites.CancunSteps | app.js:551-596 | definition, no contract of its own: maximise, load, log the fixed hotel name "Garza Blanca Resort", then the find-and-clicks of the calendar and search form |
| Sites.Run.constructor | app.js:23 | a new session is open, has printed nothing and is not rejected |
| Sites.Run.Log | app.js:34-37 | `console.log`: the line is appended to the console and nothing else changes |
| Sites.Run.Take | app.js:41-73 | a step that does not fail appends exactly its own lines |
| Sites.Run.TakeSteps | app.js:30-73 | the loop over the steps prints the lines of the steps up to the first failure, and reports whether one failed |
| Sites.Run.Perform | app.js:30-73 | the steps print `RunSteps(steps).lines`, and the run is rejected exactly when they do not complete; the session is untouched |
| Sites.Run.Quit | app.js:146 | quit closes the session and prints nothing |
| Sites.Run.TakeCard | app.js:83-143 | one sugar_beach pass appends exactly that card's lines |
| Sites.Run.SugarBeachRooms | app.js:82-144 | the loop appends `AllLines(page)` and never rejects the run |
| Sites.Run.PrintRows | app.js:237-255 | the parallel-list loop appends `ListLines` and stops early exactly when some list is short |
| Sites.Run.ListRooms | app.js:237-258 | the loop appends `ListLines`, and the run is rejected exactly when some list is shorter than the anchor count |
| Sites.RunSugarBeach | app.js:21-147 | the console holds the steps' lines, then all room lines when the steps complete; the session is closed exactly when no unguarded step failed |
| Sites.RunListSite | app.js:237-258 | the console holds the steps' lines, then the records; quit is reached exactly when no step failed and no list is short |
| Sites.RunGraceBayClub | app.js:149-259 | the gracebay-layout dates, and the list-site outcome over its six lists |
| Sites.RunNizuc | app.js:261-392 | the gracebay-layout dates, and the list-site outcome over its three lists |
| Sites.RunWymaraResort | app.js:394-539 | the logged gracebay-layout dates, and the list-site outcome over its four lists, anchored on the rate cards |
| Sites.CancunCalendar | app.js:545-581 | the clicked calendar cells are day "30", month 10, year "2023" and day "2", month 11, year "2023" |
| Sites.RunCancun | app.js:541-634 | those calendar cells, and the list-site outcome over its five lists |
| Api.Entries | api.js:65 | `Object.keys` gives keys for every body except `null`, on which it throws |
| Api.PlaceholderInjective | api.js:72-85 | two placeholders with the same prefix are equal exactly when their indices are |
| Api.Numbered | api.js:74-80 | the `reduce` map over k keys has exactly the first k placeholders as keys, one entry per key |
| Api.NumberedAt | api.js:74-88 | key i's value sits under its own placeholder, and no later key overwrites it |
| Api.HotelKey | api.js:16 | the key is the single field `hotel_id` with the path's id |
| Api.UpdateMaps | api.js:74-88 | the name map holds `#key{i}` for the i-th key and the value map holds `:value{i}` for its value, one entry per key |
| Api.Names | api.js:74-80 | definition, no contract of its own: the `reduce` from `#key{i}` to the i-th key; `Api.UpdateMaps` states its entries |
| Api.Values | api.js:81-88 | definition, no contract of its own: the `reduce` from `:value{i}` to the i-th key's value, before `marshall`; `Api.UpdateMaps` states its entries |
| Api.UpdateExpression | api.js:71-73 | definition, no contract of its own: "SET " and the clauses joined by ','; `Api.UpdateExpressionClauses` states what it holds |
| Api.Clause | api.js:72 | definition, no contract of its own: the `map` callback's `#key${index} = :values${index}`; `Api.UpdateExpressionClauses` and `ValuePlaceholderMismatch` state it |
| Api.BuildUpdateParams | api.js:68-90 | definition, no contract of its own: the `params` object of updateHotel (Key, UpdateExpression, ExpressionAttributeNames, and the value map before `marshall`); `Api.UpdateMaps`, `UpdateExpressionClauses` and `ValuePlaceholderMismatch` state it |
| Api.UpdateExpressionClauses | api.js:71-73 | the expression is "SET " and then one `#key{i} = :values{i}` clause per key, comma-separated; with no keys it is "SET " and both maps are empty |
| Api.ValuePlaceholderMismatch | api.js:72-85 | no `:values{i}` in the expression is a key of the value map |
| Api.NoExpressionValueDefined | api.js:72-85 | no `:values{i}` is among the first k `:value{j}` placeholders |
| Api.UpdateExpressionExample | api.js:71-73 | two keys give "SET #key0 = :values0,#key1 = :values1" |
| Api.NamesExample | api.js:74-80 | the body {name, stars} gives `#key0` → "name" and `#key1` → "stars" |
| Api.ValuesExample | api.js:81-88 | the same body gives `:value0` and `:value1` → the two values |
| Api.Handle | api.js:11-157 | a parse failure, or `Object.keys` on null in update, escapes before the try; otherwise the response is 200 with the success message exactly when the request was built and the store call succeeded, and 500 with the "Failed to …" message otherwise |
| Api.EscapesBeforeTry | api.js:38-65 | definition, no contract of its own: `JSON.parse` failing in createHotel or updateHotel, or `Object.keys(null)` in updateHotel, throws before the `try`; `Api.Handle` states that exactly these escape |
| Api.Falsy | api.js:43 | definition, no contract of its own: the falsy values `JSON.parse` can give, which the logical-or default at that line replaces by `{}`; `Api.RequestOf` uses it |
| Api.RequestOf | api.js:14-117 | definition, no contract of its own: Scan for getAllHotels, `PutItem(body or {})` for create, and the `hotel_id` key for get, update and delete, or nothing when the path has no id; `Api.Handle` and `Api.SameKeyEverywhere` state its use |
| Api.SameKeyEverywhere | api.js:16-114 | get, update and delete address the same single-field key `hotel_id` |

## Left out

- Selenium itself is not modelled: the driver build, `maximize`, `get`, `findElement(s)`, `click`, `getText` and `setTimeouts`, and the URLs and XPath strings. Lookups and clicks are inputs. `getText` on a found element is taken to succeed.
- A failure of `drivers.quit()` is not modelled.
- A failure of the un-awaited `setTimeouts` is not modelled.
- `new Date()` and the clock are not modelled: today is a parameter, and the year is a `nat`. Dates before year 0 are out of range.
- `async`/`await`, promise rejection handling and the module-level `sugar_beach()` call (app.js:636) are not modelled. An uncaught error is a `rejected` flag, after which nothing of that run executes.
- Console output is not rendered. A logged object is a `Line` datatype value, not `util.inspect` text. `console.error` lines are `LookupFailed` or `NoAvailabilityBanner`.
- The model assumes runs do not overlap. The sugar_beach, grace_bay_club, nizuc and wymara_resort loops share one undeclared global counter `i` (app.js:82, 237, 328, 475). `sugar_beach()` starts unawaited when the module loads (app.js:636), and the exports (app.js:638-644) let a caller start another run while it waits. Overlapping runs sharing that counter are not modelled; the cancun loop declares its own `i`.
- Sites.RunSugarBeach: the room list is queried again on each pass, and the model takes that page to be the same as the first query's.
- Normalize.MonthIndex: `Number(mth) - 1` is modelled exactly for digit-only text (the empty text reading as 0), and any other text is modelled as `NaN` (`None`). JavaScript's white-space, sign, decimal-point, exponent ("1e1" gives 9), hexadecimal, binary, octal and "Infinity" forms are not modelled, nor is the rounding of digit runs beyond 2^53 to a double. app.js only passes the month texts "11" and "12" (app.js:545-546), which the model reads exactly.
- Api.Json: numbers are `real`, not IEEE doubles.
- Strings are sequences of Unicode code points, while JavaScript indexes UTF-16 code units. So `dayD[0]` and `dayD[1]` (app.js:549), the string case of `Object.keys` in `Api.Entries`, and the lengths `indexOf` and `trim` work with differ from JavaScript on text outside the Basic Multilingual Plane.
- Api.Entries: an object's members are taken to be listed in `Object.keys` order with no duplicate names. `JSON.parse` itself is an input.
- Api.Handle: the DynamoDB calls, `marshall`/`unmarshall`, `JSON.stringify` and `process.env` are not modelled. `storeSucceeds` stands for everything in the try after the request is built; a `marshall` failure counts as a store failure.
- Api.Handle: the `data`, `rawData`, `errorMsg` and `errorStack` fields of the response body are not modelled.

# E-ink home weather station — a Dafny model

The station draws one picture on an e-ink panel and refreshes it whenever the scheduler asks. The picture has four parts:

- a clock;
- a summary of the current weather (an icon and a short description);
- a forecast grid with one row per day and columns for 09:00, 15:00 and 21:00;
- an optional user picture.

Weather data comes from one of two providers, OpenWeather or AccuWeather. A weather client wraps each provider. It fetches each kind of data: current conditions, the 5-day forecast and the 12-hour forecast.

Each fetched document is cached in a JSON file. The cache follows one protocol:

1. Load the cached document. A missing file gives none; a corrupt file fails.
2. When expiry checking is on and the cached document is truthy, ask the provider's expiry rule whether it is stale.
3. Refetch when asked to, or when nothing was cached, and save what arrives.
4. Hand the cached or fetched document to the provider's loader.

Expiry rules:

- Current weather and the hourly forecast expire after one whole hour.
- The daily forecast expires when the calendar date changes.

Loaders:

- OpenWeather's 5-day loader keeps only the samples at 9, 15 and 21 hours.
- AccuWeather's 12-hour loader parses aware date-times. It rewrites rain from 19:00 on into "night rain" in place, in the list it was given, and maps AccuWeather's icon codes onto OpenWeather's icon names.

The station computes its layout once, from the display size and three ratios. A full render does three things:

1. It pastes the forecast grid and the user picture, and keeps a snapshot "without summary".
2. It pastes the current-weather summary, and keeps a snapshot "with summary".
3. It pastes the clock, and sends a full refresh to the panel.

Partial updates start from a snapshot:

- A clock-only update repaints the clock over the "with summary" snapshot.
- A current-weather update repaints the clock and the summary over the "without summary" snapshot.

The scheduler picks the kind of update from the minute and the hour.

The model has thirteen modules, one per file. Their names follow the program's structure.

| File | Module | What it models |
|---|---|---|
| `errors.dfy` | `Errors` | the exception classes, and `Result` and `Option` |
| `json.dfy` | `Json` | decoded JSON with Python's truthiness, `d[key]`, `l[0]` and iteration |
| `datetimes.dfy` | `DateTimes` | calendar dates, `strptime` and `strftime` in the fixed-width forms used, and UTC instants |
| `text.dfy` | `Text` | `str.split`, `"\n".join` and string order |
| `sorting.dfy` | `Sorting` | `sorted(d.items())`, as a method against a specification |
| `providers.dfy` | `Providers` | the provider hooks: icon table, timestamps, expiry predicates, URL building, the current-weather loader |
| `cache.dfy` | `Cache` | the cache file store (a class) and the fetch-or-cache protocol of `_get_weather` |
| `forecasts.dfy` | `Forecasts` | the 5-day and 12-hour loaders |
| `client.dfy` | `Client` | environment variables, the location key, the connection and the three public getters |
| `utils.dfy` | `Utils` | `Block` and `find_best_text_size` |
| `layout.dfy` | `Layout` | the layout arithmetic of `WeatherStation.__init__` |
| `binning.dfy` | `Binning` | `_organize_data` |
| `station.dfy` | `Station` | the station class: image, snapshots, pastes, renders, partial updates and the scheduler |

## Model

| member | source | states |
|---|---|---|
| Json.Get | weather_client.py:494-496 | `d[key]` yields the value exactly when `d` is a dictionary holding the key. Otherwise it raises `KeyError` on a dictionary and `TypeError` on anything else. |
| Json.Index | weather_client.py:276-277 | `l[0]` yields the element exactly when the index is in range of a list or a string. Otherwise it raises `IndexError` on a list or string, `KeyError` on a dictionary and `TypeError` on anything else. |
| Json.Elements | weather_client.py:317 | `for item in data` sees a list's elements and a string's characters. An empty dictionary gives no items; any other value errs with `TypeError`. |
| Json.AsNumber | weather_client.py:319 | the numeric value compared with `== 18` exists exactly for numbers and booleans, and is the number itself for a number |
| Json.Set | weather_client.py:320 | `item["WeatherIcon"] = -18` stores the new value and keeps every other key |
| DateTimes.ParseFormatNaive | weather_client.py:476 | parsing the `%Y-%m-%d %H:%M:%S` text of any valid date-time gives that date-time back |
| DateTimes.FormatParseNaive | weather_client.py:476 | every text the parser accepts is exactly the formatting of what it returns |
| DateTimes.ParseNaive | weather_client.py:476 | an accepted text gives a valid date-time; a rejected one raises `ValueError` |
| DateTimes.ParseAware | weather_client.py:318 | an accepted `%Y-%m-%dT%H:%M:%S%z` text gives a valid local time and an offset under a day; otherwise `ValueError` |
| DateTimes.ParseFormatAware | weather_client.py:318 | parsing the formatted text of any aware date-time with an offset under a day gives it back |
| DateTimes.ParseFormatOffset | weather_client.py:318 | the `%z` offset round-trips |
| DateTimes.BeforeIsStrictTotal | weather_client.py:480 | date-time order, which `sorted` uses, is irreflexive, transitive, total and asymmetric |
| DateTimes.DaysFromCivilNextDay | weather_client.py:152 | the day count behind instants and date comparison grows by one from a day to the next within a month |
| DateTimes.DaysFromCivilNewYear | weather_client.py:152 | the day count grows by one from 31 December to 1 January |
| DateTimes.EpochIsDayZero | weather_client.py:461 | the epoch, 1970-01-01 00:00:00, is second 0 of the local clock that `fromtimestamp` measures against |
| Text.Split | utils.py:34 | `text.split("\n")` gives at least one part, and no part holds the separator |
| Text.JoinSplit | utils.py:34 | joining the parts of a split gives the text back |
| Text.SplitJoin | utils.py:34 | splitting the join of separator-free parts gives the parts back |
| Text.SplitNoSeparator | utils.py:34 | a text without a newline is a single line |
| Text.LessIsStrictTotal | weather_station.py:227 | string order, which `sorted(days)` uses, is a strict total order |
| Sorting.SortKeys | weather_station.py:227 | sorting a key set gives a strictly ascending sequence of exactly those keys |
| Sorting.SortItems | weather_client.py:480 | `sorted(d.items())` lists every entry of the dictionary once, in strictly ascending key order |
| Sorting.SortedItemsUnique | weather_client.py:328 | there is only one sorted item list of a dictionary, so the result of `sorted` is determined |
| Sorting.HeadIsLeast | weather_client.py:328 | the first sorted item holds the least key |
| Sorting.EmptySortedItems | weather_client.py:480 | the sorted list is empty exactly when the dictionary is |
| Providers.MatchOpenWeatherIcon | weather_client.py:348-406 | a translated icon is one of OpenWeather's names; an unknown code raises `ValueError` |
| Providers.MatchDomain | weather_client.py:348-406 | the table translates exactly the listed AccuWeather codes and -18 |
| Providers.EveryIconReachable | weather_client.py:348-406 | every OpenWeather icon name is the translation of some AccuWeather code |
| Providers.IconExamples | weather_client.py:396-406 | code 18 is day rain `10d`, -18 is night rain `10n`, and gaps in the code range raise `ValueError` |
| Providers.IconOf | weather_client.py:324 | a translated value is an icon name; a value that is not a number raises `ValueError` |
| Providers.DateTimeRange | weather_client.py:461 | the range `fromtimestamp` accepts runs from 0001-01-01 00:00:00 up to 10000-01-01 00:00:00, in local seconds |
| Providers.FromTimestamp | weather_client.py:461 | `fromtimestamp` of a number is the epoch seconds moved to local time when that falls in years 1 to 9999, and `ValueError` otherwise; of anything else, `TypeError` |
| Providers.HoursForecastTimestamp | weather_client.py:427-430 | for OpenWeather the call is made with one argument too many, so it always raises `TypeError`. For AccuWeather it reads `[0]["EpochDateTime"]`. |
| Providers.StrptimeNaive | weather_client.py:441-450 | a parsed value is a valid date-time; a non-text value raises `TypeError` |
| Providers.ForecastTimestamp | weather_client.py:337-346 | only OpenWeather has a daily timestamp, the first sample's `dt_txt`; AccuWeather raises `NotImplementedError` |
| Providers.DayExpired | weather_client.py:143-152 | daily expiry compares dates: a later date |
| Providers.HourExpiredIff | weather_client.py:154-184 | with elapsed hours floored, a record expires exactly when 3600 seconds or more have passed; a record from the future never expires |
| Providers.HourExpiryExamples | weather_client.py:154-168 | 59 minutes is fresh, 60 is stale, a record stamped now is fresh |
| Providers.DayExpiryExamples | weather_client.py:143-152 | midnight expires a daily record one minute old, while a record from earlier the same day stays fresh |
| Providers.CheckCurrentExpired | weather_client.py:154-168 | the check succeeds exactly when the cached timestamp can be read, and then reports hour expiry; otherwise it raises the timestamp's exception |
| Providers.CheckHoursForecastExpired | weather_client.py:170-184 | the same for the hourly forecast's timestamp |
| Providers.CheckDayExpired | weather_client.py:143-152 | the same for the daily timestamp, with date expiry |
| Providers.MalformedCacheErrors | weather_client.py:143-184 | which exception each expiry check raises on malformed caches |
| Providers.LoadCurrentWeather | weather_client.py:285-299 | an AccuWeather summary carries a translated icon name |
| Providers.AccuCurrentWeatherCases | weather_client.py:285-299 | AccuWeather reads `[0]["WeatherIcon"]` through the icon table and `[0]["WeatherText"]`; an unknown code raises `ValueError` and an empty list `IndexError` |
| Providers.OpenWeatherCurrentWeatherPassThrough | weather_client.py:486-499 | OpenWeather returns `weather[0]`'s icon and description unchanged |
| Providers.RequestUrl | weather_client.py:251-440 | Only OpenWeather's 12-hour property raises (`NotImplementedError`). AccuWeather's 5-day property name is misspelt, and the right name is a plain method of its class (line 334), so `fetch` is handed that bound method instead of a URL text. Every other request is a URL text. |
| Providers.UrlShapes | weather_client.py:413-425 | every OpenWeather URL starts with the 2.5 data base and ends in the shared query; every AccuWeather URL starts with the data-service base |
| Cache.Disk.Save | weather_client.py:87-90 | saving replaces the one file and leaves every other file alone |
| Cache.LoadCached | weather_client.py:113-118 | a corrupt file raises `JSONDecodeError`; a missing file or a `null` document loads as nothing; otherwise the document itself |
| Cache.Decide | weather_client.py:27-50 | a corrupt cache fails, nothing cached refetches, and a used cache is the cached document. The only other failures are the exceptions of a truthy cache's expiry check. |
| Cache.Handed | weather_client.py:43-50 | the loader receives the fetched document on a refetch, the cached one otherwise, and nothing on failure |
| Cache.FilesAfter | weather_client.py:43-47 | only a successful refetch writes, and only the one path |
| Cache.FetchOrCache | weather_client.py:27-50 | the method makes the decision the protocol prescribes, fetches exactly on a refetch, writes exactly what `FilesAfter` says, and hands on what `Handed` says |
| Cache.AbsentCacheFetches | weather_client.py:44-47 | with no cached document, the client always fetches |
| Cache.FreshCacheIsUsed | weather_client.py:35-41 | a truthy cache is used when checking is off or the check says fresh, and refetched when it says stale |
| Cache.PredicateErrors | weather_client.py:39-41 | a `TypeError` or `KeyError` of the check is caught and the record is refetched; any other exception of the check escapes and nothing is fetched |
| Cache.EmptyCacheIsNotRefetched | weather_client.py:36 | a falsy cached document such as `{}` skips the check and is handed to the loader uncached |
| Cache.CorruptCacheRaises | weather_client.py:113-118 | a corrupt cache file raises before anything else happens |
| Cache.FailedFetchWritesNothing | weather_client.py:43-45 | a failing fetch leaves every file as it was |
| Cache.WrittenRecordIsReused | weather_client.py:27-50 | a record just written is used on the next call, unless it is stale by then |
| Forecasts.BeforeIsStrictTotalOn | weather_client.py:480 | date-time order is a strict total order on any set of keys |
| Forecasts.FiveDayStep | weather_client.py:476-478 | a kept sample has a valid time at hour 9, 15 or 21 |
| Forecasts.LoadFiveDaysForecast | weather_client.py:463-484 | the loader fails exactly when the table fails, with its exception; otherwise it returns the table's entries sorted by time |
| Forecasts.FiveDayKeysAreSlotSamples | weather_client.py:476-478 | every time in the table is a valid slot-hour time of some sample |
| Forecasts.FiveDayLastWins | weather_client.py:478 | a sample no later sample overwrites ends up in the table with its temperature |
| Forecasts.FiveDayUntouched | weather_client.py:475-478 | a time no sample is stored under keeps its entry |
| Forecasts.FiveDayFilter | weather_client.py:476-478 | a sample off the slot hours is skipped; a slot-hour sample stores `main.temp`, or raises its subscripts' exception |
| Forecasts.StrptimeAware | weather_client.py:318 | a parsed value has a valid local time; a non-text value raises `TypeError` |
| Forecasts.HourlyEntry | weather_client.py:322-326 | an item's entry is stored under its own parsed time |
| Forecasts.HourlyStep | weather_client.py:317-326 | an entry carries a valid local time |
| Forecasts.Insert | weather_client.py:322 | `weather_data[dt] = h` keys by instant: it keeps the first key object seen for an instant, replaces its value and leaves every other entry alone |
| Forecasts.HourlyFoldWellKeyed | weather_client.py:316-326 | every entry the loop stores lies at its own instant |
| Forecasts.LoadTwelveHours | weather_client.py:301-332 | the list is left holding the rewritten items the loop reached. The result fails exactly as the loop does; otherwise it is the table sorted by instant. |
| Forecasts.TabulateHourly | weather_client.py:316-326 | the loop over the array computes the fold and leaves the rewritten items in place |
| Forecasts.HourlyPass | weather_client.py:317-326 | one pass of the loop matches one step of the fold and of the rewritten list |
| Forecasts.SortHourly | weather_client.py:328 | `sorted` lists every entry once, strictly ascending by instant |
| Forecasts.SortedHourlyOfItems | weather_client.py:328 | sorting by instant on the keys gives the sorted hourly list |
| Forecasts.HourlyStepIdempotent | weather_client.py:319-320 | the night-rain rewrite is idempotent |
| Forecasts.LoadTwiceSame | weather_client.py:301-332 | loading the rewritten list again gives the same forecast and leaves the list as it is |
| Forecasts.ReloadIsSame | weather_client.py:316-326 | any idempotent loop body re-run over its own output gives the same table |
| Forecasts.HourlyLastWins | weather_client.py:322-326 | an entry no later item overwrites ends up in the table |
| Forecasts.HourlyUntouched | weather_client.py:316-326 | an instant no item stores under keeps its entry |
| Forecasts.HourlyFirstKeyKept | weather_client.py:322 | the time value shown for an instant is the first one stored there |
| Forecasts.RainRewrite | weather_client.py:319-320 | the item is rewritten exactly when its icon equals 18, into -18 from 19:00 on (hour above 18) |
| Forecasts.NightRainIcon | weather_client.py:319-324 | rain from 19:00 on (hour above 18) becomes night rain `10n` in both the item and the entry |
| Forecasts.DayRainIcon | weather_client.py:319-324 | rain up to 18:59 stays day rain `10d` and the item is unchanged |
| Client.Lookup | weather_client.py:92-99 | `os.environ.get` finds exactly the variables that are set |
| Client.Environment.LoadDotenv | weather_client.py:93-95 | `load_dotenv` adds the file's variables without overriding those already set |
| Client.Environment.SetKey | weather_client.py:239-242 | `set_key` writes one variable to the file and leaves the process environment alone |
| Client.LocationKeyOf | weather_client.py:244-249 | the key is the response's `Key` text; a failing fetch or a missing key raises |
| Client.ResolveLocationKey | weather_client.py:230-237 | a set variable is used as it is; otherwise the key is fetched and saved to the file |
| Client.SavedKeyIsFound | weather_client.py:230-242 | a key saved in one run is found in the environment of the next run |
| Client.Connect | weather_client.py:13-25 | The constructor loads the file into the environment. It succeeds with the provider's variables and cache paths, and fails only when AccuWeather's location key cannot be resolved. When AccuWeather's key is not configured, the client is built exactly when the geoposition answer yields a key; that key becomes the client's location key and is saved to the file, and otherwise the answer's error is raised and the file is kept. |
| Client.HoursOutcome | weather_client.py:78-85 | the hourly result is the loader's result on what the cache protocol hands it |
| Client.GetCurrentWeather | weather_client.py:52-63 | the current-weather getter runs the cache protocol on the current cache path with the current-weather expiry, then loads the summary |
| Client.GetFiveDaysForecast | weather_client.py:65-76 | the 5-day getter runs the protocol on the forecast path with date expiry, then the 5-day loader |
| Client.GetTwelveHoursForecast | weather_client.py:78-85 | the 12-hour getter runs the protocol on the forecast path with hour expiry, then the 12-hour loader |
| Client.AccuWeatherFiveDayFails | weather_client.py:270-280 | AccuWeather's 5-day forecast never succeeds: its date check of a truthy record and its loader raise `NotImplementedError`. Only an absent record is refetched, and whatever the network answers for the bound method is written to the forecast file. |
| Client.OpenWeatherHoursFails | weather_client.py:422-430 | OpenWeather's 12-hour forecast never succeeds |
| Client.RecentCurrentIsCached | weather_client.py:154-168 | a current record less than an hour old is used without a fetch |
| Client.StaleCurrentIsRefetched | weather_client.py:154-168 | with checking on, a record an hour old or more is refetched |
| Utils.AsTupleRoundTrip | utils.py:13-14 | `as_tuple` is exactly the block's size: together with the corner it rebuilds the block, and a block built from a size gives that size back |
| Utils.FitsByLines | utils.py:34-38 | a text fits exactly when every line is narrower than the box and all lines together are lower than it |
| Utils.BestTextSizeIsBest | utils.py:20-48 | the search result is the best size |
| Utils.FindBestTextSize | utils.py:20-48 | the size is a multiple of 10 up to 1000. Every size up to it fits, and the next does not unless the ceiling stopped the search. The size is 0 when nothing fits. |
| Utils.BestSizeUnique | utils.py:20-48 | that promise determines the size |
| Utils.NothingFitsGivesZero | utils.py:38-48 | when size 10 does not fit, the result is 0 |
| Utils.FitsMonotone | utils.py:38 | a text that fits a box fits any larger box |
| Utils.BestSizeMonotone | utils.py:20-48 | a larger box never gets a smaller font |
| Utils.SmallerSizesFit | utils.py:35-46 | every step size up to the best one fits |
| Layout.Scale | weather_station.py:43-48 | `int(n * r)` truncates toward zero |
| Layout.ComputeLayout | weather_station.py:43-76 | The columns split the width. The grid starts where the clock ends and is 4:3. The summary sits under the clock, as wide as it. The user block fills the column under the grid, with negative height exactly when the grid is taller than the display. The icon and the description share the summary's height. |
| Layout.SplitLosesAtMostOne | weather_station.py:46-58 | splitting by a proper ratio and its complement loses at most one pixel |
| Layout.ScaleProper | weather_station.py:43 | a proper share lies between 0 and the whole |
| Layout.LeftColumnHeight | weather_station.py:46-58 | the clock and the summary fill the left column's height, up to a pixel |
| Layout.SummaryWidth | weather_station.py:67-76 | the icon and the description fit side by side in the summary, up to a pixel |
| Layout.DefaultLayoutExample | weather_station.py:43-76 | the default ratios on a 1872 x 1404 panel give these six blocks |
| Layout.TallGridExample | weather_station.py:43-66 | unvalidated ratios can give a negative user block |
| Binning.DayLabel | weather_station.py:219 | the row label is the two-digit day of the month |
| Binning.TimeLabel | weather_station.py:220 | the column label is `HH:MM` |
| Binning.BinsAreLastValues | weather_station.py:218-223 | the bins hold one table per day seen, and each holds the last value of each time seen that day |
| Binning.BinSamples | weather_station.py:218-223 | the first loop computes the bins |
| Binning.BuildGrid | weather_station.py:230-234 | the second loop builds one row per day and one cell per slot, `None` where nothing was stored |
| Binning.OrganizeData | weather_station.py:215-236 | The day labels seen are listed once each, in text order. Each row holds, slot by slot, the last value the samples give for that day and time. |
| Binning.OffSlotDayIsEmpty | weather_station.py:233 | a day without samples at a slot has `None` there |
| Binning.LaterSampleWins | weather_station.py:223 | a later sample with the same labels overrides an earlier one |
| Binning.MinutesMatter | weather_station.py:220 | a 09:30 sample fills no slot |
| Binning.MonthEndOrder | weather_station.py:227 | at a month's end the next month's first days sort before this month's last days |
| Station.Pasted | weather_station.py:137-213 | Pasting keeps the image size and every pixel outside the block. Inside the block it shows the drawing at its offset. |
| Station.PasteHidesUnderneath | weather_station.py:137-213 | what lay under a pasted block does not show |
| Station.RepaintForgets | weather_station.py:78-85 | repainting a block hides the previous drawing in it |
| Station.DisjointPastesCommute | weather_station.py:119-135 | pastes of disjoint blocks can be made in either order |
| Station.SummaryIsSeparate | weather_station.py:43-76 | the summary overlaps neither the clock, the grid nor the user picture, and the clock does not overlap the grid |
| Station.FullRenderComposes | weather_station.py:119-135 | a full render leaves the three images in the composition the partial updates rely on |
| Station.ClockRepaintKeepsComposition | weather_station.py:78-85 | a clock-only update keeps that composition and changes only clock pixels |
| Station.CurrentUpdateSnapshotHasClock | weather_station.py:87-102 | the "with summary" snapshot a current-weather update saves contains that update's clock |
| Station.ClockLines | weather_station.py:201-202 | the clock text splits into two lines, the two-digit hour and the two-digit minute; the font search measures those lines |
| Station.WeatherStation.constructor | weather_station.py:14-76 | the station starts with its layout and a white image of the display's size, and no refreshes |
| Station.WeatherStation.Paste | weather_station.py:137-213 | `Image.paste` changes the image as `Pasted` says |
| Station.WeatherStation.Open | weather_station.py:80-81 | `Image.open` of a snapshot makes it the image |
| Station.WeatherStation.PasteTimeBlock | weather_station.py:197-205 | the clock is pasted into its block |
| Station.WeatherStation.PasteShortWeatherBlock | weather_station.py:180-195 | the summary is pasted exactly when its icon file exists and its description is text; otherwise the image is unchanged and the error is raised |
| Station.WeatherStation.PasteGridWeatherBlock | weather_station.py:137-178 | the grid is built from the organised samples, and pasted exactly when every icon file exists |
| Station.WeatherStation.PasteUserBlock | weather_station.py:207-213 | a picture is pasted; other present content raises `NotImplementedError` |
| Station.WeatherStation.GenerateDisplayImage | weather_station.py:119-135 | which snapshots a render saves at each stage, and which exception stops it |
| Station.WeatherStation.UpdateAll | weather_station.py:104-135 | The abstract base client raises `TypeError` before anything is drawn. With a working client every failure is caught: a full refresh of the composed image is sent exactly when every step succeeds, and otherwise nothing is refreshed. The image and both snapshots are stated for every outcome: untouched when the client or the user block fails, the user picture only when a grid icon is missing, the grid saved as the "without summary" snapshot once it is drawn, and the summary and clock on top when they succeed. |
| Station.WeatherStation.PartialUpdateTime | weather_station.py:78-85 | with a "with summary" snapshot, the clock is repainted on it and a partial refresh is sent, the snapshots kept; without one, a full update runs from the current image |
| Station.WeatherStation.PartialUpdateCurrentWeather | weather_station.py:87-102 | with a "without summary" snapshot, the clock and the summary are repainted on it and saved as the new "with summary" snapshot. A missing snapshot, icon or client file runs a full update, from the clocked snapshot in the last two cases. Any other failure is raised with nothing saved or sent. |
| Station.WeatherStation.Run | weather_station.py:274-297 | each run leaves exactly what the selected update leaves, and sends at most one refresh, keeping earlier ones |
| Station.NewWeatherStation | weather_station.py:33-76 | the constructor raises `ValueError` exactly for present content of an unsupported type; otherwise the station has the display's size, its layout, a white image and no refreshes |
| Station.SelectMode | weather_station.py:274-297 | Auto-update refreshes everything at midnight, the current weather on the hour and the clock otherwise. Without auto-update the flags choose the mode. |
| Station.AutoUpdateSchedule | constants.py:26-27 | the weather is refreshed exactly on the hour, and everything exactly at midnight |

## Left out

Rendering, I/O and external services:

- Rendering with PIL is not modelled: fonts, glyph metrics, `thumbnail`, `resize`, `point` and the float text in grid cells. A drawing is given by a painter function, and glyph metrics by a measure function.
- A user picture is given by its size after thumbnailing.
- The network is a parameter: each request's result is given, and `fetch` itself is not part of this model. This includes the answer for AccuWeather's 5-day request, which is a bound method rather than a URL text.
- `timedelta_to_hours` is not part of this model. It is taken as the floor of the elapsed seconds over 3600.
- `python-dotenv` is a map from names to values; its file format is not modelled.
- Logging, `argparse` and the e-ink driver are not modelled. A refresh sent to the panel is recorded as an event.

Time and clocks:

- The clock is a parameter; one operation sees one `now`.
- The local UTC offset is fixed, so daylight-saving changes are not modelled.
- DateTimes.ParseNaive, DateTimes.ParseAware: accept only the fixed-width, zero-padded forms the providers send. Python's `strptime` also accepts unpadded fields. For `%z` the model accepts `Z`, `+HHMM` and `+HH:MM` (or `-`), but not the forms with seconds or microseconds that Python also accepts.

Arithmetic and types:

- Layout ratios are exact fractions rather than floats.
- Providers.FromTimestamp: every out-of-range timestamp gives `ValueError`. Python raises `OverflowError` for values beyond the platform's `time_t`, may raise `OSError` for platform limits narrower than years 1 to 9999, and rounds to whole microseconds before the range check. None of these is caught by the cache protocol, just as `ValueError` is not.
- A numeric AccuWeather icon is compared exactly, as Python compares an integer and a float.
- A non-text location key in the geoposition response is modelled as `TypeError`.
- An icon value that is not text is treated as a missing icon file.

Station assumptions:

- The display's width and height are positive.
- WeatherStation.constructor: requires content that passed the type check. `NewWeatherStation` models the `ValueError` path.
- The abstract base client and a working client are the two weather sources. As written, the script builds `WeatherClient()`, which cannot be instantiated (an abstract class), and `update_all` uses the module-level `display`. Both are modelled: `AbstractBase` gives `TypeError`, and `display` is taken to be the station's own panel.
- The 12-hour list is an array of item values, so the rewrite is seen through that array. Aliasing of item dictionaries elsewhere is not modelled.

Latent behaviours the model keeps as written:

- With expiry checking off, a cached record never expires.
- A falsy cache such as `{}` skips the check and goes to the loader.
- The 5-day and 12-hour forecasts share one cache path, so one can be handed to the other's loader.
- AccuWeather's 5-day URL property is misspelt, so `fetch` is handed a bound method; whatever comes back is saved to the shared forecast file. OpenWeather's hourly timestamp is called with one argument too many. Neither forecast can succeed.
- Grid columns are ordered by day-of-month text, so month ends sort out of date order.
- A 09:30 sample passes the 5-day filter but fills no grid slot.
- A current-weather update saves the "with summary" snapshot with its clock in it.
- A full render whose summary fails has updated only the "without summary" snapshot.

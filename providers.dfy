/** The provider-specific hooks of the two weather clients: icon
    translation, timestamp extraction, expiry policies, current-weather
    parsing and request URLs. The generic cache protocol that uses them is in
    module Cache; the two forecast loaders, which loop, are in module
    Forecasts. */
module Providers {
  import opened Errors
  import opened Json
  import opened DateTimes

  datatype Provider = AccuWeather | OpenWeather

  /** The shared icon vocabulary: OpenWeather's icon names, one image file
      each in the icon directory. */
  const Vocabulary: set<string> :=
    {"01d", "01n", "02d", "02n", "03d", "03n", "04d", "50d", "09d", "09n", "11d", "11n", "10d", "10n", "13d"}

  // ------------------------------------------------------------ icon table

  /** `AccuWeatherClient.match_openweather_icon`: AccuWeather's numeric icon
      codes mapped onto the vocabulary. -18 is not an AccuWeather code: the
      hourly loader writes it for rain after 18:00. Anything else raises
      `ValueError`. Python compares with `==`, so 18.0 and `True` (== 1)
      match too. */
  function MatchOpenWeatherIcon(iconNum: real): (r: Result<string>)
    ensures r.Ok? ==> r.value in Vocabulary
    ensures r.Err? ==> r.error == ValueError
  {
    if iconNum == 1.0 || iconNum == 2.0 then Ok("01d")
    else if iconNum == 33.0 || iconNum == 34.0 then Ok("01n")
    else if iconNum == 3.0 || iconNum == 4.0 then Ok("02d")
    else if iconNum == 35.0 || iconNum == 36.0 then Ok("02n")
    else if iconNum == 5.0 || iconNum == 6.0 then Ok("03d")
    else if iconNum == 37.0 || iconNum == 38.0 then Ok("03n")
    else if iconNum == 7.0 || iconNum == 8.0 then Ok("04d")
    else if iconNum == 11.0 then Ok("50d")
    else if iconNum == 12.0 || iconNum == 13.0 || iconNum == 14.0 then Ok("09d")
    else if iconNum == 39.0 || iconNum == 40.0 then Ok("09n")
    else if iconNum == 15.0 || iconNum == 16.0 || iconNum == 17.0 then Ok("11d")
    else if iconNum == 41.0 || iconNum == 42.0 then Ok("11n")
    else if iconNum == 18.0 then Ok("10d")
    else if iconNum == -18.0 then Ok("10n")
    else if iconNum == 19.0 || iconNum == 20.0 || iconNum == 21.0 || iconNum == 22.0 || iconNum == 23.0 || iconNum == 24.0 || iconNum == 25.0 || iconNum == 26.0 || iconNum == 29.0 || iconNum == 43.0 || iconNum == 44.0 then Ok("13d")
    else Err(ValueError)
  }

  /** The AccuWeather codes the table lists, and the -18 of evening rain:
      1-8, 11-26, 29, 33-44. */
  const KnownCodes: set<real> := {
    1.0, 2.0, 3.0, 4.0, 5.0, 6.0, 7.0, 8.0, 11.0, 12.0, 13.0, 14.0, 15.0, 16.0, 17.0, 18.0, -18.0,
    19.0, 20.0, 21.0, 22.0, 23.0, 24.0, 25.0, 26.0, 29.0,
    33.0, 34.0, 35.0, 36.0, 37.0, 38.0, 39.0, 40.0, 41.0, 42.0, 43.0, 44.0}

  /** The table translates exactly the listed codes: every other number,
      including the unused AccuWeather codes 9, 10, 27, 28, 30-32, raises. */
  lemma MatchDomain(iconNum: real)
    ensures MatchOpenWeatherIcon(iconNum).Ok? <==> iconNum in KnownCodes
  {
  }

  /** Every icon of the vocabulary is the image of some AccuWeather code,
      so every icon file can be shown. */
  lemma EveryIconReachable(v: string)
    requires v in Vocabulary
    ensures exists n :: MatchOpenWeatherIcon(n) == Ok(v)
  {
    var witnesses := map[
      "01d" := 1.0, "01n" := 33.0, "02d" := 3.0, "02n" := 35.0, "03d" := 5.0,
      "03n" := 37.0, "04d" := 7.0, "50d" := 11.0, "09d" := 12.0, "09n" := 39.0,
      "11d" := 15.0, "11n" := 41.0, "10d" := 18.0, "10n" := -18.0, "13d" := 19.0];
    assert v in witnesses;
    assert MatchOpenWeatherIcon(witnesses[v]) == Ok(v);
  }

  /** Rain is split by time of day, and codes outside the table are errors. */
  lemma IconExamples()
    ensures MatchOpenWeatherIcon(18.0) == Ok("10d")
    ensures MatchOpenWeatherIcon(-18.0) == Ok("10n")
    ensures forall n :: n in {9.0, 10.0, 27.0, 30.0, 999.0} ==> MatchOpenWeatherIcon(n) == Err(ValueError)
  {
  }

  /** `match_openweather_icon(item["WeatherIcon"])` on a decoded value: a
      value that is not a number never equals a listed code. */
  function IconOf(j: Json): (r: Result<string>)
    ensures r.Ok? ==> r.value in Vocabulary
    ensures AsNumber(j).None? ==> r == Err(ValueError)
  {
    match AsNumber(j)
    case Some(n) => MatchOpenWeatherIcon(n)
    case None => Err(ValueError)
  }

  // ------------------------------------------------------------ timestamps

  /** The range of `datetime`, years 1 to 9999, in local seconds: from
      0001-01-01 00:00:00 up to, not including, 10000-01-01 00:00:00. */
  const FirstLocalSecond: int := -62135596800
  const EndLocalSecond: int := 253402300800

  lemma DateTimeRange()
    ensures FirstLocalSecond == LocalSeconds(DateTime(1, 1, 1, 0, 0, 0))
    ensures EndLocalSecond == LocalSeconds(DateTime(10000, 1, 1, 0, 0, 0))
  {
  }

  predicate InDateTimeRange(t: real) {
    FirstLocalSecond as real <= t < EndLocalSecond as real
  }

  /** `datetime.fromtimestamp(x)`: epoch seconds to seconds on the local wall
      clock, `utcOffset` seconds ahead of UTC. Anything but a number raises
      `TypeError`; a local time outside years 1 to 9999 raises
      `ValueError`. */
  function FromTimestamp(j: Json, utcOffset: int): (r: Result<real>)
    ensures r.Ok? <==> AsNumber(j).Some? && InDateTimeRange(AsNumber(j).value + utcOffset as real)
    ensures r.Ok? ==> r.value == AsNumber(j).value + utcOffset as real
    ensures AsNumber(j).None? ==> r == Err(TypeError)
    ensures AsNumber(j).Some? && r.Err? ==> r == Err(ValueError)
  {
    match AsNumber(j)
    case Some(n) => if InDateTimeRange(n + utcOffset as real) then Ok(n + utcOffset as real) else Err(ValueError)
    case None => Err(TypeError)
  }

  /** `_load_current_weather_timestamp`: `cache["dt"]` for OpenWeather,
      `cache[0]["EpochTime"]` for AccuWeather. */
  function CurrentWeatherTimestamp(p: Provider, cache: Json, utcOffset: int): Result<real> {
    match p
    case OpenWeather =>
      var dt :- Get(cache, "dt");
      FromTimestamp(dt, utcOffset)
    case AccuWeather =>
      var first :- Index(cache, 0);
      var epoch :- Get(first, "EpochTime");
      FromTimestamp(epoch, utcOffset)
  }

  /** `_load_hours_forecast_timestamp`: `cache[0]["EpochDateTime"]` for
      AccuWeather. OpenWeather's version takes no `cache` parameter, so the
      call itself raises `TypeError`. */
  function HoursForecastTimestamp(p: Provider, cache: Json, utcOffset: int): Result<real> {
    match p
    case OpenWeather => Err(TypeError)
    case AccuWeather =>
      var first :- Index(cache, 0);
      var epoch :- Get(first, "EpochDateTime");
      FromTimestamp(epoch, utcOffset)
  }

  /** `strptime(x, "%Y-%m-%d %H:%M:%S")` on a decoded value: a non-string
      raises `TypeError`. */
  function StrptimeNaive(j: Json): (r: Result<DateTime>)
    ensures r.Ok? ==> Valid(r.value)
    ensures !j.JString? ==> r == Err(TypeError)
  {
    match j
    case JString(s) => ParseNaive(s)
    case _ => Err(TypeError)
  }

  /** `_load_forecast_timestamp`: the date-time text of the first sample,
      `cache["list"][0]["dt_txt"]`, for OpenWeather; not implemented for
      AccuWeather. */
  function ForecastTimestamp(p: Provider, cache: Json): (r: Result<DateTime>)
    ensures r.Ok? ==> p == OpenWeather && Valid(r.value)
  {
    match p
    case AccuWeather => Err(NotImplementedError)
    case OpenWeather =>
      var samples :- Get(cache, "list");
      var first :- Index(samples, 0);
      var text :- Get(first, "dt_txt");
      StrptimeNaive(text)
  }

  // ------------------------------------------------------------ expiry

  /** `timedelta_to_hours(now - cached)`, taken as the floor of the elapsed
      seconds over 3600. */
  function ElapsedHours(now: ValidDateTime, cached: real): int
  {
    ((LocalSeconds(now) as real - cached) / 3600.0).Floor
  }

  /** The current-weather and hourly-forecast policy: one whole hour elapsed. */
  predicate HourExpired(now: ValidDateTime, cached: real)
  {
    ElapsedHours(now, cached) >= 1
  }

  /** The daily-forecast policy: `now.date() > cached.date()`. */
  predicate DayExpired(now: DateTime, cached: DateTime) {
    DateBefore(cached, now)
  }

  /** With whole hours taken by flooring, "one whole hour elapsed" is "3600
      seconds or more elapsed"; a timestamp in the future is never expired. */
  lemma HourExpiredIff(now: ValidDateTime, cached: real)
    ensures HourExpired(now, cached) <==> LocalSeconds(now) as real - cached >= 3600.0
    ensures cached >= LocalSeconds(now) as real ==> !HourExpired(now, cached)
  {
  }

  /** 59 minutes is fresh, 60 minutes is expired, and a record stamped now
      is fresh. */
  lemma HourExpiryExamples(now: ValidDateTime)
    ensures !HourExpired(now, LocalSeconds(now) as real - 59.0 * 60.0)
    ensures HourExpired(now, LocalSeconds(now) as real - 60.0 * 60.0)
    ensures !HourExpired(now, LocalSeconds(now) as real)
  {
    HourExpiredIff(now, LocalSeconds(now) as real - 59.0 * 60.0);
    HourExpiredIff(now, LocalSeconds(now) as real - 60.0 * 60.0);
    HourExpiredIff(now, LocalSeconds(now) as real);
  }

  /** Day expiry follows the calendar, not the clock: 23:59 to 00:01 on the
      next day is two minutes and expired, 00:00 to 23:59 on the same day is
      almost a day and fresh, and a record stamped now is fresh. */
  lemma {:induction false} DayExpiryExamples(now: DateTime)
    ensures !DayExpired(now, now)
    ensures var late := DateTime(2024, 3, 10, 23, 59, 0);
            var early := DateTime(2024, 3, 11, 0, 1, 0);
            DayExpired(early, late) && LocalSeconds(early) - LocalSeconds(late) == 120
    ensures !DayExpired(DateTime(2024, 3, 10, 23, 59, 0), DateTime(2024, 3, 10, 0, 0, 0))
  {
    DaysFromCivilNextDay(2024, 3, 10);
  }

  /** `_check_cache_current_expired`. */
  function CheckCurrentExpired(p: Provider, now: ValidDateTime, utcOffset: int, cache: Json): (r: Result<bool>)
    ensures r.Ok? ==> CurrentWeatherTimestamp(p, cache, utcOffset).Ok?
                      && r.value == HourExpired(now, CurrentWeatherTimestamp(p, cache, utcOffset).value)
    ensures r.Err? <==> CurrentWeatherTimestamp(p, cache, utcOffset).Err?
    ensures r.Err? ==> r == Err(CurrentWeatherTimestamp(p, cache, utcOffset).error)
  {
    var cached :- CurrentWeatherTimestamp(p, cache, utcOffset);
    Ok(HourExpired(now, cached))
  }

  /** `_check_cache_hours_forecast_expired`. */
  function CheckHoursForecastExpired(p: Provider, now: ValidDateTime, utcOffset: int, cache: Json): (r: Result<bool>)
    ensures r.Ok? ==> HoursForecastTimestamp(p, cache, utcOffset).Ok?
                      && r.value == HourExpired(now, HoursForecastTimestamp(p, cache, utcOffset).value)
    ensures r.Err? <==> HoursForecastTimestamp(p, cache, utcOffset).Err?
    ensures r.Err? ==> r == Err(HoursForecastTimestamp(p, cache, utcOffset).error)
  {
    var cached :- HoursForecastTimestamp(p, cache, utcOffset);
    Ok(HourExpired(now, cached))
  }

  /** `_check_cache_day_expired`. */
  function CheckDayExpired(p: Provider, now: ValidDateTime, cache: Json): (r: Result<bool>)
    ensures r.Ok? ==> ForecastTimestamp(p, cache).Ok?
                      && r.value == DayExpired(now, ForecastTimestamp(p, cache).value)
    ensures r.Err? <==> ForecastTimestamp(p, cache).Err?
    ensures r.Err? ==> r == Err(ForecastTimestamp(p, cache).error)
  {
    var cached :- ForecastTimestamp(p, cache);
    Ok(DayExpired(now, cached))
  }

  /** How each expiry predicate fails on malformed caches: missing keys and
      wrong shapes give `KeyError` or `TypeError` (caught by the cache
      protocol), an empty sample list gives `IndexError`, and an unreadable
      date or a timestamp past the year 9999 gives `ValueError` (these
      escape it). */
  lemma MalformedCacheErrors(now: ValidDateTime, utcOffset: int)
    ensures CheckCurrentExpired(OpenWeather, now, utcOffset, JObject(map[])) == Err(KeyError)
    ensures CheckCurrentExpired(OpenWeather, now, utcOffset, JArray([])) == Err(TypeError)
    ensures CheckCurrentExpired(AccuWeather, now, utcOffset, JObject(map["EpochTime" := JNumber(0.0)])) == Err(KeyError)
    ensures CheckCurrentExpired(AccuWeather, now, utcOffset, JArray([])) == Err(IndexError)
    ensures CheckCurrentExpired(OpenWeather, now, 0, JObject(map["dt" := JNumber(300000000000.0)])) == Err(ValueError)
    ensures CheckHoursForecastExpired(OpenWeather, now, utcOffset, JArray([JNull])) == Err(TypeError)
    ensures CheckDayExpired(OpenWeather, now, JObject(map["list" := JArray([])])) == Err(IndexError)
    ensures CheckDayExpired(OpenWeather, now,
              JObject(map["list" := JArray([JObject(map["dt_txt" := JString("yesterday")])])])) == Err(ValueError)
    ensures CheckDayExpired(AccuWeather, now, JArray([JNull])) == Err(NotImplementedError)
  {
  }

  // ------------------------------------------------------------ current weather

  /** What `get_current_weather` returns: the icon name and the short
      description, as the response holds them. */
  datatype CurrentWeather = CurrentWeather(icon: Json, description: Json)

  /** `_load_current_weather`: OpenWeather passes `data["weather"][0]`'s
      `icon` and `description` through; AccuWeather translates
      `data[0]["WeatherIcon"]` and takes `data[0]["WeatherText"]`. The
      subscripts run left to right, so the first failing one decides the
      exception. */
  function LoadCurrentWeather(p: Provider, data: Json): (r: Result<CurrentWeather>)
    ensures r.Ok? && p == AccuWeather ==> r.value.icon.JString? && r.value.icon.s in Vocabulary
  {
    match p
    case OpenWeather =>
      var weather :- Get(data, "weather");
      var current :- Index(weather, 0);
      var icon :- Get(current, "icon");
      var description :- Get(current, "description");
      Ok(CurrentWeather(icon, description))
    case AccuWeather =>
      var current :- Index(data, 0);
      var code :- Get(current, "WeatherIcon");
      var icon :- IconOf(code);
      var description :- Get(current, "WeatherText");
      Ok(CurrentWeather(JString(icon), description))
  }

  /** The AccuWeather loader's outcome on the shapes a current-conditions
      cache can take: an unknown icon raises `ValueError` before the
      description is looked at, and an empty list raises `IndexError`. */
  lemma {:induction false} AccuCurrentWeatherCases(code: Json, text: Json)
    ensures var data := JArray([JObject(map["WeatherIcon" := code, "WeatherText" := text])]);
            LoadCurrentWeather(AccuWeather, data) ==
              (if IconOf(code).Ok? then Ok(CurrentWeather(JString(IconOf(code).value), text))
               else Err(ValueError))
    ensures LoadCurrentWeather(AccuWeather, JArray([JObject(map["WeatherIcon" := JNumber(999.0)])])) == Err(ValueError)
    ensures LoadCurrentWeather(AccuWeather, JArray([])) == Err(IndexError)
  {
    var data := JArray([JObject(map["WeatherIcon" := code, "WeatherText" := text])]);
    assert Index(data, 0) == Ok(JObject(map["WeatherIcon" := code, "WeatherText" := text]));
    assert MatchOpenWeatherIcon(999.0) == Err(ValueError);
  }

  /** OpenWeather's icon and description are the response's own fields. */
  lemma {:induction false} OpenWeatherCurrentWeatherPassThrough(data: Json, icon: Json, description: Json)
    requires data == JObject(map["weather" := JArray([JObject(map["icon" := icon, "description" := description])])])
    ensures LoadCurrentWeather(OpenWeather, data) == Ok(CurrentWeather(icon, description))
  {
    var w := JObject(map["icon" := icon, "description" := description]);
    assert Get(data, "weather") == Ok(JArray([w]));
    assert Index(JArray([w]), 0) == Ok(w);
  }

  // ------------------------------------------------------------ request URLs

  /** `UNITS` of the constants module. */
  const Units: string := "metric"

  /** An f-string substitution of `os.environ.get(...)`: a missing variable
      is printed as `None`. */
  function Substitute(v: Option<string>): string {
    match v
    case Some(s) => s
    case None => "None"
  }

  const OpenWeatherBase: string := "https://api.openweathermap.org/data/2.5"
  const AccuWeatherBase: string := "http://dataservice.accuweather.com/"

  /** OpenWeather's `url_para`. */
  function OpenWeatherQuery(latitude: Option<string>, longitude: Option<string>, apiKey: Option<string>): string {
    "?lat=" + Substitute(latitude) + "&lon=" + Substitute(longitude) + "&units=" + Units
    + "&appid=" + Substitute(apiKey)
  }

  /** AccuWeather's `url_para`. */
  function AccuWeatherQuery(locationKey: string, apiKey: Option<string>): string {
    locationKey + "?apikey=" + Substitute(apiKey)
  }

  /** The endpoints of each provider; a provider without a data kind has no
      URL for it. */
  datatype Endpoint = CurrentConditions | FiveDays | TwelveHours

  datatype Credentials = Credentials(
    latitude: Option<string>, longitude: Option<string>, apiKey: Option<string>, locationKey: string)

  /** What `fetch` is handed as its URL: a text, or a bound method where
      a class defines a plain method under the property's name. */
  datatype Request = Url(text: string) | BoundMethod(name: string)

  /** The `fetch_*_url` properties, or the exception the property raises.
      OpenWeather's 12-hour property raises `NotImplementedError`.
      AccuWeather's raising 5-day property is misspelt
      `fetch_5daysforecasts_url` and never read; the class defines
      `fetch_5daysforecast_url` a second time as a plain method, so the
      fetch is handed that bound method instead of a text. */
  function RequestUrl(p: Provider, e: Endpoint, c: Credentials): (r: Result<Request>)
    ensures r.Err? <==> p == OpenWeather && e == TwelveHours
    ensures r.Err? ==> r.error == NotImplementedError
    ensures r.Ok? ==> (r.value.BoundMethod? <==> p == AccuWeather && e == FiveDays)
    ensures r.Ok? && r.value.BoundMethod? ==> r.value.name == "fetch_5daysforecast_url"
  {
    match (p, e)
    case (OpenWeather, CurrentConditions) =>
      Ok(Url(OpenWeatherBase + "/weather" + OpenWeatherQuery(c.latitude, c.longitude, c.apiKey)))
    case (OpenWeather, FiveDays) =>
      Ok(Url(OpenWeatherBase + "/forecast" + OpenWeatherQuery(c.latitude, c.longitude, c.apiKey)))
    case (OpenWeather, TwelveHours) => Err(NotImplementedError)
    case (AccuWeather, CurrentConditions) =>
      Ok(Url(AccuWeatherBase + "currentconditions/v1/" + AccuWeatherQuery(c.locationKey, c.apiKey)))
    case (AccuWeather, TwelveHours) =>
      Ok(Url(AccuWeatherBase + "forecasts/v1/hourly/12hour/" + AccuWeatherQuery(c.locationKey, c.apiKey)
             + (if Units == "metric" then "&metric=true" else "")))
    case (AccuWeather, FiveDays) => Ok(BoundMethod("fetch_5daysforecast_url"))
  }

  /** The geoposition search that resolves AccuWeather's location key. */
  function LocationKeyUrl(c: Credentials): string {
    AccuWeatherBase + "locations/v1/cities/geoposition/search?apikey=" + Substitute(c.apiKey)
    + "&q=" + Substitute(c.latitude) + "," + Substitute(c.longitude)
  }

  /** Every OpenWeather request carries the same query, ending in the API
      key; every AccuWeather request starts with the service's host and
      names the location key; under metric units the hourly request asks for
      metric values. */
  lemma {:induction false} UrlShapes(c: Credentials)
    ensures forall e :: RequestUrl(OpenWeather, e, c).Ok? ==>
              var q := OpenWeatherQuery(c.latitude, c.longitude, c.apiKey);
              var u := RequestUrl(OpenWeather, e, c).value.text;
              |u| >= |q| && u[|u| - |q|..] == q
    ensures forall e :: RequestUrl(OpenWeather, e, c).Ok? ==>
              var u := RequestUrl(OpenWeather, e, c).value.text;
              |u| >= |OpenWeatherBase| && u[..|OpenWeatherBase|] == OpenWeatherBase
    ensures forall e :: RequestUrl(AccuWeather, e, c).Ok? && RequestUrl(AccuWeather, e, c).value.Url? ==>
              var u := RequestUrl(AccuWeather, e, c).value.text;
              |u| >= |AccuWeatherBase| && u[..|AccuWeatherBase|] == AccuWeatherBase
    ensures var u := RequestUrl(AccuWeather, TwelveHours, c).value.text;
            |u| >= 12 && u[|u| - 12..] == "&metric=true"
  {
    var q := OpenWeatherQuery(c.latitude, c.longitude, c.apiKey);
    assert (OpenWeatherBase + "/weather" + q)[|OpenWeatherBase + "/weather"|..] == q;
    assert (OpenWeatherBase + "/forecast" + q)[|OpenWeatherBase + "/forecast"|..] == q;
    assert (OpenWeatherBase + "/weather" + q)[..|OpenWeatherBase|] == OpenWeatherBase;
    assert (OpenWeatherBase + "/forecast" + q)[..|OpenWeatherBase|] == OpenWeatherBase;
    var a := AccuWeatherQuery(c.locationKey, c.apiKey);
    assert (AccuWeatherBase + "currentconditions/v1/" + a)[..|AccuWeatherBase|] == AccuWeatherBase;
    var h := AccuWeatherBase + "forecasts/v1/hourly/12hour/" + a + "&metric=true";
    assert h[..|AccuWeatherBase|] == AccuWeatherBase;
    assert h[|h| - 12..] == "&metric=true";
  }
}

/** The weather clients as the station uses them: configuration read from
    the environment, the lazily resolved AccuWeather location key, and the
    three `get_*` calls, each the cache protocol of module Cache followed by
    the provider's loader. */
module Client {
  import opened Errors
  import opened Json
  import opened DateTimes
  import opened Providers
  import opened Cache
  import opened Forecasts
  import Sorting

  /** `CACHE_DIR / "forecast.json"` and `CACHE_DIR / "current.json"`, the
      default cache paths. */
  const ForecastCachePath: string := "cache/forecast.json"
  const CurrentCachePath: string := "cache/current.json"

  const LocationKeyVar: string := "LOCATION_KEY"
  const LatitudeVar: string := "LATITUDE"
  const LongitudeVar: string := "LONGITUDE"

  /** `_get_api_key`: each provider reads its own variable. */
  function ApiKeyVar(p: Provider): string {
    match p
    case AccuWeather => "ACCU_WEATHER_API_KEY"
    case OpenWeather => "OPEN_WEATHER_API_KEY"
  }

  /** A configured client. Both forecasts are cached under
      `forecastPath`. */
  datatype WeatherClient = WeatherClient(
    provider: Provider, checkExpired: bool, forecastPath: string, currentPath: string, credentials: Credentials)

  /** What the network answers for what `fetch` is handed: a decoded
      document, or the exception the request raises. */
  type Network = Request -> Result<Json>

  /** `os.environ.get(name)`. */
  function Lookup(env: map<string, string>, name: string): (v: Option<string>)
    ensures v.Some? <==> name in env
    ensures v.Some? ==> v.value == env[name]
  {
    if name in env then Some(env[name]) else None
  }

  // ------------------------------------------------------------ environment

  /** The process environment and the project's `.env` file. */
  class Environment {
    var process: map<string, string>
    var dotenv: map<string, string>

    constructor (process0: map<string, string>, dotenv0: map<string, string>)
      ensures process == process0 && dotenv == dotenv0
    {
      process := process0;
      dotenv := dotenv0;
    }

    /** `load_dotenv()`: the file's variables join the environment, and a
        variable the process already has keeps its value. */
    method LoadDotenv()
      modifies this
      ensures process == old(dotenv) + old(process)
      ensures dotenv == old(dotenv)
    {
      process := dotenv + process;
    }

    /** `set_key(".env", key, value)`: rewrites the file and leaves the
        running process's environment alone. */
    method SetKey(key: string, value: string)
      modifies this
      ensures dotenv == old(dotenv)[key := value]
      ensures process == old(process)
    {
      dotenv := dotenv[key := value];
    }
  }

  /** `fetch(url)["Key"]` of the geoposition search. A key that is not a
      text cannot be written back to `.env`; the model reports that as
      `TypeError`. */
  function LocationKeyOf(response: Result<Json>): (r: Result<string>)
    ensures response.Err? ==> r == Err(response.error)
    ensures response.Ok? ==> (r.Ok? <==> Get(response.value, "Key").Ok? && Get(response.value, "Key").value.JString?)
    ensures r.Ok? ==> response.Ok? && Get(response.value, "Key") == Ok(JString(r.value))
    ensures response.Ok? && Get(response.value, "Key").Err? ==> r == Err(Get(response.value, "Key").error)
  {
    var doc :- response;
    var key :- Get(doc, "Key");
    match key
    case JString(s) => Ok(s)
    case _ => Err(TypeError)
  }

  /** `_get_location_key`: the environment's `LOCATION_KEY` when it is set;
      otherwise the key is fetched by geoposition and saved to `.env`, so
      that the next run finds it. */
  method ResolveLocationKey(env: Environment, latitude: Option<string>, longitude: Option<string>,
                            apiKey: Option<string>, network: Network)
    returns (key: Result<string>, fetched: bool)
    modifies env
    ensures env.process == old(env.process)
    ensures LocationKeyVar in old(env.process) ==>
              key == Ok(old(env.process)[LocationKeyVar]) && !fetched && env.dotenv == old(env.dotenv)
    ensures LocationKeyVar !in old(env.process) ==>
              fetched
              && key == LocationKeyOf(network(Url(LocationKeyUrl(Credentials(latitude, longitude, apiKey, "")))))
              && env.dotenv == (if key.Ok? then old(env.dotenv)[LocationKeyVar := key.value] else old(env.dotenv))
  {
    var known := Lookup(env.process, LocationKeyVar);
    if known.Some? {
      return Ok(known.value), false;
    }
    fetched := true;
    key := LocationKeyOf(network(Url(LocationKeyUrl(Credentials(latitude, longitude, apiKey, "")))));
    if key.Ok? {
      env.SetKey(LocationKeyVar, key.value);
    }
  }

  /** The environment a later run starts from: the variables the process
      itself was given, then `load_dotenv()`. */
  function NextRunEnviron(process: map<string, string>, dotenv: map<string, string>): map<string, string> {
    dotenv + process
  }

  /** A fetched key is fetched once: the next run whose process does not
      set `LOCATION_KEY` itself reads the saved key instead of fetching. */
  lemma SavedKeyIsFound(process: map<string, string>, dotenv: map<string, string>, key: string)
    requires LocationKeyVar !in process
    ensures Lookup(NextRunEnviron(process, dotenv[LocationKeyVar := key]), LocationKeyVar) == Some(key)
  {
  }

  /** `WeatherClient.__init__`: `_load_api_parameters` (load `.env`, read
      the API key, latitude and longitude) followed by `_setup_api_url`,
      which for AccuWeather resolves the location key. */
  method Connect(env: Environment, p: Provider, checkExpired: bool, network: Network)
    returns (r: Result<WeatherClient>)
    modifies env
    ensures env.process == old(env.dotenv) + old(env.process)
    ensures var environ := old(env.dotenv) + old(env.process);
            r.Ok? ==>
              && r.value.provider == p && r.value.checkExpired == checkExpired
              && r.value.forecastPath == ForecastCachePath && r.value.currentPath == CurrentCachePath
              && r.value.credentials.apiKey == Lookup(environ, ApiKeyVar(p))
              && r.value.credentials.latitude == Lookup(environ, LatitudeVar)
              && r.value.credentials.longitude == Lookup(environ, LongitudeVar)
              && (p == AccuWeather && LocationKeyVar in environ ==> r.value.credentials.locationKey == environ[LocationKeyVar])
    ensures r.Err? ==> p == AccuWeather && LocationKeyVar !in old(env.dotenv) + old(env.process)
    ensures p == OpenWeather || LocationKeyVar in old(env.dotenv) + old(env.process) ==> env.dotenv == old(env.dotenv)
    // AccuWeather without a configured key: the geoposition answer decides
    ensures var environ := old(env.dotenv) + old(env.process);
            var k := LocationKeyOf(network(Url(LocationKeyUrl(Credentials(
                       Lookup(environ, LatitudeVar), Lookup(environ, LongitudeVar), Lookup(environ, ApiKeyVar(p)), "")))));
            p == AccuWeather && LocationKeyVar !in environ ==>
              && (r.Ok? <==> k.Ok?)
              && (r.Ok? ==> r.value.credentials.locationKey == k.value
                            && env.dotenv == old(env.dotenv)[LocationKeyVar := k.value])
              && (r.Err? ==> r.error == k.error && env.dotenv == old(env.dotenv))
  {
    env.LoadDotenv();
    var apiKey := Lookup(env.process, ApiKeyVar(p));
    var latitude := Lookup(env.process, LatitudeVar);
    var longitude := Lookup(env.process, LongitudeVar);
    var locationKey := "";
    if p == AccuWeather {
      var key, _ := ResolveLocationKey(env, latitude, longitude, apiKey, network);
      if key.Err? {
        return Err(key.error);
      }
      locationKey := key.value;
    }
    r := Ok(WeatherClient(p, checkExpired, ForecastCachePath, CurrentCachePath,
                          Credentials(latitude, longitude, apiKey, locationKey)));
  }

  // ------------------------------------------------------------ the three reads

  /** What `fetch()` returns or raises for an endpoint: the network's answer
      for what the endpoint's property gives, or the exception the property
      raises. */
  function FetchResult(client: WeatherClient, e: Endpoint, network: Network): Result<Json> {
    match RequestUrl(client.provider, e, client.credentials)
    case Ok(request) => network(request)
    case Err(err) => Err(err)
  }

  /** The three expiry predicates, bound to the client and the clock. */
  function CurrentPredicate(client: WeatherClient, now: ValidDateTime, utcOffset: int): Json -> Result<bool> {
    (cache: Json) => CheckCurrentExpired(client.provider, now, utcOffset, cache)
  }

  function DayPredicate(client: WeatherClient, now: ValidDateTime): Json -> Result<bool> {
    (cache: Json) => CheckDayExpired(client.provider, now, cache)
  }

  function HoursPredicate(client: WeatherClient, now: ValidDateTime, utcOffset: int): Json -> Result<bool> {
    (cache: Json) => CheckHoursForecastExpired(client.provider, now, utcOffset, cache)
  }

  /** The decision `_get_weather` takes for each read. */
  function CurrentDecision(client: WeatherClient, files: map<string, Stored>, now: ValidDateTime, utcOffset: int): Decision {
    Decide(client.checkExpired, LoadCached(files, client.currentPath), CurrentPredicate(client, now, utcOffset))
  }

  function FiveDayDecision(client: WeatherClient, files: map<string, Stored>, now: ValidDateTime): Decision {
    Decide(client.checkExpired, LoadCached(files, client.forecastPath), DayPredicate(client, now))
  }

  function HoursDecision(client: WeatherClient, files: map<string, Stored>, now: ValidDateTime, utcOffset: int): Decision {
    Decide(client.checkExpired, LoadCached(files, client.forecastPath), HoursPredicate(client, now, utcOffset))
  }

  /** `get_5days_forecast` as a value: the table the loader sorts.
      AccuWeather's loader is not implemented. */
  function FiveDayOutcome(client: WeatherClient, handed: Result<Json>): Result<map<DateTime, Json>> {
    var doc :- handed;
    if client.provider == AccuWeather then Err(NotImplementedError) else FiveDayForecast(doc)
  }

  /** `get_12hrs_forecast` as a value: the list is iterated (iterating
      anything but a list, a text or an empty object raises `TypeError`),
      then loaded. OpenWeather's loader is not implemented. */
  function HoursOutcome(client: WeatherClient, handed: Result<Json>): Result<HourlyTable> {
    var doc :- handed;
    if client.provider == OpenWeather then Err(NotImplementedError)
    else
      var items :- Elements(doc);
      HourlyFold(HourlyStep, items, map[])
  }

  /** `get_current_weather`. */
  method GetCurrentWeather(client: WeatherClient, disk: Disk, now: ValidDateTime, utcOffset: int, network: Network)
    returns (r: Result<CurrentWeather>, fetchCalled: bool)
    modifies disk
    ensures var d := CurrentDecision(client, old(disk.files), now, utcOffset);
            var fetched := FetchResult(client, CurrentConditions, network);
            var handed := Handed(d, fetched);
            && fetchCalled == d.Refetch?
            && disk.files == FilesAfter(old(disk.files), client.currentPath, d, fetched)
            && r == (if handed.Ok? then LoadCurrentWeather(client.provider, handed.value) else Err(handed.error))
  {
    var handed;
    handed, fetchCalled := FetchOrCache(disk, client.currentPath, client.checkExpired,
                                        CurrentPredicate(client, now, utcOffset),
                                        FetchResult(client, CurrentConditions, network));
    if handed.Err? {
      return Err(handed.error), fetchCalled;
    }
    r := LoadCurrentWeather(client.provider, handed.value);
  }

  /** `get_5days_forecast`: the samples at 09, 15 and 21 o'clock, sorted. */
  method GetFiveDaysForecast(client: WeatherClient, disk: Disk, now: ValidDateTime, network: Network)
    returns (r: Result<seq<(DateTime, Json)>>, fetchCalled: bool)
    modifies disk
    ensures var d := FiveDayDecision(client, old(disk.files), now);
            var fetched := FetchResult(client, FiveDays, network);
            var outcome := FiveDayOutcome(client, Handed(d, fetched));
            && fetchCalled == d.Refetch?
            && disk.files == FilesAfter(old(disk.files), client.forecastPath, d, fetched)
            && (r.Ok? <==> outcome.Ok?)
            && (r.Err? ==> r.error == outcome.error)
            && (r.Ok? ==> Sorting.IsSortedItems(r.value, outcome.value, Before))
  {
    var handed;
    handed, fetchCalled := FetchOrCache(disk, client.forecastPath, client.checkExpired,
                                        DayPredicate(client, now),
                                        FetchResult(client, FiveDays, network));
    if handed.Err? {
      return Err(handed.error), fetchCalled;
    }
    if client.provider == AccuWeather {
      return Err(NotImplementedError), fetchCalled;
    }
    r := LoadFiveDaysForecast(handed.value);
  }

  /** `get_12hrs_forecast`: the hourly samples keyed by instant, sorted. */
  method GetTwelveHoursForecast(client: WeatherClient, disk: Disk, now: ValidDateTime, utcOffset: int, network: Network)
    returns (r: Result<seq<(AwareDateTime, Hourly)>>, fetchCalled: bool)
    modifies disk
    ensures var d := HoursDecision(client, old(disk.files), now, utcOffset);
            var fetched := FetchResult(client, TwelveHours, network);
            var outcome := HoursOutcome(client, Handed(d, fetched));
            && fetchCalled == d.Refetch?
            && disk.files == FilesAfter(old(disk.files), client.forecastPath, d, fetched)
            && (r.Ok? <==> outcome.Ok?)
            && (r.Err? ==> r.error == outcome.error)
            && (r.Ok? ==> IsSortedHourly(r.value, outcome.value))
  {
    var handed;
    handed, fetchCalled := FetchOrCache(disk, client.forecastPath, client.checkExpired,
                                        HoursPredicate(client, now, utcOffset),
                                        FetchResult(client, TwelveHours, network));
    if handed.Err? {
      return Err(handed.error), fetchCalled;
    }
    if client.provider == OpenWeather {
      return Err(NotImplementedError), fetchCalled;
    }
    var items := Elements(handed.value);
    if items.Err? {
      return Err(items.error), fetchCalled;
    }
    var data := new Json[|items.value|](i requires 0 <= i < |items.value| => items.value[i]);
    assert data[..] == items.value;
    r := LoadTwelveHours(data);
  }

  // ------------------------------------------------------------ properties

  /** AccuWeather has no 5-day forecast, whatever the cache holds: the
      date check of a truthy record raises `NotImplementedError`, which the
      cache protocol does not catch, and the loader raises it too. Only an
      absent record leads to a fetch, of the bound method; whatever the
      network answers for it is what `_save` writes to the forecast file. */
  lemma {:induction false} AccuWeatherFiveDayFails(client: WeatherClient, files: map<string, Stored>,
                                                   now: ValidDateTime, network: Network)
    requires client.provider == AccuWeather
    ensures var d := FiveDayDecision(client, files, now);
            var fetched := FetchResult(client, FiveDays, network);
            FiveDayOutcome(client, Handed(d, fetched)).Err?
    ensures var d := FiveDayDecision(client, files, now);
            var loaded := LoadCached(files, client.forecastPath);
            d.Refetch? <==> loaded == Ok(None)
    ensures var d := FiveDayDecision(client, files, now);
            var answer := network(BoundMethod("fetch_5daysforecast_url"));
            FilesAfter(files, client.forecastPath, d, FetchResult(client, FiveDays, network))
            == if LoadCached(files, client.forecastPath) == Ok(None) && answer.Ok?
               then files[client.forecastPath := Document(answer.value)] else files
  {
    assert FetchResult(client, FiveDays, network) == network(BoundMethod("fetch_5daysforecast_url"));
    var loaded := LoadCached(files, client.forecastPath);
    if loaded.Ok? && loaded.value.Some? && client.checkExpired && Truthy(loaded.value.value) {
      assert DayPredicate(client, now)(loaded.value.value) == Err(NotImplementedError);
    }
  }

  /** OpenWeather has no 12-hour forecast: its timestamp hook raises
      `TypeError`, so a present record is refetched, and the fetch raises
      `NotImplementedError`; nothing is ever written. */
  lemma {:induction false} OpenWeatherHoursFails(client: WeatherClient, files: map<string, Stored>,
                                                 now: ValidDateTime, utcOffset: int, network: Network)
    requires client.provider == OpenWeather
    ensures var d := HoursDecision(client, files, now, utcOffset);
            var fetched := FetchResult(client, TwelveHours, network);
            HoursOutcome(client, Handed(d, fetched)).Err?
            && FilesAfter(files, client.forecastPath, d, fetched) == files
  {
    assert FetchResult(client, TwelveHours, network) == Err(NotImplementedError);
  }

  /** A fresh current-conditions record is served from the cache: with
      checking on, a record stamped less than an hour before `now` is
      loaded without a fetch and without a write. */
  lemma {:induction false} RecentCurrentIsCached(client: WeatherClient, files: map<string, Stored>,
                                                 now: ValidDateTime, utcOffset: int, network: Network)
    requires client.currentPath in files && files[client.currentPath].Document?
    requires Truthy(files[client.currentPath].doc)
    requires var ts := CurrentWeatherTimestamp(client.provider, files[client.currentPath].doc, utcOffset);
             ts.Ok? && ts.value <= LocalSeconds(now) as real && LocalSeconds(now) as real - ts.value < 3600.0
    ensures var d := CurrentDecision(client, files, now, utcOffset);
            && d == UseCache(files[client.currentPath].doc)
            && Handed(d, FetchResult(client, CurrentConditions, network)) == Ok(files[client.currentPath].doc)
            && FilesAfter(files, client.currentPath, d, FetchResult(client, CurrentConditions, network)) == files
  {
    var doc := files[client.currentPath].doc;
    var ts := CurrentWeatherTimestamp(client.provider, doc, utcOffset);
    HourExpiredIff(now, ts.value);
    assert CurrentPredicate(client, now, utcOffset)(doc) == Ok(false);
    assert doc != JNull;
    FreshCacheIsUsed(files, client.currentPath, client.checkExpired, CurrentPredicate(client, now, utcOffset),
                     FetchResult(client, CurrentConditions, network));
  }

  /** A stale current-conditions record (an hour old or more) is refetched
      when checking is on, and the fetched document replaces it. */
  lemma {:induction false} StaleCurrentIsRefetched(client: WeatherClient, files: map<string, Stored>,
                                                   now: ValidDateTime, utcOffset: int, doc: Json)
    requires client.checkExpired
    requires client.currentPath in files && files[client.currentPath].Document?
    requires Truthy(files[client.currentPath].doc)
    requires var ts := CurrentWeatherTimestamp(client.provider, files[client.currentPath].doc, utcOffset);
             ts.Ok? && LocalSeconds(now) as real - ts.value >= 3600.0
    ensures var d := CurrentDecision(client, files, now, utcOffset);
            && d == Refetch
            && Handed(d, Ok(doc)) == Ok(doc)
            && FilesAfter(files, client.currentPath, d, Ok(doc)) == files[client.currentPath := Document(doc)]
  {
    var cached := files[client.currentPath].doc;
    var ts := CurrentWeatherTimestamp(client.provider, cached, utcOffset);
    HourExpiredIff(now, ts.value);
    assert CurrentPredicate(client, now, utcOffset)(cached) == Ok(true);
    assert cached != JNull;
    assert LoadCached(files, client.currentPath) == Ok(Some(cached));
  }
}

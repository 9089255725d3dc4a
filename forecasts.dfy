/** The two forecast loaders: OpenWeather's 5-day loader keeps the samples
    at the three slot hours and AccuWeather's 12-hour loader rewrites night
    rain in place. Both key their samples by time in a dictionary, where the
    last write wins, and return its items sorted by time. */
module Forecasts {
  import opened Errors
  import opened Json
  import opened DateTimes
  import opened Providers
  import Sorting

  lemma BeforeIsStrictTotalOn(ks: set<DateTime>)
    ensures Sorting.StrictTotalOrderOn(Before, ks)
  {
  }

  // ------------------------------------------------------------ 5-day forecast

  /** The hours of 9am, 3pm and 9pm: the samples the 5-day loader keeps. */
  const SlotHours: set<int> := {9, 15, 21}

  /** One pass of the loop body of `OpenWeatherClient._load_5days_forecast`:
      parse `dt_txt`; at a slot hour, read `main.temp`. */
  function FiveDayStep(item: Json): (r: Result<Option<(DateTime, Json)>>)
    ensures r.Ok? && r.value.Some? ==> Valid(r.value.value.0) && r.value.value.0.hour in SlotHours
  {
    var text :- Get(item, "dt_txt");
    var dt :- StrptimeNaive(text);
    if dt.hour in SlotHours then
      var main :- Get(item, "main");
      var temp :- Get(main, "temp");
      Ok(Some((dt, temp)))
    else Ok(None)
  }

  /** The sample `item` is stored under the time `dt`. */
  predicate KeyedAt(item: Json, dt: DateTime) {
    var step := FiveDayStep(item);
    step.Ok? && step.value.Some? && step.value.value.0 == dt
  }

  /** The `weather_data` dictionary the loop builds from `acc`, or the
      exception of the first sample that raises. */
  function FiveDayTable(items: seq<Json>, acc: map<DateTime, Json>): Result<map<DateTime, Json>>
    decreases |items|
  {
    if items == [] then Ok(acc)
    else
      var step :- FiveDayStep(items[0]);
      FiveDayTable(items[1..], if step.Some? then acc[step.value.0 := step.value.1] else acc)
  }

  /** The dictionary of a whole response: `data["list"]`, then the loop. */
  function FiveDayForecast(data: Json): Result<map<DateTime, Json>> {
    var samples :- Get(data, "list");
    var items :- Elements(samples);
    FiveDayTable(items, map[])
  }

  /** `OpenWeatherClient._load_5days_forecast`: the kept samples as
      `(time, temperature)` pairs, strictly ascending by time. */
  method LoadFiveDaysForecast(data: Json) returns (r: Result<seq<(DateTime, Json)>>)
    ensures r.Ok? <==> FiveDayForecast(data).Ok?
    ensures r.Err? ==> r.error == FiveDayForecast(data).error
    ensures r.Ok? ==> Sorting.IsSortedItems(r.value, FiveDayForecast(data).value, Before)
  {
    var samples :- Get(data, "list");
    var items :- Elements(samples);
    var table: map<DateTime, Json> := map[];
    var i := 0;
    while i < |items|
      invariant 0 <= i <= |items|
      invariant FiveDayTable(items, map[]) == FiveDayTable(items[i..], table)
    {
      assert items[i..][0] == items[i] && items[i..][1..] == items[i + 1..];
      var step := FiveDayStep(items[i]);
      if step.Err? {
        return Err(step.error);
      }
      if step.value.Some? {
        table := table[step.value.value.0 := step.value.value.1];
      }
      i := i + 1;
    }
    BeforeIsStrictTotalOn(table.Keys);
    var sorted := Sorting.SortItems(table, Before);
    return Ok(sorted);
  }

  /** Only slot-hour samples are kept: every key of the table is a valid
      time at 9, 15 or 21 o'clock (whatever its minutes) or was there before,
      and stems from a sample of the list. */
  lemma {:induction false} FiveDayKeysAreSlotSamples(items: seq<Json>, acc: map<DateTime, Json>)
    requires FiveDayTable(items, acc).Ok?
    ensures forall k :: k in FiveDayTable(items, acc).value ==>
              k in acc || (Valid(k) && k.hour in SlotHours && exists i :: 0 <= i < |items| && KeyedAt(items[i], k))
    decreases |items|
  {
    if items != [] {
      var step := FiveDayStep(items[0]);
      var acc' := if step.value.Some? then acc[step.value.value.0 := step.value.value.1] else acc;
      FiveDayKeysAreSlotSamples(items[1..], acc');
      forall k | k in FiveDayTable(items, acc).value && k !in acc
        ensures Valid(k) && k.hour in SlotHours && exists i :: 0 <= i < |items| && KeyedAt(items[i], k)
      {
        if k in acc' {
          assert KeyedAt(items[0], k);
        } else {
          var i :| 0 <= i < |items[1..]| && KeyedAt(items[1..][i], k);
          assert KeyedAt(items[i + 1], k);
        }
      }
    }
  }

  /** The last write wins: a kept sample that no later sample overwrites
      gives its time's temperature. */
  lemma {:induction false} FiveDayLastWins(items: seq<Json>, acc: map<DateTime, Json>, i: nat)
    requires FiveDayTable(items, acc).Ok?
    requires i < |items| && FiveDayStep(items[i]).Ok? && FiveDayStep(items[i]).value.Some?
    requires forall j :: i < j < |items| ==> !KeyedAt(items[j], FiveDayStep(items[i]).value.value.0)
    ensures var (dt, temp) := FiveDayStep(items[i]).value.value;
            dt in FiveDayTable(items, acc).value && FiveDayTable(items, acc).value[dt] == temp
    decreases |items|
  {
    var step := FiveDayStep(items[0]);
    var acc' := if step.value.Some? then acc[step.value.value.0 := step.value.value.1] else acc;
    if i == 0 {
      FiveDayUntouched(items[1..], acc', step.value.value.0);
    } else {
      forall j | i - 1 < j < |items[1..]|
        ensures !KeyedAt(items[1..][j], FiveDayStep(items[1..][i - 1]).value.value.0)
      {
        assert items[1..][j] == items[j + 1];
      }
      FiveDayLastWins(items[1..], acc', i - 1);
    }
  }

  /** A time that no sample is stored under keeps its entry. */
  lemma {:induction false} FiveDayUntouched(items: seq<Json>, acc: map<DateTime, Json>, dt: DateTime)
    requires FiveDayTable(items, acc).Ok?
    requires dt in acc
    requires forall j :: 0 <= j < |items| ==> !KeyedAt(items[j], dt)
    ensures dt in FiveDayTable(items, acc).value && FiveDayTable(items, acc).value[dt] == acc[dt]
    decreases |items|
  {
    if items != [] {
      var step := FiveDayStep(items[0]);
      var acc' := if step.value.Some? then acc[step.value.value.0 := step.value.value.1] else acc;
      assert !KeyedAt(items[0], dt);
      forall j | 0 <= j < |items[1..]|
        ensures !KeyedAt(items[1..][j], dt)
      {
        assert items[1..][j] == items[j + 1];
      }
      FiveDayUntouched(items[1..], acc', dt);
    }
  }

  /** The filter looks at the hour alone: a sample whose time parses is kept
      exactly when its hour is 9, 15 or 21, whatever its minutes and
      seconds, and then with its `main.temp`. */
  lemma {:induction false} FiveDayFilter(item: Json, dt: DateTime)
    requires Get(item, "dt_txt").Ok? && StrptimeNaive(Get(item, "dt_txt").value) == Ok(dt)
    ensures dt.hour !in SlotHours ==> FiveDayStep(item) == Ok(None)
    ensures dt.hour in SlotHours && Get(item, "main").Ok? && Get(Get(item, "main").value, "temp").Ok? ==>
              FiveDayStep(item) == Ok(Some((dt, Get(Get(item, "main").value, "temp").value)))
    ensures dt.hour in SlotHours && Get(item, "main").Err? ==> FiveDayStep(item) == Err(Get(item, "main").error)
  {
  }

  // ------------------------------------------------------------ 12-hour forecast

  /** What the hourly loader stores per time. */
  datatype Hourly = Hourly(temperature: Json, icon: string, precipitationProbability: Json)

  /** `strptime(x, "%Y-%m-%dT%H:%M:%S%z")` on a decoded value. */
  function StrptimeAware(j: Json): (r: Result<AwareDateTime>)
    ensures r.Ok? ==> Valid(r.value.local)
    ensures !j.JString? ==> r == Err(TypeError)
  {
    match j
    case JString(s) => ParseAware(s)
    case _ => Err(TypeError)
  }

  /** One pass of the loop body of `AccuWeatherClient._load_12hrsforecast`:
      the item as the pass leaves it, and the entry it stores or the
      exception it raises. */
  datatype HourlyStepResult = HourlyStepResult(item: Json, entry: Result<(AwareDateTime, Hourly)>)

  /** The entry of an item, its subscripts in the order the tuple is built. */
  function HourlyEntry(item: Json, dt: AwareDateTime): (r: Result<(AwareDateTime, Hourly)>)
    ensures r.Ok? ==> r.value.0 == dt
  {
    var temperature :- Get(item, "Temperature");
    var value :- Get(temperature, "Value");
    var code :- Get(item, "WeatherIcon");
    var icon :- IconOf(code);
    var precipitation :- Get(item, "PrecipitationProbability");
    Ok((dt, Hourly(value, icon, precipitation)))
  }

  /** Parse `DateTime`; rain (icon 18) after 18:00 is rewritten to -18 in the
      item itself; then the entry is built from the rewritten item. */
  function HourlyStep(item: Json): (st: HourlyStepResult)
    ensures st.entry.Ok? ==> Valid(st.entry.value.0.local)
  {
    match Get(item, "DateTime")
    case Err(e) => HourlyStepResult(item, Err(e))
    case Ok(text) =>
      match StrptimeAware(text)
      case Err(e) => HourlyStepResult(item, Err(e))
      case Ok(dt) =>
        match Get(item, "WeatherIcon")
        case Err(e) => HourlyStepResult(item, Err(e))
        case Ok(code) =>
          var item' := if EqualsNumber(code, 18.0) && dt.local.hour > 18 then Set(item, "WeatherIcon", JNumber(-18.0)) else item;
          HourlyStepResult(item', HourlyEntry(item', dt))
  }

  /** A body of the hourly loop, as a value. The loop the source runs has
      body `HourlyStep`; the loop machinery below is stated for any body,
      and the properties of `HourlyStep` are proved separately. */
  type HourlyBody = Json -> HourlyStepResult

  /** The dictionary `weather_data`, keyed by UTC instant, since aware
      `datetime` keys are equal when their instants are. An entry holds the
      key object (the first time value stored at that instant: Python keeps
      the original key on overwrite) and the last value stored. */
  type HourlyTable = map<int, (AwareDateTime, Hourly)>

  /** Every entry's time value lies at its instant. */
  ghost predicate WellKeyed(t: HourlyTable) {
    forall k :: k in t ==> Instant(t[k].0) == k
  }

  /** `weather_data[dt] = h`. */
  function Insert(t: HourlyTable, dt: AwareDateTime, h: Hourly): (t': HourlyTable)
    ensures Instant(dt) in t' && t'[Instant(dt)].1 == h
    ensures t'.Keys == t.Keys + {Instant(dt)}
    ensures Instant(dt) in t ==> t'[Instant(dt)].0 == t[Instant(dt)].0
    ensures Instant(dt) !in t ==> t'[Instant(dt)].0 == dt
    ensures forall k :: k in t && k != Instant(dt) ==> t'[k] == t[k]
  {
    var k := Instant(dt);
    t[k := (if k in t then t[k].0 else dt, h)]
  }

  /** The table the loop builds from `acc`, or the first exception. */
  function HourlyFold(body: HourlyBody, items: seq<Json>, acc: HourlyTable): Result<HourlyTable>
    decreases |items|
  {
    if items == [] then Ok(acc)
    else
      var st := body(items[0]);
      if st.entry.Err? then Err(st.entry.error)
      else HourlyFold(body, items[1..], Insert(acc, st.entry.value.0, st.entry.value.1))
  }

  /** The list after the loop: every item the loop reached is left as its
      pass left it (the raising one included); later items are untouched. */
  function AfterLoad(body: HourlyBody, items: seq<Json>): (r: seq<Json>)
    ensures |r| == |items|
    decreases |items|
  {
    if items == [] then []
    else
      var st := body(items[0]);
      [st.item] + (if st.entry.Err? then items[1..] else AfterLoad(body, items[1..]))
  }

  /** `sorted(weather_data.items())` for the hourly table: strictly
      ascending instants, one entry per instant of the table. */
  ghost predicate IsSortedHourly(out: seq<(AwareDateTime, Hourly)>, t: HourlyTable) {
    && (forall i, j :: 0 <= i < j < |out| ==> Instant(out[i].0) < Instant(out[j].0))
    && (forall i :: 0 <= i < |out| ==> Instant(out[i].0) in t && t[Instant(out[i].0)] == out[i])
    && (forall k :: k in t ==> exists i :: 0 <= i < |out| && Instant(out[i].0) == k)
  }

  lemma {:induction false} HourlyFoldWellKeyed(body: HourlyBody, items: seq<Json>, acc: HourlyTable)
    requires WellKeyed(acc) && HourlyFold(body, items, acc).Ok?
    ensures WellKeyed(HourlyFold(body, items, acc).value)
    decreases |items|
  {
    if items != [] {
      var st := body(items[0]);
      HourlyFoldWellKeyed(body, items[1..], Insert(acc, st.entry.value.0, st.entry.value.1));
    }
  }

  /** `AccuWeatherClient._load_12hrsforecast` on the list `data`, which it
      rewrites in place. */
  method LoadTwelveHours(data: array<Json>) returns (r: Result<seq<(AwareDateTime, Hourly)>>)
    modifies data
    ensures data[..] == AfterLoad(HourlyStep, old(data[..]))
    ensures r.Ok? <==> HourlyFold(HourlyStep, old(data[..]), map[]).Ok?
    ensures r.Err? ==> r.error == HourlyFold(HourlyStep, old(data[..]), map[]).error
    ensures r.Ok? ==> IsSortedHourly(r.value, HourlyFold(HourlyStep, old(data[..]), map[]).value)
  {
    var table := TabulateHourly(data, HourlyStep);
    if table.Err? {
      return Err(table.error);
    }
    HourlyFoldWellKeyed(HourlyStep, old(data[..]), map[]);
    var out := SortHourly(table.value);
    return Ok(out);
  }

  /** The loop of `_load_12hrsforecast` with loop body `body`: fills
      `weather_data`, leaving each item it reaches as the body leaves it. */
  method TabulateHourly(data: array<Json>, body: HourlyBody) returns (r: Result<HourlyTable>)
    modifies data
    ensures data[..] == AfterLoad(body, old(data[..]))
    ensures r == HourlyFold(body, old(data[..]), map[])
  {
    ghost var items := data[..];
    ghost var done: seq<Json> := [];
    var table: HourlyTable := map[];
    var i := 0;
    while i < data.Length
      invariant 0 <= i <= data.Length && |done| == i
      invariant data[..] == done + items[i..]
      invariant AfterLoad(body, items) == done + AfterLoad(body, items[i..])
      invariant HourlyFold(body, items, map[]) == HourlyFold(body, items[i..], table)
    {
      assert data[i] == items[i] by {
        assert data[..][i] == (done + items[i..])[i];
      }
      var st := body(data[i]);
      HourlyPass(body, items, i, done, table);
      ghost var pre := data[..];
      data[i] := st.item;
      assert data[..] == pre[i := st.item];
      ReplaceFirstOfRest(pre, done, items[i..], st.item);
      assert items[i..][1..] == items[i + 1..];
      done := done + [st.item];
      if st.entry.Err? {
        return Err(st.entry.error);
      }
      table := Insert(table, st.entry.value.0, st.entry.value.1);
      i := i + 1;
    }
    return Ok(table);
  }

  /** Replacing the first element after a prefix moves it into the prefix. */
  lemma ReplaceFirstOfRest<T>(s: seq<T>, prefix: seq<T>, rest: seq<T>, x: T)
    requires s == prefix + rest && |rest| >= 1
    ensures s[|prefix| := x] == (prefix + [x]) + rest[1..]
  {
    assert forall j :: 0 <= j < |s| ==> s[|prefix| := x][j] == ((prefix + [x]) + rest[1..])[j];
  }

  /** One pass of the loop, as the fold and the after-state see it. */
  lemma HourlyPass(body: HourlyBody, items: seq<Json>, i: nat, before: seq<Json>, table: HourlyTable)
    requires i < |items|
    requires AfterLoad(body, items) == before + AfterLoad(body, items[i..])
    ensures var st := body(items[i]);
            && (st.entry.Err? ==> AfterLoad(body, items) == (before + [st.item]) + items[i + 1..])
            && (st.entry.Ok? ==> AfterLoad(body, items) == (before + [st.item]) + AfterLoad(body, items[i + 1..]))
            && HourlyFold(body, items[i..], table)
               == (if st.entry.Err? then Err(st.entry.error)
                   else HourlyFold(body, items[i + 1..], Insert(table, st.entry.value.0, st.entry.value.1)))
  {
    assert items[i..][0] == items[i] && items[i..][1..] == items[i + 1..];
  }

  /** `sorted(weather_data.items())` on the hourly table. */
  method SortHourly(table: HourlyTable) returns (out: seq<(AwareDateTime, Hourly)>)
    requires WellKeyed(table)
    ensures IsSortedHourly(out, table)
  {
    var less := (a: int, b: int) => a < b;
    var sorted := Sorting.SortItems(table, less);
    out := seq(|sorted|, j requires 0 <= j < |sorted| => sorted[j].1);
    SortedHourlyOfItems(table, less, sorted, out);
  }

  lemma SortedHourlyOfItems(table: HourlyTable, less: (int, int) -> bool,
                            sorted: seq<(int, (AwareDateTime, Hourly))>, out: seq<(AwareDateTime, Hourly)>)
    requires WellKeyed(table)
    requires forall a, b :: less(a, b) == (a < b)
    requires Sorting.IsSortedItems(sorted, table, less)
    requires |out| == |sorted| && forall j :: 0 <= j < |out| ==> out[j] == sorted[j].1
    ensures IsSortedHourly(out, table)
  {
    forall j | 0 <= j < |out|
      ensures sorted[j].0 in table && table[sorted[j].0] == out[j]
      ensures Instant(out[j].0) == sorted[j].0
    {
    }
    forall j, k | 0 <= j < k < |out|
      ensures Instant(out[j].0) < Instant(out[k].0)
    {
      assert Sorting.KeysOf(sorted)[j] == sorted[j].0 && Sorting.KeysOf(sorted)[k] == sorted[k].0;
    }
    forall key | key in table
      ensures exists j :: 0 <= j < |out| && Instant(out[j].0) == key
    {
      var j :| 0 <= j < |sorted| && sorted[j].0 == key;
      assert Instant(out[j].0) == key;
    }
  }

  // ------------------------------------------------------------ 12-hour properties

  /** One pass is idempotent: a second pass over an item the first pass
      left behind changes nothing and stores the same entry. */
  lemma {:induction false} HourlyStepIdempotent(item: Json)
    ensures HourlyStep(HourlyStep(item).item) == HourlyStep(item)
  {
    var st := HourlyStep(item);
    if Get(item, "DateTime").Ok? && StrptimeAware(Get(item, "DateTime").value).Ok? && Get(item, "WeatherIcon").Ok? {
      var dt := StrptimeAware(Get(item, "DateTime").value).value;
      var code := Get(item, "WeatherIcon").value;
      if EqualsNumber(code, 18.0) && dt.local.hour > 18 {
        assert Get(st.item, "DateTime") == Get(item, "DateTime");
        assert Get(st.item, "WeatherIcon") == Ok(JNumber(-18.0));
      }
    }
  }

  /** Loading the already rewritten list again gives the same result and
      leaves the list as the first load left it. */
  lemma LoadTwiceSame(items: seq<Json>)
    ensures HourlyFold(HourlyStep, AfterLoad(HourlyStep, items), map[]) == HourlyFold(HourlyStep, items, map[])
    ensures AfterLoad(HourlyStep, AfterLoad(HourlyStep, items)) == AfterLoad(HourlyStep, items)
  {
    forall item
      ensures HourlyStep(HourlyStep(item).item) == HourlyStep(item)
    {
      HourlyStepIdempotent(item);
    }
    ReloadIsSame(HourlyStep, items, map[]);
  }

  /** For a loop body that is idempotent, reloading the rewritten list is a
      no-op. */
  lemma {:induction false} ReloadIsSame(body: HourlyBody, items: seq<Json>, acc: HourlyTable)
    requires forall item :: body(body(item).item) == body(item)
    ensures HourlyFold(body, AfterLoad(body, items), acc) == HourlyFold(body, items, acc)
    ensures AfterLoad(body, AfterLoad(body, items)) == AfterLoad(body, items)
    decreases |items|
  {
    if items != [] {
      var st := body(items[0]);
      assert body(st.item) == st;
      var after := AfterLoad(body, items);
      assert after[0] == st.item;
      if st.entry.Err? {
        assert after[1..] == items[1..];
      } else {
        assert after[1..] == AfterLoad(body, items[1..]);
        ReloadIsSame(body, items[1..], Insert(acc, st.entry.value.0, st.entry.value.1));
      }
    }
  }

  /** The item stores an entry at instant `k`. */
  predicate HourlyKeyedAt(body: HourlyBody, item: Json, k: int) {
    var st := body(item);
    st.entry.Ok? && Instant(st.entry.value.0) == k
  }

  /** The last write wins: an entry that no later item overwrites ends up
      in the table under its instant. */
  lemma {:induction false} HourlyLastWins(body: HourlyBody, items: seq<Json>, acc: HourlyTable, i: nat)
    requires HourlyFold(body, items, acc).Ok?
    requires i < |items| && body(items[i]).entry.Ok?
    requires forall j :: i < j < |items| ==> !HourlyKeyedAt(body, items[j], Instant(body(items[i]).entry.value.0))
    ensures var (dt, h) := body(items[i]).entry.value;
            Instant(dt) in HourlyFold(body, items, acc).value && HourlyFold(body, items, acc).value[Instant(dt)].1 == h
    decreases |items|
  {
    var st := body(items[0]);
    var acc' := Insert(acc, st.entry.value.0, st.entry.value.1);
    if i == 0 {
      HourlyUntouched(body, items[1..], acc', Instant(st.entry.value.0));
    } else {
      forall j | i - 1 < j < |items[1..]|
        ensures !HourlyKeyedAt(body, items[1..][j], Instant(body(items[1..][i - 1]).entry.value.0))
      {
        assert items[1..][j] == items[j + 1];
      }
      HourlyLastWins(body, items[1..], acc', i - 1);
    }
  }

  /** An instant that no item stores under keeps its entry, key object
      included. */
  lemma {:induction false} HourlyUntouched(body: HourlyBody, items: seq<Json>, acc: HourlyTable, k: int)
    requires HourlyFold(body, items, acc).Ok?
    requires k in acc
    requires forall j :: 0 <= j < |items| ==> !HourlyKeyedAt(body, items[j], k)
    ensures k in HourlyFold(body, items, acc).value && HourlyFold(body, items, acc).value[k] == acc[k]
    decreases |items|
  {
    if items != [] {
      var st := body(items[0]);
      assert !HourlyKeyedAt(body, items[0], k);
      forall j | 0 <= j < |items[1..]|
        ensures !HourlyKeyedAt(body, items[1..][j], k)
      {
        assert items[1..][j] == items[j + 1];
      }
      HourlyUntouched(body, items[1..], Insert(acc, st.entry.value.0, st.entry.value.1), k);
    }
  }

  /** The time value shown for an instant is the first one stored there. */
  lemma {:induction false} HourlyFirstKeyKept(body: HourlyBody, items: seq<Json>, acc: HourlyTable, k: int)
    requires HourlyFold(body, items, acc).Ok?
    requires k in acc
    ensures k in HourlyFold(body, items, acc).value && HourlyFold(body, items, acc).value[k].0 == acc[k].0
    decreases |items|
  {
    if items != [] {
      var st := body(items[0]);
      HourlyFirstKeyKept(body, items[1..], Insert(acc, st.entry.value.0, st.entry.value.1), k);
    }
  }

  /** Day rain (icon 18) is rewritten to night rain (-18) in the item exactly
      when the hour is after 18: at 18:00 it stays "10d", at 19:00 it
      becomes "10n". Any other icon leaves the item as it is. */
  lemma {:induction false} RainRewrite(item: Json, dt: AwareDateTime)
    requires Get(item, "DateTime").Ok? && StrptimeAware(Get(item, "DateTime").value) == Ok(dt)
    requires Get(item, "WeatherIcon").Ok?
    ensures !EqualsNumber(Get(item, "WeatherIcon").value, 18.0) ==> HourlyStep(item).item == item
    ensures EqualsNumber(Get(item, "WeatherIcon").value, 18.0) ==>
              HourlyStep(item).item == (if dt.local.hour > 18 then Set(item, "WeatherIcon", JNumber(-18.0)) else item)
    ensures EqualsNumber(Get(item, "WeatherIcon").value, 18.0) && HourlyStep(item).entry.Ok? ==>
              HourlyStep(item).entry.value == (dt, HourlyStep(item).entry.value.1)
              && HourlyStep(item).entry.value.1.icon == (if dt.local.hour > 18 then "10n" else "10d")
  {
    var code := Get(item, "WeatherIcon").value;
    if EqualsNumber(code, 18.0) {
      if dt.local.hour > 18 {
        NightRainIcon(item, dt);
      } else {
        DayRainIcon(item, dt);
      }
    }
  }

  lemma NightRainIcon(item: Json, dt: AwareDateTime)
    requires Get(item, "DateTime").Ok? && StrptimeAware(Get(item, "DateTime").value) == Ok(dt)
    requires Get(item, "WeatherIcon").Ok? && EqualsNumber(Get(item, "WeatherIcon").value, 18.0)
    requires dt.local.hour > 18
    ensures HourlyStep(item).item == Set(item, "WeatherIcon", JNumber(-18.0))
    ensures HourlyStep(item).entry.Ok? ==>
              HourlyStep(item).entry.value.0 == dt && HourlyStep(item).entry.value.1.icon == "10n"
  {
    var item' := Set(item, "WeatherIcon", JNumber(-18.0));
    assert Get(item', "WeatherIcon") == Ok(JNumber(-18.0));
  }

  lemma DayRainIcon(item: Json, dt: AwareDateTime)
    requires Get(item, "DateTime").Ok? && StrptimeAware(Get(item, "DateTime").value) == Ok(dt)
    requires Get(item, "WeatherIcon").Ok? && EqualsNumber(Get(item, "WeatherIcon").value, 18.0)
    requires dt.local.hour <= 18
    ensures HourlyStep(item).item == item
    ensures HourlyStep(item).entry.Ok? ==>
              HourlyStep(item).entry.value.0 == dt && HourlyStep(item).entry.value.1.icon == "10d"
  {
    assert MatchOpenWeatherIcon(AsNumber(Get(item, "WeatherIcon").value).value) == Ok("10d");
  }
}

/** `WeatherStation._organize_data`: the forecast samples binned into a
    grid with one row per day label and one column per time slot. */
module Binning {
  import opened Errors
  import opened Json
  import opened DateTimes
  import Sorting
  import Text

  /** `AM_TIME`, `PM_TIME` and `NIGHT_TIME` of the constants module. */
  const AmTime: string := "09:00"
  const PmTime: string := "15:00"
  const NightTime: string := "21:00"
  const TimeSlots: seq<string> := [AmTime, PmTime, NightTime]

  /** A forecast sample: a time and a temperature. */
  type Sample = (ValidDateTime, Json)

  /** `dt.strftime("%d")`: the day of the month, and nothing else. */
  function DayLabel(dt: ValidDateTime): (s: string)
    ensures |s| == 2
  {
    Pad2(dt.day)
  }

  /** `dt.strftime("%H:%M")`. */
  function TimeLabel(dt: ValidDateTime): (s: string)
    ensures |s| == 5 && s[2] == ':'
  {
    Pad2(dt.hour) + ":" + Pad2(dt.minute)
  }

  /** The nested dictionary `days`. */
  type Bins = map<string, map<string, Json>>

  /** One turn of the first loop: the sample's day gets a table if it has
      none, and the sample's value is stored under its time. */
  function Bin(bins: Bins, s: Sample): Bins {
    var day := DayLabel(s.0);
    var inner := if day in bins then bins[day] else map[];
    bins[day := inner[TimeLabel(s.0) := s.1]]
  }

  /** `days` after the first loop has seen `data`. */
  function BinAll(data: seq<Sample>): Bins {
    if data == [] then map[] else Bin(BinAll(data[..|data| - 1]), data[|data| - 1])
  }

  /** The reference reading of a grid cell: the value of the last sample
      with that day and time labels, if any. */
  function LastValue(data: seq<Sample>, day: string, time: string): Option<Json> {
    if data == [] then None
    else
      var s := data[|data| - 1];
      if DayLabel(s.0) == day && TimeLabel(s.0) == time then Some(s.1)
      else LastValue(data[..|data| - 1], day, time)
  }

  /** Some sample of `data` has this day label. */
  predicate HasDay(data: seq<Sample>, day: string) {
    exists i :: 0 <= i < |data| && DayLabel(data[i].0) == day
  }

  /** One turn of the first loop changes only the sample's day, and in it
      only the sample's time. */
  lemma BinStep(bins: Bins, s: Sample, day: string, time: string)
    ensures var b := Bin(bins, s);
            && (day in b <==> day in bins || DayLabel(s.0) == day)
            && (day in b && DayLabel(s.0) != day ==> b[day] == bins[day])
            && (day in b && DayLabel(s.0) == day ==>
                  (time in b[day] <==> time == TimeLabel(s.0) || (day in bins && time in bins[day]))
                  && (time == TimeLabel(s.0) ==> b[day][time] == s.1)
                  && (time != TimeLabel(s.0) && time in b[day] ==> b[day][time] == bins[day][time]))
  {
  }

  /** A day label is seen in `data` when it is seen before the last sample
      or on it. */
  lemma HasDayStep(data: seq<Sample>, day: string)
    requires data != []
    ensures HasDay(data, day) <==> HasDay(data[..|data| - 1], day) || DayLabel(data[|data| - 1].0) == day
  {
    var init := data[..|data| - 1];
    if HasDay(data, day) && DayLabel(data[|data| - 1].0) != day {
      var i :| 0 <= i < |data| && DayLabel(data[i].0) == day;
      assert init[i] == data[i];
    }
    if HasDay(init, day) {
      var i :| 0 <= i < |init| && DayLabel(init[i].0) == day;
      assert data[i] == init[i];
    }
  }

  /** The bins hold one table per day label seen, and each table holds the
      last value of each time seen on that day. */
  lemma {:induction false} BinsAreLastValues(data: seq<Sample>, day: string, time: string)
    ensures day in BinAll(data) <==> HasDay(data, day)
    ensures day in BinAll(data) ==>
              (time in BinAll(data)[day] <==> LastValue(data, day, time).Some?)
              && (time in BinAll(data)[day] ==> BinAll(data)[day][time] == LastValue(data, day, time).value)
    ensures day !in BinAll(data) ==> LastValue(data, day, time) == None
    decreases |data|
  {
    if data != [] {
      var init := data[..|data| - 1];
      BinsAreLastValues(init, day, time);
      HasDayStep(data, day);
      BinStep(BinAll(init), data[|data| - 1], day, time);
    }
  }

  /** One row of the grid: `days[day].get(time, None)` for each slot. */
  function Row(inner: map<string, Json>, slots: seq<string>): (row: seq<Option<Json>>)
    ensures |row| == |slots|
  {
    seq(|slots|, j requires 0 <= j < |slots| => if slots[j] in inner then Some(inner[slots[j]]) else None)
  }

  /** The first loop of `_organize_data`. */
  method BinSamples(weatherData: seq<Sample>) returns (bins: Bins)
    ensures bins == BinAll(weatherData)
  {
    bins := map[];
    var i := 0;
    while i < |weatherData|
      invariant 0 <= i <= |weatherData|
      invariant bins == BinAll(weatherData[..i])
    {
      var (dt, value) := weatherData[i];
      var day := DayLabel(dt);
      var time := TimeLabel(dt);
      if day !in bins {
        bins := bins[day := map[]];
      }
      bins := bins[day := bins[day][time := value]];
      assert weatherData[..i + 1][..i] == weatherData[..i];
      i := i + 1;
    }
    assert weatherData[..i] == weatherData;
  }

  /** The second loop of `_organize_data`: one row per day, one cell per
      slot. */
  method BuildGrid(bins: Bins, days: seq<string>, slots: seq<string>) returns (grid: seq<seq<Option<Json>>>)
    requires forall day :: day in days ==> day in bins
    ensures |grid| == |days|
    ensures forall r :: 0 <= r < |days| ==> grid[r] == Row(bins[days[r]], slots)
  {
    grid := [];
    var k := 0;
    while k < |days|
      invariant 0 <= k <= |days|
      invariant |grid| == k
      invariant forall r :: 0 <= r < k ==> grid[r] == Row(bins[days[r]], slots)
    {
      var inner := bins[days[k]];
      var row: seq<Option<Json>> := [];
      var j := 0;
      while j < |slots|
        invariant 0 <= j <= |slots|
        invariant row == Row(inner, slots[..j])
      {
        row := row + [if slots[j] in inner then Some(inner[slots[j]]) else None];
        j := j + 1;
      }
      assert slots[..j] == slots;
      grid := grid + [row];
      k := k + 1;
    }
  }

  /** What `_organize_data` promises: the day labels seen, each once, in
      text order, and row `i` holding, slot by slot, the last value the
      samples give for day `days[i]` at that time, or `None`. */
  ghost predicate Organized(weatherData: seq<Sample>, grid: seq<seq<Option<Json>>>, days: seq<string>) {
    && Sorting.Ascending(days, Text.Less)
    && (forall day :: day in days <==> HasDay(weatherData, day))
    && |grid| == |days|
    && (forall i :: 0 <= i < |grid| ==> |grid[i]| == |TimeSlots|)
    && (forall i, j :: 0 <= i < |grid| && 0 <= j < |TimeSlots| ==>
          grid[i][j] == LastValue(weatherData, days[i], TimeSlots[j]))
  }

  /** `_organize_data`: returns the grid, the sorted day labels and the
      time slots. */
  method OrganizeData(weatherData: seq<Sample>)
    returns (grid: seq<seq<Option<Json>>>, days: seq<string>, slots: seq<string>)
    ensures slots == TimeSlots
    ensures Organized(weatherData, grid, days)
  {
    var bins := BinSamples(weatherData);
    slots := TimeSlots;
    Text.LessIsStrictTotal(bins.Keys);
    days := Sorting.SortKeys(bins.Keys, Text.Less);
    grid := BuildGrid(bins, days, slots);
    forall day
      ensures day in days <==> HasDay(weatherData, day)
    {
      BinsAreLastValues(weatherData, day, "");
    }
    forall i, j | 0 <= i < |grid| && 0 <= j < |TimeSlots|
      ensures grid[i][j] == LastValue(weatherData, days[i], TimeSlots[j])
    {
      BinsAreLastValues(weatherData, days[i], TimeSlots[j]);
    }
  }

  // ------------------------------------------------------------ properties

  /** A day whose samples all fall outside the slots still gets a row, and
      every cell of it is `None`. */
  lemma {:induction false} OffSlotDayIsEmpty(data: seq<Sample>, day: string, time: string)
    requires forall i :: 0 <= i < |data| && DayLabel(data[i].0) == day ==> TimeLabel(data[i].0) != time
    ensures LastValue(data, day, time) == None
    decreases |data|
  {
    if data != [] {
      var init := data[..|data| - 1];
      assert forall i :: 0 <= i < |init| ==> init[i] == data[i];
      OffSlotDayIsEmpty(init, day, time);
    }
  }

  /** The last sample decides a cell: a later sample with the same labels
      overrides an earlier one, and other samples leave the cell alone. */
  lemma LaterSampleWins(data: seq<Sample>, s: Sample, day: string, time: string)
    ensures LastValue(data + [s], day, time) ==
              if DayLabel(s.0) == day && TimeLabel(s.0) == time then Some(s.1) else LastValue(data, day, time)
  {
    assert (data + [s])[..|data + [s]| - 1] == data;
  }

  /** The slot is keyed by hour and minute: a sample at 09:30 fills no
      slot, although the 5-day loader keeps it (its hour is 9). */
  lemma MinutesMatter(dt: ValidDateTime)
    requires dt.hour == 9 && dt.minute == 30
    ensures TimeLabel(dt) !in TimeSlots
  {
    assert TimeLabel(dt)[3..] == Pad2(30);
  }

  /** Day labels are days of the month compared as text, so at a month's
      end the next month's first days sort before the last days of this
      one: 31 January and 1 February give the columns "01", "31". */
  lemma MonthEndOrder()
    ensures DayLabel(DateTime(2024, 1, 31, 9, 0, 0)) == "31"
    ensures DayLabel(DateTime(2024, 2, 1, 9, 0, 0)) == "01"
    ensures Text.Less("01", "31")
  {
  }
}

/**
 * `WeatherTool` (app/tools/weather.ts): current conditions and a daily forecast
 * from a weather service, and a constant record for when the service is not
 * available. The service's answer to each request URL is an input, and so is
 * the function that turns a record's Unix time into its local day key
 * (`toDateString`).
 */
module Weather {
  import opened Wrappers
  import opened JsText

  datatype WeatherForecast = WeatherForecast(
    date: string, high: int, low: int, description: string, precipitation: real)

  datatype WeatherData = WeatherData(
    location: string, temperature: int, description: string, humidity: int, windSpeed: real,
    pressure: int, visibility: real, uvIndex: int, forecast: seq<WeatherForecast>)

  /** The fields of a current-conditions answer that the tool reads. */
  datatype Observation = Observation(
    name: string, country: string, temp: real, description: string, humidity: int,
    windSpeed: real, pressure: int, visibility: real)

  /**
   * A service answer: a request that failed or whose body could not be read
   * (with the error's message), a non-ok status (with its status text), or a body.
   */
  datatype Outcome<T> = Failed(message: string) | Rejected(statusText: string) | Answered(body: T)

  /** One 3-hour record of the forecast list; `rain` is absent when no rain volume is given. */
  datatype ForecastItem = ForecastItem(dt: int, temp: real, description: string, rain: Option<real>)

  const BaseUrl := "https://api.openweathermap.org/data/2.5"
  const NoKeyMessage := "OpenWeatherMap API key not configured"
  const DefaultDays := 5

  /** `Math.round`: the nearest integer, halves rounded up. */
  function Round(x: real): int {
    (x + 0.5).Floor
  }

  function CurrentUrl(location: string, key: string): string {
    BaseUrl + "/weather?q=" + EncodeUriComponent(location) + "&appid=" + key + "&units=metric"
  }

  function ForecastUrl(location: string, key: string, days: int): string {
    BaseUrl + "/forecast?q=" + EncodeUriComponent(location) + "&appid=" + key
    + "&units=metric&cnt=" + IntText(days * 8)
  }

  /** The record `getCurrentWeather` builds from an answer. */
  function CurrentFrom(o: Observation): WeatherData {
    WeatherData(o.name + ", " + o.country, Round(o.temp), o.description, o.humidity, o.windSpeed,
                o.pressure, o.visibility / 1000.0, 0, [])
  }

  function CurrentResult(outcome: Outcome<Observation>): Result<WeatherData, string> {
    match outcome
    case Failed(m) => Err(m)
    case Rejected(status) => Err("Weather API error: " + status)
    case Answered(o) => Ok(CurrentFrom(o))
  }

  // ---------------------------------------------------------------------------
  // Forecast aggregation
  // ---------------------------------------------------------------------------

  /** The day keys of `items` without repeats, in order of first occurrence. */
  function DayKeys(items: seq<ForecastItem>, dateKey: int -> string): (keys: seq<string>)
    ensures forall p :: 0 <= p < |items| ==> dateKey(items[p].dt) in keys
  {
    if items == [] then []
    else
      var init := items[..|items| - 1];
      var keys := DayKeys(init, dateKey);
      var day := dateKey(items[|items| - 1].dt);
      assert forall p :: 0 <= p < |init| ==> items[p] == init[p];
      if day in keys then keys else keys + [day]
  }

  /** The records of one day, in input order. */
  function DayItems(items: seq<ForecastItem>, dateKey: int -> string, day: string): (group: seq<ForecastItem>)
  {
    if items == [] then []
    else
      var init := items[..|items| - 1];
      var last := items[|items| - 1];
      DayItems(init, dateKey, day) + (if dateKey(last.dt) == day then [last] else [])
  }

  lemma DayKeysSnoc(items: seq<ForecastItem>, x: ForecastItem, dateKey: int -> string)
    ensures DayKeys(items + [x], dateKey)
         == if dateKey(x.dt) in DayKeys(items, dateKey) then DayKeys(items, dateKey)
            else DayKeys(items, dateKey) + [dateKey(x.dt)]
  {
    assert (items + [x])[..|items|] == items;
  }

  lemma DayItemsSnoc(items: seq<ForecastItem>, x: ForecastItem, dateKey: int -> string, day: string)
    ensures DayItems(items + [x], dateKey, day)
         == DayItems(items, dateKey, day) + (if dateKey(x.dt) == day then [x] else [])
  {
    assert (items + [x])[..|items|] == items;
  }

  /** Every listed day has at least one record. */
  lemma {:induction false} DayKeysHaveItems(items: seq<ForecastItem>, dateKey: int -> string)
    ensures forall k :: k in DayKeys(items, dateKey) ==> DayItems(items, dateKey, k) != []
    decreases |items|
  {
    if items != [] {
      var init := items[..|items| - 1];
      var last := items[|items| - 1];
      assert items == init + [last];
      DayKeysHaveItems(init, dateKey);
      DayKeysSnoc(init, last, dateKey);
      forall k | k in DayKeys(items, dateKey) ensures DayItems(items, dateKey, k) != [] {
        DayItemsSnoc(init, last, dateKey, k);
      }
    }
  }

  /** A day's group holds only records of the input that fall on that day. */
  lemma {:induction false} DayItemsMembers(items: seq<ForecastItem>, dateKey: int -> string, day: string)
    ensures forall x :: x in DayItems(items, dateKey, day) ==> x in items && dateKey(x.dt) == day
    decreases |items|
  {
    if items != [] {
      var init := items[..|items| - 1];
      assert items == init + [items[|items| - 1]];
      DayItemsMembers(init, dateKey, day);
    }
  }

  /** A day no record falls on has no records. */
  lemma {:induction false} DayItemsOfAbsentDay(items: seq<ForecastItem>, dateKey: int -> string, day: string)
    requires forall p :: 0 <= p < |items| ==> dateKey(items[p].dt) != day
    ensures DayItems(items, dateKey, day) == []
    decreases |items|
  {
    if items != [] {
      var init := items[..|items| - 1];
      assert forall p :: 0 <= p < |init| ==> init[p] == items[p];
      DayItemsOfAbsentDay(init, dateKey, day);
    }
  }

  /** Every listed day is the day of some record. */
  lemma DayKeysSound(items: seq<ForecastItem>, dateKey: int -> string, k: string)
    requires k in DayKeys(items, dateKey)
    ensures exists p :: 0 <= p < |items| && dateKey(items[p].dt) == k
  {
    DayKeysHaveItems(items, dateKey);
    DayItemsMembers(items, dateKey, k);
    var x := DayItems(items, dateKey, k)[0];
    assert x in items;
    var p :| 0 <= p < |items| && items[p] == x;
  }

  /** The highest temperature of a day. */
  function MaxTemp(group: seq<ForecastItem>): (m: real)
    requires group != []
    ensures exists i :: 0 <= i < |group| && group[i].temp == m
    ensures forall i :: 0 <= i < |group| ==> group[i].temp <= m
  {
    if |group| == 1 then group[0].temp
    else
      var rest := MaxTemp(group[1..]);
      assert forall i :: 1 <= i < |group| ==> group[i] == group[1..][i - 1];
      if group[0].temp >= rest then group[0].temp else rest
  }

  /** The lowest temperature of a day. */
  function MinTemp(group: seq<ForecastItem>): (m: real)
    requires group != []
    ensures exists i :: 0 <= i < |group| && group[i].temp == m
    ensures forall i :: 0 <= i < |group| ==> m <= group[i].temp
  {
    if |group| == 1 then group[0].temp
    else
      var rest := MinTemp(group[1..]);
      assert forall i :: 1 <= i < |group| ==> group[i] == group[1..][i - 1];
      if group[0].temp <= rest then group[0].temp else rest
  }

  /** `rain?.['3h'] || 0`: a missing volume counts as 0. */
  function RainOf(x: ForecastItem): real {
    x.rain.GetOr(0.0)
  }

  /** The day's rain, summed left to right as `reduce` does. */
  function RainSum(group: seq<ForecastItem>): real {
    if group == [] then 0.0 else RainSum(group[..|group| - 1]) + RainOf(group[|group| - 1])
  }

  /** One day's entry: rounded extremes, the first record's description and the rain total. */
  function Aggregate(day: string, group: seq<ForecastItem>): WeatherForecast
    requires group != []
  {
    WeatherForecast(day, Round(MaxTemp(group)), Round(MinTemp(group)), group[0].description,
                    RainSum(group))
  }

  /** Every day's entry, in order of first occurrence. */
  function DailySummaries(items: seq<ForecastItem>, dateKey: int -> string): (daily: seq<WeatherForecast>)
    ensures |daily| == |DayKeys(items, dateKey)|
  {
    var keys := DayKeys(items, dateKey);
    DayKeysHaveItems(items, dateKey);
    seq(|keys|, t requires 0 <= t < |keys| => Aggregate(keys[t], DayItems(items, dateKey, keys[t])))
  }

  /** What `getForecast` returns for a list of records: the first `days` daily entries. */
  function ForecastFrom(items: seq<ForecastItem>, dateKey: int -> string, days: int): seq<WeatherForecast> {
    JsSlice(DailySummaries(items, dateKey), 0, days)
  }

  function ForecastResult(outcome: Outcome<seq<ForecastItem>>, dateKey: int -> string, days: int)
    : Result<seq<WeatherForecast>, string>
  {
    match outcome
    case Failed(m) => Err(m)
    case Rejected(status) => Err("Forecast API error: " + status)
    case Answered(items) => Ok(ForecastFrom(items, dateKey, days))
  }

  /** `keys` and `groups` hold exactly the day keys and day groups of `done`. */
  ghost predicate Grouped(done: seq<ForecastItem>, dateKey: int -> string, keys: seq<string>,
                          groups: map<string, seq<ForecastItem>>)
  {
    && keys == DayKeys(done, dateKey)
    && (forall k :: k in groups <==> k in keys)
    && (forall k :: k in groups ==> groups[k] == DayItems(done, dateKey, k))
  }

  /** The first loop of `getForecast`: records pushed into `groupedByDay` under their day key. */
  method GroupByDay(items: seq<ForecastItem>, dateKey: int -> string)
    returns (keys: seq<string>, groups: map<string, seq<ForecastItem>>)
    ensures keys == DayKeys(items, dateKey)
    ensures forall k :: k in groups <==> k in keys
    ensures forall k :: k in groups ==> groups[k] == DayItems(items, dateKey, k)
  {
    keys, groups := [], map[];
    var i := 0;
    while i < |items|
      invariant 0 <= i <= |items|
      invariant Grouped(items[..i], dateKey, keys, groups)
    {
      var date := dateKey(items[i].dt);
      var prior := if date in groups then groups[date] else [];
      GroupedStep(items[..i], items[i], dateKey, keys, groups, date, prior);
      PrefixSnoc(items, i);
      keys, groups := if date in groups then keys else keys + [date], groups[date := prior + [items[i]]];
      i := i + 1;
    }
    assert items[..|items|] == items;
  }

  lemma PrefixSnoc<T>(s: seq<T>, i: nat)
    requires i < |s|
    ensures s[..i + 1] == s[..i] + [s[i]]
  {
  }

  /** Pushing a record onto its day's group, opened empty when the day is new, keeps the grouping. */
  lemma GroupedStep(done: seq<ForecastItem>, x: ForecastItem, dateKey: int -> string,
                    keys: seq<string>, groups: map<string, seq<ForecastItem>>,
                    day: string, prior: seq<ForecastItem>)
    requires Grouped(done, dateKey, keys, groups)
    requires day == dateKey(x.dt)
    requires prior == if day in groups then groups[day] else []
    ensures Grouped(done + [x], dateKey, if day in groups then keys else keys + [day],
                    groups[day := prior + [x]])
  {
    DayKeysSnoc(done, x, dateKey);
    if day !in groups {
      DayItemsOfAbsentDay(done, dateKey, day);
    }
    forall k | k in groups[day := prior + [x]]
      ensures groups[day := prior + [x]][k] == DayItems(done + [x], dateKey, k)
    {
      DayItemsSnoc(done, x, dateKey, k);
    }
  }

  /** The second loop of `getForecast`: one entry per group, in key order. */
  method SummarizeDays(items: seq<ForecastItem>, dateKey: int -> string, keys: seq<string>,
                       groups: map<string, seq<ForecastItem>>)
    returns (daily: seq<WeatherForecast>)
    requires keys == DayKeys(items, dateKey)
    requires forall k :: k in keys ==> k in groups && groups[k] == DayItems(items, dateKey, k)
    ensures daily == DailySummaries(items, dateKey)
  {
    DayKeysHaveItems(items, dateKey);
    ghost var all := DailySummaries(items, dateKey);
    daily := [];
    var j := 0;
    while j < |keys|
      invariant 0 <= j <= |keys|
      invariant daily == all[..j]
    {
      var group := groups[keys[j]];
      assert all[j] == Aggregate(keys[j], group);
      daily := daily + [Aggregate(keys[j], group)];
      assert all[..j + 1] == all[..j] + [all[j]];
      j := j + 1;
    }
    assert all[..|keys|] == all;
  }

  /** The tool's one piece of state: the API key, empty while unset. */
  class WeatherTool {
    var apiKey: string

    constructor()
      ensures apiKey == ""
    {
      apiKey := "";
    }

    method SetApiKey(key: string)
      modifies this
      ensures apiKey == key
    {
      apiKey := key;
    }

    /**
     * `getCurrentWeather(location)`: without a key it throws before any request;
     * otherwise the answer to the one request is mapped or its error passed on.
     */
    method GetCurrentWeather(location: string, service: string -> Outcome<Observation>)
      returns (r: Result<WeatherData, string>, request: Option<string>)
      ensures apiKey == "" ==> r == Err(NoKeyMessage) && request == None
      ensures apiKey != "" ==> (request == Some(CurrentUrl(location, apiKey))
                                 && r == CurrentResult(service(request.value)))
    {
      if apiKey == "" {
        return Err(NoKeyMessage), None;
      }
      var url := CurrentUrl(location, apiKey);
      request := Some(url);
      r := CurrentResult(service(url));
    }

    /**
     * `getForecast(location, days)`: without a key it throws before any request;
     * otherwise it asks for `days * 8` records, groups them by day, summarizes
     * each day and keeps the first `days` entries.
     */
    method GetForecast(location: string, days: int, service: string -> Outcome<seq<ForecastItem>>,
                       dateKey: int -> string)
      returns (r: Result<seq<WeatherForecast>, string>, request: Option<string>)
      ensures apiKey == "" ==> r == Err(NoKeyMessage) && request == None
      ensures apiKey != "" ==> (request == Some(ForecastUrl(location, apiKey, days))
                                 && r == ForecastResult(service(request.value), dateKey, days))
    {
      if apiKey == "" {
        return Err(NoKeyMessage), None;
      }
      var url := ForecastUrl(location, apiKey, days);
      request := Some(url);
      match service(url)
      case Failed(m) =>
        r := Err(m);
      case Rejected(status) =>
        r := Err("Forecast API error: " + status);
      case Answered(items) =>
        var keys, groups := GroupByDay(items, dateKey);
        var daily := SummarizeDays(items, dateKey, keys, groups);
        r := Ok(JsSlice(daily, 0, days));
    }
  }

  /** `getMockWeather(location)`, with `today` the `toDateString` of the current day. */
  function MockWeather(location: string, today: string): WeatherData {
    WeatherData(location, 22, "Partly cloudy", 65, 5.2, 1013, 10.0, 6,
                [WeatherForecast(today, 25, 18, "Sunny", 0.0)])
  }

  // ---------------------------------------------------------------------------
  // Properties
  // ---------------------------------------------------------------------------

  lemma RoundMonotone(x: real, y: real)
    requires x <= y
    ensures Round(x) <= Round(y)
  {
  }

  /** Each day's low is at most its high. */
  lemma LowAtMostHigh(items: seq<ForecastItem>, dateKey: int -> string, days: int)
    ensures forall f :: f in ForecastFrom(items, dateKey, days) ==> f.low <= f.high
  {
    var daily := DailySummaries(items, dateKey);
    var keys := DayKeys(items, dateKey);
    DayKeysHaveItems(items, dateKey);
    forall t | 0 <= t < |daily| ensures daily[t].low <= daily[t].high {
      var group := DayItems(items, dateKey, keys[t]);
      RoundMonotone(MinTemp(group), group[0].temp);
      RoundMonotone(group[0].temp, MaxTemp(group));
    }
    var out := ForecastFrom(items, dateKey, days);
    forall f | f in out ensures f.low <= f.high {
      var k :| 0 <= k < |out| && out[k] == f;
      JsSliceFromZero(daily, days, k);
    }
  }

  /** The forecast has at most `days` entries, and exactly `days` when there are that many days. */
  lemma ForecastLength(items: seq<ForecastItem>, dateKey: int -> string, days: int)
    requires days >= 0
    ensures |ForecastFrom(items, dateKey, days)| <= days
    ensures |ForecastFrom(items, dateKey, days)|
         == if days < |DayKeys(items, dateKey)| then days else |DayKeys(items, dateKey)|
  {
  }

  /** With the default of five days, the forecast covers the first five days found, or all if fewer. */
  lemma DefaultForecastLength(items: seq<ForecastItem>, dateKey: int -> string)
    ensures |ForecastFrom(items, dateKey, DefaultDays)| <= 5
    ensures |DayKeys(items, dateKey)| >= 5 ==> |ForecastFrom(items, dateKey, DefaultDays)| == 5
  {
    ForecastLength(items, dateKey, DefaultDays);
  }

  /** Day keys appear once each. */
  lemma {:induction false} DayKeysDistinct(items: seq<ForecastItem>, dateKey: int -> string)
    ensures forall a, b :: 0 <= a < b < |DayKeys(items, dateKey)| ==>
      DayKeys(items, dateKey)[a] != DayKeys(items, dateKey)[b]
    decreases |items|
  {
    if items != [] {
      DayKeysDistinct(items[..|items| - 1], dateKey);
    }
  }

  /**
   * Days are listed in order of first occurrence: wherever a later-listed day
   * occurs in the input, an earlier-listed day has already occurred.
   */
  lemma {:induction false} DayKeysFirstSeenOrder(items: seq<ForecastItem>, dateKey: int -> string,
                                                  a: nat, b: nat, q: nat)
    requires a < b < |DayKeys(items, dateKey)|
    requires q < |items| && dateKey(items[q].dt) == DayKeys(items, dateKey)[b]
    ensures exists p :: 0 <= p < q && dateKey(items[p].dt) == DayKeys(items, dateKey)[a]
    decreases |items|
  {
    var init := items[..|items| - 1];
    var keys := DayKeys(init, dateKey);
    var day := dateKey(items[|items| - 1].dt);
    assert items == init + [items[|items| - 1]];
    DayKeysSnoc(init, items[|items| - 1], dateKey);
    assert forall p :: 0 <= p < |init| ==> items[p] == init[p];
    if b < |keys| {
      assert DayKeys(items, dateKey)[a] == keys[a] && DayKeys(items, dateKey)[b] == keys[b];
      var q' := q;
      if q == |init| {
        // the last record's day was already listed, so it occurred earlier too
        DayKeysSound(init, dateKey, keys[b]);
        q' :| 0 <= q' < |init| && dateKey(init[q'].dt) == keys[b];
      }
      DayKeysFirstSeenOrder(init, dateKey, a, b, q');
      var p :| 0 <= p < q' && dateKey(init[p].dt) == keys[a];
      assert dateKey(items[p].dt) == DayKeys(items, dateKey)[a];
    } else {
      // the day listed at b is new with the last record, which is therefore q
      assert DayKeys(items, dateKey) == keys + [day];
      assert q == |init|;
      DayKeysSound(init, dateKey, keys[a]);
      var p :| 0 <= p < |init| && dateKey(init[p].dt) == keys[a];
      assert dateKey(items[p].dt) == DayKeys(items, dateKey)[a];
    }
  }

  /** Every record is in the group of its own day. */
  lemma ItemInItsGroup(items: seq<ForecastItem>, dateKey: int -> string, p: nat)
    requires p < |items|
    ensures items[p] in DayItems(items, dateKey, dateKey(items[p].dt))
    ensures dateKey(items[p].dt) in DayKeys(items, dateKey)
  {
    DayItemsHasItem(items, dateKey, p);
  }

  lemma {:induction false} DayItemsHasItem(items: seq<ForecastItem>, dateKey: int -> string, p: nat)
    requires p < |items|
    ensures items[p] in DayItems(items, dateKey, dateKey(items[p].dt))
    decreases |items|
  {
    var init := items[..|items| - 1];
    if p < |init| {
      DayItemsHasItem(init, dateKey, p);
      assert items[p] == init[p];
    }
  }

  /** The concatenation of the groups of the listed days, in order. */
  function Flatten(days: seq<string>, items: seq<ForecastItem>, dateKey: int -> string): seq<ForecastItem> {
    if days == [] then [] else DayItems(items, dateKey, days[0]) + Flatten(days[1..], items, dateKey)
  }

  lemma {:induction false} FlattenOfNothing(days: seq<string>, dateKey: int -> string)
    ensures Flatten(days, [], dateKey) == []
    decreases |days|
  {
    if days != [] {
      FlattenOfNothing(days[1..], dateKey);
    }
  }

  /** Appending a record adds it once to the flattened groups when its day is listed once. */
  lemma {:induction false} FlattenSnoc(days: seq<string>, items: seq<ForecastItem>, x: ForecastItem,
                                       dateKey: int -> string)
    requires forall a, b :: 0 <= a < b < |days| ==> days[a] != days[b]
    ensures multiset(Flatten(days, items + [x], dateKey))
         == multiset(Flatten(days, items, dateKey)) + (if dateKey(x.dt) in days then multiset{x} else multiset{})
    decreases |days|
  {
    if days != [] {
      var day, rest := days[0], days[1..];
      DistinctTail(days);
      FlattenSnoc(rest, items, x, dateKey);
      DayItemsSnoc(items, x, dateKey, day);
      var g, g' := DayItems(items, dateKey, day), DayItems(items + [x], dateKey, day);
      var f, f' := Flatten(rest, items, dateKey), Flatten(rest, items + [x], dateKey);
      assert days == [day] + rest;
      AddToOneGroup(g, g', f, f', x, dateKey(x.dt) == day, dateKey(x.dt) in rest);
      assert Flatten(days, items, dateKey) == g + f;
      assert Flatten(days, items + [x], dateKey) == g' + f';
    }
  }

  /** A record added to at most one of two groups is added once to their concatenation. */
  lemma AddToOneGroup(g: seq<ForecastItem>, g': seq<ForecastItem>, f: seq<ForecastItem>, f': seq<ForecastItem>,
                      x: ForecastItem, inG: bool, inF: bool)
    requires g' == g + (if inG then [x] else [])
    requires multiset(f') == multiset(f) + (if inF then multiset{x} else multiset{})
    requires !(inG && inF)
    ensures multiset(g' + f') == multiset(g + f) + (if inG || inF then multiset{x} else multiset{})
  {
  }

  lemma DistinctTail(days: seq<string>)
    requires days != []
    requires forall a, b :: 0 <= a < b < |days| ==> days[a] != days[b]
    ensures forall a, b :: 0 <= a < b < |days[1..]| ==> days[1..][a] != days[1..][b]
    ensures days[0] !in days[1..]
  {
    forall a, b | 0 <= a < b < |days[1..]| ensures days[1..][a] != days[1..][b] {
      assert days[1..][a] == days[a + 1] && days[1..][b] == days[b + 1];
    }
    forall k | 0 <= k < |days[1..]| ensures days[1..][k] != days[0] {
      assert days[1..][k] == days[k + 1];
    }
  }

  /** Every record falls into exactly one day group: the groups together are the input. */
  lemma {:induction false} GroupsPartitionItems(items: seq<ForecastItem>, dateKey: int -> string,
                                                days: seq<string>)
    requires forall a, b :: 0 <= a < b < |days| ==> days[a] != days[b]
    requires forall p :: 0 <= p < |items| ==> dateKey(items[p].dt) in days
    ensures multiset(Flatten(days, items, dateKey)) == multiset(items)
    decreases |items|
  {
    if items == [] {
      FlattenOfNothing(days, dateKey);
    } else {
      var init := items[..|items| - 1];
      var last := items[|items| - 1];
      assert items == init + [last];
      assert forall p :: 0 <= p < |init| ==> init[p] == items[p];
      GroupsPartitionItems(init, dateKey, days);
      FlattenSnoc(days, init, last, dateKey);
    }
  }

  /** The groups of the listed days partition the input records. */
  lemma DayGroupsPartition(items: seq<ForecastItem>, dateKey: int -> string)
    ensures multiset(Flatten(DayKeys(items, dateKey), items, dateKey)) == multiset(items)
  {
    DayKeysDistinct(items, dateKey);
    GroupsPartitionItems(items, dateKey, DayKeys(items, dateKey));
  }

  /** A day's description is that of its first record in the input. */
  lemma {:induction false} DescriptionOfFirstRecord(items: seq<ForecastItem>, dateKey: int -> string, p: nat)
    requires p < |items|
    requires forall q :: 0 <= q < p ==> dateKey(items[q].dt) != dateKey(items[p].dt)
    ensures DayItems(items, dateKey, dateKey(items[p].dt)) != []
    ensures DayItems(items, dateKey, dateKey(items[p].dt))[0] == items[p]
    decreases |items|
  {
    var init := items[..|items| - 1];
    if p < |init| {
      assert forall q :: 0 <= q < |init| ==> init[q] == items[q];
      DescriptionOfFirstRecord(init, dateKey, p);
    } else {
      assert forall q :: 0 <= q < |init| ==> init[q] == items[q];
      DayItemsOfAbsentDay(init, dateKey, dateKey(items[p].dt));
    }
  }

  /** A day none of whose records has a rain volume has a rain total of 0. */
  lemma RainSumOfDry(group: seq<ForecastItem>)
    requires forall x :: x in group ==> x.rain.None?
    ensures RainSum(group) == 0.0
  {
    if group != [] {
      RainSumOfDry(group[..|group| - 1]);
    }
  }

  /** A record without a rain volume adds nothing to its day's total, wherever it falls. */
  lemma DryRecordAddsNothing(group: seq<ForecastItem>, x: ForecastItem)
    requires x.rain.None?
    ensures RainSum(group + [x]) == RainSum(group)
  {
    assert (group + [x])[..|group + [x]| - 1] == group;
  }

  /** The rain volumes present in a day's records, in order. */
  function Volumes(group: seq<ForecastItem>): seq<real> {
    if group == [] then []
    else
      var last := group[|group| - 1];
      Volumes(group[..|group| - 1]) + (if last.rain.Some? then [last.rain.value] else [])
  }

  /** The sum of a list of numbers, left to right. */
  function Total(v: seq<real>): real {
    if v == [] then 0.0 else Total(v[..|v| - 1]) + v[|v| - 1]
  }

  /** A day's rain total is the sum of the volumes present: the missing ones count as 0. */
  lemma {:induction false} RainSumOfVolumes(group: seq<ForecastItem>)
    ensures RainSum(group) == Total(Volumes(group))
  {
    if group != [] {
      var init := group[..|group| - 1];
      var last := group[|group| - 1];
      RainSumOfVolumes(init);
      if last.rain.Some? {
        var v := Volumes(init) + [last.rain.value];
        assert v[..|v| - 1] == Volumes(init);
        assert Total(v) == Total(Volumes(init)) + last.rain.value;
      } else {
        assert Volumes(group) == Volumes(init) + [];
        assert Volumes(init) + [] == Volumes(init);
      }
    }
  }

  /** The mock record copies the location and nothing else varies with it. */
  lemma MockIgnoresLocation(a: string, b: string, today: string)
    ensures MockWeather(a, today).location == a
    ensures MockWeather(a, today) == MockWeather(b, today).(location := a)
    ensures |MockWeather(a, today).forecast| == 1
    ensures MockWeather(a, today).forecast[0].low <= MockWeather(a, today).forecast[0].high
  {
  }

  /** Current conditions round the temperature, give visibility in km and leave out UV and forecast. */
  lemma CurrentMapping(o: Observation)
    ensures CurrentFrom(o).temperature == Round(o.temp)
    ensures o.temp - 0.5 < CurrentFrom(o).temperature as real <= o.temp + 0.5
    ensures CurrentFrom(o).visibility * 1000.0 == o.visibility
    ensures CurrentFrom(o).uvIndex == 0 && CurrentFrom(o).forecast == []
  {
  }
}

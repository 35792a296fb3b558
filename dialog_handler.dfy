/** The reply logic of `weather_condition/dialog_handler.py`, the rich-content
    variant of the handler: shorter fallback pools drawn through one helper,
    per-day dictionaries instead of text, and the rich-content envelope built
    from them. Rendered dates and numbers are kept as structured values. */
module RichDialog {
  import opened Values
  import opened Text
  import opened Calendar
  import opened Forecast
  import Dialog

  // ---------------------------------------------------------------- fallbacks

  const PastDateReplies: seq<string> := [
      "I'm sorry, I can't provide weather data for the past.",
      "I can only give forecasts for today and the next 5 days. ☀️🌧️",
      "I can only provide weather data for today and up to 5 days ahead. ⏳",
      "I only have forecasts for today and the next 5 days. Ask away! 😊",
      "Need a forecast? I cover today and the next 5 days! 🌍"
    ]

  const FutureDateReplies: seq<string> := [
      "I’m sorry, but I can only provide weather forecasts for the next 5 days.",
      "Unfortunately, I can’t predict the weather beyond 5 days.",
      "I can only provide forecasts for up to 5 days ahead.",
      "I’m sorry, but my forecast limit is 5 days ahead."
    ]

  const MissingCityReplies: seq<string> := [
      "Which city do you want the weather for? 🌍",
      "Tell me a city, and I'll fetch the forecast! ☀️🌧",
      "Where should I check the weather for? 🏙️",
      "Just type a city, and I'll get the forecast! 🌍"
    ]

  const ErrorReplies: seq<string> := [
      "I'm sorry, I couldn't fetch the weather. Can you please try again?",
      "Oops! Something went wrong while fetching the weather.",
      "I'm having trouble fetching the weather. Can you please try again?"
    ]

  /** `_generate_response`: one reply drawn from the pool, in both fields. */
  function GenerateResponse(pool: seq<string>, pick: nat): (r: Reply<string>)
    requires |pool| > 0
    ensures r.fulfillmentText == r.displayText && r.fulfillmentText in pool
  {
    var t := Choice(pool, pick);
    Reply(t, t)
  }

  /** Every reply of the pool can be the one given. */
  lemma GenerateResponseReachesAll(pool: seq<string>, t: string)
    requires t in pool
    ensures exists pick: nat :: GenerateResponse(pool, pick).fulfillmentText == t
  {
    ChoiceReachesAll(pool, t);
    var pick: nat :| Choice(pool, pick) == t;
    assert GenerateResponse(pool, pick).fulfillmentText == t;
  }

  /** `handle_past_date`. */
  function HandlePastDate(pick: nat): (r: Reply<string>)
    ensures r.fulfillmentText == r.displayText && r.fulfillmentText in PastDateReplies
  {
    GenerateResponse(PastDateReplies, pick)
  }

  /** `handle_future_date`. */
  function HandleFutureDate(pick: nat): (r: Reply<string>)
    ensures r.fulfillmentText == r.displayText && r.fulfillmentText in FutureDateReplies
  {
    GenerateResponse(FutureDateReplies, pick)
  }

  /** `handle_missing_city`. */
  function HandleMissingCity(pick: nat): (r: Reply<string>)
    ensures r.fulfillmentText == r.displayText && r.fulfillmentText in MissingCityReplies
  {
    GenerateResponse(MissingCityReplies, pick)
  }

  /** `handle_error`. */
  function HandleError(pick: nat): (r: Reply<string>)
    ensures r.fulfillmentText == r.displayText && r.fulfillmentText in ErrorReplies
  {
    GenerateResponse(ErrorReplies, pick)
  }

  /** The pools hold five, four, four and three distinct replies. */
  lemma PoolSizes()
    ensures |PastDateReplies| == 5 && Distinct(PastDateReplies)
    ensures |FutureDateReplies| == 4 && Distinct(FutureDateReplies)
    ensures |MissingCityReplies| == 4 && Distinct(MissingCityReplies)
    ensures |ErrorReplies| == 3 && Distinct(ErrorReplies)
  {
  }

  // ---------------------------------------------------------------- day dictionaries

  /** A value of a day dictionary. Every kind but `Plain` is rendered by an
      f-string or `strftime` whose text is never empty and never equal to a
      sentinel: a date renders as "Weekday, Mon DD, YYYY" (it holds a comma),
      the condition text holds a space, the other texts hold a glyph or a
      unit. */
  datatype Field =
    | DateText(day: Day)                                   // `strftime("%A, %b %d, %Y")`
    | Plain(s: string)                                     // the full body's weather
    | ConditionText(emoji: Option<string>, mode: string)   // `f"{emoji} {common_we}"`
    | TemperatureText(low: real, high: real)               // "🔽 {min}°C → 🔼 {max}°C" in the full body,
                                                           // "🔽 {min}°C \n 🔼{max}°C" in the temperature body
    | WindSpeedText(speed: real)                           // `f"{speed} m/s"`
    | WindRangeText(low: real, high: real)                 // "🔽 {min} m/s → 🔼 {max} m/s", then " m/s"
                                                           // appended again, so the text ends in " m/s m/s"

  type DayDict = map<string, Field>

  const FullKeys: set<string> := {"date", "weather", "temperature", "wind_speed"}

  /** The dictionary `__forecast_body` appends for a day with slots `es`; `None`
      when `strptime` rejects the day. The "Unknown", `(0, 0)` and `0`
      defaults stand for an empty `es`, which the body skips beforehand. */
  function FullDict(date: string, es: seq<Entry>): (r: Option<DayDict>)
    ensures r.Some? <==> ParseDate(date).Some?
  {
    if ParseDate(date).None? then None
    else
      Some(map["date" := DateText(ParseDate(date).value),
               "weather" := Plain(if |es| > 0 then Mode(Titles(es)) else "Unknown"),
               "temperature" := if |es| > 0 then TemperatureText(Min(Temps(es)), Max(Temps(es))) else TemperatureText(0.0, 0.0),
               "wind_speed" := WindSpeedText(if |es| > 0 then Mode(Winds(es)) else 0.0)])
  }

  /** On a day with slots the full dictionary holds the most frequent title-cased
      description, the lowest and highest temperature and the most frequent
      wind speed; no default is used. */
  lemma FullDictFigures(date: string, es: seq<Entry>)
    requires FullDict(date, es).Some? && |es| > 0
    ensures var d := FullDict(date, es).value;
      && d["weather"].Plain? && IsMode(Titles(es), d["weather"].s)
      && d["temperature"].TemperatureText? && d["temperature"].low in Temps(es) && d["temperature"].high in Temps(es)
      && (forall t | t in Temps(es) :: d["temperature"].low <= t <= d["temperature"].high)
      && d["wind_speed"].WindSpeedText? && IsMode(Winds(es), d["wind_speed"].speed)
  {
    ModeIsMode(Titles(es));
    ModeIsMode(Winds(es));
  }

  /** The dictionary `__forecast_body_condition` appends for a day, given the
      `records` counted so far; `None` when there is no record or `strptime`
      rejects the day. */
  function ConditionDict(date: string, ks: seq<string>, records: seq<string>): (r: Option<DayDict>)
    ensures r.Some? <==> ParseDate(date).Some? && |records| > 0
  {
    if |records| == 0 || ParseDate(date).None? then None
    else Some(map["date" := DateText(ParseDate(date).value), "weather" := ConditionText(FindWeatherAttribute(ks), Mode(records))])
  }

  /** The condition text is the glyph of the first keyword and the most
      frequent record so far. */
  lemma ConditionDictFigures(date: string, ks: seq<string>, records: seq<string>)
    requires ConditionDict(date, ks, records).Some?
    ensures var w := ConditionDict(date, ks, records).value["weather"];
      w.ConditionText? && w.emoji == FindWeatherAttribute(ks) && IsMode(records, w.mode)
  {
    ModeIsMode(records);
  }

  /** The dictionary `__forecast_body_temperature` appends for a day; `None`
      when `min` meets no slot or `strptime` rejects the day. */
  function TemperatureDict(date: string, es: seq<Entry>): (r: Option<DayDict>)
    ensures r.Some? <==> ParseDate(date).Some? && |es| > 0
  {
    if |es| == 0 || ParseDate(date).None? then None
    else Some(map["date" := DateText(ParseDate(date).value), "temperature" := TemperatureText(Min(Temps(es)), Max(Temps(es)))])
  }

  /** The temperature text holds the lowest and highest temperature of the day. */
  lemma TemperatureDictFigures(date: string, es: seq<Entry>)
    requires TemperatureDict(date, es).Some?
    ensures var t := TemperatureDict(date, es).value["temperature"];
      && t.TemperatureText? && t.low in Temps(es) && t.high in Temps(es)
      && forall x | x in Temps(es) :: t.low <= x <= t.high
  {
  }

  /** The dictionary `__forecast_body_wind_speed` appends for a day; `None`
      when `min` meets no slot or `strptime` rejects the day. */
  function WindDict(date: string, es: seq<Entry>): (r: Option<DayDict>)
    ensures r.Some? <==> ParseDate(date).Some? && |es| > 0
  {
    if |es| == 0 || ParseDate(date).None? then None
    else Some(map["date" := DateText(ParseDate(date).value), "wind_speed" := WindRangeText(Min(Winds(es)), Max(Winds(es)))])
  }

  /** The wind text holds the lowest and highest wind speed of the day. */
  lemma WindDictFigures(date: string, es: seq<Entry>)
    requires WindDict(date, es).Some?
    ensures var w := WindDict(date, es).value["wind_speed"];
      && w.WindRangeText? && w.low in Winds(es) && w.high in Winds(es)
      && forall x | x in Winds(es) :: w.low <= x <= w.high
  {
  }

  // ---------------------------------------------------------------- bodies

  /** What `__forecast_body` does with the `i`-th selected day: skip it when it
      has no slot (`daily_forecasts.get(date, [])` is empty), otherwise append
      its dictionary. */
  function FullDays(ds: seq<string>, buckets: map<string, seq<Entry>>): int -> Option<Option<DayDict>>
  {
    i => if 0 <= i < |ds| then
           (if |Lookup(buckets, ds[i])| == 0 then Some(None)
            else match FullDict(ds[i], Lookup(buckets, ds[i]))
                 case None => None
                 case Some(d) => Some(Some(d)))
         else None
  }

  /** The dictionary `__forecast_body_condition` appends for the `i`-th day:
      the list it counts holds the records of every day up to this one. */
  function ConditionDays(ds: seq<string>, buckets: map<string, seq<Entry>>, keywords: Option<seq<string>>): int -> Option<DayDict>
  {
    i => if 0 <= i < |ds| && keywords.Some?
         then ConditionDict(ds[i], keywords.value, RecordsThrough(ds, buckets, keywords.value, i + 1))
         else None
  }

  /** The dictionary `__forecast_body_temperature` appends for the `i`-th day. */
  function TemperatureDays(ds: seq<string>, buckets: map<string, seq<Entry>>): int -> Option<DayDict>
  {
    i => if 0 <= i < |ds| then TemperatureDict(ds[i], Lookup(buckets, ds[i])) else None
  }

  /** The dictionary `__forecast_body_wind_speed` appends for the `i`-th day. */
  function WindDays(ds: seq<string>, buckets: map<string, seq<Entry>>): int -> Option<DayDict>
  {
    i => if 0 <= i < |ds| then WindDict(ds[i], Lookup(buckets, ds[i])) else None
  }

  /** `__forecast_body`: one dictionary per selected day with slots. */
  method ForecastBody(selected: seq<string>, buckets: map<string, seq<Entry>>) returns (r: Option<seq<DayDict>>)
    ensures r == Body(Dialog.FullBranch, selected, buckets)
  {
    r := GatherLoop(FullDays(selected, buckets), |selected|);
  }

  /** The dictionary of the keywords `ks`, as a block writer. */
  function ConditionWriter(ks: seq<string>): (string, seq<string>) -> Option<DayDict>
  {
    (date, records) => ConditionDict(date, ks, records)
  }

  /** `__forecast_body_condition`, given what `for i in condition` walks. */
  method ForecastBodyCondition(selected: seq<string>, buckets: map<string, seq<Entry>>, keywords: Option<seq<string>>)
    returns (r: Option<seq<DayDict>>)
    ensures r == Collect(ConditionDays(selected, buckets, keywords), |selected|)
  {
    if keywords.None? {
      if |selected| == 0 {
        return Some([]);
      }
      CollectStops(ConditionDays(selected, buckets, keywords), 0, |selected|);
      return None;
    }
    r := Dialog.SharedLoop(selected, buckets, keywords.value, ConditionWriter(keywords.value));
    CollectSame(Dialog.SharedDays(selected, buckets, keywords.value, ConditionWriter(keywords.value)),
                ConditionDays(selected, buckets, keywords), |selected|);
  }

  /** `__forecast_body_temperature`. */
  method ForecastBodyTemperature(selected: seq<string>, buckets: map<string, seq<Entry>>) returns (r: Option<seq<DayDict>>)
    ensures r == Body(Dialog.TemperatureBranch, selected, buckets)
  {
    r := DayLoop(TemperatureDays(selected, buckets), |selected|);
  }

  /** `__forecast_body_wind_speed`. */
  method ForecastBodyWindSpeed(selected: seq<string>, buckets: map<string, seq<Entry>>) returns (r: Option<seq<DayDict>>)
    ensures r == Body(Dialog.WindBranch, selected, buckets)
  {
    r := DayLoop(WindDays(selected, buckets), |selected|);
  }

  /** What the chosen body yields for the days `ds`, or `None` when it raises. */
  function Body(branch: Dialog.Branch, ds: seq<string>, buckets: map<string, seq<Entry>>): Option<seq<DayDict>>
  {
    match branch
    case FullBranch => Gather(FullDays(ds, buckets), |ds|)
    case ConditionBranch(keywords) => Collect(ConditionDays(ds, buckets, keywords), |ds|)
    case TemperatureBranch => Collect(TemperatureDays(ds, buckets), |ds|)
    case WindBranch => Collect(WindDays(ds, buckets), |ds|)
  }

  /** The keys of the dictionaries the body of `branch` writes. */
  function KeysOf(branch: Dialog.Branch): set<string>
  {
    match branch
    case FullBranch => FullKeys
    case ConditionBranch(_) => {"date", "weather"}
    case TemperatureBranch => {"date", "temperature"}
    case WindBranch => {"date", "wind_speed"}
  }

  /** The per-day dictionaries of the three bodies that write one per day. */
  function DictBlocks(branch: Dialog.Branch, ds: seq<string>, buckets: map<string, seq<Entry>>): int -> Option<DayDict>
  {
    match branch
    case ConditionBranch(keywords) => ConditionDays(ds, buckets, keywords)
    case TemperatureBranch => TemperatureDays(ds, buckets)
    case WindBranch => WindDays(ds, buckets)
    case FullBranch => i => None
  }

  /** A day dictionary of the condition, temperature or wind body has the keys
      of its kind. */
  lemma DictBlockKeys(branch: Dialog.Branch, ds: seq<string>, buckets: map<string, seq<Entry>>, i: int)
    requires DictBlocks(branch, ds, buckets)(i).Some?
    ensures DictBlocks(branch, ds, buckets)(i).value.Keys == KeysOf(branch)
  {
  }

  /** A day dictionary of the full body has the four keys. */
  lemma FullDayKeys(ds: seq<string>, buckets: map<string, seq<Entry>>, i: int, d: DayDict)
    requires FullDays(ds, buckets)(i) == Some(Some(d))
    ensures d.Keys == FullKeys
  {
  }

  /** Every dictionary a body writes has exactly the keys of its kind. */
  lemma BodyKeys(branch: Dialog.Branch, ds: seq<string>, buckets: map<string, seq<Entry>>)
    requires Body(branch, ds, buckets).Some?
    ensures forall d | d in Body(branch, ds, buckets).value :: d.Keys == KeysOf(branch)
  {
    var days := Body(branch, ds, buckets).value;
    if branch.FullBranch? {
      GatherFromDays(FullDays(ds, buckets), |ds|);
      forall d | d in days ensures d.Keys == FullKeys {
        var i :| 0 <= i < |ds| && FullDays(ds, buckets)(i) == Some(Some(d));
        FullDayKeys(ds, buckets, i, d);
      }
    } else {
      assert Body(branch, ds, buckets) == Collect(DictBlocks(branch, ds, buckets), |ds|);
      CollectDays(DictBlocks(branch, ds, buckets), |ds|);
      forall d | d in days ensures d.Keys == KeysOf(branch) {
        var i :| 0 <= i < |days| && days[i] == d;
        DictBlockKeys(branch, ds, buckets, i);
      }
    }
  }

  // ---------------------------------------------------------------- formatter

  /** The dict `__forecast_formatter` returns: `location` and `conditions`. */
  datatype ForecastReport = ForecastReport(location: string, conditions: seq<DayDict>)

  /** What `__forecast_formatter` returns, or `None` when the chosen body raises. */
  function Formatted(selected: seq<string>, data: ForecastData, buckets: map<string, seq<Entry>>,
                     condition: Val, temperature: Val, windSpeed: Val): Option<ForecastReport>
  {
    match Body(Dialog.ChosenBranch(condition, temperature, windSpeed), selected, buckets)
    case None => None
    case Some(days) => Some(ForecastReport(data.cityName, days))
  }

  /** The report names the city and holds the dictionaries of exactly one body,
      chosen in the order condition, temperature, wind speed, full. */
  lemma FormatterPriority(selected: seq<string>, data: ForecastData, buckets: map<string, seq<Entry>>,
                          condition: Val, temperature: Val, windSpeed: Val)
    requires Formatted(selected, data, buckets, condition, temperature, windSpeed).Some?
    ensures var rep := Formatted(selected, data, buckets, condition, temperature, windSpeed).value;
      && rep.location == data.cityName
      && (Truthy(condition) ==> forall d | d in rep.conditions :: d.Keys == {"date", "weather"})
      && (!Truthy(condition) && Truthy(temperature) ==> forall d | d in rep.conditions :: d.Keys == {"date", "temperature"})
      && (!Truthy(condition) && !Truthy(temperature) && Truthy(windSpeed) ==> forall d | d in rep.conditions :: d.Keys == {"date", "wind_speed"})
      && (!Truthy(condition) && !Truthy(temperature) && !Truthy(windSpeed) ==> forall d | d in rep.conditions :: d.Keys == FullKeys)
  {
    BodyKeys(Dialog.ChosenBranch(condition, temperature, windSpeed), selected, buckets);
  }

  /** The call of the chosen body. `dialog_handler.py` repeats the dispatch of
      `dialog.py` branch for branch, so this mirrors `Dialog.ChosenBody` over
      the dictionary bodies. */
  method ChosenBody(branch: Dialog.Branch, selected: seq<string>, buckets: map<string, seq<Entry>>) returns (r: Option<seq<DayDict>>)
    ensures r == Body(branch, selected, buckets)
  {
    match branch
    case ConditionBranch(keywords) => r := ForecastBodyCondition(selected, buckets, keywords);
    case TemperatureBranch => r := ForecastBodyTemperature(selected, buckets);
    case WindBranch => r := ForecastBodyWindSpeed(selected, buckets);
    case FullBranch => r := ForecastBody(selected, buckets);
  }

  /** `__forecast_formatter`: the `if`/`elif` chain is `Dialog.ChosenBranch`. */
  method ForecastFormatter(selected: seq<string>, data: ForecastData, buckets: map<string, seq<Entry>>,
                           condition: Val, temperature: Val, windSpeed: Val) returns (r: Option<ForecastReport>)
    ensures r == Formatted(selected, data, buckets, condition, temperature, windSpeed)
  {
    var body := ChosenBody(Dialog.ChosenBranch(condition, temperature, windSpeed), selected, buckets);
    r := if body.None? then None else Some(ForecastReport(data.cityName, body.value));
  }

  // ---------------------------------------------------------------- rich content

  /** One line of a day's text: its label and the value rendered after it. */
  datatype Line = Line(prefix: string, value: Field)

  /** An item of the rich-content `text` list: the location line, or a day's
      lines joined by "\n". */
  datatype TextItem = Header(s: string) | DayText(lines: seq<Line>)

  /** The `fulfillmentMessages` envelope, reduced to the values it carries. */
  datatype RichResponse = RichResponse(platform: string, kind: string, title: string, text: seq<TextItem>)

  const DateLabel := "📅 "
  const WeatherLabel := "⛅ Weather: "
  const TemperatureLabel := "🌡️ Temperature: "
  const WindSpeedLabel := "💨 Wind Speed: "

  /** `day.get(key) and day.get(key) != sentinel`: the key is present, its
      value is truthy and it is not the sentinel. */
  predicate Shown(day: DayDict, key: string, sentinel: string)
  {
    key in day && (day[key].Plain? ==> |day[key].s| > 0 && day[key].s != sentinel)
  }

  /** The lines of one day: date, weather, temperature, wind speed, each only
      when shown. */
  function Details(day: DayDict): (r: seq<Line>)
    ensures |r| <= 4
  {
    (if Shown(day, "date", "Unknown Date") then [Line(DateLabel, day["date"])] else [])
    + (if Shown(day, "weather", "Unknown") then [Line(WeatherLabel, day["weather"])] else [])
    + (if Shown(day, "temperature", "Unknown") then [Line(TemperatureLabel, day["temperature"])] else [])
    + (if Shown(day, "wind_speed", "Unknown") then [Line(WindSpeedLabel, day["wind_speed"])] else [])
  }

  /** Rank of a label in the fixed order of the lines. */
  function LabelRank(prefix: string): int
  {
    if prefix == DateLabel then 0
    else if prefix == WeatherLabel then 1
    else if prefix == TemperatureLabel then 2
    else 3
  }

  /** A day's lines keep the fixed order, each label at most once, and a line is
      there exactly when its field is shown, carrying that field. */
  lemma DetailsOrder(day: DayDict)
    ensures forall i, j | 0 <= i < j < |Details(day)| :: LabelRank(Details(day)[i].prefix) < LabelRank(Details(day)[j].prefix)
    ensures Shown(day, "date", "Unknown Date") <==> "date" in day && Line(DateLabel, day["date"]) in Details(day)
    ensures Shown(day, "weather", "Unknown") <==> "weather" in day && Line(WeatherLabel, day["weather"]) in Details(day)
    ensures Shown(day, "temperature", "Unknown") <==> "temperature" in day && Line(TemperatureLabel, day["temperature"]) in Details(day)
    ensures Shown(day, "wind_speed", "Unknown") <==> "wind_speed" in day && Line(WindSpeedLabel, day["wind_speed"]) in Details(day)
  {
  }

  /** The text items of the first `n` days: one per day that has a line. */
  function DayTexts(days: seq<DayDict>, n: int): (r: seq<TextItem>)
    requires 0 <= n <= |days|
    ensures |r| <= n
  {
    if n == 0 then []
    else DayTexts(days, n - 1) + if |Details(days[n - 1])| > 0 then [DayText(Details(days[n - 1]))] else []
  }

  /** The indices below `n` whose flag is set, in order. */
  function Marked(flags: seq<bool>, n: int): (r: seq<nat>)
    requires 0 <= n <= |flags|
    ensures forall j | 0 <= j < |r| :: r[j] < n
  {
    if n == 0 then []
    else Marked(flags, n - 1) + if flags[n - 1] then [n - 1] else []
  }

  lemma {:induction false} MarkedExact(flags: seq<bool>, n: int)
    requires 0 <= n <= |flags|
    ensures var m := Marked(flags, n);
      && (forall j, k | 0 <= j < k < |m| :: m[j] < m[k])
      && (forall i | 0 <= i < n :: i in m <==> flags[i])
  {
    if n > 0 {
      MarkedExact(flags, n - 1);
      var m0 := Marked(flags, n - 1);
      var extra := if flags[n - 1] then [n - 1] else [];
      assert Marked(flags, n) == m0 + extra;
      forall i | 0 <= i < n
        ensures i in m0 + extra <==> flags[i]
      {
        assert i in m0 + extra <==> i in m0 || i in extra;
      }
    }
  }

  /** Whether each day has at least one detail. */
  function HasDetails(days: seq<DayDict>): (r: seq<bool>)
    ensures |r| == |days| && forall i | 0 <= i < |days| :: r[i] == (|Details(days[i])| > 0)
  {
    seq(|days|, i requires 0 <= i < |days| => |Details(days[i])| > 0)
  }

  /** The indices below `n` of the days with at least one detail, in order. */
  function ShownDays(days: seq<DayDict>, n: int): (r: seq<nat>)
    requires 0 <= n <= |days|
    ensures forall j | 0 <= j < |r| :: r[j] < n
  {
    Marked(HasDetails(days), n)
  }

  /** The shown days are strictly increasing, and a day below `n` is shown
      iff it has a detail. */
  lemma ShownDaysExact(days: seq<DayDict>, n: int)
    requires 0 <= n <= |days|
    ensures var shown := ShownDays(days, n);
      && (forall j, k | 0 <= j < k < |shown| :: shown[j] < shown[k])
      && (forall i | 0 <= i < n :: i in shown <==> |Details(days[i])| > 0)
  {
    MarkedExact(HasDetails(days), n);
  }

  /** The texts are exactly those of the shown days, in the order of the
      days: one text per shown day (see `ShownDaysExact`). */
  lemma {:induction false} DayTextsOfShownDays(days: seq<DayDict>, n: int)
    requires 0 <= n <= |days|
    ensures var r := DayTexts(days, n);
      var shown := ShownDays(days, n);
      && |r| == |shown|
      && (forall j | 0 <= j < |r| :: r[j] == DayText(Details(days[shown[j]])))
  {
    if n > 0 {
      DayTextsOfShownDays(days, n - 1);
    }
  }

  /** The envelope around the `text` list. */
  function Envelope(location: string, texts: seq<TextItem>): RichResponse
  {
    RichResponse("PLATFORM_UNSPECIFIED", "description", "Weather Forecast", [Header("📍 " + location)] + texts)
  }

  /** What `format_weather_response` returns; `None` when `conditions` is empty,
      where `response` is never assigned and returning it raises. */
  function WeatherResponse(rep: ForecastReport): Option<RichResponse>
  {
    if |rep.conditions| == 0 then None
    else Some(Envelope(rep.location, DayTexts(rep.conditions, |rep.conditions|)))
  }

  /** Every day text holds at least one line, comes from a day of the report and
      the days keep their order. */
  lemma {:induction false} DayTextsFromDays(days: seq<DayDict>, n: int)
    requires 0 <= n <= |days|
    ensures forall t | t in DayTexts(days, n) :: t.DayText? && |t.lines| > 0 && exists i | 0 <= i < n :: t.lines == Details(days[i])
  {
    if n > 0 {
      DayTextsFromDays(days, n - 1);
    }
  }

  /** A day with a line is never dropped: the days with lines give the texts,
      one each, in order. */
  lemma {:induction false} DayTextsAllShown(days: seq<DayDict>, n: int)
    requires 0 <= n <= |days|
    requires forall i | 0 <= i < n :: |Details(days[i])| > 0
    ensures DayTexts(days, n) == seq(n, i requires 0 <= i < n => DayText(Details(days[i])))
  {
    if n > 0 {
      DayTextsAllShown(days, n - 1);
    }
  }

  /** The rich response: raises on an empty report; otherwise the envelope's
      constants, the location line first and then the day texts. */
  lemma WeatherResponseShape(rep: ForecastReport)
    ensures WeatherResponse(rep).None? <==> |rep.conditions| == 0
    ensures WeatherResponse(rep).Some? ==>
      var resp := WeatherResponse(rep).value;
      && resp.platform == "PLATFORM_UNSPECIFIED" && resp.kind == "description" && resp.title == "Weather Forecast"
      && 1 <= |resp.text| <= |rep.conditions| + 1
      && resp.text[0] == Header("📍 " + rep.location)
      && resp.text[1..] == DayTexts(rep.conditions, |rep.conditions|)
  {
  }

  /** `format_weather_response`: the envelope is rebuilt after every day, so the
      one returned holds the texts of all the days. */
  method FormatWeatherResponse(rep: ForecastReport) returns (r: Option<RichResponse>)
    ensures r == WeatherResponse(rep)
  {
    var texts: seq<TextItem> := [];
    var response: Option<RichResponse> := None;
    for i := 0 to |rep.conditions|
      invariant texts == DayTexts(rep.conditions, i)
      invariant response == if i == 0 then None else Some(Envelope(rep.location, texts))
    {
      var day := rep.conditions[i];
      var details: seq<Line> := [];
      if Shown(day, "date", "Unknown Date") {
        details := details + [Line(DateLabel, day["date"])];
      }
      if Shown(day, "weather", "Unknown") {
        details := details + [Line(WeatherLabel, day["weather"])];
      }
      if Shown(day, "temperature", "Unknown") {
        details := details + [Line(TemperatureLabel, day["temperature"])];
      }
      if Shown(day, "wind_speed", "Unknown") {
        details := details + [Line(WindSpeedLabel, day["wind_speed"])];
      }
      assert details == Details(day);
      if |details| > 0 {
        texts := texts + [DayText(details)];
      }
      response := Some(Envelope(rep.location, texts));
    }
    return response;
  }

  // ---------------------------------------------------------------- whole reply

  /** What `format_forecast_output` returns; `None` when it raises. */
  function ForecastOutput(condition: Val, temperature: Val, windSpeed: Val, time: Option<(Day, Day)>, data: ForecastData): Option<RichResponse>
  {
    match Group(data.entries)
    case None => None
    case Some(g) =>
      match time
      case None => None
      case Some(t) =>
        match Formatted(Selection(t.0, t.1, Candidates(g.keys)), data, g.buckets, condition, temperature, windSpeed)
        case None => None
        case Some(rep) => WeatherResponse(rep)
  }

  /** `format_forecast_output`: group, keep six days, select, format, wrap. */
  method FormatForecastOutput(condition: Val, temperature: Val, windSpeed: Val, time: Option<(Day, Day)>, data: ForecastData)
    returns (r: Option<RichResponse>)
    ensures r == ForecastOutput(condition, temperature, windSpeed, time, data)
  {
    var grouping := GroupByDate(data.entries);
    if grouping.None? {
      return None;
    }
    var candidates := Candidates(grouping.value.keys);
    if time.None? {
      return None;
    }
    var selected := SelectDates(time.value.0, time.value.1, candidates);
    var report := ForecastFormatter(selected, data, grouping.value.buckets, condition, temperature, windSpeed);
    if report.None? {
      return None;
    }
    r := FormatWeatherResponse(report.value);
  }
}

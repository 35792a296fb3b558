/** The reply logic of `weather_condition/dialog.py`, the handler the service uses:
    the four fallback replies and the forecast text, whose parts are kept as
    structured values (the rendering of dates and numbers is not modelled). */
module Dialog {
  import opened Values
  import opened Text
  import opened Calendar
  import opened Forecast

  // ---------------------------------------------------------------- fallbacks

  const PastDateReplies: seq<string> := [
      "I'm sorry, I can't provide weather data for the past.",
      "I can only give forecasts for today and the next 5 days. ☀️🌧️",
      "I can only provide weather data for today and up to 5 days ahead. ⏳",
      "I only have forecasts for today and the next 5 days. Ask away! 😊",
      "Need a forecast? I cover today and the next 5 days! 🌍"
    ]

  const FutureDateReplies: seq<string> := [
      "I’m sorry, but I can only provide weather forecasts for the next 5 days. Let me know if you’d like a forecast within that range!",
      "Unfortunately, I can’t predict the weather beyond 5 days. However, I can give you an accurate forecast for the next 5 days if you’d like!",
      "I can only provide forecasts for up to 5 days ahead. If you need weather details within that timeframe, just let me know!",
      "I’m sorry, but my forecast limit is 5 days ahead. Would you like the weather for any day within that range?"
    ]

  const MissingCityReplies: seq<string> := [
      "Which city do you want the weather for? 🌍",
      "Tell me a city, and I'll fetch the forecast! ☀️🌧",
      "Where should I check the weather for? 🏙️",
      "Which location are you curious about? 🌎",
      "Enter a city name, and I'll do the rest! ⛅",
      "Where are we checking the weather today? 📍",
      "Tell me your city, and I'll bring the latest forecast! 🌦",
      "Which city’s weather would you like to see? 🌤️",
      "Just type a city, and I'll get the forecast! 🌍",
      "Tell me a city, and I’ll bring you the latest weather! ☀️",
      "Drop a city name, and I’ll fetch the forecast! 🌦",
      "Type a location, and I'll show you the weather! 📍",
      "Give me a city, and I'll handle the rest! 🌎",
      "Share a city name, and I'll pull up the weather! 🌤",
      "Let me know a city, and I’ll check the forecast! 🌧"
    ]

  const ErrorReplies: seq<string> := [
      "I'm sorry, I couldn't fetch the weather. Can you please try again?",
      "Oops! Something went wrong while fetching the weather. Let's try again.",
      "I'm having trouble fetching the weather. Can you please try again?",
      "I can't seem to get the weather right now. Let's try again.",
      "There was an error while fetching the weather. Can you try again?",
      "I'm sorry, I couldn't get the weather. Let's try again.",
      "There was a problem while fetching the weather. Can you try again?",
      "I'm having trouble fetching the weather. Can you please try again?"
    ]

  /** `handle_past_date`: one of its fixed replies, in both fields. */
  function HandlePastDate(pick: nat): (r: Reply<string>)
    ensures r.fulfillmentText == r.displayText && r.fulfillmentText in PastDateReplies
  {
    var t := Choice(PastDateReplies, pick);
    Reply(t, t)
  }

  /** `handle_future_date`: one of its fixed replies, in both fields. */
  function HandleFutureDate(pick: nat): (r: Reply<string>)
    ensures r.fulfillmentText == r.displayText && r.fulfillmentText in FutureDateReplies
  {
    var t := Choice(FutureDateReplies, pick);
    Reply(t, t)
  }

  /** `handle_missing_city`: one of its fixed replies, in both fields. */
  function HandleMissingCity(pick: nat): (r: Reply<string>)
    ensures r.fulfillmentText == r.displayText && r.fulfillmentText in MissingCityReplies
  {
    var t := Choice(MissingCityReplies, pick);
    Reply(t, t)
  }

  /** `handle_error`: one of its fixed replies, in both fields. */
  function HandleError(pick: nat): (r: Reply<string>)
    ensures r.fulfillmentText == r.displayText && r.fulfillmentText in ErrorReplies
  {
    var t := Choice(ErrorReplies, pick);
    Reply(t, t)
  }

  /** Every reply of every pool can be the one given. */
  lemma FallbacksReachEveryReply(t: string)
    ensures t in PastDateReplies ==> exists pick: nat :: HandlePastDate(pick).fulfillmentText == t
    ensures t in FutureDateReplies ==> exists pick: nat :: HandleFutureDate(pick).fulfillmentText == t
    ensures t in MissingCityReplies ==> exists pick: nat :: HandleMissingCity(pick).fulfillmentText == t
    ensures t in ErrorReplies ==> exists pick: nat :: HandleError(pick).fulfillmentText == t
  {
    if t in PastDateReplies {
      ChoiceReachesAll(PastDateReplies, t);
      var pick: nat :| Choice(PastDateReplies, pick) == t;
      assert HandlePastDate(pick).fulfillmentText == t;
    }
    if t in FutureDateReplies {
      ChoiceReachesAll(FutureDateReplies, t);
      var pick: nat :| Choice(FutureDateReplies, pick) == t;
      assert HandleFutureDate(pick).fulfillmentText == t;
    }
    if t in MissingCityReplies {
      ChoiceReachesAll(MissingCityReplies, t);
      var pick: nat :| Choice(MissingCityReplies, pick) == t;
      assert HandleMissingCity(pick).fulfillmentText == t;
    }
    if t in ErrorReplies {
      ChoiceReachesAll(ErrorReplies, t);
      var pick: nat :| Choice(ErrorReplies, pick) == t;
      assert HandleError(pick).fulfillmentText == t;
    }
  }

  /** The replies the four fallbacks give on one call: each handler draws its
      own with `random.choice`, and the draws are an input of the model. */
  datatype Draws = Draws(pastDate: Reply<string>, futureDate: Reply<string>,
                         missingCity: Reply<string>, error: Reply<string>)

  /** Each drawn reply is one its handler can give. */
  predicate Drawn(d: Draws)
  {
    && d.pastDate.fulfillmentText == d.pastDate.displayText && d.pastDate.fulfillmentText in PastDateReplies
    && d.futureDate.fulfillmentText == d.futureDate.displayText && d.futureDate.fulfillmentText in FutureDateReplies
    && d.missingCity.fulfillmentText == d.missingCity.displayText && d.missingCity.fulfillmentText in MissingCityReplies
    && d.error.fulfillmentText == d.error.displayText && d.error.fulfillmentText in ErrorReplies
  }

  /** The four handlers' replies for one draw index. */
  function Draw(pick: nat): (d: Draws)
    ensures Drawn(d)
  {
    Draws(HandlePastDate(pick), HandleFutureDate(pick), HandleMissingCity(pick), HandleError(pick))
  }

  /** `Drawn` holds of exactly the replies the handlers can give. */
  lemma DrawnIsHandlerReplies(d: Draws)
    requires Drawn(d)
    ensures exists p: nat :: d.pastDate == HandlePastDate(p)
    ensures exists p: nat :: d.futureDate == HandleFutureDate(p)
    ensures exists p: nat :: d.missingCity == HandleMissingCity(p)
    ensures exists p: nat :: d.error == HandleError(p)
  {
    ChoiceReachesAll(PastDateReplies, d.pastDate.fulfillmentText);
    var p1: nat :| Choice(PastDateReplies, p1) == d.pastDate.fulfillmentText;
    assert d.pastDate == HandlePastDate(p1);
    ChoiceReachesAll(FutureDateReplies, d.futureDate.fulfillmentText);
    var p2: nat :| Choice(FutureDateReplies, p2) == d.futureDate.fulfillmentText;
    assert d.futureDate == HandleFutureDate(p2);
    ChoiceReachesAll(MissingCityReplies, d.missingCity.fulfillmentText);
    var p3: nat :| Choice(MissingCityReplies, p3) == d.missingCity.fulfillmentText;
    assert d.missingCity == HandleMissingCity(p3);
    ChoiceReachesAll(ErrorReplies, d.error.fulfillmentText);
    var p4: nat :| Choice(ErrorReplies, p4) == d.error.fulfillmentText;
    assert d.error == HandleError(p4);
  }

  /** The error pool lists one reply twice, so that reply is drawn twice as often. */
  lemma ErrorPoolHasDuplicate()
    ensures |ErrorReplies| == 8 && ErrorReplies[2] == ErrorReplies[7]
  {
  }

  // ---------------------------------------------------------------- forecast text

  /** One day's block of the forecast text, by the body that wrote it. */
  datatype DaySummary =
    | FullDay(date: Day, weather: string, minTemp: real, maxTemp: real, windSpeed: real)
    | ConditionDay(date: Day, emoji: Option<string>, weather: string)
    | TemperatureDay(date: Day, minTemp: real, maxTemp: real)
    | WindDay(date: Day, minWind: real, maxWind: real)

  /** The forecast text: the `📍{city}:` header and the day blocks in order. */
  datatype Report = Report(city: string, days: seq<DaySummary>)

  /** Which of the four bodies writes the days; the condition body carries the
      keywords it walks (`None` when the condition cannot be walked). */
  datatype Branch =
    | FullBranch
    | ConditionBranch(keywords: Option<seq<string>>)
    | TemperatureBranch
    | WindBranch

  /** The full block of day `date` with slots `es`. `None` when `strptime`
      rejects the day or the day has no slot (`most_common(1)[0]` raises). */
  function FullSummary(date: string, es: seq<Entry>): (r: Option<DaySummary>)
    ensures r.Some? <==> ParseDate(date).Some? && |es| > 0
    ensures r.Some? ==> r.value.FullDay? && r.value.date == ParseDate(date).value
  {
    if ParseDate(date).None? || |es| == 0 then None
    else Some(FullDay(ParseDate(date).value, Mode(Titles(es)), Min(Temps(es)), Max(Temps(es)), Mode(Winds(es))))
  }

  /** The full block holds the most frequent title-cased description, the lowest
      and highest temperature (both taken by the day) and the most frequent wind
      speed. */
  lemma FullSummaryFigures(date: string, es: seq<Entry>)
    requires FullSummary(date, es).Some?
    ensures var d := FullSummary(date, es).value;
      && IsMode(Titles(es), d.weather)
      && d.minTemp in Temps(es) && d.maxTemp in Temps(es)
      && (forall t | t in Temps(es) :: d.minTemp <= t <= d.maxTemp)
      && IsMode(Winds(es), d.windSpeed)
  {
    ModeIsMode(Titles(es));
    ModeIsMode(Winds(es));
  }

  /** The condition block of day `date`, given the `records` listed so far.
      `None` when `strptime` rejects the day or there is no record. */
  function ConditionSummary(date: string, ks: seq<string>, records: seq<string>): (r: Option<DaySummary>)
    ensures r.Some? <==> ParseDate(date).Some? && |records| > 0
    ensures r.Some? ==>
      && r.value.ConditionDay? && r.value.date == ParseDate(date).value
      && r.value.emoji == FindWeatherAttribute(ks)
  {
    if ParseDate(date).None? || |records| == 0 then None
    else Some(ConditionDay(ParseDate(date).value, FindWeatherAttribute(ks), Mode(records)))
  }

  /** The condition block reports the most frequent record, the first seen
      among equals. */
  lemma ConditionSummaryFigures(date: string, ks: seq<string>, records: seq<string>)
    requires ConditionSummary(date, ks, records).Some?
    ensures IsMode(records, ConditionSummary(date, ks, records).value.weather)
  {
    ModeIsMode(records);
  }

  /** The temperature block of day `date`: the lowest and highest temperature of
      its slots. `None` when `strptime` rejects the day or `min` meets no slot. */
  function TemperatureSummary(date: string, es: seq<Entry>): (r: Option<DaySummary>)
    ensures r.Some? <==> ParseDate(date).Some? && |es| > 0
    ensures r.Some? ==>
      && r.value.TemperatureDay? && r.value.date == ParseDate(date).value
      && r.value.minTemp in Temps(es) && r.value.maxTemp in Temps(es)
      && (forall t | t in Temps(es) :: r.value.minTemp <= t <= r.value.maxTemp)
  {
    if ParseDate(date).None? || |es| == 0 then None
    else Some(TemperatureDay(ParseDate(date).value, Min(Temps(es)), Max(Temps(es))))
  }

  /** The wind block of day `date`: the lowest and highest wind speed of its
      slots. `None` when `strptime` rejects the day or `min` meets no slot. */
  function WindSummary(date: string, es: seq<Entry>): (r: Option<DaySummary>)
    ensures r.Some? <==> ParseDate(date).Some? && |es| > 0
    ensures r.Some? ==>
      && r.value.WindDay? && r.value.date == ParseDate(date).value
      && r.value.minWind in Winds(es) && r.value.maxWind in Winds(es)
      && (forall w | w in Winds(es) :: r.value.minWind <= w <= r.value.maxWind)
  {
    if ParseDate(date).None? || |es| == 0 then None
    else Some(WindDay(ParseDate(date).value, Min(Winds(es)), Max(Winds(es))))
  }

  /** The block `__forecast_body` writes for the `i`-th selected day. */
  function FullDays(ds: seq<string>, buckets: map<string, seq<Entry>>): int -> Option<DaySummary>
  {
    i => if 0 <= i < |ds| then FullSummary(ds[i], Lookup(buckets, ds[i])) else None
  }

  /** The block `__forecast_body_condition` writes for the `i`-th selected day:
      the list it counts holds the records of every day up to this one. A
      condition that cannot be walked raises on the first day. */
  function ConditionDays(ds: seq<string>, buckets: map<string, seq<Entry>>, keywords: Option<seq<string>>): int -> Option<DaySummary>
  {
    i => if 0 <= i < |ds| && keywords.Some?
         then ConditionSummary(ds[i], keywords.value, RecordsThrough(ds, buckets, keywords.value, i + 1))
         else None
  }

  /** The block `__forecast_body_temperature` writes for the `i`-th selected day. */
  function TemperatureDays(ds: seq<string>, buckets: map<string, seq<Entry>>): int -> Option<DaySummary>
  {
    i => if 0 <= i < |ds| then TemperatureSummary(ds[i], Lookup(buckets, ds[i])) else None
  }

  /** The block `__forecast_body_wind_speed` writes for the `i`-th selected day. */
  function WindDays(ds: seq<string>, buckets: map<string, seq<Entry>>): int -> Option<DaySummary>
  {
    i => if 0 <= i < |ds| then WindSummary(ds[i], Lookup(buckets, ds[i])) else None
  }

  /** The blocks of the chosen body, day by day. */
  function DayBlocks(branch: Branch, ds: seq<string>, buckets: map<string, seq<Entry>>): int -> Option<DaySummary>
  {
    match branch
    case FullBranch => FullDays(ds, buckets)
    case ConditionBranch(keywords) => ConditionDays(ds, buckets, keywords)
    case TemperatureBranch => TemperatureDays(ds, buckets)
    case WindBranch => WindDays(ds, buckets)
  }

  /** What a body yields for the days `ds`: one block per day in order, or
      `None` when some day raises. */
  function Body(branch: Branch, ds: seq<string>, buckets: map<string, seq<Entry>>): Option<seq<DaySummary>>
  {
    Collect(DayBlocks(branch, ds, buckets), |ds|)
  }

  /** A body raises exactly when one of its days raises; otherwise it holds the
      block of every selected day, in the order of the days. */
  lemma BodyDays(branch: Branch, ds: seq<string>, buckets: map<string, seq<Entry>>)
    ensures Body(branch, ds, buckets).None? <==> exists i | 0 <= i < |ds| :: DayBlocks(branch, ds, buckets)(i).None?
    ensures Body(branch, ds, buckets).Some? ==>
      |Body(branch, ds, buckets).value| == |ds| &&
      forall i | 0 <= i < |ds| :: DayBlocks(branch, ds, buckets)(i) == Some(Body(branch, ds, buckets).value[i])
  {
    CollectDays(DayBlocks(branch, ds, buckets), |ds|);
  }

  /** `__forecast_body`: for each selected day the most frequent description,
      the temperature range and the most frequent wind speed. */
  method ForecastBody(selected: seq<string>, buckets: map<string, seq<Entry>>) returns (r: Option<seq<DaySummary>>)
    ensures r == Collect(FullDays(selected, buckets), |selected|)
  {
    r := DayLoop(FullDays(selected, buckets), |selected|);
  }

  /** The walk of one day's slots in `__forecast_body_condition`: for each slot
      and each keyword, one record appended to `common_weather`. */
  method AppendRecords(commonWeather: seq<string>, daily: seq<Entry>, ks: seq<string>) returns (r: seq<string>)
    ensures r == commonWeather + Records(daily, ks, |daily|)
  {
    r := commonWeather;
    for e := 0 to |daily|
      invariant r == commonWeather + Records(daily, ks, e)
    {
      var description := daily[e].description;
      ghost var records := EntryRecords(description, ks);
      for k := 0 to |ks|
        invariant r == commonWeather + Records(daily, ks, e) + records[..k]
      {
        if IsSubstring(ks[k], Lower(description)) {
          r := r + [Title(description)];
        } else {
          r := r + ["No " + ks[k]];
        }
        assert records[..k + 1] == records[..k] + [records[k]];
      }
      assert records[..|ks|] == records;
    }
  }

  /** The days of the loop of `__forecast_body_condition` for the keywords
      `ks`: day `i` writes `block(ds[i], records)`, where `records` is the
      shared list holding the records of every day up to this one. */
  function SharedDays<T>(ds: seq<string>, buckets: map<string, seq<Entry>>, ks: seq<string>,
                         block: (string, seq<string>) -> Option<T>): int -> Option<T>
  {
    i => if 0 <= i < |ds| then block(ds[i], RecordsThrough(ds, buckets, ks, i + 1)) else None
  }

  /** The loop of `__forecast_body_condition`: `common_weather` is created
      once, before the day loop, and each day appends its records to it before
      its block is written. */
  method SharedLoop<T>(selected: seq<string>, buckets: map<string, seq<Entry>>, ks: seq<string>,
                       block: (string, seq<string>) -> Option<T>) returns (r: Option<seq<T>>)
    ensures r == Collect(SharedDays(selected, buckets, ks, block), |selected|)
  {
    ghost var day := SharedDays(selected, buckets, ks, block);
    var forecast: seq<T> := [];
    var commonWeather: seq<string> := [];
    for i := 0 to |selected|
      invariant Collect(day, i) == Some(forecast)
      invariant commonWeather == RecordsThrough(selected, buckets, ks, i)
    {
      commonWeather := AppendRecords(commonWeather, Lookup(buckets, selected[i]), ks);
      var b := block(selected[i], commonWeather);
      if b.None? {
        CollectStops(day, i, |selected|);
        return None;
      }
      forecast := forecast + [b.value];
    }
    return Some(forecast);
  }

  /** The condition block of the keywords `ks`, as a block writer. */
  function ConditionWriter(ks: seq<string>): (string, seq<string>) -> Option<DaySummary>
  {
    (date, records) => ConditionSummary(date, ks, records)
  }

  /** `__forecast_body_condition`, given what `for i in condition` walks
      (`Keywords(condition)`): each day reports the mode of the records of all
      the days so far; a condition that cannot be walked raises on the first
      day. */
  method ForecastBodyCondition(selected: seq<string>, buckets: map<string, seq<Entry>>, keywords: Option<seq<string>>)
    returns (r: Option<seq<DaySummary>>)
    ensures r == Collect(ConditionDays(selected, buckets, keywords), |selected|)
  {
    if keywords.None? {
      if |selected| == 0 {
        return Some([]);
      }
      CollectStops(ConditionDays(selected, buckets, keywords), 0, |selected|);
      return None;
    }
    r := SharedLoop(selected, buckets, keywords.value, ConditionWriter(keywords.value));
    CollectSame(SharedDays(selected, buckets, keywords.value, ConditionWriter(keywords.value)),
                ConditionDays(selected, buckets, keywords), |selected|);
  }

  /** `__forecast_body_temperature`: the lowest and highest temperature of each
      selected day. */
  method ForecastBodyTemperature(selected: seq<string>, buckets: map<string, seq<Entry>>) returns (r: Option<seq<DaySummary>>)
    ensures r == Collect(TemperatureDays(selected, buckets), |selected|)
  {
    r := DayLoop(TemperatureDays(selected, buckets), |selected|);
  }

  /** `__forecast_body_wind_speed`: the lowest and highest wind speed of each
      selected day. */
  method ForecastBodyWindSpeed(selected: seq<string>, buckets: map<string, seq<Entry>>) returns (r: Option<seq<DaySummary>>)
    ensures r == Collect(WindDays(selected, buckets), |selected|)
  {
    r := DayLoop(WindDays(selected, buckets), |selected|);
  }

  /** The body `__forecast_formatter` picks: condition, then temperature, then
      wind speed, then the full forecast. */
  function ChosenBranch(condition: Val, temperature: Val, windSpeed: Val): Branch
  {
    if Truthy(condition) then ConditionBranch(Keywords(condition))
    else if Truthy(temperature) then TemperatureBranch
    else if Truthy(windSpeed) then WindBranch
    else FullBranch
  }

  /** The text `__forecast_formatter` returns: the city header and one body. */
  function Formatted(selected: seq<string>, data: ForecastData, buckets: map<string, seq<Entry>>,
                     condition: Val, temperature: Val, windSpeed: Val): (r: Option<Report>)
  {
    match Body(ChosenBranch(condition, temperature, windSpeed), selected, buckets)
    case None => None
    case Some(days) => Some(Report(data.cityName, days))
  }

  /** `d` is a block of the kind the body of `branch` writes. */
  predicate Writes(branch: Branch, d: DaySummary)
  {
    match branch
    case FullBranch => d.FullDay?
    case ConditionBranch(_) => d.ConditionDay?
    case TemperatureBranch => d.TemperatureDay?
    case WindBranch => d.WindDay?
  }

  /** Each body writes blocks of its own kind. */
  lemma BlockKind(branch: Branch, ds: seq<string>, buckets: map<string, seq<Entry>>, i: int)
    requires DayBlocks(branch, ds, buckets)(i).Some?
    ensures Writes(branch, DayBlocks(branch, ds, buckets)(i).value)
  {
  }

  /** A body that does not raise holds one block per selected day, all of the
      body's own kind. */
  lemma BodyKind(branch: Branch, ds: seq<string>, buckets: map<string, seq<Entry>>)
    requires Body(branch, ds, buckets).Some?
    ensures |Body(branch, ds, buckets).value| == |ds|
    ensures forall d | d in Body(branch, ds, buckets).value :: Writes(branch, d)
  {
    var days := Body(branch, ds, buckets).value;
    BodyDays(branch, ds, buckets);
    forall d | d in days ensures Writes(branch, d) {
      var i :| 0 <= i < |days| && days[i] == d;
      BlockKind(branch, ds, buckets, i);
    }
  }

  /** Exactly one body follows the header, chosen in the order condition,
      temperature, wind speed, full, with one block per selected day. */
  lemma FormatterPriority(selected: seq<string>, data: ForecastData, buckets: map<string, seq<Entry>>,
                          condition: Val, temperature: Val, windSpeed: Val)
    requires Formatted(selected, data, buckets, condition, temperature, windSpeed).Some?
    ensures var rep := Formatted(selected, data, buckets, condition, temperature, windSpeed).value;
      && rep.city == data.cityName
      && |rep.days| == |selected|
      && (Truthy(condition) ==> forall d | d in rep.days :: d.ConditionDay?)
      && (!Truthy(condition) && Truthy(temperature) ==> forall d | d in rep.days :: d.TemperatureDay?)
      && (!Truthy(condition) && !Truthy(temperature) && Truthy(windSpeed) ==> forall d | d in rep.days :: d.WindDay?)
      && (!Truthy(condition) && !Truthy(temperature) && !Truthy(windSpeed) ==> forall d | d in rep.days :: d.FullDay?)
  {
    BodyKind(ChosenBranch(condition, temperature, windSpeed), selected, buckets);
  }

  /** The call of the chosen body. */
  method ChosenBody(branch: Branch, selected: seq<string>, buckets: map<string, seq<Entry>>) returns (r: Option<seq<DaySummary>>)
    ensures r == Body(branch, selected, buckets)
  {
    match branch
    case ConditionBranch(keywords) => r := ForecastBodyCondition(selected, buckets, keywords);
    case TemperatureBranch => r := ForecastBodyTemperature(selected, buckets);
    case WindBranch => r := ForecastBodyWindSpeed(selected, buckets);
    case FullBranch => r := ForecastBody(selected, buckets);
  }

  /** `__forecast_formatter`: the `if`/`elif` chain is `ChosenBranch`. */
  method ForecastFormatter(selected: seq<string>, data: ForecastData, buckets: map<string, seq<Entry>>,
                           condition: Val, temperature: Val, windSpeed: Val) returns (r: Option<Report>)
    ensures r == Formatted(selected, data, buckets, condition, temperature, windSpeed)
  {
    var body := ChosenBody(ChosenBranch(condition, temperature, windSpeed), selected, buckets);
    r := if body.None? then None else Some(Report(data.cityName, body.value));
  }

  /** What `format_forecast_output` returns for the filters, the checked date
      pair (`None` when the value handed over is not a pair of dates, so that
      `time[0]` raises) and the provider's data; `None` when it raises. */
  function ForecastOutput(condition: Val, temperature: Val, windSpeed: Val, time: Option<(Day, Day)>, data: ForecastData): (r: Option<Report>)
  {
    match Group(data.entries)
    case None => None
    case Some(g) =>
      match time
      case None => None
      case Some(t) => Formatted(Selection(t.0, t.1, Candidates(g.keys)), data, g.buckets, condition, temperature, windSpeed)
  }

  /** `format_forecast_output`: group, keep six days, select, format. */
  method FormatForecastOutput(condition: Val, temperature: Val, windSpeed: Val, time: Option<(Day, Day)>, data: ForecastData)
    returns (r: Option<Report>)
    ensures r == ForecastOutput(condition, temperature, windSpeed, time, data)
  {
    var grouping := GroupByDate(data.entries);
    if grouping.None? {
      return None;
    }
    var candidates := Candidates(grouping.value.keys);
    if time.None? {
      return None;
    }
    var selected := SelectDates(time.value.0, time.value.1, candidates);
    r := ForecastFormatter(selected, data, grouping.value.buckets, condition, temperature, windSpeed);
  }
}

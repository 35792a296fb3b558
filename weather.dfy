/** The request handling of `weather_condition/weather.py`: a webhook request is
    read field by field into a `Weather` object, the city and the date are
    looked up (in the current parameters, else in the first output context),
    the date range is checked, and either a fallback reply or the forecast is
    returned. The forecast provider is the parameter `fetch`, and the replies
    the fallbacks draw on this call are the parameter `draws`. */
module WeatherService {
  import opened Values
  import opened Calendar
  import opened Forecast
  import Dialog
  import opened DateHandling

  /** The provider's forecast for a city; `None` when the request, its decoding
      or the reading of its fields raises. */
  type Provider = Val -> Option<ForecastData>

  /** The formatter `__fetch_weather` hands the data to, with the filters and
      the checked dates; the service object uses `format_forecast_output` of
      `weather_condition/dialog.py` (`Dialog.ForecastOutput`), and the facts
      below hold for any formatter. */
  type Formatter = (Val, Val, Val, Option<(Day, Day)>, ForecastData) -> Option<Dialog.Report>

  /** A formatter that raises without a pair of dates: `time[0]` on anything
      but the checked pair fails before any text is produced. */
  ghost predicate NeedsDates(format: Formatter)
  {
    forall condition, temperature, windSpeed, data :: format(condition, temperature, windSpeed, None, data).None?
  }

  /** The formatter of `weather_condition/dialog.py` needs the dates. */
  lemma ForecastOutputNeedsDates()
    ensures NeedsDates(Dialog.ForecastOutput)
  {
  }

  /** What `__fetch_weather` hands back: the forecast, or the missing-city reply
      when it is given no city. */
  datatype Speech = Spoken(report: Dialog.Report) | Relayed(reply: Reply<string>)

  /** What `process_request` returns: a fallback reply, or `{"fulfillmentText":
      speech, "displayText": speech}`. */
  datatype Response = Fallback(reply: Reply<string>) | Answer(speech: Reply<Speech>)

  /** A response, and whether the provider was asked for a forecast. */
  datatype Handled = Handled(response: Response, fetched: bool)

  // ---------------------------------------------------------------- reading the request

  /** The two dicts the request must carry: `queryResult` and its `parameters`. */
  datatype Query = Query(result: map<string, Val>, parameters: map<string, Val>)

  /** The field reads at the top of `process_request`; `None` when a `.get`
      lands on something that is not a dict (AttributeError). */
  function Intake(request: Val): (r: Option<Query>)
    ensures r.Some? ==> request.Dict? && Get(request.entries, "queryResult") == Dict(r.value.result)
    ensures r.Some? ==> Get(r.value.result, "parameters") == Dict(r.value.parameters)
  {
    if !request.Dict? then None
    else
      var result := Get(request.entries, "queryResult");
      if !result.Dict? then None
      else
        var parameters := Get(result.entries, "parameters");
        if !parameters.Dict? then None
        else Some(Query(result.entries, parameters.entries))
  }

  /** `result.get("outputContexts", [])[0].get("parameters", {}).get(key, [])`;
      `None` when a step raises. */
  function ContextValue(result: map<string, Val>, key: string): (r: Option<Val>)
    ensures r.Some? <==>
      && Index0(GetOr(result, "outputContexts", List([]))).Some?
      && Index0(GetOr(result, "outputContexts", List([]))).value.Dict?
      && GetOr(Index0(GetOr(result, "outputContexts", List([]))).value.entries, "parameters", Dict(map[])).Dict?
  {
    match Index0(GetOr(result, "outputContexts", List([])))
    case None => None
    case Some(first) =>
      if !first.Dict? then None
      else
        var ps := GetOr(first.entries, "parameters", Dict(map[]));
        if !ps.Dict? then None else Some(GetOr(ps.entries, key, List([])))
  }

  /** The value under `key`: the current parameter when truthy, else the one
      in the first output context. */
  function Lookup(parameters: map<string, Val>, result: map<string, Val>, key: string): (r: Option<Val>)
    ensures Truthy(Get(parameters, key)) ==> r == Some(Get(parameters, key))
    ensures !Truthy(Get(parameters, key)) ==> r == ContextValue(result, key)
  {
    var v := Get(parameters, key);
    if Truthy(v) then Some(v) else ContextValue(result, key)
  }

  /** `__get_city`: element 0 of the value found, or None when any step raises. */
  function GetCity(parameters: map<string, Val>, result: map<string, Val>): (r: Val)
    ensures var v := Lookup(parameters, result, "geo-city");
      r == if v.Some? && Index0(v.value).Some? then Index0(v.value).value else Null
  {
    match Lookup(parameters, result, "geo-city")
    case None => Null
    case Some(city) =>
      match Index0(city)
      case None => Null
      case Some(first) => first
  }

  /** `__get_date` as written: the whole value found, but only when `time[0]`
      (written for the log line) does not raise; None otherwise. */
  function GetDate(parameters: map<string, Val>, result: map<string, Val>): (r: Val)
    ensures var v := Lookup(parameters, result, "date-time");
      r == if v.Some? && Index0(v.value).Some? then v.value else Null
  {
    match Lookup(parameters, result, "date-time")
    case None => Null
    case Some(time) => if Index0(time).Some? then time else Null
  }

  /** `__get_date` as evidently intended: the value found, whatever its shape;
      only a failing context lookup gives None. */
  function GetDateCorrected(parameters: map<string, Val>, result: map<string, Val>): (r: Val)
    ensures var v := Lookup(parameters, result, "date-time");
      r == if v.Some? then v.value else Null
  {
    match Lookup(parameters, result, "date-time")
    case None => Null
    case Some(time) => time
  }

  // ---------------------------------------------------------------- dispatch

  /** Where the outcome of the date check leads: a reply given at once, or the
      forecast step with the value it hands over (`None` when that value is
      not a pair of days). */
  datatype Route = Answered(reply: Reply<string>) | Proceed(time: Option<(Day, Day)>)

  /** The tests after `check_date_range` as written. `time is True` and `time is
      False` catch the two flags; `time is str` compares the outcome with the
      class `str` itself, which no outcome is, so an error reply goes on to the
      forecast step. An escaping exception is the handler of the enclosing
      `try`. */
  function RouteAsWritten(outcome: DateCheck, draws: Dialog.Draws): Route
  {
    match outcome
    case Past => Answered(draws.pastDate)
    case Future => Answered(draws.futureDate)
    case Raised => Answered(draws.error)
    case Range(start, end) => Proceed(Some((start, end)))
    case ErrorReply(_) => Proceed(None)
  }

  /** The tests as evidently intended: an error reply is returned as it is. */
  function RouteCorrected(outcome: DateCheck, draws: Dialog.Draws): Route
  {
    match outcome
    case ErrorReply(reply) => Answered(reply)
    case _ => RouteAsWritten(outcome, draws)
  }

  /** Only a pair of days reaches the forecast step once the error reply is
      returned directly; as written, an error reply reaches it too. */
  lemma RoutesToForecast(outcome: DateCheck, draws: Dialog.Draws)
    ensures RouteCorrected(outcome, draws).Proceed? <==> outcome.Range?
    ensures RouteAsWritten(outcome, draws).Proceed? <==> outcome.Range? || outcome.ErrorReply?
    ensures outcome.ErrorReply? ==> RouteCorrected(outcome, draws) == Answered(outcome.reply)
    ensures !outcome.ErrorReply? ==> RouteCorrected(outcome, draws) == RouteAsWritten(outcome, draws)
  {
  }

  /** `__fetch_weather`: the missing-city reply without a city; otherwise the
      provider's data formatted by `format_forecast_output` with the filters;
      `None` when either step raises. */
  function FetchWeather(city: Val, condition: Val, temperature: Val, windSpeed: Val,
                        time: Option<(Day, Day)>, fetch: Provider, format: Formatter, draws: Dialog.Draws): (r: Option<Speech>)
    ensures !Truthy(city) ==> r == Some(Relayed(draws.missingCity))
    ensures Truthy(city) && r.Some? ==>
      && r.value.Spoken? && fetch(city).Some?
      && format(condition, temperature, windSpeed, time, fetch(city).value) == Some(r.value.report)
  {
    if !Truthy(city) then Some(Relayed(draws.missingCity))
    else
      match fetch(city)
      case None => None
      case Some(data) =>
        match format(condition, temperature, windSpeed, time, data)
        case None => None
        case Some(report) => Some(Spoken(report))
  }

  /** The forecast step of `process_request` once a route is known. */
  function Deliver(city: Val, condition: Val, temperature: Val, windSpeed: Val, route: Route, fetch: Provider, format: Formatter, draws: Dialog.Draws): Handled
  {
    match route
    case Answered(reply) => Handled(Fallback(reply), false)
    case Proceed(time) =>
      var speech := FetchWeather(city, condition, temperature, windSpeed, time, fetch, format, draws);
      var response := if speech.None? then Fallback(draws.error) else Answer(Reply(speech.value, speech.value));
      Handled(response, Truthy(city))
  }

  /** `process_request` as written. */
  function Respond(request: Val, today: Day, parse: Parser, fetch: Provider, format: Formatter, draws: Dialog.Draws): Handled
  {
    match Intake(request)
    case None => Handled(Fallback(draws.error), false)
    case Some(q) =>
      var city := GetCity(q.parameters, q.result);
      if !Truthy(city) then Handled(Fallback(draws.missingCity), false)
      else
        var outcome := Check(GetDate(q.parameters, q.result), today, parse, draws.error);
        Deliver(city, Get(q.parameters, "weather-condition"), Get(q.parameters, "temperature"),
                Get(q.parameters, "wind-speed"), RouteAsWritten(outcome, draws), fetch, format, draws)
  }

  /** `process_request` with both corrections: the date value is kept whatever
      its shape, and an error reply from the date check is returned at once. */
  function RespondCorrected(request: Val, today: Day, parse: Parser, fetch: Provider, format: Formatter, draws: Dialog.Draws): Handled
  {
    match Intake(request)
    case None => Handled(Fallback(draws.error), false)
    case Some(q) =>
      var city := GetCity(q.parameters, q.result);
      if !Truthy(city) then Handled(Fallback(draws.missingCity), false)
      else
        var outcome := Check(GetDateCorrected(q.parameters, q.result), today, parse, draws.error);
        Deliver(city, Get(q.parameters, "weather-condition"), Get(q.parameters, "temperature"),
                Get(q.parameters, "wind-speed"), RouteCorrected(outcome, draws), fetch, format, draws)
  }

  // ---------------------------------------------------------------- properties

  /** A list of cities in the current parameters gives its first one. */
  lemma CityFromParameters(parameters: map<string, Val>, result: map<string, Val>, city: Val, more: seq<Val>)
    requires Get(parameters, "geo-city") == List([city] + more)
    ensures GetCity(parameters, result) == city
  {
  }

  /** A plain string city keeps only its first character: `city[0]` indexes
      the string. */
  lemma StringCityFirstCharacter(parameters: map<string, Val>, result: map<string, Val>, s: string)
    requires Get(parameters, "geo-city") == Str(s) && |s| > 0
    ensures GetCity(parameters, result) == Str([s[0]])
  {
  }

  /** With no usable current value, the value comes from the parameters of the
      first output context, `[]` when that context lacks the key. */
  lemma ValueFromContext(parameters: map<string, Val>, result: map<string, Val>, key: string,
                         context: map<string, Val>, rest: seq<Val>, ps: map<string, Val>)
    requires !Truthy(Get(parameters, key))
    requires Get(result, "outputContexts") == List([Dict(context)] + rest)
    requires Get(context, "parameters") == Dict(ps)
    ensures Lookup(parameters, result, key) == Some(GetOr(ps, key, List([])))
  {
  }

  /** With no usable current value and no output context, both lookups raise
      inside their `try`, so there is neither a city nor a date. */
  lemma NoContextNoValue(parameters: map<string, Val>, result: map<string, Val>)
    requires !Truthy(Get(parameters, "geo-city")) && !Truthy(Get(parameters, "date-time"))
    requires !Truthy(GetOr(result, "outputContexts", List([])))
    ensures GetCity(parameters, result) == Null && GetDate(parameters, result) == Null
  {
  }

  /** A string or a non-empty list of dates is handed on whole. */
  lemma DateKeptWhole(parameters: map<string, Val>, result: map<string, Val>)
    requires var v := Get(parameters, "date-time"); (v.Str? || v.List?) && Truthy(v)
    ensures GetDate(parameters, result) == Get(parameters, "date-time")
  {
  }

  /** As written, a dict date in the current parameters is dropped: `time[0]`
      raises on a dict, so the check sees None and asks for today alone,
      whatever range the dict names. */
  lemma DictDateBecomesToday(parameters: map<string, Val>, result: map<string, Val>, m: map<string, Val>,
                             today: Day, parse: Parser, error: Reply<string>)
    requires Get(parameters, "date-time") == Dict(m) && |m| > 0
    requires parse(Format(today)) == Parsed(today) && Representable(MaxEnd(today))
    ensures GetDate(parameters, result) == Null
    ensures Check(GetDate(parameters, result), today, parse, error) == Range(today, today)
  {
    DefaultIsToday(Null, today, parse, error);
  }

  /** Corrected, the dict date reaches the dict branch of the date check. */
  lemma DictDateHonoured(parameters: map<string, Val>, result: map<string, Val>, m: map<string, Val>, today: Day)
    requires Get(parameters, "date-time") == Dict(m) && |m| > 0
    ensures GetDateCorrected(parameters, result) == Dict(m)
    ensures Resolve(GetDateCorrected(parameters, result), today) == DictDates(m)
  {
  }

  /** A missing city is answered before the date is read: the reply does not
      depend on the clock, the date reader or the provider. */
  lemma MissingCityFirst(request: Val, today: Day, parse: Parser, fetch: Provider, format: Formatter, draws: Dialog.Draws,
                         today': Day, parse': Parser, fetch': Provider, format': Formatter)
    requires Intake(request).Some?
    requires !Truthy(GetCity(Intake(request).value.parameters, Intake(request).value.result))
    ensures Respond(request, today, parse, fetch, format, draws) == Handled(Fallback(draws.missingCity), false)
    ensures Respond(request, today', parse', fetch', format', draws) == Respond(request, today, parse, fetch, format, draws)
  {
  }

  /** `True` gives the past-date reply and `False` the future-date reply,
      without asking the provider. */
  lemma PastAndFutureReplies(request: Val, today: Day, parse: Parser, fetch: Provider, format: Formatter, draws: Dialog.Draws)
    requires Intake(request).Some?
    ensures var q := Intake(request).value;
      var city := GetCity(q.parameters, q.result);
      var outcome := Check(GetDate(q.parameters, q.result), today, parse, draws.error);
      && (Truthy(city) && outcome == Past ==> Respond(request, today, parse, fetch, format, draws) == Handled(Fallback(draws.pastDate), false))
      && (Truthy(city) && outcome == Future ==> Respond(request, today, parse, fetch, format, draws) == Handled(Fallback(draws.futureDate), false))
  {
  }

  /** Stated on the days read: a start before today gives the past-date
      reply; a start not before today with an end after `today + 5` gives the
      future-date reply. */
  lemma ReadDayReplies(request: Val, today: Day, parse: Parser, fetch: Provider, format: Formatter, draws: Dialog.Draws)
    requires Intake(request).Some?
    requires Representable(MaxEnd(today))
    requires var q := Intake(request).value;
      && Truthy(GetCity(q.parameters, q.result))
      && Extract(GetDate(q.parameters, q.result), today, draws.error).Strings?
    requires var q := Intake(request).value;
      var e := Extract(GetDate(q.parameters, q.result), today, draws.error);
      ParseDates(parse, e.start, e.end).Dates?
    ensures var q := Intake(request).value;
      var e := Extract(GetDate(q.parameters, q.result), today, draws.error);
      var p := ParseDates(parse, e.start, e.end);
      && (Before(p.start, today) ==>
            Respond(request, today, parse, fetch, format, draws) == Handled(Fallback(draws.pastDate), false))
      && (!Before(p.start, today) && Before(MaxEnd(today), p.end) ==>
            Respond(request, today, parse, fetch, format, draws) == Handled(Fallback(draws.futureDate), false))
  {
    var q := Intake(request).value;
    ReadDaysClassified(GetDate(q.parameters, q.result), today, parse, draws.error);
    PastAndFutureReplies(request, today, parse, fetch, format, draws);
  }

  /** As written, an error reply from the date check is not returned: the
      provider is asked, and the formatter's `time[0]` on the reply raises, so
      the answer is the error fallback drawn again. */
  lemma ErrorReplyReachesProvider(request: Val, today: Day, parse: Parser, fetch: Provider, format: Formatter, draws: Dialog.Draws)
    requires NeedsDates(format)
    requires Intake(request).Some?
    requires var q := Intake(request).value;
      && Truthy(GetCity(q.parameters, q.result))
      && Check(GetDate(q.parameters, q.result), today, parse, draws.error).ErrorReply?
    ensures Respond(request, today, parse, fetch, format, draws) == Handled(Fallback(draws.error), true)
  {
    var q := Intake(request).value;
    var city := GetCity(q.parameters, q.result);
    var outcome := Check(GetDate(q.parameters, q.result), today, parse, draws.error);
    assert RouteAsWritten(outcome, draws) == Proceed(None);
    DeliverWithoutDates(city, Get(q.parameters, "weather-condition"), Get(q.parameters, "temperature"),
                        Get(q.parameters, "wind-speed"), fetch, format, draws);
  }

  /** Forwarded without dates, a formatter that needs them ends in the error
      fallback, after the provider was asked. */
  lemma DeliverWithoutDates(city: Val, condition: Val, temperature: Val, windSpeed: Val,
                            fetch: Provider, format: Formatter, draws: Dialog.Draws)
    requires NeedsDates(format) && Truthy(city)
    ensures Deliver(city, condition, temperature, windSpeed, Proceed(None), fetch, format, draws)
         == Handled(Fallback(draws.error), true)
  {
    if fetch(city).Some? {
      assert format(condition, temperature, windSpeed, None, fetch(city).value).None?;
    }
  }

  /** Corrected, the date check's error reply is returned as it is and the
      provider is not asked. */
  lemma CorrectedReturnsErrorReply(request: Val, today: Day, parse: Parser, fetch: Provider, format: Formatter, draws: Dialog.Draws)
    requires Intake(request).Some?
    requires var q := Intake(request).value;
      && Truthy(GetCity(q.parameters, q.result))
      && Check(GetDateCorrected(q.parameters, q.result), today, parse, draws.error).ErrorReply?
    ensures var q := Intake(request).value;
      var outcome := Check(GetDateCorrected(q.parameters, q.result), today, parse, draws.error);
      RespondCorrected(request, today, parse, fetch, format, draws) == Handled(Fallback(outcome.reply), false)
  {
  }

  /** Away from both findings the corrected service answers as the written one. */
  lemma CorrectedAgrees(request: Val, today: Day, parse: Parser, fetch: Provider, format: Formatter, draws: Dialog.Draws)
    requires Intake(request).Some?
    requires var q := Intake(request).value;
      && GetDate(q.parameters, q.result) == GetDateCorrected(q.parameters, q.result)
      && !Check(GetDate(q.parameters, q.result), today, parse, draws.error).ErrorReply?
    ensures RespondCorrected(request, today, parse, fetch, format, draws) == Respond(request, today, parse, fetch, format, draws)
  {
    var q := Intake(request).value;
    RoutesToForecast(Check(GetDate(q.parameters, q.result), today, parse, draws.error), draws);
  }

  /** The service never raises: every response is one of the drawn fallback
      replies or the forecast in both fields, and a forecast means the
      provider was asked. */
  lemma ResponseShape(request: Val, today: Day, parse: Parser, fetch: Provider, format: Formatter, draws: Dialog.Draws)
    ensures var h := Respond(request, today, parse, fetch, format, draws);
      && (h.response.Fallback? ==>
            h.response.reply in [draws.pastDate, draws.futureDate, draws.missingCity, draws.error])
      && (h.response.Answer? ==>
            && h.response.speech.fulfillmentText == h.response.speech.displayText
            && h.response.speech.fulfillmentText.Spoken? && h.fetched)
  {
  }

  /** A forecast is answered exactly when the request reads, names a city, asks
      for an in-window pair of days, and the provider's data formats; the report
      is the formatter's, for the filters of the current parameters. */
  lemma AnswerIsFormattedForecast(request: Val, today: Day, parse: Parser, fetch: Provider, format: Formatter, draws: Dialog.Draws)
    requires NeedsDates(format)
    ensures var h := Respond(request, today, parse, fetch, format, draws);
      h.response.Answer? <==>
        && Intake(request).Some?
        && var q := Intake(request).value;
           var city := GetCity(q.parameters, q.result);
           var outcome := Check(GetDate(q.parameters, q.result), today, parse, draws.error);
           && Truthy(city) && outcome.Range? && fetch(city).Some?
           && format(Get(q.parameters, "weather-condition"), Get(q.parameters, "temperature"),
                                    Get(q.parameters, "wind-speed"), Some((outcome.start, outcome.end)),
                                    fetch(city).value).Some?
    ensures var h := Respond(request, today, parse, fetch, format, draws);
      h.response.Answer? ==>
        var q := Intake(request).value;
        var city := GetCity(q.parameters, q.result);
        var outcome := Check(GetDate(q.parameters, q.result), today, parse, draws.error);
        format(Get(q.parameters, "weather-condition"), Get(q.parameters, "temperature"),
                              Get(q.parameters, "wind-speed"), Some((outcome.start, outcome.end)),
                              fetch(city).value) == Some(h.response.speech.fulfillmentText.report)
  {
    if Intake(request).Some? {
      var q := Intake(request).value;
      var city := GetCity(q.parameters, q.result);
      if Truthy(city) {
        var outcome := Check(GetDate(q.parameters, q.result), today, parse, draws.error);
        var route := RouteAsWritten(outcome, draws);
        assert route.Proceed? && route.time.Some? <==> outcome.Range?;
        assert outcome.Range? ==> route.time == Some((outcome.start, outcome.end));
        DeliverAnswer(city, Get(q.parameters, "weather-condition"), Get(q.parameters, "temperature"),
                      Get(q.parameters, "wind-speed"), route, fetch, format, draws);
      }
    }
  }

  /** For a truthy city, forwarding answers exactly when the route carries
      dates and the provider's data formats; the answer is that report. */
  lemma DeliverAnswer(city: Val, condition: Val, temperature: Val, windSpeed: Val, route: Route,
                      fetch: Provider, format: Formatter, draws: Dialog.Draws)
    requires NeedsDates(format) && Truthy(city)
    ensures var h := Deliver(city, condition, temperature, windSpeed, route, fetch, format, draws);
      h.response.Answer? <==>
        && route.Proceed? && route.time.Some? && fetch(city).Some?
        && format(condition, temperature, windSpeed, route.time, fetch(city).value).Some?
    ensures var h := Deliver(city, condition, temperature, windSpeed, route, fetch, format, draws);
      h.response.Answer? ==>
        format(condition, temperature, windSpeed, route.time, fetch(city).value)
          == Some(h.response.speech.fulfillmentText.report)
  {
    if route.Proceed? && route.time.None? && fetch(city).Some? {
      assert format(condition, temperature, windSpeed, None, fetch(city).value).None?;
    }
  }

  // ---------------------------------------------------------------- the object

  /** The service object; `process_request` fills its fields step by step. */
  class Weather {
    var city: Val
    var time: Val
    var condition: Val
    var temperature: Val
    var windSpeed: Val
    var result: Val
    var queryText: Val
    var action: Val
    var parameters: Val
    const dateHandler: DateHandler

    constructor()
      ensures city == Null && time == Null && condition == Null && temperature == Null && windSpeed == Null
      ensures fresh(dateHandler) && dateHandler.time == Null
    {
      city, time, condition, temperature, windSpeed := Null, Null, Null, Null, Null;
      result, queryText, action, parameters := Null, Null, Null, Null;
      dateHandler := new DateHandler();
    }

    /** `__fetch_weather`, reading the city and the filters from the object. */
    method Fetch(time: Option<(Day, Day)>, fetch: Provider, draws: Dialog.Draws) returns (r: Option<Speech>)
      ensures r == FetchWeather(city, condition, temperature, windSpeed, time, fetch, Dialog.ForecastOutput, draws)
    {
      if !Truthy(city) {
        return Some(Relayed(draws.missingCity));
      }
      var data := fetch(city);
      if data.None? {
        return None;
      }
      var report := Dialog.FormatForecastOutput(condition, temperature, windSpeed, time, data.value);
      r := if report.None? then None else Some(Spoken(report.value));
    }

    /** `process_request`: the response, whether the provider was asked, and
        the fields as far as the reads got before a raise or a return. */
    method ProcessRequest(request: Val, today: Day, parse: Parser, fetch: Provider, draws: Dialog.Draws)
      returns (r: Response, fetched: bool)
      modifies this, dateHandler
      ensures Handled(r, fetched) == Respond(request, today, parse, fetch, Dialog.ForecastOutput, draws)
      ensures request.Dict? ==> result == Get(request.entries, "queryResult")
      ensures request.Dict? && result.Dict? ==>
        && queryText == Get(result.entries, "queryText") && action == Get(result.entries, "action")
        && parameters == Get(result.entries, "parameters")
      ensures !(request.Dict? && result.Dict?) ==>
        queryText == old(queryText) && action == old(action) && parameters == old(parameters)
      ensures !request.Dict? ==> result == old(result)
      ensures Intake(request).Some? ==>
        && condition == Get(parameters.entries, "weather-condition")
        && temperature == Get(parameters.entries, "temperature")
        && windSpeed == Get(parameters.entries, "wind-speed")
        && city == GetCity(parameters.entries, result.entries)
      ensures Intake(request).None? ==>
        condition == old(condition) && temperature == old(temperature) && windSpeed == old(windSpeed) && city == old(city)
      ensures Intake(request).Some? && Truthy(city) ==>
        time == GetDate(parameters.entries, result.entries) && dateHandler.time == time
      ensures !(Intake(request).Some? && Truthy(city)) ==> time == old(time) && dateHandler.time == old(dateHandler.time)
    {
      var ok := ReadQuery(request);
      if !ok {
        return Fallback(draws.error), false;
      }
      city := GetCity(parameters.entries, result.entries);
      if !Truthy(city) {
        return Fallback(draws.missingCity), false;
      }
      r, fetched := Dispatch(today, parse, fetch, draws);
    }

    /** The field reads at the top of `process_request`, up to the first one
        that raises; `ok` tells whether all of them succeeded. */
    method ReadQuery(request: Val) returns (ok: bool)
      modifies this
      ensures ok <==> Intake(request).Some?
      ensures request.Dict? ==> result == Get(request.entries, "queryResult")
      ensures request.Dict? && result.Dict? ==>
        && queryText == Get(result.entries, "queryText") && action == Get(result.entries, "action")
        && parameters == Get(result.entries, "parameters")
      ensures !(request.Dict? && result.Dict?) ==>
        queryText == old(queryText) && action == old(action) && parameters == old(parameters)
      ensures !request.Dict? ==> result == old(result)
      ensures ok ==>
        && condition == Get(parameters.entries, "weather-condition")
        && temperature == Get(parameters.entries, "temperature")
        && windSpeed == Get(parameters.entries, "wind-speed")
      ensures !ok ==> condition == old(condition) && temperature == old(temperature) && windSpeed == old(windSpeed)
      ensures city == old(city) && time == old(time)
    {
      if !request.Dict? {
        return false;
      }
      result := Get(request.entries, "queryResult");
      if !result.Dict? {
        return false;
      }
      queryText := Get(result.entries, "queryText");
      action := Get(result.entries, "action");
      parameters := Get(result.entries, "parameters");
      if !parameters.Dict? {
        return false;
      }
      condition := Get(parameters.entries, "weather-condition");
      temperature := Get(parameters.entries, "temperature");
      windSpeed := Get(parameters.entries, "wind-speed");
      ok := true;
    }

    /** The second half of `process_request`, once a city is known: read the
        date, check it, then answer or go on to the forecast. */
    method Dispatch(today: Day, parse: Parser, fetch: Provider, draws: Dialog.Draws) returns (r: Response, fetched: bool)
      requires result.Dict? && parameters.Dict?
      modifies this, dateHandler
      ensures result == old(result) && parameters == old(parameters) && city == old(city)
      ensures time == GetDate(parameters.entries, result.entries) && dateHandler.time == time
      ensures queryText == old(queryText) && action == old(action)
      ensures condition == old(condition) && temperature == old(temperature) && windSpeed == old(windSpeed)
      ensures Handled(r, fetched) ==
        Deliver(city, condition, temperature, windSpeed, RouteAsWritten(Check(time, today, parse, draws.error), draws), fetch,
                Dialog.ForecastOutput, draws)
    {
      time := GetDate(parameters.entries, result.entries);
      var outcome := dateHandler.CheckDateRange(time, today, parse, draws.error);
      r, fetched := Forward(RouteAsWritten(outcome, draws), fetch, draws);
    }

    /** The tail of `process_request`: a routed reply is returned; otherwise the
        forecast is fetched and wrapped, and a raise becomes the error reply. */
    method Forward(route: Route, fetch: Provider, draws: Dialog.Draws) returns (r: Response, fetched: bool)
      ensures Handled(r, fetched) == Deliver(city, condition, temperature, windSpeed, route, fetch, Dialog.ForecastOutput, draws)
    {
      if route.Answered? {
        return Fallback(route.reply), false;
      }
      var speech := Fetch(route.time, fetch, draws);
      fetched := Truthy(city);
      r := if speech.None? then Fallback(draws.error) else Answer(Reply(speech.value, speech.value));
    }
  }
}

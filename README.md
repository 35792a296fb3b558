# Weather chatbot core, modelled in Dafny

The weather chatbot answers webhook requests from a Dialogflow agent. A
request carries a city, a date-time value in one of several shapes, and
optional filters: a weather condition, a temperature or a wind speed. The
service works through the request in four stages:

- It reads the city and the date-time, from the request's parameters or,
  failing those, from the first output context (`weather.py`).
- It reduces the date-time to a start day and an end day, and sorts the
  pair into one of four outcomes (`date_handler.py`): the start is in the
  past, the end is more than five days ahead, a valid range, or an error
  reply.
- It fetches the five-day forecast of the city. The fetch is a parameter
  of this model.
- It groups the three-hourly forecast entries by date and keeps the first
  six dates. It then selects the requested day or range and writes one
  block per day (`dialog.py`). The block is one of four kinds, chosen by
  the filters: condition, temperature, wind speed, or the full forecast.
  `dialog_handler.py` is a second variant of the same formatter. It builds
  dictionaries and a rich-content response instead of text.

Fallback replies are drawn at random from fixed pools. The emoji tables of
`precipitation.py` map condition keywords to symbols.

Modules, one per concern:

- `Values` (`values.dfy`): the JSON-like values the service handles, with
  Python truthiness, `dict.get`, `a or b`, `x[0]` and `random.choice`.
- `Text` (`text.dfy`): ASCII `lower` and `title`, substring search,
  `split()[0]`, lexicographic order and `sorted`.
- `Calendar` (`calendar.dfy`): proleptic Gregorian days, `+ timedelta(days=n)`,
  and `strftime`/`strptime` with `%Y-%m-%d`.
- `Precipitation` (`precipitation.dfy`): the three emoji tables.
- `Forecast` (`forecast.dfy`): what both formatters share. This covers
  grouping by date, date selection, the day loop, the most common value
  (`Counter.most_common(1)`), min and max, and the condition keyword
  matching.
- `DateHandling` (`date_handler.dfy`): `DateHandler.check_date_range` and
  its private steps.
- `Dialog` (`dialog.dfy`): the text formatter and the fallback replies of
  `dialog.py`. This is the variant the service uses.
- `RichDialog` (`dialog_handler.dfy`): the dictionary formatter and the
  rich response of `dialog_handler.py`.
- `WeatherService` (`weather.dfy`): `Weather.process_request` and its
  helpers. `Weather` and `DateHandler` are classes whose methods update
  their fields as the source does.

Outside inputs are parameters:

- the clock is `today`;
- the `dateutil` reader is `parse: string -> ParseResult`;
- the HTTP fetch is `fetch: Provider`;
- each `random.choice` is a `pick` index, or, for one whole request, a
  `Draws` record of the four fallback replies.

Every loop of the source is a method proved equal to a function. The
function is the one the lemmas talk about.

## Model

| member | source | states |
|---|---|---|
| Values.Get | weather_condition/weather.py:121-130 | `dict.get`: the stored value when the key is present, `None` otherwise |
| Values.GetOr | weather_condition/weather.py:80 | `dict.get(key, default)`: the stored value, or the default when the key is absent |
| Values.Or | weather_condition/date_handler.py:61-62 | `a or b` is truthy iff either operand is; it is `a` when `a` is truthy and `b` otherwise |
| Values.Index0 | weather_condition/weather.py:81-83 | `x[0]` succeeds exactly on non-empty strings and lists; it gives the first item, or the first character as a string |
| Values.Choice | weather_condition/dialog.py:35 | `random.choice` returns a member of the pool |
| Values.ChoiceReachesAll | weather_condition/dialog.py:35 | every member of the pool can be drawn |
| Text.Lower | weather_condition/dialog.py:171 | `str.lower` keeps the length and lower-cases each character |
| Text.LowerOfTitleFrom | weather_condition/dialog.py:254-255 | lower-casing a title-cased string gives the lower-cased original |
| Text.UpperKeywordNotInLower | weather_condition/dialog.py:254 | a keyword holding an upper-case letter never occurs in a lower-cased description |
| Text.TakeTokenIsRun | weather_condition/dialog.py:403 | the token taken from the front is the longest run of non-space characters |
| Text.FirstTokenIsSplitHead | weather_condition/dialog.py:403 | `split()[0]` fails iff the text is all white space; otherwise it is a non-empty whitespace-free token of the text |
| Text.LexLeTotal | weather_condition/dialog.py:406 | string order is total |
| Text.LexLeAntisym | weather_condition/dialog.py:406 | string order is antisymmetric |
| Text.LexLeTrans | weather_condition/dialog.py:406 | string order is transitive |
| Text.Insert | weather_condition/dialog.py:406 | inserting into a sorted list keeps it sorted and adds exactly the one element |
| Text.Sort | weather_condition/dialog.py:406 | `sorted` returns a sorted permutation of its input |
| Text.SortDistinct | weather_condition/dialog.py:406 | sorting distinct keys gives a strictly increasing list with the same members |
| Calendar.DaysInMonth | weather_condition/date_handler.py:28 | every month has 28 to 31 days |
| Calendar.Next | weather_condition/date_handler.py:28 | the next day is valid, later, and no valid day lies between the two |
| Calendar.AddDays | weather_condition/date_handler.py:28 | adding n days gives a valid day, later when n > 0, the same day when n = 0 |
| Calendar.AddDaysStep | weather_condition/date_handler.py:28 | adding n + 1 days is the day after adding n days, so the sum moves forward exactly n days |
| Calendar.AddDaysSum | weather_condition/date_handler.py:28 | adding m days and then n days is adding m + n days |
| Calendar.ParseFormat | weather_condition/dialog.py:205 | `strptime` of a `strftime("%Y-%m-%d")` text gives the day back |
| Calendar.FormatParse | weather_condition/date_handler.py:80 | `strftime` of a text `strptime` accepts gives the text back |
| Calendar.FormatOrder | weather_condition/dialog.py:140-147 | `%Y-%m-%d` texts compare as strings exactly as their days compare |
| Precipitation.ConditionKeysLowerCase | weather_condition/precipitation.py:1-31 | every condition key is already lower case, so the `lower()` lookup can reach each of them |
| Precipitation.TemperatureIsSubMap | weather_condition/precipitation.py:33-39 | the temperature table is a part of the condition table |
| Precipitation.WindSpeedIsSubMap | weather_condition/precipitation.py:41-47 | the wind speed table is a part of the condition table |
| Precipitation.NotInjective | weather_condition/precipitation.py:2-18 | different keywords share a symbol: clear/sun, clouds/cloud, mist/fog |
| Forecast.EntriesOnComplete | weather_condition/dialog.py:401-404 | every entry dated `k` is in the bucket of `k` |
| Forecast.KeyOrderMembers | weather_condition/dialog.py:401-404 | a date is a key iff some entry up to that point carries it |
| Forecast.Group | weather_condition/dialog.py:401-404 | grouping fails iff some entry's `dt_txt` has no first token |
| Forecast.GroupSound | weather_condition/dialog.py:401-404 | the grouping's keys are distinct and are its buckets' keys; each bucket is non-empty and holds exactly that date's entries in order; every entry is in its date's bucket |
| Forecast.GroupStep | weather_condition/dialog.py:402-404 | one loop step keeps the grouping invariant: a new date is appended, and the entry goes to the end of its bucket |
| Forecast.GroupByDate | weather_condition/dialog.py:401-404 | the grouping loop computes `Group` |
| Forecast.Candidates | weather_condition/dialog.py:406-407 | `sorted(keys)[:6]` holds min(6, number of keys) dates |
| Forecast.CandidatesAreFirstSix | weather_condition/dialog.py:406-407 | the candidates are keys, strictly increasing, and each one is smaller than every key left out |
| Forecast.InRange | weather_condition/dialog.py:142-147 | a date is selected iff it is a candidate between the two bounds, both inclusive |
| Forecast.SelectionSingleDay | weather_condition/dialog.py:136-141 | for a single day, the selection is that day when it is a candidate; otherwise all candidates are kept |
| Forecast.InRangeSorted | weather_condition/dialog.py:142-147 | a range selection keeps the candidates' order |
| Forecast.RangeIsDateRange | weather_condition/dialog.py:142-147 | for a true range, a date is selected iff it is a candidate whose day lies from start to end |
| Forecast.ReversedRangeSelectsNothing | weather_condition/dialog.py:142-147 | an end before the start selects no date |
| Forecast.SelectDates | weather_condition/dialog.py:123-149 | the selection loop computes `Selection` |
| Forecast.CollectDays | weather_condition/dialog.py:199-230 | a body raises iff some day raises; otherwise it holds one block per day, in order |
| Forecast.DayLoop | weather_condition/dialog.py:199-230 | the day loop computes `Collect` |
| Forecast.GatherRaises | weather_condition/dialog_handler.py:131-167 | a body that skips some days raises iff some day raises |
| Forecast.GatherFromDays | weather_condition/dialog_handler.py:136-138 | every block of a skipping body comes from some day |
| Forecast.GatherNoSkip | weather_condition/dialog_handler.py:131-167 | when no day is skipped, there is one block per day, in order |
| Forecast.GatherLoop | weather_condition/dialog_handler.py:131-167 | the skipping loop computes `Gather` |
| Forecast.Min | weather_condition/dialog.py:214 | `min` is a member no greater than any member |
| Forecast.Max | weather_condition/dialog.py:214 | `max` is a member no smaller than any member |
| Forecast.ModeIsMode | weather_condition/dialog.py:210 | `most_common(1)[0][0]` is a value of greatest count, and among those the first to occur |
| Forecast.ModeUnique | weather_condition/dialog.py:210 | that value is unique |
| Forecast.Titles | weather_condition/dialog.py:209 | one title-cased description per entry, in order |
| Forecast.Temps | weather_condition/dialog.py:213 | one temperature per entry, in order |
| Forecast.Winds | weather_condition/dialog.py:218 | one wind speed per entry, in order |
| Forecast.Keywords | weather_condition/dialog.py:253 | the keywords walked: a list of strings item by item, a string character by character; other values and lists holding a non-string cannot be walked |
| Forecast.Records | weather_condition/dialog.py:250-257 | the records of a day are empty iff there are no entries or no keywords |
| Forecast.RecordsThroughGrows | weather_condition/dialog.py:247-260 | the shared record list only grows from day to day |
| Forecast.CapitalisedKeywordNeverMatches | weather_condition/dialog.py:253-257 | a keyword with an upper-case letter always records "No <keyword>" |
| Forecast.MatchIgnoresTitleCase | weather_condition/dialog.py:254-255 | matching against the title-cased description is matching against the description |
| Forecast.FindWeatherAttribute | weather_condition/dialog.py:151-174 | a symbol is found iff the first keyword, lower-cased, is a table key; the symbol found is that key's entry |
| Forecast.StringConditionHasNoEmoji | weather_condition/dialog.py:165-171 | a condition given as a string never finds a symbol |
| Forecast.FindWeatherAttributeIgnoresCase | weather_condition/dialog.py:171 | the lookup ignores the case of the first keyword |
| DateHandling.DictDates | weather_condition/date_handler.py:58-62 | a dict gives `startDate or startDateTime or date_time` and `endDate or endDateTime or date_time` |
| DateHandling.FirstOfThree | weather_condition/date_handler.py:61-62 | the first-truthy reading agrees with Python's `or` chain |
| DateHandling.ReplaceEndDict | weather_condition/date_handler.py:91-93 | an end that is a dict becomes its `endDate`, or its `startDate` when `endDate` is falsy; any other end is kept |
| DateHandling.Extract | weather_condition/date_handler.py:48-100 | extraction gives two truthy values or the error reply |
| DateHandling.Unpack | weather_condition/date_handler.py:34 | the error reply, unpacked as a pair, gives its two key names |
| DateHandling.ParseVal | weather_condition/date_handler.py:115-116 | only strings can be read as days |
| DateHandling.ParseDates | weather_condition/date_handler.py:102-123 | both days come back iff both strings are read; the pair fails iff the start is rejected, or the start reads and the end is rejected; an exception raised on the start, or on the end after a readable start, escapes |
| DateHandling.ReaderFailures | weather_condition/date_handler.py:34-41 | after extraction, the check gives the error reply iff the start is rejected or the end is rejected after a readable start, and it raises iff the reader raises on the one it reaches |
| DateHandling.ReadDaysClassified | weather_condition/date_handler.py:34-44 | once both dates are read, the check is the classification of the two days read: past iff the start is before today, future iff not past and the end is after today + 5, the read pair otherwise |
| DateHandling.MaxEnd | weather_condition/date_handler.py:28 | the last allowed day is the fifth following day of today |
| DateHandling.DateHandler.constructor | weather_condition/date_handler.py:9-11 | a new handler holds no time value |
| DateHandling.DateHandler.CheckDateRange | weather_condition/date_handler.py:13-46 | stores the time value and returns the outcome `Check` defines |
| DateHandling.ListRule | weather_condition/date_handler.py:65-80 | one dict is read as a dict; one string is both ends; two or more items give items 0 and 1; anything else gives today |
| DateHandling.SingletonListIsDict | weather_condition/date_handler.py:67-70 | `[d]` reads like `d` |
| DateHandling.ScalarRule | weather_condition/date_handler.py:82-86 | a string is both ends; `None`, booleans and numbers give today |
| DateHandling.ErrorDictEndsInError | weather_condition/date_handler.py:34-41 | when extraction returns the error reply, the check returns the error reply as well |
| DateHandling.DaysOnlyFromParsedStrings | weather_condition/date_handler.py:34-44 | a past, future or range outcome comes only from two strings both read as days, and the range is those two days |
| DateHandling.JudgeDays | weather_condition/date_handler.py:34-44 | the same, for the steps after extraction |
| DateHandling.Classification | weather_condition/date_handler.py:125-148 | past iff start < today; future iff not past and end > today + 5; range iff neither, with the days unchanged |
| DateHandling.BoundsInclusive | weather_condition/date_handler.py:140-148 | today to today + 5 is accepted |
| DateHandling.ReversedRangeAccepted | weather_condition/date_handler.py:140-148 | an end before the start is not rejected |
| DateHandling.DefaultIsToday | weather_condition/date_handler.py:78-86 | an empty list or a non-string scalar checks as the range today..today |
| DateHandling.IsoParser | weather_condition/date_handler.py:115 | a reader for `%Y-%m-%d` texts accepts exactly those texts and inverts `strftime` |
| DateHandling.IsoSingleDay | weather_condition/date_handler.py:72-73 | `["YYYY-MM-DD"]` within the window checks as that single day |
| DateHandling.SingleStringDay | weather_condition/date_handler.py:72-73 | a one-string list read as an in-window day checks as that single day |
| Dialog.HandlePastDate | weather_condition/dialog.py:23-39 | the reply is one of the past-date texts, identical in both fields |
| Dialog.HandleFutureDate | weather_condition/dialog.py:41-59 | the reply is one of the future-date texts, identical in both fields |
| Dialog.HandleMissingCity | weather_condition/dialog.py:61-91 | the reply is one of the missing-city texts, identical in both fields |
| Dialog.HandleError | weather_condition/dialog.py:93-121 | the reply is one of the error texts, identical in both fields |
| Dialog.FallbacksReachEveryReply | weather_condition/dialog.py:23-121 | every text of every pool can be returned |
| Dialog.Draw | weather_condition/dialog.py:35 | a draw of the four fallbacks is one the handlers can return |
| Dialog.DrawnIsHandlerReplies | weather_condition/dialog.py:23-121 | each reply of a draw is what its handler returns for some pick |
| Dialog.ErrorPoolHasDuplicate | weather_condition/dialog.py:104-113 | the error pool holds 8 entries, and one text appears twice |
| Dialog.FullSummary | weather_condition/dialog.py:205-219 | the full block exists iff the date parses and the day has entries |
| Dialog.FullSummaryFigures | weather_condition/dialog.py:209-219 | its weather is the most common title-cased description; its temperatures are the day's min and max; its wind is the most common wind speed |
| Dialog.ConditionSummary | weather_condition/dialog.py:249-271 | the condition block exists iff the date parses and records exist so far; its symbol is the keyword lookup |
| Dialog.ConditionSummaryFigures | weather_condition/dialog.py:260 | its weather is the most common record so far |
| Dialog.TemperatureSummary | weather_condition/dialog.py:291-309 | the block exists iff the date parses and the day has entries; it holds the day's min and max temperature |
| Dialog.WindSummary | weather_condition/dialog.py:328-346 | the block exists iff the date parses and the day has entries; it holds the day's min and max wind speed |
| Dialog.BodyDays | weather_condition/dialog.py:189-348 | a body raises iff some day raises; otherwise there is one block per selected day |
| Dialog.ForecastBody | weather_condition/dialog.py:189-230 | the loop gives the full blocks of the selected days, in order |
| Dialog.AppendRecords | weather_condition/dialog.py:250-257 | the records of one day are appended to the shared list |
| Dialog.SharedLoop | weather_condition/dialog.py:247-271 | a day loop whose block depends on the shared records gives each day its block, fed the records up to and including that day |
| Dialog.ForecastBodyCondition | weather_condition/dialog.py:232-273 | the loop gives the condition blocks of the selected days, in order |
| Dialog.ForecastBodyTemperature | weather_condition/dialog.py:275-310 | the loop gives the temperature blocks, in order |
| Dialog.ForecastBodyWindSpeed | weather_condition/dialog.py:312-348 | the loop gives the wind speed blocks, in order |
| Dialog.BlockKind | weather_condition/dialog.py:367-384 | each body writes blocks of its own kind |
| Dialog.BodyKind | weather_condition/dialog.py:367-384 | a body that returns holds one block per day, all of its kind |
| Dialog.FormatterPriority | weather_condition/dialog.py:351-384 | the report names the city and has one block per selected day; the kind follows the priority condition > temperature > wind speed > full |
| Dialog.ChosenBody | weather_condition/dialog.py:367-384 | the chosen body is called |
| Dialog.ForecastFormatter | weather_condition/dialog.py:351-384 | the formatter returns the header with the chosen body |
| Dialog.FormatForecastOutput | weather_condition/dialog.py:386-416 | groups, keeps six dates, selects and formats, as `ForecastOutput` defines |
| RichDialog.GenerateResponse | weather_condition/dialog_handler.py:16-18 | the reply is a pool member, identical in both fields |
| RichDialog.GenerateResponseReachesAll | weather_condition/dialog_handler.py:16-18 | every pool member can be returned |
| RichDialog.HandlePastDate | weather_condition/dialog_handler.py:20-28 | a past-date text |
| RichDialog.HandleFutureDate | weather_condition/dialog_handler.py:30-37 | a future-date text |
| RichDialog.HandleMissingCity | weather_condition/dialog_handler.py:39-46 | a missing-city text |
| RichDialog.HandleError | weather_condition/dialog_handler.py:48-54 | an error text |
| RichDialog.PoolSizes | weather_condition/dialog_handler.py:20-54 | the pools hold 5, 4, 4 and 3 distinct texts |
| RichDialog.FullDict | weather_condition/dialog_handler.py:140-164 | the day's dictionary exists iff its date parses, even for a day with no entries |
| RichDialog.FullDictFigures | weather_condition/dialog_handler.py:144-163 | for a day with entries: the most common description, the min and max temperature, the most common wind speed |
| RichDialog.ConditionDict | weather_condition/dialog_handler.py:186-208 | the dictionary exists iff the date parses and records exist so far |
| RichDialog.ConditionDictFigures | weather_condition/dialog_handler.py:197-208 | its weather holds the keyword symbol and the most common record |
| RichDialog.TemperatureDict | weather_condition/dialog_handler.py:228-245 | exists iff the date parses and the day has entries |
| RichDialog.TemperatureDictFigures | weather_condition/dialog_handler.py:233-245 | holds the day's min and max temperature |
| RichDialog.WindDict | weather_condition/dialog_handler.py:266-283 | exists iff the date parses and the day has entries |
| RichDialog.WindDictFigures | weather_condition/dialog_handler.py:271-283 | holds the day's min and max wind speed |
| RichDialog.ForecastBody | weather_condition/dialog_handler.py:122-167 | the loop gives the full dictionaries, skipping days without an entry bucket |
| RichDialog.ForecastBodyCondition | weather_condition/dialog_handler.py:169-210 | the loop gives the condition dictionaries in order |
| RichDialog.ForecastBodyTemperature | weather_condition/dialog_handler.py:212-248 | the loop gives the temperature dictionaries in order |
| RichDialog.ForecastBodyWindSpeed | weather_condition/dialog_handler.py:250-285 | the loop gives the wind speed dictionaries in order |
| RichDialog.DictBlockKeys | weather_condition/dialog_handler.py:159-283 | each body's dictionaries have exactly that body's keys |
| RichDialog.FullDayKeys | weather_condition/dialog_handler.py:159-164 | a full dictionary has date, weather, temperature and wind speed keys |
| RichDialog.BodyKeys | weather_condition/dialog_handler.py:122-285 | every dictionary of a body has that body's keys |
| RichDialog.FormatterPriority | weather_condition/dialog_handler.py:287-327 | the report names the city; the dictionaries' keys follow the priority condition > temperature > wind speed > full |
| RichDialog.ChosenBody | weather_condition/dialog_handler.py:307-325 | the chosen body is called |
| RichDialog.ForecastFormatter | weather_condition/dialog_handler.py:287-327 | location and chosen body |
| RichDialog.Details | weather_condition/dialog_handler.py:339-349 | at most four detail lines |
| RichDialog.DetailsOrder | weather_condition/dialog_handler.py:339-349 | lines come in the order date, weather, temperature, wind; a field is shown iff it is present, truthy and not its "Unknown" sentinel |
| RichDialog.DayTexts | weather_condition/dialog_handler.py:337-352 | at most one text per day |
| RichDialog.DayTextsFromDays | weather_condition/dialog_handler.py:351-352 | every text holds the non-empty details of some day |
| RichDialog.DayTextsAllShown | weather_condition/dialog_handler.py:351-352 | when every day has a detail, there is exactly one text per day, in order |
| RichDialog.ShownDaysExact | weather_condition/dialog_handler.py:351-352 | the days whose details are shown are in increasing order, and a day is among them iff it has at least one detail |
| RichDialog.DayTextsOfShownDays | weather_condition/dialog_handler.py:337-352 | the texts are exactly one per shown day, each the joined details of that day, in the order of the days |
| RichDialog.WeatherResponseShape | weather_condition/dialog_handler.py:329-377 | with no day, the response is never built (`UnboundLocalError`); otherwise it is the fixed envelope with the location header followed by the day texts |
| RichDialog.FormatWeatherResponse | weather_condition/dialog_handler.py:329-377 | the loop builds `WeatherResponse` |
| RichDialog.FormatForecastOutput | weather_condition/dialog_handler.py:379-410 | groups, keeps six dates, selects, formats and wraps, as `ForecastOutput` defines |
| WeatherService.ForecastOutputNeedsDates | weather_condition/dialog.py:136-147 | the service's formatter fails when the value handed over is not a pair of dates |
| WeatherService.Intake | weather_condition/weather.py:121-130 | reading the query succeeds only on a dict whose `queryResult` and `parameters` are dicts |
| WeatherService.ContextValue | weather_condition/weather.py:80 | the context lookup succeeds iff the first output context is a dict whose parameters are a dict |
| WeatherService.Lookup | weather_condition/weather.py:76-80 | a truthy parameter wins; otherwise the first output context is read |
| WeatherService.GetCity | weather_condition/weather.py:73-86 | the city is `x[0]` of the value found, or `None` when that raises |
| WeatherService.GetDate | weather_condition/weather.py:88-102 | the whole value found, or `None` when `x[0]` of it raises |
| WeatherService.GetDateCorrected | weather_condition/weather.py:88-102 | the whole value found, without the `x[0]` probe |
| WeatherService.RoutesToForecast | weather_condition/weather.py:143-150 | the corrected route goes on to the fetch iff the check gives a range; as written, an error reply also goes on |
| WeatherService.FetchWeather | weather_condition/weather.py:54-71 | a falsy city gives the missing-city reply; a report comes only from a fetch whose data the formatter accepts |
| WeatherService.CityFromParameters | weather_condition/weather.py:76-83 | a city list in the parameters gives its first item |
| WeatherService.StringCityFirstCharacter | weather_condition/weather.py:83 | a city given as a string gives its first character |
| WeatherService.ValueFromContext | weather_condition/weather.py:79-80 | a falsy parameter is read from the first context's parameters, defaulting to `[]` |
| WeatherService.NoContextNoValue | weather_condition/weather.py:79-86 | with no parameter and no context, city and date are `None` |
| WeatherService.DateKeptWhole | weather_condition/weather.py:91-99 | a truthy string or list date is returned whole |
| WeatherService.DictDateBecomesToday | weather_condition/weather.py:91-102 | a dict date becomes `None`, so the request is checked as today |
| WeatherService.DictDateHonoured | weather_condition/weather.py:91-99 | the corrected reader keeps a dict date, and its start and end keys are read |
| WeatherService.MissingCityFirst | weather_condition/weather.py:133-136 | without a city, the reply is missing-city, whatever the clock, reader, provider or formatter |
| WeatherService.PastAndFutureReplies | weather_condition/weather.py:143-148 | a `Past` outcome of the date check gives the past-date reply and a `Future` outcome the future-date reply, without asking the provider |
| WeatherService.ReadDayReplies | weather_condition/weather.py:133-148 | once both dates are read, a start before today gives the past-date reply, and a start not before today with an end after today + 5 gives the future-date reply |
| WeatherService.ErrorReplyReachesProvider | weather_condition/weather.py:149-163 | as written, a date error reply is not returned; the fetch runs and the error fallback answers |
| WeatherService.DeliverWithoutDates | weather_condition/weather.py:156-163 | proceeding without a pair of dates ends in the error fallback after the fetch |
| WeatherService.CorrectedReturnsErrorReply | weather_condition/weather.py:149-150 | the corrected route returns the check's error reply without fetching |
| WeatherService.CorrectedAgrees | weather_condition/weather.py:139-150 | where the date reading agrees and the check gives no error reply, the corrected service answers as written |
| WeatherService.ResponseShape | weather_condition/weather.py:105-163 | every reply is one of the four drawn fallbacks, or an answer that repeats the report in both fields after a fetch |
| WeatherService.AnswerIsFormattedForecast | weather_condition/weather.py:105-163 | an answer is given iff the query reads, the city is truthy, the check gives a range, and the fetch and formatter succeed; the answer is the formatted report |
| WeatherService.DeliverAnswer | weather_condition/weather.py:156-163 | with a truthy city, an answer is given iff the route proceeds with dates and the fetch and formatter succeed |
| WeatherService.Weather.constructor | weather_condition/weather.py:19-29 | a new service holds no city, time or filters, and a fresh date handler |
| WeatherService.Weather.Fetch | weather_condition/weather.py:54-71 | computes `FetchWeather` on the fields |
| WeatherService.Weather.ProcessRequest | weather_condition/weather.py:105-163 | returns what `Respond` defines and updates each field exactly as far as the request got |
| WeatherService.Weather.ReadQuery | weather_condition/weather.py:121-130 | succeeds iff `Intake` does, and stores result, query text, action, parameters and filters as far as it got |
| WeatherService.Weather.Dispatch | weather_condition/weather.py:139-163 | stores the date value, checks it and delivers as the as-written route says; the other fields are unchanged |
| WeatherService.Weather.Forward | weather_condition/weather.py:152-163 | delivers the route as `Deliver` defines |

## Left out

- Text rendering is abstract. Dates are kept as days, not as
  `strftime("%A, %b %d, %Y")` text. Figures are kept as reals, not as `:.1f`
  or `" m/s"` text. Report blocks are datatypes, not the multi-line strings.
- Logging and `print` are left out.
- The HTTP call to the weather provider is the `fetch` parameter, and the
  `.env` API key is not modelled. The provider's data is the `ForecastData`
  type. A missing field in a provider entry (a `KeyError`) is not modelled
  beyond what that type can express.
- The `dateutil` date reader is the `parse` parameter. Its result is a day,
  a caught rejection, or an escaping exception. The clock,
  `datetime.now().astimezone().date()`, is the `today` parameter.
- Calendar.Format: always pads the year to four digits. Python's `date.strftime`
  hands `%Y` to the platform's C library, and some libraries (glibc) write
  years below 1000 without padding. On such a platform a range whose end is a
  day before year 1000 compares as text unlike its days do (`"2026-…" <=
  "999-01-01"`), and `__select_dates` keeps candidates that
  `Forecast.ReversedRangeSelectsNothing` and `Forecast.RangeIsDateRange` say
  are dropped. Those two lemmas hold for the padded rendering only.
- Case mapping (`lower`, `title`) covers ASCII letters only.
- `strptime("%Y-%m-%d")` is modelled on zero-padded text only. It does not
  accept unpadded fields or surrounding whitespace.
- `random.choice` is a `pick` index or a `Draws` record.
- WeatherService.Respond: one drawn error reply stands for both `handle_error`
  calls of a request (the date check's and the service's).
- WeatherService.Weather.constructor: the API key and base URL fields are not
  modelled. Nor is a second `DialogHandler`, since the replies are
  parameters.
- DateHandling.DateHandler.constructor: the handler's own `DialogHandler`
  (`date_handler.py:11`) is not modelled; the error reply it would draw is
  the `error` parameter of `CheckDateRange`.
- WeatherService.ErrorReplyReachesProvider and
  WeatherService.AnswerIsFormattedForecast hold for any formatter that fails
  without a pair of dates. The service passes `Dialog.ForecastOutput`, which
  `ForecastOutputNeedsDates` shows qualifies.
- Temperatures and wind speeds are exact reals. Floating point rounding is
  not modelled.
- `app.py`, `html/web_application.py` and `weather_condition/__init__.py`
  (the web server and page) are not part of this model.

## Findings

| source | as written | input that shows it | evidently intended | confidence | as-written member | corrected member |
|---|---|---|---|---|---|---|
| weather_condition/weather.py:91-102 | `__get_date` evaluates `time[0]` as a probe; on a dict it raises `KeyError`, and `None` is returned | `date-time` is `{"startDate": "…", "endDate": "…"}` | return the dict, so that `check_date_range` reads its start and end keys | not executed | WeatherService.DictDateBecomesToday | WeatherService.DictDateHonoured |
| weather_condition/weather.py:149-150 | `time is str` compares with the type object and is never true, so the error reply from the date check is not returned | a city is given and `date-time` is `["not a date"]`, which the reader rejects | return the error reply without fetching | not executed | WeatherService.ErrorReplyReachesProvider | WeatherService.CorrectedReturnsErrorReply |

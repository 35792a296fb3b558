/** The date-range check of `weather_condition/date_handler.py`: the request's
    time value, in whatever shape it arrives, is reduced to a start and an end
    string, both are read as days, and the pair is sorted into one of the
    outcomes the service acts on. The clock is the parameter `today`; the
    natural-language date reader is the parameter `parse`, and the reply the
    error fallback of `weather_condition/dialog.py` draws on this call is the
    parameter `error`. */
module DateHandling {
  import opened Values
  import opened Calendar

  /** What the date reader makes of one string: a day, a rejection (the
      TypeError or ValueError the check catches), or any other exception
      (an OverflowError, say), which the check does not catch. */
  datatype ParseResult = Parsed(day: Day) | Unparsable | Overflow

  type Parser = string -> ParseResult

  /** What `__extract_date_strings` returns: the two values, or the error reply. */
  datatype Extracted = Strings(start: Val, end: Val) | ErrorDict(reply: Reply<string>)

  /** What `check_date_range` gives back: `True` (the start is past), `False`
      (the end is too far ahead), the pair of days, the error reply, or an
      exception that escapes it. */
  datatype DateCheck =
    | Past
    | Future
    | Range(start: Day, end: Day)
    | ErrorReply(reply: Reply<string>)
    | Raised

  // ---------------------------------------------------------------- extraction

  /** Reference reading of a chain `a or b or c`: the first truthy value, or
      the last one when none is truthy. */
  function FirstTruthy(vs: seq<Val>): Val
    requires |vs| > 0
  {
    if |vs| == 1 || Truthy(vs[0]) then vs[0] else FirstTruthy(vs[1..])
  }

  /** The start and end a dict names: the first truthy of `startDate`,
      `startDateTime`, `date_time`, and of `endDate`, `endDateTime`,
      `date_time`. An empty string is falsy and falls through to the next key. */
  function DictDates(m: map<string, Val>): (r: (Val, Val))
    ensures r.0 == FirstTruthy([Get(m, "startDate"), Get(m, "startDateTime"), Get(m, "date_time")])
    ensures r.1 == FirstTruthy([Get(m, "endDate"), Get(m, "endDateTime"), Get(m, "date_time")])
  {
    var start := Or(Or(Get(m, "startDate"), Get(m, "startDateTime")), Get(m, "date_time"));
    var end := Or(Or(Get(m, "endDate"), Get(m, "endDateTime")), Get(m, "date_time"));
    FirstOfThree(Get(m, "startDate"), Get(m, "startDateTime"), Get(m, "date_time"));
    FirstOfThree(Get(m, "endDate"), Get(m, "endDateTime"), Get(m, "date_time"));
    (start, end)
  }

  lemma FirstOfThree(a: Val, b: Val, c: Val)
    ensures FirstTruthy([a, b, c]) == Or(Or(a, b), c)
  {
    assert [a, b, c][1..] == [b, c] && [b, c][1..] == [c];
    if !Truthy(a) {
      assert FirstTruthy([a, b, c]) == FirstTruthy([b, c]);
      if !Truthy(b) {
        assert FirstTruthy([b, c]) == FirstTruthy([c]);
      }
    }
  }

  /** The pair before the end is looked at again: the branch on the shape of
      the time value. */
  function Resolve(time: Val, today: Day): (Val, Val)
  {
    var todayStr := Str(Format(today));
    match time
    case Dict(m) => DictDates(m)
    case List(items) =>
      if |items| == 1 && items[0].Dict? then DictDates(items[0].entries)
      else if |items| == 1 && items[0].Str? then (items[0], items[0])
      else if |items| > 1 then (items[0], items[1])
      else (todayStr, todayStr)
    case Str(_) => (time, time)
    case _ => (todayStr, todayStr)
  }

  /** An end that is itself a dict is replaced by its `endDate`, or else its
      `startDate`. */
  function ReplaceEndDict(end: Val): (r: Val)
    ensures !end.Dict? ==> r == end
    ensures end.Dict? && Truthy(Get(end.entries, "endDate")) ==> r == Get(end.entries, "endDate")
    ensures end.Dict? && !Truthy(Get(end.entries, "endDate")) ==> r == Get(end.entries, "startDate")
  {
    if end.Dict? then Or(Get(end.entries, "endDate"), Get(end.entries, "startDate")) else end
  }

  /** `__extract_date_strings`: the pair, or the error reply when either value
      is falsy. */
  function Extract(time: Val, today: Day, error: Reply<string>): (r: Extracted)
    ensures r.Strings? ==> Truthy(r.start) && Truthy(r.end)
    ensures r.ErrorDict? ==> r.reply == error
  {
    var (start, end0) := Resolve(time, today);
    var end := ReplaceEndDict(end0);
    if !Truthy(start) || !Truthy(end) then ErrorDict(error)
    else Strings(start, end)
  }

  /** The unpacking `start_str, end_str = ...`: a pair gives its two values; the
      error reply, a dict, gives its two keys in insertion order. */
  function Unpack(e: Extracted): (r: (Val, Val))
    ensures e.Strings? ==> r == (e.start, e.end)
    ensures e.ErrorDict? ==> r == (Str("fulfillmentText"), Str("displayText"))
  {
    match e
    case Strings(start, end) => (start, end)
    case ErrorDict(_) => (Str("fulfillmentText"), Str("displayText"))
  }

  // ---------------------------------------------------------------- parsing

  /** The reader applied to one value: anything but a string is a TypeError. */
  function ParseVal(parse: Parser, v: Val): (r: ParseResult)
    ensures !v.Str? ==> r == Unparsable
  {
    if v.Str? then parse(v.s) else Unparsable
  }

  datatype Parsing = Dates(start: Day, end: Day) | Failed | Escaped

  /** `__parse_dates`: the start is read first; a caught failure on either
      gives `(None, None)`, any other exception escapes. */
  function ParseDates(parse: Parser, start: Val, end: Val): (r: Parsing)
    ensures r.Dates? <==> ParseVal(parse, start).Parsed? && ParseVal(parse, end).Parsed?
    ensures r.Dates? ==> r.start == ParseVal(parse, start).day && r.end == ParseVal(parse, end).day
    ensures r == Failed <==>
      ParseVal(parse, start).Unparsable? || (ParseVal(parse, start).Parsed? && ParseVal(parse, end).Unparsable?)
    ensures r == Escaped <==>
      ParseVal(parse, start).Overflow? || (ParseVal(parse, start).Parsed? && ParseVal(parse, end).Overflow?)
  {
    match ParseVal(parse, start)
    case Overflow => Escaped
    case Unparsable => Failed
    case Parsed(a) =>
      match ParseVal(parse, end)
      case Overflow => Escaped
      case Unparsable => Failed
      case Parsed(b) => Dates(a, b)
  }

  // ---------------------------------------------------------------- validation

  /** `__validate_date_range`. */
  function Validate(start: Day, end: Day, today: Day, maxEnd: Date): DateCheck
  {
    if Before(start, today) then Past
    else if Before(maxEnd, end) then Future
    else Range(start, end)
  }

  /** How many days past today a forecast may reach. */
  const Window: nat := 5

  /** The last day a forecast may reach, `today + timedelta(days=5)`. */
  function MaxEnd(today: Day): (r: Date)
    ensures Valid(r) && Before(today, r)
    ensures r == Next(Next(Next(Next(Next(today)))))
  {
    AddDaysStep(today, 0);
    AddDaysStep(today, 1);
    AddDaysStep(today, 2);
    AddDaysStep(today, 3);
    AddDaysStep(today, 4);
    AddDays(today, Window)
  }

  /** The outcome of `check_date_range` on the time value, as a function of it;
      `today + 5` past the year 9999 is an OverflowError. */
  function Check(time: Val, today: Day, parse: Parser, error: Reply<string>): DateCheck
  {
    var maxEnd := MaxEnd(today);
    if !Representable(maxEnd) then Raised else Judge(Extract(time, today, error), today, maxEnd, parse, error)
  }

  /** The steps after extraction: unpack, read, validate. */
  function Judge(e: Extracted, today: Day, maxEnd: Date, parse: Parser, error: Reply<string>): DateCheck
  {
    var (start, end) := Unpack(e);
    if !Truthy(start) || !Truthy(end) then ErrorReply(error)
    else
      match ParseDates(parse, start, end)
      case Escaped => Raised
      case Failed => ErrorReply(error)
      case Dates(a, b) => Validate(a, b, today, maxEnd)
  }

  /** The object the service keeps; `check_date_range` stores the time value in
      it before the private steps read it back. */
  class DateHandler {
    var time: Val

    constructor()
      ensures time == Null
    {
      time := Null;
    }

    /** `check_date_range`. */
    method CheckDateRange(time: Val, today: Day, parse: Parser, error: Reply<string>) returns (r: DateCheck)
      modifies this
      ensures this.time == time
      ensures r == Check(time, today, parse, error)
    {
      this.time := time;
      var maxEnd := MaxEnd(today);
      if !Representable(maxEnd) {
        return Raised;
      }
      var (startStr, endStr) := Unpack(Extract(this.time, today, error));
      if !Truthy(startStr) || !Truthy(endStr) {
        return ErrorReply(error);
      }
      var parsed := ParseDates(parse, startStr, endStr);
      if parsed.Escaped? {
        return Raised;
      } else if parsed.Failed? {
        return ErrorReply(error);
      }
      r := Validate(parsed.start, parsed.end, today, maxEnd);
    }
  }

  // ---------------------------------------------------------------- properties

  /** The list rule: one dict is read like a dict, one string is both ends,
      two or more items give items 0 and 1 (the rest is ignored), and an empty
      list or one item of any other kind gives today's `%Y-%m-%d` for both. */
  lemma ListRule(items: seq<Val>, today: Day)
    ensures |items| == 1 && items[0].Dict? ==> Resolve(List(items), today) == DictDates(items[0].entries)
    ensures |items| == 1 && items[0].Str? ==> Resolve(List(items), today) == (items[0], items[0])
    ensures |items| >= 2 ==> Resolve(List(items), today) == (items[0], items[1])
    ensures |items| == 0 || (|items| == 1 && !items[0].Dict? && !items[0].Str?) ==>
      Resolve(List(items), today) == (Str(Format(today)), Str(Format(today)))
  {
  }

  /** A dict input and a one-item list holding the same dict name the same days. */
  lemma SingletonListIsDict(m: map<string, Val>, today: Day)
    ensures Resolve(List([Dict(m)]), today) == Resolve(Dict(m), today)
  {
  }

  /** A string is both ends; None, booleans and numbers give today for both. */
  lemma ScalarRule(time: Val, today: Day)
    ensures time.Str? ==> Resolve(time, today) == (time, time)
    ensures time.Null? || time.Bool? || time.Num? ==> Resolve(time, today) == (Str(Format(today)), Str(Format(today)))
  {
  }

  /** A value with no usable start or end ends in the error reply, never in a
      pair of days, even though the unpacking hands the reader two key names:
      the reader rejects those names. */
  lemma ErrorDictEndsInError(time: Val, today: Day, parse: Parser, error: Reply<string>)
    requires Extract(time, today, error).ErrorDict?
    requires Representable(MaxEnd(today))
    requires parse("fulfillmentText") == Unparsable
    ensures Check(time, today, parse, error) == ErrorReply(error)
  {
  }

  /** Whatever the reader does with other strings, an outcome that carries
      days came from a pair of strings both of which it read, and the days
      are the ones it read. */
  lemma DaysOnlyFromParsedStrings(time: Val, today: Day, parse: Parser, error: Reply<string>)
    requires !parse("fulfillmentText").Parsed?
    ensures var c := Check(time, today, parse, error);
      var e := Extract(time, today, error);
      c.Past? || c.Future? || c.Range? ==>
        && e.Strings? && e.start.Str? && e.end.Str?
        && parse(e.start.s).Parsed? && parse(e.end.s).Parsed?
        && (c.Range? ==> c.start == parse(e.start.s).day && c.end == parse(e.end.s).day)
  {
    if Representable(MaxEnd(today)) {
      JudgeDays(Extract(time, today, error), today, MaxEnd(today), parse, error);
    }
  }

  /** Once the two values are extracted, a rejected start, or a rejected end
      after a start that reads, ends in the error reply; an exception the
      reader raises on either escapes. Nothing else gives those outcomes. */
  lemma ReaderFailures(time: Val, today: Day, parse: Parser, error: Reply<string>)
    requires Representable(MaxEnd(today))
    requires Extract(time, today, error).Strings?
    ensures var e := Extract(time, today, error);
      var c := Check(time, today, parse, error);
      && (c == ErrorReply(error) <==>
            ParseVal(parse, e.start).Unparsable? || (ParseVal(parse, e.start).Parsed? && ParseVal(parse, e.end).Unparsable?))
      && (c == Raised <==>
            ParseVal(parse, e.start).Overflow? || (ParseVal(parse, e.start).Parsed? && ParseVal(parse, e.end).Overflow?))
  {
    var e := Extract(time, today, error);
    assert Unpack(e) == (e.start, e.end);
  }

  /** Once both dates are read, the check is the classification of the two
      days read: past iff the start is before today, future iff not past and
      the end is after `today + 5`, and the pair itself otherwise. */
  lemma ReadDaysClassified(time: Val, today: Day, parse: Parser, error: Reply<string>)
    requires Representable(MaxEnd(today))
    requires Extract(time, today, error).Strings?
    requires var e := Extract(time, today, error); ParseDates(parse, e.start, e.end).Dates?
    ensures var e := Extract(time, today, error);
      var p := ParseDates(parse, e.start, e.end);
      var c := Check(time, today, parse, error);
      && c == Validate(p.start, p.end, today, MaxEnd(today))
      && (c == Past <==> Before(p.start, today))
      && (c == Future <==> !Before(p.start, today) && Before(MaxEnd(today), p.end))
      && (c == Range(p.start, p.end) <==> !Before(p.start, today) && !Before(MaxEnd(today), p.end))
  {
    var e := Extract(time, today, error);
    assert Unpack(e) == (e.start, e.end);
    var p := ParseDates(parse, e.start, e.end);
    Classification(p.start, p.end, today);
  }

  lemma JudgeDays(e: Extracted, today: Day, maxEnd: Date, parse: Parser, error: Reply<string>)
    requires !parse("fulfillmentText").Parsed?
    ensures var c := Judge(e, today, maxEnd, parse, error);
      c.Past? || c.Future? || c.Range? ==>
        && e.Strings? && e.start.Str? && e.end.Str?
        && parse(e.start.s).Parsed? && parse(e.end.s).Parsed?
        && (c.Range? ==> c.start == parse(e.start.s).day && c.end == parse(e.end.s).day)
  {
  }

  /** The classification: a past start gives `True` whatever the end; otherwise
      an end beyond `today + 5` gives `False`; otherwise the pair unchanged.
      Both bounds are inclusive. */
  lemma Classification(start: Day, end: Day, today: Day)
    requires Representable(MaxEnd(today))
    ensures var c := Validate(start, end, today, MaxEnd(today));
      && (c == Past <==> Before(start, today))
      && (c == Future <==> !Before(start, today) && Before(MaxEnd(today), end))
      && (c.Range? <==> !Before(start, today) && !Before(MaxEnd(today), end))
      && (c.Range? ==> c.start == start && c.end == end)
  {
  }

  /** `start == today` with `end == today + 5` is a valid range. */
  lemma BoundsInclusive(today: Day)
    requires Representable(MaxEnd(today))
    ensures Validate(today, MaxEnd(today), today, MaxEnd(today)) == Range(today, MaxEnd(today))
  {
    var m := MaxEnd(today);
    assert !Before(today, today);
    assert !Before(m, m);
  }

  /** The order of the two days is never checked: a reversed pair inside the
      window is returned as valid. */
  lemma ReversedRangeAccepted(today: Day)
    requires Representable(MaxEnd(today)) && Representable(AddDays(today, 1))
    ensures var tomorrow: Day := AddDays(today, 1);
      && Before(today, tomorrow)
      && Validate(tomorrow, today, today, MaxEnd(today)) == Range(tomorrow, today)
  {
  }

  /** With a reader that reads back the `%Y-%m-%d` form, an empty list, None or
      any other scalar asks for today only. */
  lemma DefaultIsToday(time: Val, today: Day, parse: Parser, error: Reply<string>)
    requires time == List([]) || time.Null? || time.Bool? || time.Num?
    requires parse(Format(today)) == Parsed(today)
    requires Representable(MaxEnd(today))
    ensures Check(time, today, parse, error) == Range(today, today)
  {
    assert !Before(today, today);
    assert !Before(MaxEnd(today), today) by {
      assert Before(today, MaxEnd(today));
    }
  }

  /** The reader of the fixed `%Y-%m-%d` form, one instance of `parse`. */
  function IsoParser(s: string): (r: ParseResult)
    ensures r.Parsed? <==> ParseDate(s).Some?
    ensures r.Parsed? ==> Format(r.day) == s
  {
    match ParseDate(s)
    case Some(d) => FormatParse(s); Parsed(d)
    case None => Unparsable
  }

  /** With that reader, a one-item list naming an in-window day asks for that
      day only. */
  lemma IsoSingleDay(day: Day, today: Day, error: Reply<string>)
    requires Representable(MaxEnd(today))
    requires !Before(day, today) && !Before(MaxEnd(today), day)
    ensures Check(List([Str(Format(day))]), today, IsoParser, error) == Range(day, day)
  {
    ParseFormat(day);
    SingleStringDay(Format(day), day, today, IsoParser, error);
  }

  /** A one-item list holding a string the reader reads as an in-window day
      asks for that day only. */
  lemma SingleStringDay(s: string, day: Day, today: Day, parse: Parser, error: Reply<string>)
    requires |s| > 0 && parse(s) == Parsed(day)
    requires Representable(MaxEnd(today))
    requires !Before(day, today) && !Before(MaxEnd(today), day)
    ensures Check(List([Str(s)]), today, parse, error) == Range(day, day)
  {
    assert Extract(List([Str(s)]), today, error) == Strings(Str(s), Str(s));
  }
}

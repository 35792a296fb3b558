/** What both dialog handlers do with the provider's forecast before rendering it:
    group the three-hour slots by day, keep the first six days, pick the days the
    user asked for, and compute each day's figures (most frequent description,
    lowest and highest temperature, most frequent wind speed, and the running
    list of condition matches). */
module Forecast {
  import opened Values
  import opened Text
  import opened Calendar
  import opened Precipitation

  /** One slot of the provider's `list`: its `dt_txt`, `weather[0].description`,
      `main.temp` and `wind.speed`. */
  datatype Entry = Entry(dtTxt: string, description: string, temp: real, windSpeed: real)

  /** The provider's reply: `city.name` and the slots in the order received. */
  datatype ForecastData = ForecastData(cityName: string, entries: seq<Entry>)

  // ---------------------------------------------------------------- grouping

  /** `dt_txt.split()[0]`; `None` when `dt_txt` is blank (IndexError). */
  function DateKey(e: Entry): Option<string>
  {
    FirstToken(e.dtTxt)
  }

  /** The first `n` slots all have a day. */
  predicate KeyedUpTo(es: seq<Entry>, n: int)
  {
    forall i | 0 <= i < n && i < |es| :: DateKey(es[i]).Some?
  }

  /** The slots among the first `n` whose day is `k`, in their original order. */
  function EntriesOn(es: seq<Entry>, k: string, n: int): (r: seq<Entry>)
    requires 0 <= n <= |es|
    ensures |r| <= n
  {
    if n == 0 then []
    else EntriesOn(es, k, n - 1) + (if DateKey(es[n - 1]) == Some(k) then [es[n - 1]] else [])
  }

  /** Every slot of day `k` among the first `n` is in the bucket of `k`. */
  lemma {:induction false} EntriesOnComplete(es: seq<Entry>, k: string, n: int, i: int)
    requires 0 <= i < n <= |es| && DateKey(es[i]) == Some(k)
    ensures es[i] in EntriesOn(es, k, n)
  {
    if i < n - 1 {
      EntriesOnComplete(es, k, n - 1, i);
    }
  }

  /** The days of the first `n` slots in the order a `defaultdict` first sees them. */
  function KeyOrder(es: seq<Entry>, n: int): (r: seq<string>)
    requires 0 <= n <= |es| && KeyedUpTo(es, n)
    ensures Distinct(r)
  {
    if n == 0 then []
    else
      var init := KeyOrder(es, n - 1);
      var k := DateKey(es[n - 1]).value;
      if k in init then init else init + [k]
  }

  /** A day is listed exactly when it has a slot. */
  lemma {:induction false} KeyOrderMembers(es: seq<Entry>, k: string, n: int)
    requires 0 <= n <= |es| && KeyedUpTo(es, n)
    ensures k in KeyOrder(es, n) <==> |EntriesOn(es, k, n)| > 0
  {
    if n > 0 {
      KeyOrderMembers(es, k, n - 1);
    }
  }

  /** The `defaultdict(list)` after the grouping loop: each day with its slots. */
  function Buckets(es: seq<Entry>): (m: map<string, seq<Entry>>)
    requires KeyedUpTo(es, |es|)
  {
    map k | k in KeyOrder(es, |es|) :: EntriesOn(es, k, |es|)
  }

  datatype Grouping = Grouping(keys: seq<string>, buckets: map<string, seq<Entry>>)

  /** The grouping, or `None` when some slot has a blank `dt_txt`. */
  function Group(es: seq<Entry>): (r: Option<Grouping>)
    ensures r.None? <==> exists i | 0 <= i < |es| :: DateKey(es[i]).None?
  {
    if KeyedUpTo(es, |es|) then Some(Grouping(KeyOrder(es, |es|), Buckets(es))) else None
  }

  /** Every slot lands in the bucket of its day, buckets keep the slots' order,
      and the keys are exactly the days that have slots, each once. */
  lemma GroupSound(es: seq<Entry>)
    requires Group(es).Some?
    ensures var g := Group(es).value;
      && Distinct(g.keys)
      && (forall k :: k in g.buckets <==> k in g.keys)
      && (forall k | k in g.buckets :: g.buckets[k] == EntriesOn(es, k, |es|) && |g.buckets[k]| > 0)
      && (forall i | 0 <= i < |es| :: DateKey(es[i]).value in g.keys && es[i] in g.buckets[DateKey(es[i]).value])
  {
    var g := Group(es).value;
    forall k | k in g.buckets ensures |g.buckets[k]| > 0 {
      KeyOrderMembers(es, k, |es|);
    }
    forall i | 0 <= i < |es| ensures DateKey(es[i]).value in g.keys && es[i] in g.buckets[DateKey(es[i]).value] {
      EntriesOnComplete(es, DateKey(es[i]).value, |es|, i);
      KeyOrderMembers(es, DateKey(es[i]).value, |es|);
    }
  }

  /** The state of the grouping loop after the first `i` slots: the days in
      first-seen order, each with its slots. */
  ghost predicate GroupedUpTo(es: seq<Entry>, i: int, keys: seq<string>, buckets: map<string, seq<Entry>>)
    requires 0 <= i <= |es|
  {
    && KeyedUpTo(es, i)
    && keys == KeyOrder(es, i)
    && (forall k :: k in buckets <==> k in keys)
    && (forall k | k in buckets :: buckets[k] == EntriesOn(es, k, i))
  }

  /** One turn of the grouping loop on the key order: the slot's day is listed
      when it is new. */
  lemma KeyOrderStep(es: seq<Entry>, i: int)
    requires 0 <= i < |es| && KeyedUpTo(es, i) && DateKey(es[i]).Some?
    ensures KeyedUpTo(es, i + 1)
    ensures var k := DateKey(es[i]).value;
      KeyOrder(es, i + 1) == if k in KeyOrder(es, i) then KeyOrder(es, i) else KeyOrder(es, i) + [k]
  {
  }

  /** One turn of the grouping loop on the buckets: the slot is appended to the
      bucket of its day, which starts empty when the day is new. */
  lemma BucketStep(es: seq<Entry>, i: int, keys: seq<string>, buckets: map<string, seq<Entry>>)
    requires 0 <= i < |es| && GroupedUpTo(es, i, keys, buckets) && DateKey(es[i]).Some?
    ensures var k := DateKey(es[i]).value;
      var b := buckets[k := (if k in buckets then buckets[k] else []) + [es[i]]];
      forall k' | k' in b :: b[k'] == EntriesOn(es, k', i + 1)
  {
    var k := DateKey(es[i]).value;
    KeyOrderMembers(es, k, i);
  }

  /** One turn of the grouping loop keeps `GroupedUpTo`. */
  lemma GroupStep(es: seq<Entry>, i: int, keys: seq<string>, buckets: map<string, seq<Entry>>)
    requires 0 <= i < |es| && GroupedUpTo(es, i, keys, buckets) && DateKey(es[i]).Some?
    ensures var k := DateKey(es[i]).value;
      GroupedUpTo(es, i + 1, if k in buckets then keys else keys + [k],
                  buckets[k := (if k in buckets then buckets[k] else []) + [es[i]]])
  {
    KeyOrderStep(es, i);
    BucketStep(es, i, keys, buckets);
  }

  /** Once every slot is walked, the loop state is the grouping. */
  lemma GroupDone(es: seq<Entry>, keys: seq<string>, buckets: map<string, seq<Entry>>)
    requires GroupedUpTo(es, |es|, keys, buckets)
    ensures Group(es) == Some(Grouping(keys, buckets))
  {
    assert buckets == Buckets(es);
  }

  /** The grouping loop of `format_forecast_output`. */
  method GroupByDate(es: seq<Entry>) returns (r: Option<Grouping>)
    ensures r == Group(es)
  {
    var keys: seq<string> := [];
    var buckets: map<string, seq<Entry>> := map[];
    for i := 0 to |es|
      invariant GroupedUpTo(es, i, keys, buckets)
    {
      var key := FirstToken(es[i].dtTxt);
      if key.None? {
        assert DateKey(es[i]).None?;
        return None;
      }
      var k := key.value;
      GroupStep(es, i, keys, buckets);
      keys, buckets := if k in buckets then keys else keys + [k],
                       buckets[k := (if k in buckets then buckets[k] else []) + [es[i]]];
    }
    GroupDone(es, keys, buckets);
    return Some(Grouping(keys, buckets));
  }

  /** `daily_forecasts[date]` on the `defaultdict`: an absent day reads as empty. */
  function Lookup(buckets: map<string, seq<Entry>>, d: string): (r: seq<Entry>)
    ensures d !in buckets ==> r == []
  {
    if d in buckets then buckets[d] else []
  }

  // ---------------------------------------------------------------- candidates

  /** `sorted(daily_forecasts.keys())[:6]`. */
  function Candidates(keys: seq<string>): (r: seq<string>)
    ensures |r| == if |keys| < 6 then |keys| else 6
  {
    var s := Sort(keys);
    if |s| <= 6 then s else s[..6]
  }

  /** The candidates are the six smallest days, ascending: every day left out is
      larger than every day kept. */
  lemma CandidatesAreFirstSix(keys: seq<string>)
    requires Distinct(keys)
    ensures StrictlySorted(Candidates(keys))
    ensures forall d | d in Candidates(keys) :: d in keys
    ensures forall k, d | k in keys && k !in Candidates(keys) && d in Candidates(keys) :: LexLt(d, k)
  {
    var s := Sort(keys);
    SortDistinct(keys);
    var c := Candidates(keys);
    assert c == s[..|c|];
    forall k, d | k in keys && k !in c && d in c ensures LexLt(d, k) {
      assert k in s;
      var j :| 0 <= j < |s| && s[j] == k;
      var i :| 0 <= i < |c| && c[i] == d;
      assert j >= |c|;
    }
  }

  // ---------------------------------------------------------------- selection

  /** The days of `cs` that lie between `lo` and `hi` as strings, in order. */
  function InRange(lo: string, hi: string, cs: seq<string>): (r: seq<string>)
    ensures |r| <= |cs|
    ensures forall d :: d in r <==> d in cs && LexLe(lo, d) && LexLe(d, hi)
  {
    if |cs| == 0 then []
    else
      var d := cs[|cs| - 1];
      assert cs == cs[..|cs| - 1] + [d];
      InRange(lo, hi, cs[..|cs| - 1]) + (if LexLe(lo, d) && LexLe(d, hi) then [d] else [])
  }

  /** `__select_dates`: a one-day query keeps just that day when it is a candidate
      and every candidate otherwise; a range keeps the candidates between the two
      rendered days. */
  function Selection(start: Day, end: Day, cs: seq<string>): (r: seq<string>)
  {
    if start == end then (if Format(start) in cs then [Format(start)] else cs)
    else InRange(Format(start), Format(end), cs)
  }

  /** The single-day rule: exactly the asked day, or all candidates when it is
      not among them. */
  lemma SelectionSingleDay(day: Day, cs: seq<string>)
    ensures Format(day) in cs ==> Selection(day, day, cs) == [Format(day)]
    ensures Format(day) !in cs ==> Selection(day, day, cs) == cs
  {
  }

  /** Filtering keeps the order: from ascending candidates an ascending selection. */
  lemma {:induction false} InRangeSorted(lo: string, hi: string, cs: seq<string>)
    requires StrictlySorted(cs)
    ensures StrictlySorted(InRange(lo, hi, cs))
  {
    if |cs| > 0 {
      var init := cs[..|cs| - 1];
      assert StrictlySorted(init);
      InRangeSorted(lo, hi, init);
      var r := InRange(lo, hi, cs);
      var ri := InRange(lo, hi, init);
      forall i, j | 0 <= i < j < |r| ensures LexLt(r[i], r[j]) {
        if j >= |ri| {
          assert r[i] in ri;
          var k :| 0 <= k < |init| && init[k] == r[i];
        }
      }
    }
  }

  /** On days rendered as `%Y-%m-%d`, the string range is the date range: a day
      is selected exactly when it is neither before the start nor after the end. */
  lemma RangeIsDateRange(start: Day, end: Day, cs: seq<string>, d: string)
    requires start != end
    requires ParseDate(d).Some?
    ensures d in Selection(start, end, cs) <==>
      d in cs && !Before(ParseDate(d).value, start) && !Before(end, ParseDate(d).value)
  {
    var day := ParseDate(d).value;
    FormatParse(d);
    FormatOrder(start, day);
    FormatOrder(day, end);
  }

  /** A range whose end is before its start selects nothing. */
  lemma ReversedRangeSelectsNothing(start: Day, end: Day, cs: seq<string>)
    requires Before(end, start)
    ensures Selection(start, end, cs) == []
  {
    var r := Selection(start, end, cs);
    if |r| > 0 {
      LexLeTrans(Format(start), r[0], Format(end));
      FormatOrder(start, end);
      assert false;
    }
  }

  /** The loop of `__select_dates`. */
  method SelectDates(start: Day, end: Day, cs: seq<string>) returns (selected: seq<string>)
    ensures selected == Selection(start, end, cs)
  {
    selected := cs;
    if start == end {
      for i := 0 to |cs|
        invariant selected == if Format(start) in cs[..i] then [Format(start)] else cs
      {
        if cs[i] == Format(start) {
          selected := [cs[i]];
        }
        assert cs[..i + 1] == cs[..i] + [cs[i]];
      }
      assert cs[..|cs|] == cs;
    } else {
      var lo, hi := Format(start), Format(end);
      selected := [];
      for i := 0 to |cs|
        invariant selected == InRange(lo, hi, cs[..i])
      {
        if LexLe(lo, cs[i]) && LexLe(cs[i], hi) {
          selected := selected + [cs[i]];
        }
        assert cs[..i + 1][..i] == cs[..i];
      }
      assert cs[..|cs|] == cs;
    }
  }

  // ---------------------------------------------------------------- day loop

  /** A day loop that appends one block per day and stops at the first day that
      raises: the blocks of days `0 .. n-1` in order, or `None` when one of them
      raises (`day(i)` is `None`). */
  function Collect<T>(day: int -> Option<T>, n: nat): Option<seq<T>>
  {
    if n == 0 then Some([])
    else
      var before := Collect(day, n - 1);
      var b := day(n - 1);
      if before.None? || b.None? then None else Some(before.value + [b.value])
  }

  /** Once a day raises, the loop has raised. */
  lemma {:induction false} CollectStops<T>(day: int -> Option<T>, i: nat, n: nat)
    requires i < n && day(i).None?
    ensures Collect(day, n).None?
  {
    if i < n - 1 {
      CollectStops(day, i, n - 1);
    }
  }

  /** Loops whose days agree yield the same. */
  lemma {:induction false} CollectSame<T>(day: int -> Option<T>, other: int -> Option<T>, n: nat)
    requires forall i | 0 <= i < n :: day(i) == other(i)
    ensures Collect(day, n) == Collect(other, n)
  {
    if n > 0 {
      CollectSame(day, other, n - 1);
    }
  }

  /** The loop raises exactly when one of its days raises; otherwise it holds
      the block of every day, in the order of the days. */
  lemma {:induction false} CollectDays<T>(day: int -> Option<T>, n: nat)
    ensures Collect(day, n).None? <==> exists i | 0 <= i < n :: day(i).None?
    ensures Collect(day, n).Some? ==>
      |Collect(day, n).value| == n && forall i | 0 <= i < n :: day(i) == Some(Collect(day, n).value[i])
  {
    if n > 0 {
      CollectDays(day, n - 1);
    }
  }

  /** The day loop itself: one call of `day` per day, in order, stopping at the
      first day that raises. */
  method DayLoop<T>(day: int -> Option<T>, n: nat) returns (r: Option<seq<T>>)
    ensures r == Collect(day, n)
  {
    var blocks: seq<T> := [];
    for i := 0 to n
      invariant Collect(day, i) == Some(blocks)
    {
      var block := day(i);
      if block.None? {
        CollectStops(day, i, n);
        return None;
      }
      blocks := blocks + [block.value];
    }
    return Some(blocks);
  }

  /** A day loop whose days may also be skipped: `day(i)` is `None` when the
      day raises, `Some(None)` when it is skipped and `Some(Some(b))` when it
      adds the block `b`. */
  function Gather<T>(day: int -> Option<Option<T>>, n: nat): Option<seq<T>>
  {
    if n == 0 then Some([])
    else
      var before := Gather(day, n - 1);
      var b := day(n - 1);
      if before.None? || b.None? then None
      else Some(before.value + if b.value.Some? then [b.value.value] else [])
  }

  /** Once a day raises, the skipping loop has raised. */
  lemma {:induction false} GatherStops<T>(day: int -> Option<Option<T>>, i: nat, n: nat)
    requires i < n && day(i).None?
    ensures Gather(day, n).None?
  {
    if i < n - 1 {
      GatherStops(day, i, n - 1);
    }
  }

  /** The skipping loop raises exactly when one of its days raises. */
  lemma {:induction false} GatherRaises<T>(day: int -> Option<Option<T>>, n: nat)
    ensures Gather(day, n).None? <==> exists i | 0 <= i < n :: day(i).None?
  {
    if n > 0 {
      GatherRaises(day, n - 1);
    }
  }

  /** Each block the skipping loop keeps comes from one of its days. */
  lemma {:induction false} GatherFromDays<T>(day: int -> Option<Option<T>>, n: nat)
    requires Gather(day, n).Some?
    ensures |Gather(day, n).value| <= n
    ensures forall x | x in Gather(day, n).value :: exists i | 0 <= i < n :: day(i) == Some(Some(x))
  {
    if n > 0 {
      GatherFromDays(day, n - 1);
      var before := Gather(day, n - 1).value;
      forall x | x in Gather(day, n).value ensures exists i | 0 <= i < n :: day(i) == Some(Some(x)) {
        if x !in before {
          assert day(n - 1) == Some(Some(x));
        }
      }
    }
  }

  /** When no day is skipped, the skipping loop holds the block of every day, in
      order. */
  lemma {:induction false} GatherNoSkip<T>(day: int -> Option<Option<T>>, n: nat)
    requires Gather(day, n).Some?
    requires forall i | 0 <= i < n :: day(i) != Some(None)
    ensures |Gather(day, n).value| == n
    ensures forall i | 0 <= i < n :: day(i) == Some(Some(Gather(day, n).value[i]))
  {
    if n > 0 {
      GatherNoSkip(day, n - 1);
    }
  }

  /** The skipping day loop: a skipped day adds nothing (`continue`). */
  method GatherLoop<T>(day: int -> Option<Option<T>>, n: nat) returns (r: Option<seq<T>>)
    ensures r == Gather(day, n)
  {
    var blocks: seq<T> := [];
    for i := 0 to n
      invariant Gather(day, i) == Some(blocks)
    {
      var block := day(i);
      if block.None? {
        GatherStops(day, i, n);
        return None;
      }
      if block.value.None? {
        assert blocks + [] == blocks;
        continue;
      }
      blocks := blocks + [block.value.value];
    }
    return Some(blocks);
  }

  // ---------------------------------------------------------------- figures

  /** Python's `min(xs)`. */
  function Min(xs: seq<real>): (m: real)
    requires |xs| > 0
    ensures m in xs && forall x | x in xs :: m <= x
  {
    if |xs| == 1 then xs[0]
    else
      var r := Min(xs[1..]);
      assert xs == [xs[0]] + xs[1..];
      if xs[0] <= r then xs[0] else r
  }

  /** Python's `max(xs)`. */
  function Max(xs: seq<real>): (m: real)
    requires |xs| > 0
    ensures m in xs && forall x | x in xs :: x <= m
  {
    if |xs| == 1 then xs[0]
    else
      var r := Max(xs[1..]);
      assert xs == [xs[0]] + xs[1..];
      if r <= xs[0] then xs[0] else r
  }

  /** The position of the first `x` in `xs`. */
  function FirstIndex<T(==)>(xs: seq<T>, x: T): (i: nat)
    requires x in xs
    ensures i < |xs| && xs[i] == x
    ensures forall j | 0 <= j < i :: xs[j] != x
  {
    if xs[0] == x then 0 else 1 + FirstIndex(xs[1..], x)
  }

  /** What `Counter(xs).most_common(1)[0][0]` returns: an element of `xs` that
      occurs most often, and among those the one seen first (a `Counter` keeps
      first-seen order and `most_common(1)` takes the first maximum). */
  ghost predicate IsMode<T>(xs: seq<T>, m: T)
  {
    && m in xs
    && (forall y | y in xs :: multiset(xs)[y] <= multiset(xs)[m])
    && (forall y | y in xs && multiset(xs)[y] == multiset(xs)[m] :: FirstIndex(xs, m) <= FirstIndex(xs, y))
  }

  /** Scans `xs` from index `i`, replacing the best index only on a strictly
      larger count, so the earliest of the most frequent elements wins. */
  function ModeScan<T(==)>(xs: seq<T>, i: nat, best: nat): (b: nat)
    requires best < i <= |xs|
    ensures b < |xs|
    decreases |xs| - i
  {
    if i == |xs| then best
    else if multiset(xs)[xs[i]] > multiset(xs)[xs[best]] then ModeScan(xs, i + 1, i)
    else ModeScan(xs, i + 1, best)
  }

  /** The scan keeps its invariant: `best` occurs at least as often as every
      element scanned so far and strictly more often than every element before
      it; at the end this holds for the whole list. */
  lemma {:induction false} ModeScanBest<T>(xs: seq<T>, i: nat, best: nat)
    requires best < i <= |xs|
    requires forall j | 0 <= j < i :: multiset(xs)[xs[j]] <= multiset(xs)[xs[best]]
    requires forall j | 0 <= j < best :: multiset(xs)[xs[j]] < multiset(xs)[xs[best]]
    ensures var b := ModeScan(xs, i, best);
      && (forall j | 0 <= j < |xs| :: multiset(xs)[xs[j]] <= multiset(xs)[xs[b]])
      && (forall j | 0 <= j < b :: multiset(xs)[xs[j]] < multiset(xs)[xs[b]])
    decreases |xs| - i
  {
    if i < |xs| {
      if multiset(xs)[xs[i]] > multiset(xs)[xs[best]] {
        ModeScanBest(xs, i + 1, i);
      } else {
        ModeScanBest(xs, i + 1, best);
      }
    }
  }

  lemma ScanGivesMode<T>(xs: seq<T>, b: nat)
    requires b < |xs|
    requires forall j | 0 <= j < |xs| :: multiset(xs)[xs[j]] <= multiset(xs)[xs[b]]
    requires forall j | 0 <= j < b :: multiset(xs)[xs[j]] < multiset(xs)[xs[b]]
    ensures IsMode(xs, xs[b])
  {
    var m := xs[b];
    assert FirstIndex(xs, m) == b;
    forall y | y in xs ensures multiset(xs)[y] <= multiset(xs)[m] {
      assert xs[FirstIndex(xs, y)] == y;
    }
    forall y | y in xs && multiset(xs)[y] == multiset(xs)[m] ensures FirstIndex(xs, m) <= FirstIndex(xs, y) {
      assert xs[FirstIndex(xs, y)] == y;
    }
  }

  /** `Counter(xs).most_common(1)[0][0]` on a non-empty list. */
  function Mode<T(==)>(xs: seq<T>): (m: T)
    requires |xs| > 0
    ensures m in xs
  {
    xs[ModeScan(xs, 1, 0)]
  }

  /** What `Mode` returns is the most frequent element, the first seen among equals. */
  lemma ModeIsMode<T>(xs: seq<T>)
    requires |xs| > 0
    ensures IsMode(xs, Mode(xs))
  {
    ModeScanBest(xs, 1, 0);
    ScanGivesMode(xs, ModeScan(xs, 1, 0));
  }

  /** The mode is determined: two elements that both meet `IsMode` are equal. */
  lemma ModeUnique<T>(xs: seq<T>, a: T, b: T)
    requires IsMode(xs, a) && IsMode(xs, b)
    ensures a == b
  {
    assert FirstIndex(xs, a) == FirstIndex(xs, b);
  }

  /** `[entry['weather'][0]['description'].title() for entry in daily_entries]`. */
  function Titles(es: seq<Entry>): (r: seq<string>)
    ensures |r| == |es|
    ensures forall i | 0 <= i < |es| :: r[i] == Title(es[i].description)
  {
    seq(|es|, i requires 0 <= i < |es| => Title(es[i].description))
  }

  /** `[entry['main']['temp'] for entry in daily_entries]`. */
  function Temps(es: seq<Entry>): (r: seq<real>)
    ensures |r| == |es|
    ensures forall i | 0 <= i < |es| :: r[i] == es[i].temp
  {
    seq(|es|, i requires 0 <= i < |es| => es[i].temp)
  }

  /** `[entry['wind']['speed'] for entry in daily_entries]`. */
  function Winds(es: seq<Entry>): (r: seq<real>)
    ensures |r| == |es|
    ensures forall i | 0 <= i < |es| :: r[i] == es[i].windSpeed
  {
    seq(|es|, i requires 0 <= i < |es| => es[i].windSpeed)
  }

  // ---------------------------------------------------------------- condition filter

  /** The keywords `for i in condition` walks: the items of a list of strings, or
      the characters of a string. `None` for any other value, on which the walk,
      the `in` test or the later `condition[0]` raises. */
  function Keywords(v: Val): (r: Option<seq<string>>)
    ensures r.Some? ==> (v.List? || v.Str?) && (|r.value| > 0 <==> Truthy(v))
    ensures v.Str? ==> r.Some? && |r.value| == |v.s| && forall j | 0 <= j < |r.value| :: r.value[j] == [v.s[j]]
    ensures v.List? ==> (r.Some? <==> forall j | 0 <= j < |v.items| :: v.items[j].Str?)
    ensures v.List? && r.Some? ==> |r.value| == |v.items| && forall j | 0 <= j < |r.value| :: Str(r.value[j]) == v.items[j]
  {
    match v
    case List(items) =>
      if forall j | 0 <= j < |items| :: items[j].Str? then Some(seq(|items|, j requires 0 <= j < |items| => items[j].s))
      else None
    case Str(s) => Some(seq(|s|, j requires 0 <= j < |s| => [s[j]]))
    case _ => None
  }

  /** What one slot adds to `common_weather`: per keyword, the title-cased
      description when the keyword occurs in the lower-cased description, and
      `"No " + keyword` otherwise. */
  function EntryRecords(description: string, ks: seq<string>): (r: seq<string>)
    ensures |r| == |ks|
  {
    seq(|ks|, j requires 0 <= j < |ks| => if IsSubstring(ks[j], Lower(description)) then Title(description) else "No " + ks[j])
  }

  /** `common_weather` after walking the first `n` slots of `es`. */
  function Records(es: seq<Entry>, ks: seq<string>, n: int): (r: seq<string>)
    requires 0 <= n <= |es|
    ensures |r| == 0 <==> n == 0 || |ks| == 0
  {
    if n == 0 then []
    else Records(es, ks, n - 1) + EntryRecords(es[n - 1].description, ks)
  }

  /** `common_weather` once the day loop has walked all the slots of the first
      `n` days of `ds`: the list is created once, before the day loop. */
  function RecordsThrough(ds: seq<string>, buckets: map<string, seq<Entry>>, ks: seq<string>, n: int): (r: seq<string>)
    requires 0 <= n <= |ds|
  {
    if n == 0 then []
    else
      var daily := Lookup(buckets, ds[n - 1]);
      RecordsThrough(ds, buckets, ks, n - 1) + Records(daily, ks, |daily|)
  }

  /** The list is shared by all days: what an earlier day counts is a prefix of
      what a later day counts. */
  lemma {:induction false} RecordsThroughGrows(ds: seq<string>, buckets: map<string, seq<Entry>>, ks: seq<string>, i: int, j: int)
    requires 0 <= i <= j <= |ds|
    ensures RecordsThrough(ds, buckets, ks, i) <= RecordsThrough(ds, buckets, ks, j)
  {
    if i < j {
      RecordsThroughGrows(ds, buckets, ks, i, j - 1);
      var a, b := RecordsThrough(ds, buckets, ks, i), RecordsThrough(ds, buckets, ks, j - 1);
      assert b <= RecordsThrough(ds, buckets, ks, j);
      assert a == b[..|a|];
    }
  }

  /** A keyword with an upper-case letter never matches: the description is
      lower-cased but the keyword is not. */
  lemma CapitalisedKeywordNeverMatches(description: string, ks: seq<string>, j: int, c: int)
    requires 0 <= j < |ks| && 0 <= c < |ks[j]| && IsUpper(ks[j][c])
    ensures EntryRecords(description, ks)[j] == "No " + ks[j]
  {
    UpperKeywordNotInLower(ks[j], description, c);
  }

  /** A keyword matches the title-cased description exactly when it matches the
      raw one: title-casing does not change what `lower()` yields. */
  lemma MatchIgnoresTitleCase(description: string, k: string)
    ensures IsSubstring(k, Lower(Title(description))) <==> IsSubstring(k, Lower(description))
  {
    LowerOfTitleFrom(description, false);
  }

  /** The glyph for the first keyword, looked up lower-cased; `None` for no
      keywords or an unknown word. */
  function FindWeatherAttribute(ks: seq<string>): (r: Option<string>)
    ensures r.Some? <==> |ks| > 0 && Lower(ks[0]) in ConditionEmojis
    ensures r.Some? ==> r.value == ConditionEmojis[Lower(ks[0])] && r.value in ConditionEmojis.Values
  {
    if |ks| > 0 && Lower(ks[0]) in ConditionEmojis then Some(ConditionEmojis[Lower(ks[0])]) else None
  }

  /** A string condition is walked character by character, and no single
      character is a word of the table, so it never gets a glyph. */
  lemma StringConditionHasNoEmoji(s: string)
    ensures FindWeatherAttribute(Keywords(Str(s)).value).None?
  {
    var ks := Keywords(Str(s)).value;
    if |ks| > 0 {
      assert |Lower(ks[0])| == 1;
    }
  }

  /** Case does not matter for the lookup. */
  lemma FindWeatherAttributeIgnoresCase(k: string, rest: seq<string>)
    ensures FindWeatherAttribute([k] + rest) == FindWeatherAttribute([Lower(k)] + rest)
  {
    var lk := Lower(k);
    assert Lower(lk) == lk;
  }
}

/** The in-process demand forecast (backend/src/services/ml.js): the horizon
    clamp, the calendar helpers, aggregation of the history into per-date and
    per-(comuna, tipo) sums kept in insertion-ordered maps, and the shape of
    `daily_forecast` and `pair_forecast`. Totals and counts are the exact values
    of the formulas; binary floating point and `toFixed(2)` are not modelled. */
module Forecast {
  import opened Wrappers
  import opened Text
  import opened JsValue
  import opened Seqs
  import opened Assoc

  /** A local calendar date as `getFullYear`, `getMonth` (0-based) and `getDate` report it. */
  datatype Date = Date(year: int, month0: int, day: int)

  predicate IsLeap(y: int)
  {
    y % 4 == 0 && (y % 100 != 0 || y % 400 == 0)
  }

  function DaysInMonth(y: int, m0: int): int
  {
    if m0 == 1 then (if IsLeap(y) then 29 else 28)
    else if m0 == 3 || m0 == 5 || m0 == 8 || m0 == 10 then 30
    else 31
  }

  /** A date the Gregorian calendar has. */
  predicate ValidDate(d: Date)
  {
    0 <= d.month0 < 12 && 1 <= d.day <= DaysInMonth(d.year, d.month0)
  }

  /** Strictly earlier in the calendar. */
  predicate Before(a: Date, b: Date)
  {
    a.year < b.year || (a.year == b.year && (a.month0 < b.month0 || (a.month0 == b.month0 && a.day < b.day)))
  }

  /** The following day: `setDate(getDate() + 1)`, which rolls over months and years. */
  function NextDay(d: Date): (r: Date)
    requires ValidDate(d)
    ensures ValidDate(r) && Before(d, r)
    ensures r.year == d.year || r.year == d.year + 1
  {
    if d.day < DaysInMonth(d.year, d.month0) then Date(d.year, d.month0, d.day + 1)
    else if d.month0 < 11 then Date(d.year, d.month0 + 1, 1)
    else Date(d.year + 1, 0, 1)
  }

  /** `addDays(d, n)` for the non-negative offsets the forecast uses. */
  function AddDays(d: Date, n: nat): (r: Date)
    requires ValidDate(d)
    ensures ValidDate(r)
    ensures d.year <= r.year <= d.year + n
  {
    if n == 0 then d else NextDay(AddDays(d, n - 1))
  }

  /** Later offsets give later dates, so the forecast never repeats a day. */
  lemma {:induction false} AddDaysIncreasing(d: Date, i: nat, j: nat)
    requires ValidDate(d) && i < j
    ensures Before(AddDays(d, i), AddDays(d, j))
    decreases j
  {
    if i < j - 1 {
      AddDaysIncreasing(d, i, j - 1);
    }
  }

  /** `formatDate`: the year as `String` gives it, then the month and day padded to two digits. */
  function FormatDate(d: Date): string
  {
    IntToString(d.year) + "-" + Pad2(IntToString(d.month0 + 1)) + "-" + Pad2(IntToString(d.day))
  }

  /** Reads back a `YYYY-MM-DD` text. */
  function ParseYmd(s: string): Option<Date>
  {
    if |s| == 10 && s[4] == '-' && s[7] == '-' && AllDigits(s[..4]) && AllDigits(s[5..7]) && AllDigits(s[8..]) then
      Some(Date(DigitsValue(s[..4]), DigitsValue(s[5..7]) - 1, DigitsValue(s[8..])))
    else None
  }

  lemma FourDigits(n: nat)
    requires 1000 <= n <= 9999
    ensures |NatToString(n)| == 4
  {
    assert NatToString(n) == NatToString(n / 10) + [DigitChar(n % 10)];
    assert NatToString(n / 10) == NatToString(n / 100) + [DigitChar(n / 10 % 10)];
    assert NatToString(n / 100) == NatToString(n / 1000) + [DigitChar(n / 100 % 10)];
  }

  lemma Pad2Value(m: nat)
    requires 1 <= m <= 99
    ensures var t := Pad2(NatToString(m)); |t| == 2 && AllDigits(t) && DigitsValue(t) == m
  {
    NatToStringValue(m);
    NatToStringShape(m);
    var u := NatToString(m);
    if m < 10 {
      var t := Pad2(u);
      assert t == ['0'] + u;
      assert t[..1] == ['0'];
      assert DigitsValue(['0']) == 0 by {
        assert ['0'][..0] == [];
      }
    }
  }

  /** `formatDate` is the inverse of reading `YYYY-MM-DD` back, for four-digit years. */
  lemma FormatDateRoundTrip(d: Date)
    requires ValidDate(d) && 1000 <= d.year <= 9999
    ensures |FormatDate(d)| == 10
    ensures ParseYmd(FormatDate(d)) == Some(d)
  {
    var y, m, dd := NatToString(d.year), Pad2(NatToString(d.month0 + 1)), Pad2(NatToString(d.day));
    FourDigits(d.year);
    NatToStringValue(d.year);
    Pad2Value(d.month0 + 1);
    Pad2Value(d.day);
    var s := FormatDate(d);
    assert s == y + "-" + m + "-" + dd;
    assert s[..4] == y && s[5..7] == m && s[8..] == dd;
  }

  /** A date with a four-digit year is written with ten characters. */
  lemma FormatDateLength(d: Date)
    requires ValidDate(d) && 1000 <= d.year <= 9999
    ensures |FormatDate(d)| == 10
  {
    FormatDateRoundTrip(d);
  }

  /** Two valid dates with four-digit years format differently. */
  lemma FormatDateInjective(a: Date, b: Date)
    requires ValidDate(a) && 1000 <= a.year <= 9999
    requires ValidDate(b) && 1000 <= b.year <= 9999
    requires FormatDate(a) == FormatDate(b)
    ensures a == b
  {
    FormatDateRoundTrip(a);
    FormatDateRoundTrip(b);
  }

  /** `Math.min(Math.max(Number(h) || 7, 1), 30)`. */
  function ClampHorizon(h: Option<Json>): (r: int)
    ensures 1 <= r <= 30
    ensures 1 <= NumberOr(h, 7) <= 30 ==> r == NumberOr(h, 7)
    ensures NumberOr(h, 7) < 1 ==> r == 1
    ensures NumberOr(h, 7) > 30 ==> r == 30
    ensures ToNumber(h).None? || ToNumber(h) == Some(0) ==> r == 7
  {
    var n := NumberOr(h, 7);
    if n < 1 then 1 else if n > 30 then 30 else n
  }

  /** `(item[f] || '').toLowerCase()`; `None` when a truthy non-string makes it throw. */
  function LowerOr(item: Obj, f: string): Option<string>
  {
    var v := Or(Get(item, f), Some(Str("")));
    if v.Some? && v.value.Str? then Some(Lower(v.value.s)) else None
  }

  /** What one history item contributes. */
  datatype ItemRead = Skipped | Throws | Entry(date: string, pair: string, count: int)

  /** One turn of the aggregation loop: an item whose date does not parse is skipped
      before anything else is read from it. */
  function ReadItem(item: Obj, parse: Option<Json> -> Option<Date>): ItemRead
  {
    var d := parse(Get(item, "date"));
    if d.None? then Skipped
    else
      var comuna, tipo := LowerOr(item, "comuna"), LowerOr(item, "tipo_servicio");
      if comuna.None? || tipo.None? then Throws
      else Entry(FormatDate(d.value), comuna.value + "|" + tipo.value, NumberOr(Get(item, "count"), 0))
  }

  /** `ReadItem` as the function the aggregation folds with. */
  function Reader(parse: Option<Json> -> Option<Date>): Obj -> ItemRead
  {
    item => ReadItem(item, parse)
  }

  /** The two maps the loop builds. */
  datatype Totals = Totals(byDate: Entries<int>, byPair: Entries<int>)

  /** Folds one item into the maps. */
  function Step(t: Option<Totals>, r: ItemRead): Option<Totals>
  {
    if t.None? then None
    else
      match r
      case Skipped => t
      case Throws => None
      case Entry(d, p, c) =>
        Some(Totals(Upsert(t.value.byDate, d, 0, AddTo(c)), Upsert(t.value.byPair, p, 0, AddTo(c))))
  }

  /** The maps after the loop has read `items` with `read`; `None` when an item throws. */
  function Aggregate(items: seq<Obj>, read: Obj -> ItemRead): Option<Totals>
  {
    if items == [] then Some(Totals([], []))
    else Step(Aggregate(items[..|items| - 1], read), read(items[|items| - 1]))
  }

  /** The sum of the counts of the items that are not skipped. */
  function ValidSum(items: seq<Obj>, read: Obj -> ItemRead): int
  {
    if items == [] then 0
    else
      var r := read(items[|items| - 1]);
      ValidSum(items[..|items| - 1], read) + (if r.Entry? then r.count else 0)
  }

  lemma AggregateStep(items: seq<Obj>, k: nat, read: Obj -> ItemRead)
    requires k < |items|
    ensures Aggregate(items[..k + 1], read) == Step(Aggregate(items[..k], read), read(items[k]))
  {
    assert items[..k + 1][..k] == items[..k];
  }

  /** Once an item throws, so does every longer history. */
  lemma {:induction false} AggregateThrowsOn(items: seq<Obj>, k: nat, read: Obj -> ItemRead)
    requires k <= |items| && Aggregate(items[..k], read).None?
    ensures Aggregate(items, read).None?
    decreases |items| - k
  {
    if k < |items| {
      AggregateStep(items, k, read);
      AggregateThrowsOn(items, k + 1, read);
    } else {
      assert items[..k] == items;
    }
  }

  /** A turn of the loop throws exactly when an earlier one did or this item throws. */
  lemma StepThrows(t: Option<Totals>, r: ItemRead)
    ensures Step(t, r).None? <==> t.None? || r.Throws?
  {
  }

  /** The aggregation throws exactly when some item does. */
  lemma {:induction false} AggregateThrows(items: seq<Obj>, read: Obj -> ItemRead)
    ensures Aggregate(items, read).None? <==> exists i :: 0 <= i < |items| && read(items[i]).Throws?
  {
    if items != [] {
      var init := items[..|items| - 1];
      AggregateThrows(init, read);
      StepThrows(Aggregate(init, read), read(items[|items| - 1]));
      if exists i :: 0 <= i < |init| && read(init[i]).Throws? {
        var i :| 0 <= i < |init| && read(init[i]).Throws?;
        assert items[i] == init[i];
      }
      if exists i :: 0 <= i < |items| && read(items[i]).Throws? {
        var i :| 0 <= i < |items| && read(items[i]).Throws?;
        if i < |init| {
          assert init[i] == items[i];
        }
      }
    }
  }

  /** Both maps add up to the sum of the counts of the items that are not skipped. */
  lemma {:induction false} AggregateSums(items: seq<Obj>, read: Obj -> ItemRead)
    requires Aggregate(items, read).Some?
    ensures Sum(Values(Aggregate(items, read).value.byDate)) == ValidSum(items, read)
    ensures Sum(Values(Aggregate(items, read).value.byPair)) == ValidSum(items, read)
  {
    if items != [] {
      var init := items[..|items| - 1];
      AggregateSums(init, read);
      var t := Aggregate(init, read).value;
      var r := read(items[|items| - 1]);
      if r.Entry? {
        SumUpsertAdd(t.byDate, r.date, r.count);
        SumUpsertAdd(t.byPair, r.pair, r.count);
      }
    }
  }

  /** Each date and each pair key appears once in its map. */
  lemma {:induction false} AggregateDistinct(items: seq<Obj>, read: Obj -> ItemRead)
    requires Aggregate(items, read).Some?
    ensures DistinctKeys(Aggregate(items, read).value.byDate)
    ensures DistinctKeys(Aggregate(items, read).value.byPair)
  {
    if items != [] {
      var t := Aggregate(items[..|items| - 1], read);
      AggregateDistinct(items[..|items| - 1], read);
      var r := read(items[|items| - 1]);
      if r.Entry? {
        UpsertDistinct(t.value.byDate, r.date, 0, AddTo(r.count));
        UpsertDistinct(t.value.byPair, r.pair, 0, AddTo(r.count));
      }
    }
  }

  /** The item is not skipped. */
  function Counted(read: Obj -> ItemRead): Obj -> bool
  {
    item => !read(item).Skipped?
  }

  lemma AggregateAppend(init: seq<Obj>, last: Obj, read: Obj -> ItemRead)
    ensures Aggregate(init + [last], read) == Step(Aggregate(init, read), read(last))
  {
    assert (init + [last])[..|init|] == init;
  }

  /** Skipped items contribute nothing: dropping them changes neither map. */
  lemma {:induction false} AggregateIgnoresSkipped(items: seq<Obj>, read: Obj -> ItemRead)
    ensures Aggregate(items, read) == Aggregate(Filter(Counted(read), items), read)
  {
    if items != [] {
      var init, last := items[..|items| - 1], items[|items| - 1];
      assert items == init + [last];
      AggregateIgnoresSkipped(init, read);
      FilterAppend(Counted(read), init, last);
      AggregateAppend(init, last, read);
      if read(last).Skipped? {
        assert Filter(Counted(read), items) == Filter(Counted(read), init);
      } else {
        AggregateAppend(Filter(Counted(read), init), last, read);
      }
    }
  }

  /** The date parses. */
  function DateParses(parse: Option<Json> -> Option<Date>): Obj -> bool
  {
    item => parse(Get(item, "date")).Some?
  }

  /** History items whose date does not parse are ignored altogether. */
  lemma AggregateIgnoresBadDates(items: seq<Obj>, parse: Option<Json> -> Option<Date>)
    ensures Aggregate(items, Reader(parse)) == Aggregate(Filter(DateParses(parse), items), Reader(parse))
  {
    AggregateIgnoresSkipped(items, Reader(parse));
    FilterCongruent(Counted(Reader(parse)), DateParses(parse), items);
  }

  /** Comunas that differ only in letter case read the same (likewise for the service type). */
  lemma ComunaCaseIgnored(item: Obj, s: string, parse: Option<Json> -> Option<Date>)
    ensures ReadItem(item["comuna" := Str(s)], parse) == ReadItem(item["comuna" := Str(Lower(s))], parse)
  {
    var a, b := item["comuna" := Str(s)], item["comuna" := Str(Lower(s))];
    LowerIdempotent(s);
    assert LowerOr(a, "comuna") == LowerOr(b, "comuna");
    ReadsSame(a, b, parse);
  }

  /** Items that agree on the date, the lower-cased comuna and type, and the count read the same. */
  lemma ReadsSame(a: Obj, b: Obj, parse: Option<Json> -> Option<Date>)
    requires Get(a, "date") == Get(b, "date") && Get(a, "count") == Get(b, "count")
    requires LowerOr(a, "comuna") == LowerOr(b, "comuna") && LowerOr(a, "tipo_servicio") == LowerOr(b, "tipo_servicio")
    ensures ReadItem(a, parse) == ReadItem(b, parse)
  {
  }

  /** One entry of `pairList`. `tipoServicio` is `None` when the key splits into one piece. */
  datatype PairWeight = PairWeight(comuna: string, tipoServicio: Option<string>, weight: real)

  /** `[comuna, tipo_servicio] = key.split('|')`. */
  function SplitPair(key: string): (string, Option<string>)
  {
    var parts := Split(key, '|');
    (parts[0], if |parts| >= 2 then Some(parts[1]) else None)
  }

  /** Keys without a `|` in either part split back into the comuna and the type. */
  lemma SplitPairRoundTrip(comuna: string, tipo: string)
    requires '|' !in comuna && '|' !in tipo
    ensures SplitPair(comuna + "|" + tipo) == (comuna, Some(tipo))
  {
    assert comuna + "|" + tipo == comuna + ['|'] + tipo;
    SplitFirst(comuna, '|', tipo);
    SplitNone(tipo, '|');
  }

  /** A `|` inside a comuna makes two different pairs share one key, and the type
      read back is a piece of the comuna. */
  lemma PairKeyCollision()
    ensures "a|b" + "|" + "c" == "a" + "|" + "b|c"
    ensures SplitPair("a|b" + "|" + "c") == ("a", Some("b"))
  {
    var key := "a|b" + "|" + "c";
    assert key == "a" + ['|'] + ("b" + ['|'] + "c");
    SplitFirst("a", '|', "b" + ['|'] + "c");
    SplitFirst("b", '|', "c");
    SplitNone("c", '|');
  }

  /** `pairList`: each pair with its share of the pair total. */
  function PairList(byPair: Entries<int>, pairTotal: int): (r: seq<PairWeight>)
    requires pairTotal > 0
    ensures |r| == |byPair|
    ensures forall i :: 0 <= i < |byPair| ==>
      r[i] == PairWeight(SplitPair(byPair[i].0).0, SplitPair(byPair[i].0).1, Share(byPair[i].1, pairTotal))
  {
    seq(|byPair|, i requires 0 <= i < |byPair| =>
      PairWeight(SplitPair(byPair[i].0).0, SplitPair(byPair[i].0).1, Share(byPair[i].1, pairTotal)))
  }

  datatype DayForecast = DayForecast(date: string, total: real)

  datatype PairForecast = PairForecast(date: string, comuna: string, tipoServicio: Option<string>, count: real)

  /** The reply, or `Rejected` when an item throws. */
  datatype ForecastResult = Forecast(daily: seq<DayForecast>, pairs: seq<PairForecast>) | Rejected

  /** `1 + 0.05 * (i / horizon)`. */
  function Factor(i: int, horizon: int): real
    requires horizon > 0
  {
    1.0 + 0.05 * (i as real / horizon as real)
  }

  /** `avgDaily * factor` for day `i`. */
  function DayTotal(avg: real, i: int, horizon: int): real
    requires horizon > 0
  {
    avg * Factor(i, horizon)
  }

  /** `count / pairTotal`. */
  function Share(count: int, pairTotal: int): real
    requires pairTotal > 0
  {
    count as real / pairTotal as real
  }

  /** `day.total * p.weight`. */
  function PairCount(total: real, weight: real): real
  {
    total * weight
  }

  /** The entry for day `i` of the horizon: its date and `avgDaily * factor`. */
  function DayEntry(today: Date, i: nat, horizon: nat, avg: real): DayForecast
    requires ValidDate(today) && horizon > 0
  {
    DayForecast(FormatDate(AddDays(today, i)), DayTotal(avg, i, horizon))
  }

  /** `daily_forecast` for a given daily average: days `today + 1 .. today + horizon`. */
  function Daily(today: Date, horizon: nat, avg: real): (r: seq<DayForecast>)
    requires ValidDate(today) && horizon > 0
    ensures |r| == horizon
    ensures forall k :: 0 <= k < horizon ==> r[k] == DayEntry(today, k + 1, horizon, avg)
  {
    seq(horizon, k requires 0 <= k < horizon => DayEntry(today, k + 1, horizon, avg))
  }

  /** The entries `pair_forecast` gets for one day, in `pairList` order. */
  function DayPairs(day: DayForecast, pairs: seq<PairWeight>): (r: seq<PairForecast>)
    ensures |r| == |pairs|
    ensures forall j :: 0 <= j < |pairs| ==>
      r[j] == PairForecast(day.date, pairs[j].comuna, pairs[j].tipoServicio, PairCount(day.total, pairs[j].weight))
  {
    seq(|pairs|, j requires 0 <= j < |pairs| =>
      PairForecast(day.date, pairs[j].comuna, pairs[j].tipoServicio, PairCount(day.total, pairs[j].weight)))
  }

  /** One block of pairs per day. */
  function DayBlocks(daily: seq<DayForecast>, pairs: seq<PairWeight>): (r: seq<seq<PairForecast>>)
    ensures |r| == |daily|
    ensures forall d :: 0 <= d < |daily| ==> r[d] == DayPairs(daily[d], pairs)
  {
    seq(|daily|, d requires 0 <= d < |daily| => DayPairs(daily[d], pairs))
  }

  /** `pair_forecast`, day by day. */
  function PairsFor(daily: seq<DayForecast>, pairs: seq<PairWeight>): seq<PairForecast>
  {
    Concat(DayBlocks(daily, pairs))
  }

  /** `pair_forecast` has one entry per day and pair, day-major: entry `d * |pairs| + j`
      is day `d` with pair `j`. */
  lemma {:induction false} PairsForShape(daily: seq<DayForecast>, pairs: seq<PairWeight>, d: nat, j: nat)
    requires d < |daily| && j < |pairs|
    ensures |PairsFor(daily, pairs)| == |daily| * |pairs|
    ensures d * |pairs| + j < |daily| * |pairs|
    ensures PairsFor(daily, pairs)[d * |pairs| + j] == DayPairs(daily[d], pairs)[j]
  {
    var b := DayBlocks(daily, pairs);
    forall i | 0 <= i < |b|
      ensures |b[i]| == |pairs|
    {
      assert b[i] == DayPairs(daily[i], pairs);
    }
    ConcatAt(b, |pairs|, d, j);
    assert b[d] == DayPairs(daily[d], pairs);
  }

  /** Sum of a sequence of reals. */
  function RSum(s: seq<real>): real
  {
    if s == [] then 0.0 else s[0] + RSum(s[1..])
  }

  function Counts(ps: seq<PairForecast>): (r: seq<real>)
    ensures |r| == |ps|
  {
    seq(|ps|, j requires 0 <= j < |ps| => ps[j].count)
  }

  /** The per-pair counts of a day whose total is `total`, for pair counts `vs`. */
  function Shares(total: real, vs: seq<int>, pairTotal: int): (r: seq<real>)
    requires pairTotal > 0
    ensures |r| == |vs|
    ensures forall i :: 0 <= i < |vs| ==> r[i] == PairCount(total, Share(vs[i], pairTotal))
  {
    seq(|vs|, i requires 0 <= i < |vs| => PairCount(total, Share(vs[i], pairTotal)))
  }

  lemma ShareAdd(total: real, a: int, b: int, pairTotal: int)
    requires pairTotal > 0
    ensures PairCount(total, Share(a, pairTotal)) + PairCount(total, Share(b, pairTotal))
            == PairCount(total, Share(a + b, pairTotal))
  {
    var t := pairTotal as real;
    assert a as real / t + b as real / t == (a + b) as real / t;
    assert total * (a as real / t) + total * (b as real / t) == total * (a as real / t + b as real / t);
  }

  lemma {:induction false} ShareSum(total: real, vs: seq<int>, pairTotal: int)
    requires pairTotal > 0
    ensures RSum(Shares(total, vs, pairTotal)) == PairCount(total, Share(Sum(vs), pairTotal))
  {
    if vs == [] {
      assert PairCount(total, Share(0, pairTotal)) == 0.0;
    } else {
      ShareSum(total, vs[1..], pairTotal);
      assert Shares(total, vs, pairTotal)[1..] == Shares(total, vs[1..], pairTotal);
      ShareAdd(total, vs[0], Sum(vs[1..]), pairTotal);
    }
  }

  /** A day's per-pair counts add up to that day's total: the weights sum to one. */
  lemma DayPairsSplitTotal(day: DayForecast, byPair: Entries<int>)
    requires Sum(Values(byPair)) > 0
    ensures RSum(Counts(DayPairs(day, PairList(byPair, Sum(Values(byPair)))))) == day.total
  {
    var T := Sum(Values(byPair));
    CountsAreShares(day, byPair, T);
    ShareSum(day.total, Values(byPair), T);
    WholeShare(day.total, T);
  }

  /** The counts of a day's pairs are the day's total times each pair's share. */
  lemma CountsAreShares(day: DayForecast, byPair: Entries<int>, T: int)
    requires T > 0
    ensures Counts(DayPairs(day, PairList(byPair, T))) == Shares(day.total, Values(byPair), T)
  {
    var pl := PairList(byPair, T);
    var a, b := Counts(DayPairs(day, pl)), Shares(day.total, Values(byPair), T);
    forall j | 0 <= j < |a| ensures a[j] == b[j] {
      assert pl[j].weight == Share(byPair[j].1, T);
    }
  }

  /** The share of the whole is the whole total. */
  lemma WholeShare(total: real, T: int)
    requires T > 0
    ensures PairCount(total, Share(T, T)) == total
  {
    assert T as real / T as real == 1.0;
  }

  /** `avgDaily`: the date total over the number of dates, or over 1 when there are none. */
  function Average(t: Totals): real
  {
    Sum(Values(t.byDate)) as real / (if |t.byDate| > 1 then |t.byDate| else 1) as real
  }

  /** The loop for an empty history: every day gets total 0. */
  method ZeroDaily(today: Date, h: nat) returns (daily: seq<DayForecast>)
    requires ValidDate(today) && h > 0
    ensures daily == Daily(today, h, 0.0)
    ensures forall k :: 0 <= k < h ==> daily[k].total == 0.0
  {
    daily := [];
    var i := 1;
    while i <= h
      invariant 1 <= i <= h + 1
      invariant daily == Daily(today, h, 0.0)[..i - 1]
    {
      DailyStep(today, h, 0.0, i);
      assert DayTotal(0.0, i, h) == 0.0;
      daily := daily + [DayForecast(FormatDate(AddDays(today, i)), 0.0)];
      i := i + 1;
    }
    DailyTotals(today, h, 0.0);
  }

  /** The aggregation loop over `history`; `None` when an item throws. */
  method AggregateHistory(items: seq<Obj>, parse: Option<Json> -> Option<Date>) returns (t: Option<Totals>)
    ensures t == Aggregate(items, Reader(parse))
  {
    var byDate: Entries<int> := [];
    var byPair: Entries<int> := [];
    var k := 0;
    while k < |items|
      invariant 0 <= k <= |items|
      invariant Aggregate(items[..k], Reader(parse)) == Some(Totals(byDate, byPair))
    {
      AggregateStep(items, k, Reader(parse));
      var item := items[k];
      var d := parse(Get(item, "date"));
      if d.Some? {
        var dateStr := FormatDate(d.value);
        var c := NumberOr(Get(item, "count"), 0);
        var comuna := LowerOr(item, "comuna");
        var tipo := LowerOr(item, "tipo_servicio");
        if comuna.None? || tipo.None? {
          AggregateThrowsOn(items, k + 1, Reader(parse));
          return None;
        }
        byDate := Upsert(byDate, dateStr, 0, AddTo(c));
        var key := comuna.value + "|" + tipo.value;
        byPair := Upsert(byPair, key, 0, AddTo(c));
      }
      k := k + 1;
    }
    assert items[..k] == items;
    return Some(Totals(byDate, byPair));
  }

  /** The `daily_forecast` loop. */
  method DailyForecast(today: Date, h: nat, avgDaily: real) returns (daily: seq<DayForecast>)
    requires ValidDate(today) && h > 0
    ensures daily == Daily(today, h, avgDaily)
  {
    daily := [];
    var i := 1;
    while i <= h
      invariant 1 <= i <= h + 1
      invariant daily == Daily(today, h, avgDaily)[..i - 1]
    {
      DailyStep(today, h, avgDaily, i);
      daily := daily + [DayForecast(FormatDate(AddDays(today, i)), DayTotal(avgDaily, i, h))];
      i := i + 1;
    }
  }

  /** The totals of `Daily` do not depend on the dates. */
  lemma DailyTotals(today: Date, h: nat, avg: real)
    requires ValidDate(today) && h > 0
    ensures forall k :: 0 <= k < h ==> Daily(today, h, avg)[k].total == DayTotal(avg, k + 1, h)
  {
  }

  /** One more day of `Daily`. */
  lemma DailyStep(today: Date, h: nat, avg: real, i: nat)
    requires ValidDate(today) && 1 <= i <= h
    ensures Daily(today, h, avg)[..i] == Daily(today, h, avg)[..i - 1] + [DayEntry(today, i, h, avg)]
  {
    PrefixSnoc(Daily(today, h, avg), i);
  }

  /** The nested `pair_forecast` loops: for each day, for each pair. */
  method PairForecastLoop(daily: seq<DayForecast>, pairList: seq<PairWeight>) returns (pairForecast: seq<PairForecast>)
    ensures pairForecast == PairsFor(daily, pairList)
  {
    pairForecast := [];
    var dIdx := 0;
    while dIdx < |daily|
      invariant 0 <= dIdx <= |daily|
      invariant pairForecast == Concat(DayBlocks(daily, pairList)[..dIdx])
    {
      var day := daily[dIdx];
      var j := 0;
      while j < |pairList|
        invariant 0 <= j <= |pairList|
        invariant pairForecast == Concat(DayBlocks(daily, pairList)[..dIdx]) + DayPairs(day, pairList)[..j]
      {
        var p := pairList[j];
        pairForecast := pairForecast + [PairForecast(day.date, p.comuna, p.tipoServicio, PairCount(day.total, p.weight))];
        assert DayPairs(day, pairList)[..j + 1] == DayPairs(day, pairList)[..j] + [DayPairs(day, pairList)[j]];
        j := j + 1;
      }
      ConcatPrefix(DayBlocks(daily, pairList), dIdx);
      dIdx := dIdx + 1;
    }
    assert DayBlocks(daily, pairList)[..|daily|] == DayBlocks(daily, pairList);
  }

  /** `forecastML(body)`. `history` is `body.history` when it is an array, `parse` the
      engine's reading of an item's `date` as a local calendar date, `today` the
      calendar date of `new Date()`. */
  method ForecastML(history: Option<seq<Obj>>, horizonDays: Option<Json>,
                    parse: Option<Json> -> Option<Date>, today: Date) returns (r: ForecastResult)
    requires ValidDate(today)
    ensures var h, items := ClampHorizon(horizonDays), if history.Some? then history.value else [];
      if items == [] then r == Forecast(Daily(today, h, 0.0), [])
      else
        var t := Aggregate(items, Reader(parse));
        if t.None? then r == Rejected
        else
          var daily := Daily(today, h, Average(t.value));
          var pairTotal := Sum(Values(t.value.byPair));
          r == Forecast(daily, if pairTotal > 0 then PairsFor(daily, PairList(t.value.byPair, pairTotal)) else [])
  {
    var h := ClampHorizon(horizonDays);
    var items := if history.Some? then history.value else [];
    if |items| == 0 {
      var daily := ZeroDaily(today, h);
      return Forecast(daily, []);
    }
    var t := AggregateHistory(items, parse);
    if t.None? {
      return Rejected;
    }
    var byDate, byPair := t.value.byDate, t.value.byPair;
    var totalSum := Sum(Values(byDate));
    var avgDaily := totalSum as real / (if |byDate| > 1 then |byDate| else 1) as real;
    var daily := DailyForecast(today, h, avgDaily);
    var pairTotal := Sum(Values(byPair));
    var pairForecast: seq<PairForecast> := [];
    if pairTotal > 0 {
      var pairList := PairList(byPair, pairTotal);
      pairForecast := PairForecastLoop(daily, pairList);
    }
    return Forecast(daily, pairForecast);
  }

  /** The forecast dates are distinct consecutive days after today, each written
      `YYYY-MM-DD` when the year has four digits. */
  lemma DailyDates(today: Date, h: nat, avg: real, k: nat, l: nat)
    requires ValidDate(today) && 1000 <= today.year && today.year + 30 <= 9999
    requires 0 < h <= 30 && k < l < h
    ensures Daily(today, h, avg)[k].date != Daily(today, h, avg)[l].date
    ensures |Daily(today, h, avg)[k].date| == 10
  {
    AddDaysIncreasing(today, k + 1, l + 1);
    EarlierDateTextDiffers(AddDays(today, k + 1), AddDays(today, l + 1));
  }

  /** An earlier date is written differently, in ten characters when its year has four digits. */
  lemma EarlierDateTextDiffers(a: Date, b: Date)
    requires ValidDate(a) && 1000 <= a.year <= 9999
    requires ValidDate(b) && 1000 <= b.year <= 9999
    requires Before(a, b)
    ensures FormatDate(a) != FormatDate(b) && |FormatDate(a)| == 10
  {
    FormatDateLength(a);
    if FormatDate(a) == FormatDate(b) {
      FormatDateInjective(a, b);
    }
  }
}

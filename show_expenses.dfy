/** The expense list page (frontend/src/pages/showExpenses.jsx): the
    period keys of the analytics chart (month, ISO week, day) and their
    labels, the search and category filter of the list, the grouping of
    the in-range expenses into one summed point per period, sorted
    chronologically, the total and average per period, and the category
    choices of the filter. */
module ShowExpenses {
  import opened Numeric
  import opened Sequences
  import opened Text
  import opened Outcomes
  import opened Calendar
  import opened JsValues
  import opened Grouping
  import opened LocalTime

  /** The `agg` setting: the length of one chart period. Any setting other
      than monthly and weekly behaves as daily. */
  datatype Aggregation = Daily | Weekly | Monthly

  // ---------- Period keys ----------

  /** `String(k).padStart(2, '0')` for k below 100: two digits worth k. */
  function TwoDigits(k: nat): (t: string)
    requires k < 100
    ensures |t| == 2 && IsDigitString(t) && DigitsValue(t) == k
  {
    NatToStringLength(k);
    NatToStringRoundTrip(k);
    var s := NatToString(k);
    var t := PadStart(s, 2, '0');
    if k < 10 then
      assert t[..1] == "0" && t[1] == s[0];
      assert DigitsValue(t[..1]) == 0 by {
        assert t[..1][..0] == "";
      }
      assert DigitsValue(s) == s[0] as int - '0' as int by {
        assert s[..0] == "";
      }
      t
    else t
  }

  /** A digit string holds no hyphen. */
  lemma DigitsWithout(t: string, c: char)
    requires IsDigitString(t) && !IsDigitChar(c)
    ensures !HasChar(t, c)
  {
  }

  /** Number(t) for a digit string is its decimal value. */
  lemma DigitsNumber(t: string, host: Host)
    requires IsDigitString(t)
    ensures StringToNumber(t, host) == Finite(DigitsValue(t) as real)
  {
    assert IsDigitChar(t[0]) && IsDigitChar(t[|t| - 1]);
    TrimIdentity(t);
  }

  /** formatMonthKey: the year, a hyphen and the month as 01 to 12. For a
      year from 0 on, the key splits at its only hyphen into the decimal year
      and the two-digit month. */
  function MonthKey(d: LocalDate): (key: string)
    ensures d.year >= 0 ==> Split(key, '-') == [NatToString(d.year), TwoDigits(d.month + 1)]
  {
    var key := IntToString(d.year) + "-" + TwoDigits(d.month + 1);
    if d.year >= 0 then
      DigitsWithout(NatToString(d.year), '-');
      DigitsWithout(TwoDigits(d.month + 1), '-');
      SplitOnce(NatToString(d.year), '-', TwoDigits(d.month + 1));
      key
    else key
  }

  /** formatDayKey: year, two-digit month and two-digit day of the month,
      joined by hyphens; for a year from 0 on it splits back into the three. */
  function DayKey(d: LocalDate): (key: string)
    ensures d.year >= 0 ==> Split(key, '-') == [NatToString(d.year), TwoDigits(d.month + 1), TwoDigits(d.day)]
  {
    var mm, dd := TwoDigits(d.month + 1), TwoDigits(d.day);
    var key := IntToString(d.year) + "-" + mm + "-" + dd;
    if d.year >= 0 then
      var y := NatToString(d.year);
      DigitsWithout(y, '-');
      DigitsWithout(mm, '-');
      DigitsWithout(dd, '-');
      assert key == y + ['-'] + (mm + ['-'] + dd);
      SplitFirst(y, '-', mm + ['-'] + dd);
      SplitOnce(mm, '-', dd);
      key
    else key
  }

  /** getWeekKey: the ISO week-numbering year (the year of the week's
      Thursday), "-W" and the week number as 01 to 53; for a year from 0 on it
      splits at "-W" back into the two. */
  function WeekKey(d: LocalDate): (key: string)
    ensures IsoWeekOf(d).year >= 0 ==>
      SplitOn(key, "-W") == [NatToString(IsoWeekOf(d).year), TwoDigits(IsoWeekOf(d).week)]
  {
    var w := IsoWeekOf(d);
    var key := IntToString(w.year) + "-W" + TwoDigits(w.week);
    if w.year >= 0 then
      DigitsWithout(NatToString(w.year), '-');
      DigitsWithout(TwoDigits(w.week), '-');
      SplitOnOnce(NatToString(w.year), "-W", TwoDigits(w.week));
      key
    else key
  }

  /** The key of the period a date falls in. */
  function KeyOf(agg: Aggregation, d: LocalDate): string
  {
    match agg
    case Monthly => MonthKey(d)
    case Weekly => WeekKey(d)
    case Daily => DayKey(d)
  }

  // ---------- Labels ----------

  const MonthNames: seq<string> := ["Jan", "Feb", "Mar", "Apr", "May", "Jun", "Jul", "Aug", "Sep", "Oct", "Nov", "Dec"]

  /** `monthNames[n]` in a template string: "undefined" unless n is an index. */
  function MonthNameAt(n: JsNum): string
  {
    if IsInteger(n) && 0.0 <= n.r < 12.0 then MonthNames[n.r.Floor] else "undefined"
  }

  /** Number(parts[i]), which is NaN for a missing part. */
  function Part(parts: seq<string>, i: nat, host: Host): JsNum
  {
    if i < |parts| then StringToNumber(parts[i], host) else NaN
  }

  /** keyToLabel: "" for the empty key; in the monthly view the month name and
      the year; in the weekly view the key with its first hyphen made a space;
      otherwise the key itself. */
  function KeyToLabel(key: string, agg: Aggregation, host: Host): (name: string)
    ensures key == "" ==> name == ""
    ensures agg == Daily ==> name == key
  {
    if key == "" then ""
    else
      match agg
      case Monthly =>
        var parts := Split(key, '-');
        MonthNameAt(JsAdd(Part(parts, 1, host), Finite(-1.0))) + " " + parts[0]
      case Weekly => ReplaceFirst(key, '-', " ")
      case Daily => key
  }

  /** A month key is labelled with the month's short name and the year. */
  lemma MonthLabel(d: LocalDate, host: Host)
    requires d.year >= 0
    ensures KeyToLabel(MonthKey(d), Monthly, host) == MonthNames[d.month] + " " + NatToString(d.year)
  {
    var key, y, mm := MonthKey(d), NatToString(d.year), TwoDigits(d.month + 1);
    var i := DigitsValue(mm) - 1;
    assert i == d.month;
    LabelOfParts(key, y, mm, host);
    assert KeyToLabel(key, Monthly, host) == MonthNames[i] + " " + y;
  }

  lemma LabelOfParts(key: string, y: string, mm: string, host: Host)
    requires Split(key, '-') == [y, mm] && |y| > 0
    requires IsDigitString(mm) && 1 <= DigitsValue(mm) <= 12
    ensures KeyToLabel(key, Monthly, host) == MonthNames[DigitsValue(mm) - 1] + " " + y
  {
    assert key != "" by {
      assert Split("", '-') == [""];
    }
    PartsLabel([y, mm], host);
  }

  /** The label built from the parts [y, mm] of a month key. */
  lemma PartsLabel(parts: seq<string>, host: Host)
    requires |parts| == 2 && IsDigitString(parts[1]) && 1 <= DigitsValue(parts[1]) <= 12
    ensures MonthNameAt(JsAdd(Part(parts, 1, host), Finite(-1.0))) + " " + parts[0]
      == MonthNames[DigitsValue(parts[1]) - 1] + " " + parts[0]
  {
    DigitsNumber(parts[1], host);
    MonthNameOf(Part(parts, 1, host), DigitsValue(parts[1]) - 1);
  }

  /** The month number m, less one, names month m - 1. */
  lemma MonthNameOf(x: JsNum, i: int)
    requires 0 <= i < 12 && x == Finite((i + 1) as real)
    ensures MonthNameAt(JsAdd(x, Finite(-1.0))) == MonthNames[i]
  {
    assert JsAdd(x, Finite(-1.0)) == Finite(i as real);
    assert (i as real).Floor == i;
  }

  /** A week key is labelled "YYYY Www". */
  lemma WeekLabel(d: LocalDate, host: Host)
    requires IsoWeekOf(d).year >= 0
    ensures var w := IsoWeekOf(d);
      KeyToLabel(WeekKey(d), Weekly, host) == NatToString(w.year) + " W" + TwoDigits(w.week)
  {
    var w := IsoWeekOf(d);
    var y, ww := NatToString(w.year), TwoDigits(w.week);
    assert WeekKey(d) == y + "-W" + ww;
    WeekLabelOfParts(WeekKey(d), y, ww, host);
  }

  lemma WeekLabelOfParts(key: string, y: string, ww: string, host: Host)
    requires key == y + "-W" + ww && IsDigitString(y)
    ensures KeyToLabel(key, Weekly, host) == y + " W" + ww
  {
    assert key == y + ['-'] + ("W" + ww);
    ReplaceAfterDigits(y, "W" + ww);
  }

  /** Replacing the first hyphen of a digit string, a hyphen and a rest. */
  lemma ReplaceAfterDigits(y: string, rest: string)
    requires IsDigitString(y)
    ensures ReplaceFirst(y + ['-'] + rest, '-', " ") == y + " " + rest
  {
    var key := y + ['-'] + rest;
    assert key[|y|] == '-';
    var i := FirstIndex(key, '-');
    assert i == |y| by {
      forall k | 0 <= k < |y|
        ensures key[k] != '-'
      {
        assert key[k] == y[k];
      }
    }
    assert key[..i] == y;
    assert key[i + 1..] == rest;
  }

  // ---------- Chronological order of keys ----------

  /** `x === y` on numbers. */
  predicate SameNumber(x: JsNum, y: JsNum) { x == y && x != NaN }

  /** The comparator `ay !== by ? ay - by : am - bm` is negative. */
  predicate PairBefore(a: (JsNum, JsNum), b: (JsNum, JsNum))
  {
    if SameNumber(a.0, b.0) then NumLess(a.1, b.1) else NumLess(a.0, b.0)
  }

  /** `new Date(a) - new Date(b)` is negative (NaN, for an Invalid Date, is
      not). */
  predicate DateBefore(x: Option<Moment>, y: Option<Moment>)
  {
    x.Some? && y.Some? && x.value.time < y.value.time
  }

  /** The first two numbers of `key.split(...).map(Number)`: split at '-'
      for months and at '-W' for weeks. */
  function KeyNumbers(key: string, agg: Aggregation, host: Host): (JsNum, JsNum)
  {
    var parts := if agg == Weekly then SplitOn(key, "-W") else Split(key, '-');
    (Part(parts, 0, host), Part(parts, 1, host))
  }

  /** The sort comparator of the chart keys is negative: `a` goes first. */
  predicate KeyLess(agg: Aggregation, clock: Clock, host: Host, a: string, b: string)
  {
    if agg == Daily then DateBefore(clock.toDate(Str(a)), clock.toDate(Str(b)))
    else PairBefore(KeyNumbers(a, agg, host), KeyNumbers(b, agg, host))
  }

  function KeyBefore(agg: Aggregation, clock: Clock, host: Host): (string, string) -> bool
  {
    (a, b) => KeyLess(agg, clock, host, a, b)
  }

  lemma PairBeforeStrict(a: (JsNum, JsNum), b: (JsNum, JsNum), c: (JsNum, JsNum))
    ensures !PairBefore(a, a)
    ensures PairBefore(a, b) && PairBefore(b, c) ==> PairBefore(a, c)
  {
    NumLessStrict(a.0, b.0, c.0);
    NumLessStrict(a.1, b.1, c.1);
    NumLessStrict(a.0, c.0, b.0);
    NumLessStrict(b.0, a.0, c.0);
    NumLessStrict(c.0, a.0, b.0);
  }

  /** Whatever the keys, the comparator is a consistent "comes before":
      irreflexive and transitive. */
  lemma KeyOrderStrict(agg: Aggregation, clock: Clock, host: Host)
    ensures StrictOrder(KeyBefore(agg, clock, host))
  {
    forall a, b, c
      ensures !KeyLess(agg, clock, host, a, a)
      ensures KeyLess(agg, clock, host, a, b) && KeyLess(agg, clock, host, b, c) ==> KeyLess(agg, clock, host, a, c)
    {
      KeyLessStrict(agg, clock, host, a, b, c);
    }
  }

  lemma KeyLessStrict(agg: Aggregation, clock: Clock, host: Host, a: string, b: string, c: string)
    ensures !KeyLess(agg, clock, host, a, a)
    ensures KeyLess(agg, clock, host, a, b) && KeyLess(agg, clock, host, b, c) ==> KeyLess(agg, clock, host, a, c)
  {
    if agg != Daily {
      var na, nb, nc := KeyNumbers(a, agg, host), KeyNumbers(b, agg, host), KeyNumbers(c, agg, host);
      PairBeforeStrict(na, nb, nc);
    }
  }

  /** The numbers of a month key are its year and its month 1 to 12. */
  lemma MonthKeyNumbers(d: LocalDate, host: Host)
    requires d.year >= 0
    ensures KeyNumbers(MonthKey(d), Monthly, host) == (Finite(d.year as real), Finite((d.month + 1) as real))
  {
    PartsNumbers(Split(MonthKey(d), '-'), d.year, d.month + 1, host);
  }

  /** The numbers of a week key are its week-numbering year and its week. */
  lemma WeekKeyNumbers(d: LocalDate, host: Host)
    requires IsoWeekOf(d).year >= 0
    ensures KeyNumbers(WeekKey(d), Weekly, host) == (Finite(IsoWeekOf(d).year as real), Finite(IsoWeekOf(d).week as real))
  {
    var w := IsoWeekOf(d);
    PartsNumbers(SplitOn(WeekKey(d), "-W"), w.year, w.week, host);
  }

  lemma PartsNumbers(parts: seq<string>, a: nat, b: nat, host: Host)
    requires b < 100 && parts == [NatToString(a), TwoDigits(b)]
    ensures (Part(parts, 0, host), Part(parts, 1, host)) == (Finite(a as real), Finite(b as real))
  {
    DigitsNumber(NatToString(a), host);
    NatToStringRoundTrip(a);
    DigitsNumber(TwoDigits(b), host);
  }

  /** On two pairs of finite numbers the comparator is the lexicographic
      order. */
  lemma PairOrder(y1: int, m1: int, y2: int, m2: int)
    ensures PairBefore((Finite(y1 as real), Finite(m1 as real)), (Finite(y2 as real), Finite(m2 as real)))
      <==> y1 < y2 || (y1 == y2 && m1 < m2)
  {
  }

  /** Month keys sort by (year, month). */
  lemma MonthKeyOrder(d1: LocalDate, d2: LocalDate, clock: Clock, host: Host)
    requires d1.year >= 0 && d2.year >= 0
    ensures KeyLess(Monthly, clock, host, MonthKey(d1), MonthKey(d2))
      <==> d1.year < d2.year || (d1.year == d2.year && d1.month < d2.month)
  {
    var k1, k2 := MonthKey(d1), MonthKey(d2);
    MonthKeyNumbers(d1, host);
    MonthKeyNumbers(d2, host);
    PairOrder(d1.year, d1.month + 1, d2.year, d2.month + 1);
    assert KeyLess(Monthly, clock, host, k1, k2) == PairBefore(KeyNumbers(k1, Monthly, host), KeyNumbers(k2, Monthly, host));
  }

  /** Two dates share a month key exactly when they share year and month. */
  lemma MonthKeySame(d1: LocalDate, d2: LocalDate)
    requires d1.year >= 0 && d2.year >= 0
    ensures MonthKey(d1) == MonthKey(d2) <==> d1.year == d2.year && d1.month == d2.month
  {
    if MonthKey(d1) == MonthKey(d2) {
      var y1, y2 := NatToString(d1.year), NatToString(d2.year);
      var m1, m2 := TwoDigits(d1.month + 1), TwoDigits(d2.month + 1);
      SameParts([y1, m1], [y2, m2]);
      NatToStringRoundTrip(d1.year);
      NatToStringRoundTrip(d2.year);
      assert DigitsValue(m1) == DigitsValue(m2);
    }
  }

  lemma SameParts(p1: seq<string>, p2: seq<string>)
    requires |p1| == |p2| == 2 && p1 == p2
    ensures p1[0] == p2[0] && p1[1] == p2[1]
  {
  }

  /** Week keys sort by (week-numbering year, week), and two dates share a
      week key exactly when they share the ISO week. */
  lemma WeekKeyOrder(d1: LocalDate, d2: LocalDate, clock: Clock, host: Host)
    requires IsoWeekOf(d1).year >= 0 && IsoWeekOf(d2).year >= 0
    ensures var w1, w2 := IsoWeekOf(d1), IsoWeekOf(d2);
      (KeyLess(Weekly, clock, host, WeekKey(d1), WeekKey(d2)) <==> w1.year < w2.year || (w1.year == w2.year && w1.week < w2.week))
      && (WeekKey(d1) == WeekKey(d2) <==> w1 == w2)
  {
    var k1, k2 := WeekKey(d1), WeekKey(d2);
    var w1, w2 := IsoWeekOf(d1), IsoWeekOf(d2);
    WeekKeyNumbers(d1, host);
    WeekKeyNumbers(d2, host);
    PairOrder(w1.year, w1.week, w2.year, w2.week);
    assert KeyLess(Weekly, clock, host, k1, k2) == PairBefore(KeyNumbers(k1, Weekly, host), KeyNumbers(k2, Weekly, host));
  }

  /** With a clock that reads each day key as midnight UTC of its day, day
      keys sort in calendar order, and two dates share a day key exactly when
      they are the same date. */
  lemma DayKeyOrder(d1: LocalDate, d2: LocalDate, clock: Clock, host: Host)
    requires d1.year >= 0 && d2.year >= 0
    requires ReadsAsUtcMidnight(clock, DayKey(d1), d1) && ReadsAsUtcMidnight(clock, DayKey(d2), d2)
    ensures KeyLess(Daily, clock, host, DayKey(d1), DayKey(d2)) <==> DateLess(d1, d2)
    ensures DayKey(d1) == DayKey(d2) <==> d1 == d2
  {
    DayOfOrder(d1, d2);
    if DayKey(d1) == DayKey(d2) {
      NatToStringRoundTrip(d1.year);
      NatToStringRoundTrip(d2.year);
      assert Split(DayKey(d1), '-') == Split(DayKey(d2), '-');
    }
  }

  /** The dates whose keys the comparator orders as the calendar does: years
      from 0 on and, in the daily view, a clock that reads each day key as
      midnight UTC of its day. */
  predicate Comparable(agg: Aggregation, clock: Clock, d: LocalDate)
  {
    match agg
    case Monthly => d.year >= 0
    case Weekly => IsoWeekOf(d).year >= 0
    case Daily => d.year >= 0 && ReadsAsUtcMidnight(clock, DayKey(d), d)
  }

  /** Distinct keys of comparable dates are ordered one way or the other. */
  lemma KeyTotal(agg: Aggregation, clock: Clock, host: Host, d1: LocalDate, d2: LocalDate)
    requires Comparable(agg, clock, d1) && Comparable(agg, clock, d2)
    requires KeyOf(agg, d1) != KeyOf(agg, d2)
    ensures KeyLess(agg, clock, host, KeyOf(agg, d1), KeyOf(agg, d2))
      || KeyLess(agg, clock, host, KeyOf(agg, d2), KeyOf(agg, d1))
  {
    match agg
    case Monthly => MonthKeyOrder(d1, d2, clock, host); MonthKeyOrder(d2, d1, clock, host); MonthKeySame(d1, d2);
    case Weekly => WeekKeyOrder(d1, d2, clock, host); WeekKeyOrder(d2, d1, clock, host);
    case Daily => DayKeyOrder(d1, d2, clock, host); DayKeyOrder(d2, d1, clock, host);
  }

  // ---------- The list filter ----------

  /** `String(x || '')`. */
  function TextOf(v: JsValue, host: Host): string
  {
    if Truthy(v) then ToStr(v, host) else ""
  }

  /** The filteredList test: the category filter is 'All' or the item's
      category is exactly the filter, and the search is empty or, lower-cased,
      occurs in the lower-cased category, note or amount. */
  predicate Matches(item: JsValue, search: string, categoryFilter: string, host: Host)
  {
    (categoryFilter == "All" || Get(item, "category") == Str(categoryFilter))
    && (search == ""
        || Includes(Lower(TextOf(Get(item, "category"), host)), Lower(search))
        || Includes(Lower(TextOf(Get(item, "note"), host)), Lower(search))
        || Includes(Lower(TextOf(Get(item, "amount"), host)), Lower(search)))
  }

  function MatchesFilter(search: string, categoryFilter: string, host: Host): JsValue -> bool
  {
    item => Matches(item, search, categoryFilter, host)
  }

  /** filteredList: the matching items, in their order, and nothing else;
      with the initial settings (no search, 'All') the whole list. */
  function FilteredList(list: seq<JsValue>, search: string, categoryFilter: string, host: Host): (r: seq<JsValue>)
    ensures IsSubsequence(r, list)
    ensures forall x :: x in r <==> x in list && Matches(x, search, categoryFilter, host)
    ensures forall x :: multiset(r)[x] == if Matches(x, search, categoryFilter, host) then multiset(list)[x] else 0
    ensures search == "" && categoryFilter == "All" ==> r == list
  {
    var p := MatchesFilter(search, categoryFilter, host);
    FilterMultiplicity(list, p);
    if search == "" && categoryFilter == "All" then
      FilterKeepsAll(list, p);
      Filter(list, p)
    else Filter(list, p)
  }

  /** The search ignores the case of the search text. */
  lemma SearchIgnoresCase(item: JsValue, search: string, categoryFilter: string, host: Host)
    ensures Matches(item, search, categoryFilter, host) <==> Matches(item, Lower(search), categoryFilter, host)
  {
    assert Lower(Lower(search)) == Lower(search);
  }

  // ---------- Grouping into chart points ----------

  /** parseDate: a falsy value means now; anything else is `new Date(v)`,
      None for an Invalid Date. */
  function ParseDate(v: JsValue, clock: Clock): Option<Moment>
  {
    if Truthy(v) then clock.toDate(v) else Some(clock.now)
  }

  /** Whether an item has a valid date between start and end, both
      included. */
  predicate Dated(item: JsValue, clock: Clock, start: int, end: int)
  {
    var m := ParseDate(Get(item, "date"), clock);
    m.Some? && start <= m.value.time <= end
  }

  function DatedFilter(clock: Clock, start: int, end: int): JsValue -> bool
  {
    item => Dated(item, clock, start, end)
  }

  /** The `filtered` items of the chart with their parsed dates: exactly the
      items with a valid date between start and end, in order. */
  function InRange(list: seq<JsValue>, clock: Clock, start: int, end: int): (r: seq<(JsValue, Moment)>)
    ensures IsSubsequence(Firsts(r), list)
    ensures forall x :: x in Firsts(r) <==> x in list && Dated(x, clock, start, end)
    ensures forall x :: multiset(Firsts(r))[x] == if Dated(x, clock, start, end) then multiset(list)[x] else 0
    ensures forall i :: 0 <= i < |r| ==>
      (Some(r[i].1) == ParseDate(Get(r[i].0, "date"), clock) && start <= r[i].1.time <= end)
  {
    var kept := Filter(list, DatedFilter(clock, start, end));
    FilterMultiplicity(list, DatedFilter(clock, start, end));
    var r := seq(|kept|, i requires 0 <= i < |kept| => (kept[i], ParseDate(Get(kept[i], "date"), clock).value));
    assert Firsts(r) == kept;
    r
  }

  /** The entries the Map is filled from: the period key of each item's date
      and `Number(it.amount) || 0`. */
  function Entries(items: seq<(JsValue, Moment)>, agg: Aggregation, host: Host): (es: seq<(string, JsNum)>)
    ensures |es| == |items|
    ensures forall i :: 0 <= i < |items| ==>
      es[i] == (KeyOf(agg, items[i].1.date), OrZero(ToNumber(Get(items[i].0, "amount"), host)))
  {
    seq(|items|, i requires 0 <= i < |items| =>
      (KeyOf(agg, items[i].1.date), OrZero(ToNumber(Get(items[i].0, "amount"), host))))
  }

  /** One point of the chart. */
  datatype Point = Point(name: string, value: JsNum, rawKey: string)

  function RawKeys(data: seq<Point>): (keys: seq<string>)
    ensures |keys| == |data| && forall i :: 0 <= i < |data| ==> keys[i] == data[i].rawKey
  {
    seq(|data|, i requires 0 <= i < |data| => data[i].rawKey)
  }

  /** The points of the sorted keys: each key's label and `map.get(k) || 0`. */
  function Points(keys: seq<string>, sums: map<string, JsNum>, agg: Aggregation, host: Host): (data: seq<Point>)
    requires forall k :: k in keys ==> k in sums
    ensures RawKeys(data) == keys
    ensures forall i :: 0 <= i < |data| ==>
      (data[i].value == OrZero(sums[keys[i]]) && data[i].name == KeyToLabel(keys[i], agg, host))
  {
    var data := seq(|keys|, i requires 0 <= i < |keys| => Point(KeyToLabel(keys[i], agg, host), OrZero(sums[keys[i]]), keys[i]));
    assert RawKeys(data) == keys;
    data
  }

  /** `grouped`: one point per distinct period key of the in-range items,
      holding `map.get(k) || 0` of the sums and the key's label, sorted by
      the key comparator; for dates the comparator orders as the calendar
      does, the keys come out strictly increasing. */
  method Grouped(list: seq<JsValue>, agg: Aggregation, clock: Clock, start: int, end: int, host: Host)
    returns (data: seq<Point>, filtered: seq<(JsValue, Moment)>)
    ensures filtered == InRange(list, clock, start, end)
    ensures var g := Fold(Entries(filtered, agg, host));
      multiset(RawKeys(data)) == multiset(Dedup(Firsts(Entries(filtered, agg, host))))
      && NoDuplicates(RawKeys(data))
      && Sorted(RawKeys(data), KeyBefore(agg, clock, host))
      && (forall i :: 0 <= i < |data| ==>
            (data[i].rawKey in g.sums
             && data[i].value == OrZero(g.sums[data[i].rawKey])
             && data[i].name == KeyToLabel(data[i].rawKey, agg, host)))
    ensures (forall i :: 0 <= i < |filtered| ==> Comparable(agg, clock, filtered[i].1.date)) ==>
      forall i, j :: 0 <= i < j < |data| ==> KeyLess(agg, clock, host, data[i].rawKey, data[j].rawKey)
  {
    filtered := InRange(list, clock, start, end);
    var es := Entries(filtered, agg, host);
    var g := Accumulate(es);
    var keys := SortBy(g.keys, KeyBefore(agg, clock, host));
    SortedKeys(filtered, es, agg, clock, host);
    data := Points(keys, g.sums, agg, host);
  }

  /** The sorted keys: the distinct keys once each, in comparator order, and
      strictly increasing for comparable dates. */
  lemma SortedKeys(filtered: seq<(JsValue, Moment)>, es: seq<(string, JsNum)>, agg: Aggregation, clock: Clock, host: Host)
    requires es == Entries(filtered, agg, host)
    ensures var g, lt := Fold(es), KeyBefore(agg, clock, host);
      var keys := SortBy(g.keys, lt);
      multiset(keys) == multiset(Dedup(Firsts(es)))
      && NoDuplicates(keys) && Sorted(keys, lt)
      && (forall k :: k in keys ==> k in g.sums)
      && ((forall i :: 0 <= i < |filtered| ==> Comparable(agg, clock, filtered[i].1.date)) ==>
            forall i, j :: 0 <= i < j < |keys| ==> KeyLess(agg, clock, host, keys[i], keys[j]))
  {
    var g, lt := Fold(es), KeyBefore(agg, clock, host);
    KeyOrderStrict(agg, clock, host);
    SortedGroupKeys(es, lt);
    FoldKeys(es);
    if forall i :: 0 <= i < |filtered| ==> Comparable(agg, clock, filtered[i].1.date) {
      SortedKeysStrict(filtered, es, agg, clock, host, g.keys, SortBy(g.keys, lt));
    }
  }

  lemma SortedGroupKeys(es: seq<(string, JsNum)>, lt: (string, string) -> bool)
    requires StrictOrder(lt)
    ensures var g := Fold(es);
      var keys := SortBy(g.keys, lt);
      multiset(keys) == multiset(Dedup(Firsts(es)))
      && NoDuplicates(keys) && Sorted(keys, lt)
      && (forall k :: k in keys ==> k in g.sums)
  {
    var g := Fold(es);
    var keys := SortBy(g.keys, lt);
    FoldKeys(es);
    SortBySorted(g.keys, lt);
    MultisetNoDuplicates(g.keys, keys);
    forall k | k in keys
      ensures k in g.sums
    {
      assert k in multiset(g.keys);
    }
  }

  lemma SortedKeysStrict(filtered: seq<(JsValue, Moment)>, es: seq<(string, JsNum)>, agg: Aggregation, clock: Clock, host: Host,
                         unsorted: seq<string>, keys: seq<string>)
    requires es == Entries(filtered, agg, host)
    requires unsorted == Dedup(Firsts(es)) && multiset(keys) == multiset(unsorted)
    requires NoDuplicates(keys) && Sorted(keys, KeyBefore(agg, clock, host))
    requires forall i :: 0 <= i < |filtered| ==> Comparable(agg, clock, filtered[i].1.date)
    ensures forall i, j :: 0 <= i < j < |keys| ==> KeyLess(agg, clock, host, keys[i], keys[j])
  {
    var lt := KeyBefore(agg, clock, host);
    forall i, j | 0 <= i < |keys| && 0 <= j < |keys| && keys[i] != keys[j]
      ensures lt(keys[i], keys[j]) || lt(keys[j], keys[i])
    {
      var p := KeyDate(es, filtered, agg, host, keys[i], unsorted, keys);
      var q := KeyDate(es, filtered, agg, host, keys[j], unsorted, keys);
      KeyTotal(agg, clock, host, filtered[p].1.date, filtered[q].1.date);
    }
    SortedStrict(keys, lt);
  }

  /** Each key after sorting is the key of one of the items. */
  lemma KeyDate(es: seq<(string, JsNum)>, filtered: seq<(JsValue, Moment)>, agg: Aggregation, host: Host,
                k: string, unsorted: seq<string>, sorted: seq<string>) returns (p: nat)
    requires es == Entries(filtered, agg, host)
    requires unsorted == Dedup(Firsts(es)) && multiset(sorted) == multiset(unsorted)
    requires k in sorted
    ensures p < |filtered| && KeyOf(agg, filtered[p].1.date) == k
  {
    var ks := Firsts(es);
    var q := IndexOfSorted(ks, unsorted, sorted, k);
    p := q;
  }

  /** A value of a permutation of the distinct values of xs occurs in xs. */
  lemma IndexOfSorted(xs: seq<string>, unsorted: seq<string>, sorted: seq<string>, k: string) returns (q: nat)
    requires unsorted == Dedup(xs) && multiset(sorted) == multiset(unsorted)
    requires k in sorted
    ensures q < |xs| && xs[q] == k
  {
    assert k in multiset(unsorted);
    assert k in xs;
    q :| 0 <= q < |xs| && xs[q] == k;
  }

  // ---------- Totals ----------

  /** totalInRange: the chart values, `Number(v) || 0` each, added up. */
  function TotalInRange(data: seq<Point>): JsNum
  {
    if |data| == 0 then Finite(0.0)
    else JsAdd(TotalInRange(data[..|data| - 1]), OrZero(data[|data| - 1].value))
  }

  /** avgPerPeriod: `Math.round(total / (periods || 1) || 0)`, the rounded
      mean per period, the empty chart counting as one period. */
  function AvgPerPeriod(total: JsNum, periods: nat): (avg: JsNum)
    ensures avg != NaN
    ensures total.Finite? ==> avg == Finite(Round(total.r / (if periods == 0 then 1 else periods) as real) as real)
  {
    var n := if periods == 0 then 1 else periods;
    JsRound(OrZero(JsDivide(total, n as real)))
  }

  /** When every amount is finite, the total of the chart is the sum of the
      amounts of all in-range items: each item is counted in exactly one
      point. */
  lemma ChartTotal(es: seq<(string, JsNum)>, data: seq<Point>)
    requires AllFinite(es)
    requires multiset(RawKeys(data)) == multiset(Dedup(Firsts(es)))
    requires forall i :: 0 <= i < |data| ==>
      (data[i].rawKey in Fold(es).sums && data[i].value == OrZero(Fold(es).sums[data[i].rawKey]))
    ensures TotalInRange(data) == Finite(Sum(AllAmounts(es)))
  {
    var g := Fold(es);
    FoldKeys(es);
    FoldTotal(es);
    FoldSums(es);
    forall k | k in RawKeys(data)
      ensures k in g.sums && g.sums[k].Finite?
    {
      assert k in multiset(g.keys);
    }
    TotalIsSumOver(data, g.sums);
    SumOverPermutation(RawKeys(data), g.keys, g.sums);
  }

  lemma {:induction false} TotalIsSumOver(data: seq<Point>, sums: map<string, JsNum>)
    requires forall k :: k in RawKeys(data) ==> k in sums && sums[k].Finite?
    requires forall i :: 0 <= i < |data| ==> data[i].rawKey in sums && data[i].value == OrZero(sums[data[i].rawKey])
    ensures TotalInRange(data) == Finite(SumOver(RawKeys(data), sums))
  {
    if |data| > 0 {
      var n := |data| - 1;
      assert RawKeys(data[..n]) == RawKeys(data)[..n];
      TotalIsSumOver(data[..n], sums);
    }
  }

  // ---------- Category choices ----------

  /** The `category` of each item. */
  function CategoryValues(list: seq<JsValue>): (cs: seq<JsValue>)
    ensures |cs| == |list| && forall i :: 0 <= i < |list| ==> cs[i] == Get(list[i], "category")
  {
    seq(|list|, i requires 0 <= i < |list| => Get(list[i], "category"))
  }

  /** categories: 'All', then each distinct truthy category once, in order of
      first appearance. */
  function Categories(list: seq<JsValue>): (cats: seq<JsValue>)
    ensures |cats| >= 1 && cats[0] == Str("All")
    ensures NoDuplicates(cats[1..])
    ensures forall c :: c in cats[1..] <==> Truthy(c) && c in CategoryValues(list)
    ensures var ts := Filter(CategoryValues(list), Truthy);
      forall i, j, q :: 1 <= i < j < |cats| && 0 <= q < |ts| && ts[q] == cats[j] ==> cats[i] in ts[..q]
  {
    var ts := Filter(CategoryValues(list), Truthy);
    var cats := [Str("All")] + Dedup(ts);
    assert cats[1..] == Dedup(ts);
    cats
  }
}

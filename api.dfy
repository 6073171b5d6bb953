/**
 * `KanjiAPI`: the dataset accessor. It holds the loaded records and answers
 * lookups, week/day filters, the two-level week/day grouping and statistics.
 * The network fetch is not modelled: its outcome is a parameter of
 * `LoadKanjiData`.
 */
module Api {
  import opened Wrappers
  import opened Kanji
  import opened Helpers

  datatype LoadError = DataUnavailable

  datatype LoadResult = Loaded(data: seq<KanjiRecord>) | LoadFailed(error: LoadError)

  // ---------------------------------------------------------------------------
  // filterKanji

  /** Both predicates of `filterKanji`; `None` is the wildcard `'all'`. */
  predicate MatchesFilter(r: KanjiRecord, week: Option<int>, day: Option<int>) {
    (week.None? || r.week == week.value) && (day.None? || r.day == day.value)
  }

  /** `kanjiData.filter(...)` with the week and day predicates. */
  function FilterRecords(data: seq<KanjiRecord>, week: Option<int>, day: Option<int>): (r: seq<KanjiRecord>)
    ensures forall i :: 0 <= i < |r| ==> MatchesFilter(r[i], week, day)
    ensures |r| <= |data|
  {
    if data == [] then []
    else
      var last := data[|data| - 1];
      FilterRecords(data[..|data| - 1], week, day) + (if MatchesFilter(last, week, day) then [last] else [])
  }

  /** Exactly the matching records are kept, each as often as it occurs in the data. */
  lemma {:induction false} FilterKeepsMatches(data: seq<KanjiRecord>, week: Option<int>, day: Option<int>, x: KanjiRecord)
    ensures multiset(FilterRecords(data, week, day))[x] == if MatchesFilter(x, week, day) then multiset(data)[x] else 0
  {
    if data != [] {
      FilterKeepsMatches(data[..|data| - 1], week, day, x);
      assert data == data[..|data| - 1] + [data[|data| - 1]];
    }
  }

  /** `FilterKeepsMatches` for every record at once. */
  lemma FilterExact(data: seq<KanjiRecord>, week: Option<int>, day: Option<int>)
    ensures forall x :: multiset(FilterRecords(data, week, day))[x] == if MatchesFilter(x, week, day) then multiset(data)[x] else 0
  {
    forall x ensures multiset(FilterRecords(data, week, day))[x] == if MatchesFilter(x, week, day) then multiset(data)[x] else 0 {
      FilterKeepsMatches(data, week, day, x);
    }
  }

  /** The filter keeps the dataset's order: its result is a subsequence of the data. */
  lemma {:induction false} FilterPreservesOrder(data: seq<KanjiRecord>, week: Option<int>, day: Option<int>)
    ensures IsSubsequence(FilterRecords(data, week, day), data)
  {
    if data == [] {
      assert EmbedsAt([], data, []);
    } else {
      var init := data[..|data| - 1];
      FilterPreservesOrder(init, week, day);
      var prev := FilterRecords(init, week, day);
      var idx :| EmbedsAt(prev, init, idx);
      var last := data[|data| - 1];
      if MatchesFilter(last, week, day) {
        assert FilterRecords(data, week, day) == prev + [last];
        assert EmbedsAt(prev + [last], data, idx + [|data| - 1]);
      } else {
        assert FilterRecords(data, week, day) == prev;
        assert EmbedsAt(prev, data, idx);
      }
    }
  }

  /** `filterKanji('all', 'all')` is the whole dataset. */
  lemma {:induction false} FilterAllIsEverything(data: seq<KanjiRecord>)
    ensures FilterRecords(data, None, None) == data
  {
    if data != [] {
      FilterAllIsEverything(data[..|data| - 1]);
      assert FilterRecords(data, None, None) == data[..|data| - 1] + [data[|data| - 1]];
      assert data == data[..|data| - 1] + [data[|data| - 1]];
    }
  }

  // ---------------------------------------------------------------------------
  // groupKanjiByWeekAndDay

  /** One leaf of the grouping: the theme of the (week, day) and its records. */
  datatype DayGroup = DayGroup(theme: string, kanji: seq<KanjiRecord>)

  /** `grouped[week][day]`. */
  type Grouping = map<int, map<int, DayGroup>>

  /** One step of the `forEach` in `groupKanjiByWeekAndDay`. */
  function AddToGrouping(g: Grouping, r: KanjiRecord): Grouping {
    var w := WeekKey(r);
    var d := DayKey(r);
    var days := if w in g then g[w] else map[];
    var leaf := if d in days then days[d] else DayGroup(ThemeOrDefault(r), []);
    g[w := days[d := leaf.(kanji := leaf.kanji + [r])]]
  }

  /** The grouping of the records, folded in dataset order. */
  function Grouped(data: seq<KanjiRecord>): Grouping {
    if data == [] then map[] else AddToGrouping(Grouped(data[..|data| - 1]), data[|data| - 1])
  }

  /** The records that belong to leaf (w, d), in dataset order. */
  function LeafRecords(data: seq<KanjiRecord>, w: int, d: int): seq<KanjiRecord> {
    if data == [] then []
    else
      var last := data[|data| - 1];
      LeafRecords(data[..|data| - 1], w, d) + (if WeekKey(last) == w && DayKey(last) == d then [last] else [])
  }

  /** Every record is in exactly one leaf: the one named by its (week || 1, day || 1). */
  lemma {:induction false} LeafRecordsPartition(data: seq<KanjiRecord>, w: int, d: int, x: KanjiRecord)
    ensures multiset(LeafRecords(data, w, d))[x]
      == if WeekKey(x) == w && DayKey(x) == d then multiset(data)[x] else 0
  {
    if data != [] {
      LeafRecordsPartition(data[..|data| - 1], w, d, x);
      assert data == data[..|data| - 1] + [data[|data| - 1]];
    }
  }

  /**
   * The leaves of the grouping: leaf (w, d) exists exactly when some record has
   * those keys; it holds those records in dataset order; its theme is that of
   * the first of them (later records never change it).
   */
  lemma {:induction false} GroupedLeaves(data: seq<KanjiRecord>, w: int, d: int)
    ensures w in Grouped(data) ==> Grouped(data)[w] != map[]
    ensures (w in Grouped(data) && d in Grouped(data)[w]) <==> LeafRecords(data, w, d) != []
    ensures w in Grouped(data) && d in Grouped(data)[w] ==>
      && Grouped(data)[w][d].kanji == LeafRecords(data, w, d)
      && Grouped(data)[w][d].theme == ThemeOrDefault(LeafRecords(data, w, d)[0])
  {
    if data != [] {
      var init := data[..|data| - 1];
      GroupedLeaves(init, w, d);
    }
  }

  /** Records in one leaf. */
  function LeafSize(leaf: DayGroup): nat {
    |leaf.kanji|
  }

  /** Records in one week. */
  ghost function WeekSize(days: map<int, DayGroup>): nat {
    SumMap(days, LeafSize)
  }

  /** Records over all leaves. */
  ghost function GroupedSize(g: Grouping): nat {
    SumMap(g, WeekSize)
  }

  /** Adding one record to the grouping adds one to its size. */
  lemma AddToGroupingSize(g: Grouping, r: KanjiRecord)
    ensures GroupedSize(AddToGrouping(g, r)) == GroupedSize(g) + 1
  {
    var w := WeekKey(r);
    var d := DayKey(r);
    var days := if w in g then g[w] else map[];
    var leaf := if d in days then days[d] else DayGroup(ThemeOrDefault(r), []);
    var days' := days[d := leaf.(kanji := leaf.kanji + [r])];
    SumMapUpdate(days, LeafSize, d, leaf.(kanji := leaf.kanji + [r]));
    assert WeekSize(days') == WeekSize(days) + 1;
    SumMapUpdate(g, WeekSize, w, days');
    if w !in g {
      assert WeekSize(days) == 0;
    }
  }

  /** Flattening the grouping gives back exactly the number of records: none dropped or duplicated. */
  lemma {:induction false} GroupedSizeIsLength(data: seq<KanjiRecord>)
    ensures GroupedSize(Grouped(data)) == |data|
  {
    if data != [] {
      GroupedSizeIsLength(data[..|data| - 1]);
      AddToGroupingSize(Grouped(data[..|data| - 1]), data[|data| - 1]);
    }
  }

  // ---------------------------------------------------------------------------
  // getStatistics

  /** A breakdown key: the week or day number, or `'unknown'` when it is falsy. */
  datatype StatKey = Number(n: int) | Unknown

  function StatKeyOf(v: int): StatKey {
    if v == 0 then Unknown else Number(v)
  }

  function WeekStat(r: KanjiRecord): StatKey { StatKeyOf(r.week) }

  function DayStat(r: KanjiRecord): StatKey { StatKeyOf(r.day) }

  /** The number of records whose breakdown key is `k`. */
  function CountWithKey(data: seq<KanjiRecord>, keyOf: KanjiRecord -> StatKey, k: StatKey): nat {
    if data == [] then 0
    else CountWithKey(data[..|data| - 1], keyOf, k) + (if keyOf(data[|data| - 1]) == k then 1 else 0)
  }

  /** A counter's own value. */
  function CounterValue(n: nat): nat { n }

  /** The non-empty themes of the records. */
  function ThemesOf(data: seq<KanjiRecord>): set<string> {
    set i | 0 <= i < |data| && data[i].theme != "" :: data[i].theme
  }

  /** The themes of a prefix, one record further on. */
  lemma ThemesOfExtend(data: seq<KanjiRecord>, i: nat)
    requires i < |data|
    ensures ThemesOf(data[..i + 1]) == ThemesOf(data[..i]) + (if data[i].theme != "" then {data[i].theme} else {})
  {
    var p, q := data[..i], data[..i + 1];
    forall t | t in ThemesOf(q)
      ensures t in ThemesOf(p) + (if data[i].theme != "" then {data[i].theme} else {})
    {
      var j :| 0 <= j < |q| && q[j].theme != "" && q[j].theme == t;
      if j < i {
        assert p[j] == q[j];
      }
    }
    forall t | t in ThemesOf(p)
      ensures t in ThemesOf(q)
    {
      var j :| 0 <= j < |p| && p[j].theme != "" && p[j].theme == t;
      assert q[j] == p[j];
    }
    if data[i].theme != "" {
      assert q[i] == data[i];
    }
  }

  /** The result of `getStatistics`. */
  datatype Statistics = Statistics(
    totalKanji: nat,
    weekBreakdown: map<StatKey, nat>,
    dayBreakdown: map<StatKey, nat>,
    themes: seq<string>)

  /** One `stats.xBreakdown[key] = (stats.xBreakdown[key] || 0) + 1`. */
  function Increment(counts: map<StatKey, nat>, k: StatKey): map<StatKey, nat> {
    counts[k := (if k in counts then counts[k] else 0) + 1]
  }

  /** `counts` holds, for every key that occurs in `data`, the number of its records, and no other key. */
  ghost predicate CountsAgree(counts: map<StatKey, nat>, data: seq<KanjiRecord>, keyOf: KanjiRecord -> StatKey) {
    && (forall k :: k in counts <==> CountWithKey(data, keyOf, k) > 0)
    && (forall k :: k in counts ==> counts[k] == CountWithKey(data, keyOf, k))
  }

  /** The counters of a prefix, one record further on. */
  lemma IncrementCounts(data: seq<KanjiRecord>, i: nat, keyOf: KanjiRecord -> StatKey, counts: map<StatKey, nat>)
    requires i < |data|
    requires CountsAgree(counts, data[..i], keyOf)
    requires SumMap(counts, CounterValue) == i
    ensures CountsAgree(Increment(counts, keyOf(data[i])), data[..i + 1], keyOf)
    ensures SumMap(Increment(counts, keyOf(data[i])), CounterValue) == i + 1
  {
    assert data[..i + 1][..i] == data[..i];
    var k := keyOf(data[i]);
    SumMapUpdate(counts, CounterValue, k, (if k in counts then counts[k] else 0) + 1);
  }

  // ---------------------------------------------------------------------------
  // The accessor object

  class KanjiApi {
    var kanjiData: seq<KanjiRecord>
    var isLoaded: bool

    constructor ()
      ensures kanjiData == [] && !isLoaded
    {
      kanjiData := [];
      isLoaded := false;
    }

    /**
     * `loadKanjiData`. `fetched` is the parsed `./data/kanji.json` when the
     * fetch succeeded; `embedded` is `window.EMBEDDED_KANJI_DATA` ([] when
     * absent). Loaded non-empty data is returned without reloading.
     */
    method LoadKanjiData(fetched: Option<seq<KanjiRecord>>, embedded: seq<KanjiRecord>) returns (result: LoadResult)
      modifies this
      ensures old(isLoaded && |kanjiData| > 0) ==>
        result == Loaded(old(kanjiData)) && kanjiData == old(kanjiData) && isLoaded
      ensures !old(isLoaded && |kanjiData| > 0) && fetched.Some? ==>
        result == Loaded(fetched.value) && kanjiData == fetched.value && isLoaded
      ensures !old(isLoaded && |kanjiData| > 0) && fetched.None? && |embedded| > 0 ==>
        result == Loaded(embedded) && kanjiData == embedded && isLoaded
      ensures result.LoadFailed? <==> !old(isLoaded && |kanjiData| > 0) && fetched.None? && |embedded| == 0
      ensures result.LoadFailed? ==> kanjiData == old(kanjiData) && isLoaded == old(isLoaded)
    {
      if isLoaded && |kanjiData| > 0 {
        return Loaded(kanjiData);
      }
      if fetched.Some? {
        kanjiData := fetched.value;
        isLoaded := true;
        return Loaded(kanjiData);
      }
      if |embedded| > 0 {
        kanjiData := embedded;
        isLoaded := true;
        return Loaded(kanjiData);
      }
      return LoadFailed(DataUnavailable);
    }

    /** `getKanjiByIndex`: the record at `index`, or null when out of range. */
    function GetKanjiByIndex(index: int): (r: Option<KanjiRecord>)
      reads this
      ensures r.Some? <==> 0 <= index < |kanjiData|
      ensures r.Some? ==> r.value == kanjiData[index]
    {
      if 0 <= index < |kanjiData| then Some(kanjiData[index]) else None
    }

    /** `filterKanji(week, day)`. */
    function FilterKanji(week: Option<int>, day: Option<int>): (r: seq<KanjiRecord>)
      reads this
      ensures forall i :: 0 <= i < |r| ==> MatchesFilter(r[i], week, day)
      ensures forall x :: multiset(r)[x] == if MatchesFilter(x, week, day) then multiset(kanjiData)[x] else 0
      ensures IsSubsequence(r, kanjiData)
    {
      FilterExact(kanjiData, week, day);
      FilterPreservesOrder(kanjiData, week, day);
      FilterRecords(kanjiData, week, day)
    }

    /** `groupKanjiByWeekAndDay`. */
    method GroupKanjiByWeekAndDay() returns (grouped: Grouping)
      ensures grouped == Grouped(kanjiData)
    {
      grouped := map[];
      var i := 0;
      while i < |kanjiData|
        invariant 0 <= i <= |kanjiData|
        invariant grouped == Grouped(kanjiData[..i])
      {
        assert kanjiData[..i + 1][..i] == kanjiData[..i];
        var r := kanjiData[i];
        var week := WeekKey(r);
        var day := DayKey(r);
        var days := if week in grouped then grouped[week] else map[];
        var leaf := if day in days then days[day] else DayGroup(ThemeOrDefault(r), []);
        grouped := grouped[week := days[day := leaf.(kanji := leaf.kanji + [r])]];
        i := i + 1;
      }
      assert kanjiData[..i] == kanjiData;
    }

    /** `findKanjiByCharacter`: the first record with that symbol, or null. */
    function FindKanjiByCharacter(symbol: string): (r: Option<KanjiRecord>)
      reads this
      ensures r.None? <==> forall i :: 0 <= i < |kanjiData| ==> kanjiData[i].symbol != symbol
      ensures r.Some? ==>
        exists i :: 0 <= i < |kanjiData| && kanjiData[i] == r.value && r.value.symbol == symbol
          && forall j :: 0 <= j < i ==> kanjiData[j].symbol != symbol
    {
      var i := IndexOfSymbol(kanjiData, symbol);
      if i == -1 then None else Some(kanjiData[i])
    }

    /** `getStatistics`: counts per week and per day ('unknown' for falsy keys) and the distinct themes. */
    method GetStatistics() returns (stats: Statistics)
      ensures stats.totalKanji == |kanjiData|
      ensures CountsAgree(stats.weekBreakdown, kanjiData, WeekStat)
      ensures CountsAgree(stats.dayBreakdown, kanjiData, DayStat)
      ensures SumMap(stats.weekBreakdown, CounterValue) == stats.totalKanji
      ensures SumMap(stats.dayBreakdown, CounterValue) == stats.totalKanji
      ensures Distinct(stats.themes)
      ensures forall t :: t in stats.themes <==> t in ThemesOf(kanjiData)
    {
      var weekBreakdown: map<StatKey, nat> := map[];
      var dayBreakdown: map<StatKey, nat> := map[];
      var themes: seq<string> := [];
      var i := 0;
      while i < |kanjiData|
        invariant 0 <= i <= |kanjiData|
        invariant CountsAgree(weekBreakdown, kanjiData[..i], WeekStat)
        invariant SumMap(weekBreakdown, CounterValue) == i
        invariant CountsAgree(dayBreakdown, kanjiData[..i], DayStat)
        invariant SumMap(dayBreakdown, CounterValue) == i
        invariant Distinct(themes)
        invariant forall t :: t in themes <==> t in ThemesOf(kanjiData[..i])
      {
        var r := kanjiData[i];
        IncrementCounts(kanjiData, i, WeekStat, weekBreakdown);
        weekBreakdown := Increment(weekBreakdown, WeekStat(r));
        IncrementCounts(kanjiData, i, DayStat, dayBreakdown);
        dayBreakdown := Increment(dayBreakdown, DayStat(r));
        ThemesOfExtend(kanjiData, i);
        if r.theme != "" && r.theme !in themes {
          themes := themes + [r.theme];
        }
        i := i + 1;
      }
      assert kanjiData[..i] == kanjiData;
      stats := Statistics(|kanjiData|, weekBreakdown, dayBreakdown, themes);
    }

    /** `isDataLoaded`. */
    function IsDataLoaded(): (b: bool)
      reads this
      ensures b <==> isLoaded && |kanjiData| > 0
    {
      isLoaded && |kanjiData| > 0
    }

    /** `getKanjiCount`. */
    function GetKanjiCount(): (n: nat)
      reads this
      ensures n == |kanjiData|
    {
      |kanjiData|
    }
  }
}

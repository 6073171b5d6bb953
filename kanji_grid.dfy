/**
 * `KanjiGrid`: the dataset laid out as weeks, days within each week, and one
 * card per record, with week/day filters, a text search and per-group
 * statistics. Visibility is returned as the sets of shown groups.
 */
module KanjiGrid {
  import opened Wrappers
  import opened Kanji
  import opened Helpers
  import opened Text
  import opened Api

  // ---------------------------------------------------------------------------
  // Ascending key order of generateGroupedKanji

  /** Some element of a non-empty set. */
  lemma SomeElement<T>(s: set<T>) returns (x: T)
    requires s != {}
    ensures x in s
  {
    x :| x in s;
  }

  /** Every non-empty set of integers has a least element. */
  lemma {:induction false} SetMinimum(s: set<int>) returns (m: int)
    requires s != {}
    ensures m in s && forall x :: x in s ==> m <= x
  {
    var y := SomeElement(s);
    if s == {y} {
      m := y;
      assert forall x :: x in s ==> x == y;
    } else {
      var n := SetMinimum(s - {y});
      m := if y < n then y else n;
      assert forall x :: x in s ==> x == y || x in s - {y};
    }
  }

  /** `Object.keys(...).sort((a, b) => parseInt(a) - parseInt(b))`: the keys in ascending order. */
  method SortedKeys(keys: set<int>) returns (sorted: seq<int>)
    ensures forall i, j :: 0 <= i < j < |sorted| ==> sorted[i] < sorted[j]
    ensures forall k :: k in sorted <==> k in keys
  {
    sorted := [];
    var rest := keys;
    while rest != {}
      invariant forall i, j :: 0 <= i < j < |sorted| ==> sorted[i] < sorted[j]
      invariant forall k :: k in keys <==> k in sorted || k in rest
      invariant forall i, k :: 0 <= i < |sorted| && k in rest ==> sorted[i] < k
      decreases |rest|
    {
      ghost var least := SetMinimum(rest);
      var m :| m in rest && forall x :: x in rest ==> m <= x;
      sorted := sorted + [m];
      rest := rest - {m};
    }
  }

  // ---------------------------------------------------------------------------
  // The rendered layout

  /** A card: the kanji, its meaning, and its position in the dataset (`findIndex`, -1 if none). */
  datatype GridCard = GridCard(symbol: string, meaning: string, globalIndex: int)

  datatype DaySection = DaySection(day: int, theme: string, cards: seq<GridCard>)

  datatype WeekSection = WeekSection(week: int, days: seq<DaySection>)

  /** `createKanjiCard`. */
  function CardOf(r: KanjiRecord, allKanji: seq<KanjiRecord>): (c: GridCard)
    ensures c.symbol == r.symbol && c.meaning == r.meaning
    ensures c.globalIndex == -1 <==> forall i :: 0 <= i < |allKanji| ==> allKanji[i].symbol != r.symbol
    ensures c.globalIndex != -1 ==>
      && 0 <= c.globalIndex < |allKanji| && allKanji[c.globalIndex].symbol == r.symbol
      && forall j :: 0 <= j < c.globalIndex ==> allKanji[j].symbol != r.symbol
  {
    GridCard(r.symbol, r.meaning, IndexOfSymbol(allKanji, r.symbol))
  }

  /** The section of one (week, day) leaf: its theme and one card per record, in leaf order. */
  function DaySectionOf(day: int, leaf: DayGroup, allKanji: seq<KanjiRecord>): DaySection {
    DaySection(day, leaf.theme, seq(|leaf.kanji|, i requires 0 <= i < |leaf.kanji| => CardOf(leaf.kanji[i], allKanji)))
  }

  /** The days of a week section are its leaves in ascending day order. */
  ghost predicate DaysLaidOut(ds: seq<DaySection>, days: map<int, DayGroup>, allKanji: seq<KanjiRecord>) {
    && (forall i, j :: 0 <= i < j < |ds| ==> ds[i].day < ds[j].day)
    && (forall d :: d in days <==> exists i :: 0 <= i < |ds| && ds[i].day == d)
    && (forall i :: 0 <= i < |ds| ==> ds[i].day in days && ds[i] == DaySectionOf(ds[i].day, days[ds[i].day], allKanji))
  }

  /**
   * `generateGroupedKanji`: one section per week in ascending week order, and
   * within it one section per day in ascending day order.
   */
  method GenerateGroupedKanji(grouped: Grouping, allKanji: seq<KanjiRecord>) returns (layout: seq<WeekSection>)
    ensures forall i, j :: 0 <= i < j < |layout| ==> layout[i].week < layout[j].week
    ensures forall w :: w in grouped <==> exists i :: 0 <= i < |layout| && layout[i].week == w
    ensures forall i :: 0 <= i < |layout| ==>
      layout[i].week in grouped && DaysLaidOut(layout[i].days, grouped[layout[i].week], allKanji)
  {
    var weeks := SortedKeys(grouped.Keys);
    layout := [];
    var i := 0;
    while i < |weeks|
      invariant 0 <= i <= |weeks|
      invariant |layout| == i
      invariant forall k :: 0 <= k < i ==> layout[k].week == weeks[k]
      invariant forall k :: 0 <= k < i ==> layout[k].week in grouped && DaysLaidOut(layout[k].days, grouped[layout[k].week], allKanji)
    {
      var weekNum := weeks[i];
      var dayNums := SortedKeys(grouped[weekNum].Keys);
      var daySections: seq<DaySection> := [];
      var j := 0;
      while j < |dayNums|
        invariant 0 <= j <= |dayNums|
        invariant |daySections| == j
        invariant forall k :: 0 <= k < j ==> daySections[k] == DaySectionOf(dayNums[k], grouped[weekNum][dayNums[k]], allKanji)
      {
        var dayNum := dayNums[j];
        daySections := daySections + [DaySectionOf(dayNum, grouped[weekNum][dayNum], allKanji)];
        j := j + 1;
      }
      assert forall d :: d in grouped[weekNum] ==> exists k :: 0 <= k < |daySections| && daySections[k].day == d by {
        forall d | d in grouped[weekNum] ensures exists k :: 0 <= k < |daySections| && daySections[k].day == d {
          var k :| 0 <= k < |dayNums| && dayNums[k] == d;
          assert daySections[k].day == d;
        }
      }
      layout := layout + [WeekSection(weekNum, daySections)];
      i := i + 1;
    }
    assert forall w :: w in grouped ==> exists k :: 0 <= k < |layout| && layout[k].week == w by {
      forall w | w in grouped ensures exists k :: 0 <= k < |layout| && layout[k].week == w {
        var k :| 0 <= k < |weeks| && weeks[k] == w;
        assert layout[k].week == w;
      }
    }
  }

  // ---------------------------------------------------------------------------
  // Filters

  /** A day group is shown when the day filter is 'all' or names that day. */
  predicate DayShown(dayFilter: Option<int>, day: int) {
    dayFilter.None? || dayFilter.value == day
  }

  /** A week group is shown when the week filter admits it and at least one of its days is shown. */
  predicate WeekShown(weekFilter: Option<int>, dayFilter: Option<int>, week: int, days: map<int, DayGroup>) {
    (weekFilter.None? || weekFilter.value == week) && exists d :: d in days && DayShown(dayFilter, d)
  }

  /** Without filters every week of the grouping is shown. */
  lemma UnfilteredShowsEveryWeek(data: seq<KanjiRecord>, w: int)
    requires w in Grouped(data)
    ensures WeekShown(None, None, w, Grouped(data)[w])
  {
    GroupedLeaves(data, w, 0);
    var d := SomeElement(Grouped(data)[w].Keys);
    assert DayShown(None, d);
  }

  /** A day filter naming no day of the data hides every week. */
  lemma AbsentDayHidesEverything(data: seq<KanjiRecord>, weekFilter: Option<int>, day: int, w: int)
    requires forall i :: 0 <= i < |data| ==> DayKey(data[i]) != day
    requires w in Grouped(data)
    ensures !WeekShown(weekFilter, Some(day), w, Grouped(data)[w])
  {
    if day in Grouped(data)[w] {
      GroupedLeaves(data, w, day);
      var leaf := LeafRecords(data, w, day);
      LeafRecordsPartition(data, w, day, leaf[0]);
    }
  }

  /** `getFilterDescription`, over the component's week and day filters. */
  function FilterDescription(weekFilter: Option<int>, dayFilter: Option<int>): (r: string)
    ensures r == "Все кандзи" <==> weekFilter.None? && dayFilter.None?
    ensures weekFilter.Some? && dayFilter.Some? ==>
      r == "Неделя " + IntToString(weekFilter.value) + ", " + "День " + IntToString(dayFilter.value)
    ensures weekFilter.Some? && dayFilter.None? ==> r == "Неделя " + IntToString(weekFilter.value)
    ensures weekFilter.None? && dayFilter.Some? ==> r == "День " + IntToString(dayFilter.value)
  {
    var parts := (if weekFilter.Some? then ["Неделя " + IntToString(weekFilter.value)] else [])
      + (if dayFilter.Some? then ["День " + IntToString(dayFilter.value)] else []);
    if |parts| == 0 then "Все кандзи"
    else if |parts| == 1 then
      assert parts[0][0] != "Все кандзи"[0];
      parts[0]
    else
      assert (parts[0] + ", " + parts[1])[0] != "Все кандзи"[0];
      parts[0] + ", " + parts[1]
  }

  // ---------------------------------------------------------------------------
  // getGroupStatistics

  datatype WeekDetail = WeekDetail(days: nat, totalKanji: nat)

  datatype GroupStatistics = GroupStatistics(totalWeeks: nat, totalDays: nat, weekDetails: map<int, WeekDetail>)

  /** The number of day groups of a week. */
  function DayCount(days: map<int, DayGroup>): nat { |days.Keys| }

  function DetailKanji(d: WeekDetail): nat { d.totalKanji }

  /** The number of records in all day groups of one week, by a loop over its days. */
  method CountWeekKanji(days: map<int, DayGroup>) returns (totalKanji: nat)
    ensures totalKanji == WeekSize(days)
  {
    totalKanji := 0;
    var rest := days;
    while rest != map[]
      invariant totalKanji + SumMap(rest, LeafSize) == SumMap(days, LeafSize)
      decreases |rest|
    {
      ghost var someDay := SomeElement(rest.Keys);
      var day :| day in rest;
      SumMapRemove(rest, LeafSize, day);
      totalKanji := totalKanji + |rest[day].kanji|;
      rest := rest - {day};
    }
  }

  /** `totalDays`: the day groups of all weeks, by a loop over the weeks. */
  method CountDays(grouped: Grouping) returns (totalDays: nat)
    ensures totalDays == SumMap(grouped, DayCount)
  {
    totalDays := 0;
    var rest := grouped;
    while rest != map[]
      invariant totalDays + SumMap(rest, DayCount) == SumMap(grouped, DayCount)
      decreases |rest|
    {
      ghost var someWeek := SomeElement(rest.Keys);
      var week :| week in rest;
      SumMapRemove(rest, DayCount, week);
      totalDays := totalDays + |rest[week].Keys|;
      rest := rest - {week};
    }
  }

  /** `weekDetails`: per week, its number of days and of records. */
  method WeekDetailsOf(grouped: Grouping) returns (weekDetails: map<int, WeekDetail>)
    ensures weekDetails.Keys == grouped.Keys
    ensures forall w :: w in grouped ==> weekDetails[w] == WeekDetail(|grouped[w].Keys|, WeekSize(grouped[w]))
  {
    weekDetails := map[];
    var todo := grouped.Keys;
    while todo != {}
      invariant todo <= grouped.Keys
      invariant weekDetails.Keys == grouped.Keys - todo
      invariant forall w :: w in weekDetails ==> weekDetails[w] == WeekDetail(|grouped[w].Keys|, WeekSize(grouped[w]))
      decreases |todo|
    {
      ghost var someWeek := SomeElement(todo);
      var week :| week in todo;
      var weekKanji := CountWeekKanji(grouped[week]);
      weekDetails := weekDetails[week := WeekDetail(|grouped[week].Keys|, weekKanji)];
      todo := todo - {week};
    }
  }

  /** Summing the week details' kanji totals gives the number of grouped records. */
  lemma WeekDetailsCoverData(data: seq<KanjiRecord>, weekDetails: map<int, WeekDetail>)
    requires weekDetails.Keys == Grouped(data).Keys
    requires forall w :: w in weekDetails ==> weekDetails[w].totalKanji == WeekSize(Grouped(data)[w])
    ensures SumMap(weekDetails, DetailKanji) == |data|
  {
    var g := Grouped(data);
    forall w | w in weekDetails
      ensures DetailKanji(weekDetails[w]) == WeekSize(g[w])
    {
    }
    SumMapCongruent(weekDetails, DetailKanji, g, WeekSize);
    GroupedSizeIsLength(data);
  }

  // ---------------------------------------------------------------------------
  // searchKanji

  /** The inner loop of `filterKanji`: the days of one week that the day filter shows, visited in ascending order. */
  method VisibleDays(days: map<int, DayGroup>, dayFilter: Option<int>) returns (visible: set<int>)
    ensures forall d :: d in visible <==> d in days && DayShown(dayFilter, d)
  {
    var dayNums := SortedKeys(days.Keys);
    visible := {};
    var j := 0;
    while j < |dayNums|
      invariant 0 <= j <= |dayNums|
      invariant forall d :: d in visible <==> (exists k :: 0 <= k < j && dayNums[k] == d) && DayShown(dayFilter, d)
    {
      var dayNum := dayNums[j];
      if DayShown(dayFilter, dayNum) {
        visible := visible + {dayNum};
      }
      j := j + 1;
    }
  }

  /** The match rule of `searchKanji`: the kanji contains the query, or the lower-cased meaning the lower-cased query. */
  predicate SearchMatches(r: KanjiRecord, query: string) {
    Contains(r.symbol, query) || Contains(Lower(r.meaning), Lower(query))
  }

  /** Searching for a record's own kanji finds it. */
  lemma SearchFindsOwnKanji(r: KanjiRecord)
    ensures SearchMatches(r, r.symbol)
  {
    assert OccursAt(r.symbol, r.symbol, 0);
  }

  /** A day group keeps a visible card. */
  predicate DayHasMatch(leaf: DayGroup, query: string) {
    exists i :: 0 <= i < |leaf.kanji| && SearchMatches(leaf.kanji[i], query)
  }

  /** The groups left visible by a search. */
  datatype SearchResult = SearchResult(shownWeeks: set<int>, shownDays: set<(int, int)>)

  class KanjiGridComponent {
    var weekFilter: Option<int>
    var dayFilter: Option<int>

    constructor ()
      ensures weekFilter == None && dayFilter == None
    {
      weekFilter := None;
      dayFilter := None;
    }

    /**
     * `filterKanji`: the weeks left visible, and the visible days of the weeks
     * the week filter admits (days of other weeks are inside hidden groups).
     */
    method FilterKanji(grouped: Grouping) returns (shownWeeks: set<int>, shownDays: set<(int, int)>)
      ensures forall w :: w in shownWeeks <==> w in grouped && WeekShown(weekFilter, dayFilter, w, grouped[w])
      ensures forall w, d :: (w, d) in shownDays <==>
        w in grouped && d in grouped[w] && (weekFilter.None? || weekFilter.value == w) && DayShown(dayFilter, d)
    {
      var weeks := SortedKeys(grouped.Keys);
      shownWeeks := {};
      shownDays := {};
      var i := 0;
      while i < |weeks|
        invariant 0 <= i <= |weeks|
        invariant forall w :: w in shownWeeks <==>
          (exists k :: 0 <= k < i && weeks[k] == w) && WeekShown(weekFilter, dayFilter, w, grouped[w])
        invariant forall w, d :: (w, d) in shownDays <==>
          (exists k :: 0 <= k < i && weeks[k] == w) && d in grouped[w]
          && (weekFilter.None? || weekFilter.value == w) && DayShown(dayFilter, d)
      {
        var weekNum := weeks[i];
        var showWeek := weekFilter.None? || weekFilter.value == weekNum;
        if showWeek {
          var visibleDays := VisibleDays(grouped[weekNum], dayFilter);
          shownDays := shownDays + set d | d in visibleDays :: (weekNum, d);
          if visibleDays != {} {
            ghost var d := SomeElement(visibleDays);
            assert d in grouped[weekNum] && DayShown(dayFilter, d);
            shownWeeks := shownWeeks + {weekNum};
          } else {
            assert !WeekShown(weekFilter, dayFilter, weekNum, grouped[weekNum]);
          }
        }
        i := i + 1;
      }
    }

    /** `resetFilters`: both filters back to 'all'. */
    method ResetFilters()
      modifies this
      ensures weekFilter == None && dayFilter == None
    {
      weekFilter := None;
      dayFilter := None;
    }

    /** `getGroupStatistics`: week and day counts, and per week its days and records. */
    method GetGroupStatistics(grouped: Grouping) returns (stats: GroupStatistics)
      ensures stats.totalWeeks == |grouped.Keys|
      ensures stats.totalDays == SumMap(grouped, DayCount)
      ensures stats.weekDetails.Keys == grouped.Keys
      ensures forall w :: w in grouped ==>
        stats.weekDetails[w] == WeekDetail(|grouped[w].Keys|, WeekSize(grouped[w]))
    {
      var totalDays := CountDays(grouped);
      var weekDetails := WeekDetailsOf(grouped);
      stats := GroupStatistics(|grouped.Keys|, totalDays, weekDetails);
    }

    /**
     * `searchKanji`: a blank query resets the filters; otherwise a day group
     * stays visible exactly when one of its cards matches, and a week group
     * exactly when one of its days does.
     */
    method SearchKanji(grouped: Grouping, query: string) returns (result: Option<SearchResult>)
      modifies this
      ensures IsBlank(query) ==> result.None? && weekFilter == None && dayFilter == None
      ensures !IsBlank(query) ==> result.Some? && weekFilter == old(weekFilter) && dayFilter == old(dayFilter)
      ensures result.Some? ==>
        && (forall w, d :: (w, d) in result.value.shownDays <==>
              w in grouped && d in grouped[w] && DayHasMatch(grouped[w][d], query))
        && (forall w :: w in result.value.shownWeeks <==>
              w in grouped && exists d :: d in grouped[w] && DayHasMatch(grouped[w][d], query))
      ensures result.Some? ==> forall w :: w in result.value.shownWeeks <==> exists d :: (w, d) in result.value.shownDays
    {
      if Trim(query) == "" {
        ResetFilters();
        return None;
      }
      var shownDays := set w, d | w in grouped && d in grouped[w] && DayHasMatch(grouped[w][d], query) :: (w, d);
      var shownWeeks := set w | w in grouped && exists d :: d in grouped[w] && DayHasMatch(grouped[w][d], query);
      result := Some(SearchResult(shownWeeks, shownDays));
    }
  }
}

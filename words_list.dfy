/**
 * `WordsList`: every word of every record as one entry, sorted by record
 * position or word length, grouped into one card per kanji, filtered by
 * week, day and a text search, and summarised in statistics.
 */
module WordsList {
  import opened Wrappers
  import opened Kanji
  import opened Helpers
  import opened Text

  // ---------------------------------------------------------------------------
  // getAllWords

  /** One entry of `getAllWords`: a word and the record it came from. */
  datatype WordEntry = WordEntry(
    word: string,
    symbol: string,
    kanjiMeaning: string,
    kanjiIndex: nat,
    week: int,
    day: int,
    theme: string)

  /** The entries of one record at position `index`, one per word. */
  function EntriesOf(r: KanjiRecord, index: nat): (es: seq<WordEntry>)
    ensures |es| == |r.words|
    ensures forall j :: 0 <= j < |es| ==>
      es[j] == WordEntry(r.words[j], r.symbol, r.meaning, index, r.week, r.day, r.theme)
  {
    seq(|r.words|, j requires 0 <= j < |r.words| =>
      WordEntry(r.words[j], r.symbol, r.meaning, index, r.week, r.day, r.theme))
  }

  /** The entries of all records, record by record, each record's words in order. */
  function WordEntries(data: seq<KanjiRecord>): seq<WordEntry> {
    if data == [] then []
    else WordEntries(data[..|data| - 1]) + EntriesOf(data[|data| - 1], |data| - 1)
  }

  /** The total length of the records' `words` lists. */
  function TotalWords(data: seq<KanjiRecord>): nat {
    if data == [] then 0 else TotalWords(data[..|data| - 1]) + |data[|data| - 1].words|
  }

  /** One entry per (record, word): as many entries as words in all records. */
  lemma {:induction false} WordEntriesCount(data: seq<KanjiRecord>)
    ensures |WordEntries(data)| == TotalWords(data)
  {
    if data != [] {
      WordEntriesCount(data[..|data| - 1]);
    }
  }

  /** Every entry names the position of its record and copies that record's fields. */
  lemma {:induction false} WordEntriesFields(data: seq<KanjiRecord>)
    ensures forall e :: e in WordEntries(data) ==>
      && e.kanjiIndex < |data|
      && e.word in data[e.kanjiIndex].words
      && e.symbol == data[e.kanjiIndex].symbol
      && e.kanjiMeaning == data[e.kanjiIndex].meaning
      && e.week == data[e.kanjiIndex].week
      && e.day == data[e.kanjiIndex].day
      && e.theme == data[e.kanjiIndex].theme
  {
    if data != [] {
      var init := data[..|data| - 1];
      WordEntriesFields(init);
      forall e | e in WordEntries(data)
        ensures e.kanjiIndex < |data| && e.word in data[e.kanjiIndex].words
          && e.symbol == data[e.kanjiIndex].symbol && e.kanjiMeaning == data[e.kanjiIndex].meaning
          && e.week == data[e.kanjiIndex].week && e.day == data[e.kanjiIndex].day
          && e.theme == data[e.kanjiIndex].theme
      {
        if e in WordEntries(init) {
          assert data[e.kanjiIndex] == init[e.kanjiIndex];
        } else {
          var es := EntriesOf(data[|data| - 1], |data| - 1);
          assert e in es;
          var j :| 0 <= j < |es| && es[j] == e;
        }
      }
    }
  }

  // ---------------------------------------------------------------------------
  // sortWords: `Array.prototype.sort`, which is stable

  /** `s` is ordered by non-decreasing key. */
  predicate SortedBy<T>(s: seq<T>, key: T -> int) {
    forall i, j :: 0 <= i < j < |s| ==> key(s[i]) <= key(s[j])
  }

  /** Insert `x` after every element whose key is not larger. */
  function Insert<T>(x: T, s: seq<T>, key: T -> int): (r: seq<T>)
    ensures multiset(r) == multiset(s) + multiset{x}
  {
    if s == [] then [x]
    else if key(x) < key(s[0]) then [x] + s
    else
      assert s == [s[0]] + s[1..];
      [s[0]] + Insert(x, s[1..], key)
  }

  /** Inserting into an ordered sequence keeps it ordered. */
  lemma {:induction false} InsertKeepsSorted<T>(x: T, s: seq<T>, key: T -> int)
    requires SortedBy(s, key)
    ensures SortedBy(Insert(x, s, key), key)
  {
    if s != [] && key(x) >= key(s[0]) {
      var rest := Insert(x, s[1..], key);
      InsertKeepsSorted(x, s[1..], key);
      forall e | e in rest ensures key(s[0]) <= key(e) {
        assert multiset(rest)[e] > 0;
        if e != x {
          assert multiset(s[1..])[e] > 0;
          assert e in s[1..];
          var j :| 0 <= j < |s[1..]| && s[1..][j] == e;
          assert s[j + 1] == e;
        }
      }
    }
  }

  /** The sorted order: insertion sort, each element placed after all earlier ones with the same key. */
  function SortByKey<T>(s: seq<T>, key: T -> int): (r: seq<T>)
    ensures SortedBy(r, key)
    ensures multiset(r) == multiset(s)
  {
    if s == [] then []
    else
      assert s == s[..|s| - 1] + [s[|s| - 1]];
      var sortedInit := SortByKey(s[..|s| - 1], key);
      InsertKeepsSorted(s[|s| - 1], sortedInit, key);
      Insert(s[|s| - 1], sortedInit, key)
  }

  /** One step of `SortByKey`: sort all but the last element, then insert the last. */
  lemma SortByKeyStep<T>(s: seq<T>, key: T -> int)
    requires s != []
    ensures SortedBy(SortByKey(s[..|s| - 1], key), key)
    ensures SortByKey(s, key) == Insert(s[|s| - 1], SortByKey(s[..|s| - 1], key), key)
  {
  }

  /** The elements of `s` with key `k`, in order. */
  function WithKey<T>(s: seq<T>, key: T -> int, k: int): seq<T> {
    if s == [] then []
    else (if key(s[0]) == k then [s[0]] else []) + WithKey(s[1..], key, k)
  }

  lemma WithKeyCons<T>(y: T, t: seq<T>, key: T -> int, k: int)
    ensures WithKey([y] + t, key, k) == (if key(y) == k then [y] else []) + WithKey(t, key, k)
  {
    assert ([y] + t)[0] == y;
    assert ([y] + t)[1..] == t;
  }

  lemma {:induction false} WithKeyAppend<T>(a: seq<T>, b: seq<T>, key: T -> int, k: int)
    ensures WithKey(a + b, key, k) == WithKey(a, key, k) + WithKey(b, key, k)
  {
    if a != [] {
      WithKeyAppend(a[1..], b, key, k);
      assert a + b == [a[0]] + (a[1..] + b);
      assert a == [a[0]] + a[1..];
      WithKeyCons(a[0], a[1..] + b, key, k);
      WithKeyCons(a[0], a[1..], key, k);
    } else {
      assert a + b == b;
    }
  }

  lemma {:induction false} WithKeyAbsent<T>(s: seq<T>, key: T -> int, k: int)
    requires forall i :: 0 <= i < |s| ==> key(s[i]) != k
    ensures WithKey(s, key, k) == []
  {
    if s != [] {
      WithKeyAbsent(s[1..], key, k);
    }
  }

  lemma SortedTail<T>(s: seq<T>, key: T -> int)
    requires s != [] && SortedBy(s, key)
    ensures SortedBy(s[1..], key)
  {
    forall i, j | 0 <= i < j < |s[1..]| ensures key(s[1..][i]) <= key(s[1..][j]) {
      assert s[1..][i] == s[i + 1] && s[1..][j] == s[j + 1];
    }
  }

  /** In an ordered sequence that starts above `k`, no element has key `k`. */
  lemma StartsAboveKey<T>(s: seq<T>, key: T -> int, k: int)
    requires s != [] && SortedBy(s, key) && k < key(s[0])
    ensures WithKey(s, key, k) == []
  {
    forall i | 0 <= i < |s| ensures key(s[i]) != k {
      if i > 0 {
        assert key(s[0]) <= key(s[i]);
      }
    }
    WithKeyAbsent(s, key, k);
  }

  lemma {:induction false} InsertWithKey<T>(x: T, s: seq<T>, key: T -> int, k: int)
    requires SortedBy(s, key)
    ensures WithKey(Insert(x, s, key), key, k) == WithKey(s, key, k) + (if key(x) == k then [x] else [])
  {
    if s == [] {
      assert Insert(x, s, key) == [x] + [];
      WithKeyCons(x, [], key, k);
    } else if key(x) < key(s[0]) {
      assert Insert(x, s, key) == [x] + s;
      WithKeyCons(x, s, key, k);
      if key(x) == k {
        StartsAboveKey(s, key, k);
      }
    } else {
      var rest := Insert(x, s[1..], key);
      assert Insert(x, s, key) == [s[0]] + rest;
      SortedTail(s, key);
      InsertWithKey(x, s[1..], key, k);
      WithKeyCons(s[0], rest, key, k);
      assert s == [s[0]] + s[1..];
      WithKeyCons(s[0], s[1..], key, k);
    }
  }

  lemma WithKeyOfSplit<T>(s: seq<T>, key: T -> int, k: int)
    requires s != []
    ensures WithKey(s, key, k) == WithKey(s[..|s| - 1], key, k) + (if key(s[|s| - 1]) == k then [s[|s| - 1]] else [])
  {
    assert s == s[..|s| - 1] + [s[|s| - 1]];
    WithKeyAppend(s[..|s| - 1], [s[|s| - 1]], key, k);
    WithKeyCons(s[|s| - 1], [], key, k);
    assert [s[|s| - 1]] + [] == [s[|s| - 1]];
  }

  /** The sort is stable: the elements sharing any one key keep their input order. */
  lemma {:induction false} SortIsStable<T>(s: seq<T>, key: T -> int, k: int)
    ensures WithKey(SortByKey(s, key), key, k) == WithKey(s, key, k)
  {
    if s != [] {
      var init, last := s[..|s| - 1], s[|s| - 1];
      var sortedInit := SortByKey(init, key);
      SortByKeyStep(s, key);
      SortIsStable(init, key, k);
      InsertWithKey(last, sortedInit, key, k);
      WithKeyOfSplit(s, key, k);
    }
  }

  lemma {:induction false} InsertAtEnd<T>(x: T, s: seq<T>, key: T -> int)
    requires forall i :: 0 <= i < |s| ==> key(s[i]) <= key(x)
    ensures Insert(x, s, key) == s + [x]
  {
    if s != [] {
      InsertAtEnd(x, s[1..], key);
      assert s == [s[0]] + s[1..];
    }
  }

  lemma SortedInit<T>(init: seq<T>, last: T, key: T -> int)
    requires SortedBy(init + [last], key)
    ensures SortedBy(init, key)
    ensures forall i :: 0 <= i < |init| ==> key(init[i]) <= key(last)
  {
    forall i | 0 <= i < |init| ensures key(init[i]) <= key(last) {
      assert (init + [last])[i] == init[i] && (init + [last])[|init|] == last;
    }
    forall i, j | 0 <= i < j < |init| ensures key(init[i]) <= key(init[j]) {
      assert (init + [last])[i] == init[i] && (init + [last])[j] == init[j];
    }
  }

  /** Sorting an already ordered sequence changes nothing. */
  lemma {:induction false} SortOfSorted<T>(s: seq<T>, key: T -> int)
    requires SortedBy(s, key)
    ensures SortByKey(s, key) == s
  {
    if s != [] {
      var init, last := s[..|s| - 1], s[|s| - 1];
      assert s == init + [last];
      SortedInit(init, last, key);
      calc {
        SortByKey(s, key);
        { SortByKeyStep(s, key); }
        Insert(last, SortByKey(init, key), key);
        { SortOfSorted(init, key); }
        Insert(last, init, key);
        { InsertAtEnd(last, init, key); }
        s;
      }
    }
  }

  /** The orders `sortWords` supports; alphabetical order is not modelled. */
  datatype SortBy = ByIndex | ByLength

  function IndexKey(e: WordEntry): int { e.kanjiIndex }

  /** `word.length` (every character of the dataset is one UTF-16 unit). */
  function LengthKey(e: WordEntry): int { |e.word| }

  function KeyOf(sortBy: SortBy): WordEntry -> int {
    match sortBy
    case ByIndex => IndexKey
    case ByLength => LengthKey
  }

  /** `sortWords`. */
  function SortWords(words: seq<WordEntry>, sortBy: SortBy): seq<WordEntry> {
    SortByKey(words, KeyOf(sortBy))
  }

  /** The flattened list is already in record order. */
  lemma {:induction false} WordEntriesInRecordOrder(data: seq<KanjiRecord>)
    ensures SortedBy(WordEntries(data), IndexKey)
  {
    if data != [] {
      var init := data[..|data| - 1];
      WordEntriesInRecordOrder(init);
      WordEntriesFields(init);
      var a, b := WordEntries(init), EntriesOf(data[|data| - 1], |data| - 1);
      forall i, j | 0 <= i < j < |a + b| ensures IndexKey((a + b)[i]) <= IndexKey((a + b)[j]) {
        if j >= |a| {
          assert (a + b)[j] == b[j - |a|];
          if i < |a| {
            assert (a + b)[i] in a;
          }
        }
      }
    }
  }

  /** Sorting the flattened list by record position returns it unchanged. */
  lemma IndexSortKeepsRecordOrder(data: seq<KanjiRecord>)
    ensures SortWords(WordEntries(data), ByIndex) == WordEntries(data)
  {
    WordEntriesInRecordOrder(data);
    SortOfSorted(WordEntries(data), IndexKey);
  }

  /** `getAllWords`: flatten the records (nested `forEach`), then `sortWords`. */
  method GetAllWords(data: seq<KanjiRecord>, sortBy: SortBy) returns (allWords: seq<WordEntry>)
    ensures allWords == SortWords(WordEntries(data), sortBy)
  {
    var all: seq<WordEntry> := [];
    var kanjiIndex := 0;
    while kanjiIndex < |data|
      invariant 0 <= kanjiIndex <= |data|
      invariant all == WordEntries(data[..kanjiIndex])
    {
      assert data[..kanjiIndex + 1][..kanjiIndex] == data[..kanjiIndex];
      var kanji := data[kanjiIndex];
      var j := 0;
      while j < |kanji.words|
        invariant 0 <= j <= |kanji.words|
        invariant all == WordEntries(data[..kanjiIndex]) + EntriesOf(kanji, kanjiIndex)[..j]
      {
        all := all + [WordEntry(kanji.words[j], kanji.symbol, kanji.meaning, kanjiIndex, kanji.week, kanji.day, kanji.theme)];
        j := j + 1;
      }
      kanjiIndex := kanjiIndex + 1;
    }
    assert data[..kanjiIndex] == data;
    allWords := SortWords(all, sortBy);
  }

  // ---------------------------------------------------------------------------
  // renderWordsByKanji: one card per kanji

  /** One card: the kanji, the fields of its first entry, and its words in list order. */
  datatype KanjiWords = KanjiWords(
    symbol: string,
    meaning: string,
    kanjiIndex: nat,
    week: int,
    day: int,
    theme: string,
    words: seq<string>)

  /** One step of the grouping `forEach`. */
  function AddWord(groups: map<string, KanjiWords>, e: WordEntry): map<string, KanjiWords> {
    var card := if e.symbol in groups then groups[e.symbol]
      else KanjiWords(e.symbol, e.kanjiMeaning, e.kanjiIndex, e.week, e.day, e.theme, []);
    groups[e.symbol := card.(words := card.words + [e.word])]
  }

  /** The cards of a word list, folded in list order. */
  function GroupedWords(words: seq<WordEntry>): map<string, KanjiWords> {
    if words == [] then map[] else AddWord(GroupedWords(words[..|words| - 1]), words[|words| - 1])
  }

  /** The words listed under `symbol`, in list order. */
  function WordsOfKanji(words: seq<WordEntry>, symbol: string): seq<string> {
    if words == [] then []
    else
      var last := words[|words| - 1];
      WordsOfKanji(words[..|words| - 1], symbol) + (if last.symbol == symbol then [last.word] else [])
  }

  /** The first entry with this kanji, if any. */
  function FirstEntry(words: seq<WordEntry>, symbol: string): Option<WordEntry> {
    if words == [] then None
    else
      var earlier := FirstEntry(words[..|words| - 1], symbol);
      if earlier.Some? then earlier
      else if words[|words| - 1].symbol == symbol then Some(words[|words| - 1])
      else None
  }

  /**
   * Each card holds exactly the words of its own kanji, in list order, and the
   * fields of that kanji's first entry; a card exists exactly for the kanji
   * that have an entry.
   */
  lemma {:induction false} GroupedWordsCards(words: seq<WordEntry>, symbol: string)
    ensures symbol in GroupedWords(words) <==> FirstEntry(words, symbol).Some?
    ensures FirstEntry(words, symbol).Some? ==>
      var e := FirstEntry(words, symbol).value;
      && e.symbol == symbol
      && GroupedWords(words)[symbol]
        == KanjiWords(symbol, e.kanjiMeaning, e.kanjiIndex, e.week, e.day, e.theme, WordsOfKanji(words, symbol))
    ensures FirstEntry(words, symbol).None? ==> WordsOfKanji(words, symbol) == []
  {
    if words != [] {
      GroupedWordsCards(words[..|words| - 1], symbol);
    }
  }

  function CardSize(card: KanjiWords): nat { |card.words| }

  /** Grouping keeps every word: the cards' word counts add up to the number of entries. */
  lemma {:induction false} GroupedWordsTotal(words: seq<WordEntry>)
    ensures SumMap(GroupedWords(words), CardSize) == |words|
  {
    if words != [] {
      var init, e := words[..|words| - 1], words[|words| - 1];
      GroupedWordsTotal(init);
      var g := GroupedWords(init);
      var card := if e.symbol in g then g[e.symbol]
        else KanjiWords(e.symbol, e.kanjiMeaning, e.kanjiIndex, e.week, e.day, e.theme, []);
      SumMapUpdate(g, CardSize, e.symbol, card.(words := card.words + [e.word]));
    }
  }

  /** The kanji of `words`, each once, in the order of their first entry. */
  function FirstAppearances(words: seq<WordEntry>): seq<string> {
    if words == [] then []
    else
      var seen := FirstAppearances(words[..|words| - 1]);
      var symbol := words[|words| - 1].symbol;
      if symbol in seen then seen else seen + [symbol]
  }

  /** `renderWordsByKanji`'s grouping; `order` is the card order (first appearance of each kanji). */
  method GroupWordsByKanji(words: seq<WordEntry>) returns (wordsByKanji: map<string, KanjiWords>, order: seq<string>)
    ensures wordsByKanji == GroupedWords(words)
    ensures Distinct(order)
    ensures forall s :: s in order <==> s in wordsByKanji
    ensures order == FirstAppearances(words)
  {
    wordsByKanji := map[];
    order := [];
    var i := 0;
    while i < |words|
      invariant 0 <= i <= |words|
      invariant wordsByKanji == GroupedWords(words[..i])
      invariant Distinct(order)
      invariant forall s :: s in order <==> s in wordsByKanji
      invariant order == FirstAppearances(words[..i])
    {
      assert words[..i + 1][..i] == words[..i];
      var wordObj := words[i];
      if wordObj.symbol !in wordsByKanji {
        wordsByKanji := wordsByKanji[wordObj.symbol := KanjiWords(wordObj.symbol, wordObj.kanjiMeaning,
          wordObj.kanjiIndex, wordObj.week, wordObj.day, wordObj.theme, [])];
        order := order + [wordObj.symbol];
      }
      var card := wordsByKanji[wordObj.symbol];
      wordsByKanji := wordsByKanji[wordObj.symbol := card.(words := card.words + [wordObj.word])];
      i := i + 1;
    }
    assert words[..i] == words;
  }

  // ---------------------------------------------------------------------------
  // filterWords

  /** `array.join(sep)`. */
  function Join(parts: seq<string>, sep: string): string {
    if parts == [] then ""
    else if |parts| == 1 then parts[0]
    else parts[0] + sep + Join(parts[1..], sep)
  }

  /** The text a card is searched in: kanji, meaning and words, separated by spaces. */
  function SearchText(card: KanjiWords): string {
    card.symbol + " " + card.meaning + " " + Join(card.words, " ")
  }

  /**
   * A card's `data-week`/`data-day` attribute is `week || ''`, so a selected
   * week or day matches only a non-zero equal value.
   */
  predicate AttributeMatches(filter: Option<int>, value: int) {
    filter.None? || (value != 0 && value == filter.value)
  }

  /** The visibility rule of `filterWords`. */
  predicate CardVisible(card: KanjiWords, weekFilter: Option<int>, dayFilter: Option<int>, query: string) {
    && AttributeMatches(weekFilter, card.week)
    && AttributeMatches(dayFilter, card.day)
    && (query == "" || Contains(Lower(SearchText(card)), Lower(query)))
  }

  /** With no filter and no query every card is shown. */
  lemma UnfilteredShowsAll(card: KanjiWords)
    ensures CardVisible(card, None, None, "")
  {
  }

  /** Searching for a card's own kanji finds it. */
  lemma SearchFindsOwnKanji(card: KanjiWords)
    ensures CardVisible(card, None, None, card.symbol)
  {
    var text := SearchText(card);
    var lowered := Lower(text);
    assert lowered[0..|card.symbol|] == Lower(card.symbol);
    assert OccursAt(lowered, Lower(card.symbol), 0);
  }

  /** The number of `true` flags. */
  function CountShown(shown: seq<bool>): nat {
    if shown == [] then 0 else CountShown(shown[..|shown| - 1]) + (if shown[|shown| - 1] then 1 else 0)
  }

  /** The component's filter state. */
  class WordsListComponent {
    var weekFilter: Option<int>
    var dayFilter: Option<int>
    var searchQuery: string
    var sortBy: SortBy

    constructor ()
      ensures weekFilter == None && dayFilter == None && searchQuery == "" && sortBy == ByIndex
    {
      weekFilter := None;
      dayFilter := None;
      searchQuery := "";
      sortBy := ByIndex;
    }

    /** The search box handler: the query is stored trimmed. */
    method SetSearchQuery(input: string)
      modifies this
      ensures searchQuery == Trim(input)
      ensures weekFilter == old(weekFilter) && dayFilter == old(dayFilter) && sortBy == old(sortBy)
    {
      searchQuery := Trim(input);
    }

    /** `filterWords`: which cards are shown, and how many. */
    method FilterWords(cards: seq<KanjiWords>) returns (shown: seq<bool>, visibleCount: nat)
      ensures |shown| == |cards|
      ensures forall i :: 0 <= i < |cards| ==> (shown[i] <==> CardVisible(cards[i], weekFilter, dayFilter, searchQuery))
      ensures visibleCount == CountShown(shown) <= |cards|
      ensures forall i :: 0 <= i < |cards| && ((weekFilter.Some? && cards[i].week == 0) || (dayFilter.Some? && cards[i].day == 0)) ==>
        !shown[i]
    {
      shown := [];
      visibleCount := 0;
      var i := 0;
      while i < |cards|
        invariant 0 <= i <= |cards|
        invariant |shown| == i
        invariant forall j :: 0 <= j < i ==> (shown[j] <==> CardVisible(cards[j], weekFilter, dayFilter, searchQuery))
        invariant visibleCount == CountShown(shown) <= i
      {
        var card := cards[i];
        var show := true;
        if weekFilter.Some? && !(card.week != 0 && card.week == weekFilter.value) {
          show := false;
        }
        if dayFilter.Some? && !(card.day != 0 && card.day == dayFilter.value) {
          show := false;
        }
        if searchQuery != "" {
          var searchInText := Lower(SearchText(card));
          if !Contains(searchInText, Lower(searchQuery)) {
            show := false;
          }
        }
        assert (shown + [show])[..i] == shown;
        shown := shown + [show];
        if show {
          visibleCount := visibleCount + 1;
        }
        i := i + 1;
      }
    }

    /** `resetFilters`: all weeks, all days, no query. */
    method ResetFilters()
      modifies this
      ensures weekFilter == None && dayFilter == None && searchQuery == ""
      ensures sortBy == old(sortBy)
    {
      weekFilter := None;
      dayFilter := None;
      searchQuery := "";
    }

    /** `getWordsStatistics` over the dataset (the average is not modelled; its divisor is `kanjiCount`). */
    method GetWordsStatistics(data: seq<KanjiRecord>) returns (stats: WordsStatistics)
      ensures stats.totalWords == TotalWords(data)
      ensures stats.uniqueWords <= stats.totalWords
      ensures stats.kanjiCount <= stats.totalWords
      ensures stats.uniqueWords == |set e | e in WordEntries(data) :: e.word|
      ensures stats.kanjiCount == |set e | e in WordEntries(data) :: e.symbol|
      ensures stats.totalWords > 0 ==>
        && FirstOfLeastLength(SortWords(WordEntries(data), sortBy), stats.shortestWord)
        && LastOfGreatestLength(SortWords(WordEntries(data), sortBy), stats.longestWord)
      ensures stats.totalWords > 0 ==> stats.kanjiCount > 0
      ensures stats.totalWords == 0 ==> stats.shortestWord == "" && stats.longestWord == ""
      ensures stats.totalWords > 0 ==>
        && (exists e :: e in WordEntries(data) && e.word == stats.shortestWord)
        && (exists e :: e in WordEntries(data) && e.word == stats.longestWord)
        && forall e :: e in WordEntries(data) ==> |stats.shortestWord| <= |e.word| <= |stats.longestWord|
    {
      var allWords := GetAllWords(data, sortBy);
      WordEntriesCount(data);
      SameMultisetSameElements(allWords, WordEntries(data));
      assert |allWords| == |multiset(allWords)| == |multiset(WordEntries(data))| == |WordEntries(data)|;
      stats := StatisticsOf(allWords);
      assert (set e | e in allWords :: e.word) == (set e | e in WordEntries(data) :: e.word);
      assert (set e | e in allWords :: e.symbol) == (set e | e in WordEntries(data) :: e.symbol);
    }
  }

  /** The statistics of one word list. */
  method StatisticsOf(allWords: seq<WordEntry>) returns (stats: WordsStatistics)
    ensures stats.totalWords == |allWords|
    ensures stats.uniqueWords <= stats.totalWords
    ensures stats.kanjiCount <= stats.totalWords
    ensures stats.uniqueWords == |set e | e in allWords :: e.word|
    ensures stats.kanjiCount == |set e | e in allWords :: e.symbol|
    ensures stats.totalWords > 0 ==>
      FirstOfLeastLength(allWords, stats.shortestWord) && LastOfGreatestLength(allWords, stats.longestWord)
    ensures stats.totalWords > 0 ==> stats.kanjiCount > 0
    ensures stats.totalWords == 0 ==> stats.shortestWord == "" && stats.longestWord == ""
    ensures stats.totalWords > 0 ==>
      && (exists e :: e in allWords && e.word == stats.shortestWord)
      && (exists e :: e in allWords && e.word == stats.longestWord)
      && forall e :: e in allWords ==> |stats.shortestWord| <= |e.word| <= |stats.longestWord|
  {
    var uniqueWords := set e | e in allWords :: e.word;
    var kanjiSet := set e | e in allWords :: e.symbol;
    DistinctCountsBounded(allWords);
    if |allWords| == 0 {
      return WordsStatistics(0, |uniqueWords|, 0, "", "");
    }
    var sortedByLength := SortByKey(allWords, LengthKey);
    LengthSortTieBreak(allWords);
    var shortest := sortedByLength[0];
    var longest := sortedByLength[|sortedByLength| - 1];
    stats := WordsStatistics(|allWords|, |uniqueWords|, |kanjiSet|, shortest.word, longest.word);
    ExtremesOccur(allWords, stats.shortestWord, stats.longestWord);
  }

  /** There are no more distinct words, nor distinct kanji, than entries, and a non-empty list has a kanji. */
  lemma DistinctCountsBounded(allWords: seq<WordEntry>)
    ensures |set e | e in allWords :: e.word| <= |allWords|
    ensures |set e | e in allWords :: e.symbol| <= |allWords|
    ensures |allWords| > 0 ==> |set e | e in allWords :: e.symbol| > 0
  {
    var words := set i | 0 <= i < |allWords| :: WordOf(allWords[i]);
    ImageAtMostLength(allWords, WordOf, words);
    assert words == set e | e in allWords :: e.word;
    var symbols := set i | 0 <= i < |allWords| :: SymbolOf(allWords[i]);
    ImageAtMostLength(allWords, SymbolOf, symbols);
    assert symbols == set e | e in allWords :: e.symbol;
    if |allWords| > 0 {
      assert allWords[0].symbol in symbols;
    }
  }

  /** The first shortest and the last longest word are words of the list, bounding every other. */
  lemma ExtremesOccur(allWords: seq<WordEntry>, shortest: string, longest: string)
    requires FirstOfLeastLength(allWords, shortest) && LastOfGreatestLength(allWords, longest)
    ensures exists e :: e in allWords && e.word == shortest
    ensures exists e :: e in allWords && e.word == longest
    ensures forall e :: e in allWords ==> |shortest| <= |e.word| <= |longest|
  {
    var k :| 0 <= k < |allWords| && allWords[k].word == shortest && forall j :: 0 <= j < k ==> |allWords[j].word| > |shortest|;
    assert allWords[k] in allWords;
    var l :| 0 <= l < |allWords| && allWords[l].word == longest && forall j :: l < j < |allWords| ==> |allWords[j].word| < |longest|;
    assert allWords[l] in allWords;
  }

  /** `w` is the word of the first entry of least length in `s`. */
  ghost predicate FirstOfLeastLength(s: seq<WordEntry>, w: string) {
    && (forall j :: 0 <= j < |s| ==> |w| <= |s[j].word|)
    && exists k :: 0 <= k < |s| && s[k].word == w && forall j :: 0 <= j < k ==> |s[j].word| > |w|
  }

  /** `w` is the word of the last entry of greatest length in `s`. */
  ghost predicate LastOfGreatestLength(s: seq<WordEntry>, w: string) {
    && (forall j :: 0 <= j < |s| ==> |s[j].word| <= |w|)
    && exists k :: 0 <= k < |s| && s[k].word == w && forall j :: k < j < |s| ==> |s[j].word| < |w|
  }

  /** The first element with key `k` is the first position of `s` holding that key. */
  lemma {:induction false} WithKeyFirstIndex<T>(s: seq<T>, key: T -> int, k: int)
    requires WithKey(s, key, k) != []
    ensures exists i ::
      && 0 <= i < |s| && s[i] == WithKey(s, key, k)[0] && key(s[i]) == k
      && forall j :: 0 <= j < i ==> key(s[j]) != k
  {
    if key(s[0]) != k {
      WithKeyFirstIndex(s[1..], key, k);
      var i :| 0 <= i < |s[1..]| && s[1..][i] == WithKey(s[1..], key, k)[0] && key(s[1..][i]) == k
        && forall j :: 0 <= j < i ==> key(s[1..][j]) != k;
      assert forall j :: 1 <= j < i + 1 ==> s[j] == s[1..][j - 1];
      assert s[i + 1] == WithKey(s, key, k)[0];
    }
  }

  /** The last element with key `k` is the last position of `s` holding that key. */
  lemma {:induction false} WithKeyLastIndex<T>(s: seq<T>, key: T -> int, k: int)
    requires WithKey(s, key, k) != []
    ensures var w := WithKey(s, key, k);
      exists i ::
        && 0 <= i < |s| && s[i] == w[|w| - 1] && key(s[i]) == k
        && forall j :: i < j < |s| ==> key(s[j]) != k
  {
    var init := s[..|s| - 1];
    WithKeyOfSplit(s, key, k);
    if key(s[|s| - 1]) != k {
      WithKeyLastIndex(init, key, k);
      var w := WithKey(init, key, k);
      var i :| 0 <= i < |init| && init[i] == w[|w| - 1] && key(init[i]) == k
        && forall j :: i < j < |init| ==> key(init[j]) != k;
      assert forall j :: i < j < |s| - 1 ==> s[j] == init[j];
      assert s[i] == init[i];
    }
  }

  /**
   * The length sort is stable, so its first entry is the first shortest entry
   * of the list and its last entry the last longest one.
   */
  lemma LengthSortTieBreak(allWords: seq<WordEntry>)
    requires |allWords| > 0
    ensures var sorted := SortByKey(allWords, LengthKey);
      && |sorted| == |allWords|
      && FirstOfLeastLength(allWords, sorted[0].word)
      && LastOfGreatestLength(allWords, sorted[|sorted| - 1].word)
  {
    LengthSortExtremes(allWords);
    SortHeadIsFirstShortest(allWords);
    SortLastIsLastLongest(allWords);
  }

  lemma SortHeadIsFirstShortest(allWords: seq<WordEntry>)
    requires |allWords| > 0
    ensures var sorted := SortByKey(allWords, LengthKey);
      |sorted| == |allWords| && FirstOfLeastLength(allWords, sorted[0].word)
  {
    var sorted := SortByKey(allWords, LengthKey);
    LengthSortExtremes(allWords);
    var lo := LengthKey(sorted[0]);
    assert sorted == [sorted[0]] + sorted[1..];
    WithKeyCons(sorted[0], sorted[1..], LengthKey, lo);
    SortIsStable(allWords, LengthKey, lo);
    assert WithKey(allWords, LengthKey, lo)[0] == sorted[0];
    WithKeyFirstIndex(allWords, LengthKey, lo);
    var k :| 0 <= k < |allWords| && allWords[k] == sorted[0] && LengthKey(allWords[k]) == lo
      && forall j :: 0 <= j < k ==> LengthKey(allWords[j]) != lo;
    forall j | 0 <= j < |allWords| ensures lo <= |allWords[j].word| {
      assert allWords[j] in allWords;
    }
  }

  lemma SortLastIsLastLongest(allWords: seq<WordEntry>)
    requires |allWords| > 0
    ensures var sorted := SortByKey(allWords, LengthKey);
      |sorted| == |allWords| && LastOfGreatestLength(allWords, sorted[|sorted| - 1].word)
  {
    var sorted := SortByKey(allWords, LengthKey);
    LengthSortExtremes(allWords);
    var last := sorted[|sorted| - 1];
    var hi := LengthKey(last);
    WithKeyOfSplit(sorted, LengthKey, hi);
    SortIsStable(allWords, LengthKey, hi);
    var w := WithKey(allWords, LengthKey, hi);
    assert w[|w| - 1] == last;
    WithKeyLastIndex(allWords, LengthKey, hi);
    var k :| 0 <= k < |allWords| && allWords[k] == last && LengthKey(allWords[k]) == hi
      && forall j :: k < j < |allWords| ==> LengthKey(allWords[j]) != hi;
    forall j | 0 <= j < |allWords| ensures |allWords[j].word| <= hi {
      assert allWords[j] in allWords;
    }
  }

  /** After sorting by length, the first entry holds a shortest word and the last a longest. */
  lemma LengthSortExtremes(allWords: seq<WordEntry>)
    requires |allWords| > 0
    ensures var sorted := SortByKey(allWords, LengthKey);
      && |sorted| == |allWords|
      && sorted[0] in allWords && sorted[|sorted| - 1] in allWords
      && forall e :: e in allWords ==> |sorted[0].word| <= |e.word| <= |sorted[|sorted| - 1].word|
  {
    var sorted := SortByKey(allWords, LengthKey);
    assert |sorted| == |multiset(sorted)| == |multiset(allWords)| == |allWords|;
    SameMultisetSameElements(sorted, allWords);
    SortedEndsAreExtremes(sorted);
  }

  /** In a list ordered by word length the first word is a shortest and the last a longest. */
  lemma SortedEndsAreExtremes(s: seq<WordEntry>)
    requires |s| > 0 && SortedBy(s, LengthKey)
    ensures forall e :: e in s ==> |s[0].word| <= |e.word| <= |s[|s| - 1].word|
  {
    forall e | e in s ensures |s[0].word| <= |e.word| <= |s[|s| - 1].word| {
      var k :| 0 <= k < |s| && s[k] == e;
      assert LengthKey(s[0]) <= LengthKey(s[k]) <= LengthKey(s[|s| - 1]);
    }
  }

  function WordOf(e: WordEntry): string { e.word }

  function SymbolOf(e: WordEntry): string { e.symbol }

  /** The result of `getWordsStatistics`; `kanjiCount` is the number of kanji with words. */
  datatype WordsStatistics = WordsStatistics(
    totalWords: nat,
    uniqueWords: nat,
    kanjiCount: nat,
    shortestWord: string,
    longestWord: string)
}

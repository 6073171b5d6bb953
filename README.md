# Kanji learning app: a Dafny model of its study logic

This project models the logic of a browser app for studying kanji week by
week. It covers six parts:

- **Dataset accessor** (`KanjiAPI`). It loads the dataset once and gives
  index lookup, week/day filtering, a two-level week → day grouping, search
  by kanji and statistics.
- **Data helpers** (`DataHelpers`). Copy-then-shuffle (Fisher–Yates), random
  range, random choices and `groupBy`.
- **Quiz engine** (`KanjiTest`). It builds a batch of questions without
  repeating a kanji and builds each question's answer options. It records
  answers, advances, scores, grades, and points the flashcards at the first
  mistake.
- **Flashcard cursor**. A bounded index with previous/next/random/set/reset,
  the show/hide flag, and how the reading and example record shapes are shown.
- **Word list**. It flattens records into word entries, sorts them by kanji
  position or by word length, groups them by kanji, and applies the card
  visibility rule. It also computes word statistics.
- **Grouped grid**. Weeks and days in ascending order, the filter
  description, the week/day visibility rule, the search rule and group
  statistics.

Modules, one file each:

- `Wrappers` holds `Option`.
- `Text` holds substring search, lower-casing, trimming and number formatting.
- `Kanji` holds the record shapes and the key defaults.
- `Helpers` models `js/utils/helpers.js` and holds the generic lemmas.
- `Api` models `js/utils/api.js`.
- `Quiz` models `js/components/test.js`.
- `Flashcards` models `js/components/flashcards.js`.
- `WordsList` models `js/components/words-list.js`.
- `KanjiGrid` models `js/components/kanji-grid.js`.

Conventions:

- **Components are classes.** Each component whose fields change is a
  `class`, with the same fields and `modifies` clauses.
- **Loops stay loops.** Loops in the source are `while` loops with
  invariants, proved against a specification function.
- **`Math.random` is an oracle.** Every draw is a `:|` choice, so each
  property holds for every possible draw.
- **Falsy numbers are 0.** A week or day that is absent or falsy is 0.
- **`'all'` is `None`.** A filter set to `'all'` is `None`, and a filter set
  to a number `n` is `Some(n)`.

## Model

| member | source | states |
|---|---|---|
| `Text.Contains` | js/components/kanji-grid.js:319-320 | `includes` holds exactly when the pattern occurs at some position of the text |
| `Text.Lower` | js/components/kanji-grid.js:320 | `toLowerCase` keeps the length and lower-cases each character on its own |
| `Text.Trim` | js/components/kanji-grid.js:307 | `trim()` is empty exactly when the text is all white space. Otherwise it begins and ends with a non-space. The input is a blank lead, the result and a blank trail, so only white space is removed |
| `Text.NatToString` | js/components/kanji-grid.js:197-202 | non-empty decimal digits without a leading zero whose decimal value is the number |
| `Text.IntToString` | js/components/kanji-grid.js:197-202 | the decimal text of a filter number: the digits of the number when it is non-negative, and '-' followed by the digits of its magnitude when it is negative |
| `Kanji.WeekKey` | js/utils/api.js:85 | `kanji.week \|\| 1` is never 0 and is the week itself when that is set |
| `Kanji.DayKey` | js/utils/api.js:86 | `kanji.day \|\| 1` is never 0 and is the day itself when that is set |
| `Kanji.ThemeOrDefault` | js/utils/api.js:87 | the leaf theme is never empty and is the record's theme when it has one |
| `Kanji.IndexOfSymbol` | js/components/test.js:716 | `findIndex` by kanji: -1 exactly when no record has that kanji, else the first position that has it |
| `Helpers.RandomOffset` | js/utils/helpers.js:127 | `Math.floor(Math.random() * w)` lies in [0, w) for w > 0 and in [w, 0] otherwise |
| `Helpers.Random` | js/utils/helpers.js:126-128 | `random(min, max)` lies in [min, max], or in (max, min] when max < min |
| `Helpers.RandomChoice` | js/utils/helpers.js:135-137 | an element of the array, or undefined (None) exactly when it is empty |
| `Helpers.FisherYates` | js/utils/helpers.js:113-116 | the descending swap loop leaves the array a permutation of its old contents |
| `Helpers.Shuffle` | js/utils/helpers.js:111-118 | `shuffle` returns a permutation of its argument, with the same length and multiset; the argument is a value and stays unchanged |
| `Helpers.SliceEnd` | js/utils/helpers.js:147 | the end index `slice(0, count)` stops at, including a negative count counted from the end |
| `Helpers.RandomChoices` | js/utils/helpers.js:145-148 | min(count, length) elements for count >= 0, drawn from distinct positions (a sub-multiset of the input) |
| `Helpers.GroupName` | js/utils/helpers.js:158 | the group is the key itself, or 'undefined' for a falsy key |
| `Helpers.GroupBy` | js/utils/helpers.js:156-165 | a group exists exactly for the keys that occur; each group holds its items in input order |
| `Helpers.GroupsPartitionInput` | js/utils/helpers.js:156-165 | each item appears in its own group as often as in the input, and in no other group |
| `Helpers.IndexOf` | js/components/test.js:402 | `indexOf`: -1 exactly when absent, else the first position holding the value |
| `Helpers.PermutationKeepsDistinct` | js/components/test.js:396-399 | shuffling a list of pairwise distinct options keeps them pairwise distinct |
| `Helpers.DistinctIffSingleOccurrences` | js/components/test.js:355-393 | options are pairwise distinct exactly when each occurs at most once |
| `Api.FilterRecords` | js/utils/api.js:69-75 | every record kept matches both filters, and no more records are kept than there are |
| `Api.FilterKeepsMatches` | js/utils/api.js:69-75 | a record is kept as often as it occurs when it matches both filters, and not at all otherwise |
| `Api.FilterPreservesOrder` | js/utils/api.js:69-75 | the filtered list is an order-preserving subsequence of the data |
| `Api.FilterAllIsEverything` | js/utils/api.js:69 | filtering with 'all' and 'all' gives back the whole data |
| `Api.LeafRecordsPartition` | js/utils/api.js:84-98 | each record lies in exactly one leaf, the one keyed by (week \|\| 1, day \|\| 1) |
| `Api.GroupedLeaves` | js/utils/api.js:84-98 | a leaf exists exactly when some record falls in it; it holds those records in data order; its theme is that of the first of them; no week is empty |
| `Api.AddToGroupingSize` | js/utils/api.js:88-97 | adding a record to the grouping adds exactly one to the sum of leaf sizes |
| `Api.GroupedSizeIsLength` | js/utils/api.js:81-102 | the leaf sizes sum to the data length |
| `Api.ThemesOfExtend` | js/utils/api.js:145-147 | a record adds its theme to the theme set when the theme is non-empty |
| `Api.IncrementCounts` | js/utils/api.js:137-142 | one counter update keeps each breakdown equal to the count of records with that key, summing to the records seen |
| `Api.KanjiApi.constructor` | js/utils/api.js:4-7 | no data and not loaded |
| `Api.KanjiApi.LoadKanjiData` | js/utils/api.js:13-41 | the cache wins when loaded and non-empty; otherwise the fetched data, then non-empty embedded data; it fails (with no state change) exactly when neither source yields data |
| `Api.KanjiApi.GetKanjiByIndex` | js/utils/api.js:56-61 | `kanjiData[i]` exactly when 0 <= i < length, otherwise null |
| `Api.KanjiApi.GroupKanjiByWeekAndDay` | js/utils/api.js:81-102 | the loop builds exactly the fold `Grouped` whose leaves the lemmas above describe |
| `Api.KanjiApi.FindKanjiByCharacter` | js/utils/api.js:119-121 | the first record with that kanji, or null exactly when there is none |
| `Api.KanjiApi.GetStatistics` | js/utils/api.js:127-152 | `totalKanji` is the length; each week and day count is the number of records with that key ('unknown' for falsy); each breakdown sums to `totalKanji`; themes are the distinct non-empty themes |
| `Api.KanjiApi.FilterKanji` | js/utils/api.js:69-75 | every record returned matches both filters. Each matching record occurs as often as in the data and no other record occurs. The result keeps the data's order |
| `Api.FilterExact` | js/utils/api.js:69-75 | for every record at once: kept as often as it occurs when it matches, never otherwise |
| `Api.KanjiApi.GetKanjiCount` | js/utils/api.js:166-168 | the number of loaded records |
| `Api.KanjiApi.IsDataLoaded` | js/utils/api.js:158-160 | true exactly when loaded and non-empty |
| `Quiz.KanjiReading` | js/components/test.js:303-322 | the first `on` reading, else the first `kun` reading, else the first element of a reading list, else 'Нет чтения' |
| `Quiz.CreateQuestion` | js/components/test.js:331-413 | the options are pairwise distinct, 1 to 4 in number, and contain the correct answer at `correctIndex`. Each is the answer, a non-empty pool answer or a placeholder. Fewer than 4 happen only when a placeholder already collided |
| `Quiz.KindFor` | js/components/test.js:278-282 | 'meaning' and 'reading' tests ask that kind; 'mixed' asks either |
| `Quiz.GenerateQuestions` | js/components/test.js:246-296 | at most min(count, pool) questions, at least one when that minimum is positive, no kanji twice, each built from a pool record with the test's kind |
| `Quiz.CorrectCountBounds` | js/components/test.js:567-580 | the correct count is at most the number scored, and equals it exactly when every scored answer is correct |
| `Quiz.Percentage` | js/components/test.js:583 | `Math.round(100·K/N)` as the integer p with 2Np <= 200K + N < 2Np + 2N, and no value (NaN) exactly when N = 0 |
| `Quiz.PercentageRange` | js/components/test.js:583 | the percentage is at most 100; all correct gives 100; none correct gives 0 |
| `Quiz.PercentageMonotone` | js/components/test.js:583 | more correct answers never lower the percentage |
| `Quiz.GradeBands` | js/components/test.js:625-629 | the grade bands are >= 90, [75, 90), [60, 75) and the rest; a NaN score falls in the last band |
| `Quiz.GradeMonotone` | js/components/test.js:625-629 | a higher percentage never gets a lower grade |
| `Quiz.AllCorrectIsExcellent` | js/components/test.js:583-629 | answering all scored questions correctly earns the top grade |
| `Quiz.Mistakes` | js/components/test.js:706 | every kept result is wrong and from the results; some wrong result means some mistake is kept |
| `Quiz.MistakesComplete` | js/components/test.js:706 | every wrongly answered result is kept |
| `Quiz.FirstMistake` | js/components/test.js:706-714 | the first mistake is the first wrongly answered result: every earlier result is correct |
| `Quiz.MistakesCount` | js/components/test.js:706-721 | the number of mistakes is the number of positions holding a wrong answer |
| `Quiz.MistakesInOrder` | js/components/test.js:706 | the mistakes keep the order of the results |
| `Quiz.ReviewMistakes` | js/components/test.js:705-723 | nothing to review exactly when all answers were right. Otherwise the flashcards go to the first position of the first mistake's kanji, or nowhere when it is missing; the mistake count is reported. It equals the number of wrongly answered positions, and the first mistake is the first wrong result |
| `Quiz.KanjiTest.constructor` | js/components/test.js:4-15 | no test, index 0, no questions or answers, default settings |
| `Quiz.KanjiTest.StartTest` | js/components/test.js:175-231 | a pool under 4 leaves questions, answers, index and test untouched. An empty batch stores [] and starts nothing. Otherwise a fresh test starts at index 0 with no answers. The batch has distinct kanji from the pool, at most the question count |
| `Quiz.KanjiTest.SelectAnswer` | js/components/test.js:506-527 | only `answers[currentQuestionIndex]` changes, overwriting any earlier choice |
| `Quiz.KanjiTest.ShowResults` | js/components/test.js:559-599 | it scores exactly the questions before the current index. `correctAnswers <= totalQuestions == currentQuestionIndex`; the percentage is the rounded ratio; then the test ends. With no running test it throws and returns nothing |
| `Quiz.KanjiTest.NextQuestion` | js/components/test.js:532-545 | without an answer for the current slot nothing changes. Otherwise the index grows by exactly 1, and the test finishes once it reaches the question count. A finished running test is scored over all its questions: counts, percentage and one row per question |
| `Quiz.KanjiTest.EndTest` | js/components/test.js:550-554 | on confirmation the test ends. It is scored as in `showResults` over the questions before the current index: counts, percentage (none for 0 of 0) and one row per question. Otherwise nothing changes |
| `Quiz.KanjiTest.ResetTest` | js/components/test.js:688-699 | no test, index 0, no questions, no answers |
| `Flashcards.Labelled` | js/components/flashcards.js:253-268 | one line per reading, each the label followed by the reading |
| `Flashcards.ReadingLabels` | js/components/flashcards.js:240-282 | 'Чтения не указаны' when there is no reading, else one line per reading. On-readings come first as `Он: x`, then kun-readings as `Кун: x`; a flat list is shown as is |
| `Flashcards.FirstLabelIsQuizReading` | js/components/flashcards.js:240-282 | the first reading shown on a card is the reading the quiz asks for |
| `Flashcards.ShowExample` | js/components/flashcards.js:366-384 | a complete `japanese`/`russian` pair is shown first; otherwise a complete `jp`/`ru` pair; otherwise the serialised object with no translation. A bare string is shown with no translation |
| `Flashcards.LongKeysWin` | js/components/flashcards.js:366-370 | the `japanese`/`russian` pair takes priority |
| `Flashcards.ShowHidden` | js/components/flashcards.js:323-400 | meaning, words and examples, each replaced by its placeholder when empty, so none of the three is ever blank |
| `Flashcards.FlashcardsComponent.constructor` | js/components/flashcards.js:4-9 | index 0 and hidden info off, which is a valid index for every total |
| `Flashcards.FlashcardsComponent.ShowKanji` | js/components/flashcards.js:193-223 | a valid index shows that card and hides the extra info; an invalid one changes nothing |
| `Flashcards.FlashcardsComponent.PreviousKanji` | js/components/flashcards.js:450-456 | the index drops by 1 exactly when it is above 0; otherwise nothing changes |
| `Flashcards.FlashcardsComponent.NextKanji` | js/components/flashcards.js:461-468 | the index grows by 1 exactly when it is below total-1; otherwise nothing changes |
| `Flashcards.FlashcardsComponent.RandomKanji` | js/components/flashcards.js:473-485 | an in-range index, different from the current one whenever total > 1 |
| `Flashcards.FlashcardsComponent.SetCurrentIndex` | js/components/flashcards.js:491-497 | an in-range index is set exactly; an out-of-range one is ignored |
| `Flashcards.FlashcardsComponent.ToggleHiddenInfo` | js/components/flashcards.js:287-316 | the flag is negated and the index kept; the extra info is revealed exactly when the flag turns on over a valid card |
| `Flashcards.FlashcardsComponent.Reset` | js/components/flashcards.js:518-522 | index 0 and the flag off, a valid state for any total; with data, the face shown is the first record's kanji and reading labels |
| `Flashcards.PreviousMovesIffEnabled` | js/components/flashcards.js:438-444 | the previous button is enabled exactly when the index is above 0 |
| `Flashcards.NextMovesIffEnabled` | js/components/flashcards.js:438-444 | with a non-empty dataset, the next button is enabled exactly when the index is below total-1 |
| `WordsList.EntriesOf` | js/components/words-list.js:157-168 | one entry per word of a record, carrying that record's kanji, meaning, position, week, day and theme |
| `WordsList.WordEntriesCount` | js/components/words-list.js:153-174 | the entries number the sum of the records' word counts |
| `WordsList.WordEntriesFields` | js/components/words-list.js:157-168 | each entry's `kanjiIndex` is a record position whose words contain the entry's word and whose fields it copies |
| `WordsList.Insert` | js/components/words-list.js:181-191 | insertion adds exactly the one element |
| `WordsList.InsertKeepsSorted` | js/components/words-list.js:181-191 | inserting into a list sorted by key keeps it sorted |
| `WordsList.SortByKey` | js/components/words-list.js:181-191 | the result is sorted by non-decreasing key and is a permutation of the input |
| `WordsList.SortIsStable` | js/components/words-list.js:181-191 | elements with equal keys keep their input order |
| `WordsList.WordEntriesInRecordOrder` | js/components/words-list.js:153-174 | entries come out in non-decreasing record position |
| `WordsList.IndexSortKeepsRecordOrder` | js/components/words-list.js:187-189 | sorting by index leaves the entry list exactly as emitted |
| `WordsList.GetAllWords` | js/components/words-list.js:153-191 | the nested loops emit the flattened entries, sorted by the chosen key |
| `WordsList.GroupedWordsCards` | js/components/words-list.js:198-221 | a kanji has a card exactly when it has an entry. The card copies its first entry's fields and lists that kanji's words in list order |
| `WordsList.GroupedWordsTotal` | js/components/words-list.js:198-221 | the card word counts sum to the number of entries |
| `WordsList.GroupWordsByKanji` | js/components/words-list.js:198-221 | the loop builds exactly that grouping. The render order lists each kanji once, in the order of its first entry, as `Object.values` yields string keys |
| `WordsList.UnfilteredShowsAll` | js/components/words-list.js:285-311 | with no filter and no query every card is shown |
| `WordsList.SearchFindsOwnKanji` | js/components/words-list.js:307-308 | searching for a card's own kanji keeps it |
| `WordsList.WordsListComponent.constructor` | js/components/words-list.js:4-11 | both filters 'all', empty query, sorted by index |
| `WordsList.WordsListComponent.SetSearchQuery` | js/components/words-list.js:52 | the query is the trimmed input; nothing else changes |
| `WordsList.WordsListComponent.FilterWords` | js/components/words-list.js:277-326 | a card is shown exactly when the week filter is 'all' or equal, the day filter is 'all' or equal, and the query is empty or occurs in the lower-cased text; the count is the number shown. A card without a week (day) is hidden by any week (day) filter, since its attribute is `''` |
| `WordsList.WordsListComponent.ResetFilters` | js/components/words-list.js:371-386 | week, day and query back to 'all', 'all' and '' |
| `WordsList.WordsListComponent.GetWordsStatistics` | js/components/words-list.js:425-455 | total = words in the data; unique words = the number of distinct words; the kanji count = the number of distinct kanji with words. For a non-empty list the shortest word is that of the first shortest entry and the longest that of the last longest entry, in the list's current sort order |
| `WordsList.StatisticsOf` | js/components/words-list.js:425-452 | the same statistics over a given entry list: the distinct word and kanji counts, and the first shortest and last longest word of that list |
| `WordsList.LengthSortTieBreak` | js/components/words-list.js:449-451 | the stable length sort puts the first shortest entry of the list first and its last longest entry last |
| `WordsList.LengthSortExtremes` | js/components/words-list.js:448-450 | the ends of the length sort are a shortest and a longest entry |
| `KanjiGrid.SortedKeys` | js/components/kanji-grid.js:76 | the keys sorted by numeric difference: strictly ascending, exactly the given keys |
| `KanjiGrid.CardOf` | js/components/kanji-grid.js:117-138 | a card carries the kanji, its meaning and its `findIndex` position in the dataset |
| `KanjiGrid.GenerateGroupedKanji` | js/components/kanji-grid.js:53-110 | one section per week in ascending order, covering every week. In each, one section per day in ascending order with that leaf's theme and its cards in leaf order |
| `KanjiGrid.UnfilteredShowsEveryWeek` | js/components/kanji-grid.js:154-179 | with both filters 'all', every week of the grouping is shown |
| `KanjiGrid.AbsentDayHidesEverything` | js/components/kanji-grid.js:161-179 | a day filter naming a day no record has hides every week |
| `KanjiGrid.FilterDescription` | js/components/kanji-grid.js:194-210 | 'Все кандзи' exactly when both filters are 'all'; otherwise the week part, then the day part, joined by ', ' |
| `KanjiGrid.CountWeekKanji` | js/components/kanji-grid.js:294-296 | the day loop sums the leaf sizes of a week |
| `KanjiGrid.CountDays` | js/components/kanji-grid.js:286-288 | `totalDays` is the sum of the per-week day counts |
| `KanjiGrid.WeekDetailsOf` | js/components/kanji-grid.js:286-297 | each week has a detail with its day count and its record count |
| `KanjiGrid.WeekDetailsCoverData` | js/components/kanji-grid.js:292-296 | the week details' record counts sum to the number of grouped records |
| `KanjiGrid.SearchFindsOwnKanji` | js/components/kanji-grid.js:319-320 | a search for a record's own kanji matches it |
| `KanjiGrid.KanjiGridComponent.constructor` | js/components/kanji-grid.js:4-9 | both filters 'all' |
| `KanjiGrid.VisibleDays` | js/components/kanji-grid.js:157-169 | the days of one week left visible are exactly those the day filter admits ('all' admits every day) |
| `KanjiGrid.KanjiGridComponent.FilterKanji` | js/components/kanji-grid.js:143-188 | a day shows exactly when the day filter is 'all' or equal (in an admitted week); a week shows exactly when the week filter admits it and one of its days shows |
| `KanjiGrid.KanjiGridComponent.ResetFilters` | js/components/kanji-grid.js:234-246 | both filters back to 'all' |
| `KanjiGrid.KanjiGridComponent.GetGroupStatistics` | js/components/kanji-grid.js:278-300 | `totalWeeks` is the number of week keys; `totalDays` is the sum of day counts; each week detail holds its day and record counts |
| `KanjiGrid.KanjiGridComponent.SearchKanji` | js/components/kanji-grid.js:306-351 | a blank query resets both filters. Otherwise a day stays shown exactly when one of its cards matches, and a week exactly when one of its days does, that is, exactly when one of its days stays shown; the filters are kept |

## Left out

- **I/O.** The DOM and rendering are left out: element creation, progress
  bars, titles, week names, notifications, `console`, keyboard, touch and
  swipe handling. So are `localStorage` and app lifecycle wiring.
- **Network.** The `fetch` of the dataset is not modelled. `LoadKanjiData`
  receives its outcome as a parameter (`None` for a failed fetch), and the
  embedded dataset is a parameter too.
- **Time.** Timers and clocks are not modelled: the `setTimeout` in
  `startTest` and the `duration` from `Date.now`. `StartTest` runs the
  delayed block at once.
- **Randomness.** `Math.random` is not modelled as a distribution. Only the
  set of possible draws is, as `:|` choices.
- **Floating point.** The `toFixed` average of `getWordsStatistics` is left
  out. `showResults` uses an exact integer rounding, and NaN is `None`.
- **Text is code points.** Strings are `seq<char>`: `length` counts code
  points, not UTF-16 units. `toLowerCase` covers ASCII and Cyrillic letters
  only.
- **Alphabetical sort.** The `localeCompare(…, 'ja')` order in `sortWords`
  is library behaviour, so `SortBy` has only index and length.
- **Random comparator.** `getRandomKanji` (a sort with a random comparator)
  is library behaviour.
- **Other members.** The setters `filterByWeek`/`filterByDay` of the grid
  depend on the DOM select and are left out. So are `getAllKanji`,
  `getStudyStatistics`, `getTestStatistics`, `exportWordsList` and the
  notification and animation helpers.
- **DOM state.** The grid's `filterKanji` reads the filter fields back from
  the DOM selects, which are the same values here. `searchKanji` after a
  blank query calls `filterKanji`; the model returns `None` and leaves that
  call to the caller.
- **Per-card display in the grid.** `searchKanji` hides each card that does
  not match (js/components/kanji-grid.js:328). `filterKanji` only shows and
  hides week and day groups (js/components/kanji-grid.js:150-180). So in the
  source a card hidden by a search stays hidden after a reset or a filter
  change, inside a group that is shown again. The model does not track
  the display of single cards, only of week and day groups, so
  `KanjiGrid.KanjiGridComponent.FilterKanji` describes which groups are
  shown, not which cards are visible in them.
- `Flashcards.FlashcardsComponent.RandomKanji`: the `do … while` redraw is
  modelled by its outcome, an index in range different from the current one
  when total > 1. Termination is only with probability 1.
- `WordsList.SortByKey`: the in-place `Array.prototype.sort` is modelled as a
  stable sort function on values. The aliasing of the sorted array is not
  modelled. (JavaScript's sort is stable, so the results agree.)
- `Api.KanjiApi.GetStatistics`: the order of the `themes` array is not
  stated, only that it holds each distinct non-empty theme once. Object key
  order of the breakdowns is not modelled.
- **No try/catch in question generation.** `generateQuestions` wraps
  `createQuestion` in `try/catch`. The model cannot throw there, so the
  catch branch is absent.
- `Quiz.KanjiTest.StartTest`: a restart while a test runs is covered only
  for a positive question count. The settings offer 5 to 30 questions
  (js/components/test.js:83). A restart with count 0 would leave the old
  index past the empty question list.
- **`endTest` confirmation.** `confirm()` is a boolean parameter of
  `EndTest`.
- **Distractor pool.** Distractors come from the filtered pool passed to
  `createQuestion`, not from the whole dataset. The model follows the code.
- **Empty fetched array.** `loadKanjiData` accepts an empty fetched array
  and sets `isLoaded`. The model follows the code, so `isDataLoaded` is then
  false.
- `Helpers.GroupBy`: the source builds a plain object and creates a group
  only when `groups[key]` is falsy (js/utils/helpers.js:158-161). A key that
  names an inherited `Object.prototype` member (`"constructor"`,
  `"toString"`, `"__proto__"`) finds a truthy slot, so no array is created
  and the following `push` throws a `TypeError`. The model uses a `map`
  without a prototype and returns a group for such a key instead.
- `WordsList.GroupWordsByKanji`: the same gap applies to the
  `wordsByKanji[kanji]` object (js/components/words-list.js:202-213). A kanji
  string naming an inherited `Object.prototype` member makes the source
  throw a `TypeError`, where the model returns a card.
- **Week and day filters.** They compare the select's text with the
  element's `data-week`/`data-day` text. The model compares integers.

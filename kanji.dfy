/**
 * The shape of one record of the study dataset, as every component reads it.
 * JavaScript's duck-typed fields become a closed set of variants; an absent or
 * falsy string is the empty string and an absent or falsy week or day is 0.
 */
module Kanji {

  /** The `readings` field: absent, an `{on, kun}` object, or a flat array. */
  datatype Readings =
    | NoReadings
    | OnKun(on: seq<string>, kun: seq<string>)
    | ReadingList(items: seq<string>)

  /**
   * One entry of `examples`: an object (keys `japanese`/`russian` or `jp`/`ru`,
   * "" where a key is missing or empty, with `serialised` its `JSON.stringify`
   * text) or a bare string.
   */
  datatype Example =
    | ExampleObject(japanese: string, russian: string, jp: string, ru: string, serialised: string)
    | ExampleText(text: string)

  /** One character's study data. `symbol` is the record's `kanji` field. */
  datatype KanjiRecord = KanjiRecord(
    symbol: string,
    meaning: string,
    readings: Readings,
    words: seq<string>,
    examples: seq<Example>,
    week: int,
    day: int,
    theme: string)

  /** All readings of a record in display order: on-readings, then kun-readings, or the flat list. */
  function AllReadings(r: KanjiRecord): seq<string> {
    match r.readings
    case NoReadings => []
    case OnKun(on, kun) => on + kun
    case ReadingList(items) => items
  }

  /** The theme label of a (week, day) group whose first record has no theme. */
  const NoTheme: string := "Без темы"

  /** `kanji.week || 1`: the week a record is grouped under. */
  function WeekKey(r: KanjiRecord): (w: int)
    ensures w != 0
    ensures r.week != 0 ==> w == r.week
  {
    if r.week == 0 then 1 else r.week
  }

  /** `kanji.day || 1`: the day a record is grouped under. */
  function DayKey(r: KanjiRecord): (d: int)
    ensures d != 0
    ensures r.day != 0 ==> d == r.day
  {
    if r.day == 0 then 1 else r.day
  }

  /** `kanji.theme || 'Без темы'`. */
  function ThemeOrDefault(r: KanjiRecord): (t: string)
    ensures t != ""
    ensures r.theme != "" ==> t == r.theme
  {
    if r.theme == "" then NoTheme else r.theme
  }

  /**
   * `data.findIndex(k => k.kanji === symbol)`: the position of the first record
   * with that symbol, or -1 when there is none.
   */
  function IndexOfSymbol(data: seq<KanjiRecord>, symbol: string): (r: int)
    ensures r == -1 <==> forall i :: 0 <= i < |data| ==> data[i].symbol != symbol
    ensures r != -1 ==> 0 <= r < |data| && data[r].symbol == symbol
    ensures r != -1 ==> forall j :: 0 <= j < r ==> data[j].symbol != symbol
  {
    if |data| == 0 then -1
    else if data[0].symbol == symbol then 0
    else
      var k := IndexOfSymbol(data[1..], symbol);
      if k == -1 then -1 else k + 1
  }
}

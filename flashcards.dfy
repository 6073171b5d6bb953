/**
 * `FlashcardsComponent`: one card at a time over the loaded dataset. The card
 * face shows the character and its labelled readings; the hidden side shows
 * meaning, words and examples. The dataset is a parameter of each method
 * (the component asks the accessor for it); rendering becomes the value a
 * method returns.
 */
module Flashcards {
  import opened Wrappers
  import opened Kanji
  import Quiz

  // ---------------------------------------------------------------------------
  // What a card shows

  const NoReadingsLabel: string := "Чтения не указаны"
  const NoMeaningLabel: string := "Значение не указано"
  const NoWordsLabel: string := "Слова не указаны"
  const NoExamplesLabel: string := "Примеры не указаны"

  /** `str` ends with `suffix`. */
  predicate EndsWith(str: string, suffix: string) {
    |suffix| <= |str| && str[|str| - |suffix|..] == suffix
  }

  /** `readings` with each one prefixed by its label. */
  function Labelled(prefix: string, readings: seq<string>): (r: seq<string>)
    ensures |r| == |readings|
    ensures forall i :: 0 <= i < |r| ==> r[i] == prefix + readings[i]
  {
    seq(|readings|, i requires 0 <= i < |readings| => prefix + readings[i])
  }

  /**
   * `updateReadings`: one label per reading, on-readings as `Он: x`, kun-readings
   * as `Кун: x`, a flat list as is; a single placeholder when there is none.
   */
  function ReadingLabels(r: KanjiRecord): (labels: seq<string>)
    ensures AllReadings(r) == [] ==> labels == [NoReadingsLabel]
    ensures AllReadings(r) != [] ==> |labels| == |AllReadings(r)|
    ensures AllReadings(r) != [] ==> forall i :: 0 <= i < |labels| ==> EndsWith(labels[i], AllReadings(r)[i])
    ensures r.readings.OnKun? && AllReadings(r) != [] ==>
      && (forall i :: 0 <= i < |r.readings.on| ==> labels[i] == "Он: " + r.readings.on[i])
      && (forall j :: 0 <= j < |r.readings.kun| ==> labels[|r.readings.on| + j] == "Кун: " + r.readings.kun[j])
    ensures r.readings.ReadingList? && r.readings.items != [] ==> labels == r.readings.items
  {
    var shown := match r.readings
      case NoReadings => []
      case OnKun(on, kun) => Labelled("Он: ", on) + Labelled("Кун: ", kun)
      case ReadingList(items) => items;
    if shown == [] then [NoReadingsLabel] else shown
  }

  /** The first reading on the card is the one the quiz asks for. */
  lemma FirstLabelIsQuizReading(r: KanjiRecord)
    requires AllReadings(r) != []
    ensures EndsWith(ReadingLabels(r)[0], Quiz.KanjiReading(r))
  {
  }

  /** One rendered example: the Japanese line and, when non-empty, its translation. */
  datatype ExampleView = ExampleView(japanese: string, translation: Option<string>)

  /** The example normalisation of `updateExamples`. */
  function ShowExample(e: Example): (v: ExampleView)
    ensures v.translation.Some? ==> v.translation.value != ""
    ensures v.translation.Some? <==>
      e.ExampleObject? && ((e.japanese != "" && e.russian != "") || (e.jp != "" && e.ru != ""))
    ensures e.ExampleText? ==> v == ExampleView(e.text, None)
    ensures e.ExampleObject? && e.japanese != "" && e.russian != "" ==> v == ExampleView(e.japanese, Some(e.russian))
    ensures e.ExampleObject? && !(e.japanese != "" && e.russian != "") && e.jp != "" && e.ru != "" ==>
      v == ExampleView(e.jp, Some(e.ru))
    ensures e.ExampleObject? && !(e.japanese != "" && e.russian != "") && !(e.jp != "" && e.ru != "") ==>
      v == ExampleView(e.serialised, None)
  {
    match e
    case ExampleObject(japanese, russian, jp, ru, serialised) =>
      if japanese != "" && russian != "" then ExampleView(japanese, Some(russian))
      else if jp != "" && ru != "" then ExampleView(jp, Some(ru))
      else ExampleView(serialised, None)
    case ExampleText(text) => ExampleView(text, None)
  }

  /** The `japanese`/`russian` pair wins over the `jp`/`ru` pair when both are complete. */
  lemma LongKeysWin(e: Example)
    requires e.ExampleObject? && e.japanese != "" && e.russian != ""
    ensures ShowExample(e) == ExampleView(e.japanese, Some(e.russian))
  {
  }

  /** The revealed side of a card. */
  datatype HiddenInfo = HiddenInfo(meaning: string, words: seq<string>, examples: seq<ExampleView>)

  /** `updateMeaning`, `updateWords` and `updateExamples` for one record. */
  function ShowHidden(r: KanjiRecord): (h: HiddenInfo)
    ensures h.meaning != "" && h.words != [] && h.examples != []
    ensures h.meaning == if r.meaning == "" then NoMeaningLabel else r.meaning
    ensures h.words == if r.words == [] then [NoWordsLabel] else r.words
    ensures r.examples == [] ==> h.examples == [ExampleView(NoExamplesLabel, None)]
    ensures r.examples != [] ==>
      && |h.examples| == |r.examples|
      && forall i :: 0 <= i < |r.examples| ==> h.examples[i] == ShowExample(r.examples[i])
  {
    HiddenInfo(
      if r.meaning == "" then NoMeaningLabel else r.meaning,
      if r.words == [] then [NoWordsLabel] else r.words,
      if r.examples == [] then [ExampleView(NoExamplesLabel, None)]
      else seq(|r.examples|, i requires 0 <= i < |r.examples| => ShowExample(r.examples[i])))
  }

  /** The front of a card. */
  datatype CardFace = CardFace(symbol: string, readings: seq<string>)

  // ---------------------------------------------------------------------------
  // The component

  class FlashcardsComponent {
    var currentKanjiIndex: int
    var showHiddenInfo: bool

    /** The current index is a valid position, or 0 when there is nothing to show. */
    predicate IndexValid(total: nat)
      reads this
    {
      0 <= currentKanjiIndex && (currentKanjiIndex < total || currentKanjiIndex == 0)
    }

    constructor ()
      ensures currentKanjiIndex == 0 && !showHiddenInfo
      ensures forall total: nat :: IndexValid(total)
    {
      currentKanjiIndex := 0;
      showHiddenInfo := false;
    }

    /** `updateButtons`: "previous" is disabled on the first card. */
    function PreviousDisabled(): bool
      reads this
    {
      currentKanjiIndex == 0
    }

    /** `updateButtons`: "next" is disabled on the last card. */
    function NextDisabled(total: nat): bool
      reads this
    {
      currentKanjiIndex == total - 1
    }

    /**
     * `showKanji(index)`: render the card at `index` and fold the hidden side;
     * an index with no record shows nothing and changes nothing.
     */
    method ShowKanji(data: seq<KanjiRecord>, index: int) returns (face: Option<CardFace>)
      modifies this
      ensures face.Some? <==> 0 <= index < |data|
      ensures face.Some? ==> face.value == CardFace(data[index].symbol, ReadingLabels(data[index])) && !showHiddenInfo
      ensures face.None? ==> showHiddenInfo == old(showHiddenInfo)
      ensures currentKanjiIndex == old(currentKanjiIndex)
    {
      if !(0 <= index < |data|) {
        return None;
      }
      var kanji := data[index];
      showHiddenInfo := false;
      face := Some(CardFace(kanji.symbol, ReadingLabels(kanji)));
    }

    /** `previousKanji`: step back unless on the first card. */
    method PreviousKanji(data: seq<KanjiRecord>) returns (face: Option<CardFace>)
      requires IndexValid(|data|)
      modifies this
      ensures IndexValid(|data|)
      ensures old(currentKanjiIndex) > 0 ==>
        && currentKanjiIndex == old(currentKanjiIndex) - 1 && !showHiddenInfo
        && face == Some(CardFace(data[currentKanjiIndex].symbol, ReadingLabels(data[currentKanjiIndex])))
      ensures old(currentKanjiIndex) == 0 ==> currentKanjiIndex == 0 && showHiddenInfo == old(showHiddenInfo) && face.None?
    {
      face := None;
      if currentKanjiIndex > 0 {
        currentKanjiIndex := currentKanjiIndex - 1;
        face := ShowKanji(data, currentKanjiIndex);
      }
    }

    /** `nextKanji`: step forward unless on the last card. */
    method NextKanji(data: seq<KanjiRecord>) returns (face: Option<CardFace>)
      requires IndexValid(|data|)
      modifies this
      ensures IndexValid(|data|)
      ensures old(currentKanjiIndex) < |data| - 1 ==>
        && currentKanjiIndex == old(currentKanjiIndex) + 1 && !showHiddenInfo
        && face == Some(CardFace(data[currentKanjiIndex].symbol, ReadingLabels(data[currentKanjiIndex])))
      ensures old(currentKanjiIndex) >= |data| - 1 ==>
        currentKanjiIndex == old(currentKanjiIndex) && showHiddenInfo == old(showHiddenInfo) && face.None?
    {
      face := None;
      if currentKanjiIndex < |data| - 1 {
        currentKanjiIndex := currentKanjiIndex + 1;
        face := ShowKanji(data, currentKanjiIndex);
      }
    }

    /**
     * `randomKanji`: jump to a random card other than the current one when
     * there are at least two; index 0 when there are none.
     */
    method RandomKanji(data: seq<KanjiRecord>) returns (face: Option<CardFace>)
      requires IndexValid(|data|)
      modifies this
      ensures IndexValid(|data|)
      ensures |data| > 1 ==> currentKanjiIndex != old(currentKanjiIndex)
      ensures |data| > 0 ==>
        && !showHiddenInfo
        && face == Some(CardFace(data[currentKanjiIndex].symbol, ReadingLabels(data[currentKanjiIndex])))
      ensures |data| == 0 ==> currentKanjiIndex == 0 && face.None? && showHiddenInfo == old(showHiddenInfo)
    {
      ghost var someIndex := if |data| > 1 && currentKanjiIndex == 0 then 1 else 0;
      assert RandomPick(|data|, currentKanjiIndex, someIndex);
      var newIndex: int :| RandomPick(|data|, currentKanjiIndex, newIndex);
      assert RandomPick(|data|, currentKanjiIndex, newIndex);
      currentKanjiIndex := newIndex;
      face := ShowKanji(data, currentKanjiIndex);
    }

    /** `setCurrentIndex`: jump to `index` when it names a card; otherwise nothing happens. */
    method SetCurrentIndex(data: seq<KanjiRecord>, index: int) returns (face: Option<CardFace>)
      requires IndexValid(|data|)
      modifies this
      ensures IndexValid(|data|)
      ensures 0 <= index < |data| ==>
        && currentKanjiIndex == index && !showHiddenInfo
        && face == Some(CardFace(data[index].symbol, ReadingLabels(data[index])))
      ensures !(0 <= index < |data|) ==>
        currentKanjiIndex == old(currentKanjiIndex) && showHiddenInfo == old(showHiddenInfo) && face.None?
    {
      face := None;
      if index >= 0 && index < |data| {
        currentKanjiIndex := index;
        face := ShowKanji(data, currentKanjiIndex);
      }
    }

    /** `toggleHiddenInfo`: flip the hidden side; opening it reveals the current record's details. */
    method ToggleHiddenInfo(data: seq<KanjiRecord>) returns (revealed: Option<HiddenInfo>)
      modifies this
      ensures showHiddenInfo == !old(showHiddenInfo)
      ensures currentKanjiIndex == old(currentKanjiIndex)
      ensures revealed.Some? <==> showHiddenInfo && 0 <= currentKanjiIndex < |data|
      ensures revealed.Some? ==> revealed.value == ShowHidden(data[currentKanjiIndex])
    {
      showHiddenInfo := !showHiddenInfo;
      revealed := None;
      if showHiddenInfo && 0 <= currentKanjiIndex < |data| {
        revealed := Some(ShowHidden(data[currentKanjiIndex]));
      }
    }

    /** `reset`: back to the first card, hidden side folded. */
    method Reset(data: seq<KanjiRecord>) returns (face: Option<CardFace>)
      modifies this
      ensures currentKanjiIndex == 0 && !showHiddenInfo
      ensures IndexValid(|data|)
      ensures face.Some? <==> |data| > 0
      ensures face.Some? ==> face.value == CardFace(data[0].symbol, ReadingLabels(data[0]))
    {
      currentKanjiIndex := 0;
      showHiddenInfo := false;
      face := ShowKanji(data, currentKanjiIndex);
    }
  }

  /**
   * The possible outcomes of the `randomKanji` draw: a card index other than
   * the current one when there are at least two cards, 0 when there are none.
   */
  predicate RandomPick(total: nat, current: int, k: int) {
    && (total == 0 ==> k == 0)
    && (total > 0 ==> 0 <= k < total)
    && (total > 1 ==> k != current)
  }

  /** Whether the buttons are enabled agrees with whether pressing them moves: "previous". */
  lemma PreviousMovesIffEnabled(c: FlashcardsComponent, total: nat)
    requires c.IndexValid(total)
    ensures !c.PreviousDisabled() <==> c.currentKanjiIndex > 0
  {
  }

  /** "next" is disabled exactly when `nextKanji` would not move, once there is a card. */
  lemma NextMovesIffEnabled(c: FlashcardsComponent, total: nat)
    requires total > 0 && c.IndexValid(total)
    ensures !c.NextDisabled(total) <==> c.currentKanjiIndex < total - 1
  {
  }
}

/**
 * `KanjiTest`: the multiple-choice quiz. A test draws distinct kanji from the
 * filtered pool, builds one question per kanji with up to four distinct
 * options, records the chosen option per question and scores the answers.
 * `Math.random()` is an oracle (the `Random*` methods and `:|` choices);
 * notifications, the DOM, the clock and `confirm()` are parameters or left out.
 */
module Quiz {
  import opened Wrappers
  import opened Kanji
  import opened Helpers
  import opened Text
  import Api

  // ---------------------------------------------------------------------------
  // Settings and questions

  datatype QuestionKind = MeaningQuestion | ReadingQuestion

  datatype TestType = MeaningTest | ReadingTest | MixedTest

  /** `testSettings`; a filter of `None` is `'all'`. */
  datatype TestSettings = TestSettings(questionCount: nat, testType: TestType, weekFilter: Option<int>, dayFilter: Option<int>)

  const DefaultSettings: TestSettings := TestSettings(10, MeaningTest, None, None)

  /** The answer used when a kanji has no reading. */
  const NoReading: string := "Нет чтения"

  datatype Question = Question(
    symbol: string,
    kind: QuestionKind,
    correctAnswer: string,
    options: seq<string>,
    correctIndex: int)

  /** `getKanjiReading`: the first reading of the record, or the no-reading sentinel. */
  function KanjiReading(r: KanjiRecord): (s: string)
    ensures s == if AllReadings(r) == [] then NoReading else AllReadings(r)[0]
  {
    match r.readings
    case NoReadings => NoReading
    case OnKun(on, kun) =>
      if |on| > 0 then on[0] else if |kun| > 0 then kun[0] else NoReading
    case ReadingList(items) => if |items| > 0 then items[0] else NoReading
  }

  /** The answer a record gives to a question of this kind. */
  function AnswerFor(r: KanjiRecord, kind: QuestionKind): string {
    match kind
    case MeaningQuestion => r.meaning
    case ReadingQuestion => KanjiReading(r)
  }

  /** The filler option `Вариант n` / `チテキング<n>` used when distractors run out. */
  function Placeholder(kind: QuestionKind, n: nat): string {
    match kind
    case MeaningQuestion => "Вариант " + NatToString(n)
    case ReadingQuestion => "チテキング" + NatToString(n)
  }

  /** An option may be the correct answer, a non-empty answer of a pool kanji, or a filler. */
  predicate AllowedOption(o: string, correct: string, kind: QuestionKind, pool: seq<KanjiRecord>) {
    || o == correct
    || (o != "" && exists i :: 0 <= i < |pool| && AnswerFor(pool[i], kind) == o)
    || exists n :: 1 <= n < 4 && o == Placeholder(kind, n)
  }

  /** A question whose options are distinct and whose `correctIndex` points at the correct answer. */
  predicate WellFormed(q: Question) {
    && 1 <= |q.options| <= 4
    && Distinct(q.options)
    && 0 <= q.correctIndex < |q.options|
    && q.options[q.correctIndex] == q.correctAnswer
  }

  /** `q` is a question about record `r` built from the pool `pool`. */
  predicate BuiltFrom(q: Question, r: KanjiRecord, pool: seq<KanjiRecord>) {
    && q.symbol == r.symbol
    && q.correctAnswer == AnswerFor(r, q.kind)
    && WellFormed(q)
    && (forall o :: o in q.options ==> AllowedOption(o, q.correctAnswer, q.kind, pool))
    && (|q.options| < 4 ==> Placeholder(q.kind, |q.options|) in q.options)
  }

  /**
   * `createQuestion`: the correct answer, distinct non-empty distractors drawn
   * from the pool (at most 2 * |pool| draws), fillers while they do not collide,
   * then a Fisher-Yates shuffle. Fewer than four options remain only when the
   * next filler already was an option.
   */
  method CreateQuestion(target: KanjiRecord, kind: QuestionKind, pool: seq<KanjiRecord>) returns (q: Question)
    ensures q.kind == kind
    ensures BuiltFrom(q, target, pool)
  {
    var correct := AnswerFor(target, kind);
    var options := [correct];
    var attempts := 0;
    var maxAttempts := |pool| * 2;
    while |options| < 4 && attempts < maxAttempts
      invariant 1 <= |options| <= 4
      invariant Distinct(options)
      invariant correct in options
      invariant forall o :: o in options ==> AllowedOption(o, correct, kind, pool)
      decreases maxAttempts - attempts
    {
      attempts := attempts + 1;
      var k := RandomOffset(|pool|);
      var wrongAnswer := AnswerFor(pool[k], kind);
      if wrongAnswer !in options && wrongAnswer != "" {
        options := options + [wrongAnswer];
      }
    }
    while |options| < 4
      invariant 1 <= |options| <= 4
      invariant Distinct(options)
      invariant correct in options
      invariant forall o :: o in options ==> AllowedOption(o, correct, kind, pool)
      decreases 4 - |options|
    {
      var fakeAnswer := Placeholder(kind, |options|);
      if fakeAnswer !in options {
        options := options + [fakeAnswer];
      } else {
        break;
      }
    }
    ghost var beforeShuffle := options;
    assert |beforeShuffle| < 4 ==> Placeholder(kind, |beforeShuffle|) in beforeShuffle;
    options := Shuffle(options);
    PermutationKeepsDistinct(beforeShuffle, options);
    assert forall o :: o in options <==> o in beforeShuffle by {
      forall o ensures o in options <==> o in beforeShuffle {
        assert o in options <==> multiset(options)[o] > 0;
        assert o in beforeShuffle <==> multiset(beforeShuffle)[o] > 0;
      }
    }
    q := Question(target.symbol, kind, correct, options, IndexOf(options, correct));
  }

  /** The question kind a test type fixes; a mixed test flips a coin per question. */
  method KindFor(testType: TestType) returns (kind: QuestionKind)
    ensures testType == MeaningTest ==> kind == MeaningQuestion
    ensures testType == ReadingTest ==> kind == ReadingQuestion
  {
    match testType
    case MeaningTest => kind := MeaningQuestion;
    case ReadingTest => kind := ReadingQuestion;
    case MixedTest =>
      var heads: bool :| true;
      kind := if heads then MeaningQuestion else ReadingQuestion;
  }

  /** The questions of a test have pairwise distinct kanji. */
  predicate DistinctSymbols(qs: seq<Question>) {
    forall i, j :: 0 <= i < j < |qs| ==> qs[i].symbol != qs[j].symbol
  }

  /** Every question is about some kanji of the pool and built from the pool, with the kind the test type fixes. */
  predicate QuestionsFrom(qs: seq<Question>, pool: seq<KanjiRecord>, testType: TestType) {
    forall i :: 0 <= i < |qs| ==>
      && (exists k :: 0 <= k < |pool| && BuiltFrom(qs[i], pool[k], pool))
      && (testType == MeaningTest ==> qs[i].kind == MeaningQuestion)
      && (testType == ReadingTest ==> qs[i].kind == ReadingQuestion)
  }

  function Min(a: int, b: int): int {
    if a < b then a else b
  }

  /**
   * `generateQuestions`: up to min(questionCount, |pool|) questions about distinct
   * kanji. Each kanji is drawn at random, retrying at most 2 * |pool| times while
   * it was already used; generation stops at the first failed search.
   */
  method GenerateQuestions(settings: TestSettings, pool: seq<KanjiRecord>) returns (questions: seq<Question>)
    ensures |questions| <= settings.questionCount && |questions| <= |pool|
    ensures Min(settings.questionCount, |pool|) > 0 ==> |questions| > 0
    ensures DistinctSymbols(questions)
    ensures QuestionsFrom(questions, pool, settings.testType)
  {
    questions := [];
    var usedKanji: set<string> := {};
    var maxQuestions := Min(settings.questionCount, |pool|);
    var i := 0;
    while i < maxQuestions
      invariant 0 <= i <= maxQuestions
      invariant |questions| == i
      invariant usedKanji == set q | q in questions :: q.symbol
      invariant DistinctSymbols(questions)
      invariant QuestionsFrom(questions, pool, settings.testType)
    {
      var k := RandomOffset(|pool|);
      var candidate := pool[k];
      var attempts := 1;
      var maxAttempts := |pool| * 2;
      while attempts < maxAttempts && candidate.symbol in usedKanji
        invariant 1 <= attempts <= maxAttempts
        invariant 0 <= k < |pool| && candidate == pool[k]
        decreases maxAttempts - attempts
      {
        k := RandomOffset(|pool|);
        candidate := pool[k];
        attempts := attempts + 1;
      }
      if candidate.symbol in usedKanji {
        break;
      }
      usedKanji := usedKanji + {candidate.symbol};
      var kind := KindFor(settings.testType);
      var question := CreateQuestion(candidate, kind, pool);
      questions := questions + [question];
      i := i + 1;
    }
  }

  // ---------------------------------------------------------------------------
  // Scoring

  /** The answer recorded for question `i`, if any (`answers` is a sparse array). */
  function AnswerAt(answers: map<nat, int>, i: nat): Option<int> {
    if i in answers then Some(answers[i]) else None
  }

  /** `userAnswer === question.correctIndex`: an unanswered question is wrong. */
  predicate IsCorrect(q: Question, answer: Option<int>) {
    answer == Some(q.correctIndex)
  }

  /** One row of `detailedResults`. */
  datatype Outcome = Outcome(question: Question, userAnswer: Option<int>, isCorrect: bool)

  /** The number of correctly answered questions among the first `n`. */
  function CorrectCount(questions: seq<Question>, answers: map<nat, int>, n: nat): nat
    requires n <= |questions|
  {
    if n == 0 then 0
    else CorrectCount(questions, answers, n - 1) + (if IsCorrect(questions[n - 1], AnswerAt(answers, n - 1)) then 1 else 0)
  }

  /** No more questions are correct than were asked; all are exactly when every one matches its index. */
  lemma {:induction false} CorrectCountBounds(questions: seq<Question>, answers: map<nat, int>, n: nat)
    requires n <= |questions|
    ensures CorrectCount(questions, answers, n) <= n
    ensures CorrectCount(questions, answers, n) == n <==>
      forall i :: 0 <= i < n ==> IsCorrect(questions[i], AnswerAt(answers, i))
  {
    if n > 0 {
      CorrectCountBounds(questions, answers, n - 1);
    }
  }

  /**
   * `Math.round(correct / total * 100)` over exact rationals: the integer
   * nearest to the ratio, halves rounded up; `None` for 0 / 0 (NaN).
   */
  function Percentage(correct: nat, total: nat): (p: Option<nat>)
    ensures p.None? <==> total == 0
    ensures p.Some? ==> 2 * total * p.value <= 200 * correct + total < 2 * total * p.value + 2 * total
  {
    if total == 0 then None else Some((200 * correct + total) / (2 * total))
  }

  /** Scaling by a non-negative factor keeps the order. */
  lemma {:induction false} MulMonotone(a: nat, b: nat, c: nat)
    requires b <= c
    ensures a * b <= a * c
  {
    if a > 0 {
      MulMonotone(a - 1, b, c);
      assert a * b == (a - 1) * b + b;
      assert a * c == (a - 1) * c + c;
    }
  }

  /** A score never exceeds 100%; a perfect score is exactly 100% and no correct answers 0%. */
  lemma PercentageRange(correct: nat, total: nat)
    requires 0 < total && correct <= total
    ensures Percentage(correct, total).value <= 100
    ensures correct == total ==> Percentage(correct, total) == Some(100)
    ensures correct == 0 ==> Percentage(correct, total) == Some(0)
  {
    var p := Percentage(correct, total).value;
    var d := 2 * total;
    assert d * p <= 200 * correct + total < d * p + d;
    if p > 100 {
      MulMonotone(d, 101, p);
      assert false;
    }
    if correct == total && p < 100 {
      MulMonotone(d, p + 1, 100);
      assert false;
    }
    if correct == 0 && p > 0 {
      MulMonotone(d, 1, p);
      assert false;
    }
  }

  /** More correct answers out of the same total never lower the score. */
  lemma PercentageMonotone(c1: nat, c2: nat, total: nat)
    requires 0 < total && c1 <= c2
    ensures Percentage(c1, total).value <= Percentage(c2, total).value
  {
    var p1, p2 := Percentage(c1, total).value, Percentage(c2, total).value;
    var d := 2 * total;
    assert d * p1 <= 200 * c1 + total;
    assert 200 * c2 + total < d * p2 + d;
    if p1 > p2 {
      MulMonotone(d, p2 + 1, p1);
      assert false;
    }
  }

  datatype Grade = Excellent | Good | Satisfactory | NeedsPractice

  /** The grade shown with the score; NaN compares false and falls to the last band. */
  function GradeOf(p: Option<nat>): Grade {
    if p.Some? && p.value >= 90 then Excellent
    else if p.Some? && p.value >= 75 then Good
    else if p.Some? && p.value >= 60 then Satisfactory
    else NeedsPractice
  }

  function GradeRank(g: Grade): nat {
    match g
    case NeedsPractice => 0
    case Satisfactory => 1
    case Good => 2
    case Excellent => 3
  }

  /** The four bands: at least 90, [75, 90), [60, 75), and below 60 or no score at all. */
  lemma GradeBands(p: Option<nat>)
    ensures GradeOf(p) == Excellent <==> p.Some? && 90 <= p.value
    ensures GradeOf(p) == Good <==> p.Some? && 75 <= p.value < 90
    ensures GradeOf(p) == Satisfactory <==> p.Some? && 60 <= p.value < 75
    ensures GradeOf(p) == NeedsPractice <==> p.None? || p.value < 60
  {
  }

  /** A higher score never gets a lower grade. */
  lemma GradeMonotone(p1: nat, p2: nat)
    requires p1 <= p2
    ensures GradeRank(GradeOf(Some(p1))) <= GradeRank(GradeOf(Some(p2)))
  {
  }

  /** Answering every question correctly earns the top grade. */
  lemma AllCorrectIsExcellent(questions: seq<Question>, answers: map<nat, int>, n: nat)
    requires 0 < n <= |questions|
    requires forall i :: 0 <= i < n ==> IsCorrect(questions[i], AnswerAt(answers, i))
    ensures GradeOf(Percentage(CorrectCount(questions, answers, n), n)) == Excellent
  {
    CorrectCountBounds(questions, answers, n);
    PercentageRange(n, n);
  }

  /** What `showResults` hands to `renderResults` (the duration is not modelled). */
  datatype TestResults = TestResults(
    totalQuestions: nat,
    correctAnswers: nat,
    percentage: Option<nat>,
    detailedResults: seq<Outcome>)

  /** `t` is the score of the first `n` questions: counts, percentage and one row per question. */
  predicate ScoredAs(t: TestResults, questions: seq<Question>, answers: map<nat, int>, n: nat)
    requires n <= |questions|
  {
    && t.totalQuestions == n
    && t.correctAnswers == CorrectCount(questions, answers, n)
    && t.correctAnswers <= t.totalQuestions
    && t.percentage == Percentage(t.correctAnswers, t.totalQuestions)
    && |t.detailedResults| == n
    && forall i :: 0 <= i < n ==>
      t.detailedResults[i] == Outcome(questions[i], AnswerAt(answers, i), IsCorrect(questions[i], AnswerAt(answers, i)))
  }

  /** The wrongly answered rows, in order. */
  function Mistakes(results: seq<Outcome>): (m: seq<Outcome>)
    ensures forall i :: 0 <= i < |m| ==> !m[i].isCorrect && m[i] in results
    ensures |m| <= |results|
    ensures (exists i :: 0 <= i < |results| && !results[i].isCorrect) ==> |m| > 0
  {
    if results == [] then []
    else
      var rest := Mistakes(results[1..]);
      if results[0].isCorrect then
        assert forall i :: 1 <= i < |results| ==> results[i] == results[1..][i - 1];
        rest
      else [results[0]] + rest
  }

  /** The positions of the wrongly answered rows. */
  ghost function WrongRows(results: seq<Outcome>): set<nat> {
    set i: nat | i < |results| && !results[i].isCorrect
  }

  lemma {:induction false} MistakesAppend(a: seq<Outcome>, b: seq<Outcome>)
    ensures Mistakes(a + b) == Mistakes(a) + Mistakes(b)
  {
    if a == [] {
      assert a + b == b;
    } else {
      var ab := a + b;
      assert ab[0] == a[0] && ab[1..] == a[1..] + b;
      MistakesAppend(a[1..], b);
      if a[0].isCorrect {
        assert Mistakes(ab) == Mistakes(ab[1..]);
        assert Mistakes(a) == Mistakes(a[1..]);
      } else {
        assert Mistakes(ab) == [a[0]] + Mistakes(ab[1..]);
        assert Mistakes(a) == [a[0]] + Mistakes(a[1..]);
      }
    }
  }

  /** Every wrongly answered row is among the mistakes. */
  lemma {:induction false} MistakesComplete(results: seq<Outcome>)
    ensures forall r :: r in results && !r.isCorrect ==> r in Mistakes(results)
  {
    if results != [] {
      MistakesComplete(results[1..]);
      assert forall r :: r in results ==> r == results[0] || r in results[1..];
    }
  }

  /** The first mistake is the first wrongly answered row. */
  lemma {:induction false} FirstMistake(results: seq<Outcome>)
    ensures Mistakes(results) != [] ==>
      exists k :: 0 <= k < |results| && results[k] == Mistakes(results)[0] && !results[k].isCorrect
        && forall j :: 0 <= j < k ==> results[j].isCorrect
  {
    if results != [] {
      if results[0].isCorrect {
        FirstMistake(results[1..]);
        if Mistakes(results) != [] {
          var k :| 0 <= k < |results[1..]| && results[1..][k] == Mistakes(results[1..])[0] && !results[1..][k].isCorrect
            && forall j :: 0 <= j < k ==> results[1..][j].isCorrect;
          assert forall j :: 1 <= j < k + 1 ==> results[j] == results[1..][j - 1];
          assert results[k + 1] == Mistakes(results)[0];
        }
      } else {
        assert results[0] == Mistakes(results)[0];
      }
    }
  }

  /** The mistake count `reviewMistakes` reports is the number of wrongly answered rows. */
  lemma {:induction false} MistakesCount(results: seq<Outcome>)
    ensures |Mistakes(results)| == |WrongRows(results)|
  {
    if results != [] {
      var init, last := results[..|results| - 1], results[|results| - 1];
      MistakesCount(init);
      assert results == init + [last];
      MistakesAppend(init, [last]);
      if last.isCorrect {
        assert WrongRows(results) == WrongRows(init);
      } else {
        assert WrongRows(results) == WrongRows(init) + {|init|};
      }
    }
  }

  /** The mistakes keep the order of the results. */
  lemma {:induction false} MistakesInOrder(results: seq<Outcome>)
    ensures IsSubsequence(Mistakes(results), results)
  {
    if results == [] {
      assert EmbedsAt([], results, []);
    } else {
      var init, last := results[..|results| - 1], results[|results| - 1];
      MistakesInOrder(init);
      var idx :| EmbedsAt(Mistakes(init), init, idx);
      assert results == init + [last];
      MistakesAppend(init, [last]);
      if last.isCorrect {
        assert EmbedsAt(Mistakes(results), results, idx);
      } else {
        assert EmbedsAt(Mistakes(results), results, idx + [|init|]);
      }
    }
  }

  /** What `reviewMistakes` does: nothing to review, a mistake not in the dataset, or a jump to the flashcard of the first mistake. */
  datatype Review = NoMistakes | FirstMistakeNotFound(mistakes: nat) | ReviewAt(index: nat, mistakes: nat)

  /** `reviewMistakes`: jump to the dataset position of the first wrongly answered kanji. */
  function ReviewMistakes(results: seq<Outcome>, allKanji: seq<KanjiRecord>): (r: Review)
    ensures r == NoMistakes <==> forall i :: 0 <= i < |results| ==> results[i].isCorrect
    ensures r.ReviewAt? ==>
      && r.index < |allKanji|
      && allKanji[r.index].symbol == Mistakes(results)[0].question.symbol
      && forall j :: 0 <= j < r.index ==> allKanji[j].symbol != allKanji[r.index].symbol
    ensures r.FirstMistakeNotFound? ==>
      forall j :: 0 <= j < |allKanji| ==> allKanji[j].symbol != Mistakes(results)[0].question.symbol
    ensures !r.NoMistakes? ==> r.mistakes == |Mistakes(results)| == |WrongRows(results)| > 0
    ensures !r.NoMistakes? ==>
      exists k :: 0 <= k < |results| && results[k] == Mistakes(results)[0] && !results[k].isCorrect
        && forall j :: 0 <= j < k ==> results[j].isCorrect
  {
    MistakesCount(results);
    FirstMistake(results);
    var mistakes := Mistakes(results);
    if |mistakes| == 0 then NoMistakes
    else
      var kanjiIndex := IndexOfSymbol(allKanji, mistakes[0].question.symbol);
      if kanjiIndex == -1 then FirstMistakeNotFound(|mistakes|)
      else ReviewAt(kanjiIndex, |mistakes|)
  }

  // ---------------------------------------------------------------------------
  // The test component

  datatype StartOutcome = Started | NotEnoughKanji | NoQuestions

  datatype NextOutcome = AnswerMissing | Advanced | Finished(results: Option<TestResults>)

  class KanjiTest {
    /** `currentTest`: the settings the running test was started with, or null. */
    var currentTest: Option<TestSettings>
    var currentQuestionIndex: nat
    var questions: seq<Question>
    /** `answers[i]`: the option chosen for question `i`; a sparse array. */
    var answers: map<nat, int>
    var testSettings: TestSettings

    /** While a test runs, the current index points at one of its questions. */
    predicate Valid()
      reads this
    {
      currentTest.Some? ==> currentQuestionIndex < |questions|
    }

    constructor ()
      ensures currentTest == None && currentQuestionIndex == 0 && questions == [] && answers == map[]
      ensures testSettings == DefaultSettings
      ensures Valid()
    {
      currentTest := None;
      currentQuestionIndex := 0;
      questions := [];
      answers := map[];
      testSettings := DefaultSettings;
    }

    /**
     * `startTest` over the loaded dataset: at least four kanji must pass the
     * settings' filters; a test with no questions is not started.
     */
    method StartTest(data: seq<KanjiRecord>) returns (outcome: StartOutcome)
      requires Valid() && (currentTest.None? || testSettings.questionCount > 0)
      modifies this
      ensures Valid()
      ensures testSettings == old(testSettings)
      ensures var pool := Api.FilterRecords(data, testSettings.weekFilter, testSettings.dayFilter);
        && (outcome == NotEnoughKanji <==> |pool| < 4)
        && (outcome == NoQuestions <==> |pool| >= 4 && testSettings.questionCount == 0)
        && (outcome == NotEnoughKanji ==>
              questions == old(questions) && answers == old(answers)
              && currentQuestionIndex == old(currentQuestionIndex) && currentTest == old(currentTest))
        && (outcome == NoQuestions ==>
              questions == [] && answers == old(answers)
              && currentQuestionIndex == old(currentQuestionIndex) && currentTest == old(currentTest))
        && (outcome == Started ==>
              && 0 < |questions| <= testSettings.questionCount
              && DistinctSymbols(questions)
              && QuestionsFrom(questions, pool, testSettings.testType)
              && answers == map[] && currentQuestionIndex == 0
              && currentTest == Some(testSettings))
    {
      var availableKanji := Api.FilterRecords(data, testSettings.weekFilter, testSettings.dayFilter);
      if |availableKanji| < 4 {
        return NotEnoughKanji;
      }
      questions := GenerateQuestions(testSettings, availableKanji);
      if |questions| == 0 {
        return NoQuestions;
      }
      answers := map[];
      currentQuestionIndex := 0;
      currentTest := Some(testSettings);
      return Started;
    }

    /** `selectAnswer`: record the chosen option for the current question. */
    method SelectAnswer(optionIndex: int)
      requires Valid()
      modifies this
      ensures Valid()
      ensures answers == old(answers)[currentQuestionIndex := optionIndex]
      ensures questions == old(questions) && currentQuestionIndex == old(currentQuestionIndex)
      ensures currentTest == old(currentTest) && testSettings == old(testSettings)
    {
      answers := answers[currentQuestionIndex := optionIndex];
    }

    /**
     * `showResults`: score the questions shown so far. Reading the start time of
     * a test that is not running throws, which leaves everything unchanged.
     */
    method ShowResults() returns (results: Option<TestResults>)
      requires currentTest.Some? ==> currentQuestionIndex <= |questions|
      modifies this
      ensures results.None? <==> old(currentTest).None?
      ensures results.Some? ==>
        currentQuestionIndex <= |questions| && ScoredAs(results.value, questions, answers, currentQuestionIndex)
      ensures currentTest == None
      ensures questions == old(questions) && answers == old(answers)
      ensures currentQuestionIndex == old(currentQuestionIndex) && testSettings == old(testSettings)
      ensures Valid()
    {
      if currentTest.None? {
        return None;
      }
      var correctAnswers := 0;
      var detailedResults: seq<Outcome> := [];
      var i := 0;
      while i < currentQuestionIndex
        invariant 0 <= i <= currentQuestionIndex
        invariant correctAnswers == CorrectCount(questions, answers, i)
        invariant |detailedResults| == i
        invariant forall j :: 0 <= j < i ==>
          detailedResults[j] == Outcome(questions[j], AnswerAt(answers, j), IsCorrect(questions[j], AnswerAt(answers, j)))
      {
        var question := questions[i];
        var userAnswer := AnswerAt(answers, i);
        var isCorrect := userAnswer == Some(question.correctIndex);
        if isCorrect {
          correctAnswers := correctAnswers + 1;
        }
        detailedResults := detailedResults + [Outcome(question, userAnswer, isCorrect)];
        i := i + 1;
      }
      CorrectCountBounds(questions, answers, currentQuestionIndex);
      var percentage := Percentage(correctAnswers, currentQuestionIndex);
      results := Some(TestResults(currentQuestionIndex, correctAnswers, percentage, detailedResults));
      currentTest := None;
    }

    /** `nextQuestion`: refuse without an answer; otherwise advance, finishing after the last question. */
    method NextQuestion() returns (outcome: NextOutcome)
      requires Valid()
      modifies this
      ensures Valid()
      ensures outcome == AnswerMissing <==> old(currentQuestionIndex) !in old(answers)
      ensures outcome == AnswerMissing ==>
        currentQuestionIndex == old(currentQuestionIndex) && currentTest == old(currentTest)
      ensures outcome != AnswerMissing ==> currentQuestionIndex == old(currentQuestionIndex) + 1
      ensures outcome.Finished? <==>
        old(currentQuestionIndex) in old(answers) && old(currentQuestionIndex) + 1 >= |questions|
      ensures outcome.Finished? ==> currentTest == None && (outcome.results.Some? <==> old(currentTest).Some?)
      ensures outcome == Advanced ==> currentTest == old(currentTest)
      ensures outcome.Finished? && outcome.results.Some? ==>
        currentQuestionIndex == |questions| && ScoredAs(outcome.results.value, questions, answers, |questions|)
      ensures questions == old(questions) && answers == old(answers) && testSettings == old(testSettings)
    {
      if currentQuestionIndex !in answers {
        return AnswerMissing;
      }
      currentQuestionIndex := currentQuestionIndex + 1;
      if currentQuestionIndex >= |questions| {
        var results := ShowResults();
        return Finished(results);
      }
      return Advanced;
    }

    /** `endTest`: when the user confirms, finish early and score the questions passed so far. */
    method EndTest(confirmed: bool) returns (results: Option<TestResults>)
      requires Valid()
      modifies this
      ensures Valid()
      ensures !confirmed ==> results.None? && currentTest == old(currentTest)
      ensures confirmed ==> currentTest == None && (results.Some? <==> old(currentTest).Some?)
      ensures results.Some? ==>
        currentQuestionIndex <= |questions| && ScoredAs(results.value, questions, answers, currentQuestionIndex)
      ensures questions == old(questions) && answers == old(answers)
      ensures currentQuestionIndex == old(currentQuestionIndex) && testSettings == old(testSettings)
    {
      results := None;
      if confirmed {
        results := ShowResults();
      }
    }

    /** `resetTest`: back to the settings screen with no test. */
    method ResetTest()
      modifies this
      ensures currentTest == None && currentQuestionIndex == 0 && questions == [] && answers == map[]
      ensures testSettings == old(testSettings)
      ensures Valid()
    {
      currentTest := None;
      currentQuestionIndex := 0;
      questions := [];
      answers := map[];
    }
  }
}

/** The timed mock exam of components/SimulationView.tsx: a session that
    fetches up to ten questions one at a time, records one answer per question
    index, counts down from twenty minutes and ends in a one-way finished state,
    after which the answers are scored.

    The handlers are methods of class Session; each is proved against a pure
    transition function on SessionState, and the session's invariants are
    proved about those functions. A fetch is one method call that receives the
    content provider's outcome; a timer tick is one method call. */
module SimulationView {
  import opened Types
  import Decimal

  /** The number of questions in a mock exam. */
  const QuestionsCount: nat := 10
  /** The lowest score that passes. */
  const PassingPercentage: nat := 72
  /** Two minutes per question, in seconds. */
  const InitialTime: nat := QuestionsCount * 2 * 60

  /** Everything the session view keeps: the fetched questions, the answers by
      question index, the shown index, the loading flag, the finished flag, the
      seconds left, the count of successful fetches and the language mode. */
  datatype SessionState = SessionState(
    questions: seq<QuizQuestion>,
    answers: map<int, int>,
    currentIndex: int,
    loading: bool,
    finished: bool,
    timeLeft: int,
    fetchedCount: int,
    languageMode: LanguageMode)

  function Initial(): SessionState {
    SessionState([], map[], 0, true, false, InitialTime, 0, All)
  }

  /** What holds of every state the session reaches. */
  ghost predicate Inv(s: SessionState) {
    && |s.questions| == s.fetchedCount <= QuestionsCount
    && 0 <= s.currentIndex < QuestionsCount
    && 0 <= s.timeLeft <= InitialTime
    && (s.timeLeft == 0 ==> s.finished)
    && forall i :: i in s.answers ==> 0 <= i < QuestionsCount
  }

  // ---------------------------------------------------------------------
  // Transitions, one per handler

  /** fetchNextQuestion: nothing once ten questions were fetched; otherwise the
      fetched question is appended and counted, and loading ends either way. */
  function FetchNext(s: SessionState, outcome: FetchOutcome): SessionState {
    if s.fetchedCount >= QuestionsCount then s
    else match outcome
      case Fetched(q) =>
        s.(questions := s.questions + [q], fetchedCount := s.fetchedCount + 1, loading := false)
      case FetchFailed => s.(loading := false)
  }

  /** One second of the countdown; the last one finishes the exam. */
  function Tick(s: SessionState): SessionState {
    if s.timeLeft <= 1 then s.(timeLeft := 0, finished := true)
    else s.(timeLeft := s.timeLeft - 1)
  }

  /** handleOptionSelect: record the option for the shown question. */
  function SelectOption(s: SessionState, optionId: int): SessionState {
    if s.finished then s
    else s.(answers := s.answers[s.currentIndex := optionId])
  }

  /** handleNext: fetch the next question when it is not there yet, then move
      to it, whatever the fetch settled with. */
  function Next(s: SessionState, outcome: FetchOutcome): SessionState {
    if s.currentIndex < QuestionsCount - 1 then
      var nextIdx := s.currentIndex + 1;
      var t := if 0 <= nextIdx < |s.questions| then s else FetchNext(s, outcome);
      t.(currentIndex := nextIdx)
    else s
  }

  /** handlePrev */
  function Prev(s: SessionState): SessionState {
    if s.currentIndex > 0 then s.(currentIndex := s.currentIndex - 1) else s
  }

  /** finishExam */
  function Finish(s: SessionState): SessionState {
    s.(finished := true)
  }

  function SetLanguage(s: SessionState, mode: LanguageMode): SessionState {
    s.(languageMode := mode)
  }

  /** Everything that can happen to a session. */
  datatype Event =
    | Fetch(outcome: FetchOutcome)
    | TimerTick
    | Select(optionId: int)
    | NextQuestion(outcome: FetchOutcome)
    | PrevQuestion
    | Submit
    | ChangeLanguage(mode: LanguageMode)

  function Step(s: SessionState, e: Event): SessionState {
    match e
    case Fetch(o) => FetchNext(s, o)
    case TimerTick => Tick(s)
    case Select(id) => SelectOption(s, id)
    case NextQuestion(o) => Next(s, o)
    case PrevQuestion => Prev(s)
    case Submit => Finish(s)
    case ChangeLanguage(m) => SetLanguage(s, m)
  }

  function Run(s: SessionState, events: seq<Event>): SessionState
    decreases |events|
  {
    if events == [] then s else Run(Step(s, events[0]), events[1..])
  }

  function Ticks(s: SessionState, k: nat): SessionState
    decreases k
  {
    if k == 0 then s else Ticks(Tick(s), k - 1)
  }

  // ---------------------------------------------------------------------
  // Invariants

  lemma InitialIsValid()
    ensures Inv(Initial())
    ensures Initial().questions == [] && Initial().answers == map[]
    ensures Initial().currentIndex == 0 && !Initial().finished
    ensures Initial().timeLeft == 1200
  {
  }

  lemma StepPreservesInv(s: SessionState, e: Event)
    requires Inv(s)
    ensures Inv(Step(s, e))
  {
  }

  /** Whatever happens, the session keeps its invariant: at most ten questions,
      all counted, the index within 0..9, the clock within 0..1200. */
  lemma {:induction false} RunPreservesInv(s: SessionState, events: seq<Event>)
    requires Inv(s)
    ensures Inv(Run(s, events))
    decreases |events|
  {
    if events != [] {
      StepPreservesInv(s, events[0]);
      RunPreservesInv(Step(s, events[0]), events[1..]);
    }
  }

  lemma ReachableStatesAreValid(events: seq<Event>)
    ensures Inv(Run(Initial(), events))
  {
    InitialIsValid();
    RunPreservesInv(Initial(), events);
  }

  /** Fetched questions are only ever appended: the list of a later state
      extends the list of an earlier one. */
  lemma {:induction false} RunOnlyAppends(s: SessionState, events: seq<Event>)
    ensures s.questions <= Run(s, events).questions
    decreases |events|
  {
    if events != [] {
      var t := Step(s, events[0]);
      assert s.questions <= t.questions;
      RunOnlyAppends(t, events[1..]);
    }
  }

  /** The finished flag is one-way. */
  lemma {:induction false} RunKeepsFinished(s: SessionState, events: seq<Event>)
    requires s.finished
    ensures Run(s, events).finished
    decreases |events|
  {
    if events != [] {
      RunKeepsFinished(Step(s, events[0]), events[1..]);
    }
  }

  /** Once finished, no answer is recorded or changed any more. */
  lemma {:induction false} RunFreezesAnswers(s: SessionState, events: seq<Event>)
    requires s.finished
    ensures Run(s, events).answers == s.answers
    decreases |events|
  {
    if events != [] {
      RunFreezesAnswers(Step(s, events[0]), events[1..]);
    }
  }

  // ---------------------------------------------------------------------
  // The countdown

  /** Fewer ticks than seconds left only count down, by one each. */
  lemma {:induction false} TicksCountDown(s: SessionState, k: nat)
    requires k < s.timeLeft
    ensures Ticks(s, k) == s.(timeLeft := s.timeLeft - k)
    decreases k
  {
    if k > 0 {
      TicksCountDown(Tick(s), k - 1);
    }
  }

  /** As many ticks as seconds left stop the clock at zero and finish the
      exam, changing nothing else. */
  lemma TimerExpires(s: SessionState)
    requires s.timeLeft >= 1
    ensures Ticks(s, s.timeLeft) == s.(timeLeft := 0, finished := true)
  {
    TicksCountDown(s, s.timeLeft - 1);
    assert Ticks(s, s.timeLeft - 1) == s.(timeLeft := 1);
    TicksAppend(s, s.timeLeft - 1);
  }

  lemma {:induction false} TicksAppend(s: SessionState, k: nat)
    ensures Ticks(s, k + 1) == Tick(Ticks(s, k))
    decreases k
  {
    if k > 0 {
      TicksAppend(Tick(s), k - 1);
    }
  }

  /** Twenty minutes after the start the exam is over with the clock at 0. */
  lemma ExamEndsAfterTwentyMinutes()
    ensures Ticks(Initial(), 1200).finished && Ticks(Initial(), 1200).timeLeft == 0
  {
    TimerExpires(Initial());
  }

  /** A tick never drives the clock below zero. */
  lemma TickNeverNegative(s: SessionState)
    requires s.timeLeft >= 0
    ensures 0 <= Tick(s).timeLeft <= s.timeLeft
    ensures Tick(s).timeLeft == 0 <==> s.timeLeft <= 1
  {
  }

  /** Submitting by hand and running out of time commute, and either one
      after the other finishes the exam just once. */
  lemma FinishIsIdempotent(s: SessionState)
    ensures Finish(Finish(s)) == Finish(s)
    ensures Tick(Finish(s)) == Finish(Tick(s))
    ensures s.timeLeft <= 1 ==> Finish(Tick(s)) == Tick(s)
  {
  }

  // ---------------------------------------------------------------------
  // Answers and navigation

  /** Selecting records the option under the shown index and leaves every
      other index as it was; a later selection overwrites it. Once finished,
      selecting changes nothing. */
  lemma SelectRecordsAnswer(s: SessionState, a: int, b: int)
    ensures s.finished ==> SelectOption(s, a) == s
    ensures !s.finished ==>
      s.currentIndex in SelectOption(s, a).answers && SelectOption(s, a).answers[s.currentIndex] == a
    ensures forall i :: i != s.currentIndex ==>
      (i in SelectOption(s, a).answers <==> i in s.answers) &&
      (i in s.answers ==> SelectOption(s, a).answers[i] == s.answers[i])
    ensures SelectOption(SelectOption(s, a), b) == SelectOption(s, b)
  {
  }

  /** Next moves exactly one question forward below the last one and otherwise
      stays; it consults the provider only when the next question is missing. */
  lemma NextMovesOneForward(s: SessionState, o: FetchOutcome, o': FetchOutcome)
    requires Inv(s)
    ensures Next(s, o).currentIndex ==
      if s.currentIndex < QuestionsCount - 1 then s.currentIndex + 1 else s.currentIndex
    ensures s.currentIndex + 1 < |s.questions| ==> Next(s, o) == Next(s, o') && Next(s, o).questions == s.questions
  {
  }

  /** Previous moves one question back above the first one, never fetches, and
      restores the index that a Next below the last question moved from (a
      question that Next fetched stays fetched). */
  lemma PrevUndoesNext(s: SessionState, o: FetchOutcome)
    requires Inv(s)
    ensures Prev(s).questions == s.questions && Prev(s).fetchedCount == s.fetchedCount
    ensures Prev(s).currentIndex == if s.currentIndex > 0 then s.currentIndex - 1 else 0
    ensures s.currentIndex < QuestionsCount - 1 ==> Prev(Next(s, o)).currentIndex == s.currentIndex
  {
  }

  /** A failed fetch on Next still moves on, to an index that has no question;
      from then on Next keeps the shown index past the end of the list. */
  lemma FailedFetchPassesTheEnd(s: SessionState, o: FetchOutcome)
    requires Inv(s)
    ensures s.currentIndex + 1 == |s.questions| && s.currentIndex < QuestionsCount - 1 ==>
      Next(s, FetchFailed).currentIndex == |Next(s, FetchFailed).questions|
    ensures s.currentIndex >= |s.questions| ==>
      Next(s, o).currentIndex >= |Next(s, o).questions|
  {
  }

  // ---------------------------------------------------------------------
  // Scoring

  predicate AnsweredCorrectly(questions: seq<QuizQuestion>, answers: map<int, int>, i: int)
    requires 0 <= i < |questions|
  {
    i in answers && answers[i] == questions[i].correctId
  }

  /** How many of the first k questions have the correct option recorded. */
  function CountCorrect(questions: seq<QuizQuestion>, answers: map<int, int>, k: nat): (c: nat)
    requires k <= |questions|
    ensures c <= k
    ensures c == k <==> forall i :: 0 <= i < k ==> AnsweredCorrectly(questions, answers, i)
    ensures c == 0 <==> forall i :: 0 <= i < k ==> !AnsweredCorrectly(questions, answers, i)
    decreases k
  {
    if k == 0 then 0
    else CountCorrect(questions, answers, k - 1) + (if AnsweredCorrectly(questions, answers, k - 1) then 1 else 0)
  }

  /** A percentage as JavaScript computes it: 0/0 gives NaN. */
  datatype Percentage = Percent(value: int) | NaN

  /** Math.round(correct / total * 100) over exact rationals: the nearest
      integer, halves rounded up; NaN when nothing was fetched. */
  function Score(correct: nat, total: nat): (p: Percentage)
    requires correct <= total
    ensures p.NaN? <==> total == 0
    ensures p.Percent? ==> 0 <= p.value <= 100
    ensures p.Percent? ==> 2 * total * p.value <= 200 * correct + total < 2 * total * (p.value + 1)
  {
    if total == 0 then NaN
    else
      var r := (200 * correct + total) / (2 * total);
      DivBounds(200 * correct + total, 2 * total);
      RoundedAtMost100(correct, total, r);
      Percent(r)
  }

  lemma DivBounds(a: nat, b: nat)
    requires b > 0
    ensures b * (a / b) <= a < b * (a / b + 1)
  {
  }

  lemma RoundedAtMost100(correct: nat, total: nat, r: int)
    requires correct <= total && total > 0
    requires 2 * total * r <= 200 * correct + total
    ensures r <= 100
  {
    assert 2 * total * r < 2 * total * 101;
    MulCancelLess(2 * total, r, 101);
  }

  lemma MulCancelLess(a: int, x: int, y: int)
    requires a > 0 && a * x < a * y
    ensures x < y
  {
  }

  /** The result screen's pass check. */
  predicate Passed(p: Percentage) {
    p.Percent? && p.value >= PassingPercentage
  }

  /** A session passes exactly when at least 71.5% of the fetched questions were
      answered correctly, the point where the rounded score reaches 72. */
  lemma PassedIffRatio(correct: nat, total: nat)
    requires correct <= total
    ensures Passed(Score(correct, total)) <==> total > 0 && 200 * correct >= 143 * total
  {
    if total > 0 {
      var p := Score(correct, total).value;
      var m := 2 * total;
      assert m * p <= 200 * correct + total < m * (p + 1);
      if p >= 72 {
        MulMonotone(m, p, 72);
      }
      if 200 * correct >= 143 * total {
        assert m * 72 < m * (p + 1);
        MulCancelLess(m, 72, p + 1);
      }
    }
  }

  lemma MulMonotone(a: int, x: int, y: int)
    requires a >= 0 && x >= y
    ensures a * x >= a * y
  {
  }

  /** With all ten questions fetched, eight correct answers pass and seven fail. */
  lemma FullExamPassMark(correct: nat)
    requires correct <= QuestionsCount
    ensures Passed(Score(correct, QuestionsCount)) <==> correct >= 8
  {
    PassedIffRatio(correct, QuestionsCount);
  }

  /** Two worked examples: answers {0: 1, 2: 3} to four questions whose correct
      ids are 1, 0, 3, 2 score 50; one correct answer of three fetched scores 33,
      the denominator being the questions fetched, not ten. */
  lemma ScoreExamples()
    ensures var qs := [QuizQuestion("q0", [0, 1, 2, 3], 1), QuizQuestion("q1", [0, 1, 2, 3], 0),
                       QuizQuestion("q2", [0, 1, 2, 3], 3), QuizQuestion("q3", [0, 1, 2, 3], 2)];
            CountCorrect(qs, map[0 := 1, 2 := 3], 4) == 2 && Score(2, 4) == Percent(50)
    ensures Score(1, 3) == Percent(33) && !Passed(Score(1, 3))
  {
    var qs := [QuizQuestion("q0", [0, 1, 2, 3], 1), QuizQuestion("q1", [0, 1, 2, 3], 0),
               QuizQuestion("q2", [0, 1, 2, 3], 3), QuizQuestion("q3", [0, 1, 2, 3], 2)];
    var ans := map[0 := 1, 2 := 3];
    assert AnsweredCorrectly(qs, ans, 0) && !AnsweredCorrectly(qs, ans, 1);
    assert AnsweredCorrectly(qs, ans, 2) && !AnsweredCorrectly(qs, ans, 3);
  }

  // ---------------------------------------------------------------------
  // Display helpers

  /** formatTime: minutes, a colon, and the seconds zero-padded to two digits. */
  function FormatTime(seconds: nat): (r: string)
    ensures |r| >= 4 && r[|r| - 3] == ':'
    ensures |r| > 4 ==> r[0] != '0'
    ensures Decimal.IsDigits(r[..|r| - 3]) && Decimal.IsDigits(r[|r| - 2..])
    ensures Decimal.DigitsValue(r[|r| - 2..]) < 60
    ensures Decimal.DigitsValue(r[..|r| - 3]) * 60 + Decimal.DigitsValue(r[|r| - 2..]) == seconds
  {
    var m := seconds / 60;
    var s := seconds % 60;
    var minutes := Decimal.NatToString(m);
    var secs := (if s < 10 then "0" else "") + Decimal.NatToString(s);
    assert Decimal.IsDigits(secs);
    assert |secs| == 2;
    assert Decimal.DigitsValue(secs) == s by {
      if s < 10 {
        assert secs[..1] == "0";
      }
    }
    var r := minutes + ":" + secs;
    assert r[0] == minutes[0];
    assert r[..|r| - 3] == minutes;
    assert r[|r| - 2..] == secs;
    r
  }

  /** A UTF-16 code unit, what String.fromCharCode produces. */
  type CodeUnit = u: int | 0 <= u < 0x1_0000

  /** String.fromCharCode: the code reduced modulo 2^16. */
  function FromCharCode(code: int): CodeUnit {
    code % 0x1_0000
  }

  /** The letter shown for an option id: 'A' for 0, 'B' for 1, and so on. */
  function OptionLetter(id: int): (u: CodeUnit)
    ensures 0 <= id < 26 ==> 'A' as int <= u <= 'Z' as int && u - 'A' as int == id
    ensures -65 <= id < 0x1_0000 - 65 ==> u == 'A' as int + id
  {
    FromCharCode(65 + id)
  }

  /** The letter the review shows for the answer given to question idx; a
      question left unanswered shows the code for id -1. */
  function ReviewAnswerLetter(answers: map<int, int>, idx: int): CodeUnit {
    OptionLetter(if idx in answers then answers[idx] else -1)
  }

  /** Distinct non-negative option ids below 65471 (where 65 + id is still a
      code unit) get distinct letters, and an unanswered question shows '@',
      which is the letter of no such id. */
  lemma OptionLettersDistinct(a: int, b: int, answers: map<int, int>, idx: int)
    requires 0 <= a < 0x1_0000 - 65 && 0 <= b < 0x1_0000 - 65 && a != b
    ensures OptionLetter(a) != OptionLetter(b)
    ensures idx !in answers ==> ReviewAnswerLetter(answers, idx) == '@' as int
    ensures idx !in answers ==> ReviewAnswerLetter(answers, idx) != OptionLetter(a)
  {
  }

  // ---------------------------------------------------------------------
  // The session object

  class Session {
    var questions: seq<QuizQuestion>
    var answers: map<int, int>
    var currentIndex: int
    var loading: bool
    var finished: bool
    var timeLeft: int
    var fetchedCount: int
    var languageMode: LanguageMode

    function State(): SessionState
      reads this
    {
      SessionState(questions, answers, currentIndex, loading, finished, timeLeft, fetchedCount, languageMode)
    }

    ghost predicate Valid()
      reads this
    {
      Inv(State())
    }

    /** A new session: no questions, no answers, index 0, twenty minutes left. */
    constructor ()
      ensures Valid() && State() == Initial()
      ensures questions == [] && answers == map[] && currentIndex == 0
      ensures !finished && timeLeft == 1200
    {
      questions := [];
      answers := map[];
      currentIndex := 0;
      loading := true;
      finished := false;
      timeLeft := InitialTime;
      fetchedCount := 0;
      languageMode := All;
    }

    method FetchNextQuestion(outcome: FetchOutcome)
      requires Valid()
      modifies this
      ensures Valid() && State() == FetchNext(old(State()), outcome)
      ensures old(fetchedCount) >= QuestionsCount ==> State() == old(State())
    {
      if fetchedCount >= QuestionsCount {
        return;
      }
      loading := true;
      match outcome {
        case Fetched(q) =>
          questions := questions + [q];
          fetchedCount := fetchedCount + 1;
        case FetchFailed =>
      }
      loading := false;
    }

    /** The interval's callback. */
    method TimerTick()
      requires Valid()
      modifies this
      ensures Valid() && State() == Tick(old(State()))
      ensures 0 <= timeLeft < old(timeLeft) || timeLeft == old(timeLeft) == 0
    {
      if timeLeft <= 1 {
        FinishExam();
        timeLeft := 0;
      } else {
        timeLeft := timeLeft - 1;
      }
    }

    method HandleOptionSelect(optionId: int)
      requires Valid()
      modifies this
      ensures Valid() && State() == SelectOption(old(State()), optionId)
    {
      if finished {
        return;
      }
      answers := answers[currentIndex := optionId];
    }

    method HandleNext(outcome: FetchOutcome)
      requires Valid()
      modifies this
      ensures Valid() && State() == Next(old(State()), outcome)
    {
      if currentIndex < QuestionsCount - 1 {
        var nextIdx := currentIndex + 1;
        if !(0 <= nextIdx < |questions|) {
          FetchNextQuestion(outcome);
        }
        currentIndex := nextIdx;
      }
    }

    method HandlePrev()
      requires Valid()
      modifies this
      ensures Valid() && State() == Prev(old(State()))
    {
      if currentIndex > 0 {
        currentIndex := currentIndex - 1;
      }
    }

    method FinishExam()
      requires Valid()
      modifies this
      ensures Valid() && State() == Finish(old(State()))
    {
      finished := true;
    }

    method SetLanguageMode(mode: LanguageMode)
      requires Valid()
      modifies this
      ensures Valid() && State() == SetLanguage(old(State()), mode)
    {
      languageMode := mode;
    }

    /** calculateScore: count the questions answered correctly, in order, then
        round the percentage. */
    method CalculateScore() returns (score: Percentage)
      ensures score == Score(CountCorrect(questions, answers, |questions|), |questions|)
    {
      var correct := 0;
      var idx := 0;
      while idx < |questions|
        invariant 0 <= idx <= |questions|
        invariant correct == CountCorrect(questions, answers, idx)
      {
        if idx in answers && answers[idx] == questions[idx].correctId {
          correct := correct + 1;
        }
        idx := idx + 1;
      }
      score := Score(correct, |questions|);
    }
  }
}

/** The single-question practice round of components/QuizView.tsx: load a
    question, pick one option, check it, see the result, load the next one. A
    streak counts consecutive correct checks. Loading is split into its start
    (the state is cleared) and its completion (the provider's outcome). */
module QuizView {
  import opened Types

  datatype QuizState = QuizState(
    question: Option<QuizQuestion>,
    loading: bool,
    selectedOption: Option<int>,
    showResult: bool,
    languageMode: LanguageMode,
    streak: nat)

  function Initial(): QuizState {
    QuizState(None, true, None, false, All, 0)
  }

  /** What the component renders: the spinner, the error with its Retry
      button, the question awaiting a check, or the question with its result. */
  datatype Phase = Loading | Failed | Ready | Revealed

  function PhaseOf(s: QuizState): Phase {
    if s.loading then Loading
    else if s.question.None? then Failed
    else if s.showResult then Revealed
    else Ready
  }

  /** What holds in every state the rendered controls can lead to. */
  ghost predicate Inv(s: QuizState) {
    && (s.loading ==> s.question.None?)
    && (s.question.None? ==> s.selectedOption.None? && !s.showResult)
    && (s.showResult ==> s.selectedOption.Some?)
    && (s.selectedOption.Some? ==> s.question.Some? && s.selectedOption.value in s.question.value.optionIds)
  }

  // ---------------------------------------------------------------------
  // Transitions

  /** The start of loadNewQuestion: result hidden, selection, question cleared,
      spinner on; the streak is kept. */
  function StartLoading(s: QuizState): QuizState {
    s.(loading := true, showResult := false, selectedOption := None, question := None)
  }

  /** The end of loadNewQuestion: the question is stored if it arrived, and the
      spinner goes off either way. */
  function LoadSettled(s: QuizState, outcome: FetchOutcome): QuizState {
    match outcome
    case Fetched(q) => s.(question := Some(q), loading := false)
    case FetchFailed => s.(loading := false)
  }

  /** handleOptionSelect */
  function SelectOption(s: QuizState, id: int): QuizState {
    if s.showResult then s else s.(selectedOption := Some(id))
  }

  /** checkAnswer */
  function AnswerChecked(s: QuizState): QuizState {
    if s.selectedOption.None? then s
    else
      var correct := s.question.Some? && s.selectedOption.value == s.question.value.correctId;
      s.(showResult := true, streak := if correct then s.streak + 1 else 0)
  }

  function SetLanguage(s: QuizState, mode: LanguageMode): QuizState {
    s.(languageMode := mode)
  }

  /** The user's and the provider's actions. Load is the Retry button of the
      error state and the Next Question button of the result. */
  datatype Event =
    | Load
    | Settle(outcome: FetchOutcome)
    | Choose(id: int)
    | Check
    | ChangeLanguage(mode: LanguageMode)

  function Step(s: QuizState, e: Event): QuizState {
    match e
    case Load => StartLoading(s)
    case Settle(o) => LoadSettled(s, o)
    case Choose(id) => SelectOption(s, id)
    case Check => AnswerChecked(s)
    case ChangeLanguage(m) => SetLanguage(s, m)
  }

  /** Which actions the rendered component offers in a state: Retry only on
      the error panel, the options only with a question (disabled once the
      result shows), Check Answer only before the result and only with a
      selection, Next Question and the language toggle only beside a question. */
  predicate Enabled(s: QuizState, e: Event) {
    match e
    case Load => PhaseOf(s) == Failed || PhaseOf(s) == Revealed
    case Settle(_) => PhaseOf(s) == Loading
    case Choose(id) => PhaseOf(s) == Ready && id in s.question.value.optionIds
    case Check => PhaseOf(s) == Ready && s.selectedOption.Some?
    case ChangeLanguage(_) => PhaseOf(s) == Ready || PhaseOf(s) == Revealed
  }

  function Run(s: QuizState, events: seq<Event>): QuizState
    decreases |events|
  {
    if events == [] then s else Run(Step(s, events[0]), events[1..])
  }

  predicate EnabledRun(s: QuizState, events: seq<Event>)
    decreases |events|
  {
    events == [] || (Enabled(s, events[0]) && EnabledRun(Step(s, events[0]), events[1..]))
  }

  // ---------------------------------------------------------------------
  // Properties

  lemma InitialIsValid()
    ensures Inv(Initial()) && PhaseOf(Initial()) == Loading && Initial().streak == 0
  {
  }

  lemma EnabledStepPreservesInv(s: QuizState, e: Event)
    requires Inv(s) && Enabled(s, e)
    ensures Inv(Step(s, e))
  {
  }

  lemma {:induction false} RunPreservesInv(s: QuizState, events: seq<Event>)
    requires Inv(s) && EnabledRun(s, events)
    ensures Inv(Run(s, events))
    decreases |events|
  {
    if events != [] {
      EnabledStepPreservesInv(s, events[0]);
      RunPreservesInv(Step(s, events[0]), events[1..]);
    }
  }

  /** Loading forgets the question, the selection and the result, keeps the
      streak and the language, and settles into the question view on success
      and into the error state on failure. */
  lemma LoadCycle(s: QuizState, q: QuizQuestion)
    ensures PhaseOf(StartLoading(s)) == Loading
    ensures StartLoading(s).streak == s.streak && StartLoading(s).languageMode == s.languageMode
    ensures LoadSettled(StartLoading(s), Fetched(q)) ==
      QuizState(Some(q), false, None, false, s.languageMode, s.streak)
    ensures PhaseOf(LoadSettled(StartLoading(s), Fetched(q))) == Ready
    ensures PhaseOf(LoadSettled(StartLoading(s), FetchFailed)) == Failed
  {
  }

  /** The error state offers exactly one action, Retry, and it loads again. */
  lemma FailedOffersOnlyRetry(s: QuizState, e: Event)
    requires PhaseOf(s) == Failed
    ensures Enabled(s, e) <==> e == Load
    ensures Enabled(s, e) ==> PhaseOf(Step(s, e)) == Loading
  {
  }

  /** Once the result shows, selecting does nothing; before, it replaces the
      selection, and selecting the same option twice is selecting it once. */
  lemma SelectionIsSingle(s: QuizState, a: int, b: int)
    ensures s.showResult ==> SelectOption(s, a) == s
    ensures !s.showResult ==> SelectOption(SelectOption(s, a), b) == SelectOption(s, b)
    ensures SelectOption(SelectOption(s, a), a) == SelectOption(s, a)
  {
  }

  /** Checking with a selection reveals the result and extends the streak by
      one on the correct option, and resets it to 0 on any other; without a
      selection it does nothing. */
  lemma CheckUpdatesStreak(s: QuizState)
    requires Inv(s)
    ensures s.selectedOption.None? ==> AnswerChecked(s) == s
    ensures s.selectedOption.Some? ==> PhaseOf(AnswerChecked(s)) == Revealed
    ensures s.selectedOption.Some? ==>
      (AnswerChecked(s).streak == s.streak + 1 <==> s.selectedOption.value == s.question.value.correctId)
    ensures s.selectedOption.Some? && s.selectedOption.value != s.question.value.correctId ==>
      AnswerChecked(s).streak == 0
  {
  }

  /** Streak 3 and a correct check make 4; streak 4 and a wrong check make 0. */
  lemma StreakExamples()
    ensures var q := QuizQuestion("q", [0, 1, 2, 3], 2);
      && AnswerChecked(QuizState(Some(q), false, Some(2), false, All, 3)).streak == 4
      && AnswerChecked(QuizState(Some(q), false, Some(1), false, All, 4)).streak == 0
  {
  }

  /** The number of Check Answer clicks in a sequence of actions. */
  function Checks(events: seq<Event>): nat {
    if events == [] then 0 else (if events[0] == Check then 1 else 0) + Checks(events[1..])
  }

  /** Between two loads the streak is updated at most once, and not at all
      once the result is shown: without a Check the streak is unchanged. */
  lemma {:induction false} AtMostOneCheckPerQuestion(s: QuizState, events: seq<Event>)
    requires EnabledRun(s, events)
    requires forall i :: 0 <= i < |events| ==> events[i] != Load
    ensures Checks(events) <= if s.showResult then 0 else 1
    ensures Checks(events) == 0 ==> Run(s, events).streak == s.streak
    decreases |events|
  {
    if events != [] {
      var t := Step(s, events[0]);
      assert s.showResult ==> t.showResult;
      assert events[0] == Check ==> t.showResult;
      assert forall i :: 0 <= i < |events[1..]| ==> events[1..][i] == events[i + 1];
      AtMostOneCheckPerQuestion(t, events[1..]);
    }
  }

  /** The language mode is independent of the round: changing it alters no
      other field, and it commutes with every other action. */
  lemma LanguageIsOrthogonal(s: QuizState, m: LanguageMode, e: Event)
    requires !e.ChangeLanguage?
    ensures SetLanguage(s, m).(languageMode := s.languageMode) == s
    ensures Step(SetLanguage(s, m), e) == SetLanguage(Step(s, e), m)
    ensures Enabled(SetLanguage(s, m), e) <==> Enabled(s, e)
  {
  }

  // ---------------------------------------------------------------------
  // The component's state

  class Quiz {
    var question: Option<QuizQuestion>
    var loading: bool
    var selectedOption: Option<int>
    var showResult: bool
    var languageMode: LanguageMode
    var streak: nat

    function State(): QuizState
      reads this
    {
      QuizState(question, loading, selectedOption, showResult, languageMode, streak)
    }

    ghost predicate Valid()
      reads this
    {
      Inv(State())
    }

    constructor ()
      ensures Valid() && State() == Initial()
    {
      question := None;
      loading := true;
      selectedOption := None;
      showResult := false;
      languageMode := All;
      streak := 0;
    }

    /** The synchronous part of loadNewQuestion, also run by Retry and by
        Next Question. */
    method LoadNewQuestion()
      modifies this
      ensures State() == StartLoading(old(State()))
      ensures old(Valid()) ==> Valid()
    {
      loading := true;
      showResult := false;
      selectedOption := None;
      question := None;
    }

    /** The part of loadNewQuestion after the provider settles. */
    method CompleteLoad(outcome: FetchOutcome)
      modifies this
      ensures State() == LoadSettled(old(State()), outcome)
      ensures old(Valid()) && Enabled(old(State()), Settle(outcome)) ==> Valid()
    {
      match outcome {
        case Fetched(q) => question := Some(q);
        case FetchFailed =>
      }
      loading := false;
    }

    method HandleOptionSelect(id: int)
      modifies this
      ensures State() == SelectOption(old(State()), id)
      ensures old(Valid()) && Enabled(old(State()), Choose(id)) ==> Valid()
    {
      if showResult {
        return;
      }
      selectedOption := Some(id);
    }

    method CheckAnswer()
      modifies this
      ensures State() == AnswerChecked(old(State()))
      ensures old(Valid()) ==> Valid()
    {
      if selectedOption.None? {
        return;
      }
      showResult := true;
      if question.Some? && selectedOption.value == question.value.correctId {
        streak := streak + 1;
      } else {
        streak := 0;
      }
    }

    method SetLanguageMode(mode: LanguageMode)
      modifies this
      ensures State() == SetLanguage(old(State()), mode)
      ensures old(Valid()) ==> Valid()
    {
      languageMode := mode;
    }
  }
}

# CloudMaster Trilingual: the three UI state machines

This project models the three small controllers of a study-companion web
application for AWS certification exams, and proves their invariants:

- **the mock-exam session** (`components/SimulationView.tsx`): a ten-question
  exam whose questions are fetched one at a time as the candidate moves
  forward, with one recorded answer per question index, a twenty-minute
  countdown, a one-way finished flag, and a rounded percentage score with a
  pass mark of 72;
- **the practice quiz round** (`components/QuizView.tsx`): load one question,
  select an option, check it, see the result, load the next, with a streak of
  consecutive correct checks and an error state that offers Retry;
- **the navigation controller** (`App.tsx`): five screens (home, syllabus,
  study, quiz, mock exam), an optional selected exam and an optional selected
  domain, five handlers, and render guards that mount a screen only when the
  selections it needs are there.

Each controller is a class whose fields are the component's state variables
and whose methods are its handlers. Every method is proved against a pure
transition function on a state datatype (`State() == Tick(old(State()))`),
and the properties are proved about those functions: invariants kept by every
step and by every sequence of steps (`Run`), frame conditions, idempotence,
and worked examples. The content provider is not modelled: a fetch is a method
call that receives its outcome, `Fetched(question)` or `FetchFailed`; a timer
tick is a method call too.

Files: `types.dfy` (shared data shapes from `types.ts`), `decimal.dfy`
(decimal rendering of a non-negative integer and its inverse),
`simulation.dfy`, `quiz.dfy`, `app.dfy`.

Behaviour of the code that the model keeps as written:

- Next moves to the next index even when the fetch it waited for failed. The
  shown index then has no question, and later Next presses keep it past the
  end of the question list (`FailedFetchPassesTheEnd`).
- With no question fetched, the score is JavaScript's `0/0`, NaN, and the
  session fails (`Score`, `Percentage.NaN`).
- The countdown keeps ticking after a manual submit, and finishes the exam a
  second time at zero, which changes nothing (`FinishIsIdempotent`).
- The review screen shows `fromCharCode(65 + -1)`, the character `@`, for an
  unanswered question (`OptionLettersDistinct`).

## Model

| member | source | states |
|---|---|---|
| `SimulationView.InitialIsValid` | components/SimulationView.tsx:11-23 | a new session has no questions and no answers, shows index 0, is not finished, has 1200 seconds left, and satisfies the session invariant |
| `SimulationView.Session.constructor` | components/SimulationView.tsx:14-23 | the constructed session is the initial state and is valid |
| `SimulationView.StepPreservesInv` | components/SimulationView.tsx:26-84 | every handler, tick and fetch keeps `questions` equal in length to the fetch count and at most 10, the index within 0..9, the clock within 0..1200 (zero only when finished) and the answered indices within 0..9 |
| `SimulationView.RunPreservesInv` | components/SimulationView.tsx:26-84 | any sequence of events keeps that invariant |
| `SimulationView.ReachableStatesAreValid` | components/SimulationView.tsx:11-84 | every state reached from the initial one satisfies the invariant |
| `SimulationView.RunOnlyAppends` | components/SimulationView.tsx:26-39 | fetched questions are only appended: the earlier list is a prefix of every later one |
| `SimulationView.RunKeepsFinished` | components/SimulationView.tsx:82-84 | the finished flag is never reset by any sequence of events |
| `SimulationView.RunFreezesAnswers` | components/SimulationView.tsx:61-64 | once finished, no sequence of events changes the recorded answers |
| `SimulationView.TicksCountDown` | components/SimulationView.tsx:46-55 | k ticks with more than k seconds left lower the clock by exactly k and change nothing else |
| `SimulationView.TimerExpires` | components/SimulationView.tsx:46-55 | as many ticks as seconds left set the clock to 0 and finish the exam, changing nothing else |
| `SimulationView.ExamEndsAfterTwentyMinutes` | components/SimulationView.tsx:21-55 | 1200 ticks from the start leave the session finished with 0 seconds left |
| `SimulationView.TickNeverNegative` | components/SimulationView.tsx:47-54 | a tick never drives the clock below zero nor raises it, and reaches zero exactly from one second or less |
| `SimulationView.FinishIsIdempotent` | components/SimulationView.tsx:82-84 | finishing twice is finishing once; a manual submit commutes with a tick; a submit after the expiring tick changes nothing |
| `SimulationView.SelectRecordsAnswer` | components/SimulationView.tsx:61-64 | selecting when finished changes nothing; otherwise the option is recorded under the shown index, every other index keeps its answer or its absence, and a later selection overwrites an earlier one |
| `SimulationView.NextMovesOneForward` | components/SimulationView.tsx:66-74 | Next moves exactly one index forward below index 9 and stays at 9; when the next question is already fetched it neither fetches nor depends on the provider |
| `SimulationView.PrevUndoesNext` | components/SimulationView.tsx:76-80 | Previous never fetches, moves one index back above 0 and stays at 0, and restores the index that a Next below index 9 moved from (a question that Next fetched stays fetched) |
| `SimulationView.FailedFetchPassesTheEnd` | components/SimulationView.tsx:66-74 | a failed fetch on Next still moves to an index with no question, and from past the end Next stays past the end |
| `SimulationView.CountCorrect` | components/SimulationView.tsx:86-90 | the count of questions whose recorded answer equals the correct id is at most the number counted, equals it exactly when every one is answered correctly, and is 0 exactly when none is |
| `SimulationView.Score` | components/SimulationView.tsx:91 | the score is NaN exactly when no question was fetched; otherwise it lies in 0..100 and is the percentage rounded half up: 2n·p ≤ 200c + n < 2n·(p+1) |
| `SimulationView.PassedIffRatio` | components/SimulationView.tsx:121-122 | the session passes exactly when at least one question was fetched and 200·correct ≥ 143·fetched, the point where the rounded score reaches 72 |
| `SimulationView.FullExamPassMark` | components/SimulationView.tsx:11-12 | with ten questions fetched, eight correct answers pass and seven fail |
| `SimulationView.ScoreExamples` | components/SimulationView.tsx:86-92 | answers {0: 1, 2: 3} to correct ids 1, 0, 3, 2 count 2 and score 50; one correct of three fetched scores 33 and fails |
| `SimulationView.FormatTime` | components/SimulationView.tsx:94-98 | the text is digits, a colon and exactly two digits; the minutes have no leading zero, the seconds part is below 60, and minutes·60 + seconds gives back the input |
| `Decimal.NatToString` | components/SimulationView.tsx:97 | the decimal text of n is a digit string whose value is n, one digit exactly when n < 10, with no leading zero otherwise |
| `SimulationView.OptionLetter` | components/SimulationView.tsx:253 | option ids 0..25 show the letters A..Z, id k showing 'A' + k; for ids -65..65470 the shown code is 65 + id |
| `SimulationView.OptionLettersDistinct` | components/SimulationView.tsx:160-171 | distinct option ids in 0..65470 get distinct letters, and an unanswered question shows '@', which is no letter of an id in 0..65470 |
| `SimulationView.Session.FetchNextQuestion` | components/SimulationView.tsx:26-39 | nothing changes once ten questions were fetched; otherwise a fetched question is appended and counted, a failure leaves the list alone, loading ends; the invariant is kept |
| `SimulationView.Session.TimerTick` | components/SimulationView.tsx:46-55 | the new state is one tick of the old; the clock strictly drops or stays at 0 |
| `SimulationView.Session.HandleOptionSelect` | components/SimulationView.tsx:61-64 | the new state is the selection applied to the old; the invariant is kept |
| `SimulationView.Session.HandleNext` | components/SimulationView.tsx:66-74 | the new state is Next applied to the old, fetching only when the next question is missing; the invariant is kept |
| `SimulationView.Session.HandlePrev` | components/SimulationView.tsx:76-80 | the new state is Previous applied to the old; the invariant is kept |
| `SimulationView.Session.FinishExam` | components/SimulationView.tsx:82-84 | only the finished flag changes, to true |
| `SimulationView.Session.SetLanguageMode` | components/SimulationView.tsx:108-111 | only the language mode changes |
| `SimulationView.Session.CalculateScore` | components/SimulationView.tsx:86-92 | the loop's count is the number of correctly answered fetched questions, and the result is their rounded percentage (NaN with none fetched) |
| `QuizView.InitialIsValid` | components/QuizView.tsx:13-18 | a new round is loading, has streak 0 and satisfies the round invariant |
| `QuizView.Quiz.constructor` | components/QuizView.tsx:13-18 | the constructed round is the initial state and is valid |
| `QuizView.EnabledStepPreservesInv` | components/QuizView.tsx:20-53 | every offered action keeps the invariant: loading has no question, no question means no selection and no result, a result needs a selection, a selection is one of the question's option ids |
| `QuizView.RunPreservesInv` | components/QuizView.tsx:78-192 | any sequence of actions the rendered screen offers keeps that invariant |
| `QuizView.LoadCycle` | components/QuizView.tsx:20-33 | starting a load clears question, selection and result and keeps streak and language; success shows the question with no selection, failure the error state |
| `QuizView.FailedOffersOnlyRetry` | components/QuizView.tsx:87 | in the error state Retry is the only action offered, and it loads again |
| `QuizView.SelectionIsSingle` | components/QuizView.tsx:40-43 | selecting is ignored once the result shows, otherwise replaces the selection; selecting the same option twice equals selecting it once |
| `QuizView.CheckUpdatesStreak` | components/QuizView.tsx:45-53 | without a selection checking does nothing; with one it reveals the result, and the streak grows by one exactly when the selection is the correct id and is 0 otherwise |
| `QuizView.StreakExamples` | components/QuizView.tsx:45-53 | streak 3 with a correct check becomes 4; streak 4 with a wrong check becomes 0 |
| `QuizView.AtMostOneCheckPerQuestion` | components/QuizView.tsx:164-192 | between two loads at most one Check Answer happens, none once the result shows, and without one the streak is unchanged |
| `QuizView.LanguageIsOrthogonal` | components/QuizView.tsx:55-76 | changing the language alters no other field, commutes with every other action and changes no action's availability |
| `QuizView.Quiz.LoadNewQuestion` | components/QuizView.tsx:20-24 | the new state is the cleared loading state; the invariant is kept |
| `QuizView.Quiz.CompleteLoad` | components/QuizView.tsx:25-32 | the question is stored on success, loading ends either way; the invariant is kept when the load was pending |
| `QuizView.Quiz.HandleOptionSelect` | components/QuizView.tsx:40-43 | the new state is the selection applied to the old; the invariant is kept when the option is offered |
| `QuizView.Quiz.CheckAnswer` | components/QuizView.tsx:45-53 | the new state is the check applied to the old; the invariant is kept |
| `QuizView.Quiz.SetLanguageMode` | components/QuizView.tsx:55-76 | only the language mode changes |
| `App.InitialIsValid` | App.tsx:10-12 | navigation starts at home with no exam and no domain |
| `App.InvImpliesRenders` | App.tsx:69-103 | whenever the invariant holds, the current view's render guard is met |
| `App.EnabledStepPreservesInv` | App.tsx:14-37 | every exposed callback keeps the invariant: study and quiz have an exam and a domain, syllabus and mock exam an exam and no domain, home neither |
| `App.RunPreservesInv` | App.tsx:64-103 | any sequence of exposed callbacks keeps that invariant |
| `App.ReachableStatesRender` | App.tsx:69-103 | every state reached from the start through exposed callbacks mounts its screen |
| `App.HandlerFrames` | App.tsx:14-37 | selecting an exam sets it and the syllabus and keeps the domain; selecting a domain sets it and study or quiz by mode and keeps the exam; starting the mock exam changes only the view; back to syllabus clears the domain and keeps the exam; home clears both |
| `App.ExamDomainBackBackReturnsHome` | App.tsx:14-37 | from home, exam, domain, back and back are all offered and return home with both selections cleared |
| `App.Navigator.constructor` | App.tsx:10-12 | the constructed controller is at home with nothing selected |
| `App.Navigator.HandleExamSelect` | App.tsx:14-17 | the exam is set and the view is the syllabus, the domain unchanged; the invariant is kept when called from home |
| `App.Navigator.HandleDomainSelect` | App.tsx:19-22 | the domain is set and the view is study or quiz by mode, the exam unchanged; the invariant is kept when called from the syllabus |
| `App.Navigator.HandleStartSimulation` | App.tsx:24-26 | only the view changes, to the mock exam; the invariant is kept when called from the syllabus |
| `App.Navigator.HandleBackToSyllabus` | App.tsx:28-31 | the view is the syllabus, the domain is cleared, the exam kept; the invariant is kept when called from study, quiz or mock exam |
| `App.Navigator.HandleBackToHome` | App.tsx:33-37 | from any state, home with both selections cleared, which satisfies the invariant |

## Left out

- The content provider (`services/geminiService.ts`): prompts, the network call and the response schemas. Each fetch is a method argument, `Fetched(question)` or `FetchFailed`.
- Overlapping fetches: `fetchNextQuestion` checks the fetch count before it awaits, so two fetches in flight at once could both pass the check. The model runs each fetch as one atomic call, so it cannot show that interleaving. It also cannot show a tick arriving while a fetch is pending.
- SimulationView.Session.HandleNext: runs as one atomic call, so user actions while its fetch is pending are not modelled. In the code the Previous button stays clickable during that wait. A Previous click then is lost, because the later `setCurrentIndex(nextIdx)` overrides it and the index ends one past where it started. `PrevUndoesNext` holds only for the orderings the atomic model allows.
- The session's `loading` flag is true only while a fetch is pending. Because each fetch is atomic, the model has it true only before the first fetch.
- Timer scheduling: `setInterval`, `clearInterval` and teardown on unmount. Ticks are discrete calls. Nothing stops ticks after expiry, which is harmless because a tick at 0 changes nothing more.
- Floating point: the score is `Math.round` over exact rationals (`(200c + n) / (2n)`), not over IEEE doubles. The progress-bar width is left out.
- FormatTime: covers only non-negative whole seconds, the only values the clock takes (`TickNeverNegative`, `Inv`).
- Multilingual texts, the language toggles' rendering, JSX and CSS. A question keeps only its id, option ids and correct id. An exam keeps its code and name. A domain keeps its id and title.
- The session's loading spinner (`loading && !questions[currentIndex]`) and which session buttons are shown. The session invariant holds for every event, offered or not.
- `components/SyllabusView.tsx`, `components/StudyView.tsx`, `components/RubyText.tsx`, `components/ExamSelector.tsx` and `constants.ts` are not part of this model. They only fetch and render, or hold the static exam catalogue.
- QuizView's reload when the exam or the domain changes while the quiz is mounted: the navigation offers no way to change either without leaving the quiz.
- Which back buttons the child screens show when. The mock exam shows its Back button only on the results screen. The quiz shows Exit Quiz only beside a question. The navigation model offers Back whenever the study, quiz or mock-exam screen is mounted. That is a superset of what the screens offer, so the invariant proofs cover every real click.

/** The top-level navigation of App.tsx: five screens, the exam picked on the
    home screen and the domain picked on the syllabus. Each handler reassigns
    the three state variables; the render guards show a screen only when the
    selections it needs are present, and the handlers the screens expose keep
    those guards satisfied. */
module App {
  import opened Types

  datatype View = Home | Syllabus | Study | Quiz | Simulation

  /** The button pressed on a syllabus domain. */
  datatype DomainMode = StudyMode | QuizMode

  datatype NavState = NavState(view: View, exam: Option<Exam>, domain: Option<Domain>)

  function Initial(): NavState {
    NavState(Home, None, None)
  }

  /** Which selections each screen is shown with. */
  ghost predicate Inv(s: NavState) {
    match s.view
    case Home => s.exam.None? && s.domain.None?
    case Syllabus => s.exam.Some? && s.domain.None?
    case Simulation => s.exam.Some? && s.domain.None?
    case Study => s.exam.Some? && s.domain.Some?
    case Quiz => s.exam.Some? && s.domain.Some?
  }

  /** The render guards: the screen of the current view is mounted only when
      the selections it takes as props are there. */
  predicate Renders(s: NavState) {
    match s.view
    case Home => true
    case Syllabus => s.exam.Some?
    case Simulation => s.exam.Some?
    case Study => s.exam.Some? && s.domain.Some?
    case Quiz => s.exam.Some? && s.domain.Some?
  }

  // ---------------------------------------------------------------------
  // Handlers

  function ExamSelected(s: NavState, e: Exam): NavState {
    s.(exam := Some(e), view := Syllabus)
  }

  function DomainSelected(s: NavState, d: Domain, mode: DomainMode): NavState {
    s.(domain := Some(d), view := if mode == StudyMode then Study else Quiz)
  }

  function SimulationStarted(s: NavState): NavState {
    s.(view := Simulation)
  }

  function BackToSyllabus(s: NavState): NavState {
    s.(view := Syllabus, domain := None)
  }

  function BackToHome(s: NavState): NavState {
    NavState(Home, None, None)
  }

  datatype Event =
    | SelectExam(exam: Exam)
    | SelectDomain(domain: Domain, mode: DomainMode)
    | StartSimulation
    | Back
    | GoHome

  function Step(s: NavState, e: Event): NavState {
    match e
    case SelectExam(x) => ExamSelected(s, x)
    case SelectDomain(d, m) => DomainSelected(s, d, m)
    case StartSimulation => SimulationStarted(s)
    case Back => BackToSyllabus(s)
    case GoHome => BackToHome(s)
  }

  /** Which callbacks the mounted screens expose: exam selection on the home
      screen; domain selection and the mock exam on the syllabus; the back
      button to the syllabus on the study, quiz and mock-exam screens; and
      home from the header everywhere (and from the syllabus's back button). */
  predicate Enabled(s: NavState, e: Event) {
    match e
    case SelectExam(_) => s.view == Home
    case SelectDomain(_, _) => s.view == Syllabus && Renders(s)
    case StartSimulation => s.view == Syllabus && Renders(s)
    case Back => (s.view == Study || s.view == Quiz || s.view == Simulation) && Renders(s)
    case GoHome => true
  }

  function Run(s: NavState, events: seq<Event>): NavState
    decreases |events|
  {
    if events == [] then s else Run(Step(s, events[0]), events[1..])
  }

  predicate EnabledRun(s: NavState, events: seq<Event>)
    decreases |events|
  {
    events == [] || (Enabled(s, events[0]) && EnabledRun(Step(s, events[0]), events[1..]))
  }

  // ---------------------------------------------------------------------
  // Properties

  lemma InitialIsValid()
    ensures Inv(Initial()) && Initial().view == Home
    ensures Initial().exam.None? && Initial().domain.None?
  {
  }

  /** Every state satisfying the invariant passes its render guard. */
  lemma InvImpliesRenders(s: NavState)
    requires Inv(s)
    ensures Renders(s)
  {
  }

  lemma EnabledStepPreservesInv(s: NavState, e: Event)
    requires Inv(s) && Enabled(s, e)
    ensures Inv(Step(s, e))
  {
  }

  /** Under the callbacks the screens expose, the invariant holds forever. */
  lemma {:induction false} RunPreservesInv(s: NavState, events: seq<Event>)
    requires Inv(s) && EnabledRun(s, events)
    ensures Inv(Run(s, events))
    decreases |events|
  {
    if events != [] {
      EnabledStepPreservesInv(s, events[0]);
      RunPreservesInv(Step(s, events[0]), events[1..]);
    }
  }

  /** So every reachable state mounts its screen: the study and quiz screens
      always get an exam and a domain, the syllabus and mock exam an exam. */
  lemma ReachableStatesRender(events: seq<Event>)
    requires EnabledRun(Initial(), events)
    ensures Inv(Run(Initial(), events)) && Renders(Run(Initial(), events))
  {
    InitialIsValid();
    RunPreservesInv(Initial(), events);
    InvImpliesRenders(Run(Initial(), events));
  }

  /** What each handler changes and what it keeps. */
  lemma HandlerFrames(s: NavState, e: Exam, d: Domain, m: DomainMode)
    ensures ExamSelected(s, e).view == Syllabus && ExamSelected(s, e).exam == Some(e)
    ensures ExamSelected(s, e).domain == s.domain
    ensures DomainSelected(s, d, m).exam == s.exam && DomainSelected(s, d, m).domain == Some(d)
    ensures DomainSelected(s, d, m).view == (if m == StudyMode then Study else Quiz)
    ensures SimulationStarted(s) == s.(view := Simulation)
    ensures BackToSyllabus(s).exam == s.exam && BackToSyllabus(s).domain.None?
    ensures BackToHome(s) == Initial()
  {
  }

  /** Picking an exam, then a domain, then going back to the syllabus and back
      again returns home with both selections cleared, every step offered by
      the screen it is taken on. */
  lemma ExamDomainBackBackReturnsHome(s: NavState, e: Exam, d: Domain, m: DomainMode)
    requires Inv(s) && s.view == Home
    ensures EnabledRun(s, [SelectExam(e), SelectDomain(d, m), Back, GoHome])
    ensures Run(s, [SelectExam(e), SelectDomain(d, m), Back, GoHome]) == Initial()
  {
    var s1 := ExamSelected(s, e);
    var s2 := DomainSelected(s1, d, m);
    var s3 := BackToSyllabus(s2);
    var es := [SelectExam(e), SelectDomain(d, m), Back, GoHome];
    assert es[1..] == [SelectDomain(d, m), Back, GoHome];
    assert es[1..][1..] == [Back, GoHome];
    assert es[1..][1..][1..] == [GoHome];
    assert EnabledRun(s3, [GoHome]) && Run(s3, [GoHome]) == Initial();
    assert Run(s2, es[1..][1..]) == Run(s3, [GoHome]);
    assert Run(s1, es[1..]) == Run(s2, es[1..][1..]);
    assert Run(s, es) == Run(s1, es[1..]);
  }

  // ---------------------------------------------------------------------
  // The component's state

  class Navigator {
    var viewState: View
    var selectedExam: Option<Exam>
    var selectedDomain: Option<Domain>

    function State(): NavState
      reads this
    {
      NavState(viewState, selectedExam, selectedDomain)
    }

    ghost predicate Valid()
      reads this
    {
      Inv(State())
    }

    constructor ()
      ensures Valid() && State() == Initial()
    {
      viewState := Home;
      selectedExam := None;
      selectedDomain := None;
    }

    method HandleExamSelect(exam: Exam)
      modifies this
      ensures State() == ExamSelected(old(State()), exam)
      ensures selectedDomain == old(selectedDomain)
      ensures old(Valid()) && Enabled(old(State()), SelectExam(exam)) ==> Valid()
    {
      selectedExam := Some(exam);
      viewState := Syllabus;
    }

    method HandleDomainSelect(domain: Domain, mode: DomainMode)
      modifies this
      ensures State() == DomainSelected(old(State()), domain, mode)
      ensures selectedExam == old(selectedExam)
      ensures old(Valid()) && Enabled(old(State()), SelectDomain(domain, mode)) ==> Valid()
    {
      selectedDomain := Some(domain);
      viewState := if mode == StudyMode then Study else Quiz;
    }

    method HandleStartSimulation()
      modifies this
      ensures State() == SimulationStarted(old(State()))
      ensures selectedExam == old(selectedExam) && selectedDomain == old(selectedDomain)
      ensures old(Valid()) && Enabled(old(State()), StartSimulation) ==> Valid()
    {
      viewState := Simulation;
    }

    method HandleBackToSyllabus()
      modifies this
      ensures State() == BackToSyllabus(old(State()))
      ensures selectedExam == old(selectedExam)
      ensures old(Valid()) && Enabled(old(State()), Back) ==> Valid()
    {
      viewState := Syllabus;
      selectedDomain := None;
    }

    method HandleBackToHome()
      modifies this
      ensures State() == BackToHome(old(State())) && Valid()
    {
      viewState := Home;
      selectedExam := None;
      selectedDomain := None;
    }
  }
}

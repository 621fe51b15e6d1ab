/** The configuration wizard's submit and progress machine (components/GeneratorWizard.tsx).

    WizardState holds the component's state together with the two pieces of state that live in
    handleSubmit's closure while a draft call is outstanding: whether the progress interval is
    running and its `currentStepIndex`. The interval runs from the submit until the draft call
    settles, so `intervalActive` also says that a call is outstanding. Ticks of the interval and
    the settling of the call are discrete events; real time is not modelled. */
module GeneratorWizard {
  import opened Types
  import opened GeminiService

  /** The two views of the wizard: the form, and the progress screen. */
  datatype Phase = Input | Processing

  const DefaultConfig := GeneratorConfig("", "Past 24 Hours", Academic, Standard)
  const SearchPeriods := ["Past 24 Hours", "Past Week", "Past Month"]

  /** The progress values of the simulated steps, in the order the interval shows them (the
      step messages that go with them are never displayed). */
  const StepPercents: seq<int> := [10, 30, 50, 70]
  const DoneProgress := 100

  const MissingKeywordsError := "Please enter at least one keyword."
  const GenerationFailedError := "Failed to generate content. Please try again or check your API key."

  datatype WizardState = WizardState(
    config: GeneratorConfig,
    step: Phase,
    progress: int,
    error: Option<string>,
    intervalActive: bool,
    stepIndex: nat)

  function Initial(): WizardState {
    WizardState(DefaultConfig, Input, 0, None, false, 0)
  }

  /** A progress value the bar can show before the draft call has succeeded. */
  predicate TickProgress(p: int) {
    p == 0 || p in StepPercents
  }

  /** Invariant of every reachable state. The interval runs only on the progress screen, and
      once it has ticked the bar shows the latest step's value; on the progress screen with the
      interval stopped the call has succeeded and the bar is full; otherwise the bar shows 0 or
      one of the step values. */
  predicate Consistent(s: WizardState) {
    && s.stepIndex <= |StepPercents|
    && (s.intervalActive ==> s.step == Processing)
    && (s.intervalActive && s.stepIndex > 0 ==> s.progress == StepPercents[s.stepIndex - 1])
    && (if s.step == Processing && !s.intervalActive then s.progress == DoneProgress
        else TickProgress(s.progress))
  }

  lemma InitialState()
    ensures var s := Initial();
      && s.config.keywords == "" && s.config.dateRange == "Past 24 Hours"
      && s.config.tone == Academic && s.config.length == Standard
      && s.step == Input && s.progress == 0 && s.error == None && !s.intervalActive
      && Consistent(s)
  {
  }

  // ---------------------------------------------------------------------------
  // Field updates: `setConfig({ ...config, field: value })`

  /** Everything outside the configuration is the same in both states. */
  predicate SameOutsideConfig(s: WizardState, r: WizardState) {
    r.(config := s.config) == s
  }

  function KeywordsChanged(s: WizardState, keywords: string): (r: WizardState)
    ensures r.config.keywords == keywords
    ensures r.config.dateRange == s.config.dateRange && r.config.tone == s.config.tone
    ensures r.config.length == s.config.length && SameOutsideConfig(s, r)
  {
    s.(config := s.config.(keywords := keywords))
  }

  function PeriodChanged(s: WizardState, dateRange: string): (r: WizardState)
    ensures r.config.dateRange == dateRange
    ensures r.config.keywords == s.config.keywords && r.config.tone == s.config.tone
    ensures r.config.length == s.config.length && SameOutsideConfig(s, r)
  {
    s.(config := s.config.(dateRange := dateRange))
  }

  function ToneChanged(s: WizardState, tone: Tone): (r: WizardState)
    ensures r.config.tone == tone
    ensures r.config.keywords == s.config.keywords && r.config.dateRange == s.config.dateRange
    ensures r.config.length == s.config.length && SameOutsideConfig(s, r)
  {
    s.(config := s.config.(tone := tone))
  }

  function LengthChanged(s: WizardState, length: Length): (r: WizardState)
    ensures r.config.length == length
    ensures r.config.keywords == s.config.keywords && r.config.dateRange == s.config.dateRange
    ensures r.config.tone == s.config.tone && SameOutsideConfig(s, r)
  {
    s.(config := s.config.(length := length))
  }

  // ---------------------------------------------------------------------------
  // handleSubmit, the interval callback, and the settling of the draft call

  /** The part of handleSubmit before `await`. The submit button exists only on the form, hence
      the requires. The guard is `!config.keywords`: only the empty string is rejected (one made
      of spaces passes); a rejection sets the error and changes nothing else, and no draft call
      is made. Otherwise the progress screen is shown, the error cleared, a fresh interval
      started, and generateBlogDraft called (the boolean result). The progress bar is not reset. */
  function Submitted(s: WizardState): (r: (WizardState, bool))
    requires s.step == Input
    ensures r.1 <==> s.config.keywords != ""
    ensures !r.1 ==> r.0.error == Some(MissingKeywordsError) && r.0.(error := s.error) == s
    ensures r.1 ==>
      && r.0.step == Processing && r.0.error == None
      && r.0.intervalActive && r.0.stepIndex == 0
      && r.0.config == s.config && r.0.progress == s.progress
  {
    if s.config.keywords == "" then (s.(error := Some(MissingKeywordsError)), false)
    else (s.(step := Processing, error := None, intervalActive := true, stepIndex := 0), true)
  }

  /** One run of the interval callback: while the index is below the number of steps, the bar
      moves to the next step's value; a stopped interval, or one past the last step, does
      nothing. */
  function Ticked(s: WizardState): (r: WizardState)
    ensures s.intervalActive && s.stepIndex < |StepPercents| ==>
      && r.progress == StepPercents[s.stepIndex] && r.stepIndex == s.stepIndex + 1
      && r.(progress := s.progress, stepIndex := s.stepIndex) == s
    ensures !(s.intervalActive && s.stepIndex < |StepPercents|) ==> r == s
  {
    if s.intervalActive && s.stepIndex < |StepPercents| then
      s.(progress := StepPercents[s.stepIndex], stepIndex := s.stepIndex + 1)
    else s
  }

  /** The draft call settles (only an outstanding call can). Either way the interval stops and
      the configuration is kept. Success fills the bar and hands the post on (to onSuccess,
      after a short timeout); failure returns to the form with the failure message, ready to be
      submitted again. */
  function Resolved(s: WizardState, outcome: Outcome<BlogPost>): (r: (WizardState, Option<BlogPost>))
    requires s.intervalActive
    ensures !r.0.intervalActive && r.0.config == s.config
    ensures outcome.Returned? ==>
      && r.0.progress == DoneProgress && r.0.step == s.step && r.0.error == s.error
      && r.1 == Some(outcome.value)
    ensures outcome.Threw? ==>
      && r.0.step == Input && r.0.error == Some(GenerationFailedError) && r.0.progress == s.progress
      && r.1 == None
  {
    match outcome
    case Returned(post) => (s.(intervalActive := false, progress := DoneProgress), Some(post))
    case Threw(_) => (s.(intervalActive := false, step := Input, error := Some(GenerationFailedError)), None)
  }

  /** A failed draft leaves the same configuration on the form, and submitting it again is
      accepted and makes a new call. */
  lemma ResubmitAfterFailure(s: WizardState, error: string)
    requires Consistent(s) && s.intervalActive && s.config.keywords != ""
    ensures var failed := Resolved(s, Threw(error)).0;
      && failed.step == Input && failed.config == s.config && Consistent(failed)
      && Submitted(failed).1 && Submitted(failed).0.config == s.config
  {
  }

  /** Composed with generateBlogDraft: a failed call, an empty text or unparsable text all
      bring the form back with the failure message; only a parsed post is handed on. */
  lemma DraftOutcomeOnWizard(s: WizardState, gateway: string -> Response, parse: string -> Outcome<BlogPost>)
    requires s.intervalActive
    ensures var resp := gateway(DraftPrompt(s.config));
      var r := Resolved(s, GenerateBlogDraft(s.config, gateway, parse));
      && (resp.Failure? || resp == Text("") ==> r.0.step == Input && r.0.error == Some(GenerationFailedError))
      && (r.1.None? ==> r.0.step == Input && r.0.error == Some(GenerationFailedError))
      && (r.1.Some? <==> resp.Text? && resp.text != "" && parse(resp.text).Returned?)
      && (r.1.Some? ==> Returned(r.1.value) == parse(resp.text))
  {
  }

  // ---------------------------------------------------------------------------
  // Ticks

  function Ticks(s: WizardState, n: nat): WizardState
    decreases n
  {
    if n == 0 then s else Ticks(Ticked(s), n - 1)
  }

  /** After n ticks of a fresh interval the bar shows the n-th step's value, capped at the last
      one; the interval is then past the last step, so later ticks change nothing. */
  lemma {:induction false} TicksOfFreshInterval(s: WizardState, n: nat, k: nat)
    requires s.intervalActive && s.stepIndex == k && k <= |StepPercents|
    requires k > 0 ==> s.progress == StepPercents[k - 1]
    ensures Ticks(s, n).stepIndex == Min(k + n, |StepPercents|)
    ensures Ticks(s, n).intervalActive
    ensures k + n > 0 ==> Ticks(s, n).progress == StepPercents[Min(k + n, |StepPercents|) - 1]
    ensures n == 0 || k < |StepPercents| || Ticks(s, n) == s
    ensures Ticks(s, n).(progress := s.progress, stepIndex := s.stepIndex) == s
    decreases n
  {
    if n > 0 && k < |StepPercents| {
      TicksOfFreshInterval(Ticked(s), n - 1, k + 1);
    } else if n > 0 {
      assert Ticked(s) == s;
      TicksOfFreshInterval(Ticked(s), n - 1, k);
    }
  }

  /** From a submit, ticks alone move the bar strictly upwards through 10, 30, 50, 70: from the
      first tick on it shows one of the step values, never past 70, and the fifth tick onwards
      does nothing. */
  lemma TicksAfterSubmit(s: WizardState, m: nat, n: nat)
    requires s.intervalActive && s.stepIndex == 0
    requires 1 <= m
    ensures Ticks(s, m).progress in StepPercents
    ensures 10 <= Ticks(s, m).progress <= 70
    ensures m < n <= |StepPercents| ==> Ticks(s, m).progress < Ticks(s, n).progress
    ensures |StepPercents| <= m <= n ==> Ticks(s, n) == Ticks(s, m)
  {
    TicksOfFreshInterval(s, m, 0);
    TicksOfFreshInterval(s, n, 0);
  }

  // ---------------------------------------------------------------------------
  // The stage labels of the progress screen

  datatype StageLabels = StageLabels(search: bool, extract: bool, synthesize: bool)

  /** "Search", "Extract" and "Synthesize" are highlighted above 20, 50 and 80 percent. */
  function Highlighted(progress: int): StageLabels {
    StageLabels(progress > 20, progress > 50, progress > 80)
  }

  /** On the values the bar can take, the labels light up from the second, the fourth step and
      success on; in particular "Synthesize" is lit only once the draft has succeeded. */
  lemma HighlightedStages(s: WizardState)
    requires Consistent(s)
    ensures Highlighted(s.progress).search <==> s.progress >= 30
    ensures Highlighted(s.progress).extract <==> s.progress >= 70
    ensures Highlighted(s.progress).synthesize <==> (s.step == Processing && !s.intervalActive)
  {
  }

  // ---------------------------------------------------------------------------
  // Arbitrary sequences of events

  /** An event that cannot happen in a state (a submit away from the form, a settling with no
      call outstanding) leaves the state as it is. A period button click carries the index of
      the button; an index outside the three buttons changes nothing. */
  datatype WizardEvent =
    | KeywordsInput(keywords: string)
    | PeriodClick(option: nat)
    | ToneSelect(tone: Tone)
    | LengthSelect(length: Length)
    | SubmitClick
    | IntervalTick
    | DraftSettle(outcome: Outcome<BlogPost>)

  function Step(s: WizardState, e: WizardEvent): WizardState {
    match e
    case KeywordsInput(k) => KeywordsChanged(s, k)
    case PeriodClick(i) => if i < |SearchPeriods| then PeriodChanged(s, SearchPeriods[i]) else s
    case ToneSelect(t) => ToneChanged(s, t)
    case LengthSelect(l) => LengthChanged(s, l)
    case SubmitClick => if s.step == Input then Submitted(s).0 else s
    case IntervalTick => Ticked(s)
    case DraftSettle(outcome) => if s.intervalActive then Resolved(s, outcome).0 else s
  }

  function Run(s: WizardState, events: seq<WizardEvent>): WizardState
    decreases |events|
  {
    if events == [] then s else Run(Step(s, events[0]), events[1..])
  }

  lemma StepKeepsConsistent(s: WizardState, e: WizardEvent)
    requires Consistent(s)
    ensures Consistent(Step(s, e))
  {
  }

  lemma {:induction false} RunKeepsConsistent(s: WizardState, events: seq<WizardEvent>)
    requires Consistent(s)
    ensures Consistent(Run(s, events))
    decreases |events|
  {
    if events != [] {
      StepKeepsConsistent(s, events[0]);
      RunKeepsConsistent(Step(s, events[0]), events[1..]);
    }
  }

  /** The period in the configuration is always one the buttons offer: the default is one of
      them, and only the buttons change it. */
  lemma {:induction false} RunKeepsOfferedPeriod(s: WizardState, events: seq<WizardEvent>)
    requires s.config.dateRange in SearchPeriods
    ensures Run(s, events).config.dateRange in SearchPeriods
    decreases |events|
  {
    if events != [] {
      assert Step(s, events[0]).config.dateRange in SearchPeriods;
      RunKeepsOfferedPeriod(Step(s, events[0]), events[1..]);
    }
  }

  lemma ReachablePeriodOffered(events: seq<WizardEvent>)
    ensures Run(Initial(), events).config.dateRange in SearchPeriods
  {
    RunKeepsOfferedPeriod(Initial(), events);
  }

  /** In general: an accepted submit leaves the bar where it was, ready to be moved by the first
      tick to 10 whatever it showed before. */
  lemma SubmitKeepsBar(s: WizardState)
    requires Consistent(s) && s.step == Input && s.config.keywords != ""
    ensures Step(s, SubmitClick).progress == s.progress
    ensures Run(s, [SubmitClick, IntervalTick]).progress == StepPercents[0]
  {
    assert Run(s, [SubmitClick, IntervalTick]) == Ticked(Submitted(s).0);
  }

  /** The bar is not reset by a submit: after a failed attempt that reached 30, the first tick
      of the next attempt moves it back down to 10. */
  lemma ResubmitRestartsBarFromStaleValue()
    ensures var failed := Run(Initial(), [KeywordsInput("AI"), SubmitClick, IntervalTick, IntervalTick,
                                          DraftSettle(Threw("quota"))]);
      && failed.step == Input && failed.progress == 30
      && Step(failed, SubmitClick).progress == 30
      && Run(failed, [SubmitClick, IntervalTick]).progress == 10
  {
  }

  // ---------------------------------------------------------------------------
  // The component

  class Wizard {
    var config: GeneratorConfig
    var step: Phase
    var progress: int
    var error: Option<string>
    var intervalActive: bool
    var stepIndex: nat

    function State(): WizardState
      reads this
    {
      WizardState(config, step, progress, error, intervalActive, stepIndex)
    }

    predicate Valid()
      reads this
    {
      Consistent(State())
    }

    constructor ()
      ensures State() == Initial() && Valid()
    {
      config := DefaultConfig;
      step := Input;
      progress := 0;
      error := None;
      intervalActive, stepIndex := false, 0;
    }

    method SetKeywords(keywords: string)
      requires Valid()
      modifies this
      ensures Valid() && State() == KeywordsChanged(old(State()), keywords)
    {
      config := config.(keywords := keywords);
    }

    method SetDateRange(dateRange: string)
      requires Valid()
      modifies this
      ensures Valid() && State() == PeriodChanged(old(State()), dateRange)
    {
      config := config.(dateRange := dateRange);
    }

    method SetTone(tone: Tone)
      requires Valid()
      modifies this
      ensures Valid() && State() == ToneChanged(old(State()), tone)
    {
      config := config.(tone := tone);
    }

    method SetLength(length: Length)
      requires Valid()
      modifies this
      ensures Valid() && State() == LengthChanged(old(State()), length)
    {
      config := config.(length := length);
    }

    /** Returns whether generateBlogDraft is called (with the current configuration). */
    method Submit() returns (draftCalled: bool)
      requires Valid() && step == Input
      modifies this
      ensures Valid() && (State(), draftCalled) == Submitted(old(State()))
    {
      if config.keywords == "" {
        error := Some(MissingKeywordsError);
        return false;
      }
      step := Processing;
      error := None;
      stepIndex := 0;
      intervalActive := true;
      draftCalled := true;
    }

    method Tick()
      requires Valid()
      modifies this
      ensures Valid() && State() == Ticked(old(State()))
    {
      if intervalActive && stepIndex < |StepPercents| {
        progress := StepPercents[stepIndex];
        stepIndex := stepIndex + 1;
      }
    }

    /** Returns the post handed to onSuccess, if the call succeeded. */
    method Resolve(outcome: Outcome<BlogPost>) returns (delivered: Option<BlogPost>)
      requires Valid() && intervalActive
      modifies this
      ensures Valid() && (State(), delivered) == Resolved(old(State()), outcome)
    {
      intervalActive := false;
      match outcome {
        case Returned(post) =>
          progress := DoneProgress;
          delivered := Some(post);
        case Threw(_) =>
          step := Input;
          error := Some(GenerationFailedError);
          delivered := None;
      }
    }
  }
}

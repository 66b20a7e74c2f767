/**
 * The onboarding wizard: a seven-step sequencer over `currentStep` that
 * accumulates the fragments the step forms submit into one record, and
 * hands the record to its `onComplete` callback when the last step submits.
 *
 * Callbacks are returned as values: a submission returns the record passed
 * to `onComplete` when it fires, and Exit Setup returns the `onSkip` call.
 */
module OnboardingFlow {
  import opened Wrappers
  import opened Schema

  const TotalSteps: int := 7

  /** The wizard's two state variables. */
  datatype FlowState = FlowState(currentStep: int, data: OnboardingData)

  /** A fresh wizard: step 1 and a record holding only `step: 1`. */
  function Initial(): (s: FlowState)
    ensures s.currentStep == 1 && s.data.step == 1 && s.data.fields == map[]
  {
    FlowState(1, OnboardingData(1, map[]))
  }

  /**
   * `{ ...data, ...fragment, step }`: the fragment's keys overwrite the
   * record's one by one, every other key is kept, and `step` is forced
   * whatever the fragment carried.
   */
  function Merge(data: OnboardingData, fragment: Fragment, step: int): (r: OnboardingData)
    ensures r.step == step
    ensures r.fields.Keys == data.fields.Keys + fragment.fields.Keys
    ensures forall k | k in fragment.fields :: r.fields[k] == fragment.fields[k]
    ensures forall k | k in data.fields && k !in fragment.fields :: r.fields[k] == data.fields[k]
  {
    OnboardingData(step, data.fields + fragment.fields)
  }

  /** The state after a submission and the record handed to `onComplete`, if it fired. */
  datatype Submission = Submission(state: FlowState, completed: Option<OnboardingData>)

  /**
   * `handleStepComplete`: merge the fragment with `step` = currentStep + 1,
   * then either complete (at the last step) or move one step on.
   */
  function Submit(s: FlowState, fragment: Fragment): (r: Submission)
    ensures r.state.data == Merge(s.data, fragment, s.currentStep + 1)
    ensures s.currentStep == TotalSteps ==>
              r.state.currentStep == TotalSteps && r.completed == Some(r.state.data)
    ensures s.currentStep != TotalSteps ==>
              r.state.currentStep == s.currentStep + 1 && r.completed.None?
  {
    var updated := Merge(s.data, fragment, s.currentStep + 1);
    if s.currentStep == TotalSteps then Submission(FlowState(s.currentStep, updated), Some(updated))
    else Submission(FlowState(s.currentStep + 1, updated), None)
  }

  /** `handleStepBack`: one step back, never below 1; the record is untouched. */
  function Back(s: FlowState): (r: FlowState)
    ensures r.data == s.data
    ensures s.currentStep > 1 ==> r.currentStep == s.currentStep - 1
    ensures s.currentStep <= 1 ==> r == s
  {
    if s.currentStep > 1 then FlowState(s.currentStep - 1, s.data) else s
  }

  /** The header's back arrow is shown from step 2 on. */
  predicate BackButtonShown(s: FlowState) {
    s.currentStep > 1
  }

  /** The back arrow is shown exactly when going back would change the state. */
  lemma BackButtonShownIffBackMoves(s: FlowState)
    ensures BackButtonShown(s) <==> Back(s) != s
  {
    if BackButtonShown(s) {
      assert Back(s).currentStep != s.currentStep;
    }
  }

  /** `renderCurrentStep`: the number of the step form shown, step 1 for any other value. */
  function RenderedStep(currentStep: int): (n: int)
    ensures 1 <= n <= TotalSteps
    ensures 1 <= currentStep <= TotalSteps ==> n == currentStep
    ensures !(1 <= currentStep <= TotalSteps) ==> n == 1
  {
    if 1 <= currentStep <= TotalSteps then currentStep else 1
  }

  // ---------------------------------------------------------------------------
  // Runs: any sequence of user actions

  datatype Action = SubmitStep(fragment: Fragment) | GoBack | ExitSetup

  /** A callback call made by the wizard. */
  datatype Event = CompleteCalled(data: OnboardingData) | SkipCalled

  /** One action; Exit Setup calls `onSkip` and changes nothing. */
  function Step(s: FlowState, a: Action): (r: (FlowState, seq<Event>))
    ensures a.ExitSetup? ==> r == (s, [SkipCalled])
    ensures a.GoBack? ==> r == (Back(s), [])
  {
    match a
    case SubmitStep(f) =>
      var sub := Submit(s, f);
      (sub.state, if sub.completed.Some? then [CompleteCalled(sub.completed.value)] else [])
    case GoBack => (Back(s), [])
    case ExitSetup => (s, [SkipCalled])
  }

  /** The final state and every callback call of a run. */
  function Run(s: FlowState, actions: seq<Action>): (FlowState, seq<Event>)
    decreases |actions|
  {
    if actions == [] then (s, [])
    else
      var (s1, e1) := Step(s, actions[0]);
      var (s2, e2) := Run(s1, actions[1..]);
      (s2, e1 + e2)
  }

  /** `currentStep` stays within 1..7 whatever the user does. */
  lemma {:induction false} StepStaysInRange(s: FlowState, actions: seq<Action>)
    requires 1 <= s.currentStep <= TotalSteps
    ensures 1 <= Run(s, actions).0.currentStep <= TotalSteps
    decreases |actions|
  {
    if actions != [] {
      StepStaysInRange(Step(s, actions[0]).0, actions[1..]);
    }
  }

  // ---------------------------------------------------------------------------
  // What the step forms submit

  /** The keys the form shown at step `n` submits. */
  function StepKeys(n: int): set<Key> {
    if n == 1 then {ProfessionalInfoKey}
    else if n == 2 then {DomainExpertiseKey}
    else if n == 3 then {LearningPreferencesKey}
    else if n == 4 then {ScheduleKey, TimezoneKey}
    else if n == 5 then {NotificationsKey}
    else if n == 6 then {GoalsKey}
    else if n == 7 then {SocialIntegrationKey}
    else {}
  }

  /** The keys of every step before `n`. */
  function KeysBefore(n: int): set<Key>
    decreases n
  {
    if n <= 1 then {} else KeysBefore(n - 1) + StepKeys(n - 1)
  }

  /** Going through all seven steps collects every key, the undeclared `timezone` among them. */
  lemma AllStepsCollectAllKeys()
    ensures KeysBefore(TotalSteps + 1) == AllKeys
    ensures TimezoneKey in AllKeys - DeclaredKeys
  {
  }

  lemma {:induction false} KeysBeforeMonotone(m: int, n: int)
    requires m <= n
    ensures KeysBefore(m) <= KeysBefore(n)
    decreases n - m
  {
    if m < n {
      KeysBeforeMonotone(m, n - 1);
    }
  }

  /** A fragment as the form at step `n` builds it: that step's keys, well typed. */
  predicate FromStepForm(n: int, f: Fragment) {
    f.fields.Keys == StepKeys(n) && WellTyped(f.fields)
  }

  /** Every submission in the run comes from the form shown at the time. */
  predicate FormDrivenRun(s: FlowState, actions: seq<Action>)
    decreases |actions|
  {
    actions != [] ==>
      (actions[0].SubmitStep? ==> FromStepForm(s.currentStep, actions[0].fragment))
      && FormDrivenRun(Step(s, actions[0]).0, actions[1..])
  }

  /**
   * The wizard's invariant: the step is in range, the record's `step` is
   * at least the current step and at most 8, the record is well typed, and
   * it holds the keys of every step before the current one.
   */
  predicate Inv(s: FlowState) {
    && 1 <= s.currentStep <= TotalSteps
    && s.currentStep <= s.data.step <= TotalSteps + 1
    && WellTyped(s.data.fields)
    && KeysBefore(s.currentStep) <= s.data.fields.Keys
  }

  /** A completion passes the record of all seven steps, with `step` = 8. */
  predicate CompleteRecord(d: OnboardingData) {
    d.step == TotalSteps + 1 && AllKeys <= d.fields.Keys && WellTyped(d.fields)
  }

  /** Merging a well-typed fragment keeps the record well typed. */
  lemma MergeWellTyped(d: OnboardingData, f: Fragment, step: int)
    requires WellTyped(d.fields) && WellTyped(f.fields)
    ensures WellTyped(Merge(d, f, step).fields)
  {
    var r := Merge(d, f, step);
    forall k | k in r.fields
      ensures Fits(k, r.fields[k])
    {
      if k in f.fields {
        assert r.fields[k] == f.fields[k];
      } else {
        assert r.fields[k] == d.fields[k];
      }
    }
  }

  /** A form-driven submission keeps the invariant, and a completion it fires passes the whole record. */
  lemma SubmitKeepsInv(s: FlowState, f: Fragment)
    requires Inv(s)
    requires FromStepForm(s.currentStep, f)
    ensures Inv(Submit(s, f).state)
    ensures Submit(s, f).completed.Some? ==> CompleteRecord(Submit(s, f).completed.value)
  {
    var n := s.currentStep;
    var merged := Merge(s.data, f, n + 1);
    MergeWellTyped(s.data, f, n + 1);
    MergeCollectsStepKeys(s.data, f, n);
    if n == TotalSteps {
      AllStepsCollectAllKeys();
    }
  }

  /** After the merge, the record holds the keys of every step up to and including `n`. */
  lemma MergeCollectsStepKeys(d: OnboardingData, f: Fragment, n: int)
    requires KeysBefore(n) <= d.fields.Keys
    requires f.fields.Keys == StepKeys(n)
    requires 1 <= n
    ensures KeysBefore(n + 1) <= Merge(d, f, n + 1).fields.Keys
  {
    assert KeysBefore(n + 1) == KeysBefore(n) + StepKeys(n);
  }

  /** One form-driven action keeps the invariant, and a completion it fires passes the whole record. */
  lemma StepKeepsInv(s: FlowState, a: Action)
    requires Inv(s)
    requires a.SubmitStep? ==> FromStepForm(s.currentStep, a.fragment)
    ensures Inv(Step(s, a).0)
    ensures forall e | e in Step(s, a).1 :: e.CompleteCalled? ==> CompleteRecord(e.data)
  {
    match a
    case SubmitStep(f) =>
      SubmitKeepsInv(s, f);
    case GoBack =>
      KeysBeforeMonotone(Back(s).currentStep, s.currentStep);
    case ExitSetup =>
  }

  /**
   * Whatever the user does in the form-driven wizard, `onComplete` only
   * ever receives a record holding all seven steps' keys with `step` = 8.
   */
  lemma {:induction false} CompletionCarriesAllSteps(s: FlowState, actions: seq<Action>)
    requires Inv(s)
    requires FormDrivenRun(s, actions)
    ensures Inv(Run(s, actions).0)
    ensures forall e | e in Run(s, actions).1 :: e.CompleteCalled? ==> CompleteRecord(e.data)
    decreases |actions|
  {
    if actions != [] {
      var (s1, e1) := Step(s, actions[0]);
      StepKeepsInv(s, actions[0]);
      CompletionCarriesAllSteps(s1, actions[1..]);
    }
  }

  /** The fresh wizard satisfies the invariant, so every run from it is covered. */
  lemma InitialInv()
    ensures Inv(Initial())
  {
  }

  // ---------------------------------------------------------------------------
  // Re-submission and back

  /** A stored fragment survives any number of backs. */
  lemma {:induction false} BacksKeepRecord(s: FlowState, n: nat)
    ensures Run(s, seq(n, _ => GoBack)).0.data == s.data
    decreases n
  {
    if n > 0 {
      var acts := seq(n, _ => GoBack);
      assert acts[0] == GoBack;
      assert acts[1..] == seq(n - 1, _ => GoBack);
      BacksKeepRecord(Back(s), n - 1);
    }
  }

  /**
   * Re-submitting a step replaces exactly the keys its form supplies: any
   * other key keeps its stored value, and submitting the same fragment
   * twice gives the same record as once.
   */
  lemma ResubmitOverwritesOnlyItsKeys(d: OnboardingData, f: Fragment, step: int, k: Key)
    ensures k !in f.fields ==> (k in Merge(d, f, step).fields <==> k in d.fields)
    ensures k !in f.fields && k in d.fields ==> Merge(d, f, step).fields[k] == d.fields[k]
    ensures Merge(Merge(d, f, step), f, step) == Merge(d, f, step)
  {
    var once := Merge(d, f, step);
    var twice := Merge(once, f, step);
    assert twice.fields == once.fields;
  }

  // ---------------------------------------------------------------------------
  // The component

  class Flow {
    var currentStep: int
    var onboardingData: OnboardingData

    function State(): FlowState
      reads this
    {
      FlowState(currentStep, onboardingData)
    }

    constructor ()
      ensures State() == Initial()
    {
      currentStep := 1;
      onboardingData := OnboardingData(1, map[]);
    }

    /** `handleStepComplete`: returns the record passed to `onComplete` when that fires. */
    method HandleStepComplete(stepData: Fragment) returns (completed: Option<OnboardingData>)
      modifies this
      ensures Submission(State(), completed) == Submit(old(State()), stepData)
    {
      var updatedData := OnboardingData(currentStep + 1, onboardingData.fields + stepData.fields);
      onboardingData := updatedData;
      if currentStep == TotalSteps {
        completed := Some(updatedData);
      } else {
        currentStep := currentStep + 1;
        completed := None;
      }
    }

    /** `handleStepBack`. */
    method HandleStepBack()
      modifies this
      ensures State() == Back(old(State()))
    {
      if currentStep > 1 {
        currentStep := currentStep - 1;
      }
    }

    /** The Exit Setup button: calls `onSkip` and nothing else. */
    method ExitSetupClicked() returns (e: Event)
      ensures e == SkipCalled
    {
      e := SkipCalled;
    }

    /** The step form currently rendered. */
    function RenderCurrentStep(): (n: int)
      reads this
      ensures 1 <= n <= TotalSteps
      ensures 1 <= currentStep <= TotalSteps ==> n == currentStep
    {
      RenderedStep(currentStep)
    }
  }
}

/**
 * Step 3 of the wizard, learning preferences: a learning style card, a pace
 * radio, a practical-versus-theoretical slider and a daily time option.
 */
module OnboardingStep3 {
  import opened Wrappers
  import opened Schema
  import opened Enums
  import opened FormErrors
  import OnboardingFlow

  datatype Field = Style | Pace | PracticalVsTheoretical | DailyTime

  /** The form's state has the shape of the `learningPreferences` fragment. */
  type FormData = LearningPreferences

  /** One `handleInputChange(field, value)` call, the value typed by its field. */
  datatype Edit =
    | SetStyle(style: string)
    | SetPace(pace: string)
    | SetPracticalVsTheoretical(balance: int)
    | SetDailyTime(minutes: int)
  {
    function Target(): Field {
      match this
      case SetStyle(_) => Style
      case SetPace(_) => Pace
      case SetPracticalVsTheoretical(_) => PracticalVsTheoretical
      case SetDailyTime(_) => DailyTime
    }
  }

  predicate SameField(a: FormData, b: FormData, g: Field) {
    match g
    case Style => a.style == b.style
    case Pace => a.pace == b.pace
    case PracticalVsTheoretical => a.practicalVsTheoretical == b.practicalVsTheoretical
    case DailyTime => a.dailyTime == b.dailyTime
  }

  predicate Shows(f: FormData, e: Edit) {
    match e
    case SetStyle(v) => f.style == v
    case SetPace(v) => f.pace == v
    case SetPracticalVsTheoretical(v) => f.practicalVsTheoretical == v
    case SetDailyTime(v) => f.dailyTime == v
  }

  /** `{ ...prev, [field]: value }`: the edited field changes, the others do not. */
  function Apply(f: FormData, e: Edit): (r: FormData)
    ensures Shows(r, e)
    ensures forall g | g != e.Target() :: SameField(r, f, g)
  {
    match e
    case SetStyle(v) => f.(style := v)
    case SetPace(v) => f.(pace := v)
    case SetPracticalVsTheoretical(v) => f.(practicalVsTheoretical := v)
    case SetDailyTime(v) => f.(dailyTime := v)
  }

  /** The values of the three pace radios. */
  const PaceOptions: seq<string> := ["Fast learner", "Moderate pace", "Take my time"]

  /** The minutes of the three daily time cards. */
  const TimeOptions: seq<int> := [15, 30, 60]

  function Stored(data: OnboardingData): Option<LearningPreferences> {
    if LearningPreferencesKey in data.fields && data.fields[LearningPreferencesKey].LearningPreferencesValue?
    then Some(data.fields[LearningPreferencesKey].learningPreferences)
    else None
  }

  /** The initial form: strings fall back to "", a balance of 0 to 5, the daily time stays 0. */
  function Prefill(data: OnboardingData): (f: FormData)
    ensures Stored(data).None? ==> f == LearningPreferences("", "", 5, 0)
    ensures Stored(data).Some? ==>
              var p := Stored(data).value;
              f.style == p.style && f.pace == p.pace && f.dailyTime == p.dailyTime
              && (p.practicalVsTheoretical != 0 ==> f.practicalVsTheoretical == p.practicalVsTheoretical)
              && (p.practicalVsTheoretical == 0 ==> f.practicalVsTheoretical == 5)
    ensures f.practicalVsTheoretical != 0
  {
    match Stored(data)
    case None => LearningPreferences("", "", 5, 0)
    case Some(p) =>
      LearningPreferences(p.style, p.pace,
                          if p.practicalVsTheoretical == 0 then 5 else p.practicalVsTheoretical,
                          p.dailyTime)
  }

  predicate IsValid(f: FormData) {
    f.style != "" && f.pace != "" && f.dailyTime != 0
  }

  /** Whether `validateForm` flags a field; the practical/theoretical balance is never checked. */
  predicate Fails(f: FormData, g: Field) {
    match g
    case Style => f.style == ""
    case Pace => f.pace == ""
    case PracticalVsTheoretical => false
    case DailyTime => f.dailyTime == 0
  }

  /** The message of each checked field (the balance has none). */
  function Message(g: Field): string {
    match g
    case Style => "Please select a learning style"
    case Pace => "Please select your learning pace"
    case PracticalVsTheoretical => ""
    case DailyTime => "Please select daily time commitment"
  }

  /** The error map `validateForm` builds, one check after the other. */
  function Errors(f: FormData): map<Field, string> {
    var e0: map<Field, string> := map[];
    var e1 := if Fails(f, Style) then e0[Style := Message(Style)] else e0;
    var e2 := if Fails(f, Pace) then e1[Pace := Message(Pace)] else e1;
    if Fails(f, DailyTime) then e2[DailyTime := Message(DailyTime)] else e2
  }

  /** The error map holds a shown message for exactly the flagged fields; it is empty iff the form is valid. */
  lemma ErrorsFlagExactly(f: FormData)
    ensures forall g :: g in Errors(f) <==> Fails(f, g)
    ensures forall g | g in Errors(f) :: Errors(f)[g] == Message(g) && HasError(Errors(f), g)
    ensures Errors(f) == map[] <==> IsValid(f)
  {
    var e := Errors(f);
    forall g ensures g in e <==> Fails(f, g) {
      match g
      case Style =>
      case Pace =>
      case PracticalVsTheoretical =>
      case DailyTime =>
    }
    forall g | g in e ensures e[g] == Message(g) && HasError(e, g) {
      match g
      case Style =>
      case Pace =>
      case PracticalVsTheoretical =>
      case DailyTime =>
    }
    assert IsValid(f) <==> !Fails(f, Style) && !Fails(f, Pace) && !Fails(f, DailyTime);
    if !IsValid(f) {
      if Fails(f, Style) { assert Style in e; }
      else if Fails(f, Pace) { assert Pace in e; }
      else { assert DailyTime in e; }
    }
  }

  /**
   * A fresh form cannot advance, and it can once a style card, a pace radio
   * and one of the time cards are chosen, whatever the balance.
   */
  lemma FreshFormNeedsChoices(data: OnboardingData, style: LearningPreference, pace: string, minutes: int, balance: int)
    requires Stored(data).None?
    requires pace in PaceOptions && minutes in TimeOptions
    ensures !IsValid(Prefill(data))
    ensures IsValid(Apply(Apply(Apply(Prefill(data), SetStyle(style.Value())), SetPace(pace)), SetDailyTime(minutes)))
    ensures IsValid(LearningPreferences(style.Value(), pace, balance, minutes))
  {
  }

  /** The `learningPreferences` fragment: the whole form. */
  function ToFragment(f: FormData): (frag: Fragment)
    ensures OnboardingFlow.FromStepForm(3, frag)
    ensures frag.step.None?
    ensures frag.fields[LearningPreferencesKey].learningPreferences == f
  {
    FragmentOf(map[LearningPreferencesKey := LearningPreferencesValue(f)])
  }

  /** Coming back to step 3 shows the submitted form again (the slider never yields 0). */
  lemma PrefillAfterSubmit(data: OnboardingData, f: FormData, step: int)
    requires f.practicalVsTheoretical != 0
    ensures Prefill(OnboardingFlow.Merge(data, ToFragment(f), step)) == f
  {
    var merged := OnboardingFlow.Merge(data, ToFragment(f), step);
    assert Stored(merged) == Some(f);
  }

  class Step3Form {
    var formData: FormData
    var errors: map<Field, string>

    constructor (data: OnboardingData)
      ensures formData == Prefill(data) && errors == map[]
    {
      formData := Prefill(data);
      errors := map[];
    }

    /** `handleInputChange`: sets the field and blanks its error if it showed one. */
    method HandleInputChange(e: Edit)
      modifies this
      ensures formData == Apply(old(formData), e)
      ensures errors == ClearError(old(errors), e.Target())
    {
      formData := Apply(formData, e);
      if HasError(errors, e.Target()) {
        errors := errors[e.Target() := ""];
      }
    }

    /** `validateForm`: replaces the error map wholesale and reports whether it is empty. */
    method ValidateForm() returns (ok: bool)
      modifies this
      ensures formData == old(formData)
      ensures errors == Errors(formData)
      ensures ok <==> IsValid(formData)
    {
      var newErrors: map<Field, string> := map[];
      if formData.style == "" {
        newErrors := newErrors[Style := "Please select a learning style"];
      }
      if formData.pace == "" {
        newErrors := newErrors[Pace := "Please select your learning pace"];
      }
      if formData.dailyTime == 0 {
        newErrors := newErrors[DailyTime := "Please select daily time commitment"];
      }
      errors := newErrors;
      ok := |newErrors| == 0;
      assert ok <==> newErrors == map[];
      ErrorsFlagExactly(formData);
    }

    /** `handleNext`: returns the fragment passed to `onNext`, which is only called on a valid form. */
    method HandleNext() returns (submitted: Option<Fragment>)
      modifies this
      ensures formData == old(formData)
      ensures errors == Errors(formData)
      ensures submitted == if IsValid(formData) then Some(ToFragment(formData)) else None
    {
      var ok := ValidateForm();
      if ok {
        submitted := Some(ToFragment(formData));
      } else {
        submitted := None;
      }
    }
  }
}

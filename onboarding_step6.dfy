/**
 * Step 6 of the wizard, career goals: three required text goals, a target
 * salary radio, a looking-to-switch yes/no radio, a 1-10 job satisfaction
 * slider with an emoji, and target skills.
 */
module OnboardingStep6 {
  import opened Wrappers
  import opened Strings
  import opened Schema
  import opened FormErrors
  import OnboardingFlow

  datatype Field = ShortTerm | LongTerm | TargetRole | TargetSalary | LookingToSwitch | JobSatisfaction | TargetSkills

  /** The form's state has the shape of the `goals` fragment. */
  type FormData = Goals

  /** One `handleInputChange(field, value)` call, the value typed by its field. */
  datatype Edit =
    | SetShortTerm(shortTerm: string)
    | SetLongTerm(longTerm: string)
    | SetTargetRole(targetRole: string)
    | SetTargetSalary(targetSalary: string)
    | SetLookingToSwitch(lookingToSwitch: bool)
    | SetJobSatisfaction(jobSatisfaction: int)
    | SetTargetSkills(targetSkills: seq<string>)
  {
    function Target(): Field {
      match this
      case SetShortTerm(_) => ShortTerm
      case SetLongTerm(_) => LongTerm
      case SetTargetRole(_) => TargetRole
      case SetTargetSalary(_) => TargetSalary
      case SetLookingToSwitch(_) => LookingToSwitch
      case SetJobSatisfaction(_) => JobSatisfaction
      case SetTargetSkills(_) => TargetSkills
    }
  }

  predicate SameField(a: FormData, b: FormData, g: Field) {
    match g
    case ShortTerm => a.shortTerm == b.shortTerm
    case LongTerm => a.longTerm == b.longTerm
    case TargetRole => a.targetRole == b.targetRole
    case TargetSalary => a.targetSalary == b.targetSalary
    case LookingToSwitch => a.lookingToSwitch == b.lookingToSwitch
    case JobSatisfaction => a.jobSatisfaction == b.jobSatisfaction
    case TargetSkills => a.targetSkills == b.targetSkills
  }

  predicate Shows(f: FormData, e: Edit) {
    match e
    case SetShortTerm(v) => f.shortTerm == v
    case SetLongTerm(v) => f.longTerm == v
    case SetTargetRole(v) => f.targetRole == v
    case SetTargetSalary(v) => f.targetSalary == v
    case SetLookingToSwitch(v) => f.lookingToSwitch == v
    case SetJobSatisfaction(v) => f.jobSatisfaction == v
    case SetTargetSkills(v) => f.targetSkills == v
  }

  /** `{ ...prev, [field]: value }`: the edited field changes, the others do not. */
  function Apply(f: FormData, e: Edit): (r: FormData)
    ensures Shows(r, e)
    ensures forall g | g != e.Target() :: SameField(r, f, g)
  {
    match e
    case SetShortTerm(v) => f.(shortTerm := v)
    case SetLongTerm(v) => f.(longTerm := v)
    case SetTargetRole(v) => f.(targetRole := v)
    case SetTargetSalary(v) => f.(targetSalary := v)
    case SetLookingToSwitch(v) => f.(lookingToSwitch := v)
    case SetJobSatisfaction(v) => f.(jobSatisfaction := v)
    case SetTargetSkills(v) => f.(targetSkills := v)
  }

  function Stored(data: OnboardingData): Option<Goals> {
    if GoalsKey in data.fields && data.fields[GoalsKey].GoalsValue?
    then Some(data.fields[GoalsKey].goals)
    else None
  }

  /**
   * The initial form: strings fall back to "", the switch flag to false, a
   * satisfaction of 0 to 7; a stored skill list is kept even when empty.
   */
  function Prefill(data: OnboardingData): (f: FormData)
    ensures Stored(data).None? ==> f == Goals("", "", "", "", false, 7, [])
    ensures Stored(data).Some? ==>
              var g := Stored(data).value;
              f.shortTerm == g.shortTerm && f.longTerm == g.longTerm && f.targetRole == g.targetRole
              && f.targetSalary == g.targetSalary && f.lookingToSwitch == g.lookingToSwitch
              && f.targetSkills == g.targetSkills
              && (g.jobSatisfaction != 0 ==> f.jobSatisfaction == g.jobSatisfaction)
              && (g.jobSatisfaction == 0 ==> f.jobSatisfaction == 7)
    ensures f.jobSatisfaction != 0
  {
    match Stored(data)
    case None => Goals("", "", "", "", false, 7, [])
    case Some(g) =>
      Goals(g.shortTerm, g.longTerm, g.targetRole, g.targetSalary, g.lookingToSwitch,
            if g.jobSatisfaction == 0 then 7 else g.jobSatisfaction, g.targetSkills)
  }

  predicate IsValid(f: FormData) {
    !IsBlank(f.shortTerm) && !IsBlank(f.longTerm) && !IsBlank(f.targetRole)
  }

  /** Whether `validateForm` flags a field: only the three text goals are checked. */
  predicate Fails(f: FormData, g: Field) {
    match g
    case ShortTerm => IsBlank(f.shortTerm)
    case LongTerm => IsBlank(f.longTerm)
    case TargetRole => IsBlank(f.targetRole)
    case _ => false
  }

  function Message(g: Field): string {
    match g
    case ShortTerm => "Short-term goal is required"
    case LongTerm => "Long-term goal is required"
    case TargetRole => "Target role is required"
    case _ => ""
  }

  /** The error map `validateForm` builds, one check after the other. */
  function Errors(f: FormData): map<Field, string> {
    var e0: map<Field, string> := map[];
    var e1 := if Fails(f, ShortTerm) then e0[ShortTerm := Message(ShortTerm)] else e0;
    var e2 := if Fails(f, LongTerm) then e1[LongTerm := Message(LongTerm)] else e1;
    if Fails(f, TargetRole) then e2[TargetRole := Message(TargetRole)] else e2
  }

  /** The error map holds a shown message for exactly the flagged fields; it is empty iff the form is valid. */
  lemma ErrorsFlagExactly(f: FormData)
    ensures forall g :: g in Errors(f) <==> Fails(f, g)
    ensures forall g | g in Errors(f) :: Errors(f)[g] == Message(g) && HasError(Errors(f), g)
    ensures Errors(f) == map[] <==> IsValid(f)
  {
    var e := Errors(f);
    forall g ensures g in e <==> Fails(f, g) {
      match g
      case ShortTerm =>
      case LongTerm =>
      case TargetRole =>
      case _ =>
    }
    forall g | g in e ensures e[g] == Message(g) && HasError(e, g) {
      match g
      case ShortTerm =>
      case LongTerm =>
      case TargetRole =>
      case _ =>
    }
    assert IsValid(f) <==> !Fails(f, ShortTerm) && !Fails(f, LongTerm) && !Fails(f, TargetRole);
    if !IsValid(f) {
      if Fails(f, ShortTerm) { assert ShortTerm in e; }
      else if Fails(f, LongTerm) { assert LongTerm in e; }
      else { assert TargetRole in e; }
    }
  }

  /** The `goals` fragment: the whole form. */
  function ToFragment(f: FormData): (frag: Fragment)
    ensures OnboardingFlow.FromStepForm(6, frag)
    ensures frag.fields[GoalsKey].goals == f
  {
    FragmentOf(map[GoalsKey := GoalsValue(f)])
  }

  /** Coming back to step 6 shows the submitted form again (the slider never yields 0). */
  lemma PrefillAfterSubmit(data: OnboardingData, f: FormData, step: int)
    requires f.jobSatisfaction != 0
    ensures Prefill(OnboardingFlow.Merge(data, ToFragment(f), step)) == f
  {
    var merged := OnboardingFlow.Merge(data, ToFragment(f), step);
    assert Stored(merged) == Some(f);
  }

  // ---------------------------------------------------------------------------
  // Satisfaction emoji

  /** The band of a satisfaction value: at most 3, 5, 7, 9, or above. */
  function SatisfactionBand(value: int): (b: nat)
    ensures b <= 4
    ensures b == 0 <==> value <= 3
    ensures b == 4 <==> value > 9
    ensures 0 < b < 4 ==> 2 * b + 1 < value <= 2 * b + 3
  {
    if value <= 3 then 0
    else if value <= 5 then 1
    else if value <= 7 then 2
    else if value <= 9 then 3
    else 4
  }

  /** `getSatisfactionEmoji`. */
  function SatisfactionEmoji(value: int): string {
    if value <= 3 then "\U{1F61E}"
    else if value <= 5 then "\U{1F610}"
    else if value <= 7 then "\U{1F642}"
    else if value <= 9 then "\U{1F60A}"
    else "\U{1F929}"
  }

  /** Each band has its own emoji: two values show the same emoji exactly when they fall in the same band. */
  lemma EmojiPerBand(a: int, b: int)
    ensures SatisfactionEmoji(a) == SatisfactionEmoji(b) <==> SatisfactionBand(a) == SatisfactionBand(b)
  {
  }

  // ---------------------------------------------------------------------------
  // The looking-to-switch radio: a boolean shown as a string

  /** `value.toString()`. */
  function BoolToString(b: bool): string {
    if b then "true" else "false"
  }

  /** `value === 'true'`. */
  function ParseSwitch(s: string): (b: bool)
    ensures b <==> s == "true"
  {
    s == "true"
  }

  /** A boolean shown by the radio and read back is the same boolean; only "true" reads as true. */
  lemma SwitchRoundTrip(b: bool)
    ensures ParseSwitch(BoolToString(b)) == b
    ensures BoolToString(ParseSwitch(BoolToString(b))) == BoolToString(b)
  {
  }

  class Step6Form {
    var formData: FormData
    var errors: map<Field, string>

    constructor (data: OnboardingData)
      ensures formData == Prefill(data) && errors == map[]
    {
      formData := Prefill(data);
      errors := map[];
    }

    /** `handleInputChange`: sets the field and blanks its error if it showed one. */
    method HandleInputChange(e: Edit)
      modifies this
      ensures formData == Apply(old(formData), e)
      ensures errors == ClearError(old(errors), e.Target())
    {
      formData := Apply(formData, e);
      if HasError(errors, e.Target()) {
        errors := errors[e.Target() := ""];
      }
    }

    /** The yes/no radio: the chosen radio's value string is parsed back into the flag. */
    method HandleSwitchChange(value: string)
      modifies this
      ensures formData == Apply(old(formData), SetLookingToSwitch(value == "true"))
      ensures errors == ClearError(old(errors), LookingToSwitch)
    {
      HandleInputChange(SetLookingToSwitch(ParseSwitch(value)));
    }

    /** `validateForm`: replaces the error map wholesale and reports whether it is empty. */
    method ValidateForm() returns (ok: bool)
      modifies this
      ensures formData == old(formData)
      ensures errors == Errors(formData)
      ensures ok <==> IsValid(formData)
    {
      var newErrors: map<Field, string> := map[];
      if Fails(formData, ShortTerm) {
        newErrors := newErrors[ShortTerm := "Short-term goal is required"];
      }
      if Fails(formData, LongTerm) {
        newErrors := newErrors[LongTerm := "Long-term goal is required"];
      }
      if Fails(formData, TargetRole) {
        newErrors := newErrors[TargetRole := "Target role is required"];
      }
      errors := newErrors;
      ok := |newErrors| == 0;
      assert ok <==> newErrors == map[];
      ErrorsFlagExactly(formData);
    }

    /** `handleNext`: returns the fragment passed to `onNext`, which is only called on a valid form. */
    method HandleNext() returns (submitted: Option<Fragment>)
      modifies this
      ensures formData == old(formData)
      ensures errors == Errors(formData)
      ensures submitted == if IsValid(formData) then Some(ToFragment(formData)) else None
    {
      var ok := ValidateForm();
      if ok {
        submitted := Some(ToFragment(formData));
      } else {
        submitted := None;
      }
    }
  }
}

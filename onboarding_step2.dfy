/**
 * Step 2 of the wizard, domain expertise: a specialization, a skill level
 * on a 1-10 slider, the technologies used and the biggest challenge.
 */
module OnboardingStep2 {
  import opened Wrappers
  import opened Strings
  import opened Schema
  import opened FormErrors
  import OnboardingFlow

  datatype Field = Domain | SkillLevel | Technologies | Challenge

  /** The form's state has the shape of the `domainExpertise` fragment. */
  type FormData = DomainExpertise

  /** One `handleInputChange(field, value)` call, the value typed by its field. */
  datatype Edit =
    | SetDomain(domain: string)
    | SetSkillLevel(level: int)
    | SetTechnologies(technologies: seq<string>)
    | SetChallenge(challenge: string)
  {
    function Target(): Field {
      match this
      case SetDomain(_) => Domain
      case SetSkillLevel(_) => SkillLevel
      case SetTechnologies(_) => Technologies
      case SetChallenge(_) => Challenge
    }
  }

  /** The two forms hold the same value in field `g`. */
  predicate SameField(a: FormData, b: FormData, g: Field) {
    match g
    case Domain => a.domain == b.domain
    case SkillLevel => a.skillLevel == b.skillLevel
    case Technologies => a.technologies == b.technologies
    case Challenge => a.challenge == b.challenge
  }

  /** The form holds the edit's value in the edit's field. */
  predicate Shows(f: FormData, e: Edit) {
    match e
    case SetDomain(v) => f.domain == v
    case SetSkillLevel(v) => f.skillLevel == v
    case SetTechnologies(v) => f.technologies == v
    case SetChallenge(v) => f.challenge == v
  }

  /** `{ ...prev, [field]: value }`: the edited field changes, the others do not. */
  function Apply(f: FormData, e: Edit): (r: FormData)
    ensures Shows(r, e)
    ensures forall g | g != e.Target() :: SameField(r, f, g)
  {
    match e
    case SetDomain(v) => f.(domain := v)
    case SetSkillLevel(v) => f.(skillLevel := v)
    case SetTechnologies(v) => f.(technologies := v)
    case SetChallenge(v) => f.(challenge := v)
  }

  function Stored(data: OnboardingData): Option<DomainExpertise> {
    if DomainExpertiseKey in data.fields && data.fields[DomainExpertiseKey].DomainExpertiseValue?
    then Some(data.fields[DomainExpertiseKey].domainExpertise)
    else None
  }

  /**
   * The initial form: strings fall back to "", a skill level of 0 (falsy)
   * to 5; a stored technology list is kept even when empty.
   */
  function Prefill(data: OnboardingData): (f: FormData)
    ensures Stored(data).None? ==> f == DomainExpertise("", 5, [], "")
    ensures Stored(data).Some? ==>
              var d := Stored(data).value;
              f.domain == d.domain && f.technologies == d.technologies && f.challenge == d.challenge
              && (d.skillLevel != 0 ==> f.skillLevel == d.skillLevel) && (d.skillLevel == 0 ==> f.skillLevel == 5)
  {
    match Stored(data)
    case None => DomainExpertise("", 5, [], "")
    case Some(d) => DomainExpertise(d.domain, if d.skillLevel == 0 then 5 else d.skillLevel,
                                    d.technologies, d.challenge)
  }

  predicate IsValid(f: FormData) {
    !IsBlank(f.domain) && |f.technologies| != 0 && !IsBlank(f.challenge)
  }

  /** Whether `validateForm` flags a field; the skill level is never checked. */
  predicate Fails(f: FormData, g: Field) {
    match g
    case Domain => IsBlank(f.domain)
    case SkillLevel => false
    case Technologies => |f.technologies| == 0
    case Challenge => IsBlank(f.challenge)
  }

  /** The message of each checked field (the skill level has none). */
  function Message(g: Field): string {
    match g
    case Domain => "Domain specialization is required"
    case SkillLevel => ""
    case Technologies => "Please select at least one technology"
    case Challenge => "Please describe your biggest challenge"
  }

  /** The error map `validateForm` builds, one check after the other. */
  function Errors(f: FormData): map<Field, string> {
    var e0: map<Field, string> := map[];
    var e1 := if Fails(f, Domain) then e0[Domain := Message(Domain)] else e0;
    var e2 := if Fails(f, Technologies) then e1[Technologies := Message(Technologies)] else e1;
    if Fails(f, Challenge) then e2[Challenge := Message(Challenge)] else e2
  }

  /** The error map holds a shown message for exactly the flagged fields; it is empty iff the form is valid. */
  lemma ErrorsFlagExactly(f: FormData)
    ensures forall g :: g in Errors(f) <==> Fails(f, g)
    ensures forall g | g in Errors(f) :: Errors(f)[g] == Message(g) && HasError(Errors(f), g)
    ensures Errors(f) == map[] <==> IsValid(f)
  {
    var e := Errors(f);
    forall g ensures g in e <==> Fails(f, g) {
      match g
      case Domain =>
      case SkillLevel =>
      case Technologies =>
      case Challenge =>
    }
    forall g | g in e ensures e[g] == Message(g) && HasError(e, g) {
      match g
      case Domain =>
      case SkillLevel =>
      case Technologies =>
      case Challenge =>
    }
    assert IsValid(f) <==> !Fails(f, Domain) && !Fails(f, Technologies) && !Fails(f, Challenge);
    if !IsValid(f) {
      if Fails(f, Domain) { assert Domain in e; }
      else if Fails(f, Technologies) { assert Technologies in e; }
      else { assert Challenge in e; }
    }
  }

  /** The `domainExpertise` fragment: the whole form. */
  function ToFragment(f: FormData): (frag: Fragment)
    ensures OnboardingFlow.FromStepForm(2, frag)
    ensures frag.step.None?
    ensures frag.fields[DomainExpertiseKey].domainExpertise == f
  {
    FragmentOf(map[DomainExpertiseKey := DomainExpertiseValue(f)])
  }

  /** Coming back to step 2 shows the submitted form again (the slider never yields 0). */
  lemma PrefillAfterSubmit(data: OnboardingData, f: FormData, step: int)
    requires f.skillLevel != 0
    ensures Prefill(OnboardingFlow.Merge(data, ToFragment(f), step)) == f
  {
    var merged := OnboardingFlow.Merge(data, ToFragment(f), step);
    assert Stored(merged) == Some(f);
  }

  // ---------------------------------------------------------------------------
  // Skill level label and colour

  /** `getSkillLevelLabel`. */
  function SkillLevelLabel(value: int): (r: string)
    ensures r == "Beginner" <==> value <= 2
    ensures r == "Intermediate" <==> 2 < value <= 5
    ensures r == "Advanced" <==> 5 < value <= 8
    ensures r == "Expert" <==> 8 < value
  {
    if value <= 2 then "Beginner"
    else if value <= 5 then "Intermediate"
    else if value <= 8 then "Advanced"
    else "Expert"
  }

  /** `getSkillLevelColor`. */
  function SkillLevelColor(value: int): string {
    if value <= 2 then "#ef4444"
    else if value <= 5 then "#f59e0b"
    else if value <= 8 then "#3b82f6"
    else "#10b981"
  }

  /** Label and colour use the same thresholds: two levels share a label exactly when they share a colour. */
  lemma LabelAndColorChangeTogether(a: int, b: int)
    ensures SkillLevelLabel(a) == SkillLevelLabel(b) <==> SkillLevelColor(a) == SkillLevelColor(b)
  {
  }

  class Step2Form {
    var formData: FormData
    var errors: map<Field, string>

    constructor (data: OnboardingData)
      ensures formData == Prefill(data) && errors == map[]
    {
      formData := Prefill(data);
      errors := map[];
    }

    /** `handleInputChange`: sets the field and blanks its error if it showed one. */
    method HandleInputChange(e: Edit)
      modifies this
      ensures formData == Apply(old(formData), e)
      ensures errors == ClearError(old(errors), e.Target())
    {
      formData := Apply(formData, e);
      if HasError(errors, e.Target()) {
        errors := errors[e.Target() := ""];
      }
    }

    /** `validateForm`: replaces the error map wholesale and reports whether it is empty. */
    method ValidateForm() returns (ok: bool)
      modifies this
      ensures formData == old(formData)
      ensures errors == Errors(formData)
      ensures ok <==> IsValid(formData)
    {
      var newErrors: map<Field, string> := map[];
      if Fails(formData, Domain) {
        newErrors := newErrors[Domain := "Domain specialization is required"];
      }
      if Fails(formData, Technologies) {
        newErrors := newErrors[Technologies := "Please select at least one technology"];
      }
      if Fails(formData, Challenge) {
        newErrors := newErrors[Challenge := "Please describe your biggest challenge"];
      }
      errors := newErrors;
      ok := |newErrors| == 0;
      assert ok <==> newErrors == map[];
      ErrorsFlagExactly(formData);
    }

    /** `handleNext`: returns the fragment passed to `onNext`, which is only called on a valid form. */
    method HandleNext() returns (submitted: Option<Fragment>)
      modifies this
      ensures formData == old(formData)
      ensures errors == Errors(formData)
      ensures submitted == if IsValid(formData) then Some(ToFragment(formData)) else None
    {
      var ok := ValidateForm();
      if ok {
        submitted := Some(ToFragment(formData));
      } else {
        submitted := None;
      }
    }
  }
}

/**
 * Step 1 of the wizard, professional information: job title, company,
 * industry, experience level and an optional salary range.
 */
module OnboardingStep1 {
  import opened Wrappers
  import opened Strings
  import opened Schema
  import opened FormErrors
  import OnboardingFlow

  datatype Field = JobTitle | Company | Industry | Experience | SalaryRange

  /** The form's state; the three selects hold "" until something is chosen. */
  datatype FormData = FormData(
    jobTitle: string,
    company: string,
    industry: string,
    experience: string,
    salaryRange: string)

  function Get(f: FormData, field: Field): string {
    match field
    case JobTitle => f.jobTitle
    case Company => f.company
    case Industry => f.industry
    case Experience => f.experience
    case SalaryRange => f.salaryRange
  }

  /** `{ ...prev, [field]: value }`: the named field takes the value, the others keep theirs. */
  function Set(f: FormData, field: Field, value: string): (r: FormData)
    ensures Get(r, field) == value
    ensures forall g | g != field :: Get(r, g) == Get(f, g)
  {
    match field
    case JobTitle => f.(jobTitle := value)
    case Company => f.(company := value)
    case Industry => f.(industry := value)
    case Experience => f.(experience := value)
    case SalaryRange => f.(salaryRange := value)
  }

  /** The professional information already in the record, if any. */
  function Stored(data: OnboardingData): Option<ProfessionalInfo> {
    if ProfessionalInfoKey in data.fields && data.fields[ProfessionalInfoKey].ProfessionalInfoValue?
    then Some(data.fields[ProfessionalInfoKey].professionalInfo)
    else None
  }

  /** The initial form: each field from the record, falling back to "". */
  function Prefill(data: OnboardingData): (f: FormData)
    ensures Stored(data).None? ==> f == FormData("", "", "", "", "")
    ensures Stored(data).Some? ==>
              var p := Stored(data).value;
              f.jobTitle == p.jobTitle && f.company == p.company
              && f.industry == p.industry && f.experience == p.experience
              && (p.salaryRange.Some? ==> f.salaryRange == p.salaryRange.value)
              && (p.salaryRange.None? ==> f.salaryRange == "")
  {
    match Stored(data)
    case None => FormData("", "", "", "", "")
    case Some(p) => FormData(p.jobTitle, p.company, p.industry, p.experience, p.salaryRange.GetOr(""))
  }

  /** Whether the form may advance. */
  predicate IsValid(f: FormData) {
    !IsBlank(f.jobTitle) && !IsBlank(f.company) && f.industry != "" && f.experience != ""
  }

  /**
   * Whether `validateForm` flags a field: job title and company when blank
   * after trimming, industry and experience when empty, the salary range never.
   */
  predicate Fails(f: FormData, g: Field) {
    match g
    case JobTitle => IsBlank(f.jobTitle)
    case Company => IsBlank(f.company)
    case Industry => f.industry == ""
    case Experience => f.experience == ""
    case SalaryRange => false
  }

  function Message(g: Field): string {
    match g
    case JobTitle => "Job title is required"
    case Company => "Company is required"
    case Industry => "Industry is required"
    case Experience => "Experience level is required"
    case SalaryRange => ""
  }

  /** The error map `validateForm` builds, one check after the other. */
  function Errors(f: FormData): map<Field, string> {
    var e0: map<Field, string> := map[];
    var e1 := if Fails(f, JobTitle) then e0[JobTitle := Message(JobTitle)] else e0;
    var e2 := if Fails(f, Company) then e1[Company := Message(Company)] else e1;
    var e3 := if Fails(f, Industry) then e2[Industry := Message(Industry)] else e2;
    if Fails(f, Experience) then e3[Experience := Message(Experience)] else e3
  }

  /**
   * The error map holds a shown message for exactly the flagged fields, so
   * it is empty exactly when the form is valid.
   */
  lemma ErrorsFlagExactly(f: FormData)
    ensures forall g :: g in Errors(f) <==> Fails(f, g)
    ensures forall g | g in Errors(f) :: Errors(f)[g] == Message(g) && HasError(Errors(f), g)
    ensures Errors(f) == map[] <==> IsValid(f)
  {
    var e := Errors(f);
    forall g ensures g in e <==> Fails(f, g) {
      match g
      case JobTitle =>
      case Company =>
      case Industry =>
      case Experience =>
      case SalaryRange =>
    }
    forall g | g in e ensures e[g] == Message(g) && HasError(e, g) {
      match g
      case JobTitle =>
      case Company =>
      case Industry =>
      case Experience =>
      case SalaryRange =>
    }
    if !IsValid(f) {
      if Fails(f, JobTitle) { assert JobTitle in e; }
      else if Fails(f, Company) { assert Company in e; }
      else if Fails(f, Industry) { assert Industry in e; }
      else { assert Experience in e; }
    }
  }

  /** The `professionalInfo` fragment; an empty salary range becomes `undefined`. */
  function ToFragment(f: FormData): (frag: Fragment)
    ensures OnboardingFlow.FromStepForm(1, frag)
    ensures frag.step.None?
    ensures var info := frag.fields[ProfessionalInfoKey].professionalInfo;
            info.jobTitle == f.jobTitle && info.company == f.company
            && info.industry == f.industry && info.experience == f.experience
    ensures var salary := frag.fields[ProfessionalInfoKey].professionalInfo.salaryRange;
            (salary.None? <==> f.salaryRange == "") && (salary.Some? ==> salary.value == f.salaryRange)
  {
    var salary := if f.salaryRange == "" then None else Some(f.salaryRange);
    FragmentOf(map[ProfessionalInfoKey := ProfessionalInfoValue(
      ProfessionalInfo(f.jobTitle, f.company, f.industry, f.experience, salary))])
  }

  /** Coming back to step 1 after submitting it shows the form exactly as it was submitted. */
  lemma PrefillAfterSubmit(data: OnboardingData, f: FormData, step: int)
    ensures Prefill(OnboardingFlow.Merge(data, ToFragment(f), step)) == f
  {
    var merged := OnboardingFlow.Merge(data, ToFragment(f), step);
    assert Stored(merged).Some?;
  }

  class Step1Form {
    var formData: FormData
    var errors: map<Field, string>

    constructor (data: OnboardingData)
      ensures formData == Prefill(data) && errors == map[]
    {
      formData := Prefill(data);
      errors := map[];
    }

    /** `handleInputChange`: sets the field and blanks its error if it showed one. */
    method HandleInputChange(field: Field, value: string)
      modifies this
      ensures formData == Set(old(formData), field, value)
      ensures errors == ClearError(old(errors), field)
    {
      formData := Set(formData, field, value);
      if HasError(errors, field) {
        errors := errors[field := ""];
      }
    }

    /** `validateForm`: replaces the error map wholesale and reports whether it is empty. */
    method ValidateForm() returns (ok: bool)
      modifies this
      ensures formData == old(formData)
      ensures errors == Errors(formData)
      ensures ok <==> IsValid(formData)
    {
      var newErrors: map<Field, string> := map[];
      if Fails(formData, JobTitle) {
        newErrors := newErrors[JobTitle := "Job title is required"];
      }
      if Fails(formData, Company) {
        newErrors := newErrors[Company := "Company is required"];
      }
      if Fails(formData, Industry) {
        newErrors := newErrors[Industry := "Industry is required"];
      }
      if Fails(formData, Experience) {
        newErrors := newErrors[Experience := "Experience level is required"];
      }
      errors := newErrors;
      ok := |newErrors| == 0;
      assert ok <==> newErrors == map[];
      ErrorsFlagExactly(formData);
    }

    /** `handleNext`: returns the fragment passed to `onNext`, which is only called on a valid form. */
    method HandleNext() returns (submitted: Option<Fragment>)
      modifies this
      ensures formData == old(formData)
      ensures errors == Errors(formData)
      ensures submitted == if IsValid(formData) then Some(ToFragment(formData)) else None
    {
      var ok := ValidateForm();
      if ok {
        submitted := Some(ToFragment(formData));
      } else {
        submitted := None;
      }
    }
  }
}

/**
 * Step 5 of the wizard, notification preferences: a checkbox per
 * notification type, a snooze duration radio and a reminder count radio.
 * The step has no validation.
 */
module OnboardingStep5 {
  import opened Wrappers
  import opened Lists
  import opened Schema
  import OnboardingFlow

  /** The form's state has the shape of the `notifications` fragment. */
  type FormData = NotificationSettings

  /** The three checkboxes, in order. */
  const NotificationTypes: seq<string> := ["Push notifications", "Email", "SMS"]

  const SnoozeOptions: seq<string> := ["30 minutes", "1 hour", "2 hours"]

  const ReminderOptions: seq<string> := ["Just once", "2 attempts", "3 attempts"]

  /** A type's checkbox is ticked when the list includes it. */
  predicate IsChecked(f: FormData, t: string) {
    t in f.types
  }

  /**
   * `handleTypeChange`: ticking appends the type at the end; unticking
   * removes every occurrence and keeps the rest in order. The other two
   * fields are untouched either way.
   */
  function TypeChange(f: FormData, t: string, checked: bool): (r: FormData)
    ensures r.snoozeDuration == f.snoozeDuration && r.maxReminders == f.maxReminders
    ensures checked ==> |r.types| == |f.types| + 1 && r.types[..|f.types|] == f.types
                        && r.types[|f.types|] == t
    ensures !checked ==> !IsChecked(r, t) && multiset(r.types) == multiset(f.types)[t := 0]
  {
    f.(types := CheckboxChange(f.types, t, checked))
  }

  /**
   * Clicking a box that was unticked and then clicking it again gives back
   * the very same list; clicking a ticked box twice leaves it ticked.
   */
  lemma ClickTwice(f: FormData, t: string)
    ensures !IsChecked(f, t) ==> TypeChange(TypeChange(f, t, true), t, false) == f
    ensures IsChecked(f, t) ==> IsChecked(TypeChange(TypeChange(f, t, false), t, true), t)
  {
    CheckboxTwice(f.types, t);
  }

  function Stored(data: OnboardingData): Option<NotificationSettings> {
    if NotificationsKey in data.fields && data.fields[NotificationsKey].NotificationsValue?
    then Some(data.fields[NotificationsKey].notifications)
    else None
  }

  /**
   * The initial form: the stored type list even when empty, or push
   * notifications alone; the radios fall back to "1 hour" and "2 attempts"
   * when missing or "".
   */
  function Prefill(data: OnboardingData): (f: FormData)
    ensures Stored(data).None? ==> f == NotificationSettings(["Push notifications"], "1 hour", "2 attempts")
    ensures Stored(data).Some? ==> f.types == Stored(data).value.types
    ensures f.snoozeDuration != "" && f.maxReminders != ""
  {
    match Stored(data)
    case None => NotificationSettings(["Push notifications"], "1 hour", "2 attempts")
    case Some(n) =>
      NotificationSettings(n.types,
                           if n.snoozeDuration == "" then "1 hour" else n.snoozeDuration,
                           if n.maxReminders == "" then "2 attempts" else n.maxReminders)
  }

  /** The `notifications` fragment: the whole form, even with no type ticked. */
  function ToFragment(f: FormData): (frag: Fragment)
    ensures OnboardingFlow.FromStepForm(5, frag)
    ensures frag.fields[NotificationsKey].notifications == f
  {
    FragmentOf(map[NotificationsKey := NotificationsValue(f)])
  }

  /** Coming back to step 5 after choosing both radios shows the submitted form again. */
  lemma PrefillAfterSubmit(data: OnboardingData, f: FormData, step: int)
    requires f.snoozeDuration in SnoozeOptions && f.maxReminders in ReminderOptions
    ensures Prefill(OnboardingFlow.Merge(data, ToFragment(f), step)) == f
  {
    var merged := OnboardingFlow.Merge(data, ToFragment(f), step);
    assert Stored(merged) == Some(f);
  }

  class Step5Form {
    var formData: FormData

    constructor (data: OnboardingData)
      ensures formData == Prefill(data)
    {
      formData := Prefill(data);
    }

    /** `handleTypeChange`. */
    method HandleTypeChange(t: string, checked: bool)
      modifies this
      ensures formData == TypeChange(old(formData), t, checked)
    {
      if checked {
        formData := formData.(types := formData.types + [t]);
      } else {
        formData := formData.(types := RemoveAll(formData.types, t));
      }
    }

    /** The snooze duration radio. */
    method SetSnoozeDuration(value: string)
      modifies this
      ensures formData == old(formData).(snoozeDuration := value)
    {
      formData := formData.(snoozeDuration := value);
    }

    /** The reminder count radio. */
    method SetMaxReminders(value: string)
      modifies this
      ensures formData == old(formData).(maxReminders := value)
    {
      formData := formData.(maxReminders := value);
    }

    /** `handleNext`: always calls `onNext`, even when no type is ticked. */
    method HandleNext() returns (submitted: Fragment)
      ensures submitted == ToFragment(formData)
      ensures OnboardingFlow.FromStepForm(5, submitted)
    {
      submitted := ToFragment(formData);
    }
  }
}

/**
 * Step 4 of the wizard, the learning schedule: three time slots (morning,
 * afternoon, evening), each with an enabled flag and three times, and a
 * timezone select. The step has no validation.
 */
module OnboardingStep4 {
  import opened Wrappers
  import opened Strings
  import opened Schema
  import OnboardingFlow

  /** `keyof Schedule`. */
  datatype Slot = MorningSlot | AfternoonSlot | EveningSlot

  /** `keyof TimeSlotConfig`. */
  datatype SlotField = Enabled | StartTime | EndTime | PreferredTime

  /** One `handleTimeSlotChange(slot, field, value)` value, typed by its field. */
  datatype SlotEdit =
    | SetEnabled(enabled: bool)
    | SetStartTime(startTime: string)
    | SetEndTime(endTime: string)
    | SetPreferredTime(preferredTime: string)
  {
    function Target(): SlotField {
      match this
      case SetEnabled(_) => Enabled
      case SetStartTime(_) => StartTime
      case SetEndTime(_) => EndTime
      case SetPreferredTime(_) => PreferredTime
    }
  }

  function SlotOf(s: Schedule, slot: Slot): TimeSlotConfig {
    match slot
    case MorningSlot => s.morning
    case AfternoonSlot => s.afternoon
    case EveningSlot => s.evening
  }

  predicate SameSlotField(a: TimeSlotConfig, b: TimeSlotConfig, g: SlotField) {
    match g
    case Enabled => a.enabled == b.enabled
    case StartTime => a.startTime == b.startTime
    case EndTime => a.endTime == b.endTime
    case PreferredTime => a.preferredTime == b.preferredTime
  }

  predicate Shows(c: TimeSlotConfig, e: SlotEdit) {
    match e
    case SetEnabled(v) => c.enabled == v
    case SetStartTime(v) => c.startTime == v
    case SetEndTime(v) => c.endTime == v
    case SetPreferredTime(v) => c.preferredTime == v
  }

  /** `{ ...prev[slot], [field]: value }`. */
  function EditConfig(c: TimeSlotConfig, e: SlotEdit): (r: TimeSlotConfig)
    ensures Shows(r, e)
    ensures forall g | g != e.Target() :: SameSlotField(r, c, g)
  {
    match e
    case SetEnabled(v) => c.(enabled := v)
    case SetStartTime(v) => c.(startTime := v)
    case SetEndTime(v) => c.(endTime := v)
    case SetPreferredTime(v) => c.(preferredTime := v)
  }

  /**
   * `handleTimeSlotChange`: one field of one slot takes the value; every
   * other slot, and every other field of that slot, is unchanged.
   */
  function UpdateSlot(s: Schedule, slot: Slot, e: SlotEdit): (r: Schedule)
    ensures Shows(SlotOf(r, slot), e)
    ensures forall g | g != e.Target() :: SameSlotField(SlotOf(r, slot), SlotOf(s, slot), g)
    ensures forall other | other != slot :: SlotOf(r, other) == SlotOf(s, other)
  {
    match slot
    case MorningSlot => s.(morning := EditConfig(s.morning, e))
    case AfternoonSlot => s.(afternoon := EditConfig(s.afternoon, e))
    case EveningSlot => s.(evening := EditConfig(s.evening, e))
  }

  /** The time inputs of a slot are rendered only while the slot is enabled. */
  predicate ShowsTimeFields(c: TimeSlotConfig) {
    c.enabled
  }

  /**
   * Unticking a slot only hides its times: ticking it again brings back
   * the same start, end and preferred times, and the schedule is as before.
   */
  lemma DisableThenEnableRestores(s: Schedule, slot: Slot)
    requires SlotOf(s, slot).enabled
    ensures !ShowsTimeFields(SlotOf(UpdateSlot(s, slot, SetEnabled(false)), slot))
    ensures UpdateSlot(UpdateSlot(s, slot, SetEnabled(false)), slot, SetEnabled(true)) == s
  {
  }

  const DefaultSchedule: Schedule := Schedule(
    TimeSlotConfig(true, "08:00", "10:00", "08:30"),
    TimeSlotConfig(true, "13:00", "15:00", "14:00"),
    TimeSlotConfig(true, "18:00", "20:00", "19:30"))

  const DefaultTimezone: string := "America/New_York"

  /** The options of the timezone select. */
  const Timezones: seq<string> := [
    "America/New_York", "America/Chicago", "America/Denver", "America/Los_Angeles",
    "Europe/London", "Europe/Paris", "Europe/Berlin",
    "Asia/Tokyo", "Asia/Shanghai", "Asia/Kolkata", "Australia/Sydney"]

  function StoredSchedule(data: OnboardingData): Option<Schedule> {
    if ScheduleKey in data.fields && data.fields[ScheduleKey].ScheduleValue?
    then Some(data.fields[ScheduleKey].schedule)
    else None
  }

  function StoredTimezone(data: OnboardingData): Option<string> {
    if TimezoneKey in data.fields && data.fields[TimezoneKey].TimezoneValue?
    then Some(data.fields[TimezoneKey].timezone)
    else None
  }

  /**
   * The initial state: the stored schedule or the default one (all slots
   * enabled), and the stored timezone unless missing or "", else New York.
   */
  function Prefill(data: OnboardingData): (r: (Schedule, string))
    ensures StoredSchedule(data).None? ==> r.0 == DefaultSchedule
    ensures StoredSchedule(data).None? ==>
              forall slot :: ShowsTimeFields(SlotOf(r.0, slot))
    ensures StoredSchedule(data).Some? ==> r.0 == StoredSchedule(data).value
    ensures r.1 != ""
    ensures StoredTimezone(data).None? ==> r.1 == DefaultTimezone
  {
    var schedule := match StoredSchedule(data) case Some(s) => s case None => DefaultSchedule;
    var timezone := match StoredTimezone(data)
      case Some(tz) => if tz == "" then DefaultTimezone else tz
      case None => DefaultTimezone;
    (schedule, timezone)
  }

  /** The fragment: the schedule and the timezone, with no validation. */
  function ToFragment(schedule: Schedule, timezone: string): (frag: Fragment)
    ensures OnboardingFlow.FromStepForm(4, frag)
    ensures frag.fields.Keys == {ScheduleKey, TimezoneKey}
  {
    FragmentOf(map[ScheduleKey := ScheduleValue(schedule), TimezoneKey := TimezoneValue(timezone)])
  }

  /** Coming back to step 4 shows the submitted schedule and timezone again. */
  lemma PrefillAfterSubmit(data: OnboardingData, schedule: Schedule, timezone: string, step: int)
    requires timezone != ""
    ensures Prefill(OnboardingFlow.Merge(data, ToFragment(schedule, timezone), step)) == (schedule, timezone)
  {
    var merged := OnboardingFlow.Merge(data, ToFragment(schedule, timezone), step);
    assert StoredSchedule(merged) == Some(schedule);
    assert StoredTimezone(merged) == Some(timezone);
  }

  /** The menu label of a timezone: `tz.replace('_', ' ')`, which replaces the first underscore only. */
  function TimezoneLabel(tz: string): string {
    ReplaceFirst(tz, '_', ' ')
  }

  /**
   * The label has one underscore fewer than the timezone when it has any,
   * and equals it otherwise; only the first underscore becomes a space.
   */
  lemma TimezoneLabelReplacesFirstOnly(tz: string)
    ensures '_' !in tz ==> TimezoneLabel(tz) == tz
    ensures '_' in tz ==> CountChar(TimezoneLabel(tz), '_') == CountChar(tz, '_') - 1
    ensures '_' in tz ==> TimezoneLabel(tz)[IndexOf(tz, '_')] == ' '
  {
    ReplaceFirstSpec(tz, '_', ' ');
  }

  class Step4Form {
    var schedule: Schedule
    var timezone: string

    constructor (data: OnboardingData)
      ensures (schedule, timezone) == Prefill(data)
    {
      var p := Prefill(data);
      schedule := p.0;
      timezone := p.1;
    }

    /** `handleTimeSlotChange`. */
    method HandleTimeSlotChange(slot: Slot, e: SlotEdit)
      modifies this
      ensures schedule == UpdateSlot(old(schedule), slot, e)
      ensures timezone == old(timezone)
    {
      schedule := UpdateSlot(schedule, slot, e);
    }

    /** The timezone select's `setTimezone`. */
    method SetTimezone(tz: string)
      modifies this
      ensures timezone == tz && schedule == old(schedule)
    {
      timezone := tz;
    }

    /** `handleNext`: always calls `onNext` with the schedule and the timezone. */
    method HandleNext() returns (submitted: Fragment)
      ensures OnboardingFlow.FromStepForm(4, submitted)
      ensures submitted.fields[ScheduleKey].schedule == schedule
      ensures submitted.fields[TimezoneKey].timezone == timezone
    {
      submitted := ToFragment(schedule, timezone);
    }
  }
}

/**
 * The data records of the application: the onboarding record the wizard
 * accumulates, the content items and sources shown on the dashboard, and
 * the notifications.
 *
 * The step forms keep their select and radio values as plain strings (an
 * unselected select holds ""), and they submit those strings unchanged, so
 * the fragment records below hold strings where the declared types name an
 * enumeration.
 */
module Schema {
  import opened Wrappers
  import opened Enums

  // ---------------------------------------------------------------------------
  // Onboarding fragments, one per wizard step

  datatype ProfessionalInfo = ProfessionalInfo(
    jobTitle: string,
    company: string,
    industry: string,
    experience: string,
    salaryRange: Option<string>)

  datatype DomainExpertise = DomainExpertise(
    domain: string,
    skillLevel: int,
    technologies: seq<string>,
    challenge: string)

  datatype LearningPreferences = LearningPreferences(
    style: string,
    pace: string,
    practicalVsTheoretical: int,
    dailyTime: int)

  datatype TimeSlotConfig = TimeSlotConfig(
    enabled: bool,
    startTime: string,
    endTime: string,
    preferredTime: string)

  datatype Schedule = Schedule(
    morning: TimeSlotConfig,
    afternoon: TimeSlotConfig,
    evening: TimeSlotConfig)

  datatype NotificationSettings = NotificationSettings(
    types: seq<string>,
    snoozeDuration: string,
    maxReminders: string)

  datatype Goals = Goals(
    shortTerm: string,
    longTerm: string,
    targetRole: string,
    targetSalary: string,
    lookingToSwitch: bool,
    jobSatisfaction: int,
    targetSkills: seq<string>)

  datatype SocialIntegration = SocialIntegration(
    connectedAccounts: seq<string>,
    postingFrequency: string,
    contentTypes: seq<string>)

  // ---------------------------------------------------------------------------
  // The onboarding record: a `step` number and a set of optional keys

  /**
   * The optional keys of the onboarding record. `TimezoneKey` is not part
   * of the declared record type, but the schedule step submits it.
   */
  datatype Key =
    | ProfessionalInfoKey
    | DomainExpertiseKey
    | LearningPreferencesKey
    | ScheduleKey
    | NotificationsKey
    | GoalsKey
    | SocialIntegrationKey
    | TimezoneKey

  datatype Value =
    | ProfessionalInfoValue(professionalInfo: ProfessionalInfo)
    | DomainExpertiseValue(domainExpertise: DomainExpertise)
    | LearningPreferencesValue(learningPreferences: LearningPreferences)
    | ScheduleValue(schedule: Schedule)
    | NotificationsValue(notifications: NotificationSettings)
    | GoalsValue(goals: Goals)
    | SocialIntegrationValue(socialIntegration: SocialIntegration)
    | TimezoneValue(timezone: string)

  /** The value stored under a key has the type that key stands for. */
  predicate Fits(k: Key, v: Value) {
    match k
    case ProfessionalInfoKey => v.ProfessionalInfoValue?
    case DomainExpertiseKey => v.DomainExpertiseValue?
    case LearningPreferencesKey => v.LearningPreferencesValue?
    case ScheduleKey => v.ScheduleValue?
    case NotificationsKey => v.NotificationsValue?
    case GoalsKey => v.GoalsValue?
    case SocialIntegrationKey => v.SocialIntegrationValue?
    case TimezoneKey => v.TimezoneValue?
  }

  predicate WellTyped(fields: map<Key, Value>) {
    forall k | k in fields :: Fits(k, fields[k])
  }

  /** The keys the declared onboarding record type lists. */
  const DeclaredKeys: set<Key> :=
    {ProfessionalInfoKey, DomainExpertiseKey, LearningPreferencesKey, ScheduleKey,
     NotificationsKey, GoalsKey, SocialIntegrationKey}

  /** Every key a completed wizard can have stored. */
  const AllKeys: set<Key> := DeclaredKeys + {TimezoneKey}

  /** The accumulated onboarding record. */
  datatype OnboardingData = OnboardingData(step: int, fields: map<Key, Value>)

  /**
   * What a step hands to the wizard: an object whose own keys overwrite the
   * record's. No step form sends a `step` key, but nothing stops one.
   */
  datatype Fragment = Fragment(step: Option<int>, fields: map<Key, Value>)

  /** A fragment carrying only the given keys and no `step`. */
  function FragmentOf(fields: map<Key, Value>): Fragment {
    Fragment(None, fields)
  }

  // ---------------------------------------------------------------------------
  // Content and notifications

  datatype ContentSource = ContentSource(
    title: string,
    author: string,
    publication: string,
    publishedDate: string,
    credibilityScore: int,
    url: string)

  datatype ContentItem = ContentItem(
    id: string,
    timeSlot: TimeSlot,
    scheduledTime: string,
    title: string,
    description: string,
    readingTime: int,
    listeningTime: int,
    status: ContentStatus,
    priority: string,
    sources: seq<ContentSource>,
    tags: seq<string>,
    progress: int)

  datatype Notification = Notification(
    id: string,
    category: NotificationCategory,
    title: string,
    message: string,
    subtitle: string,
    timestamp: string,
    read: bool,
    contentId: Option<string>)
}

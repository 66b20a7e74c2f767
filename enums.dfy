/**
 * The string enumerations of the application. Each value carries the
 * string the enumeration member stands for at run time.
 */
module Enums {

  datatype Industry = Technology | Finance | Healthcare | Marketing | Consulting | Manufacturing | Other
  {
    function Value(): string {
      match this
      case Technology => "Technology"
      case Finance => "Finance"
      case Healthcare => "Healthcare"
      case Marketing => "Marketing"
      case Consulting => "Consulting"
      case Manufacturing => "Manufacturing"
      case Other => "Other"
    }
  }

  /** Years of experience; the values are the ranges without the word "years". */
  datatype ExperienceLevel = Entry | Mid | Senior | Expert
  {
    function Value(): string {
      match this
      case Entry => "0-2"
      case Mid => "3-5"
      case Senior => "6-10"
      case Expert => "10+"
    }
  }

  datatype SalaryRange = Under50k | Range50To75k | Range75To100k | Range100To150k | Over150k
  {
    function Value(): string {
      match this
      case Under50k => "<$50k"
      case Range50To75k => "$50k-$75k"
      case Range75To100k => "$75k-$100k"
      case Range100To150k => "$100k-$150k"
      case Over150k => "$150k+"
    }
  }

  datatype LearningPreference = Reading | Listening | Mixed
  {
    function Value(): string {
      match this
      case Reading => "Reading"
      case Listening => "Listening"
      case Mixed => "Mixed"
    }
  }

  datatype TimeSlot = Morning | Afternoon | Evening
  {
    function Value(): string {
      match this
      case Morning => "Morning"
      case Afternoon => "Afternoon"
      case Evening => "Evening"
    }
  }

  datatype ContentStatus = Pending | Completed | Snoozed | Skipped
  {
    function Value(): string {
      match this
      case Pending => "pending"
      case Completed => "completed"
      case Snoozed => "snoozed"
      case Skipped => "skipped"
    }
  }

  datatype SocialPlatform = LinkedIn | Twitter
  {
    function Value(): string {
      match this
      case LinkedIn => "LinkedIn"
      case Twitter => "X"
    }
  }

  datatype NotificationCategory = ContentReady | SnoozeReminder | Achievement | GoalProgress
  {
    function Value(): string {
      match this
      case ContentReady => "content_ready"
      case SnoozeReminder => "snooze_reminder"
      case Achievement => "achievement"
      case GoalProgress => "goal_progress"
    }
  }

  /** `Object.values(Industry)`, the options of the industry select. */
  const Industries: seq<Industry> :=
    [Technology, Finance, Healthcare, Marketing, Consulting, Manufacturing, Other]

  /** `Object.values(ExperienceLevel)`. */
  const ExperienceLevels: seq<ExperienceLevel> := [Entry, Mid, Senior, Expert]

  /** `Object.values(SalaryRange)`. */
  const SalaryRanges: seq<SalaryRange> :=
    [Under50k, Range50To75k, Range75To100k, Range100To150k, Over150k]
}

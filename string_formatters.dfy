/**
 * The display formatters: enumeration labels, learning durations in hours
 * and minutes, and the small text templates the cards and counters use.
 * Numbers are integers, written as JavaScript template literals write them.
 */
module StringFormatters {
  import opened Wrappers
  import opened Strings
  import opened Enums

  // ---------------------------------------------------------------------------
  // Enumeration labels

  /** `formatTimeSlot`: an emoji and the slot's name. */
  function FormatTimeSlot(t: TimeSlot): string {
    match t
    case Morning => "\U{1F305} Morning"
    case Afternoon => "\U{2600}\U{FE0F} Afternoon"
    case Evening => "\U{1F319} Evening"
  }

  /** `formatContentStatus`: pending content reads "Ready to learn". */
  function FormatContentStatus(s: ContentStatus): string {
    match s
    case Pending => "Ready to learn"
    case Completed => "Completed"
    case Snoozed => "Snoozed"
    case Skipped => "Skipped"
  }

  /** `formatExperienceLevel`. */
  function FormatExperienceLevel(l: ExperienceLevel): string {
    match l
    case Entry => "0-2 years"
    case Mid => "3-5 years"
    case Senior => "6-10 years"
    case Expert => "10+ years"
  }

  /** The experience label is the level's value followed by " years". */
  lemma ExperienceLabelIsValueInYears(l: ExperienceLevel)
    ensures FormatExperienceLevel(l) == l.Value() + " years"
  {
  }

  /** `formatSalaryRange`: the value itself, already written for display. */
  function FormatSalaryRange(r: SalaryRange): (s: string)
    ensures s == r.Value()
  {
    r.Value()
  }

  /** `formatSocialPlatform`: X is spelled out as "X (Twitter)", LinkedIn is left as it is. */
  function FormatSocialPlatform(p: SocialPlatform): (s: string)
    ensures p == Twitter ==> s == "X (Twitter)"
    ensures p != Twitter ==> s == p.Value()
  {
    if p == Twitter then "X (Twitter)" else p.Value()
  }

  /** Every lookup formatter tells its values apart: distinct values get distinct labels. */
  lemma LabelsAreDistinct(t1: TimeSlot, t2: TimeSlot, s1: ContentStatus, s2: ContentStatus,
                          l1: ExperienceLevel, l2: ExperienceLevel, r1: SalaryRange, r2: SalaryRange,
                          p1: SocialPlatform, p2: SocialPlatform)
    ensures t1 != t2 ==> FormatTimeSlot(t1) != FormatTimeSlot(t2)
    ensures s1 != s2 ==> FormatContentStatus(s1) != FormatContentStatus(s2)
    ensures l1 != l2 ==> FormatExperienceLevel(l1) != FormatExperienceLevel(l2)
    ensures r1 != r2 ==> FormatSalaryRange(r1) != FormatSalaryRange(r2)
    ensures p1 != p2 ==> FormatSocialPlatform(p1) != FormatSocialPlatform(p2)
  {
    TimeSlotLabelsDiffer(t1, t2);
    StatusLabelsDiffer(s1, s2);
    ExperienceLabelsDiffer(l1, l2);
    if r1 != r2 {
      assert |r1.Value()| != |r2.Value()|;
    }
  }

  lemma TimeSlotLabelsDiffer(t1: TimeSlot, t2: TimeSlot)
    ensures t1 != t2 ==> FormatTimeSlot(t1) != FormatTimeSlot(t2)
  {
    if t1 != t2 {
      assert FormatTimeSlot(t1)[0] != FormatTimeSlot(t2)[0];
    }
  }

  lemma StatusLabelsDiffer(s1: ContentStatus, s2: ContentStatus)
    ensures s1 != s2 ==> FormatContentStatus(s1) != FormatContentStatus(s2)
  {
    if s1 != s2 {
      assert FormatContentStatus(s1)[1] != FormatContentStatus(s2)[1];
    }
  }

  lemma ExperienceLabelsDiffer(l1: ExperienceLevel, l2: ExperienceLevel)
    ensures l1 != l2 ==> FormatExperienceLevel(l1) != FormatExperienceLevel(l2)
  {
    if l1 != l2 {
      assert FormatExperienceLevel(l1)[0] != FormatExperienceLevel(l2)[0];
    }
  }

  // ---------------------------------------------------------------------------
  // Learning time

  /**
   * `formatLearningTime`: "M min" under an hour; otherwise whole hours and
   * the remaining minutes, "Hh Rm", or "Hh" when no minute remains.
   */
  function FormatLearningTime(minutes: int): (r: string)
    ensures |r| >= 2
  {
    if minutes < 60 then IntToString(minutes) + " min"
    else
      var hours := minutes / 60;
      var remaining := minutes % 60;
      if remaining > 0 then IntToString(hours) + "h " + IntToString(remaining) + "m"
      else IntToString(hours) + "h"
  }

  /** Reads a learning time back: the inverse of `FormatLearningTime`. */
  function ParseLearningTime(s: string): Option<int> {
    var (ok, v, k) := ReadInt(s);
    if !ok then None else ParseUnit(v, s[k..])
  }

  /** What follows the leading number: " min", "h", or "h " and the minutes. */
  function ParseUnit(v: int, rest: string): Option<int> {
    if rest == " min" then (if v < 60 then Some(v) else None)
    else if rest == "h" then (if v >= 1 then Some(v * 60) else None)
    else if |rest| >= 3 && rest[..2] == "h " then ParseMinutes(v, rest[2..])
    else None
  }

  /** The minutes after "Hh ": a number from 1 to 59 and a closing "m". */
  function ParseMinutes(hours: int, t: string): Option<int> {
    var (ok, v, k) := ReadInt(t);
    if ok && k + 1 == |t| && t[k] == 'm' && hours >= 1 && 0 < v < 60 then Some(hours * 60 + v) else None
  }

  lemma UnderAnHourReadsBack(minutes: int)
    requires minutes < 60
    ensures ParseLearningTime(IntToString(minutes) + " min") == Some(minutes)
  {
    ReadIntOfIntToString(minutes, " min");
    assert (IntToString(minutes) + " min")[|IntToString(minutes)|..] == " min";
  }

  lemma WholeHoursReadBack(hours: int)
    requires hours >= 1
    ensures ParseLearningTime(IntToString(hours) + "h") == Some(hours * 60)
  {
    ReadIntOfIntToString(hours, "h");
    assert (IntToString(hours) + "h")[|IntToString(hours)|..] == "h";
  }

  lemma MinutesReadBack(hours: int, remaining: int)
    requires hours >= 1 && 0 < remaining < 60
    ensures ParseMinutes(hours, IntToString(remaining) + "m") == Some(hours * 60 + remaining)
  {
    ReadIntOfIntToString(remaining, "m");
    assert (IntToString(remaining) + "m")[|IntToString(remaining)|] == 'm';
  }

  lemma HoursUnitReadsBack(hours: int, remaining: int)
    requires hours >= 1 && 0 < remaining < 60
    ensures ParseUnit(hours, "h " + IntToString(remaining) + "m") == Some(hours * 60 + remaining)
  {
    var rest := "h " + IntToString(remaining) + "m";
    assert rest[1] == ' ';
    assert rest[..2] == "h ";
    assert rest[2..] == IntToString(remaining) + "m";
    MinutesReadBack(hours, remaining);
  }

  lemma HoursAndMinutesReadBack(hours: int, remaining: int)
    requires hours >= 1 && 0 < remaining < 60
    ensures ParseLearningTime(IntToString(hours) + "h " + IntToString(remaining) + "m") == Some(hours * 60 + remaining)
  {
    var h := IntToString(hours);
    var rest := "h " + IntToString(remaining) + "m";
    var s := h + "h " + IntToString(remaining) + "m";
    assert s == h + rest;
    ReadIntOfIntToString(hours, rest);
    assert s[|h|..] == rest;
    HoursUnitReadsBack(hours, remaining);
  }

  /**
   * Every duration reads back from its label: minutes under an hour, or
   * hours·60 plus the remaining minutes (fewer than 60) otherwise.
   */
  lemma LearningTimeRoundTrip(minutes: int)
    ensures ParseLearningTime(FormatLearningTime(minutes)) == Some(minutes)
  {
    if minutes < 60 {
      UnderAnHourReadsBack(minutes);
    } else {
      var hours := minutes / 60;
      var remaining := minutes % 60;
      assert hours * 60 + remaining == minutes && hours >= 1;
      if remaining > 0 {
        HoursAndMinutesReadBack(hours, remaining);
      } else {
        WholeHoursReadBack(hours);
      }
    }
  }

  /** Distinct durations get distinct labels. */
  lemma LearningTimeInjective(a: int, b: int)
    ensures FormatLearningTime(a) == FormatLearningTime(b) ==> a == b
  {
    LearningTimeRoundTrip(a);
    LearningTimeRoundTrip(b);
  }

  /** `formatReadingTime`: the duration, then " listen" for the listening preference and " read" for any other. */
  function FormatReadingTime(minutes: int, preference: LearningPreference): (r: string)
    ensures |r| == |FormatLearningTime(minutes)| + |ReadingSuffix(preference)|
    ensures r[..|FormatLearningTime(minutes)|] == FormatLearningTime(minutes)
    ensures r[|FormatLearningTime(minutes)|..] == ReadingSuffix(preference)
  {
    var time := FormatLearningTime(minutes);
    var r := time + ReadingSuffix(preference);
    assert r[..|time|] == time;
    r
  }

  function ReadingSuffix(preference: LearningPreference): string {
    if preference == Listening then " listen" else " read"
  }

  /** The reading-time label ends in " listen" exactly for the listening preference; mixed reads. */
  lemma ListenIffListening(minutes: int, preference: LearningPreference)
    ensures var r := FormatReadingTime(minutes, preference);
            |r| >= 7 && (r[|r| - 7..] == " listen" <==> preference == Listening)
  {
    var r := FormatReadingTime(minutes, preference);
    var t := FormatLearningTime(minutes);
    assert r == t + ReadingSuffix(preference);
    SuffixNamesPreference(t, preference);
  }

  lemma SuffixNamesPreference(t: string, preference: LearningPreference)
    requires |t| >= 2
    ensures var r := t + ReadingSuffix(preference);
            |r| >= 7 && (r[|r| - 7..] == " listen" <==> preference == Listening)
  {
    var r := t + ReadingSuffix(preference);
    if preference == Listening {
      assert r[|r| - 7..] == ReadingSuffix(preference);
    } else {
      assert ReadingSuffix(preference) == " read";
      assert r[|r| - 1] == 'd';
      assert r[|r| - 7..][6] == 'd';
      assert " listen"[6] == 'n';
    }
  }

  /** The minutes read back from the reading-time label once its suffix is cut off. */
  lemma ReadingTimeReadsBack(minutes: int, preference: LearningPreference)
    ensures var r := FormatReadingTime(minutes, preference);
            ParseLearningTime(r[..|r| - |ReadingSuffix(preference)|]) == Some(minutes)
  {
    LearningTimeRoundTrip(minutes);
  }

  /** `formatWeeklyProgress`. */
  function FormatWeeklyProgress(minutes: int): (r: string)
    ensures |r| == |FormatLearningTime(minutes)| + 18
    ensures r[..|FormatLearningTime(minutes)|] == FormatLearningTime(minutes)
    ensures r[|FormatLearningTime(minutes)|..] == " learned this week"
  {
    var time := FormatLearningTime(minutes);
    var r := time + " learned this week";
    assert r[..|time|] == time;
    r
  }

  /** The weekly total reads back from the progress line. */
  lemma WeeklyProgressReadsBack(minutes: int)
    ensures var r := FormatWeeklyProgress(minutes);
            |r| >= 18 && ParseLearningTime(r[..|r| - 18]) == Some(minutes)
  {
    LearningTimeRoundTrip(minutes);
  }

  // ---------------------------------------------------------------------------
  // Templates

  /** `formatStreakCount`. */
  function FormatStreakCount(days: int): string {
    "\U{1F525} " + IntToString(days) + " day learning streak!"
  }

  /** The day count reads back from the streak line, right after the flame and the space. */
  lemma StreakReadsBack(days: int)
    ensures var s := FormatStreakCount(days);
            |s| > 2 && ReadInt(s[2..]) == (true, days, |IntToString(days)|)
  {
    var s := FormatStreakCount(days);
    assert s[2..] == IntToString(days) + " day learning streak!";
    ReadIntOfIntToString(days, " day learning streak!");
  }

  /** `formatCharacterCount`. */
  function FormatCharacterCount(current: int, max: int): string {
    IntToString(current) + ("/" + (IntToString(max) + " characters"))
  }

  /** Reads "current/max characters" back. */
  function ParseCharacterCount(s: string): Option<(int, int)> {
    var (ok, a, k) := ReadInt(s);
    if !ok then None else ParseSlashTail(a, s[k..])
  }

  /** Reads "/max characters" after the current count. */
  function ParseSlashTail(current: int, t: string): Option<(int, int)> {
    if t == [] || t[0] != '/' then None
    else match ReadCountTail(t[1..])
      case Some(b) => Some((current, b))
      case None => None
  }

  /** Reads "max characters". */
  function ReadCountTail(t: string): Option<int> {
    var (ok, b, k) := ReadInt(t);
    if ok && t[k..] == " characters" then Some(b) else None
  }

  /** Both numbers read back from the counter. */
  lemma CharacterCountRoundTrip(current: int, max: int)
    ensures ParseCharacterCount(FormatCharacterCount(current, max)) == Some((current, max))
  {
    CurrentReadsBack(current, "/" + (IntToString(max) + " characters"));
    SlashTailReadsBack(current, max);
  }

  lemma CurrentReadsBack(current: int, tail: string)
    requires tail != [] && tail[0] == '/'
    ensures ParseCharacterCount(IntToString(current) + tail) == ParseSlashTail(current, tail)
  {
    var s := IntToString(current) + tail;
    ReadIntOfIntToString(current, tail);
    assert s[|IntToString(current)|..] == tail;
  }

  lemma SlashTailReadsBack(current: int, max: int)
    ensures ParseSlashTail(current, "/" + (IntToString(max) + " characters")) == Some((current, max))
  {
    var tail := "/" + (IntToString(max) + " characters");
    assert tail[1..] == IntToString(max) + " characters";
    CountReadsBack(max);
  }

  lemma CountReadsBack(max: int)
    ensures ReadCountTail(IntToString(max) + " characters") == Some(max)
  {
    ReadIntOfIntToString(max, " characters");
    var t := IntToString(max) + " characters";
    assert t[|IntToString(max)|..] == " characters";
  }

  /** `formatTimeRange`: the two times around " - ". */
  function FormatTimeRange(startTime: string, endTime: string): (r: string)
    ensures |r| == |startTime| + 3 + |endTime|
    ensures r[..|startTime|] == startTime && r[|startTime|..|startTime| + 3] == " - "
    ensures r[|startTime| + 3..] == endTime
  {
    var r := startTime + " - " + endTime;
    assert r[..|startTime|] == startTime;
    assert r[|startTime| + 3..] == endTime;
    r
  }

  /** Start and end times of fixed widths (as "HH:MM" times are) are recovered from the range by the separator's position. */
  lemma TimeRangeSplits(startTime: string, endTime: string, otherStart: string, otherEnd: string)
    requires |otherStart| == |startTime|
    ensures FormatTimeRange(startTime, endTime) == FormatTimeRange(otherStart, otherEnd)
            <==> otherStart == startTime && otherEnd == endTime
  {
    if FormatTimeRange(startTime, endTime) == FormatTimeRange(otherStart, otherEnd) {
      assert FormatTimeRange(otherStart, otherEnd)[..|otherStart|] == otherStart;
      assert FormatTimeRange(otherStart, otherEnd)[|otherStart| + 3..] == otherEnd;
    }
  }

  /** The separator between the parts of a source line. */
  const SourceSeparator: string := " \U{2022} "

  /** `formatArticleSource`: author, publication and age separated by bullets. */
  function FormatArticleSource(author: string, publication: string, daysAgo: int): (r: string)
    ensures var a, p := |author|, |publication|;
            |r| > a + p + 6
            && r[..a] == author && r[a..a + 3] == " \U{2022} "
            && r[a + 3..a + 3 + p] == publication && r[a + 3 + p..a + p + 6] == " \U{2022} "
            && r[a + p + 6..] == IntToString(daysAgo) + " days ago"
  {
    var age := IntToString(daysAgo) + " days ago";
    SeparatedParts(author, SourceSeparator, publication, age);
    author + (SourceSeparator + (publication + (SourceSeparator + age)))
  }

  /** Where each part of `a`, `sep`, `p`, `sep`, `t` lies in their concatenation. */
  lemma SeparatedParts(a: string, sep: string, p: string, t: string)
    ensures var r := a + (sep + (p + (sep + t)));
            var m, n := |a| + |sep|, |a| + |sep| + |p|;
            |r| == n + |sep| + |t|
            && r[..|a|] == a && r[|a|..m] == sep && r[m..n] == p
            && r[n..n + |sep|] == sep && r[n + |sep|..] == t
  {
    var rest := p + (sep + t);
    var r := a + (sep + rest);
    assert r[|a| + |sep|..] == rest;
  }

  /** The age in days reads back from the end of the source line. */
  lemma ArticleSourceAgeReadsBack(author: string, publication: string, daysAgo: int)
    ensures var r := FormatArticleSource(author, publication, daysAgo);
            var k := |author| + |publication| + 6;
            k <= |r| && ReadInt(r[k..]) == (true, daysAgo, |IntToString(daysAgo)|)
  {
    ReadIntOfIntToString(daysAgo, " days ago");
  }
}

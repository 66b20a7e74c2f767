/**
 * The chip that shows an item's status: a colour and an icon picked by
 * the status value, and the icon followed by the status in words.
 */
module StatusBadge {
  import opened Enums
  import StringFormatters

  /** The chip colours used. */
  datatype ChipColor = Success | Primary | Warning | Default

  /**
   * `getStatusColor` on the status's run-time value: completed is success,
   * pending primary, snoozed warning, skipped and any other value default.
   */
  function StatusColor(value: string): (c: ChipColor)
    ensures c == Success <==> value == "completed"
    ensures c == Primary <==> value == "pending"
    ensures c == Warning <==> value == "snoozed"
  {
    match value
    case "completed" => Success
    case "pending" => Primary
    case "snoozed" => Warning
    case "skipped" => Default
    case _ => Default
  }

  /** `getStatusIcon`: check mark, blue circle, alarm clock, next-track; the empty string for any other value. */
  function StatusIcon(value: string): (r: string)
    ensures r == "" <==> value !in {"completed", "pending", "snoozed", "skipped"}
  {
    match value
    case "completed" => "\U{2705}"
    case "pending" => "\U{1F535}"
    case "snoozed" => "\U{23F0}"
    case "skipped" => "\U{23ED}\U{FE0F}"
    case _ => ""
  }

  /** Every status reaches a case of its own in both lookups: the default branches are never taken for a status. */
  lemma NoStatusFallsThrough(s: ContentStatus)
    ensures s.Value() in {"completed", "pending", "snoozed", "skipped"}
    ensures StatusIcon(s.Value()) != ""
    ensures StatusColor(s.Value()) == match s
      case Completed => Success
      case Pending => Primary
      case Snoozed => Warning
      case Skipped => Default
  {
  }

  /** The first character of each status's icon. */
  lemma IconHead(s: ContentStatus)
    ensures |StatusIcon(s.Value())| > 0
    ensures StatusIcon(s.Value())[0] == match s
      case Completed => '\U{2705}'
      case Pending => '\U{1F535}'
      case Snoozed => '\U{23F0}'
      case Skipped => '\U{23ED}'
  {
    NoStatusFallsThrough(s);
  }

  /** Each status has an icon of its own. */
  lemma IconsDiffer(a: ContentStatus, b: ContentStatus)
    ensures a != b ==> StatusIcon(a.Value()) != StatusIcon(b.Value())
  {
    IconHead(a);
    IconHead(b);
  }

  /** The chip's label: the icon, a space, and the status as `formatContentStatus` words it. */
  function Label(s: ContentStatus): (r: string)
    ensures |r| > |StatusIcon(s.Value())| + 1
    ensures r[..|StatusIcon(s.Value())|] == StatusIcon(s.Value())
    ensures r[|StatusIcon(s.Value())|] == ' '
    ensures r[|StatusIcon(s.Value())| + 1..] == StringFormatters.FormatContentStatus(s)
  {
    NoStatusFallsThrough(s);
    var icon := StatusIcon(s.Value());
    var r := icon + " " + StringFormatters.FormatContentStatus(s);
    assert r[..|icon|] == icon;
    assert r[|icon| + 1..] == StringFormatters.FormatContentStatus(s);
    r
  }

  /** Distinct statuses get distinct labels. */
  lemma LabelsDiffer(a: ContentStatus, b: ContentStatus)
    ensures a != b ==> Label(a) != Label(b)
  {
    IconHead(a);
    IconHead(b);
    var la, lb := Label(a), Label(b);
    assert la[0] == la[..|StatusIcon(a.Value())|][0];
    assert lb[0] == lb[..|StatusIcon(b.Value())|][0];
  }
}

/**
 * The notification drawer: the unread counter, the per-category icon,
 * colour and action buttons, the list with dividers between items, and
 * the snooze menu that remembers which content it was opened for.
 */
module NotificationCenter {
  import opened Wrappers
  import opened Unicode
  import opened Enums
  import opened Schema

  // ---------------------------------------------------------------------------
  // Unread counter

  /** `notifications.filter(n => !n.read)`. */
  function Unread(ns: seq<Notification>): (r: seq<Notification>)
    ensures |r| <= |ns|
    ensures forall n | n in r :: n in ns && !n.read
    ensures forall n | n in ns && !n.read :: n in r
  {
    if ns == [] then []
    else if !ns[0].read then [ns[0]] + Unread(ns[1..])
    else Unread(ns[1..])
  }

  /** `unreadCount`, also the `notificationCount` the app passes to the navigation bell. */
  function UnreadCount(ns: seq<Notification>): (n: nat)
    ensures n == |Unread(ns)| <= |ns|
    ensures n == 0 <==> forall k | 0 <= k < |ns| :: ns[k].read
  {
    var r := Unread(ns);
    if |r| != 0 then
      assert r[0] in r;
      |r|
    else
      assert forall k | 0 <= k < |ns| :: ns[k] in ns;
      0
  }

  /** Unread notifications add up over a concatenation. */
  lemma {:induction false} UnreadCountAppend(a: seq<Notification>, b: seq<Notification>)
    ensures UnreadCount(a + b) == UnreadCount(a) + UnreadCount(b)
    decreases |a|
  {
    if a == [] {
      assert a + b == b;
    } else {
      assert (a + b)[0] == a[0];
      assert (a + b)[1..] == a[1..] + b;
      UnreadCountAppend(a[1..], b);
    }
  }

  /** The counter chip is shown when something is unread. */
  predicate ChipShown(ns: seq<Notification>) {
    UnreadCount(ns) > 0
  }

  /** Mark All Read is disabled when nothing is unread. */
  predicate MarkAllDisabled(ns: seq<Notification>) {
    UnreadCount(ns) == 0
  }

  /** The chip shows exactly when Mark All Read is enabled, and both mean some notification is unread. */
  lemma ChipIffMarkAllEnabled(ns: seq<Notification>)
    ensures ChipShown(ns) <==> !MarkAllDisabled(ns)
    ensures ChipShown(ns) <==> exists k | 0 <= k < |ns| :: !ns[k].read
  {
  }

  /** The "No notifications" placeholder replaces the list when it is empty. */
  predicate EmptyStateShown(ns: seq<Notification>) {
    |ns| == 0
  }

  // ---------------------------------------------------------------------------
  // Icons and colours

  /** The avatar emoji as the component holds it: UTF-8 bytes misread as Windows-1252. */
  function WrittenIcon(c: NotificationCategory): string {
    match c
    case ContentReady => "\U{00F0}\U{0178}\U{0152}\U{2026}"
    case SnoozeReminder => "\U{00E2}\U{00B0}"
    case Achievement => "\U{00F0}\U{0178}\U{017D}\U{2030}"
    case _ => "\U{00F0}\U{0178}\U{201C}\U{00A2}"
  }

  /** `getNotificationIcon` as intended: sunrise, alarm clock, party popper, and a loudspeaker by default. */
  function Icon(c: NotificationCategory): (r: string)
    ensures |r| == 1
  {
    match c
    case ContentReady => "\U{1F305}"
    case SnoozeReminder => "\U{23F0}"
    case Achievement => "\U{1F389}"
    case _ => "\U{1F4E2}"
  }

  /** Each written icon is the intended emoji garbled; the alarm clock even loses a byte (0x8F) Windows-1252 leaves undefined. */
  lemma WrittenIconsAreMojibake(c: NotificationCategory)
    ensures WrittenIcon(c) == Mojibake(Icon(c)) != Icon(c)
    ensures c == SnoozeReminder ==> |WrittenIcon(c)| < |Utf8EncodeString(Icon(c))|
  {
    match c
    case ContentReady => SunriseMisread();
    case SnoozeReminder => AlarmClockMisread();
    case Achievement => PartyPopperMisread();
    case GoalProgress => LoudspeakerMisread();
  }

  lemma SunriseMisread()
    ensures WrittenIcon(ContentReady) == Mojibake(Icon(ContentReady))
  {
    var s := Icon(ContentReady);
    var e: seq<byte> := [0xF0, 0x9F, 0x8C, 0x85];
    assert s[1..] == [];
    assert Utf8Encode(s[0]) == e;
    assert Utf8EncodeString(s) == e;
    assert Cp1252Misread(e[3..]) == "\U{2026}";
    assert Cp1252Misread(e[2..]) == "\U{0152}\U{2026}";
    assert Cp1252Misread(e[1..]) == "\U{0178}\U{0152}\U{2026}";
  }

  lemma AlarmClockMisread()
    ensures WrittenIcon(SnoozeReminder) == Mojibake(Icon(SnoozeReminder))
    ensures |Utf8EncodeString(Icon(SnoozeReminder))| == 3
  {
    var s := Icon(SnoozeReminder);
    var e: seq<byte> := [0xE2, 0x8F, 0xB0];
    assert s[1..] == [];
    assert Utf8Encode(s[0]) == e;
    assert Utf8EncodeString(s) == e;
    assert Cp1252Misread(e[2..]) == "\U{00B0}";
    assert Cp1252Misread(e[1..]) == "\U{00B0}";
  }

  lemma PartyPopperMisread()
    ensures WrittenIcon(Achievement) == Mojibake(Icon(Achievement))
  {
    var s := Icon(Achievement);
    var e: seq<byte> := [0xF0, 0x9F, 0x8E, 0x89];
    assert s[1..] == [];
    assert Utf8Encode(s[0]) == e;
    assert Utf8EncodeString(s) == e;
    assert Cp1252Misread(e[3..]) == "\U{2030}";
    assert Cp1252Misread(e[2..]) == "\U{017D}\U{2030}";
    assert Cp1252Misread(e[1..]) == "\U{0178}\U{017D}\U{2030}";
  }

  lemma LoudspeakerMisread()
    ensures WrittenIcon(GoalProgress) == Mojibake(Icon(GoalProgress))
  {
    var s := Icon(GoalProgress);
    var e: seq<byte> := [0xF0, 0x9F, 0x93, 0xA2];
    assert s[1..] == [];
    assert Utf8Encode(s[0]) == e;
    assert Utf8EncodeString(s) == e;
    assert Cp1252Misread(e[3..]) == "\U{00A2}";
    assert Cp1252Misread(e[2..]) == "\U{201C}\U{00A2}";
    assert Cp1252Misread(e[1..]) == "\U{0178}\U{201C}\U{00A2}";
  }

  /** `getNotificationColor`. */
  function Color(c: NotificationCategory): string {
    match c
    case ContentReady => "#3b82f6"
    case SnoozeReminder => "#f59e0b"
    case Achievement => "#10b981"
    case _ => "#f9fafb"
  }

  /**
   * Goal progress has no case of its own and shows the default icon and
   * colour; still, every category gets an icon and a colour of its own.
   */
  lemma CategoriesLookDistinct(a: NotificationCategory, b: NotificationCategory)
    ensures Icon(GoalProgress) == "\U{1F4E2}" && Color(GoalProgress) == "#f9fafb"
    ensures a != b ==> Icon(a) != Icon(b) && Color(a) != Color(b) && WrittenIcon(a) != WrittenIcon(b)
  {
  }

  /** Unread items get a left border in their category colour; read ones get none. */
  function LeftBorder(n: Notification): (r: string)
    ensures r == "none" <==> n.read
  {
    if !n.read then "3px solid " + Color(n.category) else "none"
  }

  // ---------------------------------------------------------------------------
  // Action buttons and the list

  /** The action buttons under an item, by category. */
  function ActionButtons(c: NotificationCategory): (r: seq<string>)
    ensures r != [] <==> c == ContentReady || c == SnoozeReminder
    ensures r != [] ==> r[0] == "Read Now"
    ensures c == SnoozeReminder ==> |r| == 3
  {
    match c
    case ContentReady => ["Read Now", "Snooze"]
    case SnoozeReminder => ["Read Now", "Snooze Again", "Skip Today"]
    case _ => []
  }

  datatype Row = ItemRow(notification: Notification) | DividerRow

  /** The list from index `i` on: each item, then a divider unless it is the last. */
  function RowsFrom(ns: seq<Notification>, i: nat): seq<Row>
    requires i <= |ns|
    decreases |ns| - i
  {
    if i == |ns| then []
    else [ItemRow(ns[i])] + (if i < |ns| - 1 then [DividerRow] else []) + RowsFrom(ns, i + 1)
  }

  /**
   * Items and dividers alternate from index `i` on, starting and ending with an item.
   */
  lemma {:induction false} RowsFromAlternate(ns: seq<Notification>, i: nat)
    requires i < |ns|
    ensures |RowsFrom(ns, i)| == 2 * (|ns| - i) - 1
    ensures forall k | 0 <= k < |RowsFrom(ns, i)| ::
              RowsFrom(ns, i)[k] == if k % 2 == 0 then ItemRow(ns[i + k / 2]) else DividerRow
    decreases |ns| - i
  {
    var r := RowsFrom(ns, i);
    if i == |ns| - 1 {
      assert RowsFrom(ns, i + 1) == [];
    } else {
      RowsFromAlternate(ns, i + 1);
      var tail := RowsFrom(ns, i + 1);
      assert r == [ItemRow(ns[i]), DividerRow] + tail;
      forall k | 2 <= k < |r|
        ensures r[k] == if k % 2 == 0 then ItemRow(ns[i + k / 2]) else DividerRow
      {
        assert r[k] == tail[k - 2];
        assert (k - 2) % 2 == k % 2;
        assert i + 1 + (k - 2) / 2 == i + k / 2;
      }
    }
  }

  /** The rendered list: one divider after every item except the last. */
  function Rows(ns: seq<Notification>): (r: seq<Row>)
    ensures |ns| > 0 ==> |r| == 2 * |ns| - 1
    ensures |ns| == 0 ==> r == []
    ensures forall k | 0 <= k < |r| :: r[k] == if k % 2 == 0 then ItemRow(ns[k / 2]) else DividerRow
  {
    if |ns| == 0 then []
    else
      RowsFromAlternate(ns, 0);
      RowsFrom(ns, 0)
  }

  /** Counts the divider rows. */
  function DividerCount(rows: seq<Row>): nat {
    if rows == [] then 0 else (if rows[0].DividerRow? then 1 else 0) + DividerCount(rows[1..])
  }

  /** A non-empty list of `n` notifications renders `n - 1` dividers, and the last row is an item. */
  lemma DividersBetweenItems(ns: seq<Notification>)
    requires |ns| > 0
    ensures DividerCount(Rows(ns)) == |ns| - 1
    ensures Rows(ns)[|Rows(ns)| - 1] == ItemRow(ns[|ns| - 1])
  {
    DividerCountFrom(ns, 0);
  }

  lemma {:induction false} DividerCountFrom(ns: seq<Notification>, i: nat)
    requires i < |ns|
    ensures DividerCount(RowsFrom(ns, i)) == |ns| - 1 - i
    decreases |ns| - i
  {
    var r := RowsFrom(ns, i);
    if i == |ns| - 1 {
      assert RowsFrom(ns, i + 1) == [];
      assert r == [ItemRow(ns[i])];
      assert r[1..] == [];
    } else {
      DividerCountFrom(ns, i + 1);
      var tail := RowsFrom(ns, i + 1);
      assert r == [ItemRow(ns[i]), DividerRow] + tail;
      assert r[1..] == [DividerRow] + tail;
      assert r[1..][1..] == tail;
    }
  }

  // ---------------------------------------------------------------------------
  // The snooze menu

  /** The menu's two state variables. */
  datatype SnoozeMenuState = SnoozeMenuState(anchor: Option<Anchor>, contentId: Option<string>)

  /** The durations offered by the menu. */
  const SnoozeDurations: seq<string> := ["30 minutes", "1 hour", "2 hours", "Move to evening"]

  /** A call of `onSnoozeContent`. */
  datatype SnoozeCall = SnoozeCall(contentId: string, duration: string)

  predicate MenuOpen(m: SnoozeMenuState) {
    m.anchor.Some?
  }

  /** `handleSnoozeMenuOpen`: the menu is anchored to the button and remembers the content. */
  function OpenMenu(anchor: Anchor, contentId: Option<string>): (m: SnoozeMenuState)
    ensures MenuOpen(m) && m.anchor == Some(anchor) && m.contentId == contentId
  {
    SnoozeMenuState(Some(anchor), contentId)
  }

  /** `handleSnoozeMenuClose`: both variables are cleared. */
  const Closed: SnoozeMenuState := SnoozeMenuState(None, None)

  /**
   * `handleSnooze`: forwards the remembered content and the duration when
   * the content id is present and non-empty, then closes the menu.
   */
  function Snooze(m: SnoozeMenuState, duration: string): (r: (SnoozeMenuState, Option<SnoozeCall>))
    ensures r.0 == Closed && !MenuOpen(r.0)
    ensures r.1.Some? <==> m.contentId.Some? && m.contentId.value != ""
    ensures r.1.Some? ==> r.1.value == SnoozeCall(m.contentId.value, duration)
  {
    match m.contentId
    case Some(id) => if id != "" then (Closed, Some(SnoozeCall(id, duration))) else (Closed, None)
    case None => (Closed, None)
  }

  /**
   * Opening the menu for a content and choosing a duration snoozes exactly
   * that content; a second choice without reopening forwards nothing.
   */
  lemma SnoozeOnce(anchor: Anchor, contentId: string, duration: string, again: string)
    requires contentId != ""
    ensures Snooze(OpenMenu(anchor, Some(contentId)), duration).1 == Some(SnoozeCall(contentId, duration))
    ensures Snooze(Snooze(OpenMenu(anchor, Some(contentId)), duration).0, again).1.None?
  {
  }

  class SnoozeMenu {
    var snoozeMenuAnchor: Option<Anchor>
    var selectedContentId: Option<string>

    function State(): SnoozeMenuState
      reads this
    {
      SnoozeMenuState(snoozeMenuAnchor, selectedContentId)
    }

    constructor ()
      ensures State() == Closed
    {
      snoozeMenuAnchor := None;
      selectedContentId := None;
    }

    /** `handleSnoozeMenuOpen`. */
    method HandleSnoozeMenuOpen(anchor: Anchor, contentId: Option<string>)
      modifies this
      ensures State() == OpenMenu(anchor, contentId)
    {
      snoozeMenuAnchor := Some(anchor);
      selectedContentId := contentId;
    }

    /** `handleSnoozeMenuClose`. */
    method HandleSnoozeMenuClose()
      modifies this
      ensures State() == Closed
    {
      snoozeMenuAnchor := None;
      selectedContentId := None;
    }

    /** `handleSnooze`: returns the `onSnoozeContent` call it makes, if any. */
    method HandleSnooze(duration: string) returns (call: Option<SnoozeCall>)
      modifies this
      ensures (State(), call) == Snooze(old(State()), duration)
    {
      call := None;
      if selectedContentId.Some? && selectedContentId.value != "" {
        call := Some(SnoozeCall(selectedContentId.value, duration));
      }
      HandleSnoozeMenuClose();
    }
  }
}

/**
 * A card of the day's list: the time slot header with its colour and the
 * status badge, the progress bar, the title, the reading time and up to
 * three tags, and a button that opens the item. A menu behind the "more"
 * icon snoozes or skips the item; the open menu is the card's only state.
 */
module ContentCard {
  import opened Wrappers
  import opened Strings
  import opened Enums
  import opened Schema
  import opened Lists
  import StringFormatters
  import ContentDetailModal

  const Amber: string := "#f59e0b"
  const Blue: string := "#3b82f6"
  const Purple: string := "#8b5cf6"

  /**
   * `getTimeSlotColor`: the lower-cased slot name picks the colour; an
   * unknown name is blue, like the afternoon.
   */
  function TimeSlotColor(timeSlot: string): (c: string)
    ensures c == Amber <==> AsciiLower(timeSlot) == "morning"
    ensures c == Purple <==> AsciiLower(timeSlot) == "evening"
    ensures c == Blue <==> AsciiLower(timeSlot) != "morning" && AsciiLower(timeSlot) != "evening"
  {
    match AsciiLower(timeSlot)
    case "morning" => Amber
    case "afternoon" => Blue
    case "evening" => Purple
    case _ => Blue
  }

  /** The three slots of the enumeration, whose values are capitalised, get amber, blue and purple. */
  lemma SlotColor(t: TimeSlot)
    ensures TimeSlotColor(t.Value()) == match t
      case Morning => Amber
      case Afternoon => Blue
      case Evening => Purple
  {
    match t
    case Morning => LowerMorning();
    case Afternoon => LowerAfternoon();
    case Evening => LowerEvening();
  }

  lemma LowerMorning()
    ensures AsciiLower("Morning") == "morning"
  {
    assert AsciiLower("Morning")[0] == 'm';
  }

  lemma LowerAfternoon()
    ensures AsciiLower("Afternoon") == "afternoon"
  {
    assert AsciiLower("Afternoon")[0] == 'a';
  }

  lemma LowerEvening()
    ensures AsciiLower("Evening") == "evening"
  {
    assert AsciiLower("Evening")[0] == 'e';
  }

  /** What the mode selects: the minutes shown, the button text and the preference the label is written for. */
  datatype Mode = Mode(minutes: int, actionText: string, preference: LearningPreference)

  /** Audio mode selects the listening time and "Listen Now"; reading mode the reading time and "Read Now". */
  function SelectMode(content: ContentItem, isAudioMode: bool): (m: Mode)
    ensures isAudioMode ==> m == Mode(content.listeningTime, "Listen Now", Listening)
    ensures !isAudioMode ==> m == Mode(content.readingTime, "Read Now", Reading)
  {
    if isAudioMode then Mode(content.listeningTime, "Listen Now", Listening)
    else Mode(content.readingTime, "Read Now", Reading)
  }

  /** The reading-time label under the description. */
  function ReadingTimeLabel(content: ContentItem, isAudioMode: bool): string {
    var m := SelectMode(content, isAudioMode);
    StringFormatters.FormatReadingTime(m.minutes, m.preference)
  }

  /**
   * The label names the mode (" listen" exactly in audio mode) and its
   * duration reads back as the minutes of that mode; those minutes are the
   * length the detail modal's player shows for the same item.
   */
  lemma ReadingTimeLabelNamesMode(content: ContentItem, isAudioMode: bool)
    ensures var r := ReadingTimeLabel(content, isAudioMode);
            |r| >= 7 && (r[|r| - 7..] == " listen" <==> isAudioMode)
    ensures var m := SelectMode(content, isAudioMode);
            var t := StringFormatters.FormatLearningTime(m.minutes);
            StringFormatters.ParseLearningTime(ReadingTimeLabel(content, isAudioMode)[..|t|]) == Some(m.minutes)
    ensures SelectMode(content, isAudioMode).minutes * 60 == ContentDetailModal.Duration(content, isAudioMode)
  {
    var m := SelectMode(content, isAudioMode);
    StringFormatters.ListenIffListening(m.minutes, m.preference);
    StringFormatters.LearningTimeRoundTrip(m.minutes);
  }

  /** `tags.slice(0, 3)`: the first three tags in their order, or all of them when there are fewer. */
  function ShownTags(tags: seq<string>): (r: seq<string>)
    ensures |r| <= 3 && |r| <= |tags| && r == tags[..|r|]
    ensures |tags| <= 3 ==> r == tags
    ensures |tags| > 3 ==> |r| == 3
  {
    var r := Take(tags, 3);
    assert r == tags[..|r|];
    r
  }

  /** The progress bar and its "N% complete" caption, shown only for progress above 0. */
  function ProgressLabel(content: ContentItem): (r: Option<string>)
    ensures r.Some? <==> content.progress > 0
    ensures r.Some? ==> ReadInt(r.value) == (true, content.progress, |r.value| - 10)
  {
    if content.progress > 0 then
      ReadIntOfIntToString(content.progress, "% complete");
      Some(IntToString(content.progress) + "% complete")
    else None
  }

  /** What a card shows. */
  datatype Card = Card(
    slotColor: string,
    header: string,
    status: ContentStatus,
    progress: Option<string>,
    title: string,
    readingTime: string,
    tags: seq<string>,
    actionText: string)

  function Render(content: ContentItem, isAudioMode: bool): (c: Card)
    ensures c.slotColor == TimeSlotColor(content.timeSlot.Value())
    ensures c.progress.Some? <==> content.progress > 0
    ensures c.tags == ShownTags(content.tags)
    ensures c.actionText == (if isAudioMode then "Listen Now" else "Read Now")
  {
    Card(TimeSlotColor(content.timeSlot.Value()),
         StringFormatters.FormatTimeSlot(content.timeSlot) + " \U{2022} " + content.scheduledTime,
         content.status,
         ProgressLabel(content),
         content.title,
         ReadingTimeLabel(content, isAudioMode),
         ShownTags(content.tags),
         SelectMode(content, isAudioMode).actionText)
  }

  // ---------------------------------------------------------------------------
  // Clicks

  /** What the card asks of its parent. */
  datatype Call =
    | OpenContent(id: string)
    | SnoozeContent(id: string, duration: string)
    | SkipContent(id: string)

  /** The four menu items. */
  datatype MenuItem = Snooze30Minutes | Snooze1Hour | Snooze2Hours | SkipToday

  /** The call an item's handler makes. */
  function ItemCall(content: ContentItem, item: MenuItem): (c: Call)
    ensures item == SkipToday <==> c == SkipContent(content.id)
    ensures item != SkipToday ==> c.SnoozeContent? && c.id == content.id
  {
    match item
    case Snooze30Minutes => SnoozeContent(content.id, "30 minutes")
    case Snooze1Hour => SnoozeContent(content.id, "1 hour")
    case Snooze2Hours => SnoozeContent(content.id, "2 hours")
    case SkipToday => SkipContent(content.id)
  }

  /** The snooze items offer three different durations. */
  lemma SnoozeDurationsDiffer(content: ContentItem, a: MenuItem, b: MenuItem)
    requires a != SkipToday && b != SkipToday && a != b
    ensures ItemCall(content, a).duration != ItemCall(content, b).duration
  {
  }

  /**
   * The calls an item click makes as written: the item's handler, then
   * the card's own click handler, which the click reaches by bubbling (a
   * React event from a menu rendered in a portal still propagates to the
   * card that renders the menu). The item handler does not stop it.
   */
  function BubbledItemCalls(content: ContentItem, item: MenuItem): (r: seq<Call>) {
    [ItemCall(content, item), OpenContent(content.id)]
  }

  /** The calls an item click is meant to make: the item's own call alone, as the "more" icon keeps its click to itself. */
  function ItemCalls(content: ContentItem, item: MenuItem): (r: seq<Call>)
    ensures |r| == 1 && r[0] == ItemCall(content, item)
    ensures forall c | c in r :: !c.OpenContent?
  {
    [ItemCall(content, item)]
  }

  /** As written, snoozing or skipping also opens the item the user just put off. */
  lemma MenuItemAlsoOpensContent(content: ContentItem, item: MenuItem)
    ensures OpenContent(content.id) in BubbledItemCalls(content, item)
    ensures OpenContent(content.id) !in ItemCalls(content, item)
    ensures BubbledItemCalls(content, item)[..1] == ItemCalls(content, item)
  {
  }

  /** The card body and the action button each open the item once; the button stops its click from reaching the card. */
  datatype Click = CardBody | ActionButton

  function ClickCalls(content: ContentItem, click: Click): (r: seq<Call>)
    ensures r == [OpenContent(content.id)]
  {
    match click
    case CardBody => [OpenContent(content.id)]
    case ActionButton => [OpenContent(content.id)]
  }

  /** The card's menu. */
  class CardMenu {
    var menuAnchor: Option<Anchor>

    constructor ()
      ensures menuAnchor == None
    {
      menuAnchor := None;
    }

    predicate MenuOpen()
      reads this
    {
      menuAnchor.Some?
    }

    /** `handleMenuOpen`: anchors the menu at the icon; the click does not reach the card, so nothing is called. */
    method HandleMenuOpen(anchor: Anchor) returns (calls: seq<Call>)
      modifies this
      ensures menuAnchor == Some(anchor) && MenuOpen()
      ensures calls == []
    {
      menuAnchor := Some(anchor);
      calls := [];
    }

    /** `handleMenuClose`. */
    method HandleMenuClose()
      modifies this
      ensures menuAnchor == None && !MenuOpen()
    {
      menuAnchor := None;
    }

    /** `handleSnooze`: forwards the item's id and the duration, then closes the menu. */
    method HandleSnooze(content: ContentItem, duration: string) returns (call: Call)
      modifies this
      ensures call == SnoozeContent(content.id, duration)
      ensures !MenuOpen()
    {
      call := SnoozeContent(content.id, duration);
      HandleMenuClose();
    }

    /** `handleSkip`: forwards the item's id, then closes the menu. */
    method HandleSkip(content: ContentItem) returns (call: Call)
      modifies this
      ensures call == SkipContent(content.id)
      ensures !MenuOpen()
    {
      call := SkipContent(content.id);
      HandleMenuClose();
    }

    /** A menu item: its handler, with the menu closed afterwards. */
    method SelectItem(content: ContentItem, item: MenuItem) returns (calls: seq<Call>)
      modifies this
      ensures calls == ItemCalls(content, item)
      ensures !MenuOpen()
    {
      var call: Call;
      match item {
        case Snooze30Minutes => call := HandleSnooze(content, "30 minutes");
        case Snooze1Hour => call := HandleSnooze(content, "1 hour");
        case Snooze2Hours => call := HandleSnooze(content, "2 hours");
        case SkipToday => call := HandleSkip(content);
      }
      calls := [call];
    }
  }
}

/**
 * The social post modal: the user picks a content item, the modal writes a
 * post about it for the chosen platform, and the user edits it, watches a
 * character counter, and posts, schedules or saves it as a draft.
 */
module SocialMediaGenerator {
  import opened Wrappers
  import opened Strings
  import opened Unicode
  import opened Enums
  import opened Schema

  // ---------------------------------------------------------------------------
  // Character limit and counter colour

  /** `getCharacterLimit`. */
  function CharacterLimit(p: SocialPlatform): (limit: nat)
    ensures p == LinkedIn <==> limit == 3000
    ensures p != LinkedIn <==> limit == 280
  {
    if p == LinkedIn then 3000 else 280
  }

  datatype CounterColor = Success | Warning | Error
  {
    /** The colours in the order the counter passes through them as the post grows. */
    function Rank(): nat {
      match this
      case Success => 0
      case Warning => 1
      case Error => 2
    }
  }

  /**
   * `getCharacterCountColor`: below 80% of the limit, below 95%, or beyond.
   * The percentage is compared by cross-multiplication; a limit of 0 gives
   * the error colour, as JavaScript's infinite or NaN percentage does.
   */
  function CharacterCountColor(count: nat, limit: nat): (c: CounterColor)
    ensures c == Success <==> 100 * count < 80 * limit
    ensures c == Warning <==> 80 * limit <= 100 * count < 95 * limit
    ensures c == Error <==> 95 * limit <= 100 * count
  {
    if 100 * count < 80 * limit then Success
    else if 100 * count < 95 * limit then Warning
    else Error
  }

  /** A longer post never shows a calmer colour. */
  lemma ColorNeverCalmsDown(count1: nat, count2: nat, limit: nat)
    requires count1 <= count2
    ensures CharacterCountColor(count1, limit).Rank() <= CharacterCountColor(count2, limit).Rank()
  {
  }

  /** A post over the limit always shows the error colour. */
  lemma OverLimitIsError(count: nat, p: SocialPlatform)
    requires count > CharacterLimit(p)
    ensures CharacterCountColor(count, CharacterLimit(p)) == Error
  {
  }

  /** The counter shows `postContent.length`, which counts UTF-16 code units. */
  function CharacterCount(post: string): (n: nat)
    ensures |post| <= n <= 2 * |post|
  {
    Utf16Length(post)
  }

  // ---------------------------------------------------------------------------
  // Enabling of the footer buttons

  /** Post Now is enabled when the post is within the limit and not blank. */
  predicate PostNowEnabled(post: string, p: SocialPlatform) {
    !(CharacterCount(post) > CharacterLimit(p)) && !IsBlank(post)
  }

  /** The Schedule button is rendered only once a schedule is chosen. */
  predicate ScheduleShown(scheduledTime: string) {
    scheduledTime != ""
  }

  /** The Schedule button checks the limit only. */
  predicate ScheduleEnabled(post: string, p: SocialPlatform) {
    !(CharacterCount(post) > CharacterLimit(p))
  }

  /**
   * Whenever Post Now is enabled so is Schedule, but not the other way: a
   * blank post can be scheduled and not posted.
   */
  lemma PostNowStricterThanSchedule(post: string, p: SocialPlatform)
    ensures PostNowEnabled(post, p) ==> ScheduleEnabled(post, p)
    ensures ScheduleEnabled("   ", p) && !PostNowEnabled("   ", p)
  {
    assert IsBlank("   ");
    assert CharacterCount("   ") == 3;
  }

  /** An enabled Post Now button never shows the error colour because of the length alone being over the limit. */
  lemma EnabledPostFits(post: string, p: SocialPlatform)
    requires PostNowEnabled(post, p)
    ensures CharacterCount(post) <= CharacterLimit(p)
    ensures |post| <= CharacterLimit(p)
  {
  }

  // ---------------------------------------------------------------------------
  // The generated post

  /**
   * A post template: fixed text around the lower-cased title and, for
   * LinkedIn, the name of the item's first source.
   */
  datatype Template = Template(opening: string, afterTitle: string, afterSource: Option<string>)

  const Bullet: string := "\U{1F539}"

  /** The LinkedIn template: three insights, a question, the source and four hashtags. */
  const LinkedInTemplate: Template := Template(
    "Just learned about ",
    ". Key insights:\n\n"
    + (Bullet
    + (" AI agents are transforming "
    + ("enterprise software "
    + ("development workflows\n"
    + (Bullet
    + (" 70% faster code review "
    + ("processes with automated "
    + ("assistance\n"
    + (Bullet
    + (" Reduced debugging time by "
    + ("45% through intelligent "
    + ("error detection\n\n"
    + ("The future of software "
    + ("engineering is "
    + ("collaborative human-AI "
    + ("teams. What's your "
    + ("experience with AI coding "
    + "tools?\n\nSource: "))))))))))))))))),
    Some("\n\n#AI #SoftwareEngineering "
    + ("#TechTrends "
    + "#ProfessionalDevelopment")))

  /** The X template: three shorter insights, a question and three hashtags; no source. */
  const TwitterTemplate: Template := Template(
    "Just learned about ",
    ":\n\n"
    + (Bullet
    + (" 70% faster code reviews\n"
    + (Bullet
    + (" 45% less debugging time  \n"
    + (Bullet
    + (" Better automated testing\n\n"
    + ("The future is human-AI "
    + ("collaboration in software "
    + ("engineering.\n\nWhat's your "
    + ("experience with AI coding "
    + ("tools?\n\n#AI "
    + ("#SoftwareEngineering "
    + "#TechTrends")))))))))))),
    None)

  /** The template `generateInitialPost` picks for a platform. */
  function TemplateFor(p: SocialPlatform): (t: Template)
    ensures t.afterSource.Some? <==> p == LinkedIn
    ensures t.opening == "Just learned about "
  {
    if p == LinkedIn then LinkedInTemplate else TwitterTemplate
  }

  /** `sources[0]?.publication || 'Industry Research'`. */
  function SourceName(item: ContentItem): (r: string)
    ensures r != ""
    ensures item.sources != [] && item.sources[0].publication != "" ==> r == item.sources[0].publication
    ensures item.sources == [] || item.sources[0].publication == "" ==> r == "Industry Research"
  {
    if item.sources != [] && item.sources[0].publication != "" then item.sources[0].publication
    else "Industry Research"
  }

  /** What follows the title: the text after it, then the source and its trailer when the template has one. */
  function Rest(t: Template, item: ContentItem): string {
    match t.afterSource
    case None => t.afterTitle
    case Some(trailer) => t.afterTitle + (SourceName(item) + trailer)
  }

  /**
   * The post a template gives for an item: its opening, the title
   * lower-cased (`toLowerCase`), and the rest.
   */
  function Fill(t: Template, item: ContentItem): (r: string)
    ensures |r| >= |t.opening| + |item.title|
    ensures r[..|t.opening|] == t.opening
    ensures r[|t.opening|..|t.opening| + |item.title|] == AsciiLower(item.title)
  {
    var title := AsciiLower(item.title);
    var r := t.opening + (title + Rest(t, item));
    assert r[..|t.opening|] == t.opening;
    assert r[|t.opening|..|t.opening| + |title|] == title;
    r
  }

  /** The post `generateInitialPost` writes for an item on a platform. */
  function GeneratedPost(item: ContentItem, p: SocialPlatform): (r: string)
    ensures |r| >= |item.title|
  {
    Fill(TemplateFor(p), item)
  }

  /** Both templates open with "Just learned about " and the lower-cased title. */
  lemma PostOpensWithTitle(item: ContentItem, p: SocialPlatform)
    ensures |GeneratedPost(item, p)| >= 19 + |item.title|
    ensures GeneratedPost(item, p)[..19] == "Just learned about "
    ensures GeneratedPost(item, p)[19..19 + |item.title|] == AsciiLower(item.title)
  {
    assert |TemplateFor(p).opening| == 19;
  }

  /**
   * The X post depends on the title alone; the LinkedIn post also on the
   * source name, and two items with the same title and source name get the
   * same post.
   */
  lemma PostDependsOnTitleAndSource(a: ContentItem, b: ContentItem, p: SocialPlatform)
    requires AsciiLower(a.title) == AsciiLower(b.title)
    requires p == LinkedIn ==> SourceName(a) == SourceName(b)
    ensures GeneratedPost(a, p) == GeneratedPost(b, p)
  {
  }

  /**
   * A template with a source slot ends the post with the source name and its
   * trailer; of the two templates only LinkedIn's has one (`TemplateFor`).
   */
  lemma FillEndsWithSource(t: Template, item: ContentItem)
    requires t.afterSource.Some?
    ensures |Fill(t, item)| >= |SourceName(item)| + |t.afterSource.value|
    ensures Fill(t, item)[|Fill(t, item)| - |SourceName(item)| - |t.afterSource.value|..]
            == SourceName(item) + t.afterSource.value
  {
    var title := AsciiLower(item.title);
    var tail := SourceName(item) + t.afterSource.value;
    var post := t.opening + (title + (t.afterTitle + tail));
    assert post == (t.opening + title + t.afterTitle) + tail;
    assert post[|post| - |tail|..] == tail;
  }

  // ---------------------------------------------------------------------------
  // The modal

  /** What the modal asks of its parent. */
  datatype Call =
    | Post(platform: SocialPlatform, content: string, scheduledFor: Option<string>)
    | SaveDraft(platform: SocialPlatform, content: string)
    | Close

  /** The header title. */
  function HeaderTitle(selected: Option<ContentItem>): (r: string)
    ensures selected.Some? <==> r == "Create Social Post"
    ensures selected.None? <==> r == "Select Content to Share"
  {
    if selected.Some? then "Create Social Post" else "Select Content to Share"
  }

  /** The post the second effect settles on: the template filled for a selection, empty without one. */
  function PostFor(selected: Option<ContentItem>, t: Template): (r: string)
    ensures selected.None? ==> r == ""
    ensures selected.Some? ==> r == Fill(t, selected.value)
  {
    match selected
    case None => ""
    case Some(item) => Fill(t, item)
  }

  class SocialPostModal {
    var selectedContent: Option<ContentItem>
    var selectedPlatform: SocialPlatform
    var postContent: string
    var scheduledTime: string

    /** The two templates, fixed for the life of the component. */
    const linkedInTemplate: Template
    const twitterTemplate: Template

    /** The template of the selected platform. */
    function Chosen(): (t: Template)
      reads this
      ensures t == (if selectedPlatform == LinkedIn then linkedInTemplate else twitterTemplate)
    {
      if selectedPlatform == LinkedIn then linkedInTemplate else twitterTemplate
    }

    /** There is no post text while no content is selected. */
    predicate Valid()
      reads this
    {
      selectedContent.None? ==> postContent == ""
    }

    constructor ()
      ensures linkedInTemplate == TemplateFor(LinkedIn) && twitterTemplate == TemplateFor(Twitter)
      ensures selectedContent == None && selectedPlatform == LinkedIn
      ensures postContent == "" && scheduledTime == ""
      ensures Valid()
    {
      linkedInTemplate := LinkedInTemplate;
      twitterTemplate := TwitterTemplate;
      selectedContent := None;
      selectedPlatform := LinkedIn;
      postContent := "";
      scheduledTime := "";
    }

    /**
     * The second effect, run whenever the selection or the platform
     * changes: a selection gets its generated post (the state once the
     * simulated generation delay is over), no selection an empty one.
     */
    method SyncPost()
      modifies this
      ensures postContent == PostFor(selectedContent, Chosen())
      ensures selectedContent == old(selectedContent) && selectedPlatform == old(selectedPlatform)
      ensures scheduledTime == old(scheduledTime)
      ensures Valid()
    {
      postContent := PostFor(selectedContent, Chosen());
    }

    /**
     * Opening the modal on the parent's content (the first effect). The
     * second effect runs only when this changes the selection: reopening on
     * the same content keeps the post as the user left it.
     */
    method Open(content: Option<ContentItem>)
      requires Valid()
      modifies this
      ensures selectedContent == content
      ensures content != old(selectedContent) ==> postContent == PostFor(content, Chosen())
      ensures content == old(selectedContent) ==> postContent == old(postContent)
      ensures selectedPlatform == old(selectedPlatform) && scheduledTime == old(scheduledTime)
      ensures Valid()
    {
      if content != selectedContent {
        selectedContent := content;
        SyncPost();
      }
    }

    /** `handleContentSelect`: picks an item from the list, which writes its post unless it is already the selection. */
    method HandleContentSelect(item: ContentItem)
      requires Valid()
      modifies this
      ensures selectedContent == Some(item)
      ensures old(selectedContent) != Some(item) ==> postContent == Fill(Chosen(), item)
      ensures old(selectedContent) == Some(item) ==> postContent == old(postContent)
      ensures selectedPlatform == old(selectedPlatform) && scheduledTime == old(scheduledTime)
      ensures Valid()
    {
      if selectedContent != Some(item) {
        selectedContent := Some(item);
        SyncPost();
      }
    }

    /**
     * `handlePlatformChange`: the tabs report only a newly picked platform,
     * which rewrites the post from its template, dropping any edits; picking
     * the current one changes nothing.
     */
    method HandlePlatformChange(p: SocialPlatform)
      requires Valid()
      modifies this
      ensures selectedPlatform == p
      ensures p != old(selectedPlatform) ==> postContent == PostFor(selectedContent, Chosen())
      ensures p == old(selectedPlatform) ==> postContent == old(postContent)
      ensures selectedContent == old(selectedContent) && scheduledTime == old(scheduledTime)
      ensures Valid()
    {
      if p != selectedPlatform {
        selectedPlatform := p;
        SyncPost();
      }
    }

    /** `handleRegeneratePost`: writes the post again; nothing happens without a selection. */
    method HandleRegeneratePost()
      requires Valid()
      modifies this
      ensures postContent == PostFor(selectedContent, Chosen())
      ensures selectedContent == old(selectedContent) && selectedPlatform == old(selectedPlatform)
      ensures scheduledTime == old(scheduledTime)
      ensures Valid()
    {
      if selectedContent.Some? {
        SyncPost();
      }
    }

    /** Typing in the editor, which is shown only while content is selected. */
    method EditPost(text: string)
      requires selectedContent.Some?
      modifies this
      ensures postContent == text
      ensures selectedContent == old(selectedContent) && selectedPlatform == old(selectedPlatform)
      ensures scheduledTime == old(scheduledTime)
      ensures Valid()
    {
      postContent := text;
    }

    /** The schedule select. */
    method SetScheduledTime(value: string)
      modifies this
      ensures scheduledTime == value
      ensures selectedContent == old(selectedContent) && selectedPlatform == old(selectedPlatform)
      ensures postContent == old(postContent)
    {
      scheduledTime := value;
    }

    /**
     * The back arrow: with content selected it clears the selection, which
     * empties the post; without, it closes the modal.
     */
    method HandleBackArrow() returns (calls: seq<Call>)
      modifies this
      ensures old(selectedContent).Some? ==> calls == [] && selectedContent == None && postContent == ""
      ensures old(selectedContent).None? ==>
                calls == [Close] && selectedContent == None && postContent == old(postContent)
      ensures selectedPlatform == old(selectedPlatform) && scheduledTime == old(scheduledTime)
      ensures old(Valid()) ==> Valid()
    {
      if selectedContent.Some? {
        selectedContent := None;
        SyncPost();
        calls := [];
      } else {
        calls := [Close];
      }
    }

    /** `handlePostNow`, reachable only while the button is enabled: posts without a schedule, then closes. */
    method HandlePostNow() returns (calls: seq<Call>)
      requires PostNowEnabled(postContent, selectedPlatform)
      ensures calls == [Post(selectedPlatform, postContent, None), Close]
      ensures Utf16Length(calls[0].content) <= CharacterLimit(selectedPlatform) && !IsBlank(calls[0].content)
    {
      calls := [Post(selectedPlatform, postContent, None), Close];
    }

    /** `handleSchedulePost`, reachable only while its button is shown and enabled. */
    method HandleSchedulePost() returns (calls: seq<Call>)
      requires ScheduleShown(scheduledTime) && ScheduleEnabled(postContent, selectedPlatform)
      ensures calls == [Post(selectedPlatform, postContent, Some(scheduledTime)), Close]
      ensures Utf16Length(calls[0].content) <= CharacterLimit(selectedPlatform)
      ensures calls[0].scheduledFor.Some? && calls[0].scheduledFor.value != ""
    {
      calls := [Post(selectedPlatform, postContent, Some(scheduledTime)), Close];
    }

    /** `handleSaveDraft`: saves whatever the post holds, then closes. */
    method HandleSaveDraft() returns (calls: seq<Call>)
      ensures calls == [SaveDraft(selectedPlatform, postContent), Close]
    {
      calls := [SaveDraft(selectedPlatform, postContent), Close];
    }
  }
}

/**
 * Step 7 of the wizard, social media integration: connect buttons for
 * LinkedIn and Twitter, a posting frequency radio, content type checkboxes
 * and a sample post the user can generate and edit. The step has no
 * validation, and the sample post is not part of what it submits.
 */
module OnboardingStep7 {
  import opened Wrappers
  import opened Lists
  import opened Unicode
  import opened Schema
  import OnboardingFlow

  /** The form's state has the shape of the `socialIntegration` fragment. */
  type FormData = SocialIntegration

  /** The two connect cards. */
  const Platforms: seq<string> := ["LinkedIn", "Twitter"]

  const FrequencyOptions: seq<string> := ["Daily", "3x per week", "Weekly", "Rarely"]

  const ContentTypeOptions: seq<string> := ["Industry insights", "Learning summaries", "Opinion pieces", "Resource sharing"]

  /** A platform's card shows as connected when the list includes it. */
  predicate IsConnected(f: FormData, platform: string) {
    platform in f.connectedAccounts
  }

  /**
   * `handleAccountConnect`: a connected platform is disconnected (every
   * occurrence filtered out), an unconnected one is appended; the other
   * platform and the other fields are untouched.
   */
  function AccountConnect(f: FormData, platform: string): (r: FormData)
    ensures IsConnected(r, platform) <==> !IsConnected(f, platform)
    ensures forall p | p != platform :: IsConnected(r, p) <==> IsConnected(f, p)
    ensures r.postingFrequency == f.postingFrequency && r.contentTypes == f.contentTypes
  {
    var r := f.(connectedAccounts := Toggle(f.connectedAccounts, platform));
    assert forall p | p != platform :: p in r.connectedAccounts <==> multiset(r.connectedAccounts)[p] > 0;
    r
  }

  /**
   * Clicking a card twice restores whether it is connected; starting from
   * unconnected it restores the whole form.
   */
  lemma ConnectTwice(f: FormData, platform: string)
    ensures IsConnected(AccountConnect(AccountConnect(f, platform), platform), platform) <==> IsConnected(f, platform)
    ensures !IsConnected(f, platform) ==> AccountConnect(AccountConnect(f, platform), platform) == f
  {
    ToggleTwice(f.connectedAccounts, platform);
  }

  /** `handleContentTypeChange`: the checkbox appends or filters out the type; the other fields are untouched. */
  function ContentTypeChange(f: FormData, t: string, checked: bool): (r: FormData)
    ensures r.connectedAccounts == f.connectedAccounts && r.postingFrequency == f.postingFrequency
    ensures checked ==> |r.contentTypes| == |f.contentTypes| + 1 && r.contentTypes[..|f.contentTypes|] == f.contentTypes
                        && r.contentTypes[|f.contentTypes|] == t
    ensures !checked ==> t !in r.contentTypes && multiset(r.contentTypes) == multiset(f.contentTypes)[t := 0]
  {
    f.(contentTypes := CheckboxChange(f.contentTypes, t, checked))
  }

  /** Unticking a type and ticking it again restores an unticked list, and ticks it otherwise. */
  lemma ContentTypeTwice(f: FormData, t: string)
    ensures t !in f.contentTypes ==> ContentTypeChange(ContentTypeChange(f, t, true), t, false) == f
    ensures t in ContentTypeChange(ContentTypeChange(f, t, false), t, true).contentTypes
  {
    CheckboxTwice(f.contentTypes, t);
  }

  function Stored(data: OnboardingData): Option<SocialIntegration> {
    if SocialIntegrationKey in data.fields && data.fields[SocialIntegrationKey].SocialIntegrationValue?
    then Some(data.fields[SocialIntegrationKey].socialIntegration)
    else None
  }

  /**
   * The initial form: the stored lists even when empty, or no account and
   * industry insights alone; the frequency falls back to "Weekly" when
   * missing or "".
   */
  function Prefill(data: OnboardingData): (f: FormData)
    ensures Stored(data).None? ==> f == SocialIntegration([], "Weekly", ["Industry insights"])
    ensures Stored(data).Some? ==> f.connectedAccounts == Stored(data).value.connectedAccounts
                                   && f.contentTypes == Stored(data).value.contentTypes
    ensures f.postingFrequency != ""
  {
    match Stored(data)
    case None => SocialIntegration([], "Weekly", ["Industry insights"])
    case Some(s) =>
      SocialIntegration(s.connectedAccounts,
                        if s.postingFrequency == "" then "Weekly" else s.postingFrequency,
                        s.contentTypes)
  }

  /** The `socialIntegration` fragment: the whole form and nothing else. */
  function ToFragment(f: FormData): (frag: Fragment)
    ensures OnboardingFlow.FromStepForm(7, frag)
    ensures frag.fields[SocialIntegrationKey].socialIntegration == f
  {
    FragmentOf(map[SocialIntegrationKey := SocialIntegrationValue(f)])
  }

  /** Coming back to step 7 after choosing a frequency shows the submitted form again. */
  lemma PrefillAfterSubmit(data: OnboardingData, f: FormData, step: int)
    requires f.postingFrequency in FrequencyOptions
    ensures Prefill(OnboardingFlow.Merge(data, ToFragment(f), step)) == f
  {
    var merged := OnboardingFlow.Merge(data, ToFragment(f), step);
    assert Stored(merged) == Some(f);
  }

  // ---------------------------------------------------------------------------
  // The sample post

  /** The sample post's opening line and the blank line after it. */
  const Intro: string :=
    "Just learned about the "
    + ("transformative impact of "
    + ("AI agents in enterprise "
    + ("software development. "
    + "Key insights:\n\n")))

  /** The three bullet points and the closing paragraphs of the sample post. */
  function Points(bullet: string): (r: string)
    ensures |r| > |bullet| && r[..|bullet|] == bullet
  {
    var r := bullet + AfterFirstBullet(bullet);
    assert r[..|bullet|] == bullet;
    r
  }

  /** Everything after the first bullet mark. */
  function AfterFirstBullet(bullet: string): (r: string)
    ensures r != []
  {
    " 70% faster code review "
    + ("processes\n"
    + (bullet
    + (" Reduced debugging time "
    + ("by 45%\n"
    + (bullet
    + (" Automated testing "
    + ("coverage increased by "
    + ("60%\n\n"
    + ("The future of software "
    + ("engineering is "
    + ("collaborative human-AI "
    + ("teams. What's your "
    + ("experience with AI coding "
    + ("tools?\n\n"
    + ("#AI #SoftwareEngineering "
    + "#TechTrends")))))))))))))))
  }

  /** The sample post around a given bullet mark, which opens the first point. */
  function SamplePostWith(bullet: string): (r: string)
    requires bullet != []
    ensures |r| > |Intro| && r[|Intro|] == bullet[0]
  {
    var p := Points(bullet);
    assert p[0] == bullet[0];
    assert (Intro + p)[|Intro|] == p[0];
    Intro + p
  }

  /** The bullet mark as the component holds it: four Latin characters. */
  const WrittenBullet: string := "\U{00F0}\U{0178}\U{201D}\U{00B9}"

  /** The intended bullet mark, a small blue diamond. */
  const Bullet: string := "\U{1F539}"

  /** The post as written in the component. */
  const WrittenSamplePost: string := SamplePostWith(WrittenBullet)

  /** The post with its intended bullets, which the model generates. */
  const SamplePost: string := SamplePostWith(Bullet)

  /**
   * The written bullet is the intended diamond's UTF-8 bytes read as
   * Windows-1252: one character has become four.
   */
  lemma WrittenBulletIsMojibake()
    ensures WrittenBullet == Mojibake(Bullet)
    ensures |WrittenBullet| == 4 && |Bullet| == 1
    ensures WrittenSamplePost == SamplePostWith(Mojibake(Bullet)) != SamplePost
  {
    BulletMisread();
    assert WrittenSamplePost[|Intro|] != SamplePost[|Intro|];
  }

  /** The diamond's four UTF-8 bytes, each read as one Windows-1252 character. */
  lemma BulletMisread()
    ensures WrittenBullet == Mojibake(Bullet)
  {
    var e: seq<byte> := [0xF0, 0x9F, 0x94, 0xB9];
    assert Utf8Encode(Bullet[0]) == e;
    assert Utf8EncodeString(Bullet) == e by {
      assert Bullet[1..] == [];
    }
    assert Cp1252Misread(e[3..]) == "\U{00B9}";
    assert Cp1252Misread(e[2..]) == "\U{201D}\U{00B9}";
    assert Cp1252Misread(e[1..]) == "\U{0178}\U{201D}\U{00B9}";
  }

  class Step7Form {
    var formData: FormData
    var generatedPost: string

    constructor (data: OnboardingData)
      ensures formData == Prefill(data) && generatedPost == ""
    {
      formData := Prefill(data);
      generatedPost := "";
    }

    /** The post preview and its editor are shown once a post is present. */
    predicate ShowsPreview()
      reads this
    {
      generatedPost != ""
    }

    /** `handleAccountConnect`. */
    method HandleAccountConnect(platform: string)
      modifies this
      ensures formData == AccountConnect(old(formData), platform)
      ensures generatedPost == old(generatedPost)
    {
      if platform in formData.connectedAccounts {
        formData := formData.(connectedAccounts := RemoveAll(formData.connectedAccounts, platform));
      } else {
        formData := formData.(connectedAccounts := formData.connectedAccounts + [platform]);
      }
    }

    /** `handleContentTypeChange`. */
    method HandleContentTypeChange(t: string, checked: bool)
      modifies this
      ensures formData == ContentTypeChange(old(formData), t, checked)
      ensures generatedPost == old(generatedPost)
    {
      if checked {
        formData := formData.(contentTypes := formData.contentTypes + [t]);
      } else {
        formData := formData.(contentTypes := RemoveAll(formData.contentTypes, t));
      }
    }

    /** The posting frequency radio replaces that field only. */
    method SetPostingFrequency(value: string)
      modifies this
      ensures formData == old(formData).(postingFrequency := value)
      ensures generatedPost == old(generatedPost)
    {
      formData := formData.(postingFrequency := value);
    }

    /** `handleGenerateTestPost`: shows the fixed sample post. */
    method HandleGenerateTestPost()
      modifies this
      ensures generatedPost == SamplePost && ShowsPreview()
      ensures formData == old(formData)
    {
      generatedPost := SamplePost;
    }

    /** Editing the post in its text field. */
    method EditPost(text: string)
      modifies this
      ensures generatedPost == text && formData == old(formData)
    {
      generatedPost := text;
    }

    /** `handleNext`: always calls `onNext` with the form alone; the sample post is not submitted. */
    method HandleNext() returns (submitted: Fragment)
      ensures OnboardingFlow.FromStepForm(7, submitted)
      ensures submitted.fields.Keys == {SocialIntegrationKey}
      ensures submitted.fields[SocialIntegrationKey].socialIntegration == formData
    {
      submitted := ToFragment(formData);
    }
  }
}

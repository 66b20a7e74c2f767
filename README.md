# DailyClimb front end: a Dafny model of its rules

DailyClimb is a React front end for a daily learning habit: a seven-step
onboarding wizard collects a professional profile, learning preferences, a
schedule, reminder settings, goals and social-media settings; an
application shell signs the user in, routes between the dashboard, the
archive and the profile, and opens content in a detail modal; cards,
badges, a notification drawer and a social-post composer present the day's
items.

This project models the behaviour behind those screens and proves what it
promises:

- the application shell (`App`): the session flags, the route and page
  handlers, the page selector, the selected-content lookup, and an
  invariant that every sequence of user actions keeps;
- the onboarding wizard (`OnboardingFlow`) as a class holding the current
  step and the accumulated record, with the merge, advance, complete and
  back rules and the invariant that the step stays in 1..7 and the record
  holds every earlier step's keys;
- the seven step forms (`OnboardingStep1` … `OnboardingStep7`) as classes
  holding their form state and error maps: validation, field edits that
  touch one field and its error, list toggles, prefill from stored data and
  the fragment each step submits, with prefill-after-submit round trips;
- the string formatters (`StringFormatters`): the numeric ones (learning
  and reading time, weekly progress, streak, character count, article age)
  each with a parser that reads the number back, the label lookups shown
  injective, and the time range and article source line with each part
  stated at its position;
- the navigation bars (`MobileNavigation`, `DesktopNavigation`), the
  notification drawer (`NotificationCenter`), the social-post composer
  (`SocialMediaGenerator`), the content detail modal
  (`ContentDetailModal`), the content card (`ContentCard`) and the status
  badge (`StatusBadge`).

The types come from the repository's type declarations (`Enums`, `Schema`).
The JavaScript library behaviour the rules rely on is written out in
shared modules: `String.prototype.trim` with ECMAScript's white-space set,
`.length` in UTF-16 code units, `toLowerCase` on ASCII letters,
`padStart`, `encodeURIComponent` and its inverse, UTF-8 encoding and the
Windows-1252 reading of bytes (`Strings`, `Unicode`, `Uri`, `Lists`,
`FormErrors`).

Callbacks a component receives (`onNext`, `onComplete`, `onNavigate`,
`onPost`, …) are modelled as values the handler returns: the call it makes
and its argument. React state updates become assignments to class fields,
and effects become explicit steps of the handler that triggers them.

## Model

| member | source | states |
|---|---|---|
| App.Initial | src/App.dailyclimb.tsx:30-36 | the first session is the landing page at "/", signed out, onboarding not done, audio off, nothing selected, drawer closed |
| App.SyncAudioMode | src/App.dailyclimb.tsx:47-50 | audio mode is on exactly for the listening preference; no other flag changes |
| App.GetStarted | src/App.dailyclimb.tsx:52-56 | onboarding page, route "/onboarding", signed in; the completion flag and everything else unchanged |
| App.Login | src/App.dailyclimb.tsx:58-63 | dashboard page and route, signed in, onboarding counted as done; audio mode, selection and drawer unchanged |
| App.CompleteOnboarding | src/App.dailyclimb.tsx:65-70 | dashboard page and route, onboarding done; sign-in, audio mode, selection and drawer unchanged |
| App.SkipOnboarding | src/App.dailyclimb.tsx:72-76 | dashboard page and route, onboarding done; sign-in, audio mode, selection and drawer unchanged |
| App.CompleteAndSkipAgree | src/App.dailyclimb.tsx:65-76 | completing and skipping onboarding give the same session whatever record was collected |
| App.PageForRoute | src/App.dailyclimb.tsx:81-87 | a page exists exactly for "/dashboard", "/history" and "/profile", and it is never the landing or onboarding page |
| App.Navigate | src/App.dailyclimb.tsx:78-88 | the route is always taken; the page changes to the route's page when it has one and stays otherwise; nothing else changes |
| App.Logout | src/App.dailyclimb.tsx:127-132 | landing page at "/", both flags false; audio mode, selection and drawer untouched |
| App.NotificationClicked | src/App.dailyclimb.tsx:250-256 | the drawer closes; the selection becomes the notification's content id exactly when that id is non-empty; nothing else changes |
| App.RenderedPage | src/App.dailyclimb.tsx:136-197 | landing when signed out, the wizard until onboarding is done, then history or profile when that is the state and the dashboard otherwise |
| App.NavigationIffAppPage | src/App.dailyclimb.tsx:136-205 | the navigation bar is shown exactly when one of the three app pages is rendered |
| App.FindContent | src/App.dailyclimb.tsx:134 | the item found has the selected id and is in the list; none is found only without a selection or when no item has that id |
| App.FindContentIsFirst | src/App.dailyclimb.tsx:134 | the item found is the first with the selected id |
| App.Apply | src/App.dailyclimb.tsx:90-125 | selecting content sets the selection, closing or completing clears it, the bell opens and the drawer's close closes the drawer, the audio toggle flips audio mode, each changing nothing else |
| App.InitialInv | src/App.dailyclimb.tsx:30-36 | the first session satisfies the session invariant |
| App.ApplyKeepsInv | src/App.dailyclimb.tsx:52-132 | every action offered on screen keeps the invariant: landing iff signed out, landing at "/", done implies signed in, onboarding iff signed in and not done |
| App.RenderedIsCurrent | src/App.dailyclimb.tsx:136-197 | on a session satisfying the invariant the page rendered is the page the state variable names |
| App.RunKeepsInv | src/App.dailyclimb.tsx:52-197 | after any sequence of offered actions the invariant holds and the rendered page is the state variable's page |
| App.DailyClimbApp.constructor | src/App.dailyclimb.tsx:30-50 | the initial session with audio mode set from the user's preference |
| App.DailyClimbApp.HandleGetStarted | src/App.dailyclimb.tsx:52-56 | the new state is `GetStarted` of the old |
| App.DailyClimbApp.HandleLogin | src/App.dailyclimb.tsx:58-63 | the new state is `Login` of the old |
| App.DailyClimbApp.HandleOnboardingComplete | src/App.dailyclimb.tsx:65-70 | the new state is `CompleteOnboarding` of the old |
| App.DailyClimbApp.HandleOnboardingSkip | src/App.dailyclimb.tsx:72-76 | the new state is `SkipOnboarding` of the old |
| App.DailyClimbApp.HandleNavigate | src/App.dailyclimb.tsx:78-88 | the new state is `Navigate` of the old |
| App.DailyClimbApp.HandleContentSelect | src/App.dailyclimb.tsx:90-92 | the selection becomes the id; nothing else changes |
| App.DailyClimbApp.HandleContentClose | src/App.dailyclimb.tsx:94-96 | the selection is cleared; nothing else changes |
| App.DailyClimbApp.HandleContentComplete | src/App.dailyclimb.tsx:98-101 | the selection is cleared; nothing else changes |
| App.DailyClimbApp.HandleNotificationClick | src/App.dailyclimb.tsx:115-117 | the drawer opens; nothing else changes |
| App.DailyClimbApp.HandleNotificationClose | src/App.dailyclimb.tsx:119-121 | the drawer closes; nothing else changes |
| App.DailyClimbApp.HandleNotificationItem | src/App.dailyclimb.tsx:250-256 | the new state is `NotificationClicked` of the old |
| App.DailyClimbApp.HandleAudioModeToggle | src/App.dailyclimb.tsx:123-125 | audio mode flips; nothing else changes |
| App.DailyClimbApp.HandleLogout | src/App.dailyclimb.tsx:127-132 | the new state is `Logout` of the old |
| App.DailyClimbApp.NotificationCount | src/App.dailyclimb.tsx:217 | the bell's count is the length of the unread list, at most the number of notifications, and 0 exactly when all are read |
| StringFormatters.TimeSlotLabelsDiffer | src/utils/stringFormatters.ts:5-12 | distinct time slots get distinct labels |
| StringFormatters.StatusLabelsDiffer | src/utils/stringFormatters.ts:14-22 | distinct statuses get distinct labels |
| StringFormatters.ExperienceLabelsDiffer | src/utils/stringFormatters.ts:24-32 | distinct experience levels get distinct labels |
| StringFormatters.LabelsAreDistinct | src/utils/stringFormatters.ts:5-36 | the time-slot, status, experience, salary and platform formatters are total and give distinct values distinct labels |
| StringFormatters.ExperienceLabelIsValueInYears | src/utils/stringFormatters.ts:24-32 | each experience label is the level's own value followed by " years" |
| StringFormatters.FormatSalaryRange | src/utils/stringFormatters.ts:34-36 | the label is the range's value itself |
| StringFormatters.FormatSocialPlatform | src/utils/stringFormatters.ts:65-67 | X is shown as "X (Twitter)", LinkedIn as its value |
| StringFormatters.FormatLearningTime | src/utils/stringFormatters.ts:38-45 | the label is never shorter than two characters; what it means is stated by the round trip below |
| StringFormatters.LearningTimeRoundTrip | src/utils/stringFormatters.ts:38-45 | the label reads back as the minutes: "M min" under an hour, otherwise "Hh Rm" with H·60 + R the minutes and R from 1 to 59, or "Hh" when R is 0 |
| StringFormatters.LearningTimeInjective | src/utils/stringFormatters.ts:38-45 | distinct durations get distinct labels |
| StringFormatters.FormatReadingTime | src/utils/stringFormatters.ts:47-50 | the learning-time label followed by the preference's suffix |
| StringFormatters.SuffixNamesPreference | src/utils/stringFormatters.ts:47-50 | whatever number precedes it, the reading-time label ends in " listen" exactly for the listening preference |
| StringFormatters.ListenIffListening | src/utils/stringFormatters.ts:47-50 | the label ends in " listen" exactly for the listening preference; reading and mixed end in " read" |
| StringFormatters.ReadingTimeReadsBack | src/utils/stringFormatters.ts:47-50 | the minutes read back from the label once the suffix is cut off |
| StringFormatters.FormatWeeklyProgress | src/utils/stringFormatters.ts:56-58 | the learning-time label followed by " learned this week" |
| StringFormatters.WeeklyProgressReadsBack | src/utils/stringFormatters.ts:56-58 | the weekly minutes read back from the line |
| StringFormatters.StreakReadsBack | src/utils/stringFormatters.ts:52-54 | the day count reads back right after the flame and the space |
| StringFormatters.CharacterCountRoundTrip | src/utils/stringFormatters.ts:69-71 | both numbers read back from "current/max characters" |
| StringFormatters.FormatTimeRange | src/utils/stringFormatters.ts:73-75 | the start time, " - ", then the end time |
| StringFormatters.TimeRangeSplits | src/utils/stringFormatters.ts:73-75 | two ranges whose start times have the same width are equal exactly when their start and end times are |
| StringFormatters.FormatArticleSource | src/utils/stringFormatters.ts:91-93 | the author, " • ", the publication, " • " and "N days ago", each at its own position |
| StringFormatters.SeparatedParts | src/utils/stringFormatters.ts:91-93 | each part of a line joined with separators lies at its own position |
| StringFormatters.ArticleSourceAgeReadsBack | src/utils/stringFormatters.ts:91-93 | the age in days reads back after the author, the publication and the separators |
| MobileNavigation.GetRouteIndex | src/components/navigation/MobileNavigation.tsx:42-57 | the index is one of the five tabs; a tab's route gives that tab; any other route gives the first |
| MobileNavigation.TabRoundTrip | src/components/navigation/MobileNavigation.tsx:42-61 | each tab's route maps back to that tab |
| MobileNavigation.HandleNavigationChange | src/components/navigation/MobileNavigation.tsx:59-62 | a tab index yields that tab's route, which highlights the same tab; an index outside the table yields no route |
| MobileNavigation.PickTabHighlightsIt | src/components/navigation/MobileNavigation.tsx:59-67 | navigating to a picked tab's route highlights it; "Listen" and "Social" have no page in the shell, so the page shown stays |
| DesktopNavigation.AtMostOneActive | src/components/navigation/DesktopNavigation.tsx:112-134 | at most one button is highlighted |
| DesktopNavigation.SearchRoute | src/components/navigation/DesktopNavigation.tsx:98 | the route starts with "/history?search=" |
| DesktopNavigation.Search | src/components/navigation/DesktopNavigation.tsx:95-100 | a route is produced exactly when the query is not blank after trimming, and it is the search route of the query as typed |
| DesktopNavigation.SearchReadsBack | src/components/navigation/DesktopNavigation.tsx:98 | decoding the part after the prefix gives the query back exactly |
| DesktopNavigation.SearchActivatesNoButton | src/components/navigation/DesktopNavigation.tsx:98-134 | a search route highlights no button and leaves the shell's page as it was |
| DesktopNavigation.ItemCall | src/components/navigation/DesktopNavigation.tsx:203-208 | Profile Settings navigates to "/profile", Logout calls the logout handler |
| DesktopNavigation.DesktopNavigationBar.constructor | src/components/navigation/DesktopNavigation.tsx:84-85 | empty query, no menu anchor |
| DesktopNavigation.DesktopNavigationBar.HandleUserMenuOpen | src/components/navigation/DesktopNavigation.tsx:87-89 | the menu is anchored at the avatar; the query is unchanged |
| DesktopNavigation.DesktopNavigationBar.HandleUserMenuClose | src/components/navigation/DesktopNavigation.tsx:91-93 | the anchor is cleared; the query is unchanged |
| DesktopNavigation.DesktopNavigationBar.SetSearchQuery | src/components/navigation/DesktopNavigation.tsx:85 | the query becomes the typed value; the menu is unchanged |
| DesktopNavigation.DesktopNavigationBar.HandleSearch | src/components/navigation/DesktopNavigation.tsx:95-100 | returns `Search` of the current query; nothing changes |
| DesktopNavigation.DesktopNavigationBar.HandleMenuItem | src/components/navigation/DesktopNavigation.tsx:203-208 | the item's call, then the menu closes; the query is unchanged |
| NotificationCenter.Unread | src/components/modals/NotificationCenter.tsx:125 | exactly the unread notifications, no more than there are |
| NotificationCenter.UnreadCount | src/components/modals/NotificationCenter.tsx:125 | the length of the unread list, at most the number of notifications, and 0 exactly when all are read |
| NotificationCenter.UnreadCountAppend | src/components/modals/NotificationCenter.tsx:125 | the count adds up over a concatenation of lists |
| NotificationCenter.ChipIffMarkAllEnabled | src/components/modals/NotificationCenter.tsx:141-156 | the count chip shows exactly when Mark All Read is enabled, and both mean some notification is unread |
| NotificationCenter.Icon | src/components/modals/NotificationCenter.tsx:99-110 | one emoji per category, the loudspeaker by default (corrected icons) |
| NotificationCenter.WrittenIconsAreMojibake | src/components/modals/NotificationCenter.tsx:99-110 | each icon as written is the UTF-8 encoding of the intended emoji read as Windows-1252, never the emoji; the alarm clock loses a byte |
| NotificationCenter.CategoriesLookDistinct | src/components/modals/NotificationCenter.tsx:99-123 | goal progress falls to the default icon and colour; distinct categories still get distinct icons and colours |
| NotificationCenter.LeftBorder | src/components/modals/NotificationCenter.tsx:187 | unread items get a border in their category colour, read items none |
| NotificationCenter.ActionButtons | src/components/modals/NotificationCenter.tsx:229-280 | buttons appear only for content-ready and snooze-reminder items, "Read Now" first; a snooze reminder has three |
| NotificationCenter.Rows | src/components/modals/NotificationCenter.tsx:180-285 | n notifications render 2n − 1 rows, items at even positions in order and dividers between |
| NotificationCenter.RowsFromAlternate | src/components/modals/NotificationCenter.tsx:180-285 | from any index on, items and dividers alternate, starting and ending with an item |
| NotificationCenter.DividersBetweenItems | src/components/modals/NotificationCenter.tsx:285 | a non-empty list has one divider fewer than items, and the last row is the last item |
| NotificationCenter.DividerCountFrom | src/components/modals/NotificationCenter.tsx:285 | the rows from index i carry one divider fewer than the items from i |
| NotificationCenter.OpenMenu | src/components/modals/NotificationCenter.tsx:81-85 | the menu opens, anchored at the button, and remembers the content id |
| NotificationCenter.Snooze | src/components/modals/NotificationCenter.tsx:87-97 | the snooze call is made exactly when the remembered id is present and non-empty, with that id and the duration; the menu always ends closed and forgets the id |
| NotificationCenter.SnoozeOnce | src/components/modals/NotificationCenter.tsx:81-97 | opening the menu for a content and choosing a duration snoozes exactly that content; a second choice without reopening forwards nothing |
| NotificationCenter.SnoozeMenu.constructor | src/components/modals/NotificationCenter.tsx:78-79 | closed, no content remembered |
| NotificationCenter.SnoozeMenu.HandleSnoozeMenuOpen | src/components/modals/NotificationCenter.tsx:81-85 | the new state is `OpenMenu` |
| NotificationCenter.SnoozeMenu.HandleSnoozeMenuClose | src/components/modals/NotificationCenter.tsx:87-90 | both variables cleared |
| NotificationCenter.SnoozeMenu.HandleSnooze | src/components/modals/NotificationCenter.tsx:92-97 | the new state and the call are `Snooze` of the old state |
| SocialMediaGenerator.CharacterLimit | src/components/modals/SocialMediaGenerator.tsx:194-196 | 3000 for LinkedIn and 280 for X, each exactly for its platform |
| SocialMediaGenerator.CharacterCountColor | src/components/modals/SocialMediaGenerator.tsx:198-203 | success below 80% of the limit, warning from 80% to below 95%, error from 95% on, each exactly in its band |
| SocialMediaGenerator.ColorNeverCalmsDown | src/components/modals/SocialMediaGenerator.tsx:198-203 | a longer post never shows a calmer colour |
| SocialMediaGenerator.OverLimitIsError | src/components/modals/SocialMediaGenerator.tsx:194-203 | a post over its platform's limit shows the error colour |
| SocialMediaGenerator.CharacterCount | src/components/modals/SocialMediaGenerator.tsx:261 | the count is the length in UTF-16 code units, between the number of characters and twice that |
| SocialMediaGenerator.PostNowStricterThanSchedule | src/components/modals/SocialMediaGenerator.tsx:448-464 | an enabled Post Now implies an enabled Schedule, but a blank post can be scheduled and not posted |
| SocialMediaGenerator.EnabledPostFits | src/components/modals/SocialMediaGenerator.tsx:464 | an enabled Post Now means the post fits its platform's limit, in code units and so in characters |
| SocialMediaGenerator.TemplateFor | src/components/modals/SocialMediaGenerator.tsx:135-159 | both templates open with "Just learned about "; only LinkedIn's names a source |
| SocialMediaGenerator.SourceName | src/components/modals/SocialMediaGenerator.tsx:143 | the first source's publication when there is one and it is non-empty, "Industry Research" otherwise; never empty |
| SocialMediaGenerator.Fill | src/components/modals/SocialMediaGenerator.tsx:135-157 | the template's opening, then the lower-cased title |
| SocialMediaGenerator.GeneratedPost | src/components/modals/SocialMediaGenerator.tsx:127-161 | the post is at least as long as the title |
| SocialMediaGenerator.PostOpensWithTitle | src/components/modals/SocialMediaGenerator.tsx:135-157 | every generated post starts with "Just learned about " and the lower-cased title |
| SocialMediaGenerator.PostDependsOnTitleAndSource | src/components/modals/SocialMediaGenerator.tsx:135-159 | items with the same lower-cased title (and, on LinkedIn, the same source name) get the same post |
| SocialMediaGenerator.FillEndsWithSource | src/components/modals/SocialMediaGenerator.tsx:143-145 | a template with a source slot ends the post with the source name and the hashtags |
| SocialMediaGenerator.HeaderTitle | src/components/modals/SocialMediaGenerator.tsx:285 | "Create Social Post" exactly with a selection, "Select Content to Share" exactly without |
| SocialMediaGenerator.PostFor | src/components/modals/SocialMediaGenerator.tsx:119-125 | an empty post without a selection, the filled template with one |
| SocialMediaGenerator.SocialPostModal.Chosen | src/components/modals/SocialMediaGenerator.tsx:159 | the template of the selected platform |
| SocialMediaGenerator.SocialPostModal.constructor | src/components/modals/SocialMediaGenerator.tsx:107-111 | no selection, LinkedIn, empty post and schedule |
| SocialMediaGenerator.SocialPostModal.SyncPost | src/components/modals/SocialMediaGenerator.tsx:119-125 | the post becomes `PostFor` the selection and platform; the rest is unchanged |
| SocialMediaGenerator.SocialPostModal.Open | src/components/modals/SocialMediaGenerator.tsx:113-125 | the selection becomes the parent's content; the post is rewritten only when that changes the selection, and otherwise keeps the user's edits |
| SocialMediaGenerator.SocialPostModal.HandleContentSelect | src/components/modals/SocialMediaGenerator.tsx:186-188 | the item is selected; its post is written unless it already was the selection |
| SocialMediaGenerator.SocialPostModal.HandlePlatformChange | src/components/modals/SocialMediaGenerator.tsx:163-165 | a newly picked platform rewrites the post from its template, dropping edits; picking the current one keeps the post |
| SocialMediaGenerator.SocialPostModal.HandleRegeneratePost | src/components/modals/SocialMediaGenerator.tsx:167-169 | the post is written again; without a selection nothing changes |
| SocialMediaGenerator.SocialPostModal.EditPost | src/components/modals/SocialMediaGenerator.tsx:360 | the post becomes the typed text; the rest is unchanged |
| SocialMediaGenerator.SocialPostModal.SetScheduledTime | src/components/modals/SocialMediaGenerator.tsx:404 | the schedule becomes the chosen value; the rest is unchanged |
| SocialMediaGenerator.SocialPostModal.HandleBackArrow | src/components/modals/SocialMediaGenerator.tsx:190-192 | with a selection, it is cleared and the post emptied; without, the modal closes |
| SocialMediaGenerator.SocialPostModal.HandlePostNow | src/components/modals/SocialMediaGenerator.tsx:171-174 | posts the text without a schedule, then closes; what is posted fits the limit and is not blank |
| SocialMediaGenerator.SocialPostModal.HandleSchedulePost | src/components/modals/SocialMediaGenerator.tsx:176-179 | posts the text with the non-empty schedule, then closes; what is posted fits the limit |
| SocialMediaGenerator.SocialPostModal.HandleSaveDraft | src/components/modals/SocialMediaGenerator.tsx:181-184 | saves the text for the platform, then closes |
| ContentDetailModal.Duration | src/components/modals/ContentDetailModal.tsx:112 | whole minutes in seconds: the listening time in audio mode, the reading time otherwise |
| ContentDetailModal.Rem60 | src/components/modals/ContentDetailModal.tsx:130 | JavaScript's remainder by 60: it differs from the number by a multiple of 60, has the number's sign, and is Dafny's for non-negative numbers |
| ContentDetailModal.TwoDigits | src/components/modals/ContentDetailModal.tsx:131 | seconds below 60 are printed as exactly two digits that read back as the number |
| ContentDetailModal.FormatTime | src/components/modals/ContentDetailModal.tsx:128-132 | for a non-negative time, the whole minutes, a colon and the two-digit remaining seconds |
| ContentDetailModal.MinutesAndSecondsReadBack | src/components/modals/ContentDetailModal.tsx:128-132 | whole minutes, a colon and two digits making less than 60 read back as minutes·60 + their value |
| ContentDetailModal.TimeRoundTrip | src/components/modals/ContentDetailModal.tsx:128-132 | every non-negative time reads back from "m:ss" as minutes·60 + seconds |
| ContentDetailModal.TotalTimeIsWholeMinutes | src/components/modals/ContentDetailModal.tsx:112-132 | the total under the slider is the item's minutes followed by ":00" |
| ContentDetailModal.OneSpeedHighlighted | src/components/modals/ContentDetailModal.tsx:214-225 | once a listed speed is chosen exactly that speed button is filled |
| ContentDetailModal.Render | src/components/modals/ContentDetailModal.tsx:110-270 | nothing without an item; with one, its title and the player exactly in audio mode, the pause icon while playing, the total in whole minutes and an elapsed time that reads back as the position |
| ContentDetailModal.DetailModal.constructor | src/components/modals/ContentDetailModal.tsx:105-108 | paused at 0, volume 75, speed 1 |
| ContentDetailModal.DetailModal.HandlePlayPause | src/components/modals/ContentDetailModal.tsx:115-117 | playing flips, so two presses restore it; nothing else changes |
| ContentDetailModal.DetailModal.HandleSeek | src/components/modals/ContentDetailModal.tsx:119-122 | the position becomes the slider value exactly; nothing else changes |
| ContentDetailModal.DetailModal.HandleSpeedChange | src/components/modals/ContentDetailModal.tsx:124-126 | the speed becomes the chosen one; nothing else changes |
| ContentDetailModal.DetailModal.SetVolume | src/components/modals/ContentDetailModal.tsx:236-241 | the volume becomes the slider value; nothing else changes |
| ContentCard.TimeSlotColor | src/components/content/ContentCard.tsx:83-94 | case-insensitively, amber exactly for "morning", purple exactly for "evening", blue for anything else |
| ContentCard.SlotColor | src/components/content/ContentCard.tsx:83-94 | the three slots of the enumeration, whose values are capitalised, get amber, blue and purple |
| ContentCard.SelectMode | src/components/content/ContentCard.tsx:96-97 | audio mode selects the listening time and "Listen Now", reading mode the reading time and "Read Now" |
| ContentCard.ReadingTimeLabelNamesMode | src/components/content/ContentCard.tsx:96-151 | the label ends in " listen" exactly in audio mode, its duration reads back as the selected minutes, and those minutes are the modal player's length |
| ContentCard.ShownTags | src/components/content/ContentCard.tsx:156 | the first tags in their order, all of them up to three, exactly three beyond |
| ContentCard.ProgressLabel | src/components/content/ContentCard.tsx:121-138 | shown exactly for progress above 0, and its number reads back as the progress |
| ContentCard.Render | src/components/content/ContentCard.tsx:100-183 | the slot colour, the progress bar only above 0, at most three tags and the mode's button text |
| ContentCard.ItemCall | src/components/content/ContentCard.tsx:73-81 | Skip Today calls skip with the item's id; the other items call snooze with the item's id |
| ContentCard.SnoozeDurationsDiffer | src/components/content/ContentCard.tsx:193-201 | the three snooze items forward three different durations |
| ContentCard.ItemCalls | src/components/content/ContentCard.tsx:186-205 | an item click makes its own call only, never opening the item (corrected) |
| ContentCard.MenuItemAlsoOpensContent | src/components/content/ContentCard.tsx:101-205 | as written, an item click also reaches the card's click handler and opens the item; the intended calls are the first of those made |
| ContentCard.ClickCalls | src/components/content/ContentCard.tsx:101-183 | a click on the card or on its button opens the item once |
| ContentCard.CardMenu.constructor | src/components/content/ContentCard.tsx:62 | the menu starts closed |
| ContentCard.CardMenu.HandleMenuOpen | src/components/content/ContentCard.tsx:64-67 | the menu is anchored at the icon and the card's click handler is not reached |
| ContentCard.CardMenu.HandleMenuClose | src/components/content/ContentCard.tsx:69-71 | the menu closes |
| ContentCard.CardMenu.HandleSnooze | src/components/content/ContentCard.tsx:73-76 | forwards the item's id and the duration, then the menu closes |
| ContentCard.CardMenu.HandleSkip | src/components/content/ContentCard.tsx:78-81 | forwards the item's id, then the menu closes |
| ContentCard.CardMenu.SelectItem | src/components/content/ContentCard.tsx:186-205 | the item's call alone, with the menu closed afterwards |
| StatusBadge.StatusColor | src/components/ui/StatusBadge.tsx:11-24 | success exactly for "completed", primary exactly for "pending", warning exactly for "snoozed", default otherwise |
| StatusBadge.StatusIcon | src/components/ui/StatusBadge.tsx:26-39 | an icon exactly for the four status values, the empty string otherwise |
| StatusBadge.NoStatusFallsThrough | src/components/ui/StatusBadge.tsx:21-37 | every status reaches a case of its own in both lookups, with the colours success, primary, warning and default |
| StatusBadge.IconHead | src/components/ui/StatusBadge.tsx:26-39 | every status's icon is non-empty and starts with its own emoji |
| StatusBadge.IconsDiffer | src/components/ui/StatusBadge.tsx:26-39 | each status has its own icon |
| StatusBadge.Label | src/components/ui/StatusBadge.tsx:43 | the icon, a space, then the status in words |
| StatusBadge.LabelsDiffer | src/components/ui/StatusBadge.tsx:43 | distinct statuses get distinct labels |
| OnboardingFlow.Initial | src/components/onboarding/OnboardingFlow.tsx:66-69 | a fresh wizard is at step 1 with a record holding only `step: 1` |
| OnboardingFlow.Merge | src/components/onboarding/OnboardingFlow.tsx:74 | the record's keys are the old ones and the fragment's; the fragment's values win, every other key keeps its value, and `step` is forced |
| OnboardingFlow.Submit | src/components/onboarding/OnboardingFlow.tsx:73-82 | the record becomes the merge with `step` = current + 1; at step 7 `onComplete` receives it and the step stays, before it the step rises by one and nothing completes |
| OnboardingFlow.Back | src/components/onboarding/OnboardingFlow.tsx:84-88 | one step back above step 1, no change at step 1; the record never changes |
| OnboardingFlow.BackButtonShownIffBackMoves | src/components/onboarding/OnboardingFlow.tsx:84-132 | the back arrow is shown exactly when going back changes the state |
| OnboardingFlow.RenderedStep | src/components/onboarding/OnboardingFlow.tsx:90-115 | the form of the current step, step 1 for any value outside 1..7 |
| OnboardingFlow.Step | src/components/onboarding/OnboardingFlow.tsx:73-145 | Exit Setup calls `onSkip` and changes nothing; back calls nothing |
| OnboardingFlow.StepStaysInRange | src/components/onboarding/OnboardingFlow.tsx:71-88 | the current step stays within 1..7 under any sequence of submissions, backs and exits |
| OnboardingFlow.MergeCollectsStepKeys | src/components/onboarding/OnboardingFlow.tsx:74 | merging step n's fragment into a record holding the keys of the earlier steps yields a record holding the keys of steps 1 to n |
| OnboardingFlow.AllStepsCollectAllKeys | src/components/onboarding/OnboardingFlow.tsx:74 | the seven forms together supply every key, the undeclared `timezone` among them |
| OnboardingFlow.MergeWellTyped | src/components/onboarding/OnboardingFlow.tsx:74 | merging well-typed fragments keeps the record well typed |
| OnboardingFlow.SubmitKeepsInv | src/components/onboarding/OnboardingFlow.tsx:73-82 | a submission from the form shown keeps the invariant (step in range, record well typed, holding every earlier step's keys), and a completion passes all seven steps' keys with `step` = 8 |
| OnboardingFlow.StepKeepsInv | src/components/onboarding/OnboardingFlow.tsx:73-145 | every action keeps the invariant, and a completion it fires passes the whole record |
| OnboardingFlow.CompletionCarriesAllSteps | src/components/onboarding/OnboardingFlow.tsx:71-88 | whatever the user does, `onComplete` only ever receives a record with all seven steps' keys and `step` = 8 |
| OnboardingFlow.InitialInv | src/components/onboarding/OnboardingFlow.tsx:66-69 | the fresh wizard satisfies the invariant |
| OnboardingFlow.BacksKeepRecord | src/components/onboarding/OnboardingFlow.tsx:84-88 | any number of backs leaves the record as it was |
| OnboardingFlow.ResubmitOverwritesOnlyItsKeys | src/components/onboarding/OnboardingFlow.tsx:74 | a re-submission replaces only the keys its form supplies, and submitting the same fragment twice gives the record once |
| OnboardingFlow.Flow.constructor | src/components/onboarding/OnboardingFlow.tsx:66-69 | the state is `Initial` |
| OnboardingFlow.Flow.HandleStepComplete | src/components/onboarding/OnboardingFlow.tsx:73-82 | the new state and the completed record are `Submit` of the old state |
| OnboardingFlow.Flow.HandleStepBack | src/components/onboarding/OnboardingFlow.tsx:84-88 | the new state is `Back` of the old |
| OnboardingFlow.Flow.ExitSetupClicked | src/components/onboarding/OnboardingFlow.tsx:139-145 | calls `onSkip` and changes nothing |
| OnboardingFlow.Flow.RenderCurrentStep | src/components/onboarding/OnboardingFlow.tsx:90-115 | the number of the step form rendered, within 1..7, the current step when it is in range |
| FormErrors.ClearError | src/components/onboarding/steps/OnboardingStep1.tsx:38-40 | a field showing an error gets an empty message; the map keeps its keys, the other entries are unchanged, and a field without an error changes nothing |
| OnboardingStep1.Set | src/components/onboarding/steps/OnboardingStep1.tsx:37 | the named field takes the value and every other field keeps its own |
| OnboardingStep1.Prefill | src/components/onboarding/steps/OnboardingStep1.tsx:26-32 | without stored professional information every field is ""; with it every stored field is kept, and an absent salary range becomes "" |
| OnboardingStep1.ErrorsFlagExactly | src/components/onboarding/steps/OnboardingStep1.tsx:43-60 | job title and company are flagged exactly when blank after trimming, industry and experience exactly when empty, the salary range never; each flagged entry shows its message, and the map is empty exactly when the form is valid |
| OnboardingStep1.ToFragment | src/components/onboarding/steps/OnboardingStep1.tsx:65-73 | one `professionalInfo` fragment carrying the form's job title, company, industry and experience, and its salary range, undefined exactly when left blank |
| OnboardingStep1.PrefillAfterSubmit | src/components/onboarding/steps/OnboardingStep1.tsx:26-74 | coming back to step 1 after submitting it shows the form as submitted |
| OnboardingStep1.Step1Form.constructor | src/components/onboarding/steps/OnboardingStep1.tsx:26-34 | the prefilled form and no errors |
| OnboardingStep1.Step1Form.HandleInputChange | src/components/onboarding/steps/OnboardingStep1.tsx:36-41 | only the field changes and only its error is cleared |
| OnboardingStep1.Step1Form.ValidateForm | src/components/onboarding/steps/OnboardingStep1.tsx:43-61 | the error map is replaced by `Errors` of the form, and the result is true exactly for a valid form |
| OnboardingStep1.Step1Form.HandleNext | src/components/onboarding/steps/OnboardingStep1.tsx:63-75 | `onNext` receives the fragment exactly when the form is valid |
| OnboardingStep2.Apply | src/components/onboarding/steps/OnboardingStep2.tsx:44 | the edited field shows the value, every other field keeps its own |
| OnboardingStep2.Prefill | src/components/onboarding/steps/OnboardingStep2.tsx:34-39 | without stored data: empty domain and challenge, skill level 5, no technologies; with stored data the domain, technologies and challenge are kept, and the skill level unless it is 0, which becomes 5 |
| OnboardingStep2.ErrorsFlagExactly | src/components/onboarding/steps/OnboardingStep2.tsx:50-64 | domain and challenge are flagged exactly when blank after trimming, technologies exactly when empty, the skill level never; the map is empty exactly when the form is valid |
| OnboardingStep2.ToFragment | src/components/onboarding/steps/OnboardingStep2.tsx:69-71 | one `domainExpertise` fragment whose value is the form |
| OnboardingStep2.PrefillAfterSubmit | src/components/onboarding/steps/OnboardingStep2.tsx:34-73 | coming back to step 2 shows the submitted form, for every skill level the slider can give |
| OnboardingStep2.SkillLevelLabel | src/components/onboarding/steps/OnboardingStep2.tsx:75-80 | Beginner exactly up to 2, Intermediate exactly from 3 to 5, Advanced exactly from 6 to 8, Expert exactly above |
| OnboardingStep2.LabelAndColorChangeTogether | src/components/onboarding/steps/OnboardingStep2.tsx:75-87 | two levels share a label exactly when they share a colour |
| OnboardingStep2.Step2Form.constructor | src/components/onboarding/steps/OnboardingStep2.tsx:34-41 | the prefilled form and no errors |
| OnboardingStep2.Step2Form.HandleInputChange | src/components/onboarding/steps/OnboardingStep2.tsx:43-48 | only the field changes and only its error is cleared |
| OnboardingStep2.Step2Form.ValidateForm | src/components/onboarding/steps/OnboardingStep2.tsx:50-65 | the error map is replaced by `Errors` of the form, and the result is true exactly for a valid form |
| OnboardingStep2.Step2Form.HandleNext | src/components/onboarding/steps/OnboardingStep2.tsx:67-73 | `onNext` receives the fragment exactly when the form is valid |
| OnboardingStep3.Apply | src/components/onboarding/steps/OnboardingStep3.tsx:56 | the edited field shows the value, every other field keeps its own |
| OnboardingStep3.Prefill | src/components/onboarding/steps/OnboardingStep3.tsx:46-51 | without stored data: no style or pace, balance 5, daily time 0; with it style, pace and daily time are kept and a balance of 0 becomes 5; the balance is never 0 |
| OnboardingStep3.ErrorsFlagExactly | src/components/onboarding/steps/OnboardingStep3.tsx:62-77 | style and pace are flagged exactly when empty, the daily time exactly when 0, the balance never; the map is empty exactly when the form is valid |
| OnboardingStep3.FreshFormNeedsChoices | src/components/onboarding/steps/OnboardingStep3.tsx:46-77 | a fresh form fails, and choosing a style, a listed pace and a listed daily time makes it valid whatever the balance |
| OnboardingStep3.ToFragment | src/components/onboarding/steps/OnboardingStep3.tsx:81-83 | one `learningPreferences` fragment whose value is the form |
| OnboardingStep3.PrefillAfterSubmit | src/components/onboarding/steps/OnboardingStep3.tsx:46-85 | coming back to step 3 shows the submitted form, for every balance the slider can give |
| OnboardingStep3.Step3Form.constructor | src/components/onboarding/steps/OnboardingStep3.tsx:46-53 | the prefilled form and no errors |
| OnboardingStep3.Step3Form.HandleInputChange | src/components/onboarding/steps/OnboardingStep3.tsx:55-60 | only the field changes and only its error is cleared |
| OnboardingStep3.Step3Form.ValidateForm | src/components/onboarding/steps/OnboardingStep3.tsx:62-77 | the error map is replaced by `Errors` of the form, and the result is true exactly for a valid form |
| OnboardingStep3.Step3Form.HandleNext | src/components/onboarding/steps/OnboardingStep3.tsx:79-85 | `onNext` receives the fragment exactly when the form is valid |
| OnboardingStep4.EditConfig | src/components/onboarding/steps/OnboardingStep4.tsx:75-78 | the edited field of the slot shows the value, the slot's other fields keep theirs |
| OnboardingStep4.UpdateSlot | src/components/onboarding/steps/OnboardingStep4.tsx:72-80 | only the named field of the named slot changes; every other slot is unchanged |
| OnboardingStep4.DisableThenEnableRestores | src/components/onboarding/steps/OnboardingStep4.tsx:72-120 | disabling a slot hides its times, and enabling it again restores the slot with its stored times |
| OnboardingStep4.Prefill | src/components/onboarding/steps/OnboardingStep4.tsx:63-70 | without a stored schedule the three default windows (08:00-10:00, 13:00-15:00, 18:00-20:00, all enabled, so every slot shows its times), otherwise the stored one; without a stored timezone America/New_York; the timezone is never empty |
| OnboardingStep4.ToFragment | src/components/onboarding/steps/OnboardingStep4.tsx:83-86 | exactly two keys, `schedule` and the undeclared `timezone` |
| OnboardingStep4.PrefillAfterSubmit | src/components/onboarding/steps/OnboardingStep4.tsx:63-87 | coming back to step 4 shows the submitted schedule and timezone |
| OnboardingStep4.TimezoneLabelReplacesFirstOnly | src/components/onboarding/steps/OnboardingStep4.tsx:195 | a label without underscores is the timezone itself; otherwise exactly one underscore, the first, becomes a space |
| OnboardingStep4.Step4Form.constructor | src/components/onboarding/steps/OnboardingStep4.tsx:63-70 | the prefilled schedule and timezone |
| OnboardingStep4.Step4Form.HandleTimeSlotChange | src/components/onboarding/steps/OnboardingStep4.tsx:72-80 | the schedule becomes `UpdateSlot` of the old; the timezone is unchanged |
| OnboardingStep4.Step4Form.SetTimezone | src/components/onboarding/steps/OnboardingStep4.tsx:187 | the timezone becomes the chosen one; the schedule is unchanged |
| OnboardingStep4.Step4Form.HandleNext | src/components/onboarding/steps/OnboardingStep4.tsx:82-87 | always submits the schedule and the timezone, without validation |
| OnboardingStep5.TypeChange | src/components/onboarding/steps/OnboardingStep5.tsx:40-52 | ticking appends the type at the end; unticking removes every occurrence and keeps the rest; the radios are untouched |
| OnboardingStep5.ClickTwice | src/components/onboarding/steps/OnboardingStep5.tsx:40-52 | ticking then unticking an unticked type restores the form; unticking then ticking leaves it ticked |
| OnboardingStep5.Prefill | src/components/onboarding/steps/OnboardingStep5.tsx:34-38 | without stored data: push notifications, "1 hour" and "2 attempts"; stored types are kept; neither radio is ever empty |
| OnboardingStep5.ToFragment | src/components/onboarding/steps/OnboardingStep5.tsx:55-57 | one `notifications` fragment holding the whole form |
| OnboardingStep5.PrefillAfterSubmit | src/components/onboarding/steps/OnboardingStep5.tsx:34-58 | coming back to step 5 shows the submitted form when both radios hold one of their options |
| OnboardingStep5.Step5Form.constructor | src/components/onboarding/steps/OnboardingStep5.tsx:34-38 | the prefilled form |
| OnboardingStep5.Step5Form.HandleTypeChange | src/components/onboarding/steps/OnboardingStep5.tsx:40-52 | the form becomes `TypeChange` of the old |
| OnboardingStep5.Step5Form.SetSnoozeDuration | src/components/onboarding/steps/OnboardingStep5.tsx:100 | only the snooze duration changes |
| OnboardingStep5.Step5Form.SetMaxReminders | src/components/onboarding/steps/OnboardingStep5.tsx:130 | only the reminder count changes |
| OnboardingStep5.Step5Form.HandleNext | src/components/onboarding/steps/OnboardingStep5.tsx:54-58 | always submits the form, even with no type ticked |
| OnboardingStep6.Apply | src/components/onboarding/steps/OnboardingStep6.tsx:48 | the edited field shows the value, every other field keeps its own |
| OnboardingStep6.Prefill | src/components/onboarding/steps/OnboardingStep6.tsx:35-43 | without stored data: empty texts, not switching, satisfaction 7, no skills; with it every field is kept except a satisfaction of 0, which becomes 7; the satisfaction is never 0 |
| OnboardingStep6.ErrorsFlagExactly | src/components/onboarding/steps/OnboardingStep6.tsx:54-69 | the short-term goal, long-term goal and target role are flagged exactly when blank after trimming, the rest never; the map is empty exactly when the form is valid |
| OnboardingStep6.ToFragment | src/components/onboarding/steps/OnboardingStep6.tsx:73-75 | one `goals` fragment holding the whole form |
| OnboardingStep6.PrefillAfterSubmit | src/components/onboarding/steps/OnboardingStep6.tsx:35-77 | coming back to step 6 shows the submitted form, for every satisfaction the slider can give |
| OnboardingStep6.SatisfactionBand | src/components/onboarding/steps/OnboardingStep6.tsx:79-85 | five bands: up to 3, 4–5, 6–7, 8–9 and above 9, each value in exactly one |
| OnboardingStep6.EmojiPerBand | src/components/onboarding/steps/OnboardingStep6.tsx:79-85 | two values show the same emoji exactly when they fall in the same band |
| OnboardingStep6.ParseSwitch | src/components/onboarding/steps/OnboardingStep6.tsx:175 | true exactly for the string "true" |
| OnboardingStep6.SwitchRoundTrip | src/components/onboarding/steps/OnboardingStep6.tsx:174-175 | a boolean shown by the radio and read back is the same boolean |
| OnboardingStep6.Step6Form.constructor | src/components/onboarding/steps/OnboardingStep6.tsx:35-45 | the prefilled form and no errors |
| OnboardingStep6.Step6Form.HandleInputChange | src/components/onboarding/steps/OnboardingStep6.tsx:47-52 | only the field changes and only its error is cleared |
| OnboardingStep6.Step6Form.HandleSwitchChange | src/components/onboarding/steps/OnboardingStep6.tsx:175 | the flag becomes whether the radio's value is "true"; only its error is cleared |
| OnboardingStep6.Step6Form.ValidateForm | src/components/onboarding/steps/OnboardingStep6.tsx:54-69 | the error map is replaced by `Errors` of the form, and the result is true exactly for a valid form |
| OnboardingStep6.Step6Form.HandleNext | src/components/onboarding/steps/OnboardingStep6.tsx:71-77 | `onNext` receives the fragment exactly when the form is valid |
| OnboardingStep7.AccountConnect | src/components/onboarding/steps/OnboardingStep7.tsx:59-71 | the platform's connection flips; every other platform and the other fields are unchanged |
| OnboardingStep7.ConnectTwice | src/components/onboarding/steps/OnboardingStep7.tsx:59-71 | toggling the same platform twice restores whether it is connected, and restores the form when it was not |
| OnboardingStep7.ContentTypeChange | src/components/onboarding/steps/OnboardingStep7.tsx:73-85 | ticking appends the type at the end; unticking removes every occurrence and keeps the rest; the other fields are untouched |
| OnboardingStep7.ContentTypeTwice | src/components/onboarding/steps/OnboardingStep7.tsx:73-85 | ticking then unticking an unticked type restores the form; unticking then ticking leaves it ticked |
| OnboardingStep7.Prefill | src/components/onboarding/steps/OnboardingStep7.tsx:51-55 | without stored data: no accounts, "Weekly", industry insights; stored accounts are kept; the frequency is never empty |
| OnboardingStep7.ToFragment | src/components/onboarding/steps/OnboardingStep7.tsx:102-104 | one `socialIntegration` fragment holding the whole form |
| OnboardingStep7.PrefillAfterSubmit | src/components/onboarding/steps/OnboardingStep7.tsx:51-105 | coming back to step 7 shows the submitted form when the frequency is one of its options |
| OnboardingStep7.SamplePostWith | src/components/onboarding/steps/OnboardingStep7.tsx:88-96 | the first point of the sample post opens with the given bullet mark |
| OnboardingStep7.WrittenBulletIsMojibake | src/components/onboarding/steps/OnboardingStep7.tsx:90-92 | the bullet as written is the UTF-8 encoding of the blue diamond read as Windows-1252, four characters instead of one, so the written post differs from the intended one |
| OnboardingStep7.Step7Form.constructor | src/components/onboarding/steps/OnboardingStep7.tsx:51-57 | the prefilled form and no post |
| OnboardingStep7.Step7Form.HandleAccountConnect | src/components/onboarding/steps/OnboardingStep7.tsx:59-71 | the form becomes `AccountConnect` of the old; the post is unchanged |
| OnboardingStep7.Step7Form.HandleContentTypeChange | src/components/onboarding/steps/OnboardingStep7.tsx:73-85 | the form becomes `ContentTypeChange` of the old; the post is unchanged |
| OnboardingStep7.Step7Form.SetPostingFrequency | src/components/onboarding/steps/OnboardingStep7.tsx:162 | only the frequency changes |
| OnboardingStep7.Step7Form.HandleGenerateTestPost | src/components/onboarding/steps/OnboardingStep7.tsx:87-99 | the post becomes the sample post, with its intended bullets, and the preview shows |
| OnboardingStep7.Step7Form.EditPost | src/components/onboarding/steps/OnboardingStep7.tsx:238 | the post becomes the typed text; the form is unchanged |
| OnboardingStep7.Step7Form.HandleNext | src/components/onboarding/steps/OnboardingStep7.tsx:101-105 | always submits the form alone under `socialIntegration`; the sample post is not submitted |
| Strings.Trim | src/components/navigation/DesktopNavigation.tsx:97 | `trim()`: the result is a contiguous part of the string with only ECMAScript white space before and after it, and it neither starts nor ends with white space |
| Strings.BlankIffTrimEmpty | src/components/navigation/DesktopNavigation.tsx:97 | a string is blank exactly when trimming leaves nothing |
| Strings.AsciiLower | src/components/content/ContentCard.tsx:84 | `toLowerCase()` on ASCII letters: same length, each character lowered |
| Strings.AsciiLowerIdempotent | src/components/content/ContentCard.tsx:84 | lowering twice is lowering once |
| Strings.BlankIffAllWhitespace | src/components/navigation/DesktopNavigation.tsx:97 | a string is blank exactly when every character is white space |
| Strings.IndexOf | src/components/onboarding/steps/OnboardingStep4.tsx:195 | the first position of the character, and -1 exactly when it does not occur |
| Strings.PadStart | src/components/modals/ContentDetailModal.tsx:131 | `padStart`: the string ends the result, preceded by fill characters up to the width |
| Strings.ReplaceFirstSpec | src/components/onboarding/steps/OnboardingStep4.tsx:195 | `replace` with a one-character pattern changes only its first occurrence |
| Unicode.Utf16Length | src/components/modals/SocialMediaGenerator.tsx:261 | `.length` counts UTF-16 code units: between one and two per character, and exactly one per character when all lie in the Basic Multilingual Plane |
| Unicode.Utf16LengthAppend | src/components/modals/SocialMediaGenerator.tsx:261 | the count of a concatenation is the sum of the counts |
| Unicode.Utf8Encode | src/components/modals/NotificationCenter.tsx:99-110 | one to four bytes per character, one exactly for ASCII; a valid lead byte followed by continuation bytes |
| Unicode.Utf8EncodeString | src/components/modals/NotificationCenter.tsx:99-110 | between one and four bytes per character |
| Unicode.Cp1252Misread | src/components/modals/NotificationCenter.tsx:99-110 | reading bytes as Windows-1252 gives at most one character per byte |
| Unicode.Utf8RoundTrip | src/components/modals/NotificationCenter.tsx:99-110 | decoding a string's UTF-8 encoding gives the string back, so the encoding the misread icons come from is faithful |
| Uri.EncodeURIComponent | src/components/navigation/DesktopNavigation.tsx:98 | `encodeURIComponent`: at least as long as the input and at most twelve times as long |
| Uri.EncodeRoundTrip | src/components/navigation/DesktopNavigation.tsx:98 | decoding the encoding of any string gives it back |
| Uri.EncodedIsQuerySafe | src/components/navigation/DesktopNavigation.tsx:98 | the encoding holds only unreserved characters, '%' and hex digits |
| Lists.RemoveAll | src/components/onboarding/steps/OnboardingStep5.tsx:49 | `filter(t => t !== x)`: every x removed, the other elements kept with their counts |
| Lists.RemoveAllAppend | src/components/onboarding/steps/OnboardingStep5.tsx:49 | filtering a concatenation filters each part, so the kept elements keep their order |
| Lists.CheckboxChange | src/components/onboarding/steps/OnboardingStep5.tsx:40-52 | ticking appends the element after the old list; unticking removes every occurrence and keeps the rest |
| Lists.Toggle | src/components/onboarding/steps/OnboardingStep7.tsx:59-71 | the element is present afterwards exactly when it was absent; the other elements keep their counts |
| Lists.CheckboxTwice | src/components/onboarding/steps/OnboardingStep5.tsx:40-52 | ticking then unticking an absent element restores the list; unticking then ticking leaves it present |
| Lists.ToggleTwice | src/components/onboarding/steps/OnboardingStep7.tsx:59-71 | toggling twice restores membership, restores an absent element's list, and moves a present element to the end |
| Lists.Take | src/components/content/ContentCard.tsx:156 | `slice(0, n)`: the first n elements in order, or all when there are fewer |

## Left out

- Percentages computed in floating point are not modelled: the card's progress bar, the detail modal's reading progress and "minutes left" (`src/components/modals/ContentDetailModal.tsx:113`, `:272`), the value passed to `onProgressUpdate` (`:121`), `formatProgressPercentage` (`src/utils/stringFormatters.ts:60-63`) and the wizard's progress bar. Playback speed and volume are held as plain values.
- SocialMediaGenerator.CharacterCountColor: the 80% and 95% thresholds are compared by integer cross-multiplication, so a floating-point rounding of `count / limit` exactly at a threshold is not modelled.
- SocialMediaGenerator.SocialPostModal.Valid: `Valid()` (no post text without a selection) is a property of the settled state only. Pressing the back arrow during the 1.5-second generation wait lets the pending `setPostContent` (`src/components/modals/SocialMediaGenerator.tsx:127-161`) write a post while nothing is selected; the model does not capture that interleaving.
- SocialMediaGenerator.SocialPostModal.Open: React compares the selected content by object identity, the model by value; a different object with the same fields re-runs the post effect in the source but not in the model.
- Post generation waits on a 1.5-second timer (`src/components/modals/SocialMediaGenerator.tsx:133`); the model takes the settled outcome and leaves out the interval in which `isGenerating` is set.
- React effects and re-renders are explicit steps (`SyncAudioMode`, `SyncPost`) rather than something the runtime schedules; their timing relative to other events is not modelled.
- `formatNotificationTime` (`src/utils/stringFormatters.ts:77-89`) reads the clock and is not modelled.
- Strings.AsciiLower: lowers ASCII letters only. For the time-slot colour in `src/components/content/ContentCard.tsx:84` this makes no difference, since no non-ASCII character lowers to a letter of "morning" or "evening"; but the content title lowered in `src/components/modals/SocialMediaGenerator.tsx:135` and `:147` may not be: a title such as "Über" is lowered by `toLowerCase` and left as it is by the model, and lowering can change the UTF-16 length ("İ" becomes two code units), which the generated post's prefix and its character count then do not reflect.
- Callbacks that only log to the console (`src/App.dailyclimb.tsx:66-112`, `:237-258`: completing content, snoozing, skipping, the daily summary, progress updates, save for later, generate post, mark as read, mark all as read) are modelled as the calls a component makes, with no effect on the application state.
- Styling, layout and presentational files (the landing page, dashboard layout, glass card, progress ring, sidebar and top bar) and the mock data are not part of this model.
- The previous and next buttons in the detail modal's player have no handler and are not modelled.
- ContentDetailModal.TimeRoundTrip: stated for non-negative times, which are all the seek slider produces; `formatTime` of a negative number is not covered.
- StringFormatters.FormatLearningTime: its own contract only bounds the label's length; what the label means is stated by `LearningTimeRoundTrip` and `LearningTimeInjective`.
- The `onClose` and `onAudioModeToggle` props passed straight through to child components, the timezone select's option list and the target-skills autocomplete's suggestions are not modelled beyond the values they yield.

## Findings

| source | as written | input that shows it | evidently intended | confidence | as-written member | corrected member |
|---|---|---|---|---|---|---|
| src/components/modals/NotificationCenter.tsx:99-110 | each category icon is the emoji's UTF-8 bytes read as Windows-1252, several Latin characters | any notification, e.g. the achievement category | the emoji itself | not executed | NotificationCenter.WrittenIconsAreMojibake | NotificationCenter.Icon |
| src/components/onboarding/steps/OnboardingStep7.tsx:88-96 | the sample post's bullets are four Latin characters, the blue diamond's UTF-8 bytes read as Windows-1252 | clicking "Generate test post" | one blue-diamond bullet per point | not executed | OnboardingStep7.WrittenBulletIsMojibake | OnboardingStep7.Step7Form.HandleGenerateTestPost |
| src/components/content/ContentCard.tsx:101-205 | the menu is rendered inside the card, and its item handlers do not stop propagation, so the click also reaches the card's `onClick` | choosing "Snooze 1 hour" or "Skip today" on a card | snoozing or skipping without opening the item | not executed | ContentCard.MenuItemAlsoOpensContent | ContentCard.ItemCalls |

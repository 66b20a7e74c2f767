/**
 * The application shell: the session flags (authenticated, onboarding
 * complete), the current page and route, audio mode, the selected content
 * and the notification drawer, the handlers that drive them, and the
 * selector that decides which page renders.
 */
module App {
  import opened Wrappers
  import opened Enums
  import opened Schema
  import NotificationCenter

  /** `AppState`. */
  datatype Page = Landing | Onboarding | Dashboard | History | Profile

  datatype Session = Session(
    currentState: Page,
    currentRoute: string,
    isAuthenticated: bool,
    isOnboardingComplete: bool,
    isAudioMode: bool,
    selectedContentId: Option<string>,
    notificationCenterOpen: bool)

  /** The state on first render, before the audio-mode effect runs. */
  function Initial(): (s: Session)
    ensures s.currentState == Landing && s.currentRoute == "/"
    ensures !s.isAuthenticated && !s.isOnboardingComplete && !s.isAudioMode
    ensures s.selectedContentId.None? && !s.notificationCenterOpen
  {
    Session(Landing, "/", false, false, false, None, false)
  }

  /** The audio-mode effect: audio mode follows the user's listening preference; nothing else changes. */
  function SyncAudioMode(s: Session, preference: LearningPreference): (r: Session)
    ensures r.isAudioMode <==> preference == Listening
    ensures r == s.(isAudioMode := r.isAudioMode)
  {
    s.(isAudioMode := preference == Listening)
  }

  /** `handleGetStarted`: onboarding page and route, signed in; the completion flag is left as it was. */
  function GetStarted(s: Session): (r: Session)
    ensures r.currentState == Onboarding && r.currentRoute == "/onboarding" && r.isAuthenticated
    ensures r.isOnboardingComplete == s.isOnboardingComplete
    ensures r.(currentState := s.currentState, currentRoute := s.currentRoute, isAuthenticated := s.isAuthenticated) == s
  {
    s.(currentState := Onboarding, currentRoute := "/onboarding", isAuthenticated := true)
  }

  /** `handleLogin`: the dashboard, signed in with onboarding counted as done. */
  function Login(s: Session): (r: Session)
    ensures r.currentState == Dashboard && r.currentRoute == "/dashboard"
    ensures r.isAuthenticated && r.isOnboardingComplete
    ensures r.isAudioMode == s.isAudioMode && r.selectedContentId == s.selectedContentId
    ensures r.notificationCenterOpen == s.notificationCenterOpen
  {
    s.(currentState := Dashboard, currentRoute := "/dashboard", isAuthenticated := true, isOnboardingComplete := true)
  }

  /** `handleOnboardingComplete`: the record is only logged. */
  function CompleteOnboarding(s: Session, data: OnboardingData): (r: Session)
    ensures r.currentState == Dashboard && r.currentRoute == "/dashboard" && r.isOnboardingComplete
    ensures r.isAuthenticated == s.isAuthenticated
    ensures r.isAudioMode == s.isAudioMode && r.selectedContentId == s.selectedContentId
    ensures r.notificationCenterOpen == s.notificationCenterOpen
  {
    s.(isOnboardingComplete := true, currentState := Dashboard, currentRoute := "/dashboard")
  }

  /** `handleOnboardingSkip`. */
  function SkipOnboarding(s: Session): (r: Session)
    ensures r.currentState == Dashboard && r.currentRoute == "/dashboard" && r.isOnboardingComplete
    ensures r.isAuthenticated == s.isAuthenticated
    ensures r.isAudioMode == s.isAudioMode && r.selectedContentId == s.selectedContentId
    ensures r.notificationCenterOpen == s.notificationCenterOpen
  {
    s.(currentState := Dashboard, currentRoute := "/dashboard", isOnboardingComplete := true)
  }

  /** Finishing the wizard and skipping it leave the session in the same state, whatever was entered. */
  lemma CompleteAndSkipAgree(s: Session, data: OnboardingData)
    ensures CompleteOnboarding(s, data) == SkipOnboarding(s)
  {
  }

  /** The page a route switches to: only three routes have one. */
  function PageForRoute(route: string): (p: Option<Page>)
    ensures p.Some? <==> route == "/dashboard" || route == "/history" || route == "/profile"
    ensures p.Some? ==> p.value != Landing && p.value != Onboarding
  {
    if route == "/dashboard" then Some(Dashboard)
    else if route == "/history" then Some(History)
    else if route == "/profile" then Some(Profile)
    else None
  }

  /** `handleNavigate`: the route is always taken; the page changes only for a route that has one. */
  function Navigate(s: Session, route: string): (r: Session)
    ensures r.currentRoute == route
    ensures PageForRoute(route).Some? ==> r.currentState == PageForRoute(route).value
    ensures PageForRoute(route).None? ==> r.currentState == s.currentState
    ensures r.(currentRoute := s.currentRoute, currentState := s.currentState) == s
  {
    var r := s.(currentRoute := route);
    match PageForRoute(route)
    case Some(p) => r.(currentState := p)
    case None => r
  }

  /** `handleLogout`: back to the landing page, signed out; audio mode and the selection stay. */
  function Logout(s: Session): (r: Session)
    ensures r.currentState == Landing && r.currentRoute == "/"
    ensures !r.isAuthenticated && !r.isOnboardingComplete
    ensures r.isAudioMode == s.isAudioMode && r.selectedContentId == s.selectedContentId
    ensures r.notificationCenterOpen == s.notificationCenterOpen
  {
    s.(isAuthenticated := false, isOnboardingComplete := false, currentState := Landing, currentRoute := "/")
  }

  /** The notification item handler: opens the item's content when it names one, and closes the drawer. */
  function NotificationClicked(s: Session, n: Notification): (r: Session)
    ensures !r.notificationCenterOpen
    ensures n.contentId.Some? && n.contentId.value != "" ==> r.selectedContentId == n.contentId
    ensures !(n.contentId.Some? && n.contentId.value != "") ==> r.selectedContentId == s.selectedContentId
    ensures r.(notificationCenterOpen := s.notificationCenterOpen, selectedContentId := s.selectedContentId) == s
  {
    var r := if n.contentId.Some? && n.contentId.value != "" then s.(selectedContentId := n.contentId) else s;
    r.(notificationCenterOpen := false)
  }

  // ---------------------------------------------------------------------------
  // Rendering

  /** `renderCurrentPage`: the landing page when signed out, else the wizard until onboarding is done, else the page, the dashboard standing in for any other state. */
  function RenderedPage(s: Session): (p: Page)
    ensures !s.isAuthenticated ==> p == Landing
    ensures s.isAuthenticated && !s.isOnboardingComplete ==> p == Onboarding
    ensures s.isAuthenticated && s.isOnboardingComplete ==>
              p == (if s.currentState in {History, Profile} then s.currentState else Dashboard)
  {
    if !s.isAuthenticated then Landing
    else if !s.isOnboardingComplete then Onboarding
    else match s.currentState
      case Dashboard => Dashboard
      case History => History
      case Profile => Profile
      case _ => Dashboard
  }

  /** The navigation bar is mounted for a signed-in user who finished onboarding. */
  predicate ShowsNavigation(s: Session) {
    s.isAuthenticated && s.isOnboardingComplete
  }

  /** The navigation bar is shown exactly when one of the three app pages is rendered. */
  lemma NavigationIffAppPage(s: Session)
    ensures ShowsNavigation(s) <==> RenderedPage(s) in {Dashboard, History, Profile}
  {
  }

  /** `todayContent.find(c => c.id === selectedContentId) || null`: an item with the selected id, if any. */
  function FindContent(items: seq<ContentItem>, id: Option<string>): (r: Option<ContentItem>)
    ensures r.Some? ==> id.Some? && r.value in items && r.value.id == id.value
    ensures r.None? ==> id.None? || forall k | 0 <= k < |items| :: items[k].id != id.value
  {
    if id.None? || items == [] then None
    else if items[0].id == id.value then Some(items[0])
    else
      var rest := FindContent(items[1..], id);
      assert forall k | 1 <= k < |items| :: items[k] == items[1..][k - 1];
      rest
  }

  /** The item found is the first one with the selected id. */
  lemma {:induction false} FindContentIsFirst(items: seq<ContentItem>, id: string, k: nat)
    requires k < |items| && items[k].id == id
    requires forall j | 0 <= j < k :: items[j].id != id
    ensures FindContent(items, Some(id)) == Some(items[k])
  {
    if k > 0 {
      FindContentIsFirst(items[1..], id, k - 1);
    }
  }

  /** The content modal is mounted exactly when the selected id names an item of the day. */
  predicate ContentModalShown(s: Session, todayContent: seq<ContentItem>) {
    FindContent(todayContent, s.selectedContentId).Some?
  }

  // ---------------------------------------------------------------------------
  // Reachable sessions

  /** What the user can do, each through the element that offers it. */
  datatype UserAction =
    | GetStartedClicked
    | LoginClicked
    | OnboardingCompleted(data: OnboardingData)
    | OnboardingSkipped
    | Navigated(route: string)
    | LogoutClicked
    | ContentSelected(contentId: string)
    | ContentClosed
    | ContentCompleted
    | BellClicked
    | DrawerClosed
    | NotificationOpened(notification: Notification)
    | AudioModeToggled

  /** Whether the element offering the action is on screen. */
  predicate Offered(s: Session, a: UserAction) {
    match a
    case GetStartedClicked => RenderedPage(s) == Landing
    case LoginClicked => RenderedPage(s) == Landing
    case OnboardingCompleted(_) => RenderedPage(s) == Onboarding
    case OnboardingSkipped => RenderedPage(s) == Onboarding
    case Navigated(_) => ShowsNavigation(s)
    case LogoutClicked => ShowsNavigation(s)
    case ContentSelected(_) => RenderedPage(s) == Dashboard
    case BellClicked => ShowsNavigation(s)
    case NotificationOpened(_) => s.notificationCenterOpen
    case _ => true
  }

  /** One handler call. */
  function Apply(s: Session, a: UserAction): (r: Session)
    ensures a.ContentClosed? || a.ContentCompleted? ==> r == s.(selectedContentId := None)
    ensures a.ContentSelected? ==> r == s.(selectedContentId := Some(a.contentId))
    ensures a.BellClicked? ==> r == s.(notificationCenterOpen := true)
    ensures a.DrawerClosed? ==> r == s.(notificationCenterOpen := false)
    ensures a.AudioModeToggled? ==> r == s.(isAudioMode := !s.isAudioMode)
  {
    match a
    case GetStartedClicked => GetStarted(s)
    case LoginClicked => Login(s)
    case OnboardingCompleted(d) => CompleteOnboarding(s, d)
    case OnboardingSkipped => SkipOnboarding(s)
    case Navigated(route) => Navigate(s, route)
    case LogoutClicked => Logout(s)
    case ContentSelected(id) => s.(selectedContentId := Some(id))
    case ContentClosed => s.(selectedContentId := None)
    case ContentCompleted => s.(selectedContentId := None)
    case BellClicked => s.(notificationCenterOpen := true)
    case DrawerClosed => s.(notificationCenterOpen := false)
    case NotificationOpened(n) => NotificationClicked(s, n)
    case AudioModeToggled => s.(isAudioMode := !s.isAudioMode)
  }

  /**
   * The session invariant: the landing state goes with being signed out and
   * the root route, a finished onboarding implies being signed in, and the
   * onboarding state goes with an unfinished one.
   */
  predicate Inv(s: Session) {
    && (s.currentState == Landing <==> !s.isAuthenticated)
    && (s.currentState == Landing ==> s.currentRoute == "/")
    && (s.isOnboardingComplete ==> s.isAuthenticated)
    && (s.currentState == Onboarding <==> s.isAuthenticated && !s.isOnboardingComplete)
  }

  lemma InitialInv()
    ensures Inv(Initial())
  {
  }

  /** Every action the screen offers keeps the invariant. */
  lemma ApplyKeepsInv(s: Session, a: UserAction)
    requires Inv(s) && Offered(s, a)
    ensures Inv(Apply(s, a))
  {
    match a
    case Navigated(route) =>
      assert s.currentState != Landing && s.currentState != Onboarding;
    case NotificationOpened(n) =>
    case _ =>
  }

  /** On a reachable session the page rendered is the page the state variable names. */
  lemma RenderedIsCurrent(s: Session)
    requires Inv(s)
    ensures RenderedPage(s) == s.currentState
  {
  }

  /** Runs the actions in turn, as long as each is offered; the final session. */
  function Run(s: Session, actions: seq<UserAction>): Session
    decreases |actions|
  {
    if actions == [] || !Offered(s, actions[0]) then s
    else Run(Apply(s, actions[0]), actions[1..])
  }

  /** Whatever the user does from a fresh start, the rendered page is the state variable's page. */
  lemma {:induction false} RunKeepsInv(s: Session, actions: seq<UserAction>)
    requires Inv(s)
    ensures Inv(Run(s, actions))
    ensures RenderedPage(Run(s, actions)) == Run(s, actions).currentState
    decreases |actions|
  {
    if actions != [] && Offered(s, actions[0]) {
      ApplyKeepsInv(s, actions[0]);
      RunKeepsInv(Apply(s, actions[0]), actions[1..]);
    } else {
      RenderedIsCurrent(s);
    }
  }

  // ---------------------------------------------------------------------------
  // The component

  class DailyClimbApp {
    var currentState: Page
    var currentRoute: string
    var isAuthenticated: bool
    var isOnboardingComplete: bool
    var isAudioMode: bool
    var selectedContentId: Option<string>
    var notificationCenterOpen: bool
    const todayContent: seq<ContentItem>
    const notifications: seq<Notification>

    function State(): Session
      reads this
    {
      Session(currentState, currentRoute, isAuthenticated, isOnboardingComplete,
              isAudioMode, selectedContentId, notificationCenterOpen)
    }

    /** The fixture content and notifications are inputs; the audio-mode effect has run. */
    constructor (content: seq<ContentItem>, ns: seq<Notification>, preference: LearningPreference)
      ensures State() == SyncAudioMode(Initial(), preference)
      ensures todayContent == content && notifications == ns
    {
      currentState := Landing;
      currentRoute := "/";
      isAuthenticated := false;
      isOnboardingComplete := false;
      isAudioMode := preference == Listening;
      selectedContentId := None;
      notificationCenterOpen := false;
      todayContent := content;
      notifications := ns;
    }

    method HandleGetStarted()
      modifies this
      ensures State() == GetStarted(old(State()))
    {
      currentState := Onboarding;
      currentRoute := "/onboarding";
      isAuthenticated := true;
    }

    method HandleLogin()
      modifies this
      ensures State() == Login(old(State()))
    {
      currentState := Dashboard;
      currentRoute := "/dashboard";
      isAuthenticated := true;
      isOnboardingComplete := true;
    }

    method HandleOnboardingComplete(data: OnboardingData)
      modifies this
      ensures State() == CompleteOnboarding(old(State()), data)
    {
      isOnboardingComplete := true;
      currentState := Dashboard;
      currentRoute := "/dashboard";
    }

    method HandleOnboardingSkip()
      modifies this
      ensures State() == SkipOnboarding(old(State()))
    {
      currentState := Dashboard;
      currentRoute := "/dashboard";
      isOnboardingComplete := true;
    }

    method HandleNavigate(route: string)
      modifies this
      ensures State() == Navigate(old(State()), route)
    {
      currentRoute := route;
      if route == "/dashboard" {
        currentState := Dashboard;
      } else if route == "/history" {
        currentState := History;
      } else if route == "/profile" {
        currentState := Profile;
      }
    }

    method HandleContentSelect(contentId: string)
      modifies this
      ensures State() == old(State()).(selectedContentId := Some(contentId))
    {
      selectedContentId := Some(contentId);
    }

    method HandleContentClose()
      modifies this
      ensures State() == old(State()).(selectedContentId := None)
    {
      selectedContentId := None;
    }

    method HandleContentComplete()
      modifies this
      ensures State() == old(State()).(selectedContentId := None)
    {
      selectedContentId := None;
    }

    method HandleNotificationClick()
      modifies this
      ensures State() == old(State()).(notificationCenterOpen := true)
    {
      notificationCenterOpen := true;
    }

    method HandleNotificationClose()
      modifies this
      ensures State() == old(State()).(notificationCenterOpen := false)
    {
      notificationCenterOpen := false;
    }

    /** The drawer's item handler. */
    method HandleNotificationItem(n: Notification)
      modifies this
      ensures State() == NotificationClicked(old(State()), n)
    {
      if n.contentId.Some? && n.contentId.value != "" {
        selectedContentId := n.contentId;
      }
      notificationCenterOpen := false;
    }

    method HandleAudioModeToggle()
      modifies this
      ensures State() == old(State()).(isAudioMode := !old(isAudioMode))
    {
      isAudioMode := !isAudioMode;
    }

    method HandleLogout()
      modifies this
      ensures State() == Logout(old(State()))
    {
      isAuthenticated := false;
      isOnboardingComplete := false;
      currentState := Landing;
      currentRoute := "/";
    }

    /** `selectedContent`. */
    function SelectedContent(): Option<ContentItem>
      reads this
    {
      FindContent(todayContent, selectedContentId)
    }

    /** The bell's `notificationCount`. */
    function NotificationCount(): (n: nat)
      reads this
      ensures n == |NotificationCenter.Unread(notifications)| <= |notifications|
      ensures n == 0 <==> forall k | 0 <= k < |notifications| :: notifications[k].read
    {
      NotificationCenter.UnreadCount(notifications)
    }
  }
}

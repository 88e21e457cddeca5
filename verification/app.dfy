/**
 * The root component of the camera-monitoring app: five pieces of state, the
 * handlers that change them, and the choice of what one render pass shows.
 */
module AppShell {
  import opened Wrappers
  import opened Cameras

  /** The screens the app can be on; navigation sets the value outright (no history). */
  datatype Screen = Home | AdminLogin | AdminPanel | Monitor | Notifications | Rating

  /** The subtrees that can appear in the main content area. */
  datatype View = HomeView | LoginForm | AdminPanelView | MonitorView | NotificationsView | RatingView

  /** What one render pass produces: the welcome splash alone, or the main content
      with its foreground subtrees, the bottom bar, the tutorial modal, and whether
      the pass asked to move from the login screen to the admin panel. */
  datatype Frame =
    | Splash
    | Main(foreground: set<View>, navBar: bool, tutorialVisible: bool, redirect: bool)

  /** A snapshot of the component's state. */
  datatype AppState = AppState(
    screen: Screen,
    isAuthenticated: bool,
    showWelcome: bool,
    cameras: seq<Camera>,
    showTutorial: bool)

  /** The only admin password the app accepts. */
  const AdminPassword: string := "admin123"

  /** The value the storage key holds once a login has succeeded. */
  const StoredTrue: string := "true"

  /** The screen value a foreground subtree belongs to. */
  function ScreenOf(v: View): Screen {
    match v
    case HomeView => Home
    case LoginForm => AdminLogin
    case AdminPanelView => AdminPanel
    case MonitorView => Monitor
    case NotificationsView => Notifications
    case RatingView => Rating
  }

  /** The screens on which the bottom navigation bar is hidden. */
  predicate IsAdminScreen(s: Screen) {
    s == AdminLogin || s == AdminPanel
  }

  /** The two cases where the foreground is empty: the login screen while already
      authenticated (the pass redirects instead), and the admin panel while not. */
  predicate ShowsNothing(st: AppState) {
    || (st.screen == AdminLogin && st.isAuthenticated)
    || (st.screen == AdminPanel && !st.isAuthenticated)
  }

  /** The foreground as the component writes it: six independent conditional pieces. */
  function Foreground(st: AppState): (fg: set<View>)
    ensures |fg| <= 1
    ensures forall v :: v in fg ==> ScreenOf(v) == st.screen
    ensures fg == {} <==> ShowsNothing(st)
    ensures LoginForm in fg ==> !st.isAuthenticated
    ensures AdminPanelView in fg ==> st.isAuthenticated
  {
    (if st.screen == Home then {HomeView} else {})
    + (if st.screen == AdminLogin && !st.isAuthenticated then {LoginForm} else {})
    + (if st.screen == AdminPanel && st.isAuthenticated then {AdminPanelView} else {})
    + (if st.screen == Monitor then {MonitorView} else {})
    + (if st.screen == Notifications then {NotificationsView} else {})
    + (if st.screen == Rating then {RatingView} else {})
  }

  /** One render pass over a state: the splash alone while the welcome is up,
      otherwise the main content. */
  function Render(st: AppState): (f: Frame)
    ensures f.Splash? <==> st.showWelcome
    ensures f.Main? ==> f.foreground == Foreground(st)
    ensures f.Main? ==> (f.navBar <==> !IsAdminScreen(st.screen))
    ensures f.Main? ==> (f.redirect <==> st.screen == AdminLogin && st.isAuthenticated)
    ensures f.Main? ==> f.tutorialVisible == st.showTutorial
    ensures f.Main? && f.navBar ==> LoginForm !in f.foreground && AdminPanelView !in f.foreground
    ensures f.Main? && f.redirect ==> f.foreground == {} && !f.navBar
  {
    if st.showWelcome then Splash
    else Main(Foreground(st),
              !IsAdminScreen(st.screen),
              st.showTutorial,
              st.screen == AdminLogin && st.isAuthenticated)
  }

  /** The login redirect settles in one step: after it, the next pass shows the
      admin panel alone, hides the bottom bar and asks for no further redirect. */
  lemma RedirectSettles(st: AppState)
    requires Render(st).Main? && Render(st).redirect
    ensures Render(st.(screen := AdminPanel)) == Main({AdminPanelView}, false, st.showTutorial, false)
  {
    var fg := Foreground(st.(screen := AdminPanel));
    assert AdminPanelView in fg;
    assert fg == {AdminPanelView} by {
      forall v | v in fg ensures v == AdminPanelView {
        assert ScreenOf(v) == AdminPanel;
      }
    }
  }

  /** The root component. */
  class App {
    var screen: Screen
    var isAuthenticated: bool
    var showWelcome: bool
    var cameras: seq<Camera>
    var showTutorial: bool
    /** Whether this session has written the "authenticated" value to device storage,
        which a later session's startup check reads back. */
    ghost var persisted: bool

    /** Storage is written only together with raising the flag, so what a later
        session reads back never claims more than this session granted. */
    ghost predicate Valid()
      reads this
    {
      persisted ==> isAuthenticated
    }

    function State(): AppState
      reads this
    {
      AppState(screen, isAuthenticated, showWelcome, cameras, showTutorial)
    }

    /** Mounting the component. */
    constructor ()
      ensures Valid() && !persisted
      ensures screen == Home && !isAuthenticated && showWelcome
      ensures cameras == [] && !showTutorial
    {
      screen := Home;
      isAuthenticated := false;
      showWelcome := true;
      cameras := [];
      showTutorial := false;
      persisted := false;
    }

    /** The startup check: the flag is raised only when the stored value is exactly
        the string "true"; nothing here ever lowers it. */
    method CheckAuthStatus(stored: Option<string>)
      requires Valid()
      modifies this
      ensures Valid()
      ensures isAuthenticated == (old(isAuthenticated) || stored == Some(StoredTrue))
      ensures screen == old(screen) && showWelcome == old(showWelcome)
      ensures cameras == old(cameras) && showTutorial == old(showTutorial)
      ensures persisted == old(persisted)
    {
      if stored == Some(StoredTrue) {
        isAuthenticated := true;
      }
    }

    /** Completion of the splash animation: leave the splash for the main content.
        The flag only ever goes from true to false. */
    method CompleteWelcome()
      requires Valid()
      modifies this
      ensures Valid()
      ensures !showWelcome
      ensures screen == old(screen) && isAuthenticated == old(isAuthenticated)
      ensures cameras == old(cameras) && showTutorial == old(showTutorial)
      ensures persisted == old(persisted)
    {
      showWelcome := false;
    }

    /** The admin login: the right password first writes the flag to storage; if
        that write succeeds the flag is raised and the admin panel opens, and if it
        fails the handler stops there, changing nothing and showing no alert. Any
        other password only raises an alert. */
    method HandleLogin(password: string, writeOk: bool) returns (alerted: bool)
      requires Valid()
      modifies this
      ensures Valid()
      ensures alerted <==> password != AdminPassword
      ensures password == AdminPassword && writeOk ==> isAuthenticated && persisted && screen == AdminPanel
      ensures alerted || !writeOk ==> isAuthenticated == old(isAuthenticated) && persisted == old(persisted)
                                      && screen == old(screen)
      ensures showWelcome == old(showWelcome)
      ensures cameras == old(cameras) && showTutorial == old(showTutorial)
    {
      if password == AdminPassword {
        alerted := false;
        if writeOk {
          persisted := true;
          isAuthenticated := true;
          screen := AdminPanel;
        }
      } else {
        alerted := true;
      }
    }

    /** Navigation: any screen value may be chosen; nothing is checked here. */
    method SetScreen(s: Screen)
      requires Valid()
      modifies this
      ensures Valid()
      ensures screen == s
      ensures isAuthenticated == old(isAuthenticated) && showWelcome == old(showWelcome)
      ensures cameras == old(cameras) && showTutorial == old(showTutorial)
      ensures persisted == old(persisted)
    {
      screen := s;
    }

    /** Opening or closing the tutorial modal. */
    method SetShowTutorial(b: bool)
      requires Valid()
      modifies this
      ensures Valid()
      ensures showTutorial == b
      ensures screen == old(screen) && isAuthenticated == old(isAuthenticated)
      ensures showWelcome == old(showWelcome) && cameras == old(cameras)
      ensures persisted == old(persisted)
    {
      showTutorial := b;
    }

    /** Adding a camera appends it; every earlier entry stays where it was. */
    method AddCamera(name: string, streamUrl: string)
      requires Valid()
      modifies this
      ensures Valid()
      ensures cameras == Added(old(cameras), name, streamUrl)
      ensures screen == old(screen) && isAuthenticated == old(isAuthenticated)
      ensures showWelcome == old(showWelcome) && showTutorial == old(showTutorial)
      ensures persisted == old(persisted)
    {
      cameras := cameras + [Camera(name, streamUrl)];
    }

    /** Removing a camera drops every entry with that name and keeps the rest in order. */
    method RemoveCamera(name: string)
      requires Valid()
      modifies this
      ensures Valid()
      ensures cameras == Removed(old(cameras), name)
      ensures !HasName(cameras, name)
      ensures !HasName(old(cameras), name) ==> cameras == old(cameras)
      ensures screen == old(screen) && isAuthenticated == old(isAuthenticated)
      ensures showWelcome == old(showWelcome) && showTutorial == old(showTutorial)
      ensures persisted == old(persisted)
    {
      cameras := Removed(cameras, name);
      if !HasName(old(cameras), name) {
        RemovedAbsent(old(cameras), name);
      }
    }

    /** One render pass: return the frame the pass produces and carry out the redirect the pass
        asks for, so that the next pass is settled. */
    method RenderPass() returns (f: Frame)
      requires Valid()
      modifies this
      ensures Valid()
      ensures f == Render(old(State()))
      ensures screen == if f.Main? && f.redirect then AdminPanel else old(screen)
      ensures Render(State()).Main? ==> !Render(State()).redirect
      ensures f.Main? && f.redirect ==> Render(State()).Main? && Render(State()).foreground == {AdminPanelView}
      ensures isAuthenticated == old(isAuthenticated) && showWelcome == old(showWelcome)
      ensures cameras == old(cameras) && showTutorial == old(showTutorial)
      ensures persisted == old(persisted)
    {
      f := Render(State());
      if f.Main? && f.redirect {
        RedirectSettles(State());
        screen := AdminPanel;
      }
    }
  }
}

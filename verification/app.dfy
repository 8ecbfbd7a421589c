/**
 * The application shell: which screen shows (initialising, login, spinner,
 * onboarding, or a page), the navigation state, and the mobile tab labels.
 * The identity provider and the profile read are parameters.
 */
module App {
  import opened Common
  import opened Identity
  import opened Text
  import opened Backend
  import ProfilePage

  /** The pages of the navigation. */
  datatype Page = Dashboard | Discover | Communities | Events | Feed | Profile

  /** The navigation items, in menu order. */
  const NavItems: seq<Page> := [Dashboard, Discover, Communities, Events, Feed, Profile]

  /** A page's id string. */
  function PageId(p: Page): string {
    match p
    case Dashboard => "dashboard"
    case Discover => "discover"
    case Communities => "communities"
    case Events => "events"
    case Feed => "feed"
    case Profile => "profile"
  }

  /** The label under a mobile tab: "Home", "Groups", or the id with its first letter in upper case. */
  function TabLabel(p: Page): (caption: string)
    ensures p == Dashboard ==> caption == "Home"
    ensures p == Communities ==> caption == "Groups"
    ensures p != Dashboard && p != Communities ==> caption == Capitalize(PageId(p))
  {
    if p == Dashboard then "Home"
    else if p == Communities then "Groups"
    else Capitalize(PageId(p))
  }

  /** The six tabs carry six different labels; even their first letters differ. */
  lemma TabLabelsDistinct(p: Page, q: Page)
    requires p != q
    ensures TabLabel(p) != TabLabel(q)
  {
    var lp, lq := TabLabel(p), TabLabel(q);
    assert lp[0] != lq[0];
  }

  /** What the profile read holds: nothing yet (`undefined`), `null` (no profile saved), or a profile. */
  datatype ProfileData = Undefined | Null | Loaded(profile: UserProfile)

  /** The top-level screens. */
  datatype Screen = Initializing | Login | Spinner | Onboarding | Main(page: Page)

  /**
   * `App` and `AuthenticatedApp` together: the identity provider's start-up
   * first, then the login page without an identity, then the spinner while
   * the profile loads, then onboarding when the read settled on `null`, and
   * otherwise the active page inside the shell.
   */
  function ScreenOf(initializing: bool, identity: bool, loading: bool, data: ProfileData, active: Page): (s: Screen)
    ensures s == Initializing <==> initializing
    ensures s == Login <==> !initializing && !identity
    ensures s == Spinner <==> !initializing && identity && loading
    ensures s == Onboarding <==> !initializing && identity && !loading && data == Null
    ensures s.Main? <==> !initializing && identity && !loading && data != Null
    ensures s.Main? ==> s.page == active
  {
    if initializing then Initializing
    else if !identity then Login
    else if loading then Spinner
    else if data == Null then Onboarding
    else Main(active)
  }

  /**
   * Whatever has been viewed from the discover page, the profile page receives
   * no viewed principal, so it always shows the caller's own profile.
   */
  lemma ProfilePageIsAlwaysOwn(viewingProfile: Option<UserProfile>, caller: Option<Principal>)
    ensures ProfilePage.IsOwnProfile(ViewingPrincipal(viewingProfile), caller)
    ensures ProfilePage.TargetPrincipal(ViewingPrincipal(viewingProfile), caller) == caller
  {
  }

  /** The `viewingPrincipal` handed to the profile page: `undefined` on both arms of the conditional. */
  function ViewingPrincipal(viewingProfile: Option<UserProfile>): (v: Option<Principal>)
    ensures v.None?
  {
    if viewingProfile.Some? then None else None
  }

  /** `AuthenticatedApp`'s navigation state. */
  class Navigation {
    var activePage: Page
    var viewingProfile: Option<UserProfile>

    /** A profile picked in the discover page is only kept while the profile page is active. */
    ghost predicate Valid()
      reads this
    {
      viewingProfile.Some? ==> activePage == Profile
    }

    constructor ()
      ensures Valid()
      ensures activePage == Dashboard && viewingProfile.None?
    {
      activePage := Dashboard;
      viewingProfile := None;
    }

    /** `handleViewProfile`: remember the profile and switch to the profile page. */
    method HandleViewProfile(profile: UserProfile)
      requires Valid()
      modifies this
      ensures Valid()
      ensures activePage == Profile && viewingProfile == Some(profile)
    {
      viewingProfile := Some(profile);
      activePage := Profile;
    }

    /** `handlePageChange`: switch page, forgetting the viewed profile unless the target is the profile page. */
    method HandlePageChange(page: Page)
      requires Valid()
      modifies this
      ensures Valid()
      ensures activePage == page
      ensures page != Profile ==> viewingProfile.None?
      ensures page == Profile ==> viewingProfile == old(viewingProfile)
    {
      activePage := page;
      if page != Profile {
        viewingProfile := None;
      }
    }
  }

  /** `AppShell`'s mobile menu. */
  class Shell {
    var mobileMenuOpen: bool

    constructor ()
      ensures !mobileMenuOpen
    {
      mobileMenuOpen := false;
    }

    /** The menu button opens or closes the overlay. */
    method ToggleMenu()
      modifies this
      ensures mobileMenuOpen == !old(mobileMenuOpen)
    {
      mobileMenuOpen := !mobileMenuOpen;
    }

    /** Choosing a page in the overlay changes the page and closes the overlay. */
    method MobileSelect(nav: Navigation, page: Page)
      requires nav.Valid()
      modifies this, nav
      ensures nav.Valid() && !mobileMenuOpen
      ensures nav.activePage == page
      ensures page != Profile ==> nav.viewingProfile.None?
      ensures page == Profile ==> nav.viewingProfile == old(nav.viewingProfile)
    {
      nav.HandlePageChange(page);
      mobileMenuOpen := false;
    }
  }
}

/** The application shell: the page being shown, the signed-in user and the
    loading flag, updated by navigation and by auth events, and the rule that
    picks which page view is rendered. */
module App {
  import opened Wrappers
  import opened Records

  const Landing: string := "landing"
  const DashboardPage: string := "dashboard"
  const Generator: string := "generator"
  const History: string := "history"

  /** The page views `App` can render under the header. */
  datatype View = LandingView | DashboardView | GeneratorView | HistoryView

  /** The page after an auth event: a signed-in user on the landing page is
      taken to the dashboard; every other event leaves the page alone. */
  function PageAfterAuth(page: string, user: Option<User>): (p: string)
    ensures user.Some? && page == Landing ==> p == DashboardPage
    ensures !(user.Some? && page == Landing) ==> p == page
  {
    if user.Some? && page == Landing then DashboardPage else page
  }

  /** The views rendered, in the order of the four conditional blocks; none
      while loading. */
  function Views(page: string, user: Option<User>, loading: bool): (vs: seq<View>)
    ensures loading ==> vs == []
  {
    if loading then []
    else
      (if page == Landing && user.None? then [LandingView] else [])
      + (if page == DashboardPage || (page == Landing && user.Some?) then [DashboardView] else [])
      + (if page == Generator then [GeneratorView] else [])
      + (if page == History then [HistoryView] else [])
  }

  /** At most one view is rendered, and each exactly under its condition. */
  lemma ViewSelection(page: string, user: Option<User>, loading: bool)
    ensures |Views(page, user, loading)| <= 1
    ensures LandingView in Views(page, user, loading) <==> !loading && page == Landing && user.None?
    ensures DashboardView in Views(page, user, loading) <==>
      !loading && (page == DashboardPage || (page == Landing && user.Some?))
    ensures GeneratorView in Views(page, user, loading) <==> !loading && page == Generator
    ensures HistoryView in Views(page, user, loading) <==> !loading && page == History
    ensures !loading && page !in {Landing, DashboardPage, Generator, History} ==> Views(page, user, loading) == []
  {
  }

  /** Once an auth event has brought a user, the landing view is not shown,
      whatever page the event arrived on. */
  lemma SignedInNeverSeesLanding(page: string, u: User, loading: bool)
    ensures LandingView !in Views(PageAfterAuth(page, Some(u)), Some(u), loading)
    ensures page == Landing && !loading ==> Views(PageAfterAuth(page, Some(u)), Some(u), loading) == [DashboardView]
  {
  }

  class App {
    var currentPage: string
    var user: Option<User>
    var loading: bool

    constructor ()
      ensures currentPage == Landing && user == None && loading
    {
      currentPage := Landing;
      user := None;
      loading := true;
    }

    /** `handleNavigate(page)` */
    method HandleNavigate(page: string)
      modifies this`currentPage
      ensures currentPage == page
    {
      currentPage := page;
    }

    /** The `onAuthStateChanged` callback. */
    method OnAuthStateChanged(stateUser: Option<User>, isLoading: bool)
      modifies this
      ensures user == stateUser && loading == isLoading
      ensures currentPage == PageAfterAuth(old(currentPage), stateUser)
    {
      user := stateUser;
      loading := isLoading;
      if stateUser.Some? && currentPage == Landing {
        currentPage := DashboardPage;
      }
    }

    /** What is rendered under the header. */
    function CurrentViews(): seq<View>
      reads this
    {
      Views(currentPage, user, loading)
    }
  }
}

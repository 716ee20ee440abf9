/**
 * The page shell (src/App.tsx): the loading flag that shows only the
 * preloader until it reports completion, the navigation items, and the
 * mobile menu flag flipped by the menu button and cleared by a menu link.
 */
module App {
  import opened Sequences
  import PreLoader

  /** One entry of the navigation bar; `text` is the source's `label`. */
  datatype NavItem = NavItem(text: string, href: string)

  /** `navigationItems`, in the order they are drawn. */
  const NAVIGATION_ITEMS: seq<NavItem> := [
    NavItem("Home", "#home"),
    NavItem("Skills", "#skills"),
    NavItem("Experience", "#experience"),
    NavItem("Projects", "#projects"),
    NavItem("Publications", "#publications"),
    NavItem("Certifications", "#certifications")
  ]

  /** The item labels, which the menus use as keys. */
  function Labels(items: seq<NavItem>): seq<string> {
    Map(items, (item: NavItem) => item.text)
  }

  /** The six labels are distinct, so they can serve as keys. */
  lemma NavigationLabelsDistinct()
    ensures |NAVIGATION_ITEMS| == 6
    ensures AllDistinct(Labels(NAVIGATION_ITEMS))
  {
  }

  /** The icon path of the menu button: a cross while the menu is open, else three bars. */
  const CLOSE_ICON := "M6 18L18 6M6 6l12 12"
  const MENU_ICON := "M4 6h16M4 12h16M4 18h16"

  /** What the page draws: only the preloader, or the site with its navigation. */
  datatype Screen = LoaderOnly | Site(menuIcon: string, mobileMenu: seq<NavItem>)

  class App {
    /** `isNavOpen`. */
    var isNavOpen: bool
    /** `isLoading`. */
    var isLoading: bool

    /** First render: menu closed, still loading. */
    constructor ()
      ensures !isNavOpen && isLoading
    {
      isNavOpen := false;
      isLoading := true;
    }

    /** `handleLoadingComplete`, the preloader's `onComplete`. */
    method HandleLoadingComplete()
      modifies this
      ensures !isLoading && isNavOpen == old(isNavOpen)
    {
      isLoading := false;
    }

    /** The menu button, drawn only once loading is over, flips the menu flag. */
    method ToggleNav()
      requires !isLoading
      modifies this
      ensures isNavOpen == !old(isNavOpen) && isLoading == old(isLoading)
    {
      isNavOpen := !isNavOpen;
    }

    /** A navigation link of the mobile menu closes the menu, whatever its state. */
    method CloseNav()
      requires !isLoading
      modifies this
      ensures !isNavOpen && isLoading == old(isLoading)
    {
      isNavOpen := false;
    }

    /**
     * The rendered page: while loading, only the preloader; afterwards the
     * site, whose mobile menu lists the navigation items iff the flag is set.
     */
    function View(): (s: Screen)
      reads this
      ensures s == LoaderOnly <==> isLoading
      ensures s.Site? ==> (s.mobileMenu != [] <==> isNavOpen)
      ensures s.Site? && isNavOpen ==> s.mobileMenu == NAVIGATION_ITEMS
      ensures s.Site? ==> s.menuIcon == if isNavOpen then CLOSE_ICON else MENU_ICON
    {
      if isLoading then LoaderOnly
      else Site(if isNavOpen then CLOSE_ICON else MENU_ICON, if isNavOpen then NAVIGATION_ITEMS else [])
    }
  }

  /** Pressing the menu button twice leaves the menu as it was. */
  method ToggleTwice(app: App)
    requires !app.isLoading
    modifies app
    ensures app.isNavOpen == old(app.isNavOpen) && !app.isLoading
    ensures app.View() == old(app.View())
  {
    app.ToggleNav();
    app.ToggleNav();
  }

  /**
   * Start-up: the page shows only the preloader until the loader's run ends
   * with its `onComplete`, which is `handleLoadingComplete`; then the site
   * shows with the menu closed.
   */
  method Boot() returns (app: App, loader: PreLoader.PreLoader)
    ensures fresh(app) && fresh(loader)
    ensures loader.completions == 1 && loader.progress == PreLoader.FULL
    ensures !app.isLoading && !app.isNavOpen
    ensures app.View() == Site(MENU_ICON, [])
  {
    app := new App();
    loader := new PreLoader.PreLoader();
    assert app.View() == LoaderOnly;
    loader.RunInterval();
    loader.FadeOut();
    assert app.View() == LoaderOnly;
    loader.FireComplete();
    app.HandleLoadingComplete();
  }
}

/**
 The identifiers the page bodies and the footer hand to `onNavigate`.

 The pages themselves are presentation; what matters to the router is which
 literal identifiers their call-to-action buttons and the footer's link lists
 pass to `handleNavigate`. Two of the Home page's buttons pass identifiers that
 the router does not recognise ("about" and "rnd").
 */
module CallSites {
  import opened Router
  import opened GlobalHeader

  /** The Home page's navigating buttons, in page order. */
  const HomePageTargets: seq<string> := [
    "about", "intelligent-systems", "enterprise-lab", "ai-product-studio",
    "rnd", "automation", "advisory", "contact"
  ]

  /** The footer's Services and Company link lists. */
  const FooterTargets: seq<string> := [
    "intelligent-systems", "enterprise-lab", "ai-product-studio", "innovation-lab",
    "automation", "advisory", "contact"
  ]

  /**
   The navigating button of each other page: AI Product Studio, Advisory,
   Automation, Contact, Enterprise Lab, Innovation Lab, Intelligent Systems.
   */
  const OtherPageTargets: seq<string> := [
    "contact", "contact", "contact", "home", "contact", "contact", "home"
  ]

  /** Every identifier any page or the footer passes to the router. */
  function AllTargets(): seq<string>
  {
    HomePageTargets + FooterTargets + OtherPageTargets
  }

  /**
   Of all the identifiers the site passes to the router, exactly "about" and
   "rnd" are outside the table; every other one names a page.
   */
  lemma StrayTargets(id: string)
    requires id in AllTargets()
    ensures IsKnownId(id) <==> id != "about" && id != "rnd"
  {
    TableMatchesRouter(id);
    NavigationTableShape();
  }

  /**
   Following a stray button stores its identifier, renders Home, and leaves
   no tab of the header active: the page shown and the tab bar disagree.
   */
  lemma StrayTargetShowsHomeWithNoTab(s: RouterState, id: string)
    requires id == "about" || id == "rnd"
    ensures Navigate(s, id).activePage == id
    ensures RenderPage(Navigate(s, id).activePage) == Home
    ensures forall k :: 0 <= k < |NavigationItems| ==> !Highlights(Navigate(s, id).activePage)[k]
  {
  }

  /**
   A walk through the router and the header objects: start at Home; go to
   Contact; go to Automation and then to an unknown identifier; flip the
   mobile menu twice; open it and pick its last item.
   */
  method Walkthrough()
  {
    var app := new App();
    var header := new Header();
    assert app.Render() == Home;

    app.HandleNavigate("contact");
    assert app.Render() == Contact && app.activePage == "contact";

    app.HandleNavigate("automation");
    app.HandleNavigate("unknown-id");
    assert !IsKnownId("unknown-id") by { TableMatchesRouter("unknown-id"); NavigationTableShape(); }
    assert app.Render() == Home && app.activePage == "unknown-id";

    header.ToggleMobileMenu();
    header.ToggleMobileMenu();
    assert !header.isMobileMenuOpen;

    header.ToggleMobileMenu();
    NavigationTableShape();
    header.ClickMobileItem(app, 7);
    assert app.Render() == Contact && !header.isMobileMenuOpen;
  }
}

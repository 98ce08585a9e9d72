/**
 The navigation header (src/components/GlobalHeader.tsx).

 The header shows a fixed table of eight navigation items as desktop tabs and,
 while the mobile menu is open, as a mobile list. An item is drawn as active
 when the router's `activePage` equals the item's identifier. The header's own
 state is one boolean, whether the mobile menu is open. Every button forwards
 an identifier to the router's `handleNavigate`, modelled here as a call of
 `Router.App.HandleNavigate` on the application root.
 */
module GlobalHeader {
  import opened Router

  /** One entry of the navigation table. */
  datatype NavItem = NavItem(id: string, caption: string, subtitle: string)

  /** The navigation table, in display order. */
  const NavigationItems: seq<NavItem> := [
    NavItem("home", "Home", "Living Intelligence"),
    NavItem("intelligent-systems", "Intelligent Systems", "The Architecture of Intelligence"),
    NavItem("enterprise-lab", "Enterprise Lab", "Applied Systems for Scale"),
    NavItem("ai-product-studio", "AI Product Studio", "Innovation Through Creation"),
    NavItem("innovation-lab", "Innovation Lab", "Where Ideas Learn to Think"),
    NavItem("automation", "Automation + Integration", "Connected Workflows"),
    NavItem("advisory", "Advisory", "Strategic Intelligence"),
    NavItem("contact", "Contact", "Start a Project")
  ]

  /** The identifiers of the table, in display order. */
  function NavIds(): seq<string>
  {
    seq(|NavigationItems|, i requires 0 <= i < |NavigationItems| => NavigationItems[i].id)
  }

  /**
   The table holds eight items, in the order home, intelligent-systems,
   enterprise-lab, ai-product-studio, innovation-lab, automation, advisory,
   contact, and no identifier appears twice.
   */
  lemma NavigationTableShape()
    ensures |NavigationItems| == 8
    ensures NavIds() == ["home", "intelligent-systems", "enterprise-lab", "ai-product-studio",
                         "innovation-lab", "automation", "advisory", "contact"]
    ensures forall i, j :: 0 <= i < j < |NavigationItems| ==> NavigationItems[i].id != NavigationItems[j].id
  {
  }

  /**
   The identifiers the router's switch recognises are exactly the identifiers
   of the header's table, in both directions.
   */
  lemma TableMatchesRouter(id: string)
    ensures id in NavIds() <==> IsKnownId(id)
  {
    if id in NavIds() {
      var i :| 0 <= i < |NavIds()| && NavIds()[i] == id;
      assert PageId(RenderPage(id)) == id;
    }
    if IsKnownId(id) {
      var page :| PageId(page) == id;
      match page
      case Home => assert NavIds()[0] == id;
      case IntelligentSystems => assert NavIds()[1] == id;
      case EnterpriseLab => assert NavIds()[2] == id;
      case AIProductStudio => assert NavIds()[3] == id;
      case InnovationLab => assert NavIds()[4] == id;
      case Automation => assert NavIds()[5] == id;
      case Advisory => assert NavIds()[6] == id;
      case Contact => assert NavIds()[7] == id;
    }
  }

  /** The comparison the header draws an item as active by. */
  predicate IsActive(activePage: string, item: NavItem)
  {
    activePage == item.id
  }

  /**
   The active flag of each table item for a given `activePage`: at most one
   item is active, one is active exactly when `activePage` is an identifier
   the router recognises, and an active item is the page on display.
   */
  function Highlights(activePage: string): (flags: seq<bool>)
    ensures |flags| == |NavigationItems|
    ensures forall i, j :: 0 <= i < |flags| && 0 <= j < |flags| && flags[i] && flags[j] ==> i == j
    ensures (exists i :: 0 <= i < |flags| && flags[i]) <==> IsKnownId(activePage)
    ensures forall i :: 0 <= i < |flags| && flags[i] ==> PageId(RenderPage(activePage)) == NavigationItems[i].id
  {
    NavigationTableShape();
    TableMatchesRouter(activePage);
    var flags := seq(|NavigationItems|, i requires 0 <= i < |NavigationItems| => IsActive(activePage, NavigationItems[i]));
    assert forall i :: 0 <= i < |flags| ==> (flags[i] <==> NavIds()[i] == activePage);
    flags
  }

  /**
   The header's own state: whether the mobile menu is open.
   */
  class Header {
    var isMobileMenuOpen: bool

    /** `useState(false)`: the mobile menu starts closed. */
    constructor ()
      ensures !isMobileMenuOpen
    {
      isMobileMenuOpen := false;
    }

    /** The items the mobile list offers: the whole table while the menu is open, none while it is closed. */
    function MobileItems(): (items: seq<NavItem>)
      reads this
      ensures |items| > 0 <==> isMobileMenuOpen
      ensures items <= NavigationItems
      ensures isMobileMenuOpen ==> items == NavigationItems
      ensures !isMobileMenuOpen ==> items == []
    {
      if isMobileMenuOpen then NavigationItems else []
    }

    /** The hamburger button flips the menu. */
    method ToggleMobileMenu()
      modifies this
      ensures isMobileMenuOpen == !old(isMobileMenuOpen)
    {
      isMobileMenuOpen := !isMobileMenuOpen;
    }

    /** The logo button navigates to "home", which then renders Home with the first tab active. */
    method ClickLogo(app: App)
      modifies app
      ensures app.State() == Navigate(old(app.State()), "home")
      ensures app.Render() == Home && Highlights(app.activePage)[0]
    {
      app.HandleNavigate("home");
      assert PageId(Home) == "home";
      NavigationTableShape();
    }

    /**
     A desktop tab navigates to its item's identifier; that item's page is
     then rendered and that tab alone is active. The menu is left as it was.
     */
    method ClickDesktopTab(app: App, i: nat)
      requires i < |NavigationItems|
      modifies app
      ensures app.State() == Navigate(old(app.State()), NavigationItems[i].id)
      ensures PageId(app.Render()) == NavigationItems[i].id
      ensures forall k :: 0 <= k < |NavigationItems| ==> (Highlights(app.activePage)[k] <==> k == i)
    {
      app.HandleNavigate(NavigationItems[i].id);
      NavigationTableShape();
      TableMatchesRouter(app.activePage);
      assert NavIds()[i] == app.activePage;
    }

    /**
     A mobile item, offered only while the menu is open, navigates to its
     identifier and then closes the menu.
     */
    method ClickMobileItem(app: App, i: nat)
      requires i < |MobileItems()|
      modifies this, app
      ensures app.State() == Navigate(old(app.State()), NavigationItems[i].id)
      ensures PageId(app.Render()) == NavigationItems[i].id
      ensures !isMobileMenuOpen
    {
      var item := MobileItems()[i];
      app.HandleNavigate(item.id);
      isMobileMenuOpen := false;
      TableMatchesRouter(app.activePage);
      assert NavIds()[i] == app.activePage;
    }
  }
}

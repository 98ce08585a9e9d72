/**
 The client-side view router of the site (src/App.tsx).

 The application root holds one piece of state, the identifier of the page
 on display. `handleNavigate` stores whatever identifier it is given and asks
 the browser for a smooth scroll to the top; a post-render effect keyed on the
 identifier asks for an instant scroll to the top on mount and again whenever
 the identifier changes. `renderPage` maps the identifier to one of eight page
 components, with Home as the default arm.

 Scrolling is modelled as a log of requests; the browser that honours them is
 not part of this model.
 */
module Router {

  /** The eight page components the router can display. */
  datatype Page =
    | Home
    | IntelligentSystems
    | EnterpriseLab
    | AIProductStudio
    | InnovationLab
    | Automation
    | Advisory
    | Contact

  /** The identifier under which the router selects each page. */
  function PageId(page: Page): string
  {
    match page
    case Home => "home"
    case IntelligentSystems => "intelligent-systems"
    case EnterpriseLab => "enterprise-lab"
    case AIProductStudio => "ai-product-studio"
    case InnovationLab => "innovation-lab"
    case Automation => "automation"
    case Advisory => "advisory"
    case Contact => "contact"
  }

  /** An identifier is known when some page is selected under it. */
  ghost predicate IsKnownId(id: string)
  {
    exists page :: PageId(page) == id
  }

  /**
   The `renderPage` switch: each known identifier selects its own page, and
   every other string falls through to the default arm, Home.
   */
  function RenderPage(activePage: string): (page: Page)
    ensures PageId(page) == activePage || page == Home
    ensures IsKnownId(activePage) ==> PageId(page) == activePage
    ensures !IsKnownId(activePage) ==> page == Home
  {
    match activePage
    case "home" => Home
    case "intelligent-systems" => IntelligentSystems
    case "enterprise-lab" => EnterpriseLab
    case "ai-product-studio" => AIProductStudio
    case "innovation-lab" => InnovationLab
    case "automation" => Automation
    case "advisory" => Advisory
    case "contact" => Contact
    case _ => Home
  }

  /**
   Rendering is total and one-to-one on the known identifiers: each page is
   what its own identifier renders, and two different known identifiers never
   render the same page.
   */
  lemma RenderSelectsOwnPage(page: Page, a: string, b: string)
    ensures RenderPage(PageId(page)) == page
    ensures IsKnownId(a) && IsKnownId(b) && a != b ==> RenderPage(a) != RenderPage(b)
  {
  }

  /** One scroll request sent to the browser. */
  datatype ScrollRequest =
    | SmoothToTop   // window.scrollTo({ top: 0, behavior: 'smooth' }) in handleNavigate
    | InstantToTop  // window.scrollTo(0, 0) in the effect keyed on activePage

  /** What the router has observably done so far: its state and the scroll requests it issued. */
  datatype RouterState = RouterState(activePage: string, scrolls: seq<ScrollRequest>)

  /** The number of requests of kind `kind` in `log`. */
  function Count(log: seq<ScrollRequest>, kind: ScrollRequest): nat
  {
    if log == [] then 0
    else (if log[0] == kind then 1 else 0) + Count(log[1..], kind)
  }

  lemma {:induction false} CountAppend(a: seq<ScrollRequest>, b: seq<ScrollRequest>, kind: ScrollRequest)
    ensures Count(a + b, kind) == Count(a, kind) + Count(b, kind)
  {
    if a == [] {
      assert a + b == b;
    } else {
      assert (a + b)[1..] == a[1..] + b;
      CountAppend(a[1..], b, kind);
    }
  }

  /**
   The state right after mount: the page is "home", which renders Home, and
   the effect has run once, so one instant reset and no smooth scroll.
   */
  function Init(): (s: RouterState)
    ensures s.activePage == "home" && RenderPage(s.activePage) == Home
    ensures Count(s.scrolls, InstantToTop) == 1 && Count(s.scrolls, SmoothToTop) == 0
  {
    RouterState("home", [InstantToTop])
  }

  /**
   One call of `handleNavigate(pageId)` followed by the re-render it causes:
   the identifier is stored as given, a smooth scroll is requested, and the
   effect adds an instant reset only when the stored identifier changed.
   */
  function Navigate(s: RouterState, pageId: string): (r: RouterState)
    ensures r.activePage == pageId
    ensures |r.scrolls| > |s.scrolls| && r.scrolls[..|s.scrolls|] == s.scrolls
    ensures r.scrolls[|s.scrolls|] == SmoothToTop
  {
    RouterState(pageId,
      s.scrolls + [SmoothToTop] + (if pageId != s.activePage then [InstantToTop] else []))
  }

  /**
   Every navigation issues exactly one smooth scroll, and exactly one instant
   reset when it changes the page and none when it re-selects the current one.
   */
  lemma NavigateScrolls(s: RouterState, pageId: string)
    ensures Count(Navigate(s, pageId).scrolls, SmoothToTop) == Count(s.scrolls, SmoothToTop) + 1
    ensures Count(Navigate(s, pageId).scrolls, InstantToTop)
         == Count(s.scrolls, InstantToTop) + (if pageId != s.activePage then 1 else 0)
  {
    var extra := [SmoothToTop] + (if pageId != s.activePage then [InstantToTop] else []);
    assert Navigate(s, pageId).scrolls == s.scrolls + extra;
    CountAppend(s.scrolls, extra, SmoothToTop);
    CountAppend(s.scrolls, extra, InstantToTop);
    CountAppend([SmoothToTop], extra[1..], SmoothToTop);
    CountAppend([SmoothToTop], extra[1..], InstantToTop);
    assert extra == [SmoothToTop] + extra[1..];
  }

  /**
   An identifier outside the eight is stored as it is, yet renders exactly
   what navigating to "home" renders.
   */
  lemma UnknownIdFallsBackToHome(s: RouterState, pageId: string)
    requires !IsKnownId(pageId)
    ensures Navigate(s, pageId).activePage == pageId
    ensures RenderPage(Navigate(s, pageId).activePage) == RenderPage(Navigate(s, "home").activePage) == Home
  {
  }

  /**
   Navigating twice to the same identifier leaves the same page and renders
   the same page as navigating once; it issues two smooth scrolls, but no
   more instant resets than the single navigation did.
   */
  lemma NavigateIdempotent(s: RouterState, pageId: string)
    ensures Navigate(Navigate(s, pageId), pageId).activePage == Navigate(s, pageId).activePage
    ensures RenderPage(Navigate(Navigate(s, pageId), pageId).activePage) == RenderPage(Navigate(s, pageId).activePage)
    ensures Count(Navigate(Navigate(s, pageId), pageId).scrolls, SmoothToTop) == Count(s.scrolls, SmoothToTop) + 2
    ensures Count(Navigate(Navigate(s, pageId), pageId).scrolls, InstantToTop)
         == Count(Navigate(s, pageId).scrolls, InstantToTop)
  {
    NavigateScrolls(s, pageId);
    NavigateScrolls(Navigate(s, pageId), pageId);
  }

  /** The state after a run of navigations, applied in order. */
  function Run(s: RouterState, ids: seq<string>): RouterState
    decreases |ids|
  {
    if ids == [] then s else Run(Navigate(s, ids[0]), ids[1..])
  }

  /** How many steps of `ids`, starting from page `current`, change the page. */
  function Changes(current: string, ids: seq<string>): nat
    decreases |ids|
  {
    if ids == [] then 0
    else (if ids[0] != current then 1 else 0) + Changes(ids[0], ids[1..])
  }

  /**
   Over any run of navigations: the last identifier is the one stored, the
   earlier scroll log is kept, there is one smooth scroll per navigation, and
   one instant reset per navigation that changed the page.
   */
  lemma {:induction false} RunScrolls(s: RouterState, ids: seq<string>)
    ensures ids != [] ==> Run(s, ids).activePage == ids[|ids| - 1]
    ensures ids == [] ==> Run(s, ids) == s
    ensures |Run(s, ids).scrolls| >= |s.scrolls| && Run(s, ids).scrolls[..|s.scrolls|] == s.scrolls
    ensures Count(Run(s, ids).scrolls, SmoothToTop) == Count(s.scrolls, SmoothToTop) + |ids|
    ensures Count(Run(s, ids).scrolls, InstantToTop) == Count(s.scrolls, InstantToTop) + Changes(s.activePage, ids)
    decreases |ids|
  {
    if ids != [] {
      var t := Navigate(s, ids[0]);
      NavigateScrolls(s, ids[0]);
      RunScrolls(t, ids[1..]);
      assert Run(s, ids) == Run(t, ids[1..]);
      var r := Run(t, ids[1..]);
      assert r.scrolls[..|s.scrolls|] == r.scrolls[..|t.scrolls|][..|s.scrolls|];
      if ids[1..] == [] {
        assert |ids| == 1;
      } else {
        assert ids[1..][|ids[1..]| - 1] == ids[|ids| - 1];
      }
    }
  }

  /**
   Re-entering a page is not special-cased: advisory, enterprise-lab,
   advisory from the mounted state ends on Advisory after three smooth
   scrolls, and each step changed the page, so the mount reset plus three.
   */
  lemma ReentrantNavigation()
    ensures RenderPage(Run(Init(), ["advisory", "enterprise-lab", "advisory"]).activePage) == Advisory
    ensures Count(Run(Init(), ["advisory", "enterprise-lab", "advisory"]).scrolls, SmoothToTop) == 3
    ensures Count(Run(Init(), ["advisory", "enterprise-lab", "advisory"]).scrolls, InstantToTop) == 4
  {
    var ids := ["advisory", "enterprise-lab", "advisory"];
    RunScrolls(Init(), ids);
    assert Changes("home", ids) == 3;
  }

  /**
   The application root: the `activePage` state and the scroll requests it
   has issued so far.
   */
  class App {
    var activePage: string
    var scrolls: seq<ScrollRequest>

    /** The abstract view of the object. */
    function State(): RouterState
      reads this
    {
      RouterState(activePage, scrolls)
    }

    /** Mounting: `useState('home')`, then the effect's first run. */
    constructor ()
      ensures State() == Init()
    {
      activePage := "home";
      scrolls := [];
      scrolls := scrolls + [InstantToTop];
    }

    /**
     `handleNavigate(pageId)`: store the identifier unchecked, request a
     smooth scroll, then (after the commit) run the effect if the identifier
     changed.
     */
    method HandleNavigate(pageId: string)
      modifies this
      ensures State() == Navigate(old(State()), pageId)
      ensures activePage == pageId
    {
      var previous := activePage;
      activePage := pageId;
      scrolls := scrolls + [SmoothToTop];
      if activePage != previous {
        scrolls := scrolls + [InstantToTop];
      }
    }

    /** The page component `renderPage` returns for the current state. */
    function Render(): Page
      reads this
    {
      RenderPage(activePage)
    }
  }
}

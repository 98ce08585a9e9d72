# View router and navigation header of the Intelligent Creations site

The site is a single-page application. Its only logic is a client-side view
router and the navigation header that drives it:

- The application root (`src/App.tsx`) holds `activePage`, a string that
  starts as `'home'`. `handleNavigate(pageId)` stores the identifier exactly as
  given, without checking it, and requests a smooth scroll to the top. A
  post-render effect keyed on `activePage` requests an instant scroll to the
  top on mount, and again whenever `activePage` changes. `renderPage()`
  switches on the identifier over eight page components. Any other string
  falls through to the Home page.
- The header (`src/components/GlobalHeader.tsx`) owns a fixed table of eight
  navigation items. It draws an item as active when `activePage === item.id`.
  Its own state is one boolean, whether the mobile menu is open. The hamburger
  button flips it. The logo button navigates to `'home'`. A desktop tab
  navigates to its item. A mobile item is shown only while the menu is open;
  it navigates to its item and then closes the menu.

The model has three modules:

- `Router` (router.dfy): the `Page` enumeration and its identifiers, and the
  `renderPage` switch as `RenderPage`. The router's observable state is
  specified by functions: `Init`, `Navigate`, and `Run` for a sequence of
  navigations. The class `App` holds the `activePage` field and a log of the
  scroll requests issued so far. Its `HandleNavigate` method is proved to
  produce exactly `Navigate` of its previous state.
- `GlobalHeader` (header.dfy): the navigation table, the active-item
  comparison and the flags it yields. The class `Header` holds
  `isMobileMenuOpen`, with one method per button.
- `CallSites` (call_sites.dfy): the literal identifiers that the page bodies
  and the footer pass to `onNavigate`. Two of them, `'about'` and `'rnd'`, are
  not known to the router.

Scrolling is modelled as an appended log of requests. `SmoothToTop` stands for
`window.scrollTo({ top: 0, behavior: 'smooth' })` and `InstantToTop` for the
effect's `window.scrollTo(0, 0)`. The effect's dependency list is
`[activePage]` (src/App.tsx:23). It runs on mount and afterwards only when
`activePage` differs from its previous value. So re-selecting the current page
adds no instant reset.

`handleNavigate` (src/App.tsx:16-17) stores the identifier unchecked. So an
unrecognised identifier is kept in `activePage` while Home is rendered and no
tab is active (`UnknownIdFallsBackToHome`, `StrayTargetShowsHomeWithNoTab`).

The navigation items' `label` field is called `caption` in the model, because
`label` is a reserved word in Dafny.

## Model

| member | source | states |
|---|---|---|
| Router.RenderPage | src/App.tsx:25-54 | Rendering is total. A known identifier renders the page whose identifier it is. Any other string renders Home. |
| Router.RenderSelectsOwnPage | src/App.tsx:26-49 | Each page is what its own identifier renders. Two different known identifiers render two different pages. |
| Router.Init | src/App.tsx:14-23 | After mount the page is `'home'` and renders Home. The effect has issued one instant reset and no smooth scroll. |
| Router.Navigate | src/App.tsx:16-23 | The new `activePage` is exactly the given identifier, with no filtering. The earlier scroll log is kept, and the next request is a smooth scroll. |
| Router.NavigateScrolls | src/App.tsx:18-23 | Every navigation adds exactly one smooth scroll, re-selecting the current page included. It adds one instant reset if the page changed and none otherwise. |
| Router.UnknownIdFallsBackToHome | src/App.tsx:51-52 | An identifier outside the eight is stored as given. It renders the same page as navigating to `'home'`: Home. |
| Router.NavigateIdempotent | src/App.tsx:16-23 | Navigating twice to `x` leaves the same `activePage` and rendered page as navigating once. It issues two smooth scrolls but no extra instant reset. |
| Router.RunScrolls | src/App.tsx:16-23 | After any sequence of navigations, the last identifier is stored and the earlier log is a prefix. There is one smooth scroll per call and one instant reset per call that changed the page. |
| Router.ReentrantNavigation | src/App.tsx:16-23 | advisory, enterprise-lab, advisory from mount ends on Advisory. It issues three smooth scrolls and four instant resets, the mount reset included. |
| Router.App.constructor | src/App.tsx:14-23 | The mounted object is in the `Init` state. |
| Router.App.HandleNavigate | src/App.tsx:16-23 | The new state is `Navigate` of the old one. `activePage` is the given identifier. |
| GlobalHeader.NavigationTableShape | src/components/GlobalHeader.tsx:11-20 | The table has eight items, in the order home, intelligent-systems, enterprise-lab, ai-product-studio, innovation-lab, automation, advisory, contact. Their identifiers are pairwise distinct. |
| GlobalHeader.TableMatchesRouter | src/components/GlobalHeader.tsx:11-20 | An identifier is in the header's table if and only if the switch in src/App.tsx:27-48 recognises it. |
| GlobalHeader.Highlights | src/components/GlobalHeader.tsx:74-110 | At most one item is active for any `activePage`. One is active if and only if `activePage` is a known identifier. An active item is the page on display. |
| GlobalHeader.Header.constructor | src/components/GlobalHeader.tsx:28 | The mobile menu starts closed. |
| GlobalHeader.Header.MobileItems | src/components/GlobalHeader.tsx:135-144 | While the menu is open the whole table is offered, in order. While it is closed nothing is offered. |
| GlobalHeader.Header.ToggleMobileMenu | src/components/GlobalHeader.tsx:117 | The hamburger negates `isMobileMenuOpen`, so two toggles restore it. |
| GlobalHeader.Header.ClickLogo | src/components/GlobalHeader.tsx:45-46 | The logo always navigates to `'home'`. Home is then rendered and the first tab is active. |
| GlobalHeader.Header.ClickDesktopTab | src/components/GlobalHeader.tsx:67-70 | A tab navigates to its item's identifier. That item's page is rendered and that tab alone is active. The menu state is untouched. |
| GlobalHeader.Header.ClickMobileItem | src/components/GlobalHeader.tsx:144-150 | An offered mobile item navigates to its item's identifier and renders that page. The menu is left closed. |
| CallSites.StrayTargets | src/components/HomePage.tsx:70-288 | Of all the identifiers the pages and the footer pass to the router, exactly `'about'` and `'rnd'` are unknown. |
| CallSites.StrayTargetShowsHomeWithNoTab | src/components/HomePage.tsx:70 | Following `'about'` or `'rnd'` stores that string and renders Home, and no header tab is active. |

## Left out

- Page bodies (Home, Intelligent Systems, Enterprise Lab, AI Product Studio, Innovation Lab, Automation, Advisory, Contact): animation, styling and copy with floating-point layout and randomness. Only the identifiers their buttons pass to `onNavigate` are kept, in `CallSites`.
- In-page `scrollIntoView` calls on the Home and Intelligent Systems pages: DOM side effects that do not touch router state.
- The browser's handling of scroll requests, including smooth-scroll timing and the interplay of the smooth and instant requests: the model records requests and does not model a viewport.
- The contact form's four fields and its `console.log` on submit: no validation, no transport and no invariant.
- The footer's layout and its year display (a clock read): only its link identifiers are kept.
- React itself (scheduling, development-mode double effects) and motion animation props: foreign libraries. A navigation and the re-render it causes are modelled as one atomic step.
- Hover and animation states of the header's buttons: presentation only.

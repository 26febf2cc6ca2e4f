# Portfolio site UI state machines, modelled in Dafny

This project models the small pieces of sequential logic inside the React
components of a personal portfolio site (`design-portfolio-v2`), and proves
their properties:

- **Testimonial carousel** (`Testimonials.dfy`, module `Testimonials`): the
  `currentIndex` moved by the previous/next buttons and the dot indicators,
  the active-dot test, and the gradient lookup table `getGradientColors`.
- **Navigation bar** (`Navbar.dfy`, module `Navbar`): the width
  classification into mobile/tablet/desktop, the desktop-only `scrolled`
  flag, the mobile menu toggle, link highlighting (`isActive`) and the
  layout choices derived from the viewport and `scrolled`.
- **Theme context** (`ThemeContext.dfy`, module `ThemeContext`): resolving
  `darkMode` from local storage or the system preference, the effect that
  writes the theme back to storage and sets or clears the root element's
  `dark` class, and `toggleTheme`.
- **Skills showcase** (`Skills.dfy`, module `Skills`): the `activeSkill`
  written by the reveal tweens' `onStart`/`onReverseComplete` callbacks and
  by cleanup, the loop that registers those callbacks, the
  "Scroll to explore" hint and the active-item marking.

`Wrappers.dfy` holds the `Option` type used for JavaScript's
`null`/`undefined`.

Each module keeps the same structure. Pure functions over the component's
state describe each transition, and lemmas state what the source promises
about them. A class holds the component's mutable state fields
(`Carousel`, `Navbar`, `ThemeProvider` with its `Document`,
`SkillsSection`). Its methods update those fields in place, and their
postconditions tie the new state to the transition functions.

Browser inputs become parameters: `window.innerWidth` is an `int` and
`window.scrollY` is a `real`. The `prefers-color-scheme` media query result
is a `bool`. Whether the carousel's card element is mounted is also a `bool`.
Local storage is a `map<string, string>` and the root element's class list
is a `set<string>`. Animation-library callbacks (`onComplete`, `onStart`,
`onReverseComplete`) are modelled as the method calls they trigger.

JavaScript's `%` truncates toward zero while Dafny's is Euclidean. The two
agree here because the carousel index is never negative.

## Model

| member | source | states |
|---|---|---|
| `Testimonials.GradientColors` | src/components/Testimonials.jsx:316-327 | the table has an entry exactly for indices 0..5, and any other index gives `undefined` |
| `Testimonials.ReachableIndicesHaveGradients` | src/components/Testimonials.jsx:10-65 | every index below the number of testimonials (3) has gradient colours |
| `Testimonials.NextIndex` | src/components/Testimonials.jsx:83 | next stays in `[0, n)`: it moves to `i + 1`, or wraps to 0 from the last index |
| `Testimonials.PrevIndex` | src/components/Testimonials.jsx:104-106 | previous maps 0 to `n - 1` and any other `i` to `i - 1`, staying in `[0, n)` for in-range `i` |
| `Testimonials.PrevUndoesNext` | src/components/Testimonials.jsx:83-106 | previous after next returns to the same in-range index |
| `Testimonials.NextUndoesPrev` | src/components/Testimonials.jsx:83-106 | next after previous returns to the same in-range index |
| `Testimonials.NextTimes` | src/components/Testimonials.jsx:83 | any number of next presses from an in-range index stays in range |
| `Testimonials.NextTimesAdvances` | src/components/Testimonials.jsx:83 | within one cycle, `k` next presses advance the index by `k`, wrapping once past the end |
| `Testimonials.NextCycleReturns` | src/components/Testimonials.jsx:83 | `n` next presses return to the starting index |
| `Testimonials.DotIndices` | src/components/Testimonials.jsx:270-272 | there is one dot per testimonial, and dot `k` carries index `k` |
| `Testimonials.DotClickStaysInRange` | src/components/Testimonials.jsx:270-278 | the index a dot click sets is always in range |
| `Testimonials.ActiveDots` | src/components/Testimonials.jsx:286-290 | a dot is rendered active exactly when its index equals `currentIndex` |
| `Testimonials.ExactlyOneActiveDot` | src/components/Testimonials.jsx:286-290 | exactly one dot is active when the index is in range, and none otherwise |
| `Testimonials.Carousel.constructor` | src/components/Testimonials.jsx:72 | the carousel starts at index 0, within range |
| `Testimonials.Carousel.Current` | src/components/Testimonials.jsx:243-251 | the testimonial on show is an entry of the data list, so the lookup is defined |
| `Testimonials.Carousel.CurrentGradient` | src/components/Testimonials.jsx:216-236 | the current card's gradient is the table entry for the current index, which always exists |
| `Testimonials.Carousel.HandleNext` | src/components/Testimonials.jsx:75-93 | when the card is mounted the index becomes `NextIndex` of the old one, otherwise it is unchanged; it stays in range |
| `Testimonials.Carousel.HandlePrev` | src/components/Testimonials.jsx:96-116 | when the card is mounted the index becomes `PrevIndex` of the old one, otherwise it is unchanged; it stays in range |
| `Testimonials.Carousel.ClickDot` | src/components/Testimonials.jsx:270-285 | clicking dot `k` sets the index to that dot's index, which stays in range |
| `Navbar.ClassifyWidth` | src/components/Navbar.jsx:12-22 | width below 768 is mobile, 768 to 1023 is tablet, 1024 and above is desktop |
| `Navbar.ClassifyMonotone` | src/components/Navbar.jsx:15-21 | a wider window never gets a narrower viewport class |
| `Navbar.AfterCheckViewport` | src/components/Navbar.jsx:12-22 | the resize handler sets the viewport from the width and changes nothing else |
| `Navbar.ScrollSetterCalled` | src/components/Navbar.jsx:26-30 | the `scrolled` setter runs only on desktop, and there exactly when `scrollY > 800` differs from `scrolled` |
| `Navbar.AfterScroll` | src/components/Navbar.jsx:24-32 | off desktop `scrolled` is unchanged; on desktop it becomes `scrollY > 800`; the state changes iff the setter runs |
| `Navbar.ScrollIdempotent` | src/components/Navbar.jsx:27-30 | handling the same scroll position again changes nothing and does not call the setter |
| `Navbar.AfterToggleMenu` | src/components/Navbar.jsx:51-53 | the menu button negates `menuOpen` and changes nothing else |
| `Navbar.ToggleMenuTwice` | src/components/Navbar.jsx:51-53 | toggling the menu twice restores the state |
| `Navbar.AfterMenuLinkClick` | src/components/Navbar.jsx:67 | a mobile-menu link click closes the menu whatever its prior state and changes nothing else |
| `Navbar.IsActive` | src/components/Navbar.jsx:47-49 | a route is active iff the pathname equals it exactly |
| `Navbar.ActiveLinks` | src/components/Navbar.jsx:47-49 | a link is highlighted iff the pathname equals its route |
| `Navbar.ActiveLinkUnique` | src/components/Navbar.jsx:47-49 | with distinct routes, exactly the link whose route is the pathname is highlighted, and at most one is |
| `Navbar.AtMostOneActiveLink` | src/components/Navbar.jsx:58-171 | in the mobile menu and in the centre pills at most one link is highlighted |
| `Navbar.NavWidthFor` | src/components/Navbar.jsx:117-123 | the width is 90vw exactly off desktop, 50vw exactly on desktop when scrolled, and 80vw exactly on desktop when not scrolled |
| `Navbar.NavWidthChoice` | src/components/Navbar.jsx:117-123 | two values of `scrolled` give different widths iff the viewport is desktop, so off desktop `scrolled` is ignored |
| `Navbar.ShowCentrePills` | src/components/Navbar.jsx:131 | the centre pills show iff the viewport is tablet or desktop |
| `Navbar.ShowMenuButton` | src/components/Navbar.jsx:178 | the menu button (with the mobile menu) shows iff the centre pills do not, i.e. iff the viewport is mobile |
| `Navbar.PillsOrMenuButton` | src/components/Navbar.jsx:131-202 | exactly one of the centre pills and the menu button shows, and the button shows iff the width is below 768 |
| `Navbar.Navbar.constructor` | src/components/Navbar.jsx:6-8 | the bar starts on desktop, not scrolled, with the menu closed |
| `Navbar.Navbar.CheckViewport` | src/components/Navbar.jsx:12-22 | the in-place resize handler follows `AfterCheckViewport` |
| `Navbar.Navbar.HandleScroll` | src/components/Navbar.jsx:24-32 | the in-place scroll handler follows `AfterScroll` and reports whether it called the setter |
| `Navbar.Navbar.ToggleMenu` | src/components/Navbar.jsx:51-53 | the in-place toggle follows `AfterToggleMenu` |
| `Navbar.Navbar.ClickMenuLink` | src/components/Navbar.jsx:106 | the in-place link-click handler follows `AfterMenuLinkClick` |
| `ThemeContext.GetItem` | src/contexts/ThemeContext.jsx:8 | reading storage gives the stored string, or `null` when the key is absent |
| `ThemeContext.Truthy` | src/contexts/ThemeContext.jsx:9 | a saved value counts as present unless it is `null` or the empty string |
| `ThemeContext.InitialDarkMode` | src/contexts/ThemeContext.jsx:7-13 | a saved `'dark'` gives dark mode; any other non-empty saved string gives light; no saved value or an empty one falls back to the system preference |
| `ThemeContext.ThemeName` | src/contexts/ThemeContext.jsx:18 | dark mode is stored as `'dark'` and light mode as `'light'` |
| `ThemeContext.PersistTheme` | src/contexts/ThemeContext.jsx:20 | afterwards `theme` holds the theme name, and every other key is unchanged |
| `ThemeContext.ApplyDarkClass` | src/contexts/ThemeContext.jsx:23-27 | afterwards the class set contains `dark` iff dark mode is on, and no other class is added or removed |
| `ThemeContext.PersistRoundTrip` | src/contexts/ThemeContext.jsx:8-20 | re-initialising from what the effect stored gives back the same `darkMode`, whatever the system preference |
| `ThemeContext.StoredThemeOverridesSystem` | src/contexts/ThemeContext.jsx:8-12 | once the effect has stored a theme, the system preference no longer affects initialisation |
| `ThemeContext.Toggle` | src/contexts/ThemeContext.jsx:31-33 | `toggleTheme` always changes `darkMode` |
| `ThemeContext.ToggleTwice` | src/contexts/ThemeContext.jsx:31-33 | toggling twice is the identity |
| `ThemeContext.ThemeProvider.constructor` | src/contexts/ThemeContext.jsx:7-13 | the provider's initial `darkMode` is `InitialDarkMode` of what storage holds under `theme` |
| `ThemeContext.ThemeProvider.SyncEffect` | src/contexts/ThemeContext.jsx:16-28 | the effect updates storage by `PersistTheme` and the class list by `ApplyDarkClass`, leaving both in agreement with `darkMode` |
| `ThemeContext.ThemeProvider.ToggleTheme` | src/contexts/ThemeContext.jsx:31-33 | `toggleTheme` negates `darkMode` in place |
| `ThemeContext.Reload` | src/contexts/ThemeContext.jsx:7-20 | a provider created over storage that an earlier effect synced starts with the earlier `darkMode` |
| `Skills.StartTarget` | src/components/Skills.jsx:87 | the forward start of item `i` highlights `skills[i]` |
| `Skills.ReverseTarget` | src/components/Skills.jsx:88-95 | reverse completion of item `i > 0` highlights `skills[i-1]`, which is what item `i - 1`'s start set; for item 0 it clears the highlight |
| `Skills.RegisterSkillTweens` | src/components/Skills.jsx:80-100 | the loop registers one tween per skill; tween `i` starts by highlighting `skills[i]` and reverses to what tween `i - 1` set, or to none for the first |
| `Skills.Step` | src/components/Skills.jsx:87-111 | start of `i` highlights `skills[i]`, reverse completion follows `ReverseTarget`, and cleanup clears the highlight |
| `Skills.HighlightAt` | src/components/Skills.jsx:80-100 | at timeline position `p` the highlight is none for `p = 0` and `skills[p-1]` otherwise |
| `Skills.InOrderEventsValid` | src/components/Skills.jsx:80-100 | every callback fired by a scrub refers to a registered item |
| `Skills.ScrubTracksPosition` | src/components/Skills.jsx:80-100 | however the timeline is scrubbed back and forth, the highlight is the last skill whose start the playhead has passed |
| `Skills.StartThenReverseRestores` | src/components/Skills.jsx:87-95 | a forward start of `i` followed by its reverse completion restores the prior highlight: `skills[i-1]`, or none at `i = 0` |
| `Skills.HintVisible` | src/components/Skills.jsx:140 | the hint shows only while no skill is highlighted, and hides whenever one is |
| `Skills.IsMarked` | src/components/Skills.jsx:156 | an item is marked iff the highlighted skill has its name; the highlighted skill itself is always marked, and a marked item means the hint is hidden |
| `Skills.MarkedItems` | src/components/Skills.jsx:156 | an item is marked iff its name equals the highlighted skill's name |
| `Skills.MarkingFollowsHighlight` | src/components/Skills.jsx:140-166 | with distinct names, highlighting item `k` marks item `k` alone and no highlight marks nothing; the hint shows iff nothing is marked |
| `Skills.SkillNamesDistinct` | src/components/Skills.jsx:21-36 | the fourteen skill names are pairwise distinct |
| `Skills.SkillsSection.constructor` | src/components/Skills.jsx:19 | `activeSkill` starts as null |
| `Skills.SkillsSection.OnStart` | src/components/Skills.jsx:87 | the in-place `onStart` callback follows `Step` on a start event |
| `Skills.SkillsSection.OnReverseComplete` | src/components/Skills.jsx:88-95 | the in-place `onReverseComplete` callback follows `Step` on a reverse-completion event |
| `Skills.SkillsSection.CleanupEffect` | src/components/Skills.jsx:109-111 | the effect's cleanup resets `activeSkill` to null |

## Left out

- Animation: tweens, timelines, scroll triggers and their scrub/pin behaviour and killing are not modelled. Their callbacks appear only as the state updates they perform. The carousel index changes when the fade-out completes; the model applies the update at that moment, in call order.
- Skills timeline: the heading, pause and circle-scale tweens carry no state and are not modelled. Each skill's trailing pause is also left out.
- `NextTimesAdvances`: stated for up to one full cycle (`k <= n`) rather than as `(i + k) mod n` for every `k`. The full-cycle return (`NextCycleReturns`) follows from it.
- Testimonials: the quote text is not carried in `Testimonial`. The light/dark choice between a gradient's `light` and `darkLight` tint, and the theme-dependent colour classes, are not modelled.
- `Testimonials.Carousel.ClickDot`: the dot handler does not check that the card is mounted, so the model always applies the update.
- Skills: the icons, and the trigonometric placement of items with its `x < 50` label side, are floating-point layout and are not modelled.
- Navbar: registering and removing the scroll and resize listeners is not modelled. The handlers read `scrolled` and `viewport` as captured when the effect registered them, and the effect re-registers them only after the next render. The model assumes each handler sees the committed state; events that arrive before the effect re-registers the listeners are not modelled. In that window the source can miss a change back (scroll to 850, then to 700 before re-registration, leaves `scrolled` true) or call the setter twice for the same position. Navigation itself (react-router's `Link` changing the pathname) is outside the component; the pathname is an input.
- Theme: `window.matchMedia` is a boolean input, and the context object handed to consumers is not modelled.
- Tailwind class strings, inline styles and the rest of the JSX markup are not modelled, beyond the boolean and three-way selections above.
- Routing, the static pages, the footer, the project showcase, the aurora UI wrappers and the Tailwind configuration carry no modelled logic.

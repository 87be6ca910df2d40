# Portfolio page controllers, modelled in Dafny

The portfolio site's `js/main.js` is a set of independent event handlers.
They drive a dark-mode toggle, a sticky navbar with scroll-spy, a mobile
menu, smooth-scroll anchors, scroll-reveal animations, a project filter,
a project-detail modal, contact-form validation and lazy images. This
project models the decision rules inside those handlers over an abstract
page state, without a DOM or timers:

- the handlers that change page state (theme, navbar and scroll-spy,
  mobile menu, reveal, filter, modal) have pure transition functions over
  that state, and the lemmas are stated about these functions. The state
  is a datatype (`ThemeState`, `MenuState`, `ModalState`) or sequences of
  flags and records (link flags, reveal flags, filter buttons and cards);
- for each of these a class holds the same state as fields and stands for
  the live page. Its methods change the fields step by step, with the
  source's loops, and each `ensures` ties the new state to the transition
  function applied to the old state;
- the contact-form validator, the anchor offset and the lazy-image rule
  are pure functions with no class: the source computes them from values
  it reads and does not keep them;
- the modal's HTML template becomes a structured `View` value, built from
  the six embedded project records;
- the email regular expression is a predicate that follows the pattern
  piece by piece. It is proved equal to a plain description: no
  whitespace, exactly one `@`, and so on.

Files: `common.dfy` (Option, JavaScript truthiness), `theme.dfy`,
`navigation.dfy` (navbar, scroll-spy, anchor offset), `menu.dfy`,
`reveal.dfy`, `filter.dfy`, `modal.dfy`, `contact.dfy`, `lazyload.dfy`.

Interpretation choices:

- Page lengths (`scrollY`, `offsetTop`, heights, viewport-relative tops) are
  integers.
- Local storage is one optional string.
- `FormData.get` results are optional strings and abstract no DOM.
- The outside-click hit test is a boolean input.
- The initial markup is assumed to have no `dark-mode` class, a collapsed
  menu with `aria-expanded="false"`, an empty modal body and no
  `overflow` style. The navbar's `scrolled` class, the link flags, the
  reveal elements' `revealed` classes and the filter buttons and cards are
  taken as served: their constructors receive them as parameters.

Behaviour of the code worth noting:

- Scroll-spy: every section whose range holds `scrollY + 100` rewrites
  all link flags, so with overlapping sections the LAST one in document
  order wins. `Navigation.DisjointCoveringIsUnique` shows this is the only
  covering section when the ranges are disjoint.
- When no section matches, the link flags are left as they were. They
  are not cleared.
- `openModal` has no bounds check. An out-of-range index makes
  `project.image` throw, so it does not render blank fields, and
  `ProjectModal.Modal.Open` requires an existing index.

## Model

| member | source | states |
|---|---|---|
| Theme.Startup | js/main.js:12-15 | dark mode is on at load iff the saved value is exactly "dark"; storage is not written; a saved "dark"/"light" gives a consistent state |
| Theme.Toggled | js/main.js:17-23 | a click flips the mode, and afterwards the stored value is "dark" iff dark mode is on |
| Theme.Toggles | js/main.js:17-23 | n successive clicks; what they do is stated by `ToggleParity`, `TwoTogglesRestore` and the reload lemmas |
| Theme.TwoTogglesRestore | js/main.js:17-23 | two clicks restore the mode and leave storage naming it, so the stored value is restored exactly when it already agreed with the mode (an absent value becomes "light"/"dark") |
| Theme.ToggleParity | js/main.js:17-23 | after n clicks the mode has flipped n times (odd n: opposite mode), and for n > 0 storage names the current mode |
| Theme.ReloadRestores | js/main.js:12-23 | reloading after one or more clicks reproduces exactly the mode and stored value the session ended with |
| Theme.ReloadAfterVisitRestores | js/main.js:12-23 | a visit that starts by loading the saved value, after any number of clicks including none, is reproduced exactly by the next load |
| Theme.ThemeController.constructor | js/main.js:12-15 | the page state after load is `Startup(saved)` |
| Theme.ThemeController.Toggle | js/main.js:17-23 | the click handler moves the page state to `Toggled` of the old state |
| Navigation.ScrolledAfter | js/main.js:33-37 | the navbar's `scrolled` flag is set iff `scrollY > 50`, whatever it was before |
| Navigation.ScrolledIdempotent | js/main.js:33-37 | handling the same scroll offset twice equals handling it once |
| Navigation.Covers | js/main.js:53-56 | the match test: `top <= pos < top + height` |
| Navigation.LastCovering | js/main.js:48-56 | finds the last section whose `[top, top+height)` holds the probe point, or reports that none does |
| Navigation.LinkFlagsFor | js/main.js:57-62 | after the clear-then-set pass, exactly the links whose href is `"#"+id` are active |
| Navigation.SpyFlags | js/main.js:44-65 | the flags after `updateActiveNavLink`: those of the last covering section, else unchanged; its properties are the three lemmas below |
| Navigation.SpyActivatesLastCovering | js/main.js:44-65 | if section k holds `scrollY+100` and no later one does, afterwards the active links are exactly those to `"#"+id` of section k |
| Navigation.SpyNoCoverUnchanged | js/main.js:44-65 | if no section holds `scrollY+100`, every link flag is unchanged |
| Navigation.DisjointCoveringIsUnique | js/main.js:48-64 | for pairwise disjoint sections, the covering section is unique, so first match equals last match |
| Navigation.SpyAtMostOneActive | js/main.js:57-62 | with distinct link targets, a covering section leaves at most one link active |
| Navigation.AnchorScrollTarget | js/main.js:101-111 | no scroll when the anchor target is missing; otherwise the scroll target is `offsetTop - navHeight` |
| Navigation.NavBar.constructor | js/main.js:28-29 | the navbar starts with the `scrolled` class and the link flags the markup was served with |
| Navigation.NavBar.OnScroll | js/main.js:31-41 | the scroll listener sets the threshold flag and the link flags per the two rules above |
| Navigation.NavBar.UpdateActiveNavLink | js/main.js:44-65 | the nested loop leaves the link flags equal to `SpyFlags` of the old flags |
| Navigation.NavBar.ActivateLinksTo | js/main.js:57-62 | the inner loop leaves the flags equal to `LinkFlagsFor(hrefs, id)` |
| MobileMenu.BoolAttribute | js/main.js:75 | `setAttribute` with a boolean stores "true" or "false" |
| MobileMenu.Toggled | js/main.js:73-77 | a toggle press flips `active` and sets `aria-expanded` to "true" iff it was not "true"; keeps "active iff aria-expanded is true" |
| MobileMenu.AfterLinkClick | js/main.js:80-85 | a nav-link click leaves the menu inactive with `aria-expanded="false"`, so consistent |
| MobileMenu.AfterDocumentClick | js/main.js:88-93 | an outside click collapses the menu; any other click changes nothing; consistency is kept |
| MobileMenu.ToggleTwiceRestores | js/main.js:73-77 | two toggle presses restore any menu whose attribute is "true" or "false" |
| MobileMenu.MenuController.constructor | js/main.js:70-71 | the menu starts collapsed and consistent |
| MobileMenu.MenuController.ToggleClick | js/main.js:73-77 | moves the menu state to `Toggled` of the old state |
| MobileMenu.MenuController.LinkClick | js/main.js:80-85 | moves the menu state to `AfterLinkClick` |
| MobileMenu.MenuController.DocumentClick | js/main.js:88-93 | moves the menu state to `AfterDocumentClick` for the given hit test |
| Reveal.RevealStep | js/main.js:120-131 | after a check an element is revealed iff it was already, or its top is above `windowHeight - 50` |
| Reveal.RevealStepGrows | js/main.js:124-130 | one check never shrinks the revealed set |
| Reveal.RevealStepAdds | js/main.js:124-130 | one check adds exactly the elements above the reveal line to the revealed set |
| Reveal.RevealStepIdempotent | js/main.js:120-131 | checking the same frame twice equals checking it once |
| Reveal.RevealFrames | js/main.js:133-146 | the flags after a series of checks, one per frame, in order; the length is kept |
| Reveal.RevealedStaysRevealed | js/main.js:133-146 | through any series of checks (load, then each frame), a revealed element stays revealed |
| Reveal.RevealController.constructor | js/main.js:118 | the elements start with the `revealed` classes the markup was served with |
| Reveal.RevealController.Check | js/main.js:120-131 | the loop leaves the flags equal to `RevealStep` of the old flags |
| ProjectFilter.ButtonsAfterClick | js/main.js:158-160 | after clicking button b, exactly button b is active; filters unchanged |
| ProjectFilter.Shows | js/main.js:166 | a card matches iff the filter is "all" or equals its category |
| ProjectFilter.CardsAfterClick | js/main.js:163-176 | the click hides non-matching cards at once and leaves matching ones untouched until their timer |
| ProjectFilter.ShowTasksFrom | js/main.js:163-171 | the timers the card loop schedules from position `from` on; stated by `ShowTasksFromSpec` |
| ProjectFilter.ShowTasksFromSpec | js/main.js:163-171 | the show steps from position `from`: only matching cards, every matching card, in document order, card k after k*50 |
| ProjectFilter.ShowTasks | js/main.js:163-171 | one show step per matching card, no others, in order, the card at index k delayed by k*50 |
| ProjectFilter.ShowCard | js/main.js:169-170 | one timer callback: card k loses `hidden` and gets the fade-in animation, other cards untouched |
| ProjectFilter.ApplyShows | js/main.js:168-171 | after the steps run, a card is hidden iff it was hidden and no step targets it, and shown cards carry the fade-in animation |
| ProjectFilter.FilterSettles | js/main.js:154-178 | once the click's steps have run, a card is visible iff the filter is "all" or equals its category |
| ProjectFilter.WildcardShowsAll | js/main.js:166 | the "all" filter eventually shows every card |
| ProjectFilter.FilterController.constructor | js/main.js:151-152 | the buttons and cards as served, with no timer pending |
| ProjectFilter.FilterController.Click | js/main.js:154-178 | the click handler sets the buttons and cards as above and queues its show steps behind any pending ones |
| ProjectFilter.FilterController.ActivateOnly | js/main.js:159-160 | clear-all-then-set leaves only button b active |
| ProjectFilter.FilterController.FilterCards | js/main.js:163-176 | the card loop hides the others and returns exactly `ShowTasks` |
| ProjectFilter.FilterController.RunPending | js/main.js:168-171 | running the pending timers applies every queued step and empties the queue |
| ProjectModal.FeatureItems | js/main.js:367-376 | one item per feature, same length and order, each marked with the template's mark text |
| ProjectModal.TechTags | js/main.js:385-393 | one tag per technology, same length and order |
| ProjectModal.ActionLinks | js/main.js:397-421 | a code link iff `github` is present and non-empty, a live link iff `demo` is; hrefs are the fields; code before live |
| ProjectModal.Render | js/main.js:332-424 | the template carries the record's image, title, description, challenge and solution, all features and all tech in order, and a code/live link exactly per truthiness of `github`/`demo` |
| ProjectModal.DatasetShape | js/main.js:190-316 | six records; the first five have both links; record 5 has no github and renders only the live link |
| ProjectModal.Opened | js/main.js:426-428 | open(i) shows record i's view, sets the modal active and the body overflow to "hidden" |
| ProjectModal.Closed | js/main.js:432-435 | close sets inactive and overflow "", keeping the content |
| ProjectModal.AfterKeyDown | js/main.js:441-445 | Escape closes only an active modal; every other key press changes nothing |
| ProjectModal.CloseIdempotent | js/main.js:432-438 | closing twice equals closing once; closing a closed, unlocked modal is a no-op |
| ProjectModal.OpenThenClose | js/main.js:328-445 | open then close (button, overlay or Escape) leaves the modal closed with scrolling restored |
| ProjectModal.Modal.constructor | js/main.js:183-186 | the modal starts inactive, with no overflow style and an empty body |
| ProjectModal.Modal.Open | js/main.js:328-429 | moves the modal state to `Opened`; requires an index of the dataset |
| ProjectModal.Modal.Close | js/main.js:432-438 | moves the modal state to `Closed` |
| ProjectModal.Modal.KeyDown | js/main.js:441-445 | moves the modal state to `AfterKeyDown` |
| ContactForm.MatchesEmailPattern | js/main.js:469-470 | the regex `^[^\s@]+@[^\s@]+\.[^\s@]+$` read piece by piece: a split into run, `@`, run, `.`, run, with `\s` as ECMAScript's class |
| ContactForm.EmailShape | js/main.js:469-470 | the plain reading: no whitespace, something before the first `@`, no later `@`, a dot inside the domain |
| ContactForm.ShapeImpliesPattern | js/main.js:469-470 | a string with no whitespace, one `@` after a non-empty local part and an inner dot in the domain matches the pattern |
| ContactForm.PatternImpliesShape | js/main.js:469-470 | every string matching the pattern has that shape |
| ContactForm.EmailPatternIffShape | js/main.js:469-470 | the pattern `^[^\s@]+@[^\s@]+\.[^\s@]+$` accepts exactly the strings of that shape |
| ContactForm.Validate | js/main.js:462-474 | "missing field" iff a field is absent or empty (checked first); otherwise accepted iff the email has that shape, else "invalid email" |
| ContactForm.EmptyNameRejected | js/main.js:462-466 | an empty name with a valid email is a missing field |
| ContactForm.AddressWithoutAtRejected | js/main.js:469-474 | "not-an-email" is rejected as an invalid email |
| ContactForm.WellFormedAccepted | js/main.js:462-476 | name "A", email "a@b.com", message "hi" is accepted |
| ContactForm.BlankNameIsFilled | js/main.js:462 | a name of blanks passes the required-field check |
| LazyLoad.LoadSource | js/main.js:492 | the image gets its deferred source when that is non-empty, else keeps its current one |
| LazyLoad.OnIntersection | js/main.js:488-497 | an intersecting observed image gets the source above, the `loaded` class, and stops being observed |
| LazyLoad.LoadIsOneShot | js/main.js:490-494 | after the first handled intersection, later entries change nothing |

## Left out

- DOM querying, `classList` and attribute plumbing. They become records and sequences with boolean flags.
- Event dispatch and `contains` hit testing. The outside click is a boolean input, and the bubbling of the toggle and link clicks to the document listener is not modelled. Those clicks land inside the menu or the toggle, where that listener does nothing.
- `e.preventDefault()` and the `alert` texts. The validator returns a `Verdict` instead.
- Timer timing: the real delays of `setTimeout` and `requestAnimationFrame` are not modelled. Show steps wait in an explicit queue, and `RunPending` runs every queued step at once. Frame coalescing of the reveal check is not modelled: each `Check` call is one evaluation.
- ProjectFilter.FilterSettles: it assumes no show steps from an earlier click are still queued. Overlapping timers from rapid clicks can show a stale card; that case is outside the model's claims.
- The smooth `window.scrollTo` animation. Only its target offset is modelled.
- IntersectionObserver setup and the `"IntersectionObserver" in window` feature test. Only the handling of one entry is modelled.
- `trackPageView`, the delayed page-view call after link clicks, and all `console.log` output. They are diagnostics with no page effect.
- `debounce` and `throttle`. They are timer-based utilities that nothing calls.
- The modal's inline-styled HTML markup and the SVG icons. The rendered structure is a `View` value.
- `parseInt` of `data-project`. Open takes the index as a natural number.
- JavaScript numbers are floating point. Lengths and offsets here are unbounded integers, so fractional scroll offsets are not modelled.

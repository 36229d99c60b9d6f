# Portfolio page sections: a verified model

This project models the stateful parts of a single-page portfolio site built
from React components: the contact form's submission flow, the projects
category filter, the footer's back-to-top flag, quick links and social-link
row, and the one-shot scroll-reveal latch that the certifications, projects
and contact sections each instantiate.

- `Reveal.dfy` (module `Reveal`) models the reveal latch. The class
  `RevealLatch` holds a section's `isVisible` cell and whether its
  IntersectionObserver is attached. `Latch` replays a run of observer
  entries. `Render` and `Staggered` give the "animation class if visible,
  else `opacity-0`" choice and the per-index stagger delays. Delays are
  integer tenths of a second.
- `Contact.dfy` (module `Contact`) models the contact form. `FormState` and
  `Step` are the pure state machine. The state is the four fields, the two
  independent flags `isSubmitting` and `isSuccess`, the multiset of pending
  timers, and the log of emitted toasts. Its events are input, submit,
  completion timer and reset timer. The class `ContactSection` holds the same
  state in fields. Each of its methods `Change`, `Submit`, `CompletionFires`
  and `ResetFires` is proved to move the state exactly as `Step` does.
- `Projects.dfy` (module `Projects`) models `filteredProjects`, the
  filter-button variants and the `activeFilter` cell.
- `Footer.dfy` (module `Footer`) models the scroll-driven `showBackToTop` cell,
  the quick-link label-to-id mapping, and the rendering of the social-link
  array with a hole in slot 0.
- `Certifications.dfy` (module `Certifications`) models the certification
  list and its revealed cards. The class `CertificationsSection` holds the
  section's only state, one `RevealLatch`, and renders from its flag.

The five section ids on the page are in `Footer.PageSectionIds`.
They come from src/components/Hero.tsx:14, src/components/About.tsx:65,
src/components/Certifications.tsx:59, src/components/Projects.tsx:60 and
src/components/Contact.tsx:109.

Four behaviours of the code that a reader might not expect:

- Required fields are checked for emptiness only. There is no trimming.
- Submit is disabled only while submitting. A second message can therefore be
  sent during the success window, and then both flags are true at once.
- The observer keeps observing after the first reveal. The flag stays true
  only because the callback never writes false.
- Pending timers are not cancelled when the form unmounts.

## Model

| member | source | states |
|---|---|---|
| Reveal.RevealLatch.constructor | src/components/Certifications.tsx:5-6 | the flag starts false and no observer is attached yet |
| Reveal.RevealLatch.Attach | src/components/Certifications.tsx:18-20 | observation starts only when the section ref is set; the flag is untouched |
| Reveal.RevealLatch.OnEntry | src/components/Certifications.tsx:9-16 | an intersecting entry sets the flag (as one step of `Latch`), a non-intersecting one leaves it, nothing ever clears it, and observation continues after a hit |
| Reveal.RevealLatch.OnBatch | src/components/Certifications.tsx:10-14 | only the first entry of a callback batch is read |
| Reveal.RevealLatch.Disconnect | src/components/Certifications.tsx:22 | teardown detaches the observer; after it no entry changes the flag |
| Reveal.LatchIsAnyIntersecting | src/components/Certifications.tsx:9-16 | after any entry run the flag is set iff it was set before or some entry intersected |
| Reveal.LatchMonotone | src/components/Certifications.tsx:11-14 | once true, the flag stays true for every later entry run |
| Reveal.LatchAppend | src/components/Certifications.tsx:9-16 | replaying entries in two rounds gives the same flag as replaying them at once |
| Reveal.RenderRevealsIffVisible | src/components/Certifications.tsx:64-77 | each block keeps its key and delay, and it shows `opacity-0` exactly when the section is not visible, otherwise its animation class |
| Reveal.StaggerCascades | src/components/Certifications.tsx:74-78 | stagger delays start at the base and strictly increase with the index |
| Reveal.RevealedRenderingIsStable | src/components/Certifications.tsx:64-77 | a revealed section renders identically after any further entries |
| Contact.FormData.With | src/components/Contact.tsx:41-47 | the named field takes the new value and the other three keep theirs |
| Contact.InputWritesOneField | src/components/Contact.tsx:41-47 | a change event writes exactly the named field; flags, timers and toasts are unchanged |
| Contact.SubmitOutcomes | src/components/Contact.tsx:49-65 | with name, email or message empty: one destructive "Missing fields" toast and nothing else changes; otherwise: submitting, fields unchanged, exactly one more completion timer |
| Contact.SubjectNotRequired | src/components/Contact.tsx:53 | the subject never decides whether a submit is accepted |
| Contact.SubmittingOnlyAfterCompleteSubmit | src/components/Contact.tsx:53-62 | the submitting flag rises only on a submit whose required fields are all non-empty |
| Contact.TimerOutcomes | src/components/Contact.tsx:65-84 | completion: submitting ends, success starts, all four fields become "", one success toast, and the completion timer is traded for one reset timer; reset: only the success flag falls and that timer is removed |
| Contact.FieldsClearedOnEnteringSuccess | src/components/Contact.tsx:74-83 | apart from typing, only the completion timer changes the fields: it empties them as success is entered, and the reset leaves them alone |
| Contact.LabelRule | src/components/Contact.tsx:244-257 | "Sending..." iff submitting, "Sent!" iff success and not submitting, "Send Message" iff neither |
| Contact.StepKeepsConsistent | src/components/Contact.tsx:62-84 | every event keeps each raised flag backed by a pending timer that lowers it |
| Contact.RunKeepsConsistent | src/components/Contact.tsx:62-84 | the same holds along any possible run of events |
| Contact.QuiescentFormIsIdle | src/components/Contact.tsx:62-84 | after any run from mount, with no timer pending, the form is neither submitting nor successful |
| Contact.DrainReturnsToIdle | src/components/Contact.tsx:65-84 | letting every pending timer fire (a possible run) always ends idle with nothing pending; typed fields survive unless a completion was pending |
| Contact.ButtonSubmitsKeepOneInFlight | src/components/Contact.tsx:240 | when every submit goes through the enabled button, at most one completion timer is pending and `isSubmitting` says exactly whether one is |
| Contact.ScenarioMissingEmail | src/components/Contact.tsx:53-60 | name "Alice", email empty: submit only emits the "Missing fields" toast |
| Contact.ScenarioSuccessfulSubmit | src/components/Contact.tsx:62-84 | complete fields: submitting, then success with all fields "" and one reset pending, then back to the initial state plus one success toast |
| Contact.ScenarioSubmitDuringSuccess | src/components/Contact.tsx:65-83 | submit stays enabled during success, so both flags can be true with label "Sending..."; two resets can then be pending, and the earlier one ends the later success |
| Contact.ContactSection.constructor | src/components/Contact.tsx:11-22 | all four fields "", both flags false, nothing pending, and a fresh hidden latch with threshold 20 % |
| Contact.ContactSection.Change | src/components/Contact.tsx:41-47 | `handleInputChange` moves the state as the input step does and keeps the invariant |
| Contact.ContactSection.Submit | src/components/Contact.tsx:49-65 | `handleSubmit` moves the state as the submit step does: a toast on a missing field, else submitting plus one completion timer |
| Contact.ContactSection.CompletionFires | src/components/Contact.tsx:65-84 | the 2000 ms callback: not submitting, success, fields cleared, success toast, and one reset timer for this completion timer |
| Contact.ContactSection.ResetFires | src/components/Contact.tsx:83 | the 3000 ms callback only lowers the success flag |
| Contact.ContactSection.Button | src/components/Contact.tsx:238-259 | the button is disabled exactly while submitting; its label is "Sending..." iff submitting, "Sent!" iff success and not submitting, "Send Message" iff neither |
| Contact.ContactSection.Blocks | src/components/Contact.tsx:114-178 | all eight revealed blocks are hidden exactly when the section is not visible |
| Projects.OfCategory | src/components/Projects.tsx:57 | the result is a subsequence of the list, no longer than it, holding each project of the category as often as the list does and no other project |
| Projects.ShownIsFilter | src/components/Projects.tsx:55-57 | "All" shows the full list in order; any other filter shows exactly that category's projects, each as often as in the list, in order |
| Projects.ShownOnThePage | src/components/Projects.tsx:27-57 | "Backend" shows projects 1 and 3 and "Full Stack" shows project 2 |
| Projects.OneDefaultButton | src/components/Projects.tsx:74-78 | with the active filter among the buttons, exactly that button has variant "default" and all others "outline" |
| Projects.ProjectsSection.constructor | src/components/Projects.tsx:7-52 | the active filter starts as "All" and the latch starts hidden with threshold 20 % |
| Projects.ProjectsSection.ClickFilter | src/components/Projects.tsx:78 | a filter button click makes that filter active |
| Projects.ProjectsSection.ButtonVariants | src/components/Projects.tsx:74-78 | since the active filter is always one of the buttons, exactly that button is drawn "default" and the others "outline" |
| Projects.ProjectsSection.Cards | src/components/Projects.tsx:89-93 | one card per shown project, keyed by title, delay 6 + i tenths, hidden exactly while the section is not visible |
| Projects.ProjectsSection.Blocks | src/components/Projects.tsx:65-151 | the heading, intro, filter row and call to action are hidden exactly while the section is not visible |
| Footer.FlagFollowsLastScroll | src/components/Footer.tsx:9-11 | after any non-empty run of scrolls the flag equals "last scrollY > 500" |
| Footer.ThresholdAndReturn | src/components/Footer.tsx:10 | the threshold is strict (500 hides, 501 shows), and the flag returns to false when scrolling back up |
| Footer.FooterSection.constructor | src/components/Footer.tsx:6 | the flag starts false |
| Footer.FooterSection.OnScroll | src/components/Footer.tsx:9-11 | the flag is overwritten with `scrollY > 500` |
| Footer.FooterSection.Overlay | src/components/Footer.tsx:114-123 | the back-to-top button is rendered iff the flag is set |
| Footer.ToLower | src/components/Footer.tsx:78 | lowering keeps length and order and lowers every character |
| Footer.ToLowerIsLower | src/components/Footer.tsx:78 | a lowered label has no upper-case letter and is unchanged by lowering again |
| Footer.QuickLinkClick | src/components/Footer.tsx:77-79 | a click scrolls to the lower-cased label's id when that element exists, and does nothing otherwise |
| Footer.EveryQuickLinkResolves | src/components/Footer.tsx:74-79 | the four quick links target "home", "about", "projects" and "contact", all of them page sections |
| Footer.RenderSocial | src/components/Footer.tsx:54-61 | one anchor per element and none per hole, each with its element's real index, in index order |
| Footer.SocialRowOnThePage | src/components/Footer.tsx:21-61 | only LinkedIn and Email render, at indices 1 and 2, so their delays are 0.1 s and 0.2 s |
| Certifications.NamesAreDistinctKeys | src/components/Certifications.tsx:25-76 | the six certification names, used as card keys, are pairwise distinct |
| Certifications.Section | src/components/Certifications.tsx:63-78 | header and cards in list order, card i with delay 4 + i tenths, each hidden exactly while the section is not visible |
| Certifications.CertificationsSection.constructor | src/components/Certifications.tsx:5-6 | the section's latch starts hidden, unattached, with threshold 20 % |
| Certifications.CertificationsSection.View | src/components/Certifications.tsx:63-78 | the header and cards render from the latch's flag: hidden exactly while it is false, cards keyed by name with delay 4 + i tenths |
| Certifications.HiddenUntilIntersecting | src/components/Certifications.tsx:9-16 | with no intersecting entry yet, the section renders hidden |
| Certifications.RevealedOnceForAll | src/components/Certifications.tsx:9-16 | after an intersecting entry the section renders revealed for every later entry run |

## Left out

- Browser plumbing is not modelled. This covers building the
  IntersectionObserver and computing ratios, `addEventListener` and
  `removeEventListener`, `scrollIntoView`, `window.scrollTo` and
  `getElementById`. They appear only as inputs: an intersecting boolean, a
  `scrollY` natural number, and the set of element ids present.
- Wall-clock time is not modelled. The 2000 ms and 3000 ms timers are
  elements of a pending multiset, and any pending timer may fire next. That
  allows more orders than real time does, so every property proved for all
  possible runs holds for the real order too. `Contact.DrainReturnsToIdle`
  proves only that one particular firing order ends idle.
  `Contact.QuiescentFormIsIdle` covers every order that leaves no timer
  pending.
- Unmounting the contact form is not modelled. The code never cancels its
  timers, and it has no unmount guard.
- The browser's HTML constraint validation (`required`, `type="email"`) is
  not modelled. It runs before the submit handler and is not the handler's
  logic. `Submit` models the handler as if it were always reached.
- React's render cycle is not modelled. The submit handler reads `formData`
  from the last render, and the model reads the current state. They agree
  whenever a render happens between events.
- Footer.ToLower: it lowers only ASCII letters. JavaScript's `toLowerCase`
  also maps non-ASCII letters, but every label on the page is ASCII.
- Presentation is not modelled. This covers toast rendering, UI primitives,
  icons, and CSS class strings other than the revealed/hidden choice. It also
  covers the footer's blocks that always animate (they read no state) and the
  project descriptions, technologies and images.
- src/components/About.tsx is not modelled. It repeats the latch, but its
  rendering never reads the flag.
- src/components/Hero.tsx is not modelled. It has no state; only its section
  id is used.
- The footer's copyright year is not modelled, because it reads the clock.
- The "Let's Work Together" button in the projects section is not modelled.
  It is a `getElementById`/`scrollIntoView` call of the same kind as a quick
  link.

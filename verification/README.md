# resristi-website: the stateful logic of five components, in Dafny

The website of a waste-management company is mostly static pages and
scroll animations. A few components keep state of their own and compute from it.
This project models those, proves what each one promises, and leaves out the rendering:

- **Blog listing** (`Blogs`): a search box and category buttons filter the list
  of posts. A post is shown when the search term occurs in its title or its
  excerpt, ignoring ASCII case, and its category is the selected one or the
  selection is "All". When nothing matches, the page says "No articles found".
- **Testimonial carousel** (`Testimonials`): a current slide index and an
  autoplay flag. Previous and next wrap around, the dots jump to a slide, any
  manual navigation stops autoplay for good, and an autoplay tick advances one slide.
  The handlers are methods of the class `Carousel`. Each is specified by the pure
  transition function `Step`, and `Run` folds `Step` over a sequence of events.
- **Header** (`Header`): `IsActive` picks the navigation link to highlight for the
  current route. It uses a prefix rule with a special case for the home page `/`.
  There is also a scrolled flag that switches past 20 pixels, the solid-background
  rule, and the mobile menu toggle.
- **Impact count-up** (`Impact`): four counters go from 0 to their targets over
  60 timer ticks. Tick `k` shows `floor(target * k / 60)` in exact arithmetic, and the last tick sets
  each counter to its target exactly.
- **Contact form** (`Contact`): six fields edited one at a time. A submit marks
  itself in flight, and the form then ends up cleared, kept silently or kept with
  an error, depending on how the request ended.

`JsString` gives the JavaScript string operations the components call:
`toLowerCase` on ASCII, `startsWith` and `includes`. `Wrappers` holds an `Option` type.

The network request, the timers and the browser's scroll position are not modelled
as such. They become inputs: an `Outcome` passed to `CompleteSubmit`, a call to
`AutoplayTick` or `Tick` for each timer callback, and a `scrollY` argument to
`HandleScroll`.

A failed submit shows the server's `message` unless it is missing or empty,
because the code uses `message || "Please try again later."`.
`ErrorDescription` models this.

## Model

| member | source | states |
|---|---|---|
| `JsString.Lower` | src/pages/Blogs.jsx:106-107 | `toLowerCase` on ASCII: the same length, lower-cases every character position by position, and leaves no upper-case letter |
| `JsString.LowerIdempotent` | src/pages/Blogs.jsx:106-107 | lower-casing an already lower-cased string changes nothing |
| `JsString.StartsWith` | src/components/Header.jsx:32 | `startsWith` holds exactly when the prefix is no longer than the string and agrees with it at every index of the prefix |
| `JsString.Includes` | src/pages/Blogs.jsx:106-107 | the recursive `includes` holds exactly when the term occurs at some index of the string |
| `JsString.IncludesEmpty` | src/pages/Blogs.jsx:106-107 | every string includes the empty term |
| `Blogs.InitialPage` | src/pages/Blogs.jsx:9-10 | the page opens with an empty search term and "All" selected |
| `Blogs.SetSearchTerm` | src/pages/Blogs.jsx:157 | typing replaces the search term and keeps the selected category |
| `Blogs.SelectCategory` | src/pages/Blogs.jsx:172 | a category button replaces the selection and keeps the search term |
| `Blogs.MatchesSearch` | src/pages/Blogs.jsx:106-107 | a post matches the search exactly when the lower-cased term occurs at some index of the lower-cased title or of the lower-cased excerpt |
| `Blogs.MatchesCategory` | src/pages/Blogs.jsx:108 | the category test; `AllCategoriesHidesNoSearchMatch` and `SelectedCategoryIsExact` state what it lets through for "All" and for any other selection |
| `Blogs.Keep` | src/pages/Blogs.jsx:109 | the filter's predicate, both tests together; `FilteredMembership` states that a post is shown exactly when it is in the list and `Keep` holds |
| `Blogs.Visible` | src/pages/Blogs.jsx:105-110 | `filteredPosts` as the page computes it from its state; `InitialPageShowsAll` states that the page as first rendered lists every post, and `CategoryNarrowsAll` that choosing a category only narrows what "All" shows |
| `Blogs.FilteredPosts` | src/pages/Blogs.jsx:105-110 | the filter returns no more posts than it is given, and each post it returns passes the search and category tests |
| `Blogs.FilteredIsSubsequence` | src/pages/Blogs.jsx:105-110 | the result is an order-preserving subsequence of the posts: nothing is added or reordered |
| `Blogs.FilteredCounts` | src/pages/Blogs.jsx:105-110 | a kept post appears exactly as many times as in the input, and a post that is not kept never appears: nothing is dropped or duplicated |
| `Blogs.FilteredMembership` | src/pages/Blogs.jsx:105-110 | a post is shown if and only if it is in the list and matches the search and the category |
| `Blogs.AllCategoriesHidesNoSearchMatch` | src/pages/Blogs.jsx:108 | with "All" selected, every post that matches the search is shown |
| `Blogs.SelectedCategoryIsExact` | src/pages/Blogs.jsx:108 | with another category selected, every shown post has that category, and every search match in that category is shown |
| `Blogs.EmptySearchShowsAll` | src/pages/Blogs.jsx:106-108 | an empty search term with "All" selected returns every post, in order |
| `Blogs.InitialPageShowsAll` | src/pages/Blogs.jsx:105-110 | so the page as first rendered lists every post |
| `Blogs.SearchIgnoresCase` | src/pages/Blogs.jsx:106-107 | two search terms that lower-case to the same string give the same result |
| `Blogs.SearchOfLoweredTerm` | src/pages/Blogs.jsx:106-107 | a term and its lower-cased form give the same result |
| `Blogs.ShowsNoArticlesMessage` | src/pages/Blogs.jsx:257 | the condition `filteredPosts.length === 0`; `NoArticlesMessageIff` states that it holds exactly when no post passes the filter |
| `Blogs.NoArticlesMessageIff` | src/pages/Blogs.jsx:257-261 | "No articles found" is shown exactly when no post passes the filter |
| `Blogs.CategoryNarrowsAll` | src/pages/Blogs.jsx:108 | for the same search, the posts shown for a category are a subsequence of those shown for "All" |
| `Blogs.SubsequenceOfCons` | src/pages/Blogs.jsx:105-110 | a subsequence stays one when an element is put in front of the longer sequence |
| `Testimonials.NextIndex` | client/src/components/TestimonialsSection.jsx:131 | the next index stays in `[0, n)`, is one more, and wraps from `n-1` to 0 |
| `Testimonials.PreviousIndex` | client/src/components/TestimonialsSection.jsx:126 | the previous index stays in `[0, n)`, is one less, and wraps from 0 to `n-1` |
| `Testimonials.Initial` | client/src/components/TestimonialsSection.jsx:10-11 | the carousel starts on slide 0 with autoplay on |
| `Testimonials.Step` | client/src/components/TestimonialsSection.jsx:52-137 | after any event the index is in `[0, n)`. A manual event turns autoplay off. A tick never changes the autoplay flag, and with autoplay off it changes nothing |
| `Testimonials.Run` | client/src/components/TestimonialsSection.jsx:52-137 | after any sequence of events the index is in `[0, n)`. Autoplay is on at the end if and only if it was on at the start and every event was a tick, so nothing switches it back on |
| `Testimonials.NextThenPrevious` | client/src/components/TestimonialsSection.jsx:124-132 | next then previous returns to the starting slide |
| `Testimonials.PreviousThenNext` | client/src/components/TestimonialsSection.jsx:124-132 | previous then next returns to the starting slide |
| `Testimonials.TicksAdvance` | client/src/components/TestimonialsSection.jsx:52-57 | with autoplay on, `k` ticks move from slide `i` to slide `(i + k) mod n` and leave autoplay on |
| `Testimonials.FullCycle` | client/src/components/TestimonialsSection.jsx:52-57 | `n` autoplay ticks come back to the starting slide |
| `Testimonials.SiteCarouselCycles` | client/src/components/TestimonialsSection.jsx:16-57 | with the section's four testimonials, autoplay shows four pairwise different slides on ticks 0 to 3, so each testimonial in turn, and is back on the starting slide after four ticks |
| `Testimonials.Carousel.constructor` | client/src/components/TestimonialsSection.jsx:10-11 | the component mounts in the initial state |
| `Testimonials.Carousel.GoToPrevious` | client/src/components/TestimonialsSection.jsx:124-127 | the new state is `Step(old state, Previous)` |
| `Testimonials.Carousel.GoToNext` | client/src/components/TestimonialsSection.jsx:129-132 | the new state is `Step(old state, Next)` |
| `Testimonials.Carousel.GoToSlide` | client/src/components/TestimonialsSection.jsx:134-137 | for a dot index in `[0, n)`, the new state is `Step(old state, Slide(index))` |
| `Testimonials.Carousel.AutoplayTick` | client/src/components/TestimonialsSection.jsx:52-57 | the new state is `Step(old state, Tick)`: one slide on while autoplay runs, otherwise unchanged |
| `Testimonials.Carousel.CounterLabel` | client/src/components/TestimonialsSection.jsx:243 | the counter shows `currentIndex + 1`, always in `[1, n]` |
| `Testimonials.Carousel.IsDotActive` | client/src/components/TestimonialsSection.jsx:228-235 | exactly the dot of the current slide is drawn as active |
| `Header.IsActive` | src/components/Header.jsx:30-33 | the home link is active if and only if the path is exactly `/`. Any other link is active if and only if the path starts with its target |
| `Header.HasSolidBackground` | src/components/Header.jsx:37 | the header is transparent if and only if it is on `/` and not scrolled |
| `Header.FacilitiesActiveOnSubpage` | src/components/Header.jsx:30-33 | on `/facilities/aac` the Facilities link is active and the Home link is not |
| `Header.EachLinkActiveOnItsRoute` | src/components/Header.jsx:19-33 | every navigation link is active on its own target path |
| `Header.SectionHrefsUnrelated` | src/components/Header.jsx:19-28 | no section link's target is a prefix of another's |
| `Header.PrefixesNest` | src/components/Header.jsx:32 | two prefixes of one path are prefixes of each other |
| `Header.DifferenceBlocksPrefix` | src/components/Header.jsx:32 | a string that differs from the path at a shared position is not a prefix of it |
| `Header.AtMostOneActive` | src/components/Header.jsx:19-33 | whatever the path, at most one navigation link is highlighted |
| `Header.HeaderState.constructor` | src/components/Header.jsx:7-8 | the scrolled flag and the mobile menu both start off |
| `Header.HeaderState.HandleScroll` | src/components/Header.jsx:12-14 | after the scroll handler runs, the header counts as scrolled if and only if `scrollY > 20`, and the menu is untouched |
| `Header.HeaderState.ToggleMobileMenu` | src/components/Header.jsx:74 | the menu button flips the menu and leaves the scrolled flag alone |
| `Header.HeaderState.CloseMobileMenu` | src/components/Header.jsx:90-95 | a mobile link or "Get Started" closes the menu |
| `Header.HeaderState.SolidBackground` | src/components/Header.jsx:37 | the rendered background is solid exactly as `HasSolidBackground` says, and transparent only on `/` |
| `Impact.Scaled` | src/components/ImpactDashboard.jsx:29-34 | a counter after `k` ticks is `floor(target * k / 60)`: the largest `r` with `r * 60 <= target * k`, and never above the target |
| `Impact.Scale` | src/components/ImpactDashboard.jsx:29-34 | all four counters after `k` ticks; `ScaleProperties` states that they never decrease, stay within the targets, and are zero at the start and the targets at the end |
| `Impact.ScaledMonotone` | src/components/ImpactDashboard.jsx:25-34 | a counter never decreases as ticks pass |
| `Impact.ScaledEnds` | src/components/ImpactDashboard.jsx:5-39 | a counter reads 0 before the first tick and its target after the 60th |
| `Impact.ScaleProperties` | src/components/ImpactDashboard.jsx:25-39 | all four counters are non-decreasing, bounded by their targets, zero at the start and exact at the end |
| `Impact.DashboardHalfway` | src/components/ImpactDashboard.jsx:12-34 | with the dashboard's targets 45000, 12500, 8500 and 150, tick 30 shows 22500, 6250, 4250 and 75, and tick 60 shows the targets |
| `Impact.CountUp.constructor` | src/components/ImpactDashboard.jsx:5-24 | on mount the counters read 0, the step is 0 and the timer runs |
| `Impact.CountUp.Tick` | src/components/ImpactDashboard.jsx:25-40 | tick `k` shows `floor(target * k / 60)` for each counter, never less than before and never above the target. The timer clears itself exactly at step 60, and the counters then equal the targets |
| `Impact.CountUp.Unmount` | src/components/ImpactDashboard.jsx:42 | unmounting stops the timer and leaves the counters as they are |
| `Impact.CountUp.RunToEnd` | src/components/ImpactDashboard.jsx:19-43 | a running timer fires exactly `60 - currentStep` more times, then stops at step 60 with the counters on their targets. A stopped timer fires no more, and the step and the counters stay as they were |
| `Contact.FormData.With` | client/src/components/ContactSection.jsx:24-29 | the named field takes the new value and the other five keep theirs |
| `Contact.RequiredFilled` | client/src/components/ContactSection.jsx:150-190 | the three inputs marked `required` (name, e-mail, company) are non-empty; `BeginSubmit` requires it, and `ClearedIffSuccess` states that a form meeting it is cleared exactly when the server answers `success` |
| `Contact.ErrorDescription` | client/src/components/ContactSection.jsx:57 | the error text is the server's message when it is present and non-empty, otherwise "Please try again later.". It is never empty |
| `Contact.FormAfter` | client/src/components/ContactSection.jsx:38-59 | the form once the request has ended; `SuccessClears`, `UnsuccessfulAnswerIsSilent`, `FailureKeepsForm` and `ClearedIffSuccess` state it for each outcome |
| `Contact.ToastAfter` | client/src/components/ContactSection.jsx:38-59 | the notification once the request has ended; `SuccessClears`, `UnsuccessfulAnswerIsSilent` and `FailureKeepsForm` state it for each outcome |
| `Contact.SuccessClears` | client/src/components/ContactSection.jsx:38-51 | a `success` answer clears all six fields and shows the confirmation |
| `Contact.UnsuccessfulAnswerIsSilent` | client/src/components/ContactSection.jsx:38-52 | an answer without `success` keeps the form and shows nothing |
| `Contact.FailureKeepsForm` | client/src/components/ContactSection.jsx:53-59 | a failed request keeps the form and shows a destructive "Submission Failed" notification with non-empty text |
| `Contact.ClearedIffSuccess` | client/src/components/ContactSection.jsx:38-59 | for a form whose required fields are filled, it ends up cleared exactly when the server answers `success` |
| `Contact.JaneDoeScenario` | client/src/components/ContactSection.jsx:31-63 | Jane Doe's request is cleared on success. On a failure carrying "Server error" it is kept, and the notification says "Server error" |
| `Contact.ContactForm.constructor` | client/src/components/ContactSection.jsx:14-22 | all six fields start empty and no submit is in flight |
| `Contact.ContactForm.HandleChange` | client/src/components/ContactSection.jsx:24-29 | exactly the named field changes, and the in-flight flag does not |
| `Contact.ContactForm.BeginSubmit` | client/src/components/ContactSection.jsx:31-36 | a submit marks itself in flight and sends the form unchanged |
| `Contact.ContactForm.CompleteSubmit` | client/src/components/ContactSection.jsx:36-62 | after every outcome the submit is no longer in flight. The form and the notification are those `FormAfter` and `ToastAfter` give for the outcome |
| `Contact.ContactForm.SubmitButton` | client/src/components/ContactSection.jsx:234-241 | the button is disabled, and reads "Submitting...", exactly while a submit is in flight |

## Left out

- Every scroll and entrance animation. These are configuration handed to an animation library whose behaviour is not part of this model.
- The scroll-progress arithmetic of the process and narrative pages, and the page-level `Counter`. They work on floating-point values.
- `Impact.Scaled`: the browser computes `Math.floor(target * (step / 60))` in double precision, and the model uses exact integer arithmetic. On the dashboard's own figures the two differ by one: at ticks 21 and 42 for the 45000 counter (the browser shows 15749 and 31499, the model 15750 and 31500), and at ticks 22 and 44 for the 150 counter (54 and 109 against 55 and 110).
- Timer periods: the 5-second autoplay interval and the 2000 ms / 60 tick spacing. Each timer callback is a discrete method call.
- The autoplay interval is only cleared and re-created as React effects. The model applies a tick as a no-op while autoplay is off, which is what the cleared interval amounts to.
- The POST request, the backend URL, the toast rendering and `console.error`. The request's result is the `Outcome` parameter.
- `Contact.Outcome`: `response.data.success` is modelled as a boolean and the server's `message` as an optional string. Other truthy or falsy JavaScript values are not modelled.
- `Contact.ContactForm.BeginSubmit`: the browser's own form validation is modelled only as the three `required` fields being non-empty. The e-mail format check is left out.
- `Contact.ContactForm.HandleChange`: an input name outside the six fields would add a new key in JavaScript. The model only has the six named inputs.
- `toLowerCase` beyond ASCII: Unicode case mapping is not modelled.
- Post fields other than title, excerpt and category are only rendered, so a `Post` carries just those three.
- The fixed posts, the testimonials' texts and the category button list. Of the fixed contents, the model keeps the testimonial count (`TestimonialCount`), the navigation list (`NavItems`) and the dashboard figures (`Targets`). `FilteredPosts` takes any list of posts.
- The route table, styling and markup.

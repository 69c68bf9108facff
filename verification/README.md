# Portfolio page decision rules, modelled in Dafny

The portfolio site is a single React page. Most of it is markup. Four small
decision rules inside its components are modelled here as pure functions over
integers, reals, strings and sequences, and their behaviour is proved:

- **Active section** (`ActiveSection`, from `src/App.tsx`). On each scroll
  event every `section[id]` is checked. A section is in view when
  `offsetTop - 100 <= scrollY < offsetTop - 100 + clientHeight`. The last
  section in document order that is in view becomes active. If none is, the
  previous id stays. The page starts at `"hero"`. `LastInView` is the reference
  definition: it searches from the end of the list. `HandleScroll` is the
  handler's forward pass, which overwrites on every match. The loop invariant
  proves the two equal.
- **Project filter** (`ProjectData`, `ProjectFilter`, from
  `src/data/projects.ts` and `src/components/Projects.tsx`). `"all"` shows the
  list unchanged. Any other filter id keeps, in order, the projects whose
  category name equals the id. A link is rendered only when its URL is present
  and non-empty. The eight shipped entries are part of the model.
- **Particle field** (`Particles`, from
  `src/components/ui/ParticleBackground.tsx`). There are
  `floor(width * height / 20000)` particles with ids `0..n-1`. Each attribute is
  an affine image of a random draw in `[0, 1)`. The animation cycle lasts
  `8 / speed` seconds. A resize regenerates the whole field.
- **Contact form** (`ContactForm`, from `src/components/Contact.tsx`). This is
  an event-driven state machine. The events are a field change, a submit, the
  1500 ms timer callback and the 5000 ms timer callback. The state holds the
  four fields, the `isSubmitting` flag, the optional result and the number of
  timer callbacks still scheduled.

Inputs that the source reads from the browser are plain parameters here. These
are `scrollY`, `offsetTop`, `clientHeight`, `innerWidth` and `innerHeight`.
`Math.random` becomes a `Draw` record holding six reals in `[0, 1)` per
particle. Timer expiry becomes an event.

Two behaviours of the code are worth stating on their own:

- The submit button is disabled only while `isSubmitting` holds. So the form
  can be submitted again while the success message is still shown.
  `PhaseTransitions` includes that settled -> submitting edge.
- When section ranges overlap, the last section in document order that is in
  view wins.

## Model

| member | source | states |
|---|---|---|
| ActiveSection.LastInView | src/App.tsx:22-29 | with no section in view the result is the previous id; when section i is in view and no later one is, the result is section i's id; the result is always the previous id or the id of a listed section |
| ActiveSection.HandleScroll | src/App.tsx:16-31 | the forward pass that overwrites the active id on every match ends with the last-in-view id (or the previous one) |
| ActiveSection.InViewBoundaries | src/App.tsx:25-27 | for every section, the offset offsetTop - 100 is in view exactly when the section has positive height, and offsetTop - 100 + clientHeight is never in view |
| ActiveSection.LowerBoundInclusive | src/App.tsx:24-27 | a scroll offset exactly at offsetTop - 100 of any section of positive height selects that section when no later section is in view |
| ActiveSection.UpperBoundExclusive | src/App.tsx:25-27 | for any section, a scroll offset exactly at offsetTop - 100 + clientHeight leaves it out of view, so it cannot be the selected section |
| ActiveSection.SkipLast | src/App.tsx:22-29 | a last section that is not in view has no influence: the outcome equals that of the list without it |
| ActiveSection.ZeroHeightIgnored | src/App.tsx:24-27 | a section of zero height never matches: dropping every zero-height section from the list, keeping the others in order, changes no outcome |
| ActiveSection.MissingIdGivesEmpty | src/App.tsx:23 | a section without an id attribute that wins the selection makes the active id "" (the selector only returns sections that carry the attribute, so this case does not arise on the page) |
| ActiveSection.MatchIgnoresPrevious | src/App.tsx:22-29 | when any section is in view the previous id has no influence on the result |
| ActiveSection.RescanIsStable | src/App.tsx:16-31 | a second evaluation at the same offset over the same layout leaves the active id unchanged |
| ActiveSection.MountWithoutMatchKeepsHero | src/App.tsx:13-36 | the evaluation on mount keeps "hero" when no section is in view |
| ProjectData.CategoryNames | src/data/projects.ts:6 | every category is written "web", "mobile" or "backend", and distinct categories have distinct names |
| ProjectData.ShippedData | src/data/projects.ts:11-84 | the shipped list has 8 entries: six web entries, then two backend entries |
| ProjectFilter.ByCategory | src/components/Projects.tsx:17 | every kept project has the requested category, and the result length is the number of input entries in that category |
| ProjectFilter.ByCategoryComplete | src/components/Projects.tsx:17 | every input entry of the requested category appears in the filtered list |
| ProjectFilter.ByCategoryIsSubsequence | src/components/Projects.tsx:17 | the filtered list is an order-preserving subsequence of the input |
| ProjectFilter.FilteredProjects | src/components/Projects.tsx:15-17 | "all" yields the input unchanged; any other id yields exactly the projects whose category name equals it |
| ProjectFilter.FilterPreservesOrder | src/components/Projects.tsx:15-17 | whatever the filter id, the shown list is an order-preserving subsequence of the full list and no longer than it |
| ProjectFilter.SubsequenceLength | src/components/Projects.tsx:17 | a subsequence is never longer than the list it comes from |
| ProjectFilter.ByCategoryIdempotent | src/components/Projects.tsx:17 | filtering the filtered list again by the same category gives the same list |
| ProjectFilter.FilterIdempotent | src/components/Projects.tsx:15-17 | applying the same filter id twice equals applying it once, for "all" and every other id |
| ProjectFilter.CountsPartition | src/components/Projects.tsx:17 | the per-category counts of web, mobile and backend entries add up to the list length |
| ProjectFilter.CategoriesPartition | src/components/Projects.tsx:17 | the web, mobile and backend filter results together are as long as the full list |
| ProjectFilter.ByCategoryKeepsAll | src/components/Projects.tsx:17 | a list whose entries all have the category passes the filter unchanged |
| ProjectFilter.ByCategoryDropsAll | src/components/Projects.tsx:17 | a list with no entry of the category is filtered to the empty list |
| ProjectFilter.ByCategoryAppend | src/components/Projects.tsx:17 | filtering a concatenation is the concatenation of the filtered parts |
| ProjectFilter.FilterIds | src/components/Projects.tsx:34-39 | the initial filter "all" is the first button; the button ids are exactly all, web, mobile and backend, with one button per category |
| ProjectFilter.WebThenBackendFilters | src/components/Projects.tsx:17 | on any list of six web entries followed by two backend entries, the web filter yields the first six, the mobile filter nothing, and the backend filter the last two, in order |
| ProjectFilter.ShippedFilters | src/data/projects.ts:11-84 | on the shipped list the web filter yields the first six entries in order, the mobile filter yields nothing, and the backend filter yields "Quiz System" then "Rent a Car System" |
| ProjectFilter.ShippedLinks | src/components/Projects.tsx:130-142 | with a link shown only for a present, non-empty URL, the shipped entries show a GitHub link except entry 4, and a live link only for entries 0, 2, 3 and 4 |
| Particles.ParticleCount | src/components/ui/ParticleBackground.tsx:19-21 | the count n is the floor of area / 20000: n * 20000 <= width * height < (n + 1) * 20000 |
| Particles.ScaleBelow | src/components/ui/ParticleBackground.tsx:28-29 | a draw in [0, 1) times a side length lies in [0, side) when the side is positive |
| Particles.MakeParticle | src/components/ui/ParticleBackground.tsx:26-34 | particle i has id i; x is in [0, width) and y in [0, height), size in [1, 3), speed in [0.5, 1.5), opacity in [0.1, 0.6) and delay in [0, 5) |
| Particles.Field | src/components/ui/ParticleBackground.tsx:21-35 | the field has exactly the count's length, particle i has id i, and every particle is within the attribute ranges |
| Particles.GenerateParticles | src/components/ui/ParticleBackground.tsx:18-38 | the push loop produces exactly the field: particle i built from draw i, for i below the count |
| Particles.HandleResize | src/components/ui/ParticleBackground.tsx:37-45 | a resize replaces the field wholesale: the new field depends only on the new viewport and the draws, and its length is the count for the new viewport |
| Particles.AnimationDuration | src/components/ui/ParticleBackground.tsx:67 | the cycle time is positive and is inversely proportional to speed (time * speed = 8) |
| Particles.DurationBounds | src/components/ui/ParticleBackground.tsx:67 | every particle within the generated ranges has a cycle time in (16/3, 16] seconds |
| Particles.FasterIsShorter | src/components/ui/ParticleBackground.tsx:67 | a faster particle has a strictly shorter cycle |
| Particles.CountExample | src/components/ui/ParticleBackground.tsx:21 | a 2000 by 1000 viewport gets 100 particles |
| Particles.SmallViewportIsEmpty | src/components/ui/ParticleBackground.tsx:21-25 | a viewport under 20000 square pixels, zero area included, gets no particles |
| Particles.RegenerationLength | src/components/ui/ParticleBackground.tsx:40-45 | two generations for the same viewport have equal length whatever the draws |
| Particles.CountMonotone | src/components/ui/ParticleBackground.tsx:21 | a viewport at least as wide and as tall never gets fewer particles |
| ContactForm.HandleChange | src/components/Contact.tsx:22-25 | the named field takes the new value and every other field keeps its value |
| ContactForm.InitValid | src/components/Contact.tsx:12-20 | the initial state has all four fields empty, is not submitting, shows no result and satisfies the reachability invariant |
| ContactForm.StepValid | src/components/Contact.tsx:27-51 | every event preserves the invariant: the flag is up exactly while the first timer is pending, at most one is pending, and a shown result is the success message with its clear timer pending |
| ContactForm.RunValid | src/components/Contact.tsx:27-51 | the invariant holds after any sequence of events |
| ContactForm.NeverFails | src/components/Contact.tsx:34-37 | no sequence of events from the initial state ever shows a result with success = false |
| ContactForm.ChangeTouchesOneField | src/components/Contact.tsx:22-25 | a change event writes only the named field and leaves the flag and the result alone |
| ContactForm.SubmitGuard | src/components/Contact.tsx:110-171 | a submit while submitting, or with any required field empty, changes nothing |
| ContactForm.SubmitKeepsFields | src/components/Contact.tsx:27-30 | an accepted submit raises the flag and keeps the fields and the result |
| ContactForm.SubmitTimerSettles | src/components/Contact.tsx:32-45 | the 1500 ms callback lowers the flag, shows the fixed success message and empties all four fields |
| ContactForm.ClearTimerOnlyClears | src/components/Contact.tsx:48-50 | the 5000 ms callback removes the result and consumes its own pending callback; the fields, the flag and the pending submit callback are unchanged |
| ContactForm.PhaseTransitions | src/components/Contact.tsx:27-51 | from a reachable state the visible phase moves only idle to submitting, submitting to settled, settled to idle, or settled to submitting on a re-submit |
| ContactForm.HappyPath | src/components/Contact.tsx:22-51 | filling all four fields, submitting and letting both timers run passes through submitting and settled with the fields emptied, and returns to the initial state |

## Left out

- DOM and window reads are not modelled: `querySelectorAll`, `getAttribute`, `offsetTop`, `clientHeight`, `scrollY`, `innerWidth` and `innerHeight` are parameters.
- Registering and removing the scroll and resize listeners is I/O plumbing and is not modelled.
- `Math.random` and IEEE-754 arithmetic are not modelled. Draws are mathematical reals in [0, 1). The count is an integer floor; the float division it replaces agrees with it for realistic viewport sizes.
- Real timer durations are not modelled. The 1500 ms and 5000 ms delays are events that may arrive in any order once scheduled. Cancelling timers on unmount is out of scope. So are interleavings where one submission's 5000 ms callback clears a later submission's message. The model allows such interleavings but proves only the invariant about them.
- The browser's email-shape validation for `type="email"` is host behaviour and is not modelled. The `required` check is modelled as "not the empty string".
- Rendering, framer-motion variants, intersection-observer triggers and styling are not modelled.
- The Hero, About, Skills and Resume sections are static content and are not part of this model. The Header and Footer components are not part of this model either.
- Particles.MakeParticle: for a zero width (or height) the x (or y) range [0, 0) is empty, so only x >= 0 is stated. Such a viewport generates no particles anyway (Particles.SmallViewportIsEmpty).

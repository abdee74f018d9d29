# SpectroAI landing page and assistant stub, modelled in Dafny

This project models the logic in the SpectroAI repository. The repository is
mostly presentational React markup. Two parts carry behaviour:

- **The assistant stub service** (`server/src/`). `AIAssistant` holds a status
  snapshot that is fixed when it is constructed. It answers `getStatus`,
  `captureScreen` and `analyze` with fixed-shape placeholder records. The
  Express server maps `GET /api/status`, `POST /api/capture` and
  `POST /api/analyze` onto those operations. It turns any thrown error into a
  500 response whose message is fixed per route. The listen port is the `PORT`
  environment value, or 3001.
- **The state machines inside the page components.** Each one is a few
  `useState` cells updated by event handlers:
  - the testimonial carousel, which wraps forwards and backwards and has
    autoplay;
  - the four-step "how it works" stepper, whose auto-advance can only be
    switched off;
  - the single-open FAQ accordion;
  - the pricing section's billing switch, its expandable feature lists and
    its price table;
  - the navbar's scroll handler, which picks the first matching section, and
    its mobile menu;
  - the features grid's hover pair;
  - the Button component's class composition and its choice between a link
    and a button.

Each source file is one module (`common.dfy` holds what they share):

| file | module | models |
|---|---|---|
| spectro.dfy | `Spectro` | server/src/Spectro.ts |
| server.dfy | `Server` | server/src/server.ts |
| testimonials.dfy | `Testimonials` | components/TestimonialsSection.tsx |
| how_it_works.dfy | `HowItWorks` | components/HowItWorksSection.tsx |
| faq.dfy | `Faq` | components/FAQSection.tsx |
| pricing.dfy | `Pricing` | components/PricingSection.tsx |
| navbar.dfy | `Navbar` | components/Navbar.tsx |
| features.dfy | `Features` | components/FeaturesSection.tsx |
| button.dfy | `Button` | components/Button.tsx |
| common.dfy | `Common` | JavaScript `null`, `%` and `${n}`; class attributes read as class-name lists; the open/close toggle shared by the FAQ and pricing |

How the source's forms are kept:

- A component becomes a class whose fields are its `useState` cells. Each
  event handler becomes a method with a `modifies` clause. Each firing of a
  `setInterval` callback becomes an explicit `Tick()` method.
- `AIAssistant`'s status fields are `const`, so only its constructor assigns
  them.
- The scroll handler's `for … break` loop is a `while` loop with `break`. It is
  proved against a recursive specification function (`Navbar.ScanFrom`).
- Render-time expressions are functions. Lemmas state what they show.
- A class attribute is read as the list of class names it denotes
  (`Common.Tokens`). So "joined by spaces in this order" is a proved statement
  about the class names, not a copy of the template string.
- Inputs from outside are parameters:
  - the wall clock (`now`);
  - the `PORT` variable;
  - `window.scrollY` and each section's bounding rectangle;
  - the outcome of an operation that might throw.

The model follows the code wherever the code and the comments disagree:

- `analyze` ignores its `input`. Its doc comment (server/src/Spectro.ts:34)
  says the input defaults to the latest capture, but the service keeps no
  captures.
- `status` is a plain string and is always `"ONLINE"`. No other state exists.
- The code makes no promise about timestamps. They are taken as given and
  nothing is claimed about their format or order.

## Model

| member | source | states |
|---|---|---|
| `Common.Toggle` | components/FAQSection.tsx:41-43 | toggling yields a selection only of the toggled item, and yields one exactly when that item was not already the selected one |
| `Common.ToggleTwiceCloses` | components/FAQSection.tsx:42 | toggling the same item twice, starting from a state where it is not selected, leaves nothing selected |
| `Spectro.AIAssistant.constructor` | server/src/Spectro.ts:10-15 | for every `config`, with or without it, a new assistant is active, has version "2.3.7" and status "ONLINE" |
| `Spectro.AIAssistant.GetStatus` | server/src/Spectro.ts:53-59 | the snapshot is exactly the online record (true, "2.3.7", "ONLINE") if and only if the assistant is in its constructed state; it reads no mutable state, so repeated calls agree |
| `Spectro.AIAssistant.CaptureScreen` | server/src/Spectro.ts:21-30 | always succeeds with kind "screenshot", the placeholder data and the given time, whatever the assistant's fields |
| `Spectro.AIAssistant.Analyze` | server/src/Spectro.ts:37-47 | confidence is 0.95 and lies in [0, 1]; the solution is the placeholder; the alternatives are exactly "Alternative approach 1" then "Alternative approach 2" |
| `Spectro.AnalyzeIgnoresInput` | server/src/Spectro.ts:37-47 | the result does not depend on the input, present or absent |
| `Spectro.InstancesAgree` | server/src/Spectro.ts:10-15 | any two constructed assistants report the same online snapshot and the same capture |
| `Server.Port` | server/src/server.ts:7 | the port is the PORT text exactly when PORT is set and non-empty, otherwise 3001 |
| `Server.Route` | server/src/server.ts:17-38 | with verb and path matched exactly as written, precisely GET /api/status, POST /api/capture and POST /api/analyze reach their handlers |
| `Server.HandleStatus` | server/src/server.ts:17-19 | always 200 with the assistant's `getStatus()` record; the online record for a constructed assistant |
| `Server.HandleCapture` | server/src/server.ts:21-28 | 200 with the capture unchanged exactly when capture succeeded; otherwise 500 with "Failed to capture screen" |
| `Server.InputOf` | server/src/server.ts:32 | destructuring throws exactly when there is no body; otherwise the body's `input` member, or undefined |
| `Server.HandleAnalyze` | server/src/server.ts:30-38 | 200 with analyze's result for the body's `input`, unchanged, exactly when both the destructuring and analyze succeed; any failure gives 500 with "Failed to analyze with AI" |
| `Server.Dispatch` | server/src/server.ts:10-38 | one shared assistant answers every request; a response is produced exactly for the three registered routes |
| `Server.DispatchEndToEnd` | server/src/server.ts:17-38 | with the constructed assistant: status gives 200 and the online record; capture gives 200 and a screenshot record; analyze gives 200 and the placeholder analysis when a body was parsed, and 500 when there was none |
| `Server.FailuresAreOpaque` | server/src/server.ts:25-27 | whatever error is thrown, the client sees only status 500 and the route's fixed message |
| `Testimonials.NextIndex` | components/TestimonialsSection.tsx:138-140 | the next index stays in [0, 3); i goes to i+1, and the last index wraps to 0 |
| `Testimonials.PrevIndex` | components/TestimonialsSection.tsx:143-145 | the previous index stays in [0, 3); i goes to i-1, and 0 wraps to the last index |
| `Testimonials.NextPrevInverse` | components/TestimonialsSection.tsx:138-145 | previous after next, and next after previous, restore the index |
| `Testimonials.NavigationDirection` | components/TestimonialsSection.tsx:152 | the direction is 1 exactly when the target is greater than the current key, and -1 otherwise, equality included |
| `Testimonials.Carousel.constructor` | components/TestimonialsSection.tsx:52-54 | slide 0, autoplay on, no hovered star, key 0, direction 0, and the first interval sees key 0 |
| `Testimonials.Carousel.NextSlide` | components/TestimonialsSection.tsx:138-140 | only `activeIndex` changes, to the next index; the key and direction pair is untouched; the reinstalled interval sees the current key |
| `Testimonials.Carousel.PrevSlide` | components/TestimonialsSection.tsx:143-145 | only `activeIndex` changes, to the previous index; the key and direction pair is untouched; the reinstalled interval sees the current key |
| `Testimonials.Carousel.Navigate` | components/TestimonialsSection.tsx:151-167 | a dot click: both indices become k and the direction is taken against the old key; the interval's key becomes k only when the shown slide changes (the effect's dependencies), and otherwise stays stale |
| `Testimonials.Carousel.Tick` | components/TestimonialsSection.tsx:157-167 | with autoplay on, moves both indices to (activeIndex + 1) mod 3 with the direction taken against the key captured by the installed interval; with it off, nothing changes |
| `Testimonials.AutoplayAfterReclick` | components/TestimonialsSection.tsx:148-167 | after dot 1, the left arrow and a re-click of dot 0, autoplay moves forward to slide 1 yet with direction -1, where a fresh `navigate(1)` gives 1 |
| `Testimonials.Carousel.HoverStar` | components/TestimonialsSection.tsx:341 | the hovered star becomes i |
| `Testimonials.Carousel.LeaveStar` | components/TestimonialsSection.tsx:342 | no star is hovered |
| `Testimonials.FullCycle` | components/TestimonialsSection.tsx:161-162 | three autoplay steps from any slide return to it |
| `Testimonials.StarTokens` | components/TestimonialsSection.tsx:346-347 | the star template denotes "w-5", "h-5", the colour class, then the extra class when it is non-empty |
| `Testimonials.StarClassName` | components/TestimonialsSection.tsx:345-347 | the star's class template; `Testimonials.StarClasses` states the class list it denotes |
| `Testimonials.StarClasses` | components/TestimonialsSection.tsx:345-347 | star i is gold below the rating and gray from it on; a second gold class is added exactly when a star at or after i is hovered; it shows gold exactly in those cases |
| `Testimonials.DotHighlighted` | components/TestimonialsSection.tsx:372 | dot `index` carries the highlight classes when it is the shown slide; `Testimonials.OneDotHighlighted` states that exactly one dot does |
| `Testimonials.OneDotHighlighted` | components/TestimonialsSection.tsx:368-375 | the highlighted pagination dots are exactly {activeIndex} |
| `HowItWorks.Advance` | components/HowItWorksSection.tsx:98 | steps 1..4 stay in 1..4; s < 4 goes to s+1 and 4 goes to 1 |
| `HowItWorks.FourAdvancesReturn` | components/HowItWorksSection.tsx:98 | four advances return to the starting step, and one, two or three never do |
| `HowItWorks.Stepper.constructor` | components/HowItWorksSection.tsx:81-85 | step 1 with auto-advance on |
| `HowItWorks.Stepper.HandleStepClick` | components/HowItWorksSection.tsx:88-91 | the clicked step becomes active and auto-advance is off |
| `HowItWorks.Stepper.Tick` | components/HowItWorksSection.tsx:94-102 | advances only while auto-advance is on, and never touches the flag |
| `HowItWorks.StepLabel` | components/HowItWorksSection.tsx:33 | a label has at least two characters; below 10 it starts with "0"; below 100 it is exactly two characters |
| `HowItWorks.StepLabelValue` | components/HowItWorksSection.tsx:62 | the padded label is all digits and reads back as the step number |
| `HowItWorks.ProcessingPercent` | components/HowItWorksSection.tsx:182 | for steps 1..4 the readout is in {25, 50, 75, 100}, and it is 100 only at step 4 |
| `HowItWorks.IsActiveCard` | components/HowItWorksSection.tsx:163 | a card is active when its number is `activeStep`; `HowItWorks.OneActiveCard` states that exactly one is |
| `HowItWorks.OneActiveCard` | components/HowItWorksSection.tsx:156-176 | exactly one of the four step cards is active: the one numbered `activeStep` |
| `Faq.Accordion.constructor` | components/FAQSection.tsx:12 | no item is open |
| `Faq.Accordion.ToggleFAQ` | components/FAQSection.tsx:41-43 | `openIndex` becomes the toggle of its old value; toggling a valid index keeps it null or within [0, 6) |
| `Faq.AnswerShown` | components/FAQSection.tsx:90 | item i's answer is rendered when `openIndex` is i; `Faq.ShownAnswers` states which answers are shown |
| `Faq.ShownAnswers` | components/FAQSection.tsx:89-90 | the shown answers are none when nothing is open, else exactly the open item's |
| `Faq.ToggleEffect` | components/FAQSection.tsx:41-43 | toggling the open item closes every answer; toggling any other item shows exactly that item's answer |
| `Pricing.PricingTiers` | components/PricingSection.tsx:39-106 | there are three tiers |
| `Pricing.Charge` | components/PricingSection.tsx:65-66 | a paid tier's price for the billing period; `Pricing.TierPrices` states the resulting prices |
| `Pricing.PeriodText` | components/PricingSection.tsx:88-89 | "per month" or "per year"; `Pricing.TierPrices` states which tier shows which |
| `Pricing.TierPrices` | components/PricingSection.tsx:39-106 | Free is "Free" and "Forever" for both periods; Pro is 19 or 190 and Ultimate 39 or 390, each with "per month" or "per year" |
| `Pricing.BillingOnlyChangesPrices` | components/PricingSection.tsx:39-106 | the billing period changes only the paid tiers' price and period, and leaves the free tier unchanged |
| `Pricing.AdvertisedSavings` | components/PricingSection.tsx:65-104 | 12×monthly − annual is 38 for Pro and 78 for Ultimate, and each tier's note advertises exactly that amount |
| `Pricing.SavingNote` | components/PricingSection.tsx:82 | the note text for a saving; its meaning is stated by `Pricing.SavingNoteValue` |
| `Pricing.SavingNoteValue` | components/PricingSection.tsx:82-104 | a note is "Save $", then only digits that read back as the saving, then " with annual billing" |
| `Pricing.ProNote` | components/PricingSection.tsx:82 | the note for a $38 saving is exactly Pro's "Save $38 with annual billing" |
| `Pricing.UltimateNote` | components/PricingSection.tsx:104 | the note for a $78 saving is exactly Ultimate's "Save $78 with annual billing" |
| `Pricing.Flipped` | components/PricingSection.tsx:31-33 | the switch always moves to the other billing period |
| `Pricing.FlipTwice` | components/PricingSection.tsx:31-33 | flipping twice is the identity |
| `Pricing.PricingState.constructor` | components/PricingSection.tsx:27-29 | monthly billing, nothing hovered, nothing expanded |
| `Pricing.PricingState.ToggleBillingPeriod` | components/PricingSection.tsx:31-33 | the billing period flips |
| `Pricing.PricingState.ToggleFeatures` | components/PricingSection.tsx:35-37 | the expanded tier becomes the toggle of its old value, so at most one tier is expanded |
| `Pricing.PricingState.EnterTier` | components/PricingSection.tsx:276 | the hovered tier becomes the entered one |
| `Pricing.PricingState.LeaveTier` | components/PricingSection.tsx:277 | no tier is hovered |
| `Pricing.FirstFeatures` | components/PricingSection.tsx:353 | `slice(0, 4)`: a prefix of the list of length min(4, n) |
| `Pricing.MoreFeatures` | components/PricingSection.tsx:380 | `slice(4)`: the suffix of the list after its first four items, empty when there are at most four |
| `Pricing.VisibleFeatures` | components/PricingSection.tsx:353-380 | an expanded tier shows its whole list; any other tier shows only its first four features (all of them if it has fewer) |
| `Pricing.SlicesPartition` | components/PricingSection.tsx:353-380 | the two slices put back together are the full list in order, and the first has at most four items |
| `Pricing.PriceText` | components/PricingSection.tsx:339 | the text is "Free" exactly for the free price; a numeric price starts with "$" |
| `Pricing.PriceTextValue` | components/PricingSection.tsx:339 | after the "$", a numeric price's text is all digits and reads back as the amount |
| `Pricing.SignupHref` | components/PricingSection.tsx:419 | the link starts with "/signup?plan=" and the rest is exactly the tier id |
| `Pricing.SignupHrefsDistinct` | components/PricingSection.tsx:419 | the three tiers link to three different sign-up pages |
| `Navbar.ScanFrom` | components/Navbar.tsx:19-31 | the scan from section i on ends on the page it started with, on "home", or on one of the sections from i on |
| `Navbar.ScanFirstMatch` | components/Navbar.tsx:19-26 | the first section in the order features, how-it-works, comparison whose element exists and spans y = 200 becomes the active page |
| `Navbar.ScanNoMatch` | components/Navbar.tsx:20-31 | when no section matches, the page becomes "home" if scrollY < 100 and some element exists; otherwise it is unchanged, and missing elements have no effect |
| `Navbar.NavbarState.constructor` | components/Navbar.tsx:7-9 | not scrolled, menu closed, page "home" |
| `Navbar.NavbarState.HandleScroll` | components/Navbar.tsx:12-31 | `scrolled` becomes scrollY > 10; the loop leaves `activePage` equal to the scan specification from the old page |
| `Navbar.NavbarState.ToggleMobileMenu` | components/Navbar.tsx:98 | the menu flag is negated |
| `Navbar.NavbarState.CloseMobileMenu` | components/Navbar.tsx:117-119 | the menu is closed |
| `Navbar.NavLinkActive` | components/Navbar.tsx:83-85 | the desktop link to section k is active when it is `activePage`; `Navbar.OneActiveLink` states that at most one is |
| `Navbar.OneActiveLink` | components/Navbar.tsx:83-85 | at most one desktop link is active, the one for `activePage`, and none while it is "home" |
| `Navbar.LogoSpans` | components/Navbar.tsx:58-66 | one span per letter, each carrying its letter, in order |
| `Navbar.LogoColouring` | components/Navbar.tsx:58-66 | in "SpectroAI" exactly the letters "AI" (index 7 on) get the purple colour; every other letter gets the white class |
| `Features.HoverState.constructor` | components/FeaturesSection.tsx:124-125 | no feature active and no hover |
| `Features.HoverState.HandleMouseEnter` | components/FeaturesSection.tsx:128-131 | the id becomes active, hovering is true, and the invariant (hovering exactly when a feature is active) holds |
| `Features.HoverState.HandleMouseLeave` | components/FeaturesSection.tsx:133-136 | no feature is active, hovering is false, and the invariant holds |
| `Features.CardActive` | components/FeaturesSection.tsx:200 | card k glows when its id is `activeFeature`; `Features.OneActiveCard` states that at most one does |
| `Features.OneActiveCard` | components/FeaturesSection.tsx:196-204 | the five ids are distinct, so at most one card glows: the one whose id is active, and none when nothing is active |
| `Button.VariantClasses` | components/Button.tsx:27-34 | the class table of the six variants |
| `Button.SizeClasses` | components/Button.tsx:36-40 | the class table of the three sizes |
| `Button.ClassString` | components/Button.tsx:42 | the class template; `Button.ClassTokens` states the class list it denotes |
| `Button.ClassTokens` | components/Button.tsx:25-42 | the class attribute denotes the base classes, then the variant's, then the size's, then `className`'s, in that order |
| `Button.Resolve` | components/Button.tsx:15-24 | omitted props default to variant "primary", size "md", className "" and glitch false; given props are kept |
| `Button.Target` | components/Button.tsx:73 | the target is "_blank" exactly when the href starts with "http", and is absent otherwise |
| `Button.Render` | components/Button.tsx:42-83 | a non-empty href gives a link with rel "noopener noreferrer"; otherwise a type="button" button with the given onClick; the border span appears only for cyberpunk, the glare only for holographic, the icon wrapper only with an icon |
| `Button.DefaultButton` | components/Button.tsx:15-83 | with no props: a primary, medium button with no extra classes and no decorations |
| `Button.DecorationsExclusive` | components/Button.tsx:45-67 | the cyberpunk border and the holographic glare never appear together |

## Left out

- Express, CORS, `app.listen` and `console.log` are library and I/O plumbing (server/src/server.ts:1-14, 40-46; server/src/Spectro.ts:11, 22, 38). Routes are a pure dispatch. A request that `Server.Route` does not match gives no response in the model, and Express's own 404 is not modelled.
- `Server.Route`: path matching is modelled as exact string equality. Express's default router is case-insensitive and ignores a trailing slash, so `/API/Status` or `/api/status/` also reach a handler in the source; the model does not route them. Likewise `app.get` answers HEAD requests, and HEAD is not modelled.
- `new Date().toISOString()` is a clock read. It is the `now` parameter, and nothing is claimed about its format or order.
- `Server.InputOf`: whether `req.body` can be undefined depends on the body-parser version, which is not part of this model. Both cases are modelled: a missing body, and a parsed JSON object. A non-object JSON body is not modelled.
- `async`/`await` is not modelled. Each operation's outcome, a value or a thrown error, is passed in.
- The stub operations never throw. The 500 paths are reached only through the `Result` parameters of the handlers.
- `setInterval`/`setTimeout` timing and clean-up are concurrency. Each firing is a `Tick()`. The 5-second clock restarting when the testimonial interval is reinstalled is not modelled. Which closure the running interval holds is modelled, through `Testimonials.Carousel.tickKey`.
- `Testimonials.Carousel.Navigate`: requires an index in [0, 3). Every caller passes a dot's index or the autoplay index. A larger value would break the `testimonials[activeIndex]` lookup in the render.
- `HowItWorks.Stepper.HandleStepClick`: requires a step in 1..4. The only callers pass a card's number.
- The autoplay flag of the carousel is never switched off by the component. `Tick` still models its `if (!autoplay) return` guard.
- The mouse-position and 3D tilt state of the testimonial card (components/TestimonialsSection.tsx:119-135) is floating-point and purely visual.
- Of each testimonial only the id, name, company and rating are kept. Avatar, content and accent colour are display data.
- The pagination dot is modelled by its highlight condition, not by its class string.
- The star's class string is modelled exactly, including the line break and indentation inside the template literal.
- `Navbar.NavbarState.HandleScroll`: `getElementById`, `getBoundingClientRect`, `window.scrollY` and the listener registration are DOM access. They are the `scrollY` and `rects` parameters. Coordinates are exact reals, not rounded doubles.
- The `scrolled`-dependent navbar classes, and the NavLink and MobileNavLink markup, are styling.
- `Button.Render`: `icon` is modelled as present or absent. Falsy React nodes such as `0` or `""` are not distinguished. `children` and the tap animation are not modelled.
- The pricing section's hover glow, icons, gradients, descriptions and the "Show more"/"Show less" label are presentation.
- Framer-motion variants (spring stiffness, durations, opacities, transforms) are floating-point animation parameters.
- HeroSection.tsx and CodeAnimation.tsx (randomness, floating-point mouse tracking, typewriter), AnimatedSection.tsx (intersection observer), Footer.tsx, DownloadSection.tsx, ComparisonSection.tsx, the pages and the build configuration hold no logic with a statable property. They are not part of this model.

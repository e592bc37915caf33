# Portfolio site behaviour, modelled in Dafny

This project models the behaviour behind Swetank Sinha's portfolio site, a React and TypeScript single-page
application. The behaviour covered is the part of the site that consists of rules and small state machines,
not markup:

- **Projects page:** the category and search filter, its "Showing X of Y" line, the empty state and the
  `clearFilters` reset.
- **`AnimatedText`:** the typewriter.
- **Navigation bar:** the scroll spy that picks the active section, the highlighting of the active link,
  the mobile menu, and where each link leads.
- **Experience section:** metric highlighting, which splits a text at its metric and re-inserts it.
- **Skills section:**
  - the technology icon fallback chain and its background lookup;
  - the choice between progress bars and tags;
  - the hover effects of the certification cards.
- **Route table:** resolution of a pathname, and keying the routes by pathname.
- **The two contact forms:** field updates and the submit cycle through `sendEmail`.
- **Cards and lists:**
  - the "first k, then +N" truncation of tag and skill lists;
  - the project cards and the 3D project cards;
  - the achievement cards;
  - the skills page cards;
  - the lazily loaded image, which three components copy.

All JavaScript primitives the components use are written out in the `Text` module:

- `indexOf` and `includes`;
- `replace` with a string pattern, which replaces the first occurrence only;
- `split` and `join`;
- ASCII `toLowerCase`.

Each component gets its own module. Pure logic is written as functions, with lemmas about them. State a
component updates becomes a class, whose methods are specified by those functions:

- `FilterState`;
- `Typewriter`;
- `NavbarState`;
- `ContactForm`;
- `ImageComponent`;
- `TechIconState`;
- `CardState`.

What the browser, the DOM and the network supply is passed in as a parameter:

- the scroll position;
- the element layout, given as a map from element id to its bounding-box top;
- the image load and error callbacks, given as events;
- the answer of the e-mail service.

## Model

| member | source | states |
|---|---|---|
| Text.LowerChar | src/pages/Projects.tsx:166 | an ASCII capital becomes its small letter (code + 32); every other character is kept; no capital remains |
| Text.Lower | src/pages/Projects.tsx:166-175 | `toLowerCase` keeps the length and lowers each character on its own |
| Text.LowerIdempotent | src/pages/Projects.tsx:166-175 | lowering twice equals lowering once, and a lowered string has no ASCII capital |
| Text.IndexOf | src/pages/Projects.tsx:169-175 | `indexOf`: the result is an occurrence, no earlier position is one, and None exactly when the pattern occurs nowhere |
| Text.Includes | src/pages/Projects.tsx:169-175 | `includes` holds exactly when the pattern occurs at some position |
| Text.ReplaceLeadingPattern | src/components/Navbar.tsx:25 | removing `"/#"` from `"/#" + id` with `replace` leaves exactly `id` |
| Text.SplitJoin | src/components/ExperienceSection.tsx:182 | joining the pieces of `split(sep)` with `sep` gives the string back, for an empty separator as well |
| Text.Chars | src/components/ExperienceSection.tsx:182 | `split("")` gives one piece per character, piece i being the one-character string s[i] |
| Text.SplitAtFirst | src/components/ExperienceSection.tsx:182 | the split scans left to right: without an occurrence the string is the only piece; otherwise the first piece ends at the first occurrence and the rest is the split of what follows it |
| Text.SplitPiecesAvoidSeparator | src/components/ExperienceSection.tsx:182 | no piece produced by a split on a non-empty separator contains the separator |
| Text.SplitSingleIffAbsent | src/components/ExperienceSection.tsx:182 | a split on a non-empty separator has one piece exactly when the separator does not occur |
| Truncation.OverflowBadge | src/components/ProjectCard.tsx:175-179 | the "+N" badge appears iff the list is longer than k, and then N = len − k ≥ 1 |
| Truncation.Shown | src/components/ProjectCard.tsx:168 | `slice(0, k)` has length min(k, len) and is a prefix of the list |
| Truncation.ShownPlusHidden | src/components/ProjectCard.tsx:168-180 | shown items plus the badge count equal the list length; the badge appears iff len > k and never reads +0 |
| LazyImage.Step | src/components/ProjectCard3D.tsx:52-56 | either callback ends loading; the error flag is set iff it was set before or the callback is `onError` |
| LazyImage.Run | src/components/ProjectCard3D.tsx:33-56 | no callback leaves the state unchanged; after at least one, loading is over; an error is shown iff there was one before or some callback is `onError` |
| LazyImage.Render | src/components/ProjectCard3D.tsx:38-57 | pulse iff loading and no error; gradient fallback iff error; `<img>` iff no error; opaque iff not loading |
| LazyImage.ImageXorFallback | src/components/AchievementsSection.tsx:181-204 | exactly one of image and fallback is rendered; the pulse only sits over a hidden image |
| LazyImage.RunKeepsConsistent | src/components/SkillsSection.tsx:312-339 | any run of load and error callbacks keeps "error implies not loading" |
| LazyImage.ErrorIsFinal | src/components/ProjectCard3D.tsx:52-56 | once the error flag is set, no later callback brings the image back |
| LazyImage.NoErrorKeepsImage | src/components/ProjectCard3D.tsx:47-53 | while only load callbacks arrive, the image stays in the tree, and it is visible after the first one |
| LazyImage.ImageComponent.constructor | src/components/ProjectCard3D.tsx:33-34 | the image starts loading and without error |
| LazyImage.ImageComponent.OnLoad | src/components/ProjectCard3D.tsx:52 | `onLoad` clears `isLoading` and keeps `hasError` |
| LazyImage.ImageComponent.OnError | src/components/ProjectCard3D.tsx:53-56 | `onError` sets `hasError` and clears `isLoading` |
| ProjectsPage.SomeIncludes | src/pages/Projects.tsx:171-176 | `some(x => x.toLowerCase().includes(q))` holds iff some entry's lowercase form contains q |
| ProjectsPage.FilterProjects | src/pages/Projects.tsx:160-180 | the result is no longer than the input; it holds exactly the input's projects that match both category and search |
| ProjectsPage.FilterKeepsCopies | src/pages/Projects.tsx:161-178 | each matching project appears in the result as often as in the input, every other project not at all |
| ProjectsPage.FilterKeepsOrder | src/pages/Projects.tsx:161-178 | the filtered list is an order-preserving sub-list of the projects |
| ProjectsPage.UnfilteredShowsAll | src/pages/Projects.tsx:160-178 | category "all" and an empty query return every project, in order |
| ProjectsPage.SearchIsCaseInsensitiveSubstring | src/pages/Projects.tsx:166-176 | a non-empty query matches iff its lowercase form occurs in the lowercased title, description, some tech entry or some achievement |
| ProjectsPage.View | src/pages/Projects.tsx:272-310 | the grid is `filteredProjects` of the page's projects; the filter line is shown iff a filter is active, and then reads X = grid size ≤ Y = all projects; the empty state shows iff the grid is empty; the additional projects are always the full list |
| ProjectsPage.AdditionalIgnoresFilters | src/pages/Projects.tsx:354 | the additional projects are the same for every filter state |
| ProjectsPage.CloudFilterShowsEmptyState | src/pages/Projects.tsx:14-154 | the "cloud" button empties the grid, although an additional project carries "cloud" |
| ProjectsPage.NoCategoryMatchIsEmpty | src/pages/Projects.tsx:162-164 | when no project has the chosen category the result is empty, whatever the query |
| ProjectsPage.FilterState.constructor | src/pages/Projects.tsx:157-158 | the filter over a given project list starts at category "all" with an empty query |
| ProjectsPage.FilterState.SelectCategory | src/pages/Projects.tsx:234 | a category button sets the category and keeps the query |
| ProjectsPage.FilterState.SetSearchQuery | src/pages/Projects.tsx:257-263 | typing, or the X button, sets the query and keeps the category |
| ProjectsPage.FilterState.ClearFilters | src/pages/Projects.tsx:182-185 | resets to ("all", ""), after which the filtered list is every project, in order |
| ProjectsPage.NewPage | src/pages/Projects.tsx:157-158 | the page's filter starts over the page's own projects at ("all", "") |
| ProjectsPage.ClearedViewShowsAll | src/pages/Projects.tsx:182-185 | in the cleared state the grid is every project and the filter line is hidden |
| AnimatedText.Next | src/components/AnimatedText.tsx:25-40 | one timer step keeps the display a prefix of the current text with the index in range, and is exactly one of: type one character, switch to deleting, delete the last character, advance to `(i+1) mod n` with an empty display |
| AnimatedText.Steps | src/components/AnimatedText.tsx:25-46 | any number of steps keeps the prefix and range invariant |
| AnimatedText.TypeSpeed | src/components/AnimatedText.tsx:17 | the delay is 50 ms when deleting and 100 ms when typing |
| AnimatedText.StepsAdd | src/components/AnimatedText.tsx:25-46 | m + n steps are m steps followed by n steps |
| AnimatedText.TypingCompletes | src/components/AnimatedText.tsx:26-28 | from any prefix, typing reaches the full text in one step per missing character |
| AnimatedText.DeletingEmpties | src/components/AnimatedText.tsx:32-34 | from any prefix, deleting reaches the empty display in one step per character |
| AnimatedText.TypeThenTurn | src/components/AnimatedText.tsx:25-35 | from an empty display, \|t\| steps type t and one more step turns to deleting |
| AnimatedText.DeleteThenAdvance | src/components/AnimatedText.tsx:25-40 | from the full text while deleting, \|t\| steps empty the display and one more moves to the next text, typing |
| AnimatedText.Cycle | src/components/AnimatedText.tsx:25-40 | one full cycle on text t takes 2·\|t\|+2 steps and ends on the next text, empty and typing |
| AnimatedText.Typewriter.constructor | src/components/AnimatedText.tsx:10-13 | starts at index 0 with an empty display, typing, cursor on |
| AnimatedText.Typewriter.Tick | src/components/AnimatedText.tsx:25-40 | the timeout callback performs exactly the transition `Next` and keeps the invariant |
| AnimatedText.Typewriter.BlinkCursor | src/components/AnimatedText.tsx:21-23 | the blink interval flips the cursor and nothing else |
| Navbar.SectionIds | src/components/Navbar.tsx:25 | one section id per navigation link |
| Navbar.SectionIdsValue | src/components/Navbar.tsx:5-13 | the ids are home, about, projects, experience, skills, achievements and contact, in this order |
| Navbar.PageSectionsDistinct | src/components/Navbar.tsx:5-13 | the seven section ids are pairwise distinct |
| Navbar.LastReached | src/components/Navbar.tsx:26-35 | the result is the last section in page order whose element exists with top ≤ 100; None iff no section is reached |
| Navbar.ScanActive | src/components/Navbar.tsx:26-35 | the reverse loop with its early exit picks `LastReached`, and keeps the previous value when no section is reached |
| Navbar.ExactlyOneHighlighted | src/components/Navbar.tsx:71 | when the active section is a page section, exactly one link is highlighted |
| Navbar.Follow | src/components/Navbar.tsx:116 | an href starting with `#` stays on the current path |
| Navbar.FollowSectionHref | src/components/Navbar.tsx:116 | `"/#" + id` ends on the home page at element `id`, from any page |
| Navbar.NavLinksReachHomeSections | src/components/Navbar.tsx:5-13 | every navigation link leads to its own section of the home page |
| Navbar.MobileTalkAsWrittenStaysOffHome | src/components/Navbar.tsx:181 | the mobile "Let's Talk" href, as written and clicked on /projects, stays on /projects; the desktop one goes to the home page |
| Navbar.TalkButtonsAgree | src/components/Navbar.tsx:116 | with the corrected mobile href, both buttons land on the home page's contact section from every page |
| Navbar.NavbarState.constructor | src/components/Navbar.tsx:16-18 | not scrolled, menu closed, active section "home" |
| Navbar.NavbarState.HandleScroll | src/components/Navbar.tsx:21-36 | `isScrolled` iff scrollY > 50; the active section becomes the last reached one or stays; the menu is untouched; the active section stays one of the page's ids |
| Navbar.NavbarState.ToggleMenu | src/components/Navbar.tsx:128 | the menu button negates `isMobileMenuOpen` |
| Navbar.NavbarState.CloseMenu | src/components/Navbar.tsx:158 | a mobile link closes the menu |
| Experience.Fragments | src/components/ExperienceSection.tsx:182-189 | one fragment per piece, highlighted exactly when it is not the last |
| Experience.VisibleTextIsJoin | src/components/ExperienceSection.tsx:183-188 | the rendered fragments read as the pieces joined by the metric |
| Experience.VisibleTextIsOriginal | src/components/ExperienceSection.tsx:182-189 | the highlighted rendering reads exactly as the original text |
| Experience.HighlightCountOfFragments | src/components/ExperienceSection.tsx:185 | n pieces produce n − 1 highlights |
| Experience.HighlightsMatchOccurrences | src/components/ExperienceSection.tsx:182-189 | with a non-empty metric there is one highlight per split point, no plain piece contains the metric, and a highlight exists iff the text contains the metric |
| Experience.EveryResponsibilityHighlightsItsMetric | src/components/ExperienceSection.tsx:17-30 | every responsibility contains its metric, so each shows a highlight |
| Routes.Match | src/components/AnimatedRoutes.tsx:17-25 | the first route whose path equals the pathname wins; without one, the catch-all |
| Routes.ExplicitPaths | src/components/AnimatedRoutes.tsx:18-23 | exactly the paths of the six explicit routes |
| Routes.ExplicitPathsDistinct | src/components/AnimatedRoutes.tsx:18-23 | no two explicit routes share a path |
| Routes.ExplicitMapping | src/components/AnimatedRoutes.tsx:18-23 | each of the six paths shows its page inside the page transition |
| Routes.ExplicitPagesFound | src/components/AnimatedRoutes.tsx:18-23 | no explicit route shows the not-found page |
| Routes.NotFoundIffUnlisted | src/components/AnimatedRoutes.tsx:24 | the not-found page shows iff the pathname is none of the six paths |
| Routes.ResolveExplicit | src/components/AnimatedRoutes.tsx:18-23 | each explicit route's path resolves to that route's own element |
| Routes.OnNavigate | src/components/AnimatedRoutes.tsx:13-17 | the mounted page stays iff the pathname is unchanged; otherwise the old page exits before the new one enters |
| Routes.HashOrSearchChangeStays | src/components/AnimatedRoutes.tsx:17 | locations that differ only in query or hash share a key, so the page is not remounted |
| EmailForm.Update | src/pages/Contact.tsx:88 | the named field gets the value and the other three are kept |
| EmailForm.FormDataByFields | src/pages/Contact.tsx:77-82 | two forms are equal when their four fields are |
| EmailForm.UpdateLaws | src/pages/Contact.tsx:84-89 | the last write to a field wins, writes to different fields commute, and rewriting a field's own value changes nothing |
| EmailForm.Params | src/pages/Contact.tsx:96-102 | the payload sends `to_name` "Swetank" and the four form fields as from_name, from_email, subject and message |
| EmailForm.ParamsInjective | src/pages/Contact.tsx:96-102 | the payload determines the form it was built from |
| EmailForm.SendEmail | src/lib/email.ts:11-28 | NotConfigured iff a placeholder credential is left; Sent iff none is left and the service delivers |
| EmailForm.ShippedConfigReachesService | src/lib/email.ts:5-20 | the shipped credentials pass the guard, so the outcome is the service's answer |
| EmailForm.ContactForm.constructor | src/pages/Contact.tsx:76-82 | an empty form, not submitting, no toast |
| EmailForm.ContactForm.Change | src/components/ContactSection.tsx:152-154 | an input's change updates its field and keeps the submitting state and the toast |
| EmailForm.ContactForm.StartSubmit | src/pages/Contact.tsx:91-102 | refused while submitting (the button is disabled) or with an empty required field; otherwise `isSubmitting` is set, the button becomes disabled, and the payload of the current form is sent |
| EmailForm.ContactForm.FinishSubmit | src/pages/Contact.tsx:104-119 | success shows the success toast and clears the form; failure shows the error toast and keeps the form; either way `isSubmitting` ends false |
| EmailForm.ContactForm.SubmitDisabled | src/pages/Contact.tsx:341 | the submit button is disabled exactly while a message is in flight |
| EmailForm.ContactForm.HandleSubmit | src/components/ContactSection.tsx:17-46 | the whole submit: nothing happens when refused; otherwise the payload of the form as submitted is sent, then reset or kept by outcome, and `isSubmitting` ends false |
| ContactPage.FieldNamed | src/pages/Contact.tsx:272-324 | the four input names map one-to-one onto the four fields; anything else maps to none |
| ContactPage.HandleInputChange | src/pages/Contact.tsx:84-89 | only the field named by the event changes |
| ContactPage.MessageCounter | src/pages/Contact.tsx:333 | the counter shows the message length against 1000 |
| ContactPage.CounterLimitNotEnforced | src/pages/Contact.tsx:324-333 | a message longer than 1000 characters is accepted, counted past the limit and sent unchanged |
| ContactPage.NewForm | src/pages/Contact.tsx:76-82 | the page's form starts empty and carries the page's own success toast |
| ContactSection.OnChange | src/components/ContactSection.tsx:152-154 | each input's handler replaces its own field and copies the rest |
| ContactSection.FormsAgree | src/components/ContactSection.tsx:152-211 | the two success toasts differ, and only the shared error toast is destructive; that both forms edit alike holds by construction |
| ContactSection.NewForm | src/components/ContactSection.tsx:9-15 | the section's form starts empty and carries the section's own success toast |
| SkillsSection.GetTechBgClass | src/components/SkillsSection.tsx:36-62 | a mapped non-empty class, otherwise "bg-primary/20" |
| SkillsSection.BackgroundKeys | src/components/SkillsSection.tsx:7-60 | `bgMap` and `techIcons` list the same 22 names |
| SkillsSection.BackgroundsNonEmpty | src/components/SkillsSection.tsx:37-60 | no `bgMap` entry is empty, so the "bg-primary/20" fallback only catches unknown names |
| SkillsSection.BackgroundsCoverIcons | src/components/SkillsSection.tsx:7-62 | the background table and the icon table have the same names, so known names get their own class and the rest the default |
| SkillsSection.FirstChar | src/components/SkillsSection.tsx:89 | `charAt(0)`: the first character, or "" for an empty name |
| SkillsSection.TechIcon | src/components/SkillsSection.tsx:65-142 | the fallback chain: an unknown name shows its first letter in the default colour; YOLOv8 and Matplotlib show Lucide icons; a known name shows its logo iff there is no error and its address is non-empty; the invert filter applies iff the name is one of the four |
| SkillsSection.LucideNamesPrecedeFallback | src/components/SkillsSection.tsx:96-111 | YOLOv8 and Matplotlib have empty addresses yet always get their Lucide icons |
| SkillsSection.ErrorShowsLetter | src/components/SkillsSection.tsx:111-122 | after an error, a known name (other than the two Lucide ones) shows its first letter |
| SkillsSection.InvertedNamesHaveLogos | src/components/SkillsSection.tsx:125-128 | the four inverted names have logos and are drawn inverted |
| SkillsSection.TechIconState.constructor | src/components/SkillsSection.tsx:66 | an icon starts without error |
| SkillsSection.TechIconState.OnError | src/components/SkillsSection.tsx:137 | the logo's `onError` sets the error flag |
| SkillsSection.RenderCategory | src/components/SkillsSection.tsx:388-460 | bars iff the first skill is an object, with each bar's label and width equal to its level; otherwise one tag per skill |
| SkillsSection.CategoriesRender | src/components/SkillsSection.tsx:144-182 | Languages render as bars and the other two categories as tags; every listed skill has an icon entry |
| SkillsSection.Effects | src/components/SkillsSection.tsx:495-570 | rotation 3 only for tilt; pink shadow and glow border iff glow; shine sweep iff shine |
| SkillsSection.ZoomAndFlipAreInert | src/components/SkillsSection.tsx:495-570 | zoom and flip have no effect on the card |
| SkillsSection.CardLogoOf | src/components/SkillsSection.tsx:511-517 | the logo text is shown iff present and non-empty |
| SkillsSection.CertificationCards | src/components/SkillsSection.tsx:204-300 | no certificate uses glow, every certificate has a logo text, and only the first one tilts |
| ProjectCard.Render | src/components/ProjectCard.tsx:50-199 | featured badge iff `featured`; demo link in the overlay and on the main button iff `demoUrl` is truthy, else "Demo N/A"; panel open and chevron up iff expanded; first six tags and the `+N more` badge |
| ProjectCard.DemoLinksAgree | src/components/ProjectCard.tsx:89-199 | the overlay link and the main button always agree about the demo |
| ProjectCard.TagsAccountForStack | src/components/ProjectCard.tsx:168-180 | the tags and the badge account for the whole stack, with the first six tags in order |
| ProjectCard.PropsOf | src/pages/Projects.tsx:295-307 | the projects page passes no `demoUrl` |
| ProjectCard.ProjectsPageCards | src/pages/Projects.tsx:295-307 | every card on the projects page shows "Demo N/A", the featured badge and six tags with a badge |
| ProjectCard.CardState.constructor | src/components/ProjectCard.tsx:38 | a card starts collapsed |
| ProjectCard.CardState.Toggle | src/components/ProjectCard.tsx:127 | the button negates `isExpanded` |
| ProjectCard3D.Render | src/components/ProjectCard3D.tsx:182-255 | the number is index + 1; the first four tags are shown; the `+N` badge appears iff there are more than four, with N = len − 4; links and image as given |
| ProjectCard3D.RenderGrid | src/components/ProjectsSection.tsx:78 | one card per project, rendered at its own index |
| ProjectCard3D.GridNumbersAreOneBased | src/components/ProjectCard3D.tsx:190 | cards are numbered 1, 2, … in grid order, so no two cards share a number |
| ProjectCard3D.TagsAccountForAll | src/components/ProjectCard3D.tsx:243-255 | shown tags plus the badge count equal all tags |
| ProjectCard3D.MountedCardPulses | src/components/ProjectCard3D.tsx:33-57 | a freshly mounted card shows the pulse over a hidden image |
| Achievements.StylesDistinct | src/components/AchievementsSection.tsx:129-158 | the four badge kinds have pairwise different styles |
| Achievements.CardIcon | src/components/AchievementsSection.tsx:266-268 | Trophy iff gold, Medal iff silver, Code iff ongoing, Shield iff bronze |
| Achievements.IconColor | src/components/AchievementsSection.tsx:297-299 | the colour class of the centre icon for each badge kind |
| Achievements.WhenText | src/components/AchievementsSection.tsx:320-378 | an optional string is rendered iff present and non-empty |
| Achievements.RenderCard | src/components/AchievementsSection.tsx:265-378 | href is the link; icon, colour and style follow the badge; the badge pulses iff gold and shows the achievement's own label; each optional field renders iff present (a present tech stack always does) |
| Achievements.EveryAchievementLinks | src/components/AchievementsSection.tsx:26-127 | every achievement has a link |
| Achievements.NoBronze | src/components/AchievementsSection.tsx:26-127 | no achievement has the bronze badge |
| Achievements.GoldAt | src/components/AchievementsSection.tsx:26-127 | exactly entries 0, 1 and 3 are gold |
| Achievements.TechStackWithProject | src/components/AchievementsSection.tsx:26-127 | an entry has a tech stack exactly when it has a non-empty project name |
| Achievements.SectionCards | src/components/AchievementsSection.tsx:26-127 | every card links somewhere, none shows Shield, cards 0, 1 and 3 pulse, and exactly the project cards carry a tech row |
| Achievements.CardIconIgnoresStyleIcon | src/components/AchievementsSection.tsx:129-158 | the centre icon agrees with the style table's icon only for silver and ongoing |
| SkillsPage.RenderSkillCard | src/pages/Skills.tsx:41-112 | primary badge iff the level is exactly "Advanced"; chips iff details are given; percent label and bar width equal the proficiency |
| SkillsPage.BarsFitTrack | src/pages/Skills.tsx:105-414 | every bar on the page has width at most 100 (per cent of its track); only Python and SQL get the primary badge |
| SkillsPage.RenderDomain | src/pages/Skills.tsx:509-521 | the first five skills and the `+N` badge |
| SkillsPage.DomainCardAccountsForSkills | src/pages/Skills.tsx:509-521 | the chips are the first five skills in order; chips plus badge equal all skills; the badge appears iff there are more than five |
| SkillsPage.DomainBadges | src/pages/Skills.tsx:188-217 | only the machine-learning card overflows, showing five of nine skills and "+4" |

## Left out

- **Scenes and animation:**
  - The three.js and react-three-fiber scenes, because they are floating-point, per-frame rendering.
  - The tilt, parallax and gsap calls of the 3D project card (src/components/ProjectCard3D.tsx:69-142), because they are floating-point and library-driven.
  - The framer-motion durations, delays and easings.
  - The page-transition animation itself. `Routes.OnNavigate` states only the exit-before-enter ordering, which `AnimatePresence mode="wait"` provides; the overlay component is static markup.
  - Every page is wrapped in the page transition by construction: `Routes.Element` has that one constructor.
- **Timer timing:** wall-clock timing is not modelled; only the order of steps is.
  - `AnimatedText.Next`: the switch to deleting happens one `setTimeout` of 2000 ms later. It is modelled as the same single transition.
  - The 530 ms cursor interval is re-created whenever the effect runs. Only its flip is modelled.
- **`AnimatedText.Typewriter.constructor`:** requires a non-empty `texts`. The component reads `texts[0].length`, which throws on an empty list.
  - A `texts` prop that changes while the component is mounted is not modelled.
- **Network:** the network send through emailjs is a parameter (`Delivery`). Its failures are collapsed into `Rejected`.
  - The `console.error` call is left out.
- **`EmailForm.ContactForm.HandleSubmit`:** assumes nothing is typed while the request is in flight.
  - `StartSubmit`, `Change` and `FinishSubmit` describe the interleaved case.
  - With such edits, a success clears them too.
  - The model does not capture ContactSection's `onChange`, which reads `formData` from the render (a stale closure), nor React's batching of state updates.
  - The browser's `type="email"` format check is not modelled. Only `required` (non-empty) is.
- **`Navbar.HandleScroll`:**
  - the scroll position and element tops are integers, whereas the DOM gives fractional pixels;
  - subscribing to and unsubscribing from the listener are not modelled;
  - `Array.prototype.reverse` mutates the freshly mapped array in place, which the model replaces by a backward loop over an unchanged sequence.
- **`Navbar.Follow`:** handles only the two href forms the bar uses, `#id` and `path#id`. Browser URL resolution beyond that is not modelled.
- **Router:** path normalisation (case, trailing slashes) is not modelled; paths are compared by exact equality. What the NotFound page renders is not part of this model.
- **`Text.Lower`:** lowers ASCII letters only. JavaScript's Unicode case mapping, UTF-16 lengths and `charAt` on surrogate pairs are not modelled.
- **`SkillsSection.GetTechBgClass`:** looks names up in a finite map. Keys inherited from `Object.prototype` (for example `"constructor"`) would be truthy in the source's object lookup. They are not modelled.
- **SkillsSection data:**
  - `CertificateImage` is declared in src/components/SkillsSection.tsx but never rendered there. Its behaviour is the shared `LazyImage` model.
  - The certificate images, gradients and descriptions are omitted from the data. These fields have no effect on behaviour.
- **`SkillsSection.RenderCategory`:** requires every skill of a category to be of one kind, rated or plain. This is the assumption behind the source's type cast.
- **Achievements:** these parts of the section are not modelled:
  - the `icon` and `emoji` fields of `badgeStyles` (src/components/AchievementsSection.tsx:128-158), which the card never reads;
  - the `badgeEmoji` span of the status badge;
  - the image's `src` and `alt` strings and its `fallbackGradient` class;
  - the `accentColor` border class of the card;
  - the static stats banner (`statsData`, lines 160-165, rendered at 238-258).

  These are fixed strings with no branch depending on them.
- **Project texts:** the description paragraphs of the three projects are left empty, and the additional projects carry no description. Search over descriptions is modelled generically in `ProjectsPage.FilterProjects`, but the lemmas about the shipped data do not cover the description text.
- **Expansion panel:** the achievements list, date and description of the project card are passed through unmodelled. Only the expansion flag that shows the list is modelled.

## Findings

| source | as written | input that shows it | evidently intended | confidence | as-written member | corrected member |
|---|---|---|---|---|---|---|
| src/components/Navbar.tsx:181 | the mobile menu's "Let's Talk" link has `href="#contact"`, relative to the current page, whereas the desktop button (line 116) and every menu link use `/#…`; only the home page renders an element with id `contact` (src/components/ContactSection.tsx:49), while the bar appears on every page | open the mobile menu on `/projects` and click "Let's Talk": the browser stays on `/projects` and finds no `contact` element | `href="/#contact"`, as on the desktop button | medium, not executed | Navbar.MobileTalkAsWrittenStaysOffHome | Navbar.TalkButtonsAgree |

# Premium portfolio — a verified model of its behaviour

This project models a single-page portfolio site built as a Next.js / React
application. The page shows a loading screen for 2.5 seconds. A hero screen
follows, and its call to action reveals the content: a story section (chapters
with arrows and dots), a project showcase, a skills section and a contact form.
Each section is driven by a configuration module with an `isRequired` flag. The
contact form sends an inquiry through a web-mail compose URL, or through a
chooser offering e-mail, WhatsApp and Telegram.

Modules:

- `Js`: the JavaScript behaviour the components rely on. It covers
  `x || d` on optional values, `trim`, `includes`, `toLowerCase`,
  `replace(/[^0-9]/g, "")`, `replace("@", "")` and an order-preserving filter.
- `Uri`: `encodeURIComponent` as UTF-8 percent-encoding, a decoder that undoes
  it, and reading a parameter out of a query string.
- `Page`: the page's section flags, the sections it mounts, and the
  loading → hero → content state machine. The machine is written as a function
  on states and as the `Portfolio` class whose methods follow it.
- `Story`: the story section's gate, its wrap-around chapter cursor (the class
  `ChapterNavigator`) and the active chapter's visual.
- `Projects`: the showcase's gate, the keyword classifiers that pick a
  project's placeholder icon and background, the year/category label and the
  visual.
- `Skills`: the skills section's gate, the list defaults, the cycling icons and
  colours, and when a percentage bar is drawn.
- `Contact`: the contact section's gate, the channels and social links it
  offers, the inquiry text and the URLs built from it, and the form's state as
  the class `ContactForm`.

Modelling choices:

- Each configuration module is a value passed in, not a global import.
- `isRequired` is `Option<bool>`, so absent, `true` and `false` are distinct.
- Each `window.open(url)` call appends `url` to `ContactForm.openedUrls`.
- The page's `setTimeout`/`clearTimeout` become explicit `Elapse(ms)` and
  `Teardown` events.
- Clicking the hero's call to action is the `HeroClick` event.

Behaviours of the code worth knowing:

- When the hero's flag is not `true`, no hero is shown and the page stays
  blank after the loading screen (`Page.NoHeroNoContent`).
- Sending through the chooser does not clear the form (`HandleSendMessage`
  keeps `formData`). Only the web-mail fallback clears it.
- The Telegram handle loses its first `@` wherever it stands, not only a
  leading one (`Contact.TelegramUrlShape`).

## Model

| member | source | states |
|---|---|---|
| Js.Trim | premium-portfolio/components/contact-section.tsx:138 | `s.trim()`: leading and trailing white space removed; its properties are the three lemmas below |
| Js.TrimStartCuts | premium-portfolio/components/contact-section.tsx:138 | trimming the front removes a prefix made only of white space and leaves a string that does not start with white space |
| Js.TrimEndCuts | premium-portfolio/components/contact-section.tsx:138 | trimming the end removes a suffix made only of white space and leaves a string that does not end with white space |
| Js.TrimIsInnerSlice | premium-portfolio/components/contact-section.tsx:138 | the trimmed string is a contiguous part of the input with no white space at either end |
| Js.BlankIffAllWhiteSpace | premium-portfolio/components/contact-section.tsx:138 | `s.trim() === ""` exactly when every character of `s` is white space |
| Js.FilledIffVisible | premium-portfolio/components/contact-section.tsx:137-138 | an optional string passes `x && x.trim() !== ""` exactly when it is present and has a non-white-space character |
| Js.Includes | premium-portfolio/components/project-showcase.tsx:26-36 | `includes` holds exactly when the keyword occurs at some position |
| Js.ToLower | premium-portfolio/components/project-showcase.tsx:25 | lower-casing keeps the length and maps each character on its own, changing only ASCII capitals |
| Js.ToLowerIdempotent | premium-portfolio/components/project-showcase.tsx:25 | lower-casing twice is lower-casing once |
| Js.StripNonDigits | premium-portfolio/components/contact-section.tsx:85-86 | `s.replace(/[^0-9]/g, "")`: the digits of `s`, in order |
| Js.StripNonDigitsOnlyDigits | premium-portfolio/components/contact-section.tsx:85-86 | what remains after removing non-digits is all digits and no longer than the input |
| Js.StripNonDigitsAppend | premium-portfolio/components/contact-section.tsx:85-86 | removing non-digits distributes over concatenation |
| Js.StripNonDigitsKeepsDigits | premium-portfolio/components/contact-section.tsx:85-86 | a string of digits is left unchanged |
| Js.StripNonDigitsCounts | premium-portfolio/components/contact-section.tsx:85-86 | each digit occurs in the result as often as in the input |
| Js.RemoveFirst | premium-portfolio/components/contact-section.tsx:90-91 | `s.replace("@", "")`: a string pattern replaces only its first occurrence |
| Js.RemoveFirstAbsent | premium-portfolio/components/contact-section.tsx:90-91 | replacing a character that does not occur leaves the string unchanged |
| Js.RemoveFirstPresent | premium-portfolio/components/contact-section.tsx:90-91 | replacing a character that occurs cuts out exactly its first occurrence |
| Js.RemoveFirstCutsFirst | premium-portfolio/components/contact-section.tsx:90-91 | replacing a string pattern removes only the first occurrence of the character, or nothing when there is none |
| Js.RemoveFirstOnlyRemoves | premium-portfolio/components/contact-section.tsx:90-91 | the result contains no character the input lacked |
| Js.Filter | premium-portfolio/components/contact-section.tsx:105-128 | `Array.prototype.filter`: the elements satisfying the test, in order |
| Js.FilterKeepsOrder | premium-portfolio/components/contact-section.tsx:105-128 | filtering a list ordered by a key keeps it ordered by that key |
| Uri.Encode | premium-portfolio/components/contact-section.tsx:43-46 | `encodeURIComponent`: unreserved characters kept, every other character written as `%XY` escapes of its UTF-8 bytes |
| Uri.EncodeAlphabet | premium-portfolio/components/contact-section.tsx:43-46 | the encoding consists of unreserved characters and `%` escapes |
| Uri.EncodeAppend | premium-portfolio/components/contact-section.tsx:43-46 | encoding works character by character: the encoding of a concatenation is the concatenation of the encodings |
| Uri.EncodedHasNoDelimiters | premium-portfolio/components/contact-section.tsx:50 | an encoded value contains no `&`, `=`, `?` or `#`, so it cannot break the URL it is placed in |
| Uri.DecodeEncode | premium-portfolio/components/contact-section.tsx:43-46 | decoding an encoded string gives back the original |
| Uri.EncodeInjective | premium-portfolio/components/contact-section.tsx:43-46 | different strings have different encodings |
| Uri.QueryStringAfter | premium-portfolio/components/contact-section.tsx:50 | the query string of `base?q` is `q` when `base` has no `?` |
| Uri.Join | premium-portfolio/components/contact-section.tsx:50 | a query string `k1=v1&k2=v2…` from its fields, as the template literals write it |
| Uri.LookupJoin | premium-portfolio/components/contact-section.tsx:50 | looking a name up in `k1=v1&k2=v2…` gives the value of its first field, when names hold no `&` or `=` and values no `&` |
| Uri.QueryParamOf | premium-portfolio/components/contact-section.tsx:50 | in `base?k1=v1&…`, the parameter named by the first field with that name has that field's value |
| Contact.Renders | premium-portfolio/components/contact-section.tsx:22-24 | the section renders unless the data is missing or `isRequired` is `false` |
| Contact.SocialHref | premium-portfolio/components/contact-section.tsx:493-497 | a social link's `href` is its URL, or `#` when it has none |
| Contact.AvailableMessaging | premium-portfolio/components/contact-section.tsx:131-166 | without a messaging block no channel is offered, and never more than three |
| Contact.AvailableMessagingMeaning | premium-portfolio/components/contact-section.tsx:131-166 | a channel is offered exactly when its destination is set and not blank, in the order e-mail, WhatsApp, Telegram |
| Contact.GetAvailableMessagingPlatforms | premium-portfolio/components/contact-section.tsx:131-166 | the method that pushes one channel at a time returns exactly the offered channels |
| Contact.AvailableSocial | premium-portfolio/components/contact-section.tsx:105-128 | a social network is listed exactly when its URL is set and not blank, in the fixed key order |
| Contact.OfferedLinksUseTheirUrl | premium-portfolio/components/contact-section.tsx:493-497 | every listed social link points at its configured, non-blank URL and never at the `#` fallback |
| Contact.WithField | premium-portfolio/components/contact-section.tsx:26-33 | an edit sets the named field and leaves the other three unchanged |
| Contact.Payload | premium-portfolio/components/contact-section.tsx:42 | the inquiry text: tagged lines for name, e-mail and project, then the message |
| Contact.Subject | premium-portfolio/components/contact-section.tsx:44-46 | the subject `New Project Inquiry from <name>` |
| Contact.ReadFieldOf | premium-portfolio/components/contact-section.tsx:42 | one tagged line of the inquiry text reads back as its value and the rest of the text |
| Contact.PayloadRoundTrip | premium-portfolio/components/contact-section.tsx:42 | the inquiry text determines all four fields when name, e-mail and project contain no line break |
| Contact.SubjectRoundTrip | premium-portfolio/components/contact-section.tsx:44-46 | the subject line names the sender |
| Contact.WhatsAppNumber | premium-portfolio/components/contact-section.tsx:84-86 | the configured WhatsApp destination with every non-digit removed, or empty |
| Contact.TelegramHandle | premium-portfolio/components/contact-section.tsx:89-91 | the configured Telegram destination with its first `@` removed, or empty |
| Contact.WhatsAppNumberDigits | premium-portfolio/components/contact-section.tsx:85-86 | the WhatsApp number in the URL consists of digits only |
| Contact.PhoneDigits | premium-portfolio/components/contact-section.tsx:85-86 | a number written `+<country> <area> <line>` becomes its three digit groups run together, e.g. `+1 555 0100` becomes `15550100` |
| Contact.GmailComposeUrl | premium-portfolio/components/contact-section.tsx:49-51 | the web-mail compose URL: `view=cm`, `fs=1`, an empty `to`, then the encoded subject and inquiry |
| Contact.SendUrl | premium-portfolio/components/contact-section.tsx:70-92 | the URL opened for each chooser channel: `mailto:`, `wa.me` or `t.me`, each carrying the encoded inquiry |
| Contact.GmailTo | premium-portfolio/components/contact-section.tsx:50 | when neither value contains `&`, the compose URL's `to` parameter is empty |
| Contact.GmailSu | premium-portfolio/components/contact-section.tsx:50 | when neither value contains `&`, the compose URL's `su` parameter is the given subject value |
| Contact.GmailBody | premium-portfolio/components/contact-section.tsx:50 | when neither value contains `&`, the compose URL's `body` parameter is the given body value |
| Contact.GmailUrlCarriesForm | premium-portfolio/components/contact-section.tsx:41-51 | the fallback URL has an empty recipient, and its `su` and `body` parameters decode to the subject and the inquiry text |
| Contact.ChatUrlCarriesPayload | premium-portfolio/components/contact-section.tsx:84-92 | a chat URL's `text` parameter decodes to the inquiry text |
| Contact.WhatsAppUrlShape | premium-portfolio/components/contact-section.tsx:84-87 | the WhatsApp URL is `wa.me/` plus the configured number's digits in order, and its `text` parameter is the encoded inquiry |
| Contact.TelegramUrlShape | premium-portfolio/components/contact-section.tsx:89-92 | the Telegram handle is the configured one with its first `@` removed, and its `text` parameter is the encoded inquiry |
| Contact.MailtoSubject | premium-portfolio/components/contact-section.tsx:80-82 | when the address has no `?` and neither value contains `&`, the `mailto:` URL's `subject` parameter is the given value |
| Contact.MailtoBody | premium-portfolio/components/contact-section.tsx:80-82 | when the address has no `?` and neither value contains `&`, the `mailto:` URL's `body` parameter is the given value |
| Contact.MailtoUrlCarriesForm | premium-portfolio/components/contact-section.tsx:75-82 | the `mailto:` URL carries the encoded subject and the encoded inquiry |
| Contact.OnlyWhatsAppExample | premium-portfolio/components/contact-section.tsx:131-166 | with only a phone number configured, WhatsApp is the only channel offered |
| Contact.ContactForm.SubmitDisabled | premium-portfolio/components/contact-section.tsx:364 | the submit button is disabled exactly once the form is submitted |
| Contact.ContactForm.constructor | premium-portfolio/components/contact-section.tsx:10-18 | the form starts empty, not submitted, with the chooser closed and nothing opened |
| Contact.ContactForm.HandleInputChange | premium-portfolio/components/contact-section.tsx:26-33 | only the edited field changes, and the form's invariant is kept |
| Contact.ContactForm.HandleSubmit | premium-portfolio/components/contact-section.tsx:35-68 | with no channel, it opens the web-mail URL built from the old fields, marks the form submitted and clears it; otherwise it only opens the chooser |
| Contact.ContactForm.HandleSendMessage | premium-portfolio/components/contact-section.tsx:70-102 | it opens exactly the chosen channel's URL, closes the chooser and marks the form submitted, keeping the fields |
| Contact.ContactForm.ClosePopup | premium-portfolio/components/contact-section.tsx:553-554 | cancelling, or a click on the backdrop, closes the chooser, changes nothing else and keeps the invariant |
| Contact.ContactForm.SubmitClick | premium-portfolio/components/contact-section.tsx:35-68 | a press while submitted, or with a required field empty, does nothing; otherwise with no channel it opens the web-mail URL of the typed form, marks it submitted and empties it, and with channels it opens the chooser keeping the fields; in the model at most one URL is ever opened |
| Contact.ContactForm.ChoosePlatform | premium-portfolio/components/contact-section.tsx:539-542 | a choice acts only while the chooser is open and only for an offered channel: it opens that channel's URL for the current fields, keeps the fields, closes the chooser and marks the form submitted; in the model at most one URL is ever opened |
| Contact.InquiryThroughChooser | premium-portfolio/components/contact-section.tsx:26-102 | typing the four fields, pressing submit and picking an offered channel opens exactly that channel's URL for the typed fields |
| Contact.InquiryThroughWebMail | premium-portfolio/components/contact-section.tsx:26-68 | with no channel configured, the same visit opens exactly the web-mail URL for the typed fields and empties the form |
| Page.ShouldRenderHero | premium-portfolio/app/page.tsx:21 | the hero is mounted exactly when its flag is `true` |
| Page.ShouldRenderStory | premium-portfolio/app/page.tsx:22 | the story is mounted exactly when its flag is `true` |
| Page.ShouldRenderProjects | premium-portfolio/app/page.tsx:23 | the showcase is mounted exactly when its flag is `true` |
| Page.ShouldRenderSkills | premium-portfolio/app/page.tsx:24 | the skills section is mounted exactly when its flag is `true` |
| Page.ShouldRenderContact | premium-portfolio/app/page.tsx:25 | the contact section is mounted exactly when its flag is `true` |
| Page.HeroRenders | premium-portfolio/components/hero-section.tsx:16 | the hero renders unless its data is missing or `isRequired` is `false` |
| Page.FlagsImplyComponentGates | premium-portfolio/app/page.tsx:21-25 | a section the page mounts passes its component's own flag test; story, projects and skills still need a non-empty list |
| Page.MissingFlagIsNotMounted | premium-portfolio/app/page.tsx:25 | a module without `isRequired` passes the component's test, but the page does not mount it |
| Page.MountedSections | premium-portfolio/app/page.tsx:70-73 | a section is mounted exactly when its flag is `true`, in the order story, projects, skills, contact |
| Page.Step | premium-portfolio/app/page.tsx:32-42 | one event: the timer ends loading after 2500 ms unless cleared, a hero click enters while the hero shows, the cleanup clears the timer |
| Page.Run | premium-portfolio/app/page.tsx:32-42 | a sequence of events, one `Step` at a time |
| Page.InitialInv | premium-portfolio/app/page.tsx:28-29 | the mounted page satisfies the state invariant |
| Page.StepKeepsInv | premium-portfolio/app/page.tsx:32-42 | every event keeps the invariant |
| Page.RunKeepsInv | premium-portfolio/app/page.tsx:32-42 | every sequence of events keeps the invariant |
| Page.LoadingLastsTheDelay | premium-portfolio/app/page.tsx:32-36 | while mounted, the loading screen shows exactly during the first 2500 ms |
| Page.ViewsExclusive | premium-portfolio/app/page.tsx:50-79 | loading screen, hero and content never show together; the progress bar shows exactly with the content |
| Page.RunIsMonotone | premium-portfolio/app/page.tsx:32-42 | loading never comes back, entering is never undone, a cleared timer never fires, and an unmounted page stays unmounted |
| Page.NoTickAfterTeardown | premium-portfolio/app/page.tsx:37 | after the cleanup, the timer can no longer end the loading state |
| Page.NoHeroNoContent | premium-portfolio/app/page.tsx:55-56 | without the hero flag, the content is never entered and neither hero nor content ever shows |
| Page.EnteredOnlyThroughHero | premium-portfolio/app/page.tsx:40-42 | the content is entered only by a hero click while the hero is visible |
| Page.Portfolio.constructor | premium-portfolio/app/page.tsx:28-29 | the page mounts loading, not entered, with the timer armed |
| Page.Portfolio.AdvanceClock | premium-portfolio/app/page.tsx:32-36 | passing time follows the state machine and keeps the invariant |
| Page.Portfolio.HandleEnterPortfolio | premium-portfolio/app/page.tsx:40-42 | it sets `hasEntered` and nothing else |
| Page.Portfolio.ClickHero | premium-portfolio/components/hero-section.tsx:36-38 | a hero click follows the state machine and keeps the invariant |
| Page.Portfolio.Unmount | premium-portfolio/app/page.tsx:37 | the cleanup clears the timer and keeps the invariant |
| Story.Renders | premium-portfolio/components/story-section.tsx:111-119 | the section renders only with data, `isRequired` not `false`, and at least one chapter |
| Story.NextIndex | premium-portfolio/components/story-section.tsx:146-148 | the next arrow moves one chapter forward, wrapping from last to first: `(i + 1) mod n` |
| Story.PrevIndex | premium-portfolio/components/story-section.tsx:142-144 | the previous arrow moves one chapter back, wrapping from first to last: `(i - 1) mod n` |
| Story.PrevAfterNext | premium-portfolio/components/story-section.tsx:142-148 | back after forward returns to the same chapter |
| Story.NextAfterPrev | premium-portfolio/components/story-section.tsx:142-148 | forward after back returns to the same chapter |
| Story.NextTimesIsModular | premium-portfolio/components/story-section.tsx:146-148 | `k` presses of next move `k` chapters forward modulo the count |
| Story.NextLapIsIdentity | premium-portfolio/components/story-section.tsx:146-148 | as many presses as there are chapters return to the start |
| Story.ChapterNavigator.constructor | premium-portfolio/components/story-section.tsx:108 | the cursor starts on the first chapter |
| Story.ChapterNavigator.HandleNextChapter | premium-portfolio/components/story-section.tsx:146-148 | the cursor moves to the next chapter and stays in range |
| Story.ChapterNavigator.HandlePrevChapter | premium-portfolio/components/story-section.tsx:142-144 | the cursor moves to the previous chapter and stays in range |
| Story.ChapterNavigator.HandleChapterChange | premium-portfolio/components/story-section.tsx:138-140 | the cursor jumps to the given index |
| Story.ChapterNavigator.ClickDot | premium-portfolio/components/story-section.tsx:310-318 | a dot click jumps to its chapter and the cursor stays in range |
| Story.ColorIndex | premium-portfolio/components/story-section.tsx:258 | a chapter's scheme is one of the four, chosen by position modulo 4 |
| Story.PatternIndex | premium-portfolio/components/story-section.tsx:92 | the placeholder's pattern index is within the pattern table |
| Story.IconIndex | premium-portfolio/components/story-section.tsx:94 | the placeholder's icon index is within the icon table |
| Story.PlaceholderIndicesFollowColor | premium-portfolio/components/story-section.tsx:92-94 | the pattern follows the colour one to one, and only the first four of the eight icons can appear |
| Story.ChapterVisual | premium-portfolio/components/story-section.tsx:238-260 | the image shows exactly when it is present and not blank; otherwise the placeholder shows, with fallbacks "Chapter" and "Story Chapter" |
| Story.BlankImageGetsPlaceholder | premium-portfolio/components/story-section.tsx:238-239 | a missing or all-white-space image gets the placeholder |
| Projects.Renders | premium-portfolio/components/project-showcase.tsx:158-165 | the showcase renders only with data, `isRequired` not `false`, and at least one project |
| Projects.CategoryIcon | premium-portfolio/components/project-showcase.tsx:24-38 | the icon picked by the first keyword bucket that the lower-cased category contains |
| Projects.CategoryPattern | premium-portfolio/components/project-showcase.tsx:40-131 | the background picked by the first keyword bucket that the lower-cased category contains |
| Projects.CategoryIconIsFirstMatch | premium-portfolio/components/project-showcase.tsx:24-38 | the icon is the first bucket in the priority table whose keyword occurs in the lower-cased category, or the rocket |
| Projects.CategoryPatternIsFirstMatch | premium-portfolio/components/project-showcase.tsx:40-131 | the background is the first matching bucket of its table, or the geometric default |
| Projects.RocketIffNoKeyword | premium-portfolio/components/project-showcase.tsx:37 | the rocket appears exactly when no keyword of any bucket occurs |
| Projects.ClassifiersIgnoreCase | premium-portfolio/components/project-showcase.tsx:25 | icon and background do not depend on letter case |
| Projects.IconAndPatternAgree | premium-portfolio/components/project-showcase.tsx:26-123 | shopping icon iff commerce pattern, palette iff neural; the chart pattern implies the chart icon; the chart icon pairs with the geometric pattern exactly when only "visualization" matched |
| Projects.EmptyCategoryDefaults | premium-portfolio/components/project-showcase.tsx:137-140 | a missing category gives the rocket and the geometric pattern |
| Projects.AbsentByCharacter | premium-portfolio/components/project-showcase.tsx:26-36 | a keyword with a character the category lacks cannot occur in it |
| Projects.SubstringExample | premium-portfolio/components/project-showcase.tsx:27 | "email" is classed as AI/art, because it contains "ai" |
| Projects.MetaLabel | premium-portfolio/components/project-showcase.tsx:211-219 | the label is absent exactly when year and category are both falsy, and is the single present one otherwise |
| Projects.MetaLabelSplits | premium-portfolio/components/project-showcase.tsx:217-218 | with both present, the label is the year, ` • ` and the category, and splits back into them at the first bullet |
| Projects.PlaceholderCaption | premium-portfolio/components/project-showcase.tsx:146 | the caption is the category when truthy, and "Creative Project" otherwise |
| Projects.ColorIndex | premium-portfolio/components/project-showcase.tsx:214 | a project's scheme is one of the four, chosen by position modulo 4 |
| Projects.ColorCycle | premium-portfolio/components/project-showcase.tsx:214 | projects four apart share a scheme, and neighbours never do |
| Projects.ProjectVisual | premium-portfolio/components/project-showcase.tsx:272-276 | the image shows exactly when it is present and not blank, with alt falling back to "Project"; the placeholder takes icon and pattern from the category |
| Projects.UncategorisedPlaceholder | premium-portfolio/components/project-showcase.tsx:137-146 | an uncategorised project without an image shows the rocket, the geometric pattern and "Creative Project" |
| Skills.Renders | premium-portfolio/components/process-skills.tsx:29-36 | the section renders only with data, `isRequired` not `false`, and at least one skill |
| Skills.Technologies | premium-portfolio/components/process-skills.tsx:44 | `skillsData.technologies || []` |
| Skills.Timeline | premium-portfolio/components/process-skills.tsx:45 | `skillsData.timeline || []` |
| Skills.OrNone | premium-portfolio/components/process-skills.tsx:44-45 | a missing list reads as empty, and a present one as itself |
| Skills.MissingListsDrawNothing | premium-portfolio/components/process-skills.tsx:44-45 | the technologies and timeline panels are drawn exactly for present, non-empty lists |
| Skills.TechnologyIcon | premium-portfolio/components/process-skills.tsx:20-22 | every technology gets one of the eight icons |
| Skills.TechnologyIconPeriodic | premium-portfolio/components/process-skills.tsx:20-22 | the icons repeat every eight technologies |
| Skills.TechIconsDistinct | premium-portfolio/components/process-skills.tsx:18 | the eight icons are pairwise different |
| Skills.TechnologyIconsDistinctWithinEight | premium-portfolio/components/process-skills.tsx:18-22 | technologies fewer than eight places apart never share an icon |
| Skills.ColorIndex | premium-portfolio/components/process-skills.tsx:108 | a skill's scheme is one of the six, chosen by position modulo 6 |
| Skills.ColorCycle | premium-portfolio/components/process-skills.tsx:108 | skills six apart share a scheme, and neighbours never do |
| Skills.PercentageSlotAsWritten | premium-portfolio/components/process-skills.tsx:104 | as written, the bar is drawn iff the percentage is truthy, and a percentage of 0 prints the text "0" |
| Skills.PercentageSlot | premium-portfolio/components/process-skills.tsx:104-113 | as intended, the bar is drawn iff the percentage is truthy, at that width, and no text ever leaks |
| Skills.StrayZero | premium-portfolio/components/process-skills.tsx:104 | the two readings differ exactly on a percentage of 0 |
| Skills.ShowsHeader | premium-portfolio/components/process-skills.tsx:90 | the header row shows when the name or the percentage is truthy |
| Skills.BarImpliesHeader | premium-portfolio/components/process-skills.tsx:90-104 | a drawn bar always comes with its name/percentage header |

## Left out

- Animations, hover state, scroll progress values, the custom cursor, the
  hero background and the loading screen's own drawing: presentation only,
  with no state the model needs.
- Exit animations of `AnimatePresence`: the model treats a view as gone as
  soon as its condition is false. While the chooser fades out, its buttons
  still call `handleSendMessage`, so a second click in that window would open
  a second URL; the "at most one URL" bound of `ContactForm.Valid`,
  `SubmitClick` and `ChoosePlatform` holds in the model only.
- The same stray "0" also appears in the skill header: at process-skills.tsx:90
  when the name is falsy and the percentage is 0, and at :97 when the name is
  set. Only the bar's slot at :104 is modelled, as written and as intended.
- The `focusedField` state of the contact form only styles the inputs.
- Browser e-mail syntax validation of `type="email"`: browser behaviour
  outside the source. Only the `required` checks on name, e-mail and message
  are modelled.
- `window.open` itself, and what the opened application does with the URL:
  I/O. The model records the URL.
- The timer as a real clock: time is the `Elapse(ms)` event.
- Js.ToLower: ASCII letters only. The case mapping of other Unicode letters
  is left out.
- Uri.Decode: a decoder for this model's own encoding, not a full model of
  `decodeURIComponent`. JavaScript's lone UTF-16 surrogates, which make
  `encodeURIComponent` throw, cannot occur in Dafny strings.
- Story.IconIndex: the story placeholder's icon strings are stored mis-encoded
  in the source, so only the icon's index is modelled, not its glyph.
- The data modules (`heroData`, `storyData`, …) are not part of this model;
  they are parameters.
- The text of the hero, story, skills and timeline panels is rendered as
  given, so it is not modelled.

## Findings

| source | as written | input that shows it | evidently intended | confidence | as-written member | corrected member |
|---|---|---|---|---|---|---|
| premium-portfolio/components/process-skills.tsx:104 | `{skill.percentage && <bar/>}` renders the falsy number itself, so React prints "0" | a skill with `percentage: 0` | show no bar and no text for a percentage of 0 | not executed | Skills.PercentageSlotAsWritten | Skills.PercentageSlot |

# Portfolio1 — a verified model of the contact endpoint, the hero slider and the project modal

This project models, in Dafny, the three pieces of logic behind the portfolio
site's home page and its contact endpoint:

- **The contact endpoint** (`app/api/contact/route.js`, module `ContactRoute` in
  `contact_route.dfy`). This covers the payload validator and its email check.
  It also covers the HTML body of the relayed message, with its newline to
  `<br/>` rewrite, and the POST handler's status decision: 400 for an invalid
  payload, 500 for missing configuration or a thrown error, 502 when the mail
  provider refuses, 200 on success.
  - `String.prototype.trim` and the regular-expression class `\s` are modelled
    over the exact ECMAScript whitespace set.
  - A message's `length` counts UTF-16 code units.
  - The email regular expression is replaced by a scanner, `IsValidEmail`.
    The scanner is proved equivalent to the language of the pattern,
    `MatchesEmailPattern`.
- **The hero project slider** (`app/components/HeroProjectSlider.jsx`, module
  `HeroSlider` in `hero_slider.dfy`).
  - The visible stack is computed as the source does it: map to offsets,
    filter to `|offset| <= 1`, then a stable sort by decreasing depth. It is
    proved to be exactly "previous, next, active".
  - The clamped previous/next navigation and the enabled flags of the buttons.
  - The 280 ms wheel throttle.
  - The z-index and focus rule of the cards.
  - The component's state (active index, hover flag, last-wheel ref) lives in
    class `Slider`. Its handlers are proved against the step functions.
- **The home page** (`app/page.jsx`, module `HomePage` in `home_page.dfy`).
  - The flags derived from the overlay state, and the language switch.
  - The viewport-height bookkeeping: the `maxFullVhRef` ref in class
    `ViewportTracker`, and the browser-UI offset clamped to [0, 220].
  - The deterministic side split of the emoji burst.
  - The state machine of the project modal: expand, collapse, close, the
    delayed clean-up, and the guarded opening from the hero slider.
  - React handlers read a snapshot of the state, so each handler and each
    timer or animation-frame callback is a function from the state before to
    the state after. Class `Home` holds the same state as fields, with the
    collapse-intent ref among them. Its methods update those fields in the
    source's order, and each is proved to equal its step function.

`wrappers.dfy` holds the `Option` type shared by the three modules.

## Model

| member | source | states |
|---|---|---|
| `ContactRoute.TrimStartSpec` | app/api/contact/route.js:9-11 | trim's leading half removes exactly a whitespace prefix and stops at the first non-whitespace character |
| `ContactRoute.TrimEndSpec` | app/api/contact/route.js:9-11 | trim's trailing half removes exactly a whitespace suffix and stops at the last non-whitespace character |
| `ContactRoute.TrimIsInfix` | app/api/contact/route.js:9-11 | a trimmed field is an infix of the raw field with only whitespace on either side |
| `ContactRoute.Trim` | app/api/contact/route.js:9-11 | a trimmed field is never longer than the raw one, and a non-empty one neither starts nor ends with whitespace |
| `ContactRoute.TrimEmptyIff` | app/api/contact/route.js:13 | a trimmed field is empty (falsy) exactly when the raw field is all whitespace |
| `ContactRoute.Utf16Length` | app/api/contact/route.js:15 | `message.length` counts UTF-16 units: at least the number of code points, at most twice it |
| `ContactRoute.EmailCheckSound` | app/api/contact/route.js:14 | every address the email check accepts is non-whitespace, non-@ runs of the form local@domain.tld |
| `ContactRoute.EmailCheckComplete` | app/api/contact/route.js:14 | every string of that form passes the email check |
| `ContactRoute.EmailCheckMatchesPattern` | app/api/contact/route.js:14 | the email check accepts exactly the language of `^[^\s@]+@[^\s@]+\.[^\s@]+$` |
| `ContactRoute.IsValidEmail` | app/api/contact/route.js:14 | an accepted address has at least five characters and neither starts nor ends with '@' |
| `ContactRoute.ErrorText` | app/api/contact/route.js:7-15 | every validation error has a non-empty (truthy) message |
| `ContactRoute.PresentIffTrimmedNonEmpty` | app/api/contact/route.js:9-13 | a field counts as given exactly when it is a string with a non-whitespace character |
| `ContactRoute.ValidatePayload` | app/api/contact/route.js:6-18 | null only for an object whose trimmed name is non-empty, whose trimmed email passes the email check and whose trimmed message has at least 5 UTF-16 units; "too short" only for an object whose trimmed message is shorter |
| `ContactRoute.ValidationOrder` | app/api/contact/route.js:6-18 | each of the four errors is reported exactly when its own check fails and every earlier check passes: non-object, missing field, email pattern, message shorter than 5 UTF-16 units |
| `ContactRoute.ValidationAccepts` | app/api/contact/route.js:6-18 | the validator returns null exactly for an object with three present fields, a matching email and a message of at least 5 units |
| `ContactRoute.BreakLines` | app/api/contact/route.js:43 | the rewrite never shortens the message and at most quintuples it |
| `ContactRoute.BreakLinesRemovesNewlines` | app/api/contact/route.js:43 | the rewritten message paragraph holds no newline |
| `ContactRoute.BreakLinesKeepsPlainText` | app/api/contact/route.js:43 | a message without newlines is relayed unchanged |
| `ContactRoute.BreakLinesConcat` | app/api/contact/route.js:43 | the rewrite distributes over concatenation, so it replaces each newline in place |
| `ContactRoute.BreakLinesNewline` | app/api/contact/route.js:43 | each newline becomes `<br/>` in place, with the text on either side rewritten on its own |
| `ContactRoute.HtmlBody` | app/api/contact/route.js:38-44 | the body is a fixed 168-character template: the raw name sits right after the opening piece, the raw email right after the name's closing piece, and the rewritten message right before the closing `</p>` |
| `ContactRoute.ComposeMail` | app/api/contact/route.js:52-57 | the mail goes from the configured sender to `[toEmail]`, replies to the raw email, has the raw name right after the subject prefix, and carries the HTML body |
| `ContactRoute.PostDecision` | app/api/contact/route.js:20-70 | the response status is 200, 400, 500 or 502; 400 exactly for a validation error, with its text; 500 for missing configuration; 502 exactly when the provider refuses, with its body after the prefix; 200 exactly on delivery, and only then without an error body; 500 "Unexpected server error" exactly when the body does not parse or an accepted, configured request's provider call throws |
| `ContactRoute.Post` | app/api/contact/route.js:20-70 | the status is one of 200, 400, 500, 502; mail is sent only for a payload that passes validation under full configuration; the body is an error exactly when the status is not 200 |
| `ContactRoute.ValidationErrorPrecedes` | app/api/contact/route.js:23-34 | a rejected payload fixes the response whatever the configuration and the provider do, and nothing is sent |
| `ContactRoute.SentMail` | app/api/contact/route.js:36-59 | the provider is called exactly for an accepted payload with full configuration, with the configured sender, `[toEmail]`, the raw email as reply-to, the prefixed raw name as subject and the HTML body |
| `HeroSlider.InsertByDepthSpec` | app/components/HeroProjectSlider.jsx:79 | inserting a card into a deepest-first list keeps it deepest-first and keeps every card |
| `HeroSlider.SortByDepthSpec` | app/components/HeroProjectSlider.jsx:79 | the depth sort orders cards by non-increasing absolute offset and is a permutation |
| `HeroSlider.NearFocusWindow` | app/components/HeroProjectSlider.jsx:73-78 | mapping to offsets and filtering keeps exactly the previous, active and next projects, in list order |
| `HeroSlider.Stack` | app/components/HeroProjectSlider.jsx:72-80 | the stack has at most three cards, the deeper ones first |
| `HeroSlider.StackShape` | app/components/HeroProjectSlider.jsx:72-80 | the stack is exactly: previous card (offset -1), next card (+1), active card (0), each when it exists |
| `HeroSlider.StackMembers` | app/components/HeroProjectSlider.jsx:72-80 | the stack has at most three cards, and holds a card exactly when its project is within one index of the active one, tagged with its offset |
| `HeroSlider.StackFocus` | app/components/HeroProjectSlider.jsx:72-80 | for an active index in range, the last card drawn is the active project at offset 0 and no other card has offset 0 |
| `HeroSlider.FocusedCardOnTop` | app/components/HeroProjectSlider.jsx:54-57 | the focused card's z-index is strictly above every other card's, and no other card of the stack is focused |
| `HeroSlider.PrevIndex` | app/components/HeroProjectSlider.jsx:82-91 | prev never goes below 0, steps back by one when `hasPrev`, and stays put exactly when `hasPrev` is false |
| `HeroSlider.NextIndex` | app/components/HeroProjectSlider.jsx:86-92 | next never goes beyond `length - 1`, steps forward by one when `hasNext`, and stays put exactly when `hasNext` is false |
| `HeroSlider.MoveTo` | app/components/HeroProjectSlider.jsx:118-120 | moving sets the index and keeps the last-wheel time; a change of index clears the hover flag, and staying put changes nothing |
| `HeroSlider.WheelStep` | app/components/HeroProjectSlider.jsx:122-129 | a wheel step keeps the index in range, and either changes nothing or records the event's time |
| `HeroSlider.WheelThrottle` | app/components/HeroProjectSlider.jsx:122-129 | a wheel event within 280 ms of the last accepted one changes nothing; an accepted one records its time, moves next for a positive delta, prev for a negative one, and not at all for zero |
| `HeroSlider.WheelBurstMovesOnce` | app/components/HeroProjectSlider.jsx:122-129 | after an accepted wheel event, any event in the next 280 ms is ignored |
| `HeroSlider.Apply` | app/components/HeroProjectSlider.jsx:31-42 | no click, wheel or hover event takes the index out of range; only a wheel event can change the last-wheel time, and hovering never moves the index; a wheel or hover event on a card other than the focused one changes nothing, and hovering the focused card sets the hover flag to entering or leaving |
| `HeroSlider.RunKeepsIndexInRange` | app/components/HeroProjectSlider.jsx:82-88 | for a non-empty project list, the active index stays in range under any sequence of clicks, wheel and hover events |
| `HeroSlider.Slider.constructor` | app/components/HeroProjectSlider.jsx:67-70 | the slider starts at index 0, with no hover and a last-wheel time of 0 |
| `HeroSlider.Slider.FocusedProject` | app/components/HeroProjectSlider.jsx:90 | the focused project is `projects[activeIndex]`, and it exists exactly when the list is not empty |
| `HeroSlider.Slider.Cards` | app/components/HeroProjectSlider.jsx:72-80 | the rendered stack has at most three cards, deepest first; for a non-empty list the active project is last and is the only card at offset 0 |
| `HeroSlider.Slider.Prev` | app/components/HeroProjectSlider.jsx:82-84 | the fields become the prev step of the old state, so by `MoveTo` hover is cleared exactly when the index changes |
| `HeroSlider.Slider.Next` | app/components/HeroProjectSlider.jsx:86-88 | the fields become the next step of the old state, so by `MoveTo` hover is cleared exactly when the index changes |
| `HeroSlider.Slider.HandleWheelNavigation` | app/components/HeroProjectSlider.jsx:122-129 | the fields become the throttled wheel step of the old state, and the index invariant is kept |
| `HeroSlider.Slider.OnCardWheel` | app/components/HeroProjectSlider.jsx:38-42 | the fields become `Apply` of a card wheel event, so by its gate clause only the focused card forwards the event to the navigation |
| `HeroSlider.Slider.OnCardHover` | app/components/HeroProjectSlider.jsx:31-37 | the fields become `Apply` of a card hover event, so by its gate clauses only the focused card sets or clears the hover flag |
| `HomePage.HiddenByOverlay` | app/page.jsx:44 | the menu or the open modal alone hides the hero |
| `HomePage.ShowProjectsLike` | app/page.jsx:45 | a projects-like panel always hides the hero |
| `HomePage.CanShowHeroSlider` | app/page.jsx:46 | the slider shows only when no overlay hides the hero and no projects-like panel is showing |
| `HomePage.DerivedFlags` | app/page.jsx:44-46 | the slider shows only when no overlay hides the hero; it shows exactly for a wide viewport, no loader, no overlay and no exit in progress; a projects-like panel always hides the hero |
| `HomePage.ToggleLang` | app/page.jsx:236 | the switch always yields "bg" or "en", and yields "en" exactly from "bg" |
| `HomePage.ToggleLangTwice` | app/page.jsx:236 | switching twice from "bg" or "en" returns to it |
| `HomePage.VisualHeight` | app/page.jsx:60-62 | the visible height is the largest of the inner height, the visual-viewport height (0 when absent) and the client height |
| `HomePage.FullHeight` | app/page.jsx:61-63 | the full height is the larger of the visible height and the screen height (0 when not a number) |
| `HomePage.BrowserUiOffset` | app/page.jsx:65 | the offset always lies in [0, 220]; it is 0 when nothing is hidden, 220 when at least 220 is, and the gap itself in between |
| `HomePage.Resize` | app/page.jsx:59-68 | a resize never lowers the recorded full height, raises it to at least this sample's, and writes the visible height, the recorded height and the gap between them clamped to [0, 220] |
| `HomePage.ResizeAllTracksTallest` | app/page.jsx:58-79 | across any run of resize samples the recorded full height never decreases and ends at least as tall as every sample's full height |
| `HomePage.ViewportTracker.constructor` | app/page.jsx:21 | the ref starts at 0 |
| `HomePage.ViewportTracker.SetViewportHeight` | app/page.jsx:59-69 | the ref and the three CSS properties become the resize of the old values; the ref never decreases and the offset lies in [0, 220] |
| `HomePage.EmojiBurstSides` | app/page.jsx:105-117 | a burst has exactly 100 emojis, indices 0-49 from the left and 50-99 from the right |
| `HomePage.BurstLayoutSplit` | app/page.jsx:106-117 | such a burst has 50 emojis on each side |
| `HomePage.ScrollStep` | app/page.jsx:158-170 | a small viewport changes nothing; only expansion, intent and collapse time change; a collapsed modal expands exactly when scrolled past 20; an expanded one collapses exactly at scrollTop <= 2 with the intent set; both clear the intent, and a collapse records its time |
| `HomePage.Close` | app/page.jsx:138-141 | closing clears the intent, marks the modal closing and not open, and changes nothing else |
| `HomePage.FinishClose` | app/page.jsx:142-147 | the delayed step clears the project, restores theme "one", collapses, ends closing, and changes nothing else |
| `HomePage.WheelStep` | app/page.jsx:172-202 | a small viewport changes nothing; wheeling down while collapsed expands at once; wheeling up while expanded at the top or without overflow collapses and records the time; the modal closes exactly when collapsed, at scrollTop <= 0, wheeling up, more than 220 ms after the last collapse; project and theme are never touched |
| `HomePage.WheelNeverCollapsesAndCloses` | app/page.jsx:179-201 | a single wheel event never both collapses and closes the modal |
| `HomePage.WheelIntent` | app/page.jsx:192-201 | on other wheel events the intent becomes true when wheeling up at scrollTop <= 16 and false when wheeling down, otherwise stays, and a close clears it |
| `HomePage.CollapseCooldown` | app/page.jsx:158-202 | after a collapse by scroll or by wheel at time t, the next wheel event, if it comes within 220 ms, does not close the modal |
| `HomePage.NoCloseDuringCooldown` | app/page.jsx:158-202 | after a collapse at time t, no sequence of scroll and wheel events within [t, t + 220] closes the modal or changes whether it is open or closing, however often it expands and collapses again |
| `HomePage.CloseThenFinish` | app/page.jsx:138-148 | closing and its delayed step leave the modal not open, not closing, collapsed, with no project, theme "one", no intent and the last collapse time kept |
| `HomePage.OpenFromHeroSlider` | app/page.jsx:132-136 | the request is ignored while the slider is exiting or the modal is open or closing; otherwise it only starts the slider's exit, which hides the slider |
| `HomePage.OpenFromHeroSliderOnce` | app/page.jsx:132-134 | of two requests in a row, with no other step between them, the second is ignored |
| `HomePage.SettleReopensHeroRequest` | app/page.jsx:132-156 | a settle timer that fires between an accepted request and the modal's opening clears the exit flag, so a second request is accepted |
| `HomePage.OpenProjectModal` | app/page.jsx:123-125 | the chosen project and its theme are shown; nothing else changes |
| `HomePage.RevealModal` | app/page.jsx:126-129 | the animation frame opens the modal; nothing else changes |
| `HomePage.HeroSliderOpensProject` | app/page.jsx:123-136 | an accepted request from the slider ends with the chosen project and theme in an open modal, with the slider hidden behind an overlay |
| `HomePage.SyncSmallViewport` | app/page.jsx:81-86 | after the effect a small viewport never has an expanded modal; collapsing this way clears the intent; otherwise nothing changes |
| `HomePage.SettleHeroSlider` | app/page.jsx:150-156 | with no loader, overlay or open modal, the timer clears the exit flag whatever the viewport, so the slider is visible exactly on a wide viewport; otherwise it changes nothing |
| `HomePage.SliderReturnsAfterClose` | app/page.jsx:138-156 | once the modal is closed and cleaned up with no other overlay, the settle timer brings the slider back exactly on a wide viewport |
| `HomePage.Home.constructor` | app/page.jsx:20-41 | the page starts with no project, modal closed, theme "one", language "bg", the loader showing and no burst |
| `HomePage.Home.ToggleLanguage` | app/page.jsx:236 | the language field becomes the switched language; nothing else changes |
| `HomePage.Home.HandleModalScroll` | app/page.jsx:158-170 | the modal fields become the scroll step of the old ones; nothing outside the modal changes |
| `HomePage.Home.HandleModalWheel` | app/page.jsx:172-202 | the modal fields become the wheel step of the old ones; nothing outside the modal changes |
| `HomePage.Home.CloseProjectModal` | app/page.jsx:138-141 | the modal fields become the closed ones; nothing outside the modal changes |
| `HomePage.Home.FinishCloseProjectModal` | app/page.jsx:142-147 | the modal fields are reset as by the delayed step; nothing outside the modal changes |
| `HomePage.Home.OpenProjectFromHeroSlider` | app/page.jsx:132-136 | the page becomes the guarded step of the old page |
| `HomePage.Home.OpenProject` | app/page.jsx:123-125 | the project and theme fields are set; nothing outside the modal changes |
| `HomePage.Home.RevealProjectModal` | app/page.jsx:126-129 | the modal opens and the burst becomes 100 emojis split 50/50 left and right |
| `HomePage.Home.OnViewportChange` | app/page.jsx:50-56 | the small-viewport flag follows the media query; nothing else changes |
| `HomePage.Home.SyncViewportEffect` | app/page.jsx:81-86 | the page becomes the synchronised page |
| `HomePage.Home.SettleHeroSliderTimer` | app/page.jsx:150-156 | the page becomes the settled page |
| `HomePage.Home.ClearBurst` | app/page.jsx:119-120 | the burst is emptied 5 s later; the page state is untouched |

## Left out

- Rendering is not modelled: the DOM, framer-motion animations, the WebGL background, the Magnet effect, and the other overlays' own components. Only the state that the modelled handlers read and write is kept.
- The random fields of each emoji (id, emoji, delay, rotation, scale) are nondeterministic and not modelled. The burst keeps only the side of each emoji.
- `request.json()`, `process.env` and the `fetch` to the mail provider are I/O. They are inputs of `ContactRoute.Post`: a parsed payload or a parse failure, three optional configuration strings, and a delivered, refused or throwing provider. The request's headers, the `edge` runtime setting and the outgoing request's `Authorization: Bearer` and `Content-Type` headers (`route.js:48-51`) are not modelled; `ContactRoute.Mail` holds only the JSON body's fields.
- The JavaScript regular-expression engine is not modelled. The email check is a hand-written scanner, proved equivalent to the pattern's language.
- Heights, scroll positions, wheel deltas and times are integers. Browsers report some of them as fractional numbers, and `NaN` is not modelled.
- Timers, `Date.now()` and `requestAnimationFrame` are not modelled as time. The current time is a parameter, and each delayed callback is a separate step; the 360 ms, 450 ms, 80 ms and 5 s delays are therefore not represented. The model also does not capture a timer that an effect's clean-up cancels.
- The controls-reveal timers (`page.jsx:88-103`) and the slider's pointer parallax and hover offset (`HeroProjectSlider.jsx:8-29, 95-116`) are not modelled. They are animation values that no modelled decision reads.
- The step functions take React's snapshot reading. Several handlers firing against the same stale snapshot before a re-render are not modelled separately.
- `HeroSlider.Apply` ignores the `disabled` attribute of the Next and Previous buttons (`HeroProjectSlider.jsx:168-173`). The model therefore over-approximates: it lets Next be clicked with an empty project list, which gives index -1 as `NextIndex` computes. The source cannot reach that state, because the button is disabled and there is no card to wheel on. The range invariant `HeroSlider.InRange` therefore only constrains non-empty lists.
- The documentation describes a scroll-progress reveal engine for the page. No such code exists in the files modelled, so it is not part of this model.
- The documentation requires "at least 5 characters" for a message. The code compares `message.length`, which counts UTF-16 code units. The model follows the code (`ContactRoute.Utf16Length`), so a message of three characters outside the Basic Multilingual Plane passes.
- JavaScript strings are sequences of UTF-16 code units and may hold unpaired surrogates. Dafny's `char` is a Unicode scalar value, so the model cannot represent a field that contains one.
- The guard against a second request from the hero slider (`page.jsx:133`) tests the exit flag, the open flag and the closing flag. Between an accepted request and the modal's opening only the exit flag is set, so it alone blocks a second request. The model reproduces the window in which a settle timer clears that flag before the modal opens (`HomePage.SettleReopensHeroRequest`). It does not model which timers can be pending at that moment.

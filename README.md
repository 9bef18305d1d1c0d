# Echo Ridge Retreat site scripts, modelled in Dafny

The Echo Ridge Retreat site runs two browser scripts on every page.

- `js/main.js` drives the mobile menu: the toggle button, Escape, outside clicks and the Tab focus trap. It also marks the navigation link of the current page and runs the contact form's character counter. The contact form has an inquiry pre-fill and a submit handler that checks six fields.
- `js/analytics.js` pushes Google Analytics 4 event records onto `dataLayer`. It has record builders with default values, page-path gates for the two thank-you pages, and three fire-once latches: scroll-depth thresholds, form start, and image view.

This project models the decision logic and the latched state of both scripts, with the DOM abstracted to plain values:

| file | module | what it holds |
|---|---|---|
| `js.dfy` | `Js` | attribute reads that may be null; JavaScript truthiness of `a \|\| b`; `trim`; the `\s` class; `.length` in UTF-16 code units |
| `contact_validation.dfy` | `ContactValidation` | the six per-field checks and their messages; the email pattern, proved equal to a reference reading of the regular expression |
| `contact_form.dfy` | `ContactForm` | the contact form as a class: pre-fill, clearing of custom validity, the six checks, the `hasError` gate, the submit button, the error class |
| `menu.dfy` | `MobileMenu` | the menu as a class: `aria-expanded`, the two navigation classes, focus, and the four listeners |
| `page.dfy` | `Page` | active-link marking over a sequence of link objects; the character counter |
| `analytics_events.dfy` | `AnalyticsEvents` | the event records and the pure builders with their defaults and gates |
| `analytics_tracker.dfy` | `AnalyticsTracker` | `PageTracker`, which holds the data layer and the latches; each listener is a method on it; lemmas cover whole runs of events |

Browser inputs become parameters:
- a field's value;
- the phone input's native validity;
- whether a click target lies inside the navigation;
- the integer scroll percent;
- the page path and query parameters;
- `parseFloat`, as a function parameter.

## Model

| member | source | states |
|---|---|---|
| Js.Trim | js/main.js:194 | `trim` neither starts nor ends its result with white space, never lengthens, and leaves a string without white space at its ends unchanged |
| Js.TrimIsSlice | js/main.js:194 | what `trim` keeps is one contiguous slice of the input, with only white space before and after it |
| Js.Utf16Length | js/main.js:135 | `.length` counts between one and two code units per character |
| Js.Utf16LengthOfBmp | js/main.js:135 | without astral characters, `.length` is the number of characters |
| ContactValidation.EmailPatternSound | js/main.js:203-204 | every string the split-at-first-"@" test accepts matches `^[^\s@]+@[^\s@]+\.[^\s@]+$` as the regular expression reads |
| ContactValidation.EmailPatternComplete | js/main.js:203-204 | every string the regular expression matches passes the split-at-first-"@" test |
| ContactValidation.EmailPatternIsRegex | js/main.js:203-204 | the email test accepts exactly the language of the regular expression |
| ContactValidation.EmailAcceptsExample | js/main.js:202-210 | "a@b.com" passes the email pattern |
| ContactValidation.EmailRejectsExamples | js/main.js:202-210 | "a@b", "plain" and "a@.com" fail the email pattern |
| ContactValidation.EmailRejectsSecondAt | js/main.js:202-210 | "a@b@c.com", with a second "@", fails; EmailPatternIsRegex gives the general fact |
| ContactValidation.EmailRejectsSpace | js/main.js:202-210 | "a b@c.com", holding a space, fails; EmailPatternIsRegex gives the general fact |
| ContactValidation.LengthChecksOnPlainText | js/main.js:194-229 | on text without surrounding white space or astral characters, the name fails exactly below 2 characters and the message exactly below 20 |
| ContactValidation.PaddingDoesNotCount | js/main.js:194-229 | for any text, including text already padded with white space, a leading space and a trailing newline never change the name or message verdict |
| ContactValidation.NameExamples | js/main.js:194-199 | "Jo" passes the name check; "J" and a name of three spaces fail |
| ContactValidation.MessageExamples | js/main.js:229-234 | a twenty-character message passes and a nineteen-character one fails |
| ContactForm.Failing | js/main.js:191-242 | only present fields can fail |
| ContactForm.InFailing | js/main.js:193-242 | a field is in the failing set exactly when its own check fails |
| ContactForm.FailingFields | js/main.js:193-242 | field by field, the failure condition: a name or message too short once trimmed; a non-empty email off the pattern; a non-empty, natively invalid phone; an empty inquiry type; unchecked consent; an absent field never fails |
| ContactForm.ValidityAfterSubmit | js/main.js:186-242 | after a submit, exactly the present fields carry a custom validity |
| ContactForm.ValidityAfterSubmitMessages | js/main.js:186-242 | after a submit, every failing field carries its own message, whatever the others did, and every passing present field carries "" |
| ContactForm.ValidityAfterChecks | js/main.js:193-242 | the custom validities after the first `n` checks are keyed by exactly the present fields |
| ContactForm.ValidityAfterChecksAt | js/main.js:193-242 | after the first `n` checks, a field has its message exactly when its check has run and failed, else "" |
| ContactForm.CheckStep | js/main.js:193-242 | each check adds its field's message and its field to those found failing exactly when the field fails, and changes nothing otherwise |
| ContactForm.FailingBeforeMembers | js/main.js:193-242 | the first `n` checks have found a field exactly when it fails and is among them |
| ContactForm.FailingBeforeAll | js/main.js:193-242 | once all six checks have run, every failing field has been found |
| ContactForm.Cleared | js/main.js:187-189 | clearing leaves exactly the present fields with an empty message |
| ContactForm.ErrorMessage | js/main.js:195-238 | every field's custom message is non-empty, so a failing field never reads as valid |
| ContactForm.ErrorMessagesDistinct | js/main.js:195-238 | the six messages are pairwise different: each failing field's message names its own check |
| ContactForm.Sending | js/main.js:245-251 | a present submit button becomes disabled and reads "Sending..."; an absent one stays absent |
| ContactForm.IsInquiryKind | js/main.js:161-175 | the if-chain accepts exactly the seven inquiry kinds |
| ContactForm.ValidFormSubmits | js/main.js:191-251 | a form with no phone field, a name of at least 2 and a message of at least 20 characters (each without white space at its ends or astral characters), an empty or well-formed email, a chosen inquiry type and consent given has no failing field |
| ContactForm.ChecksAreIndependent | js/main.js:193-242 | changing one field's value changes no other field's verdict |
| ContactForm.FieldIndex | js/main.js:187 | every field has its place in the order in which the handler visits the fields |
| ContactForm.Form.constructor | js/main.js:151-153 | a loaded form holds its values and button, every present field's validity empty and no error class |
| ContactForm.Form.PrefillInquiry | js/main.js:159-176 | the inquiry select takes the parameter exactly when the select exists and the parameter is one of the seven kinds; otherwise nothing changes |
| ContactForm.Form.OnInvalid | js/main.js:256-258 | an `invalid` event adds the field's error class |
| ContactForm.Form.OnInput | js/main.js:260-262 | an `input` event removes the field's error class |
| ContactForm.Form.ClearValidity | js/main.js:187-189 | every present field's custom validity becomes "" |
| ContactForm.Form.ApplyCheck | js/main.js:193-199 | one check advances the submit state by exactly one field: its message, its error class and `hasError` |
| ContactForm.Form.FirstChecks | js/main.js:193-218 | the name, email and phone checks leave the state of the first three checks; the phone's `validity.valid` is its native validity, since its custom message was just cleared |
| ContactForm.Form.LastChecks | js/main.js:220-242 | the inquiry, message and consent checks complete the state of all six checks |
| ContactForm.Form.Submit | js/main.js:178-252 | submission is prevented exactly when some check fails; each failing field has its message and the error class; every other present field has ""; the button is changed only when nothing failed |
| MobileMenu.TabTrap | js/main.js:56-73 | while the menu is expanded, Shift+Tab on the first focusable element wraps to the last and Tab on the last wraps to the first; any other key, a collapsed menu or an empty navigation does nothing |
| MobileMenu.DefaultTab | js/main.js:56-73 | the browser's own Tab move goes to the next element (Shift+Tab: the previous one) and leaves the navigation exactly past its first or last element |
| MobileMenu.FocusStaysInside | js/main.js:56-73 | while the menu is expanded, Tab and Shift+Tab from inside the navigation always land inside it |
| MobileMenu.CollapsedTabLeaves | js/main.js:56-73 | while the menu is collapsed, focus can Tab out of either end |
| MobileMenu.Menu.constructor | js/main.js:12-15 | the menu as the page loads holds the markup's `aria-expanded`, classes and focus |
| MobileMenu.Menu.Collapse | js/main.js:36-38 | collapsing sets `aria-expanded="false"`, adds `hide-mobile` and removes `show-mobile` |
| MobileMenu.Menu.OnToggleClick | js/main.js:17-31 | a toggle click flips the expanded state, writing "true" or "false", and leaves the classes consistent with it |
| MobileMenu.Menu.OnDocumentKeyDown | js/main.js:34-41 | Escape on an expanded menu collapses it and focuses the toggle; anything else changes nothing |
| MobileMenu.Menu.OnDocumentClick | js/main.js:44-53 | a click outside the navigation and the toggle collapses an expanded menu; any other click changes nothing |
| MobileMenu.Menu.ClickToggle | js/main.js:17-53 | a click on the toggle, after bubbling to the document listener, still flips the state |
| MobileMenu.Menu.OnNavKeyDown | js/main.js:56-73 | the navigation keydown listener prevents the default and moves focus exactly as the trap says, and otherwise leaves focus alone |
| Page.CurrentMark | js/main.js:119-123 | a link gets `aria-current="page"` exactly when its path is the current path |
| Page.MarkActiveLinks | js/main.js:116-124 | afterwards every link's `aria-current` is "page" on a link to the current path and absent on every other link |
| Page.WarningBoundary | js/main.js:134-144 | without astral characters, the warning shows exactly above 1900 characters; it always shows above 1900 and never at or below 950 |
| Page.CharCounter.OnInput | js/main.js:134-144 | the counter shows the value's UTF-16 length and warns exactly when that exceeds 1900 |
| AnalyticsEvents.CtaClick | js/analytics.js:30-37 | a cta_click record with exactly the parameters event_category "engagement", event_label the trimmed text, and destination: `href` when non-empty, else `data-destination`, else null |
| AnalyticsEvents.SocialClick | js/analytics.js:51-58 | a social_click record with exactly the parameters event_category "engagement", event_label the platform (or "unknown" when missing or empty), and destination the raw `href` (null when missing) |
| AnalyticsEvents.NumberOrZero | js/analytics.js:78 | `parseFloat(x) \|\| 0` is 0 for NaN and otherwise the parsed number |
| AnalyticsEvents.BeginCheckout | js/analytics.js:72-85 | a begin_checkout record with exactly the parameters event_category "ecommerce", currency "GBP", value and items; items holds exactly one item of quantity 1, whose price is the value; the amount defaults to "0" and product and category to "donation" |
| AnalyticsEvents.MissingAmountIsFree | js/analytics.js:72-82 | with no amount attribute, or an empty one, the checkout is worth 0 |
| AnalyticsEvents.PurchaseRecords | js/analytics.js:95-108 | a purchase record is emitted exactly on "/thank-you.html" with a non-empty session_id; its parameters are exactly event_category "ecommerce", transaction_id the session id, and currency "GBP" |
| AnalyticsEvents.SuccessRecords | js/analytics.js:151-158 | form_submit_success is emitted exactly on "/thank-you-contact.html", with exactly the parameters event_category "engagement" and event_label "contact" |
| AnalyticsEvents.PageLoadRecords | js/analytics.js:95-158 | a page load emits at most the purchase and the success record |
| AnalyticsEvents.PageLoadEmitsAtMostOne | js/analytics.js:95-158 | the two path gates exclude each other: a page load emits at most one record, and exactly one when it is on "/thank-you.html" with a non-empty session_id or on "/thank-you-contact.html" |
| AnalyticsEvents.FormLabel | js/analytics.js:122 | the form's name when non-empty, and "unnamed_form" when the name is missing or empty |
| AnalyticsEvents.FormStart | js/analytics.js:122-127 | a form_start record with exactly the parameters event_category "engagement" and event_label the form label |
| AnalyticsEvents.FormSubmit | js/analytics.js:136-144 | a form_submit record with exactly the parameters event_category "engagement", event_label the form label, and inquiry_type: the inquiry element's value (even ""), "unknown" only when there is no such element |
| AnalyticsEvents.NavigationClick | js/analytics.js:168-175 | a navigation_click record with exactly the parameters event_category "navigation", event_label the trimmed text, and destination the raw `href` (null when missing) |
| AnalyticsEvents.ImageView | js/analytics.js:190-195 | an image_view record with exactly the parameters event_category "engagement" and event_label: `data-title` when non-empty, else `alt`, else null |
| AnalyticsEvents.ScrollDepth | js/analytics.js:228-231 | a scroll_depth record with exactly the parameters event_category "engagement" and event_label the depth followed by "%" |
| AnalyticsTracker.ScrollUpTo | js/analytics.js:226-236 | partway through the threshold loop, the flag map keeps its keys and only thresholds have fired |
| AnalyticsTracker.ScrollPass | js/analytics.js:221-237 | one scroll pass keeps the flag map's keys and fires only thresholds |
| AnalyticsTracker.ScrollRecordsMatch | js/analytics.js:228-231 | the records are one scroll_depth record per fired threshold, in the same order, labelled with that threshold |
| AnalyticsTracker.ScrollFlagAfter | js/analytics.js:227-233 | after the loop, a flag is set exactly when it was set before, or its threshold was visited and reached |
| AnalyticsTracker.ScrollFired | js/analytics.js:226-235 | the loop fires exactly the visited thresholds that `p` reaches and whose flag was false |
| AnalyticsTracker.FiredBelow | js/analytics.js:226 | what the first `n` steps fired lies below the next threshold |
| AnalyticsTracker.ScrollFiredAscending | js/analytics.js:226 | thresholds fire in ascending order |
| AnalyticsTracker.ScrollPassEmits | js/analytics.js:222-236 | a scroll at percent `p` emits exactly the unfired thresholds up to `p`, ascending, labelled depth + "%"; afterwards every threshold up to `p` is flagged and no other flag changes |
| AnalyticsTracker.ScrollExample | js/analytics.js:214-236 | from a fresh page, a scroll to 60% fires 25 then 50 |
| AnalyticsTracker.ReachedStep | js/analytics.js:221-227 | a run of scrolls reaches a threshold exactly when its first scroll or the rest of it does |
| AnalyticsTracker.ScrollRun | js/analytics.js:221-237 | the thresholds fired over a sequence of scroll events, one pass per event with the flags carried over, are all thresholds |
| AnalyticsTracker.ScrollFiresWhenReached | js/analytics.js:214-237 | over any sequence of scroll events, a threshold fires exactly when its flag started false and some scroll reached it |
| AnalyticsTracker.FiredOnceThenSilent | js/analytics.js:227-233 | a threshold the first scroll fires is never fired again by the rest of the run |
| AnalyticsTracker.ScrollFiresOnce | js/analytics.js:214-237 | over any sequence of scroll events, no threshold fires twice |
| AnalyticsTracker.ScrollFlagsOnlyRise | js/analytics.js:227-233 | a set flag stays set |
| AnalyticsTracker.LatchedFormIsSilent | js/analytics.js:121-129 | once latched, a form emits no further form_start |
| AnalyticsTracker.FormStartCount | js/analytics.js:118-132 | over a sequence of focus events, a form emits at most one form_start per event, each by the step OnFormFocus takes |
| AnalyticsTracker.FormStartOnce | js/analytics.js:118-132 | a form emits form_start at most once, and exactly once when it was unlatched and some focus targets an input, select or textarea |
| AnalyticsTracker.ImageViewsAsWritten | js/analytics.js:187-202 | as written, one batch emits at most one view per entry |
| AnalyticsTracker.ImageViewedTwiceAsWritten | js/analytics.js:187-202 | as written, a batch with two intersecting entries emits two image_view records |
| AnalyticsTracker.ImageViews | js/analytics.js:187-202 | under the one-shot intent, a batch emits one view exactly when the image is observed and some entry intersects |
| AnalyticsTracker.ImageViewRun | js/analytics.js:187-207 | over a sequence of callback batches with the one-shot callback, an image emits at most one view per batch |
| AnalyticsTracker.ImageViewedOnce | js/analytics.js:187-207 | with the one-shot callback, an image is viewed at most once, and exactly once when it is observed and some batch reports it intersecting |
| AnalyticsTracker.PageTracker.constructor | js/analytics.js:214-219 | a page load starts with an empty data layer, every threshold and form flag false, and every image observed |
| AnalyticsTracker.PageTracker.Emit | js/analytics.js:8-9 | `gtag` appends exactly its record to the data layer |
| AnalyticsTracker.PageTracker.OnCtaClick | js/analytics.js:29-37 | a CTA click appends exactly its cta_click record |
| AnalyticsTracker.PageTracker.OnSocialClick | js/analytics.js:50-58 | a social click appends exactly its social_click record |
| AnalyticsTracker.PageTracker.OnCheckoutClick | js/analytics.js:71-85 | a checkout click appends exactly its begin_checkout record |
| AnalyticsTracker.PageTracker.OnNavigationClick | js/analytics.js:167-175 | a navigation click appends exactly its navigation_click record |
| AnalyticsTracker.PageTracker.OnPageLoad | js/analytics.js:95-158 | the page-load handler appends exactly the gated purchase and success records, in script order |
| AnalyticsTracker.PageTracker.OnScroll | js/analytics.js:221-237 | a scroll appends exactly the pass's records and leaves the pass's flags, with a flag still kept for every threshold |
| AnalyticsTracker.PageTracker.OnFormFocus | js/analytics.js:120-132 | a focus on a field of an unlatched form appends one form_start and latches that form; any other focus changes nothing |
| AnalyticsTracker.PageTracker.OnFormSubmit | js/analytics.js:135-147 | every submit appends its form_submit record, with no latch |
| AnalyticsTracker.PageTracker.OnImageEntriesAsWritten | js/analytics.js:187-202 | as written, a batch on an observed image appends one image_view per intersecting entry, and the image ends unobserved exactly when some entry intersects; other images are untouched |
| AnalyticsTracker.PageTracker.OnImageEntries | js/analytics.js:187-202 | the corrected one-shot callback: a batch on an observed image appends one image_view exactly when some entry intersects, and then stops observing it; other images are untouched |

## Left out

- Finding DOM elements and registering listeners is not modelled. Each listener is a method over the values it reads.
- Smooth scrolling of anchor links (js/main.js:80-105) is not modelled. It is browser behaviour with no decision beyond `href === '#'`.
- The lazy-loading fallback (js/main.js:271-293) and the print buttons (js/main.js:300-305) are not modelled. Both are foreign browser calls.
- The scroll percent's floating-point computation with `Math.round` (js/analytics.js:222-224) is not modelled. `OnScroll` takes the integer percent.
- The scroll flags are keyed by their integer values (`parseInt` of '25', '50', '75', '100') rather than by the strings.
- `parseFloat` is a parameter returning `None` for NaN. Infinity and the parser's own rules are not modelled.
- The menu toggle and focus-trap guard (js/main.js:15) is not modelled. The model assumes both elements exist. The focusable elements are given by their count, in document order.
- `new URL(...).pathname` and `URLSearchParams` are not modelled. Paths and parameters are inputs.
- The phone field's native `validity.valid` is a boolean input, apart from the custom message, which the model tracks.
- `reportValidity`'s UI is not modelled. Only its effect is: the `invalid` event and the error class.
- The GA4 collector, `gtag('js', ...)` and `gtag('config', ...)` (js/analytics.js:10-16), and every `console.log` are not modelled. The data layer holds only event records.
- IntersectionObserver is not modelled. An image's callbacks are given as batches of entries, each saying whether the image intersects. An unobserved image receives no batch.
- Page.CharCounter.OnInput: the counter's `textContent` is modelled as the number shown, not its decimal string.
- ContactForm.Form.PrefillInquiry: the pre-fill assigns the select's value directly. Whether the page offers that option is not modelled.
- AnalyticsTracker.PageTracker: the form names and images are fixed at page load. Forms and images added later are not modelled.
- MobileMenu.DefaultTab: the browser's Tab order inside the navigation is taken to be exactly the `a[href], button:not([disabled])` elements in document order. Other focusable elements inside the navigation and positive `tabindex` values are not modelled, and FocusStaysInside rests on this.
- Strings are sequences of Unicode scalar values. Lone UTF-16 surrogates, which a JavaScript string may hold, cannot be represented.
- AnalyticsTracker.PageTracker.OnImageEntries: it implements the intended one-shot callback, not the code as written. OnImageEntriesAsWritten models the code as written (see "## Findings").
- ContactForm.Form.Submit: the model assumes every submission reaches the handler. Unless the form has `novalidate`, the browser's own constraint validation runs before `submit` fires. It sees the custom messages a blocked attempt left behind, because those are cleared only inside the handler (js/main.js:187-189); the `input` listener (js/main.js:260-262) removes only the error class. Whether the form has `novalidate` depends on the page markup, which is not part of this model.

## Findings

| source | as written | input that shows it | evidently intended | confidence | as-written member | corrected member |
|---|---|---|---|---|---|---|
| js/analytics.js:187-202 | the callback's `forEach` goes on after `observer.unobserve(image)`, so every intersecting entry of one batch emits image_view | one batch of two entries that both report `isIntersecting` (the image crosses the 50% threshold upwards and back down while still partly visible, before the callback runs) gives two image_view records | "Unobserve after tracking once": at most one image_view per image and page load | medium, not executed | AnalyticsTracker.ImageViewedTwiceAsWritten, AnalyticsTracker.PageTracker.OnImageEntriesAsWritten | AnalyticsTracker.ImageViewedOnce, AnalyticsTracker.PageTracker.OnImageEntries |

# Verified model of the site's interactive logic

The site is a marketing website for a food-products company. Almost all of it
is layout. This project models in Dafny the three pieces that carry logic, and
proves what they promise:

- **The hero carousel** (`components/HeroCarousel.tsx`), module `Carousel` in
  `carousel.dfy`.
  - A `Navigator` class holds the fixed `images` list and the `index` state, here
    called `cursor`.
  - Its methods are the arrow buttons and the drag release (`navigate`), the click
    on a side item and the click on a dot.
  - Pure functions cover the rest: the wrap-around updater `NextIndex`, the signed
    circular distance `getDistance` (`Distance`), and the per-distance slot table
    (`SlotStyle`), with lemmas about each.
- **The carousel's input** (`components/HeroSection.tsx`), module `HeroSection`
  in `hero_section.dfy`.
  - It flattens every brand's packaging images into `{id, url, alt}` records.
  - It proves the length, the order, the id and alt formats, and that the empty-list
    guard is redundant.
  - It proves that ids are distinct when brand names are, which matters because the
    ids are React keys.
- **The contact form** (`pages/ContactPage.tsx`), module `Contact` in
  `contact.dfy`.
  - `Validate` is the error map `validate()` builds. The email regular expression
    `/\S+@\S+\.\S/` is written as a predicate, with an equivalent local
    characterisation.
  - A `ContactForm` class holds the five pieces of page state. Its methods are
    `handleChange`, `handleSubmit` (split at the relay call), the settling of that
    call, and the dismissal of the thank-you panel.
- Module `JsString` (`jsstring.dfy`) holds the JavaScript primitives the rest
  relies on.
  - The whitespace class that `String.prototype.trim` and the regular-expression
    escapes `\s`/`\S` share: the ECMAScript WhiteSpace and LineTerminator code
    points.
  - `trim`.
  - The decimal rendering of a non-negative integer in a template literal.

The mail relay (`emailjs.sendForm`) and the build-time settings (`import.meta.env`)
are inputs to the model:

- The settings are a `Config` of three optional strings.
- The relay call is returned by `Submit` as a `SendRequest`.
- The relay's answer arrives later as a `SendOutcome` passed to `SendSettled`.
- The 6000 ms timer firing is the `DismissSubmitted` event. So is the "Send
  another message" button.

Visual numbers are integers:

- scale and opacity in hundredths;
- the x offset in percent;
- rotateY in degrees;
- blur in pixels;
- drag offsets in whole pixels.

`length / 2`, compared in floating point, becomes `2 * diff > n`.

Three points about the code that are easy to misread:

- `navigate` is not general modular addition. A result below 0 wraps to `N - 1`
  and one at or past `N` wraps to 0. For the directions ±1 that the code uses,
  this equals `(cursor + direction) mod N` (`NextIndexIsModular`).
- Items beyond distance ±2 are still rendered. They keep the default style:
  z 0, x 0%, scale 0.6, opacity 0, rotateY 0, blur 4px (`Hidden`).
- Besides position, scale, opacity and depth, the slot table also sets rotateY
  (±15 degrees for the near items) and blur (0, 2 and 5 px). The model includes both.

## Model

| member | source | states |
|---|---|---|
| Carousel.NextIndex | components/HeroCarousel.tsx:41-49 | the updater always returns an index in [0, n) |
| Carousel.NextIndexIsModular | components/HeroCarousel.tsx:43-47 | for direction +1 or -1, the wrapped step equals (prev + direction) mod n |
| Carousel.NavigateInverse | components/HeroCarousel.tsx:41-49 | a step forward then back, or back then forward, restores the cursor |
| Carousel.Advance | components/HeroCarousel.tsx:186-187 | k presses of the right arrow keep the cursor in [0, n) |
| Carousel.AdvanceIsModular | components/HeroCarousel.tsx:41-49 | k forward steps move the cursor to (c + k) mod n |
| Carousel.FullTurn | components/HeroCarousel.tsx:41-49 | n forward steps return to the starting image |
| Carousel.Distance | components/HeroCarousel.tsx:53-63 | the distance lies in [-n/2, n/2] (as 2·d) and is the difference itself or the difference shifted by ±n |
| Carousel.SlotStyle | components/HeroCarousel.tsx:75-120 | the per-distance if / else-if chain over the defaults of lines 75-80; no contract of its own, its properties are `SlotMirror`, `SlotLayers`, `SlotDepthOrder` and `ExactlyOneCentre` |
| Carousel.DistanceCongruent | components/HeroCarousel.tsx:53-63 | the distance is congruent to itemIndex - cursor modulo n |
| Carousel.AtMostOneAdjustment | components/HeroCarousel.tsx:59-60 | the second adjustment never fires after the first: the two ifs act as if / else if |
| Carousel.DistanceZeroIff | components/HeroCarousel.tsx:53-63 | the distance is 0 exactly when the item is the cursor |
| Carousel.DistanceAntisymmetric | components/HeroCarousel.tsx:53-63 | swapping item and cursor negates the distance |
| Carousel.DistanceShortest | components/HeroCarousel.tsx:57-60 | no representative i - c + m·n of the same class mod n has a smaller absolute value |
| Carousel.DistanceInjective | components/HeroCarousel.tsx:53-63 | for a fixed cursor, distinct items have distinct distances, so no two share a slot |
| Carousel.SlotMirror | components/HeroCarousel.tsx:75-120 | the style for -d is the style for d with x offset and rotateY negated and all else equal |
| Carousel.SlotLayers | components/HeroCarousel.tsx:75-120 | z 20 exactly at 0, z 10 exactly at ±1, z 5 exactly at ±2; opacity is positive exactly for -2..2; all other distances get the default style |
| Carousel.SlotDepthOrder | components/HeroCarousel.tsx:75-120 | among visible items, one nearer the centre is higher, larger, more opaque and less blurred |
| Carousel.Layout | components/HeroCarousel.tsx:68-69 | the render loop styles exactly n items |
| Carousel.ExactlyOneCentre | components/HeroCarousel.tsx:82-89 | exactly one item, the cursor's, has z 20; it gets scale 1.1, opacity 1 and no blur; every other item is less than fully opaque |
| Carousel.Dots | components/HeroCarousel.tsx:193-201 | one indicator per image |
| Carousel.ExactlyOneActiveDot | components/HeroCarousel.tsx:197 | exactly one dot, the cursor's, satisfies `idx === index` |
| Carousel.Navigator.constructor | components/HeroCarousel.tsx:37 | a new carousel keeps its images and starts at index 0 |
| Carousel.Navigator.ItemStyle | components/HeroCarousel.tsx:68-120 | the style the render gives item idx is the slot of its distance from the cursor; it is on top (z 20) exactly when it is the cursor's item, and then it has the centre style |
| Carousel.Navigator.Navigate | components/HeroCarousel.tsx:41-49 | the cursor becomes the wrapped step and stays in range |
| Carousel.Navigator.ClickItem | components/HeroCarousel.tsx:141-147 | clicking item idx leaves the cursor on idx, so that item gets the centre style; the computed direction has no effect |
| Carousel.Navigator.ClickDot | components/HeroCarousel.tsx:196-197 | clicking dot idx sets the cursor to idx, item idx gets the centre style, and exactly dot idx is active |
| Carousel.Navigator.DragEnd | components/HeroCarousel.tsx:152-159 | an offset below -100 steps forward, above 100 steps back, and anything in between leaves the cursor unchanged |
| Carousel.DragExamples | components/HeroCarousel.tsx:152-159 | on five images a -150 px release moves to index 1 and a 40 px release stays at 0 |
| Carousel.WrapExamples | components/HeroCarousel.tsx:45-46 | on five images, back from 0 gives 4 and forward from 4 gives 0 |
| HeroSection.BrandImages | components/HeroSection.tsx:14-18 | the inner map yields one record per packaging URL |
| HeroSection.ImageId | components/HeroSection.tsx:15 | the template literal `brand-${name}-${idx}`; `ImageIdInjective` states what it determines |
| HeroSection.ImageAlt | components/HeroSection.tsx:17 | the template literal `${name} Rice ${idx + 1}`, counting from one |
| HeroSection.Entry | components/HeroSection.tsx:14-18 | the `{id, url, alt}` record for URL idx of a brand; `CarouselImageAt` places it in the list |
| HeroSection.GuardedImages | components/HeroSection.tsx:13-19 | the `flatMap` callback yields one record per packaging URL, record k being URL k's entry, and none for a brand without images |
| HeroSection.CarouselImages | components/HeroSection.tsx:10-21 | the guarded flatMap over the brands; `CarouselImagesLength`, `CarouselImageAt`, `CarouselImageOrigin`, `GuardIsRedundant` and `CarouselIdsDistinct` state its properties |
| HeroSection.GuardIsRedundant | components/HeroSection.tsx:13-19 | the conditional on an empty URL list gives the same list as an unconditional map |
| HeroSection.CarouselImagesLength | components/HeroSection.tsx:10-21 | the carousel list has one entry per packaging image over all brands |
| HeroSection.EmptyBrandContributesNothing | components/HeroSection.tsx:13-19 | a brand without packaging images adds no entries wherever it stands |
| HeroSection.CarouselImageAt | components/HeroSection.tsx:12-18 | entry k of brand b sits right after the entries of all earlier brands and carries url packagingImageUrls[k], id `brand-<name>-<k>` and alt `<name> Rice <k+1>` |
| HeroSection.CarouselImageOrigin | components/HeroSection.tsx:12-18 | every entry is entry k of some brand b at that offset, so the list holds nothing else |
| HeroSection.ImageIdInjective | components/HeroSection.tsx:15 | the id determines both the brand name and the index |
| HeroSection.CarouselIdsDistinct | components/HeroSection.tsx:15 | with distinct brand names all ids in the list differ, as their use as keys at components/HeroCarousel.tsx:125 needs |
| HeroSection.MountCarousel | components/HeroSection.tsx:97 | the carousel receives exactly that list, whose length is the total image count, and starts at index 0 |
| JsString.TrimStart | pages/ContactPage.tsx:47 | the result is no longer than the input and does not start with whitespace |
| JsString.TrimEnd | pages/ContactPage.tsx:47 | the result is no longer than the input and does not end with whitespace |
| JsString.TrimStartRemovesSpacePrefix | pages/ContactPage.tsx:47 | trimming the front keeps a suffix of the input and removes only whitespace |
| JsString.TrimEndRemovesSpaceSuffix | pages/ContactPage.tsx:47 | trimming the back keeps a prefix of the input and removes only whitespace |
| JsString.TrimStartEmptyIff | pages/ContactPage.tsx:47 | trimming the front leaves nothing exactly when every character is whitespace |
| JsString.TrimEndEmptyIff | pages/ContactPage.tsx:47 | trimming the back leaves nothing exactly when every character is whitespace |
| JsString.BlankIffAllSpace | pages/ContactPage.tsx:47 | `!s.trim()` holds exactly when every character of s is whitespace |
| JsString.IsSpace | pages/ContactPage.tsx:47-50 | the whitespace class of `trim` and `\s`: the ECMAScript WhiteSpace and LineTerminator code points |
| JsString.Trim | pages/ContactPage.tsx:47 | `s.trim()` as trimming the front, then the back; the trim lemmas above state what it removes |
| JsString.IsBlank | pages/ContactPage.tsx:47 | `!s.trim()`: the trimmed string is empty; `BlankIffAllSpace` characterises it |
| JsString.DigitChar | components/HeroSection.tsx:15 | decimal digit d is rendered as the digit character d positions after '0' |
| JsString.NatToString | components/HeroSection.tsx:15 | `${idx}` is a non-empty run of digits with no leading zero (except for 0 itself), one digit long exactly below 10; with `NatToStringValue` this fixes the rendering uniquely |
| JsString.DigitsValue | components/HeroSection.tsx:15 | the number a digit string denotes, used to state what `NatToString` means |
| JsString.NatToStringValue | components/HeroSection.tsx:15 | `${idx}` denotes idx: reading the rendered digits back gives the number |
| JsString.DigitCharInjective | components/HeroSection.tsx:15 | distinct digits are rendered as distinct characters |
| JsString.NatToStringInjective | components/HeroSection.tsx:15 | distinct numbers get distinct renderings |
| Contact.Set | pages/ContactPage.tsx:61 | `{ ...formData, [name]: value }` changes the named field and no other |
| Contact.EmailPatternTest | pages/ContactPage.tsx:50 | `/\S+@\S+\.\S/.test(email)`: some substring splits into the pattern's parts; `EmailPatternLocal` gives the equivalent shape and `EmailPatternExamples` shows it is unanchored |
| Contact.EmailPatternLocal | pages/ContactPage.tsx:50 | the unanchored pattern matches exactly when some '@' has a non-whitespace character before it, then a whitespace-free run, a '.', and a non-whitespace character |
| Contact.Validate | pages/ContactPage.tsx:45-58 | error keys lie within name, email, subject and message. Each of name, subject and message is a key exactly when it trims to nothing. Email is a key exactly when it is blank or fails the pattern on the untrimmed value. Each message text is as written |
| Contact.IsValid | pages/ContactPage.tsx:57 | `Object.keys(newErrors).length === 0`; `ValidIff` states when it holds |
| Contact.Present | pages/ContactPage.tsx:80 | a setting passes `!value` exactly when it is defined and non-empty |
| Contact.Configured | pages/ContactPage.tsx:80 | all three settings are present; `Submit` uses it to choose the configuration-missing path |
| Contact.ValidIff | pages/ContactPage.tsx:45-58 | validation passes exactly when the four required fields each hold a non-whitespace character and the email has the pattern's shape |
| Contact.AllBlankGivesFourErrors | pages/ContactPage.tsx:47-54 | with the four required fields blank, the map is exactly the four "is required" messages |
| Contact.EmailErrorCases | pages/ContactPage.tsx:48-52 | "Email is required" exactly when the email is all whitespace; "Email is invalid" exactly when it is not but fails the pattern |
| Contact.EmailPatternExamples | pages/ContactPage.tsx:50 | padding and surrounding words do not fail the unanchored test; an address without a '.' part does |
| Contact.ContactForm.constructor | pages/ContactPage.tsx:31-42 | the page starts with six empty fields, no errors, no banner and neither flag set |
| Contact.ContactForm.Change | pages/ContactPage.tsx:60-67 | only the edited field changes. A non-empty error on that field becomes "" and the other errors stay. The banner is cleared. The flags stay |
| Contact.ContactForm.Submit | pages/ContactPage.tsx:69-92 | errors become the validation map and the values stay. An invalid form makes no relay call and leaves the flags and banner. A valid form with a missing setting makes no call, shows the configuration message and ends not pending. Otherwise exactly one call with the three settings and the current values is made and the form is pending |
| Contact.ContactForm.SendSettled | pages/ContactPage.tsx:94-106 | delivery ends pending, shows the thank-you panel and empties all six fields; failure ends pending, keeps the values and shows the failure message |
| Contact.ContactForm.DismissSubmitted | pages/ContactPage.tsx:99-101 | the timer or the "Send another message" button hides the thank-you panel and changes nothing else |
| Contact.SubmitUntouchedForm | pages/ContactPage.tsx:69-71 | submitting the untouched form reports four errors and makes no relay call, whatever the settings |
| Contact.SubmitAndDeliver | pages/ContactPage.tsx:60-101 | typing a valid message with the settings present leads to one relay call with those values; after delivery the panel shows and the form is empty, and after the timer the panel is gone |

Proof helpers, which model no source line of their own:

- `Carousel.ModOfMultipleSum`: `(q·n + r) % n == r` for `0 <= r < n`.
- `Carousel.ModSucc`: how `%` behaves on `x + 1`.
- `HeroSection.OffsetStep`: one recursion step of the brand offset.
- `HeroSection.CarouselImagesAppend`: the flattened list of a concatenation of
  brand lists is the concatenation of their lists.

`ContactForm.Valid()` is kept by every method. It says that the banner only ever
holds the configuration message or the failure message, and that it is clear
while a send is pending. `Submit` requires `!isSubmitting`, because the submit
button is `disabled={isSubmitting}` (pages/ContactPage.tsx:263). `SendSettled`
requires `isSubmitting`, because only a pending relay call can settle.

## Left out

- JSX rendering, Tailwind classes and framer-motion animation are visual, not
  behavioural. This covers the spring transitions, the unused `variants` object,
  `AnimatePresence`, the cursor style and the drag constraints.
- The `inputClasses` / `focusedField` styling of the contact form is visual and
  is not modelled.
- Floating-point values become integers: scale and opacity in hundredths, drag
  offsets in whole pixels. The drag `velocity` is ignored, as the handler ignores it.
- `emailjs.sendForm` is an asynchronous network call. It becomes the returned
  `SendRequest` plus a later `SendOutcome` event. The model does not capture what
  happens if the page changes while the call is pending.
- `import.meta.env` is supplied as a `Config` of three optional strings. An absent
  or empty value counts as missing, like the `!value` test.
- `setTimeout` real time is not modelled. The timer is the `DismissSubmitted` event
  and may fire at any later point.
- `console.error` logging is I/O and is not modelled.
- The `images` prop changing size under an existing cursor is not modelled: the
  code never resets `index`. A `Navigator` keeps one fixed list.
- Carousel ids typed `string | number` are strings only, since the only caller
  passes strings.
- The form values sent by `sendForm` are read from the form element. They are
  modelled as `formData`, which the controlled inputs mirror.
- While the thank-you panel is shown the page renders no form. The model still
  allows `Change` and `Submit` in that state.
- The brand data (`RICE_BRANDS_DATA` in constants.ts) is not part of this model.
  `HeroSection` works over any `seq<Brand>`.
- The home, products, navigation bar, footer, product card, section title,
  scroll-reveal and SEO components are not modelled. They are static layout, DOM
  or router glue with no logic of their own.
- The end-to-end browser tests are not modelled.
- JavaScript strings are sequences of UTF-16 code units, while a Dafny `string` is
  a sequence of Unicode scalar values. A lone surrogate in a form field therefore
  cannot be represented. For every string that can be represented, `trim` and the
  `\S` test give the same result in both.
- Contact.ContactForm.Submit: describes `handleSubmit` whenever it runs, over every
  email string. The email input is `type="email"` (pages/ContactPage.tsx:208) and
  the form has no `noValidate`. The browser therefore blocks the submit event
  while that field holds a non-empty value that is not a valid HTML e-mail address,
  and it strips leading and trailing ASCII whitespace from the value. Neither the
  gating nor the stripping is captured. "Email is invalid" is still reachable
  through the browser, for example with `a@b`.
- Contact.SubmitAndDeliver: promises a relay call for every message that passes
  `Validate`. That includes emails such as `write to a@b.c now`, which the
  browser's `type="email"` check would stop before `handleSubmit` runs.

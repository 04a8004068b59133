# Sailhigh website: verified model of the interactive components

The site is a single-page marketing site built from React components. Most
of it renders static content. This project models the four pieces that
hold behaviour, and proves what they promise:

- **Header** (`Header.dfy`). The site header has three flags: `scrolled`,
  `mobileOpen` and `dropdownOpen`. Scroll, hamburger, mobile-link and
  dropdown-hover events change them. An effect keeps the page-wide
  `document.body.style.overflow` locked while the mobile menu is open,
  and its cleanup unlocks it. The header chrome is computed from the
  flags: whether it sits "on dark", the solid background and blur, the
  bottom border, and the aria attributes. The component is a class,
  `HeaderComponent`, whose fields are the flags, plus a `Document` object
  that holds the body overflow. Each event handler is a method. Each
  method is proved against a pure transition function, `Step` on
  `NavState`. The lemmas about `Step` and `Run` (a sequence of steps)
  carry the properties: the scroll lock always matches the menu, two
  hamburger clicks restore the state, a link click is idempotent, and the
  chrome follows `scrolled`/`mobileOpen` as the design says.
- **Solution card** (`Solutions.dfy`). A card collapses its capability
  list to the first three entries. When more exist, it shows a
  "+ N more" / "− Show less" toggle. It looks up an accent palette and an
  icon by key, with a fallback, and it shows a target-audience or note
  pill. The pure parts are functions. The one mutable flag, `expanded`,
  lives in the class `SolutionCard`.
- **Animated section** (`AnimatedSection.dfy`). The scroll-reveal wrapper
  merges a start delay into a variants object. With a zero delay it
  passes the input through unchanged. With a non-zero delay only
  `hidden` and `visible` are kept (a missing `hidden` becomes an
  `undefined` one, and any other variant is dropped); `visible` keeps all
  its keys, and its `transition` keeps every key except `delay`, which is
  overridden. Variants are modelled as maps from keys to
  JavaScript values. The once-only in-view signal is a latch over a
  sequence of intersection samples. It picks the `visible` or `hidden`
  animation target and never goes back to `hidden`.
- **Why-choose tile** (`WhyChoose.dfy`). A tile shows a two-digit ordinal
  label, `String(i + 1).padStart(2, '0')`, which is proved to round-trip
  to `i + 1`. It also has an icon lookup with a fallback, and a hover
  flag (class `WhyItem`) whose derived style choices are functions of
  that flag alone.

Two helper modules support these. `Js` models `undefined`, truthiness,
`??` and reading a key from an object literal, including the names every
object inherits from `Object.prototype`. `Decimal` models the decimal
numerals that `String(n)` and template literals produce for integers of
magnitude below 10^21 (the only ones the components format), and proves
that parsing a numeral gives the number back.

Some behaviour of the code that the model follows as written:

- Leaving a dropdown item closes the shared dropdown immediately. There
  is no close delay, and one flag serves every dropdown link.
- Unmounting the header always writes the empty overflow value. It does
  not restore whatever the page had before mounting.
- Every scroll sample calls `setScrolled(y > 60)`. React ignores a write
  of an unchanged value, so only changes of the boolean are observable.
  The model writes the flag on each sample, which gives the same result.
- A link with a `children` array renders as a dropdown even when the
  array is empty, because arrays are truthy, and even when the link is
  also highlighted.
- The pill is shown when `target || note` is truthy, but its text is
  `target ?? note`. So an empty-string `target` beside a note gives a
  pill with empty text (`Solutions.EmptyTargetHidesNote`).

## Model

| member | source | states |
|---|---|---|
| `Js.Coalesce` | components/sections/SolutionsSection.tsx:209 | `a ?? b` is `a` whenever `a` is defined (even when falsy), `b` otherwise |
| `Js.NullishLookup` | components/sections/SolutionsSection.tsx:61 | reading `table[key] ?? fallback` on an object literal: own entries win, inherited `Object.prototype` names are never `undefined` so they skip the fallback, all other keys get the fallback |
| `Js.OwnLookup` | components/sections/SolutionsSection.tsx:61 | the intended lookup: the table's entry when the key is its own, the fallback for every other key |
| `Js.LookupsAgree` | components/sections/SolutionsSection.tsx:61-62 | the JavaScript lookup and the intended one agree exactly on keys that are not inherited names missing from the table (both directions) |
| `Decimal.NatToString` | components/sections/WhyChooseSection.tsx:69 | `String(n)` for a natural number below 10^21: only digits, a single digit exactly when `n < 10`, and a leading `'0'` only for zero |
| `Decimal.IntToString` | components/sections/SolutionsSection.tsx:189 | the template-literal text of an integer of magnitude below 10^21: the numeral, with a minus sign for negatives |
| `Decimal.ParseNatToString` | components/sections/WhyChooseSection.tsx:69 | parsing the numeral of `n` as decimal gives `n` |
| `Decimal.DropLeadingZeros` | components/sections/WhyChooseSection.tsx:69 | the result is a suffix of the input that does not start with `'0'`, and every character removed is a `'0'` |
| `Decimal.DropZerosBeforeNumeral` | components/sections/WhyChooseSection.tsx:69 | removing leading zeros from padding followed by the numeral of a positive number leaves that numeral |
| `Header.RenderKind` | components/layout/Header.tsx:111-263 | a desktop link is a dropdown exactly when it has `children`, the highlighted call-to-action exactly when it has no children and `highlight` is true, and plain otherwise |
| `Header.ChildrenWinOverHighlight` | components/layout/Header.tsx:112-212 | a link with children and `highlight: true` still renders as a dropdown |
| `Header.DropdownPanelShown` | components/layout/Header.tsx:150-151 | a dropdown panel is drawn exactly when the link is a dropdown and the shared flag is set |
| `Header.DropdownFlagIsShared` | components/layout/Header.tsx:117-151 | the single `dropdownOpen` flag opens or closes the panels of all dropdown links together |
| `Header.MobileLinkAccent` | components/layout/Header.tsx:357 | a mobile-overlay link is accent-coloured exactly when `highlight` is true |
| `Header.Mounted` | components/layout/Header.tsx:31-43 | after mounting, all three flags are false and the body is unlocked, whatever the prior overflow |
| `Header.OverflowFor` | components/layout/Header.tsx:41 | the value the effect writes; its properties are carried by `Header.StepKeepsSynced`, `Header.RunKeepsSynced` and `Header.OverflowAfterAnyEvents` |
| `Header.WithMobileOpen` | components/layout/Header.tsx:40-43 | `setMobileOpen(m)` with its effect: `mobileOpen` becomes `m`, the other flags are kept, and a synced state stays synced |
| `Header.Step` | components/layout/Header.tsx:36-43 | one event's transition; its properties are carried by `Header.ScrollOnlySetsScrolled`, `Header.StepKeepsSynced`, `Header.HamburgerIsInvolution`, `Header.MobileLinkClickCloses` and `Header.DropdownHover` |
| `Header.ScrollOnlySetsScrolled` | components/layout/Header.tsx:36-38 | a scroll to offset `y` sets `scrolled` to `y > 60` and changes no other field, including the body overflow |
| `Header.StepKeepsSynced` | components/layout/Header.tsx:40-43 | every event keeps the body overflow equal to `"hidden"` when the menu is open and `""` otherwise |
| `Header.RunKeepsSynced` | components/layout/Header.tsx:40-43 | from a synced state, after any sequence of events the overflow is `"hidden"` exactly when `mobileOpen` holds, and `""` otherwise |
| `Header.OverflowAfterAnyEvents` | components/layout/Header.tsx:40-43 | from mounting, after any events, the body is locked exactly when the mobile menu is open |
| `Header.HamburgerIsInvolution` | components/layout/Header.tsx:270 | a hamburger click flips `mobileOpen`, keeps `scrolled` and `dropdownOpen`, and a second click restores the whole state, including the overflow |
| `Header.MobileLinkClickCloses` | components/layout/Header.tsx:349-376 | a top-level or child link click in the overlay closes the menu and unlocks the body from any synced state, which by `Header.RunKeepsSynced` is every reachable state, and repeating it changes nothing |
| `Header.DropdownHover` | components/layout/Header.tsx:117-118 | mouse-enter sets `dropdownOpen`, mouse-leave clears it, and neither touches anything else |
| `Header.DropdownAria` | components/layout/Header.tsx:121 | the dropdown button's `aria-expanded` is true after mouse-enter and false after mouse-leave |
| `Header.ChromeFor` | components/layout/Header.tsx:48-62 | `onDark` holds exactly when neither `scrolled` nor `mobileOpen` does; background and blur are solid exactly when not `onDark`; the bottom border shows exactly when `scrolled`; the overlay shows exactly when `mobileOpen` |
| `Header.HamburgerAria` | components/layout/Header.tsx:271-272 | the hamburger's aria-label is "Close menu" exactly when the menu is open and "Open menu" otherwise; `aria-expanded` mirrors `mobileOpen` |
| `Header.MenuAloneHasNoBorder` | components/layout/Header.tsx:60-62 | with the menu open at the top of the page the header is solid but has no border |
| `Header.ScrollEndToEnd` | components/layout/Header.tsx:36-62 | after mounting, offset 0 gives a transparent, borderless header and offset 100 an opaque one with its border |
| `Header.HeaderComponent.Mount` | components/layout/Header.tsx:30-43 | the constructor starts with all flags false, runs the effect once, and leaves the object valid with its state equal to `Mounted` |
| `Header.HeaderComponent.RunOverflowEffect` | components/layout/Header.tsx:41 | the effect writes `"hidden"` when the menu is open and `""` otherwise |
| `Header.HeaderComponent.CleanupOverflowEffect` | components/layout/Header.tsx:42 | the cleanup writes `""` |
| `Header.HeaderComponent.SetMobileOpen` | components/layout/Header.tsx:40-43 | a changed value runs cleanup then effect; an unchanged one changes nothing; the result is `WithMobileOpen` of the old state |
| `Header.HeaderComponent.OnScroll` | components/layout/Header.tsx:36-38 | modifies only `scrolled`; the new state is `Step(old, Scroll(y))` |
| `Header.HeaderComponent.OnHamburgerClick` | components/layout/Header.tsx:270 | the new state is `Step(old, HamburgerClick)` and the lock stays in step |
| `Header.HeaderComponent.OnMobileLinkClick` | components/layout/Header.tsx:349-376 | the new state is `Step(old, MobileLinkClick)` and the lock stays in step |
| `Header.HeaderComponent.OnDropdownEnter` | components/layout/Header.tsx:117 | modifies only `dropdownOpen`, setting it true |
| `Header.HeaderComponent.OnDropdownLeave` | components/layout/Header.tsx:118 | modifies only `dropdownOpen`, setting it false |
| `Header.HeaderComponent.Unmount` | components/layout/Header.tsx:42 | unmounting always leaves the body overflow `""`, whatever the menu state, and keeps the flags |
| `Header.HeaderComponent.CurrentChrome` | components/layout/Header.tsx:48 | the live `onDark` is exactly not `scrolled` and not `mobileOpen` |
| `Header.HamburgerTwiceThenUnmount` | components/layout/Header.tsx:270 | a client that clicks the hamburger twice and then unmounts ends with all three flags as before and the body unlocked |
| `Solutions.Slice` | components/sections/SolutionsSection.tsx:63 | `slice` with clamped bounds: an in-range slice; everything from `start` on when `end` is past the length; `[]` when the range is empty |
| `Solutions.VisibleCaps` | components/sections/SolutionsSection.tsx:63 | expanded: the whole list; collapsed: the prefix of length `min(3, n)` |
| `Solutions.Remaining` | components/sections/SolutionsSection.tsx:64 | the hidden count, `n - 3`; its properties are carried by `Solutions.CollapsedAccountsForAll` and `Solutions.CollapsedLabelNamesCount` |
| `Solutions.ShowToggle` | components/sections/SolutionsSection.tsx:170 | whether the toggle is drawn; characterised by `Solutions.ShowToggleIffMoreThanThree` |
| `Solutions.ShowToggleIffMoreThanThree` | components/sections/SolutionsSection.tsx:170 | the toggle shows exactly when there are more than three capabilities; otherwise the collapsed view already shows all of them |
| `Solutions.CollapsedAccountsForAll` | components/sections/SolutionsSection.tsx:63-64 | with the toggle shown, the collapsed count plus `remaining` is `n`, and the visible part followed by the rest is the list |
| `Solutions.CollapsedLabelNamesCount` | components/sections/SolutionsSection.tsx:189 | collapsed, the label is "+ ", then the decimal numeral of `remaining`, then " more", and the count parses back from it |
| `Solutions.ToggleLabelFollowsExpanded` | components/sections/SolutionsSection.tsx:189 | expanded, the label is "− Show less", and it differs from the collapsed label |
| `Solutions.ToggleLabel` | components/sections/SolutionsSection.tsx:189 | the toggle text; its properties are carried by `Solutions.CollapsedLabelNamesCount` and `Solutions.ToggleLabelFollowsExpanded` |
| `Solutions.AccentAsWritten` | components/sections/SolutionsSection.tsx:61 | the palette lookup as JavaScript reads it; its behaviour is carried by `Solutions.AccentInheritedKey` and `Solutions.AccentFallback` |
| `Solutions.AccentFor` | components/sections/SolutionsSection.tsx:61 | the palette lookup with the intended fallback; characterised by `Solutions.AccentFallback` |
| `Solutions.AccentInheritedKey` | components/sections/SolutionsSection.tsx:61 | as written, the accent key "toString" reads an inherited built-in and misses the cyan fallback |
| `Solutions.AccentFallback` | components/sections/SolutionsSection.tsx:38-61 | the three named accents give their own palette and every other key the cyan one; for non-inherited keys this equals the JavaScript lookup |
| `Solutions.IconAsWritten` | components/sections/SolutionsSection.tsx:62 | the icon lookup as JavaScript reads it; its behaviour is carried by `Solutions.IconInheritedKey` and `Solutions.IconFallback` |
| `Solutions.IconFor` | components/sections/SolutionsSection.tsx:62 | the icon lookup with the intended fallback; characterised by `Solutions.IconFallback` |
| `Solutions.IconInheritedKey` | components/sections/SolutionsSection.tsx:62 | as written, the icon key "constructor" reads the inherited `Object` constructor, not Cpu |
| `Solutions.IconFallback` | components/sections/SolutionsSection.tsx:31-62 | the three listed keys give their own icon and every other key gives Cpu; for non-inherited keys this equals the JavaScript lookup |
| `Solutions.PillShown` | components/sections/SolutionsSection.tsx:194 | the `target || note` test; its properties are carried by `Solutions.PillShownHasText` and `Solutions.EmptyTargetHidesNote` |
| `Solutions.PillText` | components/sections/SolutionsSection.tsx:209 | the pill text is `target` whenever it is defined and `note` otherwise |
| `Solutions.PillShownHasText` | components/sections/SolutionsSection.tsx:194-209 | whenever the pill is drawn it has defined text |
| `Solutions.EmptyTargetHidesNote` | components/sections/SolutionsSection.tsx:194-209 | an empty `target` beside a non-empty note gives a shown pill with empty text |
| `Solutions.ViewOf` | components/sections/SolutionsSection.tsx:59-212 | a card draws its toggle exactly when `n > 3`, labelled by `ToggleLabel`, and its pill exactly when target or note is non-empty, with the text `target ?? note`; the listed capabilities are `VisibleCaps`; the palette and icon are the intended lookups; `aria-expanded` follows `expanded`; collapsed with the toggle, visible plus remaining is `n` |
| `Solutions.SolutionCard.constructor` | components/sections/SolutionsSection.tsx:60 | a card starts collapsed |
| `Solutions.SolutionCard.ToggleClick` | components/sections/SolutionsSection.tsx:172 | a click flips `expanded` and changes nothing else |
| `Solutions.SolutionCard.View` | components/sections/SolutionsSection.tsx:63 | the live capability list is the whole list when expanded and its first `min(3, n)` entries otherwise |
| `Solutions.ExpandAndCollapse` | components/sections/SolutionsSection.tsx:60-189 | a client run over more than three capabilities: the fresh card lists the first three under "+ N more", one click lists them all under "− Show less", and a second click gives the first view back |
| `AnimatedSection.InheritedTransition` | components/ui/AnimatedSection.tsx:32-34 | the visible variant's old transition; its use is characterised by `AnimatedSection.DelayedTransition` and `AnimatedSection.DelayedWithoutTransition` |
| `AnimatedSection.MotionVariants` | components/ui/AnimatedSection.tsx:26-39 | the merged variants; their properties are carried by `AnimatedSection.ZeroDelayIsIdentity`, `AnimatedSection.DelayedKeys`, `AnimatedSection.DelayedKeepsVisible`, `AnimatedSection.DelayedTransition` and `AnimatedSection.MergeIdempotent` |
| `AnimatedSection.Get` | components/ui/AnimatedSection.tsx:28 | a property read gives the stored value, or `undefined` for a missing key |
| `AnimatedSection.Spread` | components/ui/AnimatedSection.tsx:30 | spreading an object copies its fields; spreading `undefined`, a number, a boolean or a function copies nothing |
| `AnimatedSection.ZeroDelayIsIdentity` | components/ui/AnimatedSection.tsx:26-39 | with a zero delay the merged variants are the input variants |
| `AnimatedSection.DelayedKeys` | components/ui/AnimatedSection.tsx:27-28 | with a non-zero delay the result has exactly the keys `hidden` and `visible`, and `hidden` is the input's `hidden` |
| `AnimatedSection.DelayedKeepsVisible` | components/ui/AnimatedSection.tsx:29-30 | with a non-zero delay, the visible keys are the input's plus `transition`, and every key other than `transition` keeps its value |
| `AnimatedSection.DelayedTransition` | components/ui/AnimatedSection.tsx:31-36 | with a non-zero delay the transition's `delay` is the given delay, its other keys are the input transition's keys with their values, and none are added |
| `AnimatedSection.DelayedWithoutTransition` | components/ui/AnimatedSection.tsx:31-36 | without an input transition the new transition is exactly `{delay}` |
| `AnimatedSection.MergeIdempotent` | components/ui/AnimatedSection.tsx:26-38 | merging twice with the same delay gives the result of merging once |
| `AnimatedSection.PropsVariants` | components/ui/AnimatedSection.tsx:19 | an omitted `variants` prop means `fadeInUp` |
| `AnimatedSection.PropsDelay` | components/ui/AnimatedSection.tsx:20 | an omitted `delay` prop means 0 |
| `AnimatedSection.DefaultPropsGiveFadeInUp` | components/ui/AnimatedSection.tsx:19-39 | with default props the wrapper animates `fadeInUp` unchanged |
| `AnimatedSection.DelayedFadeInUp` | lib/animations.ts:3-6 | a delay on `fadeInUp` keeps its duration and easing and adds the delay |
| `AnimatedSection.InViewAfter` | components/ui/AnimatedSection.tsx:24 | the once-only in-view latch; characterised by `AnimatedSection.InViewIffSomeSample` and `AnimatedSection.InViewStaysTrue` |
| `AnimatedSection.InViewIffSomeSample` | components/ui/AnimatedSection.tsx:24 | the once-only in-view signal is set exactly when some intersection sample so far was true |
| `AnimatedSection.InViewStaysTrue` | components/ui/AnimatedSection.tsx:24 | once set, later samples never clear the in-view signal |
| `AnimatedSection.AnimateOf` | components/ui/AnimatedSection.tsx:45-46 | the animate target is `visible` exactly when the section has been in view, and `hidden` before |
| `AnimatedSection.RevealIsOneShot` | components/ui/AnimatedSection.tsx:24-46 | a section starts `hidden`, and once `visible` it stays `visible` under any further samples |
| `WhyChoose.PadStart` | components/sections/WhyChooseSection.tsx:69 | `padStart` leaves a long-enough string alone; otherwise it gives exactly the target length, with pad characters in front and the string as the suffix |
| `WhyChoose.OrdinalLabel` | components/sections/WhyChooseSection.tsx:69 | `String(index + 1).padStart(2, '0')`; its properties are carried by `WhyChoose.OrdinalLabelShape`, `WhyChoose.OrdinalLabelCases` and `WhyChoose.OrdinalLabelRoundTrip` |
| `WhyChoose.OrdinalLabelShape` | components/sections/WhyChooseSection.tsx:69 | the ordinal label is always at least two characters, all digits |
| `WhyChoose.OrdinalLabelCases` | components/sections/WhyChooseSection.tsx:69 | for positions 1 to 9 the label is "0" followed by the digit; from 10 on it is the plain numeral |
| `WhyChoose.OrdinalLabelRoundTrip` | components/sections/WhyChooseSection.tsx:69 | dropping leading zeros from the label and parsing it as decimal gives `index + 1` |
| `WhyChoose.IconInheritedKey` | components/sections/WhyChooseSection.tsx:31 | as written, the icon key "toString" reads an inherited built-in and misses the ShieldCheck fallback |
| `WhyChoose.IconAsWritten` | components/sections/WhyChooseSection.tsx:31 | the icon lookup as JavaScript reads it; its behaviour is carried by `WhyChoose.IconInheritedKey` and `WhyChoose.IconFallback` |
| `WhyChoose.IconFor` | components/sections/WhyChooseSection.tsx:31 | the icon lookup with the intended fallback; characterised by `WhyChoose.IconFallback` |
| `WhyChoose.IconFallback` | components/sections/WhyChooseSection.tsx:21-31 | the five listed keys map to their own icons and every other key to ShieldCheck; for non-inherited keys this equals the JavaScript lookup |
| `WhyChoose.StyleFor` | components/sections/WhyChooseSection.tsx:45-113 | hovered: glass background, raised accent icon, 32px fully opaque divider; at rest: transparent, muted icon, 20px faint divider |
| `WhyChoose.StyleDeterminesHover` | components/sections/WhyChooseSection.tsx:45-113 | the two hover states give different styles, so the style determines the flag |
| `WhyChoose.WhyItem.constructor` | components/sections/WhyChooseSection.tsx:30 | a tile starts not hovered |
| `WhyChoose.WhyItem.MouseEnter` | components/sections/WhyChooseSection.tsx:37 | mouse-enter sets `hovered` and changes nothing else |
| `WhyChoose.WhyItem.MouseLeave` | components/sections/WhyChooseSection.tsx:38 | mouse-leave clears `hovered` and changes nothing else |
| `WhyChoose.WhyItem.Style` | components/sections/WhyChooseSection.tsx:45-113 | the live style reads only `hovered`: glass exactly when hovered, an accent and raised icon when hovered and a muted one in place otherwise, a 32px opaque or 20px faint divider |
| `WhyChoose.WhyItem.Label` | components/sections/WhyChooseSection.tsx:69 | the tile's label is at least two digits, "0" then the digit for positions 1 to 9 and the plain numeral from 10 on, and dropping its zeros and parsing it gives `index + 1` |
| `WhyChoose.WhyItem.Icon` | components/sections/WhyChooseSection.tsx:31 | the tile's icon is ShieldCheck for an unknown key and equals the JavaScript lookup for every key that is not an inherited name |

## Left out

- Markup, inline style objects, CSS variable strings and Tailwind classes. Colours, icons and surfaces are enums; palettes are opaque strings.
- Animation timing: durations, easing curves, stagger and per-item delay arithmetic, and the exit/enter animations of the panels and overlay. These are float-valued presentation inside the animation library.
- The internals of `useScroll`, `useInView` and the browser's intersection observer. The scroll offset is a `real` parameter of `OnScroll`. The in-view signal is a sequence of intersection samples; its visibility threshold (`amount`) is part of the library and is not modelled.
- `AnimatedSection.MotionVariants` treats only `0` as a falsy delay. `NaN`, which is also falsy in JavaScript, has no `real` counterpart.
- `AnimatedSection.Spread` copies nothing from a string or an array, whereas JavaScript copies their index keys. The variants types of the animation library allow neither as a variant or a transition. A `null` variant, for which the `in` test would throw, is not representable either.
- `Decimal.NatToString` and `Decimal.IntToString` model `String(n)` only below 10^21; from there JavaScript switches to exponent notation (`"1e+21"`). The components format only `index + 1` and `capabilities.length - 3`, which stay far below that.
- Object key order is not modelled: variants and records are maps.
- Only the mobile overlay's link colour is modelled. Its list of child links is drawn under the same `children` test as the desktop dropdown (`Header.RenderKind`).
- HeroSection (video and reduced-motion handling), IndustriesSection and GlassCard (a hover flag and lookup of the same shape as the why-choose tile), the content-only sections, the page and layout, theme and animation constants other than `fadeInUp`, fonts, site configuration and build configuration are not part of this model. The JSON content files are inputs.

## Findings

| source | as written | input that shows it | evidently intended | confidence | as-written member | corrected member |
|---|---|---|---|---|---|---|
| components/sections/SolutionsSection.tsx:61 | the palette is read from an object literal with `??` as the fallback, so inherited `Object.prototype` members count as present | `color_accent` = "toString" yields a built-in function, and the card's colours are undefined | the cyan palette for every key the table does not define | medium; the content may never use such a key; not executed | `Solutions.AccentInheritedKey` | `Solutions.AccentFallback` |
| components/sections/SolutionsSection.tsx:62 | the icon is read from an object literal with `??` as the fallback | `icon` = "constructor" yields the `Object` constructor, which is then rendered as the icon component | the Cpu icon for every key the table does not define | medium; not executed | `Solutions.IconInheritedKey` | `Solutions.IconFallback` |
| components/sections/WhyChooseSection.tsx:31 | the icon is read from an object literal with `??` as the fallback | `icon` = "toString" yields a built-in function instead of an icon component | the ShieldCheck icon for every key the table does not define | medium; not executed | `WhyChoose.IconInheritedKey` | `WhyChoose.IconFallback` |

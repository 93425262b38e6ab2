# Reelnn hero slideshow and media card, modelled in Dafny

This project models the two pieces of logic in the Reelnn front end's
presentational components:

- **The hero slideshow** (`components/HeroSlideShow.tsx`). The component owns
  one piece of state, `currentIndex`, over the list of featured items that the
  slider context supplies together with `isLoading` and `error` flags. A
  repeating timer advances the index modulo the list length, but only while the
  list is non-empty. A click on navigation dot `j` sets the index to `j`. Each
  render pass picks one of three modes. Loading comes first. Otherwise the
  slideshow is Empty when the list is empty or `movies[currentIndex]` is falsy,
  which includes an index left beyond the end of a list that shrank. Otherwise
  it is Active. The index is never reset when the list changes; the next tick
  brings it back into range. The active slide derives every displayed field
  defensively: year prefix, rating label, first two genres, title fallback,
  overview, React key, detail link, backdrop and logo URLs.
- **The media card** (`components/Card.tsx`). The card derives a poster URL
  or a placeholder, a title fallback, a year-or-empty badge and a rating label,
  and keeps an `isHovered` flag. Pointer-enter sets the flag and pointer-leave
  clears it; the play/title overlay is shown exactly while it is set.

Files:

- `js.dfy`: module `Wrappers` (Option, Result) and module `Js`. `Js` holds the
  JavaScript values that can arrive in a fetched field: undefined, null,
  booleans, numbers, strings, arrays and plain objects. It also holds the
  language operations the components apply to them: truthiness, `||`,
  `typeof`, `Array.isArray`, string coercion inside template literals,
  `substring`, `slice` and `toFixed(1)`.
- `display.dfy`: module `Display`, the rating label and title fallback. Both
  components compute these with the same expressions.
- `hero.dfy`: module `HeroSlideshow`. It holds the pure tick function and its
  iteration, the field derivations, the render pass, and the class
  `Slideshow` with `Tick`, `SelectDot` and `Receive`.
- `card.dfy`: module `MediaCard`. It holds the field derivations, the render
  pass, the hover state machine and the class `Card`.

The model keeps three behaviours of the code that a reader may not expect:

- The Empty view is chosen not only for an empty list. It is also chosen when
  the index lies past the end of the list and when the current entry is itself
  falsy (`HeroSlideShow.tsx:36`).
- The slideshow's year is not total. A truthy `release_date` that is not a
  string has no `substring` method, so the render pass throws. `SafeYear` and
  `Render` return an error in that case (`HeroSlideShow.tsx:48`).
- The rating label "0.0" is also what a genuine rating of 0 shows
  (`Display.SafeRatingZeroLabel`).

## Model

| member | source | states |
|---|---|---|
| `HeroSlideshow.NextIndex` | components/HeroSlideShow.tsx:13-17 | one tick: with no items nothing changes (no interval); otherwise the result lies in [0, n), advances by one and wraps from the last item to 0 |
| `HeroSlideshow.TicksRotate` | components/HeroSlideShow.tsx:15-16 | with n > 0 items, k ≥ 1 ticks from any index p, including one beyond a shrunk list, reach (p + k) mod n |
| `HeroSlideshow.TicksFromStart` | components/HeroSlideShow.tsx:10-17 | starting from the initial index 0, after k ticks the index is k mod n |
| `HeroSlideshow.NoTicksWhileEmpty` | components/HeroSlideShow.tsx:13-14 | with an empty list no interval is installed, so any number of ticks leaves the index unchanged |
| `HeroSlideshow.Slideshow.constructor` | components/HeroSlideShow.tsx:10-11 | on mount the index is 0 and the context values are the ones supplied |
| `HeroSlideshow.Slideshow.Tick` | components/HeroSlideShow.tsx:14-16 | a timer firing sets the index to NextIndex of the old index and the current list length; with a non-empty list the new index is in range |
| `HeroSlideshow.Slideshow.SelectDot` | components/HeroSlideShow.tsx:155 | a dot click sets the index to exactly that dot's position and changes nothing else |
| `HeroSlideshow.Slideshow.Receive` | components/HeroSlideShow.tsx:11-19 | new context values replace the old ones and the index is not reset |
| `HeroSlideshow.Slideshow.View` | components/HeroSlideShow.tsx:21-45 | the state renders exactly as Render gives for the current index, list and flags: Loading while loading, Empty when the index is past the end, and an Active view marks the dot at the index |
| `HeroSlideshow.CurrentMovie` | components/HeroSlideShow.tsx:21 | `movies[currentIndex]` is the entry at the index, and absent when the index is out of range |
| `HeroSlideshow.Render` | components/HeroSlideShow.tsx:21-53 | Loading takes priority; otherwise an empty list, an out-of-range index or a falsy entry gives Empty; otherwise Active, or an error exactly when the year derivation throws; a truthy in-range entry whose year can be derived is shown Active; an Active view shows the entry at the index: its key and "info-" key, year, rating, first two genres, overview, title as alt text, backdrop, logo-or-title heading and one link for both buttons, each from that item's derivation; it sets the banner iff the error flag is truthy, and has one dot per item with only the dot at the index active |
| `HeroSlideshow.ErrorOnlyAddsBanner` | components/HeroSlideShow.tsx:59-63 | changing the error flag never changes the mode or the slide; it only sets or clears the banner |
| `HeroSlideshow.ShrunkListRecoversOnTick` | components/HeroSlideShow.tsx:14-36 | after the list shrinks to or below the index the view is Empty, and the next tick gives (index + 1) mod n, which is inside the list |
| `HeroSlideshow.SafeYear` | components/HeroSlideShow.tsx:48 | "" for a falsy release date; the prefix of a string of length min(4, length), counted in characters of the model's strings; an error for any other truthy value, which has no `substring` |
| `HeroSlideshow.SafeGenres` | components/HeroSlideShow.tsx:50 | at most two genres: the prefix of length min(2, length) of an array, and [] for anything that is not an array |
| `HeroSlideshow.SafeOverview` | components/HeroSlideShow.tsx:52 | the overview when truthy, otherwise the empty string |
| `HeroSlideshow.UniqueKey` | components/HeroSlideShow.tsx:53 | "movie-" followed by the id's string form when the id is truthy, otherwise "index-" followed by the index in decimal |
| `HeroSlideshow.IndexKeysDistinct` | components/HeroSlideShow.tsx:53 | two id-less slides at different positions get different keys |
| `HeroSlideshow.IdKeyNeverIndexKey` | components/HeroSlideShow.tsx:53 | a key built from an id never equals a key built from a position |
| `HeroSlideshow.StringIdKeysDistinct` | components/HeroSlideShow.tsx:53 | distinct non-empty string ids give distinct keys |
| `HeroSlideshow.DetailHref` | components/HeroSlideShow.tsx:136-141 | for each truthy/falsy combination of type and id: "/" + type + "/" + id, "/" + type + "/", "/movie/" + id, or "/movie/" (values in their string form) |
| `HeroSlideshow.DetailHrefSegments` | components/HeroSlideShow.tsx:136-141 | for a type and an id that are non-empty strings without "/", the link has exactly two "/" (before the type and before the id) and the segments between them are the type and the id |
| `HeroSlideshow.BackdropSrc` | components/HeroSlideShow.tsx:76-88 | a backdrop image exists iff the path is truthy, and its URL is the TMDB original-size prefix followed by the path |
| `HeroSlideshow.HeadingOf` | components/HeroSlideShow.tsx:104-115 | the logo image iff the logo path is truthy, with the TMDB w500 prefix followed by the path; otherwise the title heading, which shows the item's safe title |
| `HeroSlideshow.Dots` | components/HeroSlideShow.tsx:152-158 | one dot per item, and a dot is active iff its position equals the index |
| `Display.SafeRating` | components/Card.tsx:22 | "0.0" for any value whose `typeof` is not "number", otherwise `toFixed(1)` of the number; the slideshow uses the same expression at HeroSlideShow.tsx:49 |
| `Display.SafeRatingZeroLabel` | components/Card.tsx:22 | a rating that is not a number shows the same label as a rating of 0, and a non-zero whole-number rating never shows "0.0" |
| `Display.SafeTitle` | components/Card.tsx:24 | the title when truthy, else "Untitled", so never falsy; the slideshow uses the same expression at HeroSlideShow.tsx:51 |
| `MediaCard.SafeYear` | components/Card.tsx:23 | the year when truthy, otherwise "" (for an absent year, 0 or NaN); it is truthy iff the year is |
| `MediaCard.PosterSrc` | components/Card.tsx:27-29 | the TMDB w500 prefix followed by a truthy poster path, otherwise the fixed placeholder URL |
| `MediaCard.PosterNeverPlaceholder` | components/Card.tsx:27-29 | a real poster URL never equals the placeholder URL |
| `MediaCard.PosterSrcInjective` | components/Card.tsx:27-28 | distinct non-empty poster paths give distinct image URLs |
| `MediaCard.Render` | components/Card.tsx:22-89 | the image shows PosterSrc and the safe title as alt text; the rating badge shows SafeRating; the year badge is present iff the year is truthy and then shows it; the overlay is present iff hovered and then shows the safe title |
| `MediaCard.HoveredAfterLast` | components/Card.tsx:19-37 | after any sequence of pointer events the flag is true iff the last event was an enter (the initial value when there are none) |
| `MediaCard.HandlersIdempotent` | components/Card.tsx:36-37 | repeating an enter or a leave leaves the flag as one occurrence does |
| `MediaCard.Card.constructor` | components/Card.tsx:19 | a mounted card starts not hovered |
| `MediaCard.Card.PointerEnter` | components/Card.tsx:36 | sets the flag to true whatever it was |
| `MediaCard.Card.PointerLeave` | components/Card.tsx:37 | sets the flag to false whatever it was |
| `MediaCard.Card.View` | components/Card.tsx:67-89 | the card renders exactly as Render gives for its content and hover flag: poster URL, alt text, rating label and badge text from their derivations, the overlay iff the card is hovered, and the year badge iff the year is truthy |
| `Js.Or` | components/Card.tsx:23-24 | JavaScript's logical or returns one of its operands, and it is truthy iff either operand is; a truthy first operand is returned unchanged, otherwise the second operand is returned |
| `Js.Truthy` | components/Card.tsx:23-29 | the falsy values are exactly undefined, null, false, NaN, 0 and ""; every other value, arrays and objects included, is truthy |
| `Js.ToString` | components/HeroSlideShow.tsx:53 | template-literal coercion: strings stand for themselves, numbers print as `Js.NumberToString`, undefined, null, booleans and objects print as their names, and every array is its element strings (`Js.ElementString`) joined with "," by `Js.JoinWith` |
| `Js.ElementString` | components/HeroSlideShow.tsx:53 | inside an array, null and undefined elements show as "" and every other element as its own string form |
| `Js.JoinWith` | components/HeroSlideShow.tsx:53 | `join`: no parts give ""; otherwise the result starts with the first part, ends with the last, and is as long as all parts plus one separator per neighbouring pair |
| `Js.JoinWithFirst` | components/HeroSlideShow.tsx:53 | joining two or more parts is the first part, the separator, then the remaining parts joined |
| `Js.ToStringSingleton` | components/HeroSlideShow.tsx:53 | a one-element array prints as its element's string form, and as "" when the element is null or undefined |
| `Js.ToStringPair` | components/HeroSlideShow.tsx:53 | a two-element array prints as its two element strings joined by ",", so `[null, "a"]` prints as ",a" |
| `Js.NumberToString` | components/HeroSlideShow.tsx:53 | NaN prints as "NaN", the infinities as "Infinity" and "-Infinity", and an integer as `Js.IntToDecimal` gives it: digits that read back as the magnitude, after a "-" for a negative integer |
| `Js.IsArray` | components/HeroSlideShow.tsx:50 | `Array.isArray` holds exactly for arrays, and every array has `typeof` "object" |
| `Js.IntToDecimal` | components/HeroSlideShow.tsx:53 | an integer prints with a minus sign exactly when it is negative, followed by digits without leading zeros that read back (by `Js.DecimalValue`) as its magnitude |
| `Js.TypeOf` | components/Card.tsx:22 | `typeof` is "number" exactly for numbers, "string" exactly for strings, and "object" for null, arrays and objects |
| `Js.Substring` | components/HeroSlideShow.tsx:48 | `substring` with ordered non-negative bounds is the slice between the bounds clamped to the length, and with reversed bounds the slice with them swapped |
| `Js.Slice` | components/HeroSlideShow.tsx:50 | `slice` with ordered non-negative bounds is the sub-sequence between the bounds clamped to the length |
| `Js.ToFixed1` | components/Card.tsx:22 | `toFixed(1)` of an integer ends in ".0", starts with "-" iff the integer is negative, its digit part reads back (by `Js.DecimalValue`) as the magnitude and has no leading zero; NaN and the infinities print as their names |
| `Js.IntToDecimalInjective` | components/HeroSlideShow.tsx:53 | distinct integers have distinct decimal forms (via the digit round trip `Js.DecimalRoundTrip`) |
| `Js.DecimalRoundTrip` | components/HeroSlideShow.tsx:53 | reading back the decimal digits of a natural number gives that number |

## Left out

- `HeroSlideshow.SafeYear`, `Js.Substring`: strings are sequences of Unicode code points, while JavaScript's `substring` and `length` count UTF-16 code units. For a release date made of characters outside the Basic Multilingual Plane (such as emoji), the source's `substring(0, 4)` keeps fewer characters than the model does.
- `Display.SafeRatingZeroLabel`: only whole-number ratings are modelled. In the program, a fractional rating between 0 and 0.05 (0.04, say) also shows "0.0", so the label "0.0" does not single out a missing rating or a rating of exactly 0.

- Numbers that are finite and not integers are not modelled, because they are floating point. `Js.Number` has NaN, integers and the two infinities. So `toFixed(1)` of a fractional rating such as 7.3 is outside the model.
- `Js.ToString`, `Js.ToFixed1`: JavaScript prints numbers of magnitude 10^21 or more in exponent form. The model prints all their digits. Integers above 2^53 are not exact doubles either.
- The 8000 ms interval, `setInterval`/`clearInterval` and the re-creation of the effect when the list length changes are timer plumbing. A firing of the interval is the abstract `Slideshow.Tick` event, which uses the current list length. The closure only reads `movies.length`, and the effect is re-created whenever that length changes, so the current length is the one a firing sees.
- The slider context (`useHeroSlider`, from `context/HeroSliderContext`) is not part of this model. Its values enter through `Slideshow.Receive`, with `isLoading` taken as a boolean. The navigation bar (`Navbar`) is not part of this model either.
- Entries of the featured list are `Option<FeaturedItem>`. `None` stands for any falsy entry, such as null or undefined.
- React's own rendering of child values is not modelled. This includes its refusal to render a plain object as a child, for example an object title or genre. The views carry the values that would be rendered.
- framer-motion animations (fade, slide, hover zoom, tap scale), `AnimatePresence`, Next `Image` and `Link`, and CSS classes carry no logic and are left out.
- `next.config.mjs` is static build configuration with no runtime behaviour.

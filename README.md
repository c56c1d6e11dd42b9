# pulse-frontend news feed core, in Dafny

This project models the logic that turns stored news documents into what an article card shows in the pulse-frontend site:

- **Credibility colour and shimmer** (`credibility_colors.dfy`). The score is clamped to [0, 100]. A search loop finds the first pair of stops, out of five fixed colour stops, that brackets it. Each `#rrggbb` channel is decoded, interpolated linearly, rounded with `Math.round`, and re-encoded as two lower-case hex digits. Shimmer intensity and duration are threshold and lookup tables.
- **News page** (`news_page.dfy`). A stored document becomes an `Article`. Each field gets its default, and the two dates are normalised three ways: a seconds/nanoseconds object, date text, or nothing. The page's `cards`, `loading` and `error` state is driven by snapshot, query-error and set-up-failure events. The page then renders an error view, a loading text, a "no articles" text, or the list.
- **News feed** (`news_feed.dfy`). This component handles the same events with different rules. A record is the stored fields with the id spread in front, and no defaults are applied. A snapshot clears the error. The loading skeleton takes priority over the error.
- **News card** (`news_card.dfy`). It covers `formatDate`, the English-variant title and description, the image source with its placeholder, the set-once `imageError` flag, the `expanded` toggle and the shimmer overlay.
- **Language context** (`language_context.dfy`). `t` is a seven-entry table that falls back to the key. The language is always `en`, and `setLanguage` does nothing.

Shared modules hold the `Article` record and the stored-document shapes (`article_types.dfy`), the library date operations and the subscription events (`platform.dfy`), and `Option`/`Result` (`wrappers.dfy`).

Stateful components are each modelled twice. A class holds the component's fields and its handler methods. A pure `Step` function and a `Run` fold over a sequence of events carry the lemmas about what any sequence of callbacks can lead to.

Library date handling is passed in as a `DateLib` value of uninterpreted functions:

- `parses` — whether `new Date(s)` is valid;
- `isoOfMillis` — `toISOString` of a time value;
- `relativeToNow` — `formatDistanceToNow` against the wall clock, or `None` when it throws.

The current time is a parameter. Some lemmas also assume `Coherent(lib)`: the library's own ISO output parses, and the text "brak danych" does not.

In these places the model keeps the code's behaviour rather than a tidier one:

- A null `nanoseconds` reads as 0, but a missing one is not defaulted to 0 (see "## Left out").
- Date text that parses is returned unchanged, not re-formatted.
- An empty `created_at` text is falsy, so it takes the current time.
- Stored scores are not clamped. Only the colour clamps them. The shimmer and the bar width use the raw score.

The news page asks `t` for `noArticlesFound`, which the table does not hold, so the empty page shows the key text `noArticlesFound` itself (`NewsPage.RenderedTexts`).

## Model

| member | source | states |
|---|---|---|
| CredibilityColors.Clamp | src/app/lib/credibilityColors.ts:4 | the clamped score lies in [0, 100], equals the score inside that range, and is 0 below it and 100 above it |
| CredibilityColors.ParseHex | src/app/lib/credibilityColors.ts:38-44 | `parseInt(_, 16)` of one hex digit is below 16, and of two digits is below 256 |
| CredibilityColors.ToHex | src/app/lib/credibilityColors.ts:50 | `toString(16)` writes lower-case hex digits that parse back to the number; values below 256 need at most two digits |
| CredibilityColors.PadStart2 | src/app/lib/credibilityColors.ts:50 | `padStart(2, '0')` leaves a string of two or more characters alone and left-pads a shorter one to length 2 with `'0'` characters, keeping it as the suffix |
| CredibilityColors.Hex2RoundTrip | src/app/lib/credibilityColors.ts:38-50 | every channel value 0..255 is encoded as exactly two lower-case digits, and parsing them returns the value |
| CredibilityColors.ParseHex2RoundTrip | src/app/lib/credibilityColors.ts:38-50 | re-encoding the parsed value of two lower-case digits gives back the same digits |
| CredibilityColors.Channel | src/app/lib/credibilityColors.ts:38-44 | a channel decoded from a `#rrggbb` colour lies in 0..255 |
| CredibilityColors.Round | src/app/lib/credibilityColors.ts:46-48 | `Math.round(x)` is within one half of x, with halves rounded up |
| CredibilityColors.Lerp | src/app/lib/credibilityColors.ts:46-48 | an interpolated channel lies between the two channels it mixes; factor 0 gives the first and factor 1 the second |
| CredibilityColors.InterpolateColor | src/app/lib/credibilityColors.ts:37-51 | the result is `#` plus six lower-case hex digits |
| CredibilityColors.EncodeColor | src/app/lib/credibilityColors.ts:50 | the `#${r}${g}${b}` template over two-digit channels is a lower-case `#rrggbb` colour whose decoded channels are the three values written |
| CredibilityColors.InterpolatedChannel | src/app/lib/credibilityColors.ts:37-51 | each channel decoded from the interpolated colour is the rounded interpolation of the two inputs' channels |
| CredibilityColors.FirstSegment | src/app/lib/credibilityColors.ts:19-25 | the search returns the first stop index from i on whose segment brackets the score, or none when no segment does |
| CredibilityColors.Segment | src/app/lib/credibilityColors.ts:16-25 | the chosen pair is ordered, and for a score in [0, 100] it brackets the score, both for the first match and for the initial first/last pair |
| CredibilityColors.Factor | src/app/lib/credibilityColors.ts:28 | the interpolation factor lies in [0, 1] |
| CredibilityColors.CredibilityColor | src/app/lib/credibilityColors.ts:2-34 | the colour for any integer score is `#` followed by six lower-case hex digits (length 7) |
| CredibilityColors.GetCredibilityColor | src/app/lib/credibilityColors.ts:2-34 | the search loop with its `break` returns the colour `CredibilityColor` specifies |
| CredibilityColors.SegmentOfClamped | src/app/lib/credibilityColors.ts:16-25 | for a clamped score the search always succeeds, at segment `(s - 1) / 25` (0 for s = 0); a score on 25, 50 or 75 falls in the lower segment |
| CredibilityColors.BoundaryOrTopSegment | src/app/lib/credibilityColors.ts:19-28 | stop k > 0 is reached as the upper end of segment k - 1, with factor exactly 1 |
| CredibilityColors.InterpolateAtEnds | src/app/lib/credibilityColors.ts:37-51 | interpolating two lower-case colours at factor 0 returns the first colour exactly, and at factor 1 the second |
| CredibilityColors.ColorAtStops | src/app/lib/credibilityColors.ts:7-31 | at each stop's percent (0, 25, 50, 75, 100) the output is that stop's colour exactly |
| CredibilityColors.ColorOutOfRange | src/app/lib/credibilityColors.ts:4-13 | any score at or below 0 gives `#ef4444` and any score at or above 100 gives `#15803d` |
| CredibilityColors.ColorChannels | src/app/lib/credibilityColors.ts:28-48 | each channel of the output is the rounded interpolation of the bracketing stops' channels at the segment factor |
| CredibilityColors.ChannelBetweenStops | src/app/lib/credibilityColors.ts:19-48 | each output channel lies between the two bracketing adjacent stops' channels, inclusive |
| CredibilityColors.ChannelMonotoneInSegment | src/app/lib/credibilityColors.ts:28-48 | within one segment a higher score moves each channel toward the upper stop's channel (piecewise monotonic) |
| CredibilityColors.ShimmerIntensity | src/app/lib/credibilityColors.ts:54-59 | `none` exactly below 25, `low` exactly in [25, 50), `medium` exactly in [50, 75) and `high` exactly from 75, all on the unclamped score |
| CredibilityColors.ShimmerDuration | src/app/lib/credibilityColors.ts:62-69 | `0s` exactly for `none`; `3s` for `low`, `2s` for `high`, and `2.5s` for `medium` and any other string |
| CredibilityColors.DurationZeroIffLowScore | src/app/lib/credibilityColors.ts:54-69 | the animation duration is `0s` exactly when the score is below 25, and `2s` for scores of 100 and above |
| Platform.MessageOf | src/app/news/page.jsx:128-132 | `err.message` is the message of an `Error`, and the possibly missing `message` property of any other thrown value |
| NewsPage.Trunc | src/app/news/page.jsx:69 | the time value `new Date(x)` keeps is x truncated toward zero |
| NewsPage.StampMillis | src/app/news/page.jsx:67-69 | `new Date(seconds * 1000 + nanoseconds / 1e6)`: for seconds and nanoseconds at or above 0, the time value, in exact arithmetic, is `seconds*1000 + nanoseconds div 10^6`; a null nanoseconds counts as 0 (the double rounding of the sum is under "## Left out") |
| NewsPage.NormalizeDate | src/app/news/page.jsx:61-88 | an object with seconds gives the ISO text of its milliseconds; any other object gives `''`; non-empty text is returned unchanged when it parses and is `''` otherwise; a missing, null or empty value gives the fallback |
| NewsPage.NormalizedDateCases | src/app/news/page.jsx:61-88 | a normalised date is empty, the fallback, some ISO output of the library, or the stored text itself when it parses |
| NewsPage.OrEmpty | src/app/news/page.jsx:94 | a text field defaults to `''`: the stored text when it is truthy, `''` otherwise |
| NewsPage.MapDocument | src/app/news/page.jsx:90-102 | the id is the document id; text fields default to `''`; the image defaults to the placeholder, so it is never empty; the score defaults to 0; `created_at` falls back to now and `published_at` to `''`; no language variants are set |
| NewsPage.EmptyDocumentMaps | src/app/news/page.jsx:61-102 | a document with no fields maps without failing: empty strings, score 0, the placeholder image, no publication date, and the current time as creation date |
| NewsPage.MapSnapshot | src/app/news/page.jsx:49-106 | a snapshot maps to exactly one card per document, card i being document i's mapping |
| NewsPage.SnapshotKeepsOrder | src/app/news/page.jsx:49-110 | the cards carry the documents' identifiers in delivered order |
| NewsPage.MappedDatesParse | src/app/news/page.jsx:61-88 | with a coherent date library, every non-empty `created_at` or `published_at` on a card parses as a date |
| NewsPage.Step | src/app/news/page.jsx:42-121 | every event clears `loading`; a snapshot replaces `cards` and keeps `error`; a query error or set-up failure sets `error` to its message and keeps `cards` |
| NewsPage.LoadingUntilFirstEvent | src/app/news/page.jsx:11-121 | the page is loading exactly until its first event |
| NewsPage.ErrorSurvivesSnapshots | src/app/news/page.jsx:109-121 | the message of the last failure stays in `error` however many snapshots follow it |
| NewsPage.NoErrorWithoutFailure | src/app/news/page.jsx:13-121 | while only snapshots have arrived, `error` stays null |
| NewsPage.CardsOfLastSnapshot | src/app/news/page.jsx:42-121 | `cards` are the mapping of the last snapshot, whatever errors followed it |
| NewsPage.NoCardsWithoutSnapshot | src/app/news/page.jsx:11-121 | before any snapshot, `cards` is empty |
| NewsPage.Render | src/app/news/page.jsx:142-169 | the error view (`Error: <message>`) exactly when the error is truthy; else the loading text while loading; else the empty text for no cards; else the non-empty list |
| NewsPage.RenderedTexts | src/app/news/page.jsx:157-164 | the empty page shows the untranslated key `noArticlesFound`, and the loading text reads `Loading...` |
| NewsPage.ErrorViewIsFinal | src/app/news/page.jsx:109-148 | after a query error with a message, the page shows the error view whatever snapshots follow |
| NewsPage.Page.constructor | src/app/news/page.jsx:11-13 | the page starts loading, with no cards and no error |
| NewsPage.Page.OnSnapshot | src/app/news/page.jsx:42-110 | `cards` becomes the mapped snapshot (`[]` when it is empty), `loading` false, `error` unchanged; the new state is `Step` of the old one, so the lemmas about `Run` hold of the component |
| NewsPage.Page.OnError | src/app/news/page.jsx:112-121 | `error` becomes the message, `loading` false, `cards` unchanged; the new state is `Step` of the old one |
| NewsPage.Page.OnSetupThrow | src/app/news/page.jsx:128-132 | `error` becomes the thrown value's `message`, `loading` false, `cards` unchanged; the new state is `Step` of the old one |
| NewsFeed.Spread | src/app/components/NewsFeed.tsx:30-33 | the record is the stored fields unchanged except `id`, which is the document id only when no `id` field is stored |
| NewsFeed.SpreadAll | src/app/components/NewsFeed.tsx:28-34 | one record per document, record i being document i spread |
| NewsFeed.NoDefaultsApplied | src/app/components/NewsFeed.tsx:30-33 | a missing title, image or score stays missing, and a stored `id` overrides the document id |
| NewsFeed.SetupMessage | src/app/components/NewsFeed.tsx:53 | a set-up failure records the `Error`'s message, or `Unknown error` for any other thrown value |
| NewsFeed.Step | src/app/components/NewsFeed.tsx:28-55 | every event clears `isLoading`; a snapshot replaces `articles` and clears `error`; a failure sets `error` and keeps `articles` |
| NewsFeed.LoadingUntilFirstEvent | src/app/components/NewsFeed.tsx:10-54 | the feed is loading exactly until its first event |
| NewsFeed.ErrorOfLastEvent | src/app/components/NewsFeed.tsx:36-54 | `error` is null after a snapshot and is the message of a failure that came last |
| NewsFeed.ArticlesOfLastSnapshot | src/app/components/NewsFeed.tsx:28-44 | `articles` are the records of the last snapshot, whatever errors followed it |
| NewsFeed.NoArticlesWithoutSnapshot | src/app/components/NewsFeed.tsx:9-44 | before any snapshot, `articles` is empty |
| NewsFeed.Render | src/app/components/NewsFeed.tsx:58-78 | the skeleton exactly while loading; otherwise `Error loading articles: <message>` exactly when the error is truthy; otherwise the list of articles |
| NewsFeed.SnapshotRecovers | src/app/components/NewsFeed.tsx:36-78 | after any history, a snapshot makes the feed render that snapshot's records |
| NewsFeed.ErrorThenSnapshot | src/app/components/NewsFeed.tsx:36-78 | after a query error followed by a snapshot, the news page still shows the error while the feed shows the list |
| NewsFeed.Feed.constructor | src/app/components/NewsFeed.tsx:9-11 | the feed starts with no articles, loading, and no error |
| NewsFeed.Feed.OnSnapshot | src/app/components/NewsFeed.tsx:36-38 | `articles` becomes the spread records, `isLoading` false, `error` null; the new state is `Step` of the old one |
| NewsFeed.Feed.OnError | src/app/components/NewsFeed.tsx:40-44 | `error` becomes the message, `isLoading` false, `articles` unchanged; the new state is `Step` of the old one |
| NewsFeed.Feed.OnSetupThrow | src/app/components/NewsFeed.tsx:51-55 | `error` becomes the `Error`'s message or `Unknown error`, `isLoading` false, `articles` unchanged; the new state is `Step` of the old one |
| NewsCard.FormatDate | src/app/components/NewsCard.tsx:13-29 | `No date` for a missing value, `""`, `brak danych`, unparseable text, or a formatter that throws; otherwise the relative formatter's output |
| NewsCard.DisplayTitle | src/app/components/NewsCard.tsx:37-39 | a truthy `title_en`, else a non-empty `title`, else `No title`; never empty |
| NewsCard.DisplayDescription | src/app/components/NewsCard.tsx:41-43 | a truthy `description_en`, else a non-empty `description`, else `No description`; never empty |
| NewsCard.ImageSrc | src/app/components/NewsCard.tsx:58-60 | the placeholder when the image failed or `image_url` is empty, otherwise `image_url` |
| NewsCard.CardStep | src/app/components/NewsCard.tsx:32-56 | a click flips `expanded` only; a load sets `imageLoaded` only; an error sets `imageError` only |
| NewsCard.ImageErrorIsSticky | src/app/components/NewsCard.tsx:54-56 | `imageError` holds exactly when some image error has occurred: it is set once and never cleared |
| NewsCard.ImageLoadedIsSticky | src/app/components/NewsCard.tsx:50-52 | `imageLoaded` holds exactly when some load event has occurred: it is set once and never cleared |
| NewsCard.SpinnerUntilImageSettles | src/app/components/NewsCard.tsx:77 | the spinner `!imageLoaded && !imageError` shows exactly while only description clicks have occurred, so it disappears at the first load or error event and never returns |
| NewsCard.ExpandedAfterOddClicks | src/app/components/NewsCard.tsx:122 | the description is expanded exactly after an odd number of clicks |
| NewsCard.ToggleLabel | src/app/components/NewsCard.tsx:161 | the label reads `Read less` exactly when expanded, and `Read more` otherwise |
| NewsCard.AfterImageErrorPlaceholder | src/app/components/NewsCard.tsx:54-77 | once an image error has occurred, the card keeps the placeholder and the spinner stays hidden |
| NewsCard.Render | src/app/components/NewsCard.tsx:45-111 | title, description and image source follow the card's selection rules and the spinner and toggle label follow its flags; the shimmer overlay is drawn exactly for scores from 25, with duration `3s` in [25, 50), `2.5s` in [50, 75) and `2s` from 75; the bar width is the raw score; the bar colour is `CredibilityColor` of the score, so `#ef4444` at or below 0 and `#15803d` at or above 100; the date label formats `created_at` |
| NewsCard.NewsPageCardText | src/app/components/NewsCard.tsx:37-60 | a news-page card never uses an English variant, and shows its mapped image until the image fails |
| NewsCard.NewsPageCardDate | src/app/components/NewsCard.tsx:13-46 | with a coherent date library, a news-page card shows `No date` for an empty `created_at`, and otherwise the relative time unless the formatter throws |
| NewsCard.Card.constructor | src/app/components/NewsCard.tsx:32-34 | a card starts collapsed, with the image neither loaded nor failed |
| NewsCard.Card.ToggleExpanded | src/app/components/NewsCard.tsx:122 | `expanded` is negated and the image flags are unchanged |
| NewsCard.Card.HandleImageLoad | src/app/components/NewsCard.tsx:50-52 | `imageLoaded` becomes true and the other flags are unchanged |
| NewsCard.Card.HandleImageError | src/app/components/NewsCard.tsx:54-56 | `imageError` becomes true and the other flags are unchanged |
| LanguageContext.T | src/app/contexts/LanguageContext.tsx:30-41 | a key in the table gives its entry; any other key gives the key itself; a non-empty key never gives an empty string |
| LanguageContext.KnownKeys | src/app/contexts/LanguageContext.tsx:32-40 | the seven table keys read `Top News`, `Credibility`, `Read more`, `Read less`, `No articles available`, `Loading...` and `Error` |
| LanguageContext.UnknownKeysEchoed | src/app/contexts/LanguageContext.tsx:41 | `t('landingTitle')` is `landingTitle` and `t('noArticlesFound')` is `noArticlesFound` |
| LanguageContext.Provide | src/app/contexts/LanguageContext.tsx:45 | the provided language is `en` |
| LanguageContext.SetLanguage | src/app/contexts/LanguageContext.tsx:26-28 | `setLanguage` leaves the context unchanged |
| LanguageContext.LanguageAlwaysEnglish | src/app/contexts/LanguageContext.tsx:26-45 | after any sequence of `setLanguage` calls the language is still `en` |
| LanguageContext.UseLanguage | src/app/contexts/LanguageContext.tsx:13-19 | without a provider, the result is the error `useLanguage must be used within a LanguageProvider`; with one, it is the provided context |

## Left out

- The Firestore subscription itself is left out: `query`, `orderBy('published_at', 'desc')`, the feed's `limit(20)`, `onSnapshot` and `unsubscribe`. A snapshot is given as an already ordered sequence of documents. The ordering, the 20-row cap, delivery and "no callback after teardown" are guarantees of the client library.
- Date handling by the libraries is uninterpreted: parsing with `Date`, `toISOString`, and `formatDistanceToNow` with its wall clock. The `instanceof Timestamp` branch is folded into the seconds branch, because a Timestamp's `toDate()` uses the same milliseconds.
- Non-integer and NaN credibility scores are not modelled. They are floating-point behaviour; a NaN score produces `NaN` hex text.
- CredibilityColors.InterpolateColor: requires two well-formed `#rrggbb` colours and a factor in [0, 1]. `parseInt`'s prefix and NaN behaviour on malformed colours is not modelled, because the only caller passes stop colours.
- NewsPage.NormalizeDate: requires a `nanoseconds` field whenever `seconds` is present. Without it the milliseconds are NaN and `toISOString` throws inside the snapshot callback.
- NewsPage.NormalizeDate: time values outside the Date range (beyond ±8.64e15 ms) make `toISOString` throw; the model hands them to `isoOfMillis` like any other.
- NewsPage.MapDocument: stored fields hold values of their declared type, or are missing or null. A truthy non-string value in a text field (say a numeric title), which `||` would pass through unchanged, is not modelled. Neither is a numeric `created_at`.
- NewsPage.MapSnapshot: every document of one snapshot gets the same clock reading. The source reads the clock once per document that has no `created_at`.
- NewsPage.NormalizeDate: the time value `seconds * 1000 + nanoseconds / 1e6` is computed exactly, not in doubles. Near present-day seconds adjacent doubles are 2^-12 ms apart, so the program rounds a nanoseconds value within about 122 ns below a whole millisecond up to that millisecond: `{seconds: 1700000000, nanoseconds: 999999999}` gives 1700000001000 in the program and 1700000000999 in the model.
- NewsPage.StampMillis: states the time value in exact arithmetic; for the round-up case just named the program keeps the next millisecond.
- Event sequences are unconstrained: any order of snapshots, query errors and set-up failures is a trace. A live query delivers nothing after its error callback, so the traces in `NewsPage.ErrorSurvivesSnapshots`, `NewsPage.ErrorViewIsFinal`, `NewsFeed.SnapshotRecovers` and `NewsFeed.ErrorThenSnapshot` with a snapshot after a query error describe the code's rules, not something a user can see.
- NewsPage.Page.OnSetupThrow: a thrown `null` or `undefined` makes `err.message` itself throw inside the `catch`. This is not modelled.
- LanguageContext.T: keys naming `Object.prototype` members (`toString`, `constructor`, …) would return the inherited function rather than the key. The table is modelled as a plain map.
- The feed's records keep the stored `title_pl`/`description_pl` fields and any other stored field. `StoredDoc` only has the fields the rest of the model reads.
- The feed passes its records to the card list through an unchecked `as Article` cast. The card model only takes the news page's `Article` records, not the feed's raw ones.
- `imageLoaded` only affects the image opacity and the spinner. The spinner is modelled; the CSS classes are not.
- React state batching, re-render timing and the effect running once per mount are not modelled.
- These files are not part of this model: the mail-sending route (`src/app/api/send-email/route.ts`), `FirebaseTest.tsx`, `firebase.ts`, the landing page, `translations.ts`, the layout, the header, `NewsCardList.tsx`, and the build configuration. They are UI, configuration, or thin wrappers over unseen libraries. The same goes for all console diagnostics and CSS or animation strings.

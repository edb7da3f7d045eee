# Instagram likes extractor, modelled in Dafny

This project models the browser extension that reads post and reel
metrics off an Instagram profile page and exports them as CSV.

The content script (`content.js`) has three layers, all modelled:

- **Number parsing.** It turns a metric's visible text into a count (`parseNumber`).
- **Selector chains.** For each post or reel it looks for likes, comments,
  views, a caption and a creation date. Each field has an ordered chain of
  CSS selectors, and the first element whose text is acceptable wins. When
  nothing is found, a missing like, comment or view count is replaced by a
  random number, a missing caption by "" and a missing date by today's date.
- **Record building.** It builds one record per link, up to the requested
  limit, after scrolling the page a bounded number of times.

The popup (`popup.js`) has three parts, all modelled:

- **Detection.** From the tab's location it decides whether the page is a
  profile, which profile, and whether it shows posts or reels.
- **Limit option.** It reads the limit the user picks.
- **CSV export.** It builds the CSV file name and content from the
  extracted records.

The popup's four globals are the fields of a class. Its handlers are
methods that update them.

The modules follow the program's layers:

| module | file | what it holds |
|---|---|---|
| `JsText` | `jstext.dfy` | the JavaScript string and number built-ins the code relies on: `trim`, `toLowerCase`, `includes`, `parseInt`, number-to-string |
| `NumberText` | `numbertext.dfy` | `parseNumber`, with its decimal scaling done in exact arithmetic |
| `Selection` | `selection.dfy` | an element container abstracted to what `querySelectorAll` returns per selector; the first-success-wins scan over a selector chain, as functions and as loops |
| `FieldExtraction` | `fields.dfy` | `extractLikes`, `extractComments`, `extractViews`, `extractCaption`, `extractCreateDate` |
| `Extraction` | `extraction.dfy` | the limit arithmetic, the post and reel record builders, the scroll sequence, `extractData` |
| `Popup` | `popup.dfy` | the profile/content-type detection, the limit option, the CSV layout and file name, the popup state |

The likes, comments and views chains take a `SelectorEngine` parameter,
because each of them contains the jQuery-only pseudo-class
`:contains("…")`; the caption and date chains are plain CSS and take none:

- `Standard` is a browser's `querySelectorAll`. It rejects such a selector
  with a `SyntaxError`. This is how the code behaves as written.
- `JQueryLike` filters the matched elements by their text. This is the
  behaviour the selector lists were evidently written for.

See "## Findings".

## Model

| member | source | states |
|---|---|---|
| `JsText.Trim` | content.js:313 | `trim()` never lengthens the text |
| `JsText.TrimEdges` | content.js:313 | the trimmed text has no JavaScript white space at either end |
| `JsText.TrimSlice` | content.js:313 | the trimmed text is the slice of the original that starts right after its leading white space |
| `JsText.TrimCutsSpace` | content.js:313 | everything `trim()` cuts off, before or after the kept slice, is JavaScript white space |
| `JsText.LowerString` | content.js:335 | `toLowerCase()` keeps the length and lowers each character (ASCII letters and the Kelvin sign, the one non-ASCII character that lowers into `[0-9kmb.]`) |
| `JsText.LowerStringConcat` | content.js:335 | lower-casing distributes over concatenation |
| `JsText.ParseIntReadsNatToString` | popup.js:140 | `parseInt` reads every decimal numeral back as its number |
| `NumberText.Clean` | content.js:335 | the cleaned text holds only `0-9`, `k`, `m`, `b`, `.` and is no longer than the input |
| `NumberText.CleanConcat` | content.js:335 | cleaning works character by character: it distributes over concatenation |
| `NumberText.CleanKeepsCleanText` | content.js:335 | text that is already clean is left unchanged, so cleaning is idempotent |
| `NumberText.ParseNumber` | content.js:331-347 | empty text gives 0; NaN is possible only when a suffix letter `k`, `m` or `b` survives cleaning |
| `NumberText.NoDigitNoCount` | content.js:331-347 | digit-free text gives 0 or NaN, never a positive count |
| `NumberText.ParseNumberReadsNatToString` | content.js:345-346 | a plain numeral reads back as its number (`"500"` is 500) |
| `NumberText.SuffixScalesWholeCount` | content.js:337-343 | a numeral with suffix `k`, `m` or `b` is the number times 10^3, 10^6 or 10^9 (`"3m"` is 3 000 000) |
| `NumberText.ReadsSuffix` | content.js:337-343 | with a suffix letter present (the first of `k`, `m`, `b` found decides), the count is NaN exactly when no number starts where that letter's first occurrence was removed, and otherwise the floor of that number's exact value times 10^3, 10^6 or 10^9 |
| `NumberText.ReadsPlain` | content.js:345-346 | without a suffix letter, cleaned text made of a run of digits and a tail not starting with a digit counts as the value of that run (so "" counts 0) |
| `NumberText.ScaledFloorIsFloor` | content.js:338-342 | the integer scaling equals the floor of the decimal's exact value times the power of ten |
| `NumberText.DecimalThousands` | content.js:337-338 | `"1.2k"` is 1200 |
| `NumberText.PlainDecimalIsTruncated` | content.js:345-346 | `"1.5"` without a suffix is read by `parseInt` as 1 |
| `NumberText.GroupedLikesReadAsThousands` | content.js:335-338 | the `k` of the word "likes" counts as a suffix: `"1,234 likes"` and `"1,234 Likes"` are 1 234 000 |
| `NumberText.CommentsWordReadsAsMillions` | content.js:335-340 | the `m`s of "comments" count as a suffix: `"12 comments"` is 12 000 000 |
| `NumberText.LikeWordIsNaN` | content.js:335-338 | a bare `"like"` cleans to `"k"` and gives NaN |
| `Selection.WithText` | content.js:214-215 | `:contains(word)` keeps exactly the matched elements whose text contains the word, and no more elements than matched |
| `Selection.WithTextConcat` | content.js:214-215 | `:contains(word)` decides element by element: it splits over concatenation, and keeps a single element exactly when its text contains the word, so the kept elements stay in document order |
| `Selection.Query` | content.js:219 | `querySelectorAll` throws exactly on a `:contains` selector under a browser engine; plain CSS gives its matches |
| `Selection.FirstAccepted` | content.js:220-225 | the scan of one selector's elements gives nothing iff every element is turned down; otherwise it gives the value of an accepted element all of whose predecessors were turned down |
| `Selection.FirstAcceptedConcat` | content.js:218-227 | scanning two runs of elements in turn is scanning their concatenation |
| `Selection.ScanIsFirstOverReached` | content.js:218-227 | a selector chain returns the first accepted value among the elements it reaches; failing that, it raises exactly when some selector does not parse |
| `Selection.CssChainIgnoresEngine` | content.js:303-323 | a chain of plain CSS selectors never raises, and it behaves the same under either engine |
| `Selection.ReachedThroughCss` | content.js:209-216 | a run of plain CSS selectors is always reached, whatever follows it |
| `Selection.FindFirst` | content.js:220-225 | the inner `for … of` loop with its early `return` computes `FirstAccepted` |
| `Selection.ScanChain` | content.js:218-227 | the outer loop over selectors computes the chain's outcome: accepted, raised or exhausted |
| `FieldExtraction.LikeValue` | content.js:221-225 | an accepted like candidate has a positive count, parsed from its text, or from its `aria-label` when the text is empty |
| `FieldExtraction.ButtonLikeValue` | content.js:230-236 | a button counts only when its lower-cased `aria-label` mentions "like" and parses to a positive number |
| `FieldExtraction.LikesOf` | content.js:206-243 | a random fallback for likes is always below 1000 |
| `FieldExtraction.StandardLikesSkipButtons` | content.js:206-243 | as written, in a browser: only the four CSS selectors are scanned; otherwise the result is random, and the button pass is never reached |
| `FieldExtraction.IntendedLikesScanEverySelector` | content.js:206-243 | as intended: all six selectors are scanned in order, then the buttons, then the random fallback |
| `FieldExtraction.LikesArePositive` | content.js:223-235 | a like count that is not random is positive |
| `FieldExtraction.ContainsSelectorHidesButtonLikes` | content.js:214-236 | a post whose only like count is a button label `"1,234 Likes"` gets a random count in a browser and 1 234 000 as intended |
| `FieldExtraction.LikesLabelMentionsLike` | content.js:209-232 | the label `"1,234 Likes"` mentions "like" once lower-cased, as the button pass tests it, but not as the case-sensitive `[aria-label*="like"]` selectors test it |
| `FieldExtraction.CommentValue` | content.js:260-264 | a comment candidate is turned down only when its text parses to NaN, which needs a `k`, `m` or `b` left after cleaning; a candidate with neither text nor label is taken, as 0 |
| `FieldExtraction.CommentsOf` | content.js:245-272 | a random fallback for comments is always below 100 |
| `FieldExtraction.CommentsFirstParsed` | content.js:245-272 | the comments are the first accepted value among the five CSS selectors' matches, followed, under a jQuery-like engine only, by the button spans mentioning "comment"; otherwise random |
| `FieldExtraction.CommentsOnlyInButtonSpan` | content.js:254-270 | whenever the only comment count is in such a button span, a browser returns a random count and the intended scan reads the count |
| `FieldExtraction.ContainsSelectorHidesComments` | content.js:254-270 | `"12 comments"` in a button span: random in a browser, 12 000 000 as intended |
| `FieldExtraction.ViewValue` | content.js:286-290 | an accepted view candidate mentions "view" in any case and parses to a positive count |
| `FieldExtraction.ViewsOf` | content.js:274-298 | a random fallback for views is always below 10 000 |
| `FieldExtraction.StandardViewsScanFirstSelectorOnly` | content.js:274-298 | as written, in a browser: only `[aria-label*="view"]` is scanned; otherwise the result is random |
| `FieldExtraction.IntendedViewsScanEverySelector` | content.js:274-298 | as intended: all three selectors are scanned in order, `:contains` narrowing spans to those saying "views" |
| `FieldExtraction.ViewsOnlyUnderTestId` | content.js:279-296 | whenever no element with a view label and no span saying "views" is accepted, but a span under the test id is, a browser returns a random count and the intended scan reads that span's count |
| `FieldExtraction.ContainsSelectorHidesViews` | content.js:279-296 | a reel whose view counter is a span `"5 Views"` under the test id (so matched by both `span` and `[data-testid="views"] span`): random in a browser, 5 as intended |
| `FieldExtraction.ViewsTextSaysViewsCapitalised` | content.js:279 | `:contains` compares case-sensitively, so `"5 Views"` is not narrowed in by `:contains("views")` |
| `FieldExtraction.CaptionValue` | content.js:313-321 | a candidate is accepted iff its trimmed text passes the filter; the caption is then the first `min(200, length)` characters of that text |
| `FieldExtraction.UiLabelTestIsRedundant` | content.js:315-319 | the like/comment/share/save test never rejects text the length test accepts |
| `FieldExtraction.CaptionEmptyIffNoneWorthy` | content.js:300-329 | the caption is "" exactly when no reached candidate passes the filter |
| `FieldExtraction.CaptionIsFirstWorthy` | content.js:300-329 | a non-empty caption is the truncated text of the first reached candidate that passes the filter |
| `FieldExtraction.CaptionBounded` | content.js:320 | a caption never exceeds 200 characters |
| `FieldExtraction.CaptionReach` | content.js:303-311 | the caption chain reaches exactly the four selectors' matches, in selector order |
| `FieldExtraction.DateComesFromPage` | content.js:174-204 | with a container, the date is today or comes from a time element or a span/div that meets the corresponding test |
| `FieldExtraction.CompactAgeIsNoCaption` | content.js:193 | a compact age such as "2d", which the date scan accepts, is never taken as a caption either |
| `FieldExtraction.TwoDaysIsCompactAge` | content.js:193 | `"2d"` matches `^\d+[smhdwy]$`; `"2 d"` and `"d"` do not |
| `FieldExtraction.ThreeDaysAgo` | content.js:194 | `"3 Days ago"` matches the case-insensitive "ago" pattern |
| `FieldExtraction.ExtractLikes` | content.js:206-243 | the loops compute `LikesOf` |
| `FieldExtraction.ExtractComments` | content.js:245-272 | the loops compute `CommentsOf` |
| `FieldExtraction.ExtractViews` | content.js:274-298 | the loops compute `ViewsOf` |
| `FieldExtraction.ExtractCaption` | content.js:300-329 | the loops compute `CaptionOf` |
| `FieldExtraction.ExtractCreateDate` | content.js:174-204 | the loops compute `DateOf` |
| `Extraction.ActualLimit` | content.js:91-92 | `Math.min(limit, n)` is NaN exactly for a non-numeric limit, and otherwise at most the number of links |
| `Extraction.RecordCountBounds` | content.js:91-94 | never more records than links; all of them for "all"; `min(limit, links)` for a non-negative limit; none for a non-positive or non-numeric one |
| `Extraction.PostOf` | content.js:98-123 | a post record carries its link's href; a failing extraction gives the placeholder; otherwise likes are never a counted 0 and the date is the container's |
| `Extraction.ReelOf` | content.js:144-168 | the same for reels |
| `Extraction.ExtractPostsData` | content.js:84-128 | exactly `RecordCount` records, the i-th built from the i-th post link |
| `Extraction.ExtractReelsData` | content.js:130-172 | exactly `RecordCount` records, the i-th built from the i-th reel link |
| `Extraction.PostUrlsAreLinkHrefs` | content.js:94-96 | every post's url is its link's href, in link order |
| `Extraction.CeilTwelfth` | content.js:69 | `Math.ceil(n / 12)`: the least `q` with `12q >= n` |
| `Extraction.ScrollCount` | content.js:66-71 | at most 20 scrolls; none unless the limit is "all" or above 50; 20 for "all"; `min(ceil(n/12), 20)` otherwise |
| `Extraction.ScrollToLoadContent` | content.js:65-82 | the loop emits `ScrollPlan`: that many bottom scrolls with 1 s waits, then one scroll to the top and a 0.5 s wait |
| `Extraction.RoundsCount` | content.js:73-76 | `k` rounds are `k` bottom scrolls and `1000k` ms of waiting |
| `Extraction.ScrollPlanCosts` | content.js:65-82 | the plan scrolls to the bottom exactly `ScrollCount` times and waits at most 20.5 s |
| `Extraction.ExtractData` | content.js:19-46 | off instagram.com the platform is unsupported and nothing is scrolled; on it, the scroll plan runs, then the reels builder for "Reels" and the posts builder for anything else |
| `Popup.StripSlashes` | popup.js:81 | removing one leading and one trailing slash shortens the path by at most two |
| `Popup.DetectContent` | popup.js:72-110 | not a profile iff the path is neither a single segment nor contains "/profilecard/"; a profile always has a non-empty name; reels iff the path has "/reels/", the URL has "reels", or the reels tab is `aria-selected="true"` |
| `Popup.SingleSegmentName` | popup.js:73-81 | a single-segment path is "/" + name or "/" + name + "/", with a non-empty, slash-free name |
| `Popup.NameRoundTrip` | popup.js:73-81 | conversely, every such name is a profile path from which it is read back |
| `Popup.ProfilePathHasName` | popup.js:81-89 | every profile path yields its own name: the heading fallback is never used |
| `Popup.ReelsFeedIsAProfile` | popup.js:72-97 | the reels feed `/reels/` is taken for the profile "reels" with reels content |
| `Popup.ParseLimitOption` | popup.js:139-140 | the limit is "all" exactly for the option "all" |
| `Popup.NumericOptionIsItsNumber` | popup.js:139-140 | a numeric option is that many items |
| `Popup.CaptionText` | popup.js:257 | `(item.caption \|\| "").replace(…)`: a string caption is kept, a missing caption or 0 becomes "", and any other number has no `replace` and throws a `TypeError` |
| `Popup.EscapeQuotes` | popup.js:257 | doubling quotes never shortens the caption |
| `Popup.QuotedCaptionReadsBack` | popup.js:257-258 | a reader of the quoted caption field (section 2, rule 7 of RFC 4180) gets the caption back and stops at the closing quote |
| `Popup.LinesSnoc` | popup.js:246-259 | each record appends its own line after those before it |
| `Popup.LinesAppend` | popup.js:246-259 | the lines of two runs of records are the lines of each, in order |
| `Popup.CaptionThrowsSomewhere` | popup.js:256-257 | the export throws exactly when, in the posts format, some record's caption throws |
| `Popup.CsvLayout` | popup.js:244-259 | the file is the header, then the first record's line, then the other lines in order |
| `Popup.CsvContentSnoc` | popup.js:246-259 | one more record's line goes at the end of the export |
| `Popup.AppendLine` | popup.js:258 | `csvContent += …` turns the export of the first `i` records into that of the first `i + 1` |
| `Popup.WriteCsv` | popup.js:244-259 | the `forEach` ends with nothing exactly when, in the posts format, some record's caption throws; otherwise it gives the header and every record's line in order (`CsvContent`) |
| `Popup.SplitJoin` | popup.js:248-258 | comma-free cells joined by commas split back into the same cells |
| `Popup.ReelsLineReadsBack` | popup.js:248 | a reels line with comma-free values ends in a newline and reads back as profile, url, views, likes, comments |
| `Popup.IsoDate` | popup.js:250-261 | `split("T")[0]`: the longest prefix of the timestamp without a "T", ending at the first "T" |
| `Popup.IsoDateBeforeT` | popup.js:250-261 | the date part of `date + "T" + time` is `date` |
| `Popup.FileNameOfTimestamp` | popup.js:249-261 | for the timestamp `date + "T" + time`, the file is `instagram_reels_` or `instagram_posts_`, the profile ("null" if none), "_", that date, and ".csv" |
| `Popup.PopupState.constructor` | popup.js:3-6 | the limit starts at 25 items, with no profile, no content type and no data |
| `Popup.PopupState.SelectLimit` | popup.js:137-141 | a clicked option sets the limit and nothing else |
| `Popup.PopupState.ApplyDetection` | popup.js:28-51 | a detected profile sets the profile and content type; otherwise nothing changes |
| `Popup.PopupState.ReceiveData` | popup.js:165-205 | data is stored only when a profile and content type are known and the response succeeded; nothing else changes |
| `Popup.PopupState.ExportCsv` | popup.js:238-263 | no file without data, nor when a posts caption throws; otherwise the file named by `FileName` with content `CsvContent` |

## Left out

- The DOM is abstracted to a container mapping each selector text to its matches in document order. `closest`, `querySelector` and element attributes are inputs.
- The container's selector map is unconstrained: it need not agree with any real page (an element matched by `[data-testid="views"] span` need not be among the `span` matches, say). The general lemmas hold for every map; the containers of the findings' examples are chosen so that a browser could produce them.
- `waitForContent`, the timers and the real scrolling are left out. They are I/O. The scroll sequence is a list of `ScrollStep`s.
- The Chrome APIs are left out: messaging, script injection, tab queries, `Blob` and the download. So are `console` and the popup's text, styles and buttons.
- `Math.random()` is not modelled as a value. A random fallback is `Random(bound)`, meaning some number below the bound.
- The clock and the locale are inputs or symbolic. `new Date().toISOString()` is a parameter of `ExportCsv`. A `datetime` attribute gives a symbolic `LocaleDate`, and "today" is the symbolic `Today`.
- `NumberText.ParseNumber`: the decimal scaling is exact. Floating-point rounding of `parseFloat(...) * 10^e` and counts beyond 2^53 are not modelled.
- Strings are sequences of Unicode scalar values, while JavaScript measures UTF-16 code units. For text with characters outside the Basic Multilingual Plane, the `length > 10` test and `substring(0, 200)` count differently.
- `toLowerCase` covers ASCII letters and the Kelvin sign only. No other character lowers into the set `parseNumber` keeps.
- `Extraction.PostOf` and `Extraction.ReelOf`: when a record's extraction throws is an input flag on the link. Every extractor catches its own errors, so no input that makes the builders' `catch` run is known.
- The `profile` argument of `extractData` and the builders is never read by the code, so it is not a parameter.
- The `catch` of `detectInstagramContent` and of `initializePopup` (script-injection failures) is left out. It leads to "not a profile", which `ApplyDetection` handles like any other non-profile result.
- `ExtractData` reads `contentType` as the exact string "Reels", as the code does. The popup always sends "Posts" or "Reels", so the two content types are not connected by a lemma across the message boundary.
- Where the extension's design description and the code differ, the model follows the code:
  - empty text parses to 0, and digit-free text to 0 or, when a `k`, `m` or `b` survives cleaning, to NaN; never to "no value";
  - links are not deduplicated;
  - there is no in-flight guard;
  - there is no stagnation stop, and the scroll ceiling is 20;
  - the wait for content is unbounded;
  - a missing date falls back to today's date rather than failing;
  - a missing metric is random rather than "unavailable".

## Findings

| source | as written | input that shows it | evidently intended | confidence | as-written member | corrected member |
|---|---|---|---|---|---|---|
| content.js:214-215,219,240-241 | `button span:contains("like")` is not valid CSS. The browser's `querySelectorAll` throws, so the `catch` returns a random count. The `span:contains` selector and the whole `button[aria-label]` pass are never reached. | a post whose only like count is a button with `aria-label="1,234 Likes"`, which the case-sensitive `[aria-label*="like"]` selectors do not match | scan every selector, then the buttons, before any fallback | high (not executed) | `FieldExtraction.ContainsSelectorHidesButtonLikes` | `FieldExtraction.IntendedLikesScanEverySelector` |
| content.js:254,258,269-270 | `button span:contains("comment")` throws in the browser, so comments found only there are replaced by a random count | a post whose only comment count is a button span with text "12 comments" | narrow button spans to those mentioning "comment" and read them | high (not executed) | `FieldExtraction.ContainsSelectorHidesComments` | `FieldExtraction.CommentsOnlyInButtonSpan` |
| content.js:279-280,284,295-296 | `span:contains("views")` throws, so `[data-testid="views"] span` is never queried | a reel whose only view count is a span with text "5 Views" under `[data-testid="views"]`, which `span:contains("views")` would pass over | scan all three view selectors in order | high (not executed) | `FieldExtraction.ContainsSelectorHidesViews` | `FieldExtraction.IntendedViewsScanEverySelector` |

For each finding, the as-written member runs the code's own chain under
the `Standard` engine, and shows on the named input that the count read
differs from the intended one. The corrected member states the whole
intended chain under the `JQueryLike` engine, and the paired general lemmas
(`StandardLikesSkipButtons`, `CommentsFirstParsed`,
`StandardViewsScanFirstSelectorOnly`) state what a browser does instead
for every container. All other members use the same definitions, so the
record builders can be run with either engine.

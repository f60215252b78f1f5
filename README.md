# Marketing campaigns dashboard — a verified model

The dashboard is one page: a fixed list of six marketing campaigns, a status
selector (Active or Paused), a free-text search box and a totals row. The page
shows the campaigns with the selected status whose name contains the search
text. Before comparing, the search text is trimmed of surrounding whitespace
and both it and the name are lower-cased. The result keeps the dataset's
order. The totals row sums clicks, cost and impressions over the shown
campaigns, starting from zero.

The model has six modules:

- `JsString` (`jsstring.dfy`) holds the three string operations the filter
  uses: `String.prototype.trim`, with ECMAScript's exact WhiteSpace and
  LineTerminator code points; `toLowerCase`, on the letters A–Z; and
  `includes`. It also proves their algebra: trimming is idempotent, padding
  is ignored, lower-casing commutes with trimming, and `includes` is
  equivalent to "there is an occurrence index".
- `Campaigns` (`campaigns.dfy`) holds the campaign record, the well-formedness
  and unique-id invariants, and the page's dataset.
- `Filter` (`filter.dfy`) holds the filter predicate and the filtered list.
  Its lemmas cover soundness, completeness, exactly-once and stable order,
  the blank query, and insensitivity to padding and case.
- `Aggregation` (`totals.dfy`) holds the totals reduction. It is written as a
  loop over a mutable accumulator, as the page writes it, and proved equal to
  a recursive sum specification. Lemmas show that sums add up over
  concatenation and are non-negative.
- `Dashboard` (`dashboard.dfy`) holds the `Home` component. Its state is the
  two criteria with their setters; it derives the filtered list and the
  totals from them. This module also proves that each total sums exactly the
  matching campaigns and is bounded by the dataset's total.
- `Scenarios` (`examples.dfy`) works out the page's behaviour on its own
  dataset for a few concrete criteria.

Costs are whole numbers of cents. For example, 3421.75 is `342175`, so every
sum in the model is exact.

## Model

| member | source | states |
|---|---|---|
| Campaigns.InitialDataValid | frontend/app/page.tsx:13-20 | the six campaigns have distinct ids and non-negative clicks, cost and impressions |
| Campaigns.UniqueIdsOccurOnce | frontend/app/page.tsx:13-20 | in a dataset with distinct ids, each campaign occurs exactly once |
| JsString.TrimStart | frontend/app/page.tsx:27 | the result is no longer than the input, and is empty or starts with non-whitespace |
| JsString.TrimEnd | frontend/app/page.tsx:27 | the result is no longer than the input, and is empty or ends with non-whitespace |
| JsString.TrimStartIsSuffix | frontend/app/page.tsx:27 | trimming the start drops a whitespace-only prefix and keeps the rest unchanged |
| JsString.TrimEndIsPrefix | frontend/app/page.tsx:27 | trimming the end drops a whitespace-only suffix and keeps the rest unchanged |
| JsString.Trim | frontend/app/page.tsx:27 | `trim()` gives a string no longer than its input that is empty or has non-whitespace at both ends |
| JsString.TrimIsSlice | frontend/app/page.tsx:27 | `trim()` returns the middle of its input unchanged; what it removes on each side is whitespace only |
| JsString.TrimAllWhitespace | frontend/app/page.tsx:27 | a string made only of whitespace trims to the empty string |
| JsString.TrimPadded | frontend/app/page.tsx:27 | whitespace added on either side of a string does not change its trim |
| JsString.TrimStartOfTrimEnd | frontend/app/page.tsx:27 | trimming the two ends commutes |
| JsString.TrimIdempotent | frontend/app/page.tsx:27 | trimming twice is trimming once |
| JsString.LowerChar | frontend/app/page.tsx:27-28 | A–Z map to the letter at the same position in a–z; every other code point is kept; the result is never an upper-case letter |
| JsString.ToLower | frontend/app/page.tsx:27-28 | `toLowerCase()` keeps the length |
| JsString.ToLowerAt | frontend/app/page.tsx:27-28 | `toLowerCase()` lower-cases each character in place |
| JsString.ToLowerAppend | frontend/app/page.tsx:27-28 | lower-casing a concatenation lower-cases each part |
| JsString.ToLowerIdempotent | frontend/app/page.tsx:27-28 | lower-casing twice is lower-casing once |
| JsString.ToLowerOmits | frontend/app/page.tsx:28 | a lower-case letter absent from a string in both cases is absent from its lower-cased form |
| JsString.ToLowerTrim | frontend/app/page.tsx:27 | trimming then lower-casing equals lower-casing then trimming |
| JsString.IncludesIff | frontend/app/page.tsx:28 | `includes(q)` holds exactly when `q` occurs at some index of the string |
| JsString.IncludesEmpty | frontend/app/page.tsx:28 | every string includes the empty string |
| JsString.NotIncludesMissingChar | frontend/app/page.tsx:28 | a string lacking some character of `q` does not include `q` |
| JsString.IncludesLoweredWord | frontend/app/page.tsx:28 | a lower-cased name includes the lower-cased form of any word in it |
| Filter.Visible | frontend/app/page.tsx:26-29 | the filtered list is no longer than the dataset |
| Filter.VisibleSound | frontend/app/page.tsx:28 | every shown campaign is in the dataset, has the selected status and its lower-cased name includes the normalised query |
| Filter.VisibleComplete | frontend/app/page.tsx:28 | every campaign of the dataset that matches is shown |
| Filter.VisibleMembership | frontend/app/page.tsx:28 | a campaign is shown if and only if it is in the dataset and matches |
| Filter.VisibleNone | frontend/app/page.tsx:28 | when no campaign matches, nothing is shown |
| Filter.VisibleOnly | frontend/app/page.tsx:28 | when exactly one campaign matches, it alone is shown |
| Filter.VisibleCount | frontend/app/page.tsx:28 | a matching campaign is shown as often as it occurs in the dataset; a non-matching one never |
| Filter.VisibleExactlyOnce | frontend/app/page.tsx:13-28 | over a dataset with distinct ids, each matching campaign is shown exactly once |
| Filter.MatchingIndicesExact | frontend/app/page.tsx:28 | the matching indices are increasing, in range, and are exactly the indices of matching campaigns |
| Filter.VisibleFrom | frontend/app/page.tsx:28 | filtering a suffix decides on its first campaign, then filters the rest |
| Filter.VisibleIsStableSelection | frontend/app/page.tsx:28 | the shown list is the dataset read at the matching indices, in increasing order |
| Filter.WithStatus | frontend/app/page.tsx:28 | the status-only selection contains only campaigns of that status |
| Filter.VisibleBlankQuery | frontend/app/page.tsx:27-28 | an empty or whitespace-only query filters by status alone |
| Filter.VisibleNormalized | frontend/app/page.tsx:27-28 | two queries with the same trimmed, lower-cased form show the same campaigns |
| Filter.VisibleIgnoresPadding | frontend/app/page.tsx:27 | whitespace around the query does not change what is shown |
| Filter.VisibleIgnoresCase | frontend/app/page.tsx:27 | queries that differ only in letter case show the same campaigns |
| Filter.VisibleAppend | frontend/app/page.tsx:28 | filtering a concatenation filters each part |
| Filter.VisibleIdempotent | frontend/app/page.tsx:28 | filtering the filtered list changes nothing |
| Filter.VisibleUniqueIds | frontend/app/page.tsx:28 | the shown list keeps ids distinct |
| Aggregation.TotalsSnoc | frontend/app/page.tsx:33-37 | one step of the reduce callback: appending a campaign adds its clicks, cost and impressions to the totals of the list before it |
| Aggregation.Aggregate | frontend/app/page.tsx:32-40 | the reduction, which adds each campaign into a zero accumulator, returns the sum of each field over the list |
| Aggregation.TotalsEmpty | frontend/app/page.tsx:39 | an empty list totals to zero clicks, cost and impressions |
| Aggregation.SumAppend | frontend/app/page.tsx:32-40 | sums are additive over concatenation |
| Aggregation.TotalsAppend | frontend/app/page.tsx:32-40 | the totals of a concatenation are the field-wise sum of the parts' totals |
| Aggregation.SumCons | frontend/app/page.tsx:32-40 | a campaign in front adds its field to the sum |
| Aggregation.SumNonNegative | frontend/app/page.tsx:8-40 | over campaigns with non-negative fields every sum is non-negative |
| Dashboard.VisibleSum | frontend/app/page.tsx:26-42 | each total of the shown list is the sum of that field over exactly the matching campaigns |
| Dashboard.VisibleSumBounded | frontend/app/page.tsx:26-42 | over well-formed campaigns, each total of the shown list lies between zero and the dataset's total |
| Dashboard.Home.constructor | frontend/app/page.tsx:23-24 | the page opens on Active with an empty query |
| Dashboard.Home.SetFilter | frontend/app/page.tsx:23 | selecting a status stores it and keeps the query |
| Dashboard.Home.SetQuery | frontend/app/page.tsx:24 | typing stores the raw text and keeps the status |
| Dashboard.Home.Filtered | frontend/app/page.tsx:26-29 | a campaign is shown if and only if it is in the dataset, has the selected status and its lower-cased name includes the normalised query; at most six are shown |
| Dashboard.Home.CurrentTotals | frontend/app/page.tsx:31-42 | the totals row is the totals of the currently shown campaigns |
| Scenarios.BlankMatches | frontend/app/page.tsx:27-28 | with the empty query a campaign matches exactly when its status is selected |
| Scenarios.NormalQuery | frontend/app/page.tsx:27 | a query already trimmed and without capitals is its own normal form |
| Scenarios.MissesLetter | frontend/app/page.tsx:28 | a name lacking a letter of the query in both cases does not match |
| Scenarios.HasWord | frontend/app/page.tsx:28 | a name of the selected status holding a word that lower-cases to the query matches |
| Scenarios.ActiveWithEmptyQuery | frontend/app/page.tsx:13-42 | the opening view shows ids 1, 3, 5, 6 with 34227 clicks, 856294 cents and 1121579 impressions |
| Scenarios.PausedLaunch | frontend/app/page.tsx:13-42 | Paused with "launch" shows id 4 alone, with 230 clicks, 12050 cents and 12000 impressions |
| Scenarios.ActiveNoMatch | frontend/app/page.tsx:13-42 | Active with "zzz" shows nothing and totals zero |
| Scenarios.SpringIgnoresCase | frontend/app/page.tsx:13-28 | "spring" and "SPRING" both show "Spring Sale 2025" alone |
| Scenarios.SaleIgnoresPadding | frontend/app/page.tsx:13-28 | "sale" and "  sale " both show "Spring Sale 2025" alone |

## Left out

- Rendering: the JSX markup, the table, the status drop-down and the search input are not modelled. Only the state they read and write is modelled.
- React plumbing: `useState` and `useMemo` become the `Home` class's fields and its derived `Filtered` and `CurrentTotals`. Memoisation and re-rendering are not modelled, because they do not change the values shown.
- `formatCurrency` and `Intl.NumberFormat`: locale-dependent output formatting is not modelled.
- Campaigns.Campaign: `cost` is held in integer cents instead of a JavaScript floating-point number, because float addition rounds and the model wants exact sums. The numeric fields are unbounded integers.
- Aggregation.Aggregate: adds exactly. The page adds binary floating-point numbers, so the model does not capture their rounding. The concrete cost totals are therefore stated in cents.
- JsString.ToLower: lower-cases only the letters A–Z. Other characters stay unchanged, so full Unicode case mapping is not modelled. That includes mappings that change a string's length, such as U+0130.
- JsString.IsWhitespace: lists the ECMAScript WhiteSpace and LineTerminator code points of the current Unicode version (category Zs plus TAB, VT, FF, ZWNBSP, LF, CR, U+2028 and U+2029). Space separators added to Unicode later are not covered.
- Strings are sequences of Unicode code points, while JavaScript strings are sequences of UTF-16 code units. A code point outside the Basic Multilingual Plane is one element of a model string but two code units in JavaScript. A lone surrogate code unit, which a JavaScript string may hold, cannot be represented. Searches that split or match half of a surrogate pair are therefore not modelled.

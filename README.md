# GuarDE attribution demo: a Dafny model of the mock-data core

The demo page keeps a module-level store `mockData` with three arrays. On load,
`initializeMockData` fills them. It pushes 1000 synthetic sessions, then a campaign-spend
table, then one attribution result per activated session. `populateTable` renders the
first ten records of one array as an HTML table. This project models those two routines
and the pure rules inside them, and proves what they guarantee.

Modules, one per file:

- `JsBuiltins` (`js_builtins.dfy`): the JavaScript built-ins the code relies on.
  - `null` as `Option`, and `Number.prototype.toString` on naturals as `NatToString`. Its inverse `ParseDecimal` is proved: `ParseNatToString`.
  - `padStart`, `replace` with a one-character pattern (first occurrence only) and `toUpperCase`.
  - `slice(0, n)` as `Take`.
  - `Contains` is not a built-in the code calls. It is a specification predicate for substring occurrence, used to state what a generated referrer URL carries.
- `Records` (`records.dfy`): the session, spend-row and attribution-row records, and the fixed source, campaign and device lists.
- `Generators` (`generators.dfy`): the session and spend generators as functions of their random draws.
  - Every `Math.random()` outcome and every clock-derived date string is an input.
  - The spend amount and the cost per activation are opaque `real` values.
- `Attribution` (`attribution.dfy`): the attribution block.
  - `Array.prototype.filter` is modelled first-order, over a `Criterion`.
  - `AttributeUser` is the row pushed for one activated session. `AttributionRows` is the whole list.
- `Table` (`table.dfy`): cell formatting, header text, the selected data, the table view and its HTML.
  - The `tableHTML +=` loops are the methods `HeaderHtml`, `RowHtml` and `BuildHtml`.
- `MockStore` (`mock_store.dfy`): the class `MockData`, whose methods change the store's three arrays in place.
  - The generator loops are `GenerateSessions`, `GenerateCampaignSpend` and its per-level helpers, and `GenerateAttributionResults`.
  - `InitializeMockData` runs the three. `PopulateTable` renders a table.

What the code does:

- The attribution code has no attribution window, no timestamp ordering and no URL parsing. The `attribution_window` query type that validate_queries.js:15 asks `window.sqlEngine` for belongs to code that is not available.
  - `source` is read from the session record.
  - "First" and "last" mean first and last in array order.
- It emits one row per activated **session**, not per activated user. A user with two activated sessions gets two rows, and `TwoActivationsTwoRows` proves this.
- `initializeMockData` appends to the store. `runFullQATest` in qa-test-suite.js (qa-test-suite.js:381-382) calls it a second time. A second call adds a second batch of 1000 sessions with the same ids. It then re-attributes every session in the store, old and new, and appends those rows too. `InitializeMockData` states this.
  - `SecondInitializationBreaksCorrelation` proves the consequence. After two calls on an empty store, the store holds `2·A1 + A2` attribution rows but only `A1 + A2` activated sessions. Here `A1` and `A2` are the activated sessions of each batch.
  - So once the first batch has an activation, the row-count-equals-activations check in validate_queries.js:101-104 would fail if run over `mockData`. That check reads `window.sqlEngine.data` (validate_queries.js:83), and whether that object is `mockData` depends on code that is not available.
- The header rule replaces only the first `_`. `session_start_time` heads its column as `SESSION START_TIME` (`SessionStartTimeHeader`).

The HTML methods build the header cells and each row's cells in their own strings, then
concatenate them. The result is the same string that the source's single accumulator
builds. `BuildHtml`'s postcondition states that string exactly.

## Model

| member | source | states |
|---|---|---|
| `MockStore.MockData.constructor` | script.js:2-6 | the store starts with all three arrays empty |
| `MockStore.MockData.GenerateSessions` | script.js:15-32 | the loop appends exactly the 1000 generated sessions, in index order, and changes no other field |
| `MockStore.MockData.GenerateCampaignSpend` | script.js:40-58 | the nested loops append exactly the spend table, and change no other field |
| `MockStore.MockData.AppendCampaigns` | script.js:41-57 | one source's pass appends that source's 1200-row block of the spend table |
| `MockStore.MockData.AppendAdsets` | script.js:42-56 | one campaign's pass appends that campaign's 300-row block of the spend table |
| `MockStore.MockData.AppendDates` | script.js:43-55 | one ad set's pass appends one row per date, in date order |
| `MockStore.MockData.GenerateAttributionResults` | script.js:61-79 | the loop appends exactly one row per activated session, in order, each computed from the whole session array |
| `MockStore.MockData.InitializeMockData` | script.js:9-80 | sessions, then spend, then attribution over every session now in the store, all appended to what was there |
| `MockStore.MockData.PopulateTable` | script.js:226-271 | nothing is written for an unknown table name, a missing element or no data; otherwise the HTML of the view of the first ten records is written |
| `MockStore.GeneratedAttributionConsistent` | script.js:61-79 | on a generated batch, every row either has a cost and no organic touch, or has a null cost and both touches organic with null campaigns |
| `MockStore.RenderedRowsAtMostTen` | script.js:231-245 | a rendered table has at most ten body rows |
| `MockStore.SecondInitializationBreaksCorrelation` | script.js:61-79 | after two generator runs the activated sessions number `A1 + A2`, while the rows number `2·A1 + A2`, so the two counts differ once `A1 > 0` |
| `JsBuiltins.NatToString` | script.js:21 | `toString` gives at least one digit and no leading zero |
| `JsBuiltins.ParseNatToString` | script.js:21 | reading back the decimal rendering of `n` gives `n` |
| `JsBuiltins.PadStart` | script.js:21-22 | `padStart` gives length `max(width, len)`, keeps the text as suffix and fills the rest with the pad character |
| `JsBuiltins.PaddedDecimalRoundTrip` | script.js:21-22 | zero-padding a decimal rendering keeps its value |
| `JsBuiltins.PaddedDecimalInjective` | script.js:21-22 | distinct numbers never share a zero-padded rendering, at any width |
| `JsBuiltins.ReplaceFirst` | script.js:251 | models `replace` (also used for the campaign name at script.js:48) with a one-character string pattern: the first occurrence is changed, and searching stops there. `ReplaceFirstSpec` states its meaning |
| `JsBuiltins.ToUpper` | script.js:251 | models `toUpperCase` on ASCII text: same length, each position upper-cased |
| `JsBuiltins.Take` | script.js:231-239 | models `slice(0, n)`: the result is a prefix, of length `min(n, len)` |
| `JsBuiltins.ReplaceFirstSpec` | script.js:251 | `replace('_', ' ')` keeps the length and changes only the first `_` |
| `JsBuiltins.ReplaceFirstAfterPrefix` | script.js:48 | the occurrence after an underscore-free prefix is replaced, and the rest is left as is |
| `Generators.SessionId` | script.js:21 | models the session id template: `sess_` plus the zero-padded index. `SessionIdShape` and `SessionIdInjective` state its properties |
| `Generators.UserId` | script.js:22 | models the user id template: `user_` plus the zero-padded drawn number. `UserIdInjective` states its property |
| `Generators.MarketingReferrer` | script.js:25-26 | models the marketing referrer template, with the drawn ad set and ad numbers. `MarketingReferrerNamesSource` states its property |
| `Generators.MakeSession` | script.js:16-31 | models the session literal pushed at index `i`. `MakeSessionOrganicIff` and `MakeSessionReferrerNamesItsSource` state its properties |
| `Generators.GeneratedSessions` | script.js:15-32 | models the 1000 sessions of one run, in loop order. `GeneratedSessionsWellFormed` states their properties |
| `Generators.MakeSpendRow` | script.js:44-54 | models the spend literal, including the `replace('_', ' ')` campaign name and the `adset_<i>`/`AdSet <i+1>` names |
| `Generators.SpendRowAt` | script.js:40-58 | models the row at loop position `n`, decoded into source, campaign, ad set and date |
| `Generators.SpendTable` | script.js:40-58 | models the 4800 rows of one run in loop order. `SpendTableCrossProduct` and `SpendKeysUnique` state their properties |
| `Generators.SessionIdInjective` | script.js:21 | distinct loop indices give distinct session ids |
| `Generators.SessionIdShape` | script.js:21 | for an index below 10^6 the id is `sess_` plus six digits reading as the index |
| `Generators.UserIdInjective` | script.js:22 | distinct drawn user numbers give distinct user ids |
| `Generators.MakeSessionOrganicIff` | script.js:16-30 | a session is organic exactly when its referrer is `https://guard.io/` and its campaign is null; otherwise its source and campaign come from the fixed lists |
| `Generators.MarketingReferrerNamesSource` | script.js:25-26 | a marketing referrer contains `utm_source=<source>&utm_campaign=<campaign>` as one piece, and so each parameter |
| `Generators.MakeSessionReferrerNamesItsSource` | script.js:16-30 | a generated marketing session's referrer carries that session's own `source` and `campaign_id`, side by side |
| `Generators.GeneratedSessionsWellFormed` | script.js:15-31 | the generated sessions have ids `SessionId(i)`, pairwise-distinct ids, a 0/1 activation flag, and null campaigns on organic sessions |
| `Generators.SpendPositionDecomposes` | script.js:40-43 | the loop position of (source, campaign, ad set, date) decodes back to those four indices |
| `Generators.SpendTableAt` | script.js:44-54 | the table row for (source, campaign, ad set, date) is the whole literal built for exactly those indices, including `campaign_name` and `adset_name`, with that position's own draw |
| `Generators.SpendTableCrossProduct` | script.js:40-58 | the table has 4 x 4 x 10 x 30 rows, and the row at each combination's position carries that combination |
| `Generators.AdsetRowsInTable` | script.js:43-55 | one ad set's rows are a contiguous block of the table |
| `Generators.SpendKeysUnique` | script.js:40-58 | with distinct dates, no two rows share (source, campaign, ad set, date) |
| `Attribution.Filter` | script.js:61-64 | models `Array.prototype.filter` on the session array, over a first-order criterion. `FilterSelects`, `FilterCount`, `FilterFirst` and `FilterLast` state its meaning |
| `Attribution.HasMarketing` | script.js:66 | models `hasMarketing` as an independent reference: some session of the user is non-organic |
| `Attribution.AttributeUser` | script.js:62-78 | models the row pushed for one activated session. The touch lemmas below state its fields |
| `Attribution.ActivatedSessions` | script.js:61 | models `activatedUsers`: the sessions with `is_activated === 1`, in array order |
| `Attribution.AttributionRows` | script.js:61-79 | models the rows of one run, one per activated session. `AttributionRowPerActivation` states this |
| `Attribution.FilterAppend` | script.js:61 | filtering a concatenation filters each part, and so counts add up across batches |
| `Attribution.FilterSelects` | script.js:61-64 | `filter` keeps exactly the matching elements, in increasing position order, each once |
| `Attribution.FilterCount` | script.js:61 | `filter` keeps as many elements as there are matching positions |
| `Attribution.MatchesStep` | script.js:61 | one more session adds its position to the matching positions exactly when it matches |
| `Attribution.FilterFirst` | script.js:67 | `filter` is non-empty iff some element matches, and its first element is the earliest match |
| `Attribution.FilterLast` | script.js:68 | the last element `filter` keeps is the latest match |
| `Attribution.FilterUserThenMarketing` | script.js:63-64 | filtering by user and then by non-organic source equals one filter on both conditions |
| `Attribution.AttributionRowPerActivation` | script.js:61-72 | row k comes from the k-th activated position, in array order, and copies that session's user id and start time; every activated position has its row |
| `Attribution.AttributionCountMatchesActivations` | validate_queries.js:101-104 | the row count equals the number of activated sessions |
| `Attribution.TwoActivationsTwoRows` | script.js:61-62 | a user with two activated sessions gets two rows |
| `Attribution.FirstTouchIsEarliestMarketing` | script.js:63-67 | with a marketing session, first touch is the user's earliest non-organic session in array order |
| `Attribution.LastTouchIsLatestMarketing` | script.js:63-68 | with a marketing session, last touch is the user's latest non-organic session in array order |
| `Attribution.SingleMarketingTouch` | script.js:66-68 | with exactly one non-organic session, first touch equals last touch equals that session |
| `Attribution.MarketingPrecedence` | script.js:64-75 | with a marketing session, neither touch reports `organic` |
| `Attribution.OrganicFallback` | script.js:66-68 | with no marketing session, both touches are the activating session; given the generator's invariant, both are `organic` with null campaigns |
| `Attribution.CostNullIffNoMarketing` | script.js:77 | the cost is null exactly when the user has no marketing session, and otherwise is the drawn cost |
| `Table.Keys` | script.js:248 | models `Object.keys(data[0])`: a record's keys in literal order |
| `Table.Lookup` | script.js:258 | models `row[header]`, including `undefined` for a missing key. `LookupFinds` and `LookupMissing` state its meaning |
| `Table.HeaderText` | script.js:251 | models the header expression. `HeaderTextSpec` and `HeaderAtFirstUnderscore` state its meaning |
| `Table.View` | script.js:248-267 | models the header texts and the formatted cell texts of each row. `ViewShape` states its shape |
| `Table.Html` | script.js:247-268 | models the thead/tbody string, to which `BuildHtml` is proved equal |
| `Table.TableData` | script.js:229-242 | models the `switch`: the first ten records of the named array, or nothing for an unknown name. `TableDataFirstTen` states this |
| `Table.SessionRecord` | script.js:20-31 | models the session literal as a key-value record, keys in literal order |
| `Table.SpendRecord` | script.js:44-54 | models the spend literal as a key-value record, keys in literal order |
| `Table.AttributionRecord` | script.js:70-78 | models the attribution literal as a key-value record, keys in literal order |
| `Table.LookupFinds` | script.js:258 | `row[header]` finds the value stored under the key's first occurrence |
| `Table.LookupMissing` | script.js:258 | `row[header]` for a missing key is `undefined` |
| `Table.FormatCell` | script.js:258-263 | null or undefined becomes `-`; a string over 50 characters becomes its first 50 plus `...`; other values are unchanged; a formatted string is at most 53 long and keeps the original's first 50 characters |
| `Table.HeaderTextSpec` | script.js:251 | a header is the key, upper-cased, with only its first `_` turned into a space |
| `Table.HeaderAtFirstUnderscore` | script.js:251 | a key `head_tail` with no `_` in `head` heads its column as upper-cased `head`, a space, then upper-cased `tail` with its own underscores kept |
| `Table.SessionStartTimeHeader` | script.js:251 | `session_start_time` becomes `SESSION START_TIME` |
| `Table.ViewShape` | script.js:248-267 | one header per key of the first record, one cell per header in every row, `-` for null/undefined and at most 53 characters for string cells |
| `Table.HeaderHtml` | script.js:249-252 | the header loop emits one `<th>` per key, in key order |
| `Table.RowHtml` | script.js:256-266 | the cell loop emits one `<td>` per header, holding the formatted value |
| `Table.BuildHtml` | script.js:247-268 | the accumulated HTML is exactly the thead/tbody rendering of the view |
| `Table.TableDataFirstTen` | script.js:229-242 | only the three known names select data; it is the first `min(10, n)` records of that array, in order |

## Left out

- Chart.js setup and updates (`script.js:83-204`, `336-388`): a foreign library fed random floating-point data.
- DOM and event glue: `showTable`, the `innerHTML` writes, `setTimeout` delays, scrolling, CSS injection and the `window.*` exports. `document.getElementById` finding the table is the `tableFound` input of `PopulateTable`.
- Random numbers, clocks and floating point.
  - Every `Math.random()` outcome is an input draw.
  - Spend amounts and costs per activation are opaque `real` values, with no bounds stated.
  - Dates and start times are opaque strings, with no `Date` arithmetic.
- The ad-id suffix draws (`Math.floor(Math.random() * 5)`) are taken as naturals, and their bound of 5 is not stated.
- Number rendering in `${value}` is the function argument `numberText`. JavaScript's float-to-string conversion is not modelled.
- `toUpperCase` handles ASCII letters only. The keys it meets are ASCII.
- `FormatCell` counts string length and takes `substring(0, 50)` in Unicode code points. JavaScript counts UTF-16 code units. A string of characters outside the Basic Multilingual Plane would be truncated in JavaScript but left unchanged by the model. Every string the program puts into a table is ASCII, where the two counts agree.
- `SpendKeysUnique` assumes the 30 dates are pairwise distinct. The code does not guarantee this, because it reads `Date.now()` again on every iteration (script.js:36-38). A run that crosses a UTC midnight can produce two equal dates, and then duplicate keys.
- qa-test-suite.js is a browser-console harness over the DOM. It is not part of this model.
- validate_queries.js is not part of this model. It drives `window.sqlEngine`, whose definition is not available. Its correlation check is the property stated by `Attribution.AttributionCountMatchesActivations`.
- `parseSourceFromUrl` is not part of this model, because its definition is not available.
- No attribution window, timestamp sort or URL parsing is modelled, because the code has none.

# Derived-data layer of the exchange analytics dashboard, in Dafny

This project models the small calculation-and-classification layer inside three React
components of the analytics dashboard for a decentralised exchange:

- **Transaction list** (`TxnList`). The subgraph's raw mints, burns and swaps become uniform
  transaction records. A swap is oriented by its net token flows. The records are then filtered
  by type and counted into ten-item pages. The list is sorted in place on a numeric column, and
  one page is cut out. Each row gets a label such as "Swap WETH for DAI".
- **Position list** (`PositionList`). The page count, and the resets when the `positions` prop
  changes. Per row: pool ownership, USD value, token amounts, and each token's half of the
  accrued fees.
- **Token search** (`Select`). The filter of the token select box. A query starting with "0x" is
  searched for in the token address. Any other query is searched for in the label. Both sides are
  lower-cased first.

Modules: `Wrappers` (Option, for JavaScript's `undefined`), `Text` (lower-casing, prefix test,
substring search), `Paging` (page count and page slice, shared by both lists), `TxnList`,
`PositionList`, `Select`.

Component state that React updates through setters becomes a `class Component` in each list
module. The effects become methods, and they run in declaration order. A new `transactions` prop
first resets page and maxPage, then reparses. A new type filter first reparses, then resets the
page. The transaction list sorts its stored records in place, so the records are kept in an
`array` field, and the page is sliced out of that array after sorting.

Notes on behaviour the code shows:
- A swap where no token has a negative net is kept. Its symbols and amounts stay unset, and its
  row label reads "Swap undefined for undefined" (`TxnList.SwapLabel`).
- The row label passes the record's symbols in the order token 1, token 0. So a swap reads
  "Swap <token the pool received> for <token the pool paid out>".
- Ties in the sort are not broken by original order. Only "ordered by the key, and a permutation
  of the input" is stated (see Findings).

## Model

| member | source | states |
|---|---|---|
| `Text.Lower` | src/components/Select/index.js:35-37 | Lower-casing keeps the length and lower-cases each character in place |
| `Text.ContainsIffOccurs` | src/components/Select/index.js:35-37 | The `includes` scan is true exactly when the query occurs at some position of the text (both directions) |
| `Paging.PageOf` | src/components/TxnList/index.js:271 | A page holds at most 10 items. Item k of page p is item 10(p-1)+k of the list. The last page may be short, and a page past the end is empty |
| `Paging.PagesCover` | src/components/TxnList/index.js:247-271 | Pages 1 to maxPage, laid end to end, are the whole list: every item exactly once, in list order |
| `Paging.PagesInRangeNonEmpty` | src/components/TxnList/index.js:247-255 | For a non-empty list, every page from 1 to maxPage shows at least one item |
| `TxnList.FormatSymbolShape` | src/components/TxnList/index.js:144-145 | `TxnList.FormatSymbol`: a symbol of at most 8 characters is unchanged. A longer one becomes its first 7 characters plus "...", 10 characters in all |
| `TxnList.FormatSymbolIdempotent` | src/components/TxnList/index.js:144-145 | Truncating an already truncated symbol changes nothing |
| `TxnList.TransactionType` | src/components/TxnList/index.js:143-156 | The label is empty exactly for a type other than Adds, Removes and Swaps. It starts with "Add ", "Remove " or "Swap " exactly for the matching type. It is "Add A and B", "Remove A and B" or "Swap A for B", with A and B the formatted first and second symbols (an unset symbol prints as "undefined") |
| `TxnList.LabelDeterminesType` | src/components/TxnList/index.js:146-155 | Two equal non-empty labels come from the same record type |
| `TxnList.SwapOrientation` | src/components/TxnList/index.js:212-236 | `TxnList.SwapTxn`: when token 0's net is negative, the pair's order is kept, with the absolute nets. Otherwise, when token 1's net is negative, symbols and amounts are swapped. Otherwise nothing is set. Amounts are set together with symbols, token 0's is positive and token 1's is at least 0. The transaction id, timestamp, `to` account and USD amount are copied from the swap |
| `TxnList.SwapLabel` | src/components/TxnList/index.js:281 | `TxnList.RowLabel` of a swap names the token the pool received first and the token it paid out second. With no negative net it reads "Swap undefined for undefined" |
| `TxnList.MintLabel` | src/components/TxnList/index.js:281 | The row label of a mint is "Add <token 1> and <token 0>", with both symbols formatted: line 281 passes token 1 first |
| `TxnList.BurnLabel` | src/components/TxnList/index.js:281 | The row label of a burn is "Remove <token 1> and <token 0>", with both symbols formatted |
| `TxnList.SwapExample` | src/components/TxnList/index.js:213-222 | Token 0: 0 in and 10 out; token 1: 5 in and 0 out. The record gets token 0 with 10 and token 1 with 5 |
| `TxnList.ParseTransactions` | src/components/TxnList/index.js:178-238 | Records are built only when mints, burns and swaps are all present. They are then all mints, then all burns, then all swaps, each pushed in input order |
| `TxnList.NormalizedLayout` | src/components/TxnList/index.js:180-238 | There is one record per event, in the order mints, burns, swaps. A mint gives Adds, and a burn gives Removes. Each copies its event's transaction id as hash, and its timestamp, both amounts, USD amount and the pair's two symbols. A mint's account is `to` and a burn's is `sender`. A swap gives its classified record |
| `TxnList.FilterByType` | src/components/TxnList/index.js:240-245 | The filtered list is no longer than the input, and every record in it comes from the input and passes the filter |
| `TxnList.FilterMembership` | src/components/TxnList/index.js:240-245 | A record is kept exactly when it is in the input and its type equals the filter (or the filter is All) |
| `TxnList.FilterAppend` | src/components/TxnList/index.js:240-245 | Filtering distributes over concatenation, so kept records stay in their original relative order |
| `TxnList.FilterAllKeepsEverything` | src/components/TxnList/index.js:241-244 | The filter All returns the list unchanged |
| `TxnList.FilterUniform` | src/components/TxnList/index.js:240-245 | A list whose records all pass is kept whole. One where none passes becomes empty |
| `TxnList.FilterIdempotent` | src/components/TxnList/index.js:240-245 | Filtering twice by the same type is filtering once |
| `TxnList.FilterRecoversEvents` | src/components/TxnList/index.js:180-245 | Filtering the parsed list by Adds, Removes or Swaps gives exactly the records built from the mints, the burns or the swaps |
| `TxnList.MaxPageFor` | src/components/TxnList/index.js:247-255 | The page count is 1 for an empty list and ⌈n/10⌉ otherwise |
| `TxnList.SourceComparator` | src/components/TxnList/index.js:266-270 | The comparator as written answers only -1 or 1. With the direction flag set, -1 means the first key is larger (descending). Without it, 1 means so (ascending) |
| `TxnList.SourceComparatorInconsistentOnTies` | src/components/TxnList/index.js:266-270 | For two records with equal keys, the comparator as written gives the same answer in both argument orders. Each record sorts after the other when descending and before the other when ascending |
| `TxnList.SourceComparatorTieExample` | src/components/TxnList/index.js:266-270 | Two swaps with the same timestamp, newest first: each is reported as sorting after the other |
| `TxnList.Compare` | src/components/TxnList/index.js:266-270 | The corrected comparator is negative, zero or positive exactly as the first record ranks before, level with or after the second |
| `TxnList.CompareAntisymmetric` | src/components/TxnList/index.js:266-270 | Swapping the corrected comparator's arguments negates its answer |
| `TxnList.CompareAgreesOffTies` | src/components/TxnList/index.js:266-270 | Where the keys differ, the corrected comparator answers as the one written in the source |
| `TxnList.SortedDirection` | src/components/TxnList/index.js:266-270 | In a sorted list, keys do not increase when the direction flag is set and do not decrease otherwise |
| `TxnList.SortByKey` | src/components/TxnList/index.js:265-270 | Sorting in place leaves the array ordered by the column in the chosen direction, and a permutation of what it held |
| `TxnList.Component.constructor` | src/components/TxnList/index.js:160-168 | On mount: page 1, filter All, newest first by timestamp. Records are parsed and all kept when every list is present; otherwise none are stored and maxPage is 1 |
| `TxnList.Component.ParseEffect` | src/components/TxnList/index.js:178-257 | When every list is present, the stored records are the parsed list filtered by the current type, and maxPage is their page count. Otherwise records and maxPage are untouched |
| `TxnList.Component.SetTransactions` | src/components/TxnList/index.js:172-175 | A new prop resets page and maxPage to 1, then reparses. The sort column and direction are kept. With a list missing, maxPage stays 1 and the old records stay |
| `TxnList.Component.SetTxFilter` | src/components/TxnList/index.js:259-261 | A new filter refilters the parsed records, recounts the pages and sets page 1. The sort column and direction are kept |
| `TxnList.Component.FilteredList` | src/components/TxnList/index.js:263-271 | Nothing without stored records. Otherwise the stored array is sorted in place (a permutation, ordered by the column) and the current page of it is returned |
| `PositionList.PoolOwnership` | src/components/PositionList/index.js:140 | Ownership times the total supply is the liquidity-token balance |
| `PositionList.ValueUSD` | src/components/PositionList/index.js:141 | The value times the total supply is the balance times the pool's USD reserve |
| `PositionList.Token0Amount` | src/components/PositionList/index.js:182 | The token-0 amount times the total supply is the balance times reserve 0 |
| `PositionList.Token1Amount` | src/components/PositionList/index.js:193 | The token-1 amount times the total supply is the balance times reserve 1 |
| `PositionList.HoldingsInPoolProportion` | src/components/PositionList/index.js:182-193 | The two token amounts stand in the same ratio as the pool's reserves |
| `PositionList.ShareWithinPool` | src/components/PositionList/index.js:140-141 | A balance within the supply owns between 0 and 1 of the pool. Its value and token amounts then lie between 0 and the pool's reserves |
| `PositionList.FullOwnership` | src/components/PositionList/index.js:140-141 | Holding the whole supply is worth the whole USD reserve and both token reserves |
| `PositionList.FeeShare` | src/components/PositionList/index.js:214-220 | A token with derivedETH 0 shows 0. Otherwise the share, valued at the token's USD price, is half the fees |
| `PositionList.FeeSharesAddUpToFees` | src/components/PositionList/index.js:214-237 | With both tokens priced, the two shares together are worth the accrued fees |
| `PositionList.RowOpacity` | src/components/PositionList/index.js:144 | A row is at full opacity exactly when the Remove action is offered (ownership above 0), and at 0.6 otherwise |
| `PositionList.RemoveIffPositiveBalance` | src/components/PositionList/index.js:168 | With a positive supply, Remove is offered exactly for a positive balance |
| `PositionList.MaxPageFor` | src/components/PositionList/index.js:127-135 | Floor division plus one page for a remainder, with 0 replaced by 1, gives 1 for an empty list and ⌈n/10⌉ otherwise |
| `PositionList.Component.constructor` | src/components/PositionList/index.js:113-135 | On mount, page is 1 and maxPage is the page count of the positions (1 when absent) |
| `PositionList.Component.CountPages` | src/components/PositionList/index.js:127-135 | With positions present, maxPage becomes their page count. Otherwise it is untouched |
| `PositionList.Component.SetPositions` | src/components/PositionList/index.js:122-135 | New positions reset page and maxPage to 1, then recount. The state keeps page 1 and the correct count |
| `Select.CustomFilterMeaning` | src/components/Select/index.js:32-38 | `Select.CustomFilter`: an option is shown exactly when the lower-cased query occurs in the lower-cased address (query starting with "0x") or label (any other query) |
| `Select.EmptySearchMatchesAll` | src/components/Select/index.js:35-37 | An empty query shows every option |
| `Select.OnlySearchedFieldMatters` | src/components/Select/index.js:33-37 | Two options that agree on the searched field (address for "0x" queries, label otherwise) are shown or hidden together |
| `Select.FieldCaseIgnored` | src/components/Select/index.js:35-37 | Letter case in an option's label and address does not change the outcome |
| `Select.QueryCaseIgnored` | src/components/Select/index.js:35-37 | Letter case in the query does not change the outcome while the "0x" test gives the same answer |
| `Select.UpperCasePrefixSearchesLabel` | src/components/Select/index.js:31-33 | The prefix test is case-sensitive: "0XC0" is searched for in the label and misses a token whose address starts with 0xc0 |
| `Select.LowerCasePrefixSearchesAddress` | src/components/Select/index.js:31-35 | "0xC0" is searched for in the address and finds that token |

## Findings

| source | as written | input that shows it | evidently intended | confidence | as-written member | corrected member |
|---|---|---|---|---|---|---|
| src/components/TxnList/index.js:266-270 | The sort comparator answers -1 or 1 and never 0. For equal keys it gives the same answer in both argument orders: each record sorts after the other when descending, and before the other when ascending. That is not a consistent comparator, and for such a comparator the ECMAScript specification leaves the sort order implementation-defined | two swaps with the same timestamp, newest-first: compare(a, b) = compare(b, a) = 1 | a comparator that answers 0 on ties, so the list is ordered by the column | medium (not executed) | `TxnList.SourceComparatorTieExample` | `TxnList.Compare` |

The in-place sort `TxnList.SortByKey` uses the corrected `TxnList.Compare`.

## Left out

- Rendering: JSX, styled-components CSS, media-query breakpoints, links, logos, `FormattedName`, and the number formatting `formattedNum`.
- `updateNameData` is not part of this model. Its body is not visible, so a pair carries the token symbols it would produce.
- `useEthPrice` and `useCurrentCurrency` are not part of this model. The ETH price is a parameter, and the currency choice only affects display.
- The TxnList page buttons and sort-header handlers are not modelled. In the model, page, sortDirection and sortedColumn change only through the effects, which keep the sort settings as they are.
- The position sort (`positionsSorted`) is not modelled.
- `src/contexts/V1Data.js` and the percent-change helpers it delegates to are not part of this model. Their bodies are not available.
- Amounts, reserves and prices are Dafny `real`s, not IEEE doubles. The model does not cover rounding, NaN, Infinity, or string-to-number coercion (`parseFloat`, subtracting amount strings).
- PositionList.PoolOwnership: requires a nonzero totalSupply. In JavaScript a zero supply gives NaN or Infinity, which the model does not represent.
- PositionList.ValueUSD: requires a nonzero totalSupply, for the same reason.
- PositionList.Token0Amount: requires a nonzero totalSupply, for the same reason.
- PositionList.Token1Amount: requires a nonzero totalSupply, for the same reason.
- PositionList.RowOpacity: requires a nonzero totalSupply. In JavaScript a positive balance over a zero supply is Infinity, which shows the row at full opacity.
- PositionList.FeeShare: requires a nonzero ETH price when derivedETH is nonzero. The source would divide by zero there.
- TxnList.SortKey: an unset swap amount parses to NaN in the source, which no comparison can order. The model ranks it as 0.
- Text.Lower: lower-cases ASCII letters only. JavaScript's `toLowerCase` follows Unicode case mapping.
- String lengths count characters, not UTF-16 code units as JavaScript does, so the 8-character symbol limit counts code points.
- React's effect scheduling and state batching are modelled as the effects running one after another, in declaration order, after each prop or filter change.

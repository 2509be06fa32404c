# Recent operations feed — a Dafny model

This project models the feed engine of the dashboard's recent-operations widget
(`src/components/RecentOperations.js`). The widget shows operations from a
ledger query service in a window, newest first. It fills that window in three
ways:

- the first page of an operations query, for one account or for the whole ledger;
- live operation events, filtered by the configured account, put in front while the last record is dropped;
- per-record creation times fetched afterwards, and age texts recomputed every ten seconds.

For each row it derives a summary of the operation by dispatching on the
operation type.

Modules:

- `Records` (`records.dfy`) holds the operation record. It has one `Kind` constructor per operation type the widget distinguishes, plus `Other` for every other type. It also holds the `to`/`trustee` fields the relevance filter reads and the truthiness test of the `account` property.
- `Interpreter` (`interpreter.dfy`) holds the detail summary (`operationTypeColRender`), the asset-code choice of `amount`, and the stripping of trailing dots and zeros from a formatted amount.
- `Display` (`display.dfy`) holds the type label, the age cell with its `Loading...` placeholder, and the four-character account prefix of the heading.
- `Query` (`query.dfy`) holds the default limit of 10 and the first-page URL, with the decimal text of the limit and its read-back.
- `Feed` (`feed.dfy`) holds each window operation as a function on the window value, with the lemmas about it. It also holds the class `RecentOperations`, whose methods perform the same operations step by step on the `operations` field, with loops where the source loops.

A few functions carry no contract and so have no row below. `Feed.Relevant` is the live-event filter. `Feed.NextPagingToken` is the paging-token walk. `Feed.Refreshed` is the age refresh as written. `Feed.Replay` is a series of live events. What these functions mean is stated by the lemmas and methods that name them.

In two places the code differs from what the widget evidently means to do. Both are listed under "## Findings". The model follows the code:

- The tail is popped on every kept live event, not only when the window would exceed `limit` (line 30).
- The age refresh fails on the first record without a creation time, instead of skipping it and leaving its placeholder (line 76).

Two further behaviours of the code, described without any claim about intent:

- The paging token is kept from the first (newest) record of the page with a non-empty token (lines 44-46). Nothing in the widget reads the token afterwards.
- The relevance filter compares the source account and the `to` and `trustee` fields of every record with the configured account (lines 19-23). For every operation type with a constructor of its own, this is the per-type test the comments at lines 20 and 22 describe. Only an `Other` record carrying such a field can also be kept by it.

## Model

| member | source | states |
|---|---|---|
| `Interpreter.AssetCode` | src/components/RecentOperations.js:94-98 | the XLM marker exactly for the native asset type; any other type shows its own asset code |
| `Interpreter.KeyShown` | src/components/RecentOperations.js:135 | a data name of at most 20 characters is shown unchanged; a longer one as exactly its first 20 characters followed by "..." |
| `Interpreter.Interpret` | src/components/RecentOperations.js:105-137 | no summary exactly for the unlisted types (no failure); a payment shows its amount with its asset label and the destination; a path payment shows the source maximum with the source asset's label, then the delivered amount with its asset's label, then the destination; a trust change shows the asset code and its issuer; allow_trust reads "Allowed" when `authorize` is true and "Disallowed" otherwise, naming trustor and asset code; both offer kinds show the selling amount with the selling asset's label and the bought asset's label; a merge names the account merged into; manage_data shows the shortened key |
| `Interpreter.OfferKindsAgree` | src/components/RecentOperations.js:127-131 | manage_offer and create_passive_offer with the same fields have identical summaries; the bought asset is the XLM marker iff native |
| `Interpreter.FundingIsNative` | src/components/RecentOperations.js:107-110 | an account creation shows its starting balance in XLM, flowing to the new account |
| `Interpreter.SummaryIffKnownType` | src/components/RecentOperations.js:106-136 | a record gets a summary exactly when its type tag is one of the nine listed tags |
| `Interpreter.MatchStart` | src/components/RecentOperations.js:92 | the leftmost position from which the rest of the text is dots followed by at least one zero, or the length when there is none |
| `Interpreter.StripZeros` | src/components/RecentOperations.js:92 | the result is a prefix of the formatted amount; what it removes is dots followed by zeros; no shorter prefix leaves such a tail (leftmost match) |
| `Display.TypeLabel` | src/components/RecentOperations.js:159 | create_passive_offer is labelled passive_offer; every other well-formed kind by its type tag |
| `Display.LabelDiffersOnlyForPassiveOffer` | src/components/RecentOperations.js:159 | the label differs from the type tag iff the operation is a passive offer |
| `Display.AgeCell` | src/components/RecentOperations.js:161 | the age cell is never empty: the age text when present and non-empty, "Loading..." otherwise |
| `Display.AccountPrefix` | src/components/RecentOperations.js:143 | the heading shows a prefix of the configured account of length min(4, its length), and nothing without an account |
| `Query.DefaultedLimit` | src/components/RecentOperations.js:12 | the page size is the given limit, 10 when none is given |
| `Query.DecimalText` | src/components/RecentOperations.js:39 | the limit is written as a non-empty string of decimal digits with no leading zero |
| `Query.DecimalRoundTrip` | src/components/RecentOperations.js:39 | the written limit reads back as the same number |
| `Query.OperationsPath` | src/components/RecentOperations.js:35-38 | `/accounts/<account>/operations` when an account is configured, `/operations` otherwise |
| `Query.OperationsUrl` | src/components/RecentOperations.js:35-39 | service address, then the path, then `?order=desc&limit=` and the decimal limit |
| `Query.LimitReadBack` | src/components/RecentOperations.js:39 | the URL starts with the service address and ends with the descending-order query whose digits read back as the limit |
| `Feed.FilterDecision` | src/components/RecentOperations.js:17-26 | without an account every event is kept; with one, an event is kept iff the account is its source, a payment's or path payment's `to`, a trust operation's `trustee`, or such a field of another type; an account creation or merge that names the account only as the funded or target account is discarded |
| `Feed.Stamped` | src/components/RecentOperations.js:28 | the kept event's creation time becomes the arrival instant and nothing else about it changes |
| `Feed.Prepended` | src/components/RecentOperations.js:27-31 | the window length is unchanged (an empty window stays empty); the event is at index 0; old elements 0..n-2 move to 1..n-1 |
| `Feed.PrependEvictsTail` | src/components/RecentOperations.js:29-30 | exactly one element leaves: the previous last element, or the event itself on an empty window |
| `Feed.LiveStep` | src/components/RecentOperations.js:17-31 | a discarded event leaves the window unchanged; a kept one is stamped and prepended |
| `Feed.ReplayKeepsLength` | src/components/RecentOperations.js:17-31 | no series of live events changes the window length, so it never exceeds a limit it respected |
| `Feed.PagingTokenKept` | src/components/RecentOperations.js:44-46 | a set paging token is never replaced by a page |
| `Feed.PagingTokenIsFirstNonEmpty` | src/components/RecentOperations.js:43-46 | an unset token becomes the token of the first (newest) record of the page with a non-empty token |
| `Feed.PagingTokenAllEmpty` | src/components/RecentOperations.js:43-46 | an unset token becomes the empty token when all the page's tokens are empty, and stays unset on an empty page |
| `Feed.WithTime` | src/components/RecentOperations.js:64-65 | the record's creation time and age text are set and nothing else changes |
| `Feed.Enriched` | src/components/RecentOperations.js:62-68 | the window length is preserved |
| `Feed.EnrichAbsentIsNoOp` | src/components/RecentOperations.js:62-69 | a creation time for an id not in the window leaves the window unchanged |
| `Feed.EnrichFirstMatch` | src/components/RecentOperations.js:62-67 | only the first record with the id changes, in creation time and age only; order, length and all other records are kept |
| `Feed.EnrichAfterEviction` | src/components/RecentOperations.js:58-69 | with distinct ids, a creation time arriving after its record was evicted by a live event leaves the window unchanged |
| `Feed.Aged` | src/components/RecentOperations.js:76 | the age text is recomputed from the record's creation time and nothing else changes |
| `Feed.FirstUntimed` | src/components/RecentOperations.js:75-76 | the index of the first record with no creation time (the length if none): all records before it have one |
| `Feed.RefreshedShape` | src/components/RecentOperations.js:73-79 | the refresh recomputes the age of every record before the first record with no creation time and leaves that record and the rest unchanged; length, order, ids and other fields are kept |
| `Feed.RefreshAllTimed` | src/components/RecentOperations.js:73-79 | when every record has a creation time, every age is recomputed from it |
| `Feed.PrependCapped` | src/components/RecentOperations.js:27-31 | the capacity rule (evict only when the window would exceed `limit`): never exceeds the limit, grows below it, event at index 0, the rest shifted by one |
| `Feed.ShortWindowDropsLiveEvents` | src/components/RecentOperations.js:30 | as written, a window below capacity never grows and an empty window drops every event, where the capacity rule would keep it |
| `Feed.RefreshedKnown` | src/components/RecentOperations.js:75-77 | the refresh that skips records without a creation time: every record with one gets its age recomputed, the others are unchanged |
| `Feed.RefreshesAgreeWhenAllTimed` | src/components/RecentOperations.js:75-77 | the refresh as written and the skipping refresh agree when every record has a creation time |
| `Feed.UntimedRecordFreezesLaterAges` | src/components/RecentOperations.js:76 | as written, a record without a creation time stops the refresh; a later record keeps its stale age |
| `Feed.RecentOperations.constructor` | src/components/RecentOperations.js:10-15 | the limit defaults to 10, the request URL is built from the configuration, the window is empty and the paging token unset |
| `Feed.RecentOperations.OnNewOperation` | src/components/RecentOperations.js:17-32 | the window becomes the filtered, stamped and prepended result of the event (unchanged when discarded) |
| `Feed.RecentOperations.LoadPage` | src/components/RecentOperations.js:40-49 | the window becomes old followed by the page in page order; the paging token is the result of the walk over the page |
| `Feed.RecentOperations.ApplyTransactionTime` | src/components/RecentOperations.js:58-71 | the window becomes the by-id update: the first record with the id gets the time and its age text |
| `Feed.RecentOperations.UpdateAgo` | src/components/RecentOperations.js:73-79 | the window becomes the refresh as written; `completed` is true iff every record has a creation time |

## Left out

- JSX rendering, the panel and table layout, and the `AccountLink` component. Only the texts the table derives are modelled.
- The HTTP requests and their promises. Each callback body is one method that receives the response data as parameters. Interleavings of concurrent callbacks are not modelled; each `setState` is a direct replacement of the `operations` field.
- The kick-off of one creation-time fetch per loaded record (lines 50-52). Those fetches are external; their completions are `ApplyTransactionTime`.
- The event-emitter subscription (line 54) and the ten-second timer's start and stop (lines 81-88). They only decide when `OnNewOperation` and `UpdateAgo` run.
- The clock and the time library. The current instant is a `now` parameter, a parsed creation time is an opaque `Moment`, and `fromNow(true)` is the `fromNow` function the widget is constructed with.
- The decimal formatting of amounts with seven places (line 92), done by a foreign library. Amounts are passed through to the summary as received. `StripZeros` models the regular-expression replacement on already-formatted text.
- The display label prop and the `loading` state flag, which nothing in the core reads or changes.
- Interpreter.KeyShown: counts characters as Dafny `char`s, while JavaScript's `length` and `substr` count UTF-16 code units.
- Query.DecimalText: writes every natural number in plain digits, which matches JavaScript only below 10^21. From 1e21 on JavaScript writes exponent form, and it keeps the sign or fraction of a negative or fractional limit; the model covers neither.
- Query.DefaultedLimit: takes the limit as a number. A limit given in another form (a string, say) is written into the URL as given, which the model does not cover.
- Feed.RecentOperations.UpdateAgo: the exception raised on a missing creation time is reduced to `completed == false`. The records before it are already updated, because the copied array holds the same record objects.

## Findings

| source | as written | input that shows it | evidently intended | confidence | as-written member | corrected member |
|---|---|---|---|---|---|---|
| src/components/RecentOperations.js:76 | the age refresh reads `createdAtMoment` of every record and fails on the first record whose creation time never arrived, so the records after it are not refreshed | window [r0 without creation time, r1 with a creation time and a stale age]: after the refresh r1 still has its stale age | skip records without a creation time; they show the loading placeholder | medium, not executed | `Feed.UntimedRecordFreezesLaterAges` | `Feed.RefreshedKnown` |
| src/components/RecentOperations.js:30 | the tail is popped on every kept live event, so a window below its limit never grows | an empty first page followed by any kept live event: the window stays empty | pop only when the window exceeds the limit | medium, not executed | `Feed.ShortWindowDropsLiveEvents` | `Feed.PrependCapped` |

The class `RecentOperations` performs the code as written. `Feed.RefreshedKnown` and `Feed.PrependCapped` are the corrected definitions, with their properties proved beside the as-written ones.

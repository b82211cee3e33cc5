# Sales transactions: query building, paging, client parameters, import

This project models the core of a small sales-transaction application with a
TypeScript backend and a React frontend. The backend stores one document per
sale. It answers a paged, filtered and sorted list request, and it answers a
request for the values the filter panel offers. The frontend turns the
screen's filters into request parameters and keeps the list's loading/error
state. An import script loads the dataset into the collection in batches. The
model covers:

- **QueryBuilder** (`query_builder.dfy`) models `buildQueryFilters`, which
  turns the request's text parameters into a document filter, and
  `buildSortQuery`, which resolves the sort token. It keeps the source's
  JavaScript behaviour:
  - An empty string counts as absent.
  - `split(',')` keeps blanks.
  - `parseInt` can give `NaN`, and a `NaN` bound stays in the filter.
  - An unknown token falls back to newest first.
- **Store** (`store.dfy`) is the document collection as the service uses it:
  what a filter matches, a sort on one field, find with skip and limit,
  count, distinct, and the minimum/maximum date. Regular-expression
  compilation and matching, and date parsing, are parameters (`Oracles`).
- **TransactionService** (`transaction_service.dfy`) models the page
  arithmetic: `parseInt(..) || default`, the skip, `Math.ceil`, and the
  `hasNextPage`/`hasPrevPage` envelope. It also models `getFiltersService`,
  which sorts each distinct-value list in place in an array.
- **UseTransactions** (`use_transactions.dfy`) models the client-side
  parameter object: `{ page, limit: 10, ...filters }`, with the
  multi-select lists joined by commas. It also models the hook's state
  across one fetch, and what the server reads back from the parameters.
- **SeedDatabase** (`seed_database.dfy`) models the import. Tags are split
  and trimmed. Documents are buffered and inserted 10000 at a time, and the
  collection is known only through a ghost log of clear/insert events.
- **Formatters** (`formatters.dfy`) models `formatPhoneNumber`: the leftmost
  run of ten digits becomes `+91 ddd ddd dddd`.
- **JsStrings**, **Ordering**, **Records** and **Wrappers** hold the shared
  pieces:
  - the JavaScript string built-ins the core relies on (`split`, `join`,
    `trim`, `parseInt` and decimal rendering);
  - the default string order and an in-place array sort;
  - the transaction record;
  - `Option`/`Result`.

A non-numeric `ageMin`/`ageMax` is not ignored: the code stores `parseInt`'s
`NaN` as the bound (backend/src/utils/queryBuilder.ts:41-42), the store
refuses to cast it, and the whole request fails
(`TransactionService.NonNumericAgeFails`). The same holds for a date
parameter the store cannot read as a date. Likewise a search text that is
not a valid regular expression fails the whole request
(`TransactionService.InvalidSearchFails`).

The main screen's sort menu sends `customerName_asc`, `date_desc` and so on.
The backend only knows `name-asc`, `date-newest` and the like, so every
choice in that menu sorts newest first
(`QueryBuilder.ScreenSortValuesIgnored`).

## Model

| member | source | states |
|---|---|---|
| Records.TextField | backend/src/models/Transaction.ts:3-30 | the string fields of a transaction by name; the record carries all 26 schema fields |
| JsStrings.Split | backend/src/utils/queryBuilder.ts:28 | `split(',')` yields one more piece than there are separators, and no piece contains the separator |
| JsStrings.JoinSplit | backend/src/utils/queryBuilder.ts:28 | joining the pieces of a split with the same separator gives back the original text |
| JsStrings.SplitJoin | frontend/src/hooks/useTransactions.ts:23-37 | splitting a join gives back any non-empty list whose elements do not contain the separator |
| JsStrings.SplitJoinEmpty | frontend/src/hooks/useTransactions.ts:23-24 | the empty list is not recovered: its join splits into `[""]` |
| JsStrings.JoinEmptyIff | frontend/src/hooks/useTransactions.ts:23-24 | the join of a non-empty list is empty exactly when the list is `[""]` |
| JsStrings.Trim | backend/src/utils/seedDatabase.ts:31 | `trim()` returns a substring without white space at either end, and removes only white space |
| JsStrings.TrimIdle | backend/src/utils/seedDatabase.ts:31 | trimming text that already starts and ends with a non-space character changes nothing |
| JsStrings.ParseIntText | backend/src/services/transactionService.ts:21-22 | `parseInt` reads back the decimal text of any integer, with leading white space and a non-numeric tail ignored |
| JsStrings.ParseInt | backend/src/utils/queryBuilder.ts:41-42 | `parseInt` gives a number only for text that holds a decimal digit |
| JsStrings.SignedHasDigit | backend/src/utils/queryBuilder.ts:41-42 | a signed number read after the leading white space starts with a digit |
| JsStrings.Join | frontend/src/hooks/useTransactions.ts:23-36 | joining a non-empty list of separator-free pieces puts exactly one separator between each two pieces |
| JsStrings.ParseIntNoDigit | backend/src/utils/queryBuilder.ts:41-42 | text without a decimal digit parses to `NaN` |
| JsStrings.ParseOptionalInt | backend/src/services/transactionService.ts:21 | `parseInt` of a missing parameter is `NaN` |
| Ordering.BelowTotal | backend/src/services/transactionService.ts:80-84 | the default string order is total: two strings are equal or one is below the other |
| Ordering.BelowTransitive | backend/src/services/transactionService.ts:80-84 | the default string order is transitive |
| Ordering.BelowIrreflexive | backend/src/services/transactionService.ts:80-84 | no string is below itself |
| Ordering.SortInPlace | backend/src/services/transactionService.ts:80-84 | `array.sort()` leaves the array sorted and a permutation of its old contents |
| Ordering.SortedDistinctAscending | backend/src/services/transactionService.ts:80-84 | a sorted list without repetitions is strictly ascending |
| Ordering.AscendingUnique | backend/src/services/transactionService.ts:80-84 | two strictly ascending lists with the same elements are equal |
| QueryBuilder.InstallSearch | backend/src/utils/queryBuilder.ts:19-24 | the search rule adds `$or` exactly when `search` is non-empty |
| QueryBuilder.InstallMultiSelect | backend/src/utils/queryBuilder.ts:27-61 | a multi-select rule adds `{ $in: split }` under its key exactly when that parameter is non-empty |
| QueryBuilder.InstallAgeRange | backend/src/utils/queryBuilder.ts:39-43 | the age rule adds a range when either bound is given, with each side set only when its own parameter is given |
| QueryBuilder.InstallDateRange | backend/src/utils/queryBuilder.ts:64-68 | the date rule adds a range when either bound is given, with each side set only when its own parameter is given |
| QueryBuilder.BuildQueryFilters | backend/src/utils/queryBuilder.ts:15-71 | the rules applied in order build exactly the filter `QueryFilter` describes, key by key |
| QueryBuilder.AppliedInOrderIsQueryFilter | backend/src/utils/queryBuilder.ts:15-71 | the eight rules applied in the source's order to the empty filter give the filter `QueryFilter` describes |
| QueryBuilder.MultiSelectClause | backend/src/utils/queryBuilder.ts:27-31 | a non-empty multi-select parameter becomes `{ $in: split }` of its text under its own key |
| QueryBuilder.QueryFilter | backend/src/utils/queryBuilder.ts:15-71 | the filter holds only the eight filter keys: `$or` iff `search` is given, `age` iff an age bound is given, `date` iff a date bound is given, each multi-select key iff its parameter is given; `$or`, `age` and `date` hold a pattern list, a number range and a date range, and the others a membership list |
| QueryBuilder.FilterOverAdd | backend/src/utils/queryBuilder.ts:15-71 | applying one more rule extends the filter by exactly that rule's clause |
| QueryBuilder.EmptyFilterIff | backend/src/utils/queryBuilder.ts:15-71 | the filter is empty if and only if every filter parameter is absent or empty |
| QueryBuilder.SearchInstallsOr | backend/src/utils/queryBuilder.ts:19-24 | `$or` is present iff `search` is given, and holds two case-insensitive patterns on name and phone with the search text |
| QueryBuilder.MultiSelectMembership | backend/src/utils/queryBuilder.ts:27-61 | a multi-select key is present iff its parameter is given; its list has one piece more than commas, no piece holds a comma, and the pieces join back to the text |
| QueryBuilder.AgeRangeClause | backend/src/utils/queryBuilder.ts:39-43 | `age` is present iff either bound is given; each side is present iff given, and holds `parseInt` of the text, `NaN` included |
| QueryBuilder.DateRangeClause | backend/src/utils/queryBuilder.ts:64-68 | `date` is present iff either bound is given; each side is present iff given, and holds the given text |
| QueryBuilder.OnlyFilterParamsMatter | backend/src/utils/queryBuilder.ts:15-71 | two requests that agree on the ten filter parameters get the same filter |
| QueryBuilder.SameClausesSameFilter | backend/src/utils/queryBuilder.ts:15-71 | parameters that install the same keys with the same clauses build the same filter |
| QueryBuilder.EmptyIsAbsent | backend/src/utils/queryBuilder.ts:19 | an empty parameter builds the same filter as a missing one |
| QueryBuilder.BuildSortQuery | backend/src/utils/queryBuilder.ts:73-90 | the direction is always 1 or -1 |
| QueryBuilder.SortTokensBijective | backend/src/utils/queryBuilder.ts:74-86 | the six tokens name six different orders, and each field/direction pair is named by one of them |
| QueryBuilder.UnknownSortIsNewestFirst | backend/src/utils/queryBuilder.ts:87-88 | any other token, and no token, gives date descending |
| QueryBuilder.ScreenSortValuesIgnored | frontend/src/components/SalesManagementSystem.tsx:364-369 | every value of the main screen's sort menu resolves to date descending |
| Store.Matches | backend/src/services/transactionService.ts:32-39 | the empty filter matches every document |
| Store.MatchesUnion | backend/src/services/transactionService.ts:32-39 | a filter is a conjunction: a document matches the union of two filters on different keys iff it matches both |
| Store.Select | backend/src/services/transactionService.ts:33 | the selected documents are exactly the stored ones that match the filter, and no more than are stored |
| Store.SelectMultiplicity | backend/src/services/transactionService.ts:33 | each matching document is selected as many times as it is stored, and a non-matching one never |
| Store.SelectAll | backend/src/utils/queryBuilder.ts:16 | the empty filter selects the whole collection in order |
| Store.SelectNone | backend/src/services/transactionService.ts:33 | a filter nothing matches selects nothing |
| Store.PrecedesTotal | backend/src/services/transactionService.ts:34 | any two documents can be ordered by the sort field in either direction |
| Store.Insert | backend/src/services/transactionService.ts:34 | inserting into a sorted list keeps it sorted and adds exactly one element |
| Store.SortRecords | backend/src/services/transactionService.ts:34 | the sort yields a permutation of the matches ordered by the sort field and direction |
| Store.Window | backend/src/services/transactionService.ts:35-36 | skip and limit keep at most `limit` of the records, all taken from the sorted list |
| Store.Find | backend/src/services/transactionService.ts:33-37 | find answers iff the filter can be cast, its patterns compile and the skip is not negative; an uncastable filter is a cast error; the answer holds at most `limit` documents, each stored and matching |
| Store.FindWindow | backend/src/services/transactionService.ts:33-37 | with a positive limit, find answers the slice from `skip` to `skip + limit` of the sorted matches, clipped to their number |
| Store.Count | backend/src/services/transactionService.ts:38 | count answers iff the filter can be cast and its patterns compile; the count is at most the stored number, and 0 iff nothing matches |
| Store.DistinctValues | backend/src/services/transactionService.ts:63-67 | `distinct` lists each value the field, or each element of `tags`, takes in the collection, once |
| Store.Dedupe | backend/src/services/transactionService.ts:63-67 | removing repetitions keeps exactly the same elements, each once |
| Store.MinDate | backend/src/services/transactionService.ts:68-76 | `$min` of the dates is present iff the collection is non-empty, and is one document's date and at most every date |
| Store.MaxDate | backend/src/services/transactionService.ts:68-76 | `$max` of the dates is present iff the collection is non-empty, and is one document's date and at least every date |
| TransactionService.IntOr | backend/src/services/transactionService.ts:21-22 | `parseInt` with a fallback is never 0; it is the parsed number when that is a non-zero number, and equals the fallback exactly when the text parses to `NaN`, 0 or the fallback |
| TransactionService.PageNumber | backend/src/services/transactionService.ts:21 | the page is never 0 |
| TransactionService.PageLimit | backend/src/services/transactionService.ts:22 | the page size is never 0 |
| TransactionService.PageDefaults | backend/src/services/transactionService.ts:21-22 | missing, non-numeric or zero paging parameters give page 1 of size 10 |
| TransactionService.PageParamsRoundTrip | backend/src/services/transactionService.ts:21-22 | a page and page size sent as decimal text are read back as the same numbers |
| TransactionService.CeilDiv | backend/src/services/transactionService.ts:45 | `Math.ceil(total / limit)` is the least integer whose multiple of a positive limit covers the total, and likewise for a negative limit |
| TransactionService.BelowCeil | backend/src/services/transactionService.ts:48 | `k < ceil(total / limit)` exactly when `k * limit < total` |
| TransactionService.GetTransactionsService | backend/src/services/transactionService.ts:20-52 | the service answers what `Transactions` describes: find and count under the built filter and sort, with the envelope |
| TransactionService.Respond | backend/src/services/transactionService.ts:20-51 | the request succeeds iff the filter can be cast, its patterns compile and the skip is not negative; an uncastable filter is a cast error; the envelope echoes the page and page size; the page holds at most `limit` documents, each stored and matching, and the total is at most the stored number |
| TransactionService.Transactions | backend/src/services/transactionService.ts:20-51 | an answered request had a castable, compilable built filter; its page number is the requested one, and its documents, at most the page size of them, are stored and match the built filter |
| TransactionService.Ranked | backend/src/services/transactionService.ts:33-34 | the list the pages are cut from holds exactly the matching documents, each as many times as it is stored, in sort order |
| TransactionService.RespondOk | backend/src/services/transactionService.ts:41-51 | once both store calls answer, the envelope holds the records found, the total, `ceil(total / limit)` pages and the two flags |
| TransactionService.RespondPage | backend/src/services/transactionService.ts:20-51 | for a non-negative skip, the answer is the window of the ranked matches from the skip, with the envelope around it |
| TransactionService.PageSkip | backend/src/services/transactionService.ts:23 | for page and size of at least 1 the skip is not negative, and skip plus size is `page * limit` |
| TransactionService.PageContents | backend/src/services/transactionService.ts:23-51 | for page and size of at least 1: the page is the ranked matches from `(page-1)*limit` to `page*limit`; `currentPage` and `recordsPerPage` echo the request; the total is the number of matches and `totalPages` its ceiling over the page size |
| TransactionService.PageFlags | backend/src/services/transactionService.ts:41-51 | for page and size of at least 1: the page is non-empty iff `page <= totalPages`; there is a next page iff `page*limit < total`; there is a previous page iff `page > 1` |
| TransactionService.NothingMatches | backend/src/services/transactionService.ts:41-51 | with no match the page is empty, `totalPages` is 0 and there is no next page |
| TransactionService.UncastableFilterFails | backend/src/services/transactionService.ts:32-39 | a filter with a `NaN` or unreadable date bound fails the request |
| TransactionService.NonNumericAgeFails | backend/src/utils/queryBuilder.ts:41 | a given non-numeric `ageMin` fails the request instead of being ignored |
| TransactionService.UncompilablePatternFails | backend/src/services/transactionService.ts:32-39 | a castable filter with a pattern the store cannot compile fails the request |
| TransactionService.InvalidSearchFails | backend/src/utils/queryBuilder.ts:19-24 | a search text that is not a valid regular expression fails the whole request |
| TransactionService.NegativePageFails | backend/src/services/transactionService.ts:23 | a negative page with a positive size gives a negative skip, which fails the request |
| TransactionService.SortedDistinct | backend/src/services/transactionService.ts:80-84 | a sorted distinct list holds each value of the field exactly once, in ascending order |
| TransactionService.GetFiltersService | backend/src/services/transactionService.ts:54-87 | five option lists, each ascending and holding exactly the field's values; `dateRange` holds `null`s for an empty collection, and otherwise the least and greatest date |
| TransactionService.OptionListUnique | backend/src/services/transactionService.ts:80-84 | the option lists are determined by the collection alone |
| TransactionService.TagOptionsFlatten | backend/src/services/transactionService.ts:66 | every tag of every document is a tag option, and every tag option is some document's tag |
| UseTransactions.BuildParams | frontend/src/hooks/useTransactions.ts:16-37 | the parameters built step by step are what `RequestParams` describes, or a failure when a multi-select key holds a non-empty text |
| UseTransactions.RequestParams | frontend/src/hooks/useTransactions.ts:16-37 | building fails iff some multi-select key holds a non-empty text; otherwise the keys are the filters' plus `page` and `limit`, and every filter value that is not a non-empty list passes through |
| UseTransactions.JoinList | frontend/src/hooks/useTransactions.ts:23-37 | one step throws iff its key holds a non-empty text, and otherwise replaces a non-empty list under its key by its comma join |
| UseTransactions.JoinsInOrder | frontend/src/hooks/useTransactions.ts:23-37 | the five joins in the source's order give the parameters `RequestParams` describes |
| UseTransactions.EncodedOverAdd | frontend/src/hooks/useTransactions.ts:23-37 | each `if (…length) … join(',')` step replaces exactly that key's non-empty list by its join |
| UseTransactions.ParamsCarryPage | frontend/src/hooks/useTransactions.ts:16-20 | the parameters carry the current page and `limit` 10 |
| UseTransactions.ParamsPassThrough | frontend/src/hooks/useTransactions.ts:19 | the keys are the filter keys plus `page` and `limit`, and the values outside the multi-select keys pass through unchanged |
| UseTransactions.ParamsJoinLists | frontend/src/hooks/useTransactions.ts:23-37 | under a multi-select key a non-empty list becomes its comma join, and anything else is left as it is |
| UseTransactions.Serialize | frontend/src/hooks/useTransactions.ts:39 | the query string holds every number and text parameter, and no list |
| UseTransactions.SelectionRoundTrip | frontend/src/hooks/useTransactions.ts:23-37 | a selection without commas, other than `[""]`, reaches the server's filter as the same membership list |
| UseTransactions.EmptySelectionIgnored | frontend/src/hooks/useTransactions.ts:23-24 | an empty selection installs no clause on the server |
| UseTransactions.AgeRoundTrip | frontend/src/hooks/useTransactions.ts:19 | a numeric age bound reaches the server's filter as the same number |
| UseTransactions.PageRoundTrip | frontend/src/hooks/useTransactions.ts:16-20 | the server serves the requested non-zero page with size 10 |
| UseTransactions.TransactionsHook.constructor | frontend/src/hooks/useTransactions.ts:6-9 | the initial state is no rows, no pagination, not loading, no error |
| UseTransactions.TransactionsHook.Begin | frontend/src/hooks/useTransactions.ts:13-14 | a fetch starts loading with the error cleared and the data kept |
| UseTransactions.TransactionsHook.FetchTransactions | frontend/src/hooks/useTransactions.ts:13-47 | on success the rows and pagination are the response's with no error; on failure they are kept and the error is "Failed to fetch transactions"; loading is off afterwards |
| SeedDatabase.TrimAll | backend/src/utils/seedDatabase.ts:31 | every piece is trimmed, in order |
| SeedDatabase.ParseTags | backend/src/utils/seedDatabase.ts:31 | a missing or empty `Tags` gives `[]`; otherwise entry `i` is the trimmed `i`-th comma-separated piece, one more entry than commas, none holding a comma or surrounding white space |
| SeedDatabase.ParseTagsOfList | backend/src/utils/seedDatabase.ts:31 | clean tags written with `", "` between them read back as the same list |
| SeedDatabase.QueryKeepsBlanks | backend/src/utils/seedDatabase.ts:31 | the query side's split of the same text keeps the blanks the import trims, so the two disagree once there are two tags |
| SeedDatabase.ToDocument | backend/src/utils/seedDatabase.ts:31-60 | a row's tags are empty iff its `Tags` is missing or empty; otherwise one tag more than commas; no tag holds a comma |
| SeedDatabase.Documents | backend/src/utils/seedDatabase.ts:33-60 | one document per row, in read order, carrying the row's parsed tags |
| SeedDatabase.Chunks | backend/src/utils/seedDatabase.ts:21-76 | the batches concatenate to the documents; each batch holds 1 to 10000 documents, and every batch but the last holds exactly 10000 |
| SeedDatabase.ChunksAppend | backend/src/utils/seedDatabase.ts:63-68 | batching a whole number of full batches and then the rest is batching the whole |
| SeedDatabase.ChunksCount | backend/src/utils/seedDatabase.ts:72-76 | there are `ceil(n / 10000)` batches, and the last holds the remainder, or 10000 when there is none |
| SeedDatabase.Inserts | backend/src/utils/seedDatabase.ts:64 | one insert event per batch, in order |
| SeedDatabase.Collection.DeleteMany | backend/src/utils/seedDatabase.ts:17 | clearing the collection is logged |
| SeedDatabase.Collection.InsertMany | backend/src/utils/seedDatabase.ts:64 | inserting a batch is logged with that batch |
| SeedDatabase.AddRow | backend/src/utils/seedDatabase.ts:31-68 | after each row the buffer is below 10000, and the inserted batches are the full batches of what has been read so far |
| SeedDatabase.PushKeepsProgress | backend/src/utils/seedDatabase.ts:33-60 | pushing a document while the buffer stays below 10000 keeps the buffer equal to the unflushed tail of the documents |
| SeedDatabase.FlushKeepsProgress | backend/src/utils/seedDatabase.ts:62-68 | the push that fills the buffer is logged as the next full batch, the buffer empties and the count grows by 10000 |
| SeedDatabase.Finish | backend/src/utils/seedDatabase.ts:72-76 | a non-empty buffer is inserted as the last batch, and an empty one is not inserted |
| SeedDatabase.Seed | backend/src/utils/seedDatabase.ts:17-76 | the log is one clear followed by the inserts of `Chunks` of the rows' documents; `totalInserted` is the row count |
| SeedDatabase.SeedLogShape | backend/src/utils/seedDatabase.ts:21-76 | the inserted batches are the documents in order; all but the last are full; the last holds 1 to 10000, exactly the remainder when there is one |
| Formatters.FormatPhoneNumber | frontend/src/utils/formatters.ts:13-15 | the number changes iff it holds ten digits in a row, and then grows by exactly six characters |
| Formatters.FirstRun | frontend/src/utils/formatters.ts:14 | the match is the leftmost position where ten digits start, and there is none before it |
| Formatters.NoRunUnchanged | frontend/src/utils/formatters.ts:14 | text without ten digits in a row is returned unchanged |
| Formatters.FirstRunRewritten | frontend/src/utils/formatters.ts:13-15 | only the leftmost run is rewritten to `+91 ddd ddd dddd`; the text around it is kept; the result is 6 characters longer; the character before the run is not a digit |
| Formatters.DigitBeforeRun | frontend/src/utils/formatters.ts:14 | a digit just before a run would start an earlier run |
| Formatters.RewriteHasNoRun | frontend/src/utils/formatters.ts:14 | the replacement text holds no ten digits in a row |
| Formatters.FormatTenDigitsOnce | frontend/src/utils/formatters.ts:13-15 | a bare ten-digit number is rewritten, and formatting again changes nothing |

## Left out

- Floating point: the four amount fields are `real` and nothing computes with them. `parseInt` results are unbounded integers, so precision loss above 2^53 is not modelled. Nor is JavaScript's rendering of numbers of magnitude 1e21 or more in exponent form (`String(1e21)` is `"1e+21"`, which `parseInt` reads back as 1): `JsStrings.IntText` always writes plain digits, so `UseTransactions.AgeRoundTrip` and `UseTransactions.PageRoundTrip` hold in JavaScript only below 1e21.
- Regular-expression compilation and matching (`$regex` with option `i`) and `new Date(text)` are parameters of the store model (`Store.Oracles`), not modelled themselves. A pattern that does not compile fails the request (`Store.InvalidPattern`).
- Ordering.Below: characters compare by Unicode scalar value. JavaScript's `sort()` compares UTF-16 code units. The two differ only for characters outside the Basic Multilingual Plane.
- Store.SortRecords: the store does not specify the order of equal sort keys, and the sort fields (`date`, `customerName`, `quantity`) do repeat. The model keeps store order for ties, a stable order the store does not guarantee.
- Store.FindWindow, TransactionService.RespondPage, TransactionService.PageContents: each page is an exact slice of the model's stable tie order, so consecutive pages always split the matches cleanly. The store does not guarantee this: across equal sort keys, its `skip`/`limit` pages may overlap or leave documents out. Only the parts that hold for any tie order carry over to the program: sortedness, the count, and each returned document being a stored match.
- Store.Find: the model refuses a negative skip and treats a negative limit as its absolute value, as the store does. Connection loss and other storage failures are not modelled.
- Express query parsing is left out: repeated keys that arrive as arrays, and bracketed keys. Request parameters are a map from names to texts.
- UseTransactions.Serialize: models the query string for numbers, texts and empty lists only. A non-empty list under a key other than the five multi-select keys is not sent. URL encoding is not modelled.
- The `_id` field that `lean()` documents and the date-range aggregate carry is not modelled, nor are the `createdAt`/`updatedAt` fields that `timestamps: true` adds (backend/src/models/Transaction.ts:60); no modelled operation reads them.
- The import's other column conversions (`new Date`, `parseInt` of age and quantity, `parseFloat` of amounts) are left out. A document holds its raw row and its parsed tags.
- The import's database connection, console output, final count, `process.exit`, the `catch` block and insert failures are I/O and are not modelled.
- The hook's effect scheduling, overlapping fetches whose answers arrive out of order, and `console.error` are not modelled. The server is a function from parameters to an optional response.
- Controllers, routes, `formatCurrency`, `formatDate`, `useFilterOptions` and the screen components are not part of this model. The main screen's sort menu values are cited only to show that the resolver ignores them.

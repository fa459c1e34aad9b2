# EPC lead search: query construction and result shaping

This project is a Dafny model of the core of an EPC (Energy Performance
Certificate) lead-search service. The service lets a user filter property
certificates by postcode, energy rating, fuel, property type, area, UPRN and
floor area. It returns them a page at a time, exports them, and gives each
property an additive "lead score". The model covers:

- **QueryBuilder** (`query_builder.dfy`): the RPC backend's dynamic WHERE-clause
  builder, `buildWhereClause` with its `addCondition` closure and the
  `floorAreaConditions` table.
  - The clause is a sequence of tokens, each a literal character or a bind
    placeholder `$n`. `params` is the ordered list of bound values.
  - `AddCondition`, `RunLine` and `BuildWhereClause` are methods that grow the
    two arrays step by step. Each is proved equal to a line-by-line
    specification (`Apply`, `LineConditions`).
  - The placeholder rewrite reads one digit after `$`, exactly as the regular
    expression `\$(\d)` does.
- **PlaceholderReading** (`placeholder_reading.dfy`): how PostgreSQL reads the
  placeholders of the SQL text the builder writes.
  - PostgreSQL takes `$` and the whole run of digits after it as one
    placeholder (`Lexed`).
  - With ten or more property types, entries such as `$10` are rewritten on
    their first digit only, so PostgreSQL reads numbers the builder never
    meant.
- **Paging** (`paging.dfy`): keyset page shaping.
  - `LIMIT limit + 1`, then `pop()` of the extra row into `nextCursor`.
  - The multi-request walk a client makes by following each `nextCursor`.
- **SearchService** (`search_service.dfy`): the RPC procedures `leads.search`,
  `certificates.getByPostcode`, `leads.export` and `properties.score`, and the
  floor-area list of `filters.getOptions`.
  - The database is a parameter: `matching` holds the rows that the
    filter's conditions other than the keyset test `lmk_key > $n` select, in
    `lmk_key` order. A request with a cursor sees those of them after the
    cursor (`Paging.After`).
- **Schemas** (`schemas.dfy`) and **Constants** (`constants.dfy`): the request
  validators and the enumerations and limits they mirror.
  - Validation is modelled as functions from raw input to `Result`, with zod's
    defaults filled in and unknown keys stripped.
- **LegacyApi** (`legacy_api.dfy`): the REST version of the API.
  - The `nextPrefix` helper.
  - `/api/leads/search`: body check, incremental `baseQuery += … $${params.length}`,
    and offset pagination with `totalPages`.
  - The fixed 100-row export and the score handler.
- **SearchFilters** (`search_filters.dfy`): the search form's property-type
  toggle, year list, month option values and date-string composition.
- **ErrorState** (`error_state.dfy`): the error panel's message classification.
- **Text** and **Wrappers**: the JavaScript string built-ins the code relies on,
  and `Option`/`Result`.

The code's own comments promise four things the code does not do. The model
follows the code each time:

- **Skipped rows.** The query in `leads.search` orders by `lmk_key` for keyset
  pagination and fetches one extra record only "to determine if there's a
  next page" (backend/trpc.ts:124-125). The code instead sets `nextCursor`
  to the key of that *popped* extra row, and the next request asks for
  `lmk_key > cursor`, so that row is returned on no page. The model proves
  this behaviour (`Paging.WalkDropsPopped`, `Paging.PoppedNeverReturned`).
- **Cursor never reaches the builder.** The comment at backend/trpc.ts:110
  says the input schema must accept an optional cursor. The schema it names
  declares no cursor, and zod strips unknown keys, so the builder never sees
  one (`SearchService.LeadsSearchAlwaysFirstPage`).
- **Output schemas never met.** The comment at backend/trpc.ts:112 says the
  output schema should return `results` and an optional `nextCursor`. The
  schema it names requires `page`, `pageSize`, `totalCount` and `totalPages`
  and no cursor, so the output check fails on every response of
  `leads.search` (`SearchService.ResolverReplyRejected`,
  `SearchService.SearchLeads`). The same holds for `certificates.getByPostcode`:
  its schema would reject every object its resolver could return. The query
  in that procedure has no `FROM` and so fails before the check is reached.
- **Unknown floor-area label.** `filters.getOptions` offers `unknown` among
  the floor-area ranges (backend/trpc.ts:220) as one more choice. Its text
  `total_floor_area IS NULL OR total_floor_area = 0` is joined with `AND`
  without parentheses, so its `OR` escapes the conjunction
  (`QueryBuilder.OrOnlyFromUnknown`).

## Model

| member | source | states |
|---|---|---|
| Constants.EnergyRatingsAreAToG | lib/constants.ts:3 | the rating bands are exactly the seven letters A to G, in order, all distinct |
| Constants.FuelTypesDistinct | lib/constants.ts:6-12 | there are exactly five fuel values, all distinct |
| Constants.RatingLabelsCoverRatings | lib/constants.ts:16-24 | every band has a label, no other key has one, and each label begins with its band letter |
| Constants.FuelLabelsCoverFuelTypes | lib/constants.ts:26-32 | the fuel labels are defined for exactly the fuel values |
| Constants.DefaultsWithinLimits | lib/constants.ts:35-38 | default page size 50 lies in 1..100; default export limit 100 lies in 1..10000 |
| Schemas.ParseSearchLeads | backend/schemas.ts:3-9 | accepted exactly when rating is absent or one of A–G, fuel is absent or one of the five fuels, page >= 1 and 1 <= pageSize <= 100; on success the fields are kept, page defaults to 1 and pageSize to 50; a rejection carries at least one issue |
| Schemas.SearchLeadsIdempotent | backend/schemas.ts:3-9 | validating an already validated search request gives the same result |
| Schemas.ParseScore | backend/schemas.ts:11-13 | accepted exactly when `lmk_key` is present with length >= 1; an empty key is rejected with "Property key is required" |
| Schemas.ParseExport | backend/schemas.ts:15-20 | accepted exactly when rating and fuel are valid and 1 <= limit <= 10000; an omitted limit becomes 100 |
| Schemas.ParseCertificateSearch | backend/schemas.ts:22-28 | accepted exactly when the postcode is present and non-empty and page, pageSize, rating and fuel are valid; a missing postcode is reported first |
| Schemas.EnumsMatchConstants | backend/schemas.ts:3-28 | the schemas' rating and fuel enumerations are exactly the shared constants |
| Schemas.DefaultsFilled | backend/schemas.ts:7-19 | an empty search request becomes page 1 and pageSize 50; an empty export request gets limit 100 |
| QueryBuilder.AddCondition | backend/trpc.ts:68-73 | the values are appended after those already bound, and the clause is appended with its placeholders renumbered past the earlier values |
| QueryBuilder.AddConditionBinds | backend/trpc.ts:68-73 | for a clause written `$1..$k` for its k values, the values land at positions offset+1..offset+k of `params`, and the appended text uses exactly those placeholders |
| QueryBuilder.RenumberShifts | backend/trpc.ts:71 | the rewrite raises every local placeholder by exactly the number of values bound before |
| QueryBuilder.RenumberAppend | backend/trpc.ts:71 | the rewrite of two texts joined is the two rewrites joined, as long as the first does not end in a `$` that could pair with a digit |
| QueryBuilder.RenumberChars | backend/trpc.ts:71 | the rewrite writes no literal character that was not in the clause |
| QueryBuilder.PostcodeRendered | backend/trpc.ts:75-78 | the postcode clause renumbered past n values is `postcode >= $(n+1) AND postcode < $(n+2)` |
| QueryBuilder.InListSlots | backend/trpc.ts:81-84 | the one-digit rewrite captures, in the k-th entry of the property-type list, only k's leading digit (`$10` as `$1` followed by the text `0`) |
| QueryBuilder.InListSlotsUpToNine | backend/trpc.ts:81-84 | with at most nine property types the list uses the placeholders 1..n in order |
| QueryBuilder.RunLine | backend/trpc.ts:75-92 | line k's field test followed by `addCondition` (or a plain push for the floor area) has the effect of adding that line's conditions |
| QueryBuilder.BuiltLineByLine | backend/trpc.ts:75-92 | the arrays are what the nine lines build when run one after another in source order |
| QueryBuilder.BuildWhereClause | backend/trpc.ts:59-95 | the returned clause is `WHERE ` and the conditions joined with ` AND `; the returned params are the values of the specified conditions |
| QueryBuilder.ApplyRenders | backend/trpc.ts:65-73 | after adding conditions in turn the arrays hold `1=1` and each condition rendered past the values before it, and the values in order |
| QueryBuilder.ApplyExtends | backend/trpc.ts:68-73 | adding conditions only appends: one condition text per condition, and the values after those bound before |
| QueryBuilder.BuiltExtends | backend/trpc.ts:75-92 | the arrays after the first j lines are prefixes of the final arrays, so earlier fields' conditions come first |
| QueryBuilder.ConditionsWellNumbered | backend/trpc.ts:75-92 | with at most nine property types, every condition a filter adds is written with `$1..$k` for its k values |
| QueryBuilder.RenderedPlaceholders | backend/trpc.ts:68-73 | well-numbered conditions, added in turn, use the placeholders 1..n for their n values, in order |
| QueryBuilder.PlaceholdersContiguous | backend/trpc.ts:59-95 | with at most nine property types, the clause's placeholders are exactly 1..`params.length`, in increasing order |
| QueryBuilder.EmptyFilter | backend/trpc.ts:65-94 | a filter with no usable field gives `WHERE 1=1` and no params |
| QueryBuilder.FalsyFieldsIgnored | backend/trpc.ts:75-92 | empty strings, an empty property-type list and an unrecognised floor-area label add nothing: the arrays equal those built with those fields absent |
| QueryBuilder.BuiltParams | backend/trpc.ts:65-73 | the params are the conditions' values, in order |
| QueryBuilder.ClauseIgnoresValues | backend/trpc.ts:59-95 | two filters using the same fields, the same number of property types and the same floor-area text give the same clause and the same number of params: supplied values never reach the SQL text |
| QueryBuilder.PostcodeBinding | backend/trpc.ts:75-78 | a postcode P is upper-cased and bound as the first two params, `P` and `P + "Z"`, to the condition right after `1=1`, numbered `$1` and `$2` |
| QueryBuilder.CursorComesLast | backend/trpc.ts:92 | with a cursor, the cursor is the last param and `lmk_key > $n` (n the number of params) is the last condition |
| QueryBuilder.NoCursorNoKeyset | backend/trpc.ts:92 | without a cursor the last line adds nothing |
| QueryBuilder.FloorAreaPushed | backend/trpc.ts:88-90 | a recognised floor-area label pushes its text unchanged, as the condition right after those of the first seven lines |
| QueryBuilder.FloorAreaBindsNothing | backend/trpc.ts:88-90 | the floor-area label binds no value: the params are those bound without it |
| QueryBuilder.UnknownLabelIgnored | backend/trpc.ts:88-90 | an unrecognised floor-area label builds the same arrays as no label |
| QueryBuilder.UnknownHoldsOr | backend/trpc.ts:56 | the `unknown` floor-area text contains ` OR ` |
| QueryBuilder.NoOWithoutUnknown | backend/trpc.ts:50-57 | without the `unknown` label the clause has no capital `O` at all |
| QueryBuilder.OrOnlyFromUnknown | backend/trpc.ts:50-57 | the clause contains ` OR ` if and only if the floor area is `unknown`, so that `OR` is joined with `AND` outside parentheses |
| PlaceholderReading.LexedAppend | backend/trpc.ts:71 | PostgreSQL's reading of two texts joined is the two readings joined, when the second does not start with a digit or the first ends in a character other than a digit or `$` |
| PlaceholderReading.LexedRender | backend/trpc.ts:71 | when no digit follows a placeholder token, PostgreSQL reads exactly the tokens' placeholders |
| PlaceholderReading.InListRead | backend/trpc.ts:71-84 | the renumbered property-type list is read entry by entry, the k-th as k with the offset added to its leading digit; for the first nine entries that is k + offset, and with no offset the list reads 1..n |
| PlaceholderReading.ClauseLexed | backend/trpc.ts:94 | PostgreSQL reads `WHERE ` and the conditions joined with ` AND ` as each condition's reading in turn |
| PlaceholderReading.ClauseReadNumbered | backend/trpc.ts:59-95 | with at most nine property types, or with no postcode, rating or fuel value before the list, PostgreSQL reads the clause's placeholders as exactly 1..`params.length`, in order |
| PlaceholderReading.ReadMatchesPlaceholders | backend/trpc.ts:59-95 | with at most nine property types PostgreSQL reads exactly the placeholders the builder wrote |
| PlaceholderReading.TenTypesAfterEarlierValues | backend/trpc.ts:71-84 | with ten or more property types after a postcode, rating or fuel value, PostgreSQL reads a placeholder numbered beyond every bound value, so the reading is not 1..`params.length` |
| Paging.ShapePage | backend/trpc.ts:129-133 | the pop step produces the page `Shaped` describes |
| Paging.ShapedPage | backend/trpc.ts:125-138 | from at most limit+1 fetched rows: at most `limit` results, a prefix of the rows; `nextCursor` present exactly when limit+1 rows came back, and then the key of the removed row |
| Paging.KeptAfterIsSuffix | backend/trpc.ts:92 | in key order, the rows matching `lmk_key > key` are a suffix of the rows |
| Paging.KeptAfterRow | backend/trpc.ts:92 | in key order, the rows after the key of row i are exactly the rows after row i |
| Paging.FullPage | backend/trpc.ts:125-133 | a full fetch returns the first `limit` visible rows, and the next cursor is the key of the row after them |
| Paging.NextPageAfterPopped | backend/trpc.ts:92 | the request made with a full page's `nextCursor` sees exactly the rows after the popped row, so the popped row is on neither page |
| Paging.PagesNeededCount | backend/trpc.ts:125-133 | a walk over n visible rows makes one request per limit+1 rows, plus the last, short one |
| Paging.WalkDropsPopped | backend/trpc.ts:108-139 | following every `nextCursor` to the end returns the visible rows in key order with every (limit+1)-th one left out |
| Paging.PoppedNeverReturned | backend/trpc.ts:129-133 | the popped rows (positions limit, 2·limit+1, …) are returned on no page of the walk |
| Paging.DropEveryKeeps | backend/trpc.ts:129-133 | every row the walk returns is at a position that was not popped |
| SearchService.FirstThreeLinesOnly | backend/trpc.ts:75-92 | a filter setting only postcode, rating and fuel gets its conditions from the first three builder lines |
| SearchService.FilterNumbered | backend/trpc.ts:118 | each procedure's clause uses the placeholders 1..`params.length` |
| SearchService.PageLimit | backend/trpc.ts:115-116 | the limit is at most 100 and at most the requested size (default 50), and equals one of them |
| SearchService.ValidatedPageLimit | backend/trpc.ts:115-116 | after validation the clamp never binds: the limit is the requested page size or 50, within 1..100 |
| SearchService.FirstRows | backend/trpc.ts:125 | `LIMIT limit + 1` gives a prefix of the matching rows: limit+1 of them, or all when there are fewer |
| SearchService.SearchLeads | backend/trpc.ts:108-139 | the clause and params are the builder's for the validated request, and well numbered; results are a prefix of the matching rows of at most `limit` rows; `nextCursor` is present exactly when more than `limit` rows match, and is then the key of row `limit`; the output schema rejects the resolver's object |
| SearchService.CertificatesByPostcode | backend/trpc.ts:226-253 | the clause and params are the builder's for the validated request; the same page contract for the certificate search, and its output schema would reject every object its resolver could return |
| SearchService.LeadsSearchAlwaysFirstPage | backend/schemas.ts:3-9 | for any validated request the builder gets no keyset condition, and the fetch is always the first limit+1 rows |
| SearchService.ResolverReplyRejected | backend/schemas.ts:50-64 | the `{results, nextCursor}` or `{certificates, nextCursor}` object a resolver returns fails its paged output schema, whatever its rows and cursor |
| SearchService.NumbersCompleteReply | backend/schemas.ts:50-64 | with the four page numbers added, the same object is accepted exactly when its rows fit the list's row schema, and the answer drops the cursor |
| SearchService.ExportRowLimit | backend/trpc.ts:144-152 | the export limit is at most 10000 and at most the requested limit, and equals one of them |
| SearchService.ExportDefaultFromSchema | backend/schemas.ts:15-20 | after validation the limit is always present, so an omitted limit exports at most 100 rows and the handler's default of 1000 is never used |
| SearchService.ExportLeads | backend/trpc.ts:141-161 | the clause and params are the builder's for the validated request, and well numbered; the exported rows are a prefix of the matching rows, min(count, limit) of them, never more than 10000 |
| SearchService.LeadScore | backend/trpc.ts:195-199 | the score is one of 0, 20, 30, 50 or 80; E–G gives 50 or 80, D gives 20 or 50, and 80 exactly for a poor rating with mains gas |
| SearchService.AccumulateScore | backend/trpc.ts:195-201 | the `score +=` sequence computes `LeadScore` |
| SearchService.FuelAddsNothingOrThirty | backend/trpc.ts:197 | a null fuel adds nothing; any fuel adds 0 or 30 |
| SearchService.OnlyMainsGasScores | backend/trpc.ts:197 | among the five fuel values, only "mains gas (not community)" earns the 30 points |
| SearchService.ScoreProperty | backend/trpc.ts:183-202 | no row is the error "Property not found"; otherwise the response carries the key, the first row's rating and fuel, and their `LeadScore` |
| SearchService.NullColumnsFailOutput | backend/schemas.ts:72-77 | a found property with a null rating or fuel, which the row schemas allow, fails the score response schema |
| SearchService.FloorAreaRangesRecognised | backend/trpc.ts:220 | every offered floor-area range is a label the builder recognises, each recognised label is offered, and none twice |
| LegacyApi.NextPrefixShape | backend/index.js:30-34 | on a non-empty prefix: same length, all but the last unit kept, the last unit incremented (wrapping 0xFFFF to 0) |
| LegacyApi.NextPrefixBoundsExtensions | backend/index.js:30-34 | unless the last unit is 0xFFFF, every string starting with the prefix sorts below the result |
| LegacyApi.NextPrefixWraps | backend/index.js:30-34 | with a last unit of 0xFFFF the result's last unit is smaller than the prefix's |
| LegacyApi.LeadSearchIssuesExact | backend/index.js:75-81 | the body check finds no issue exactly when page >= 1 and 1 <= pageSize <= 100 (or they are absent) |
| LegacyApi.AnyRatingAccepted | backend/index.js:75-81 | the REST body check accepts any rating and fuel text, even ones the RPC schema rejects |
| LegacyApi.PushReferenced | backend/index.js:94-106 | appending text and `$n` right after pushing the n-th value keeps the placeholders 1..n |
| LegacyApi.StartQuery | backend/index.js:91 | the query starts as the fixed text with no placeholder |
| LegacyApi.AddPostcodeRange | backend/index.js:94-98 | a postcode pushes `postcode` and `postcode + "Z"` and appends ` AND postcode >= $(n+1) AND postcode < $(n+2)` for the n values before; otherwise nothing changes; the placeholders stay 1..`params.length` |
| LegacyApi.AddEquality | backend/index.js:99-106 | a present field pushes its value and appends its text and `$(n+1)`; otherwise nothing changes; the placeholders stay 1..`params.length` |
| LegacyApi.BuildLegacyQuery | backend/index.js:91-106 | the query is the start text followed by the postcode, rating and fuel texts of the fields given, with placeholders 1..`params.length`; the params are the postcode pair, rating and fuel that were given, in that order |
| LegacyApi.LegacyQueryMatchesBuilder | backend/index.js:91-106 | the REST query is `FROM certificates_stg ` followed by the RPC builder's clause for the same postcode, rating and fuel |
| LegacyApi.LegacyQueryRead | backend/index.js:91-106 | PostgreSQL reads the REST query's placeholders as exactly 1..`params.length` |
| LegacyApi.LegacyParamsMatchBuilder | backend/index.js:91-106 | for an already upper-case postcode, the REST handler binds the same values as the RPC builder |
| LegacyApi.PostcodeCaseDiffers | backend/index.js:94-98 | the REST handler binds the postcode as sent, while the RPC builder binds it upper-cased |
| LegacyApi.LegacyLimit | backend/index.js:109 | the limit is at most 100, and 50 when the page size is absent or 0 |
| LegacyApi.CheckedPaging | backend/index.js:109-110 | for a body that passed the check, the limit is the requested page size (or 50) in 1..100, the page is at least 1, and the offset is (page − 1)·limit >= 0 |
| LegacyApi.TotalPagesBounds | backend/index.js:130 | `ceil(count / limit)` is 0 for no rows; otherwise (totalPages − 1)·limit < count <= totalPages·limit |
| LegacyApi.PageHasRowsIff | backend/index.js:110-130 | page p has rows exactly when p <= totalPages |
| LegacyApi.OffsetSlice | backend/index.js:113-117 | `LIMIT … OFFSET …` returns exactly min(limit, count − offset) rows (none past the end), each the row at the offset plus its position |
| LegacyApi.LegacyReplyAccepted | backend/index.js:126-132 | every successful REST reply passes the RPC leads output schema unchanged |
| LegacyApi.LegacySearch | backend/index.js:83-141 | 400 with the issues exactly when page or pageSize is out of range, with no query; otherwise the query and params are those of the three fields, and the reply carries the page, page size, total count, total pages and the offset slice, and has rows exactly when page <= totalPages |
| LegacyApi.LegacyExport | backend/index.js:144-158 | the REST export ignores every filter and returns the first min(count, 100) rows of the table |
| LegacyApi.LegacyScore | backend/index.js:178-200 | 404 "Property not found" exactly when no row comes back; otherwise the same additive score as the RPC version |
| SearchFilters.Removed | components/search-filters.tsx:51 | the type is gone, every other element is kept, and nothing is added |
| SearchFilters.RemovedAppend | components/search-filters.tsx:51 | filtering distributes over concatenation, so the kept elements stay in order |
| SearchFilters.RemovedAbsent | components/search-filters.tsx:51 | filtering out a type that is not there changes nothing |
| SearchFilters.TogglePropertyType | components/search-filters.tsx:47-53 | checking appends the type at the end (no de-duplication); unchecking removes every occurrence; an empty list is reported as absent |
| SearchFilters.UncheckEmptiesIff | components/search-filters.tsx:51-52 | unchecking reports no list exactly when every selected type was the one unchecked |
| SearchFilters.CheckThenUncheck | components/search-filters.tsx:47-53 | checking a type not selected and unchecking it gives back the same list |
| SearchFilters.Years | components/search-filters.tsx:41 | there are currentYear − 2007 years, the i-th being 2008 + i |
| SearchFilters.YearsRange | components/search-filters.tsx:41 | the offered years are exactly 2008..currentYear, ascending |
| SearchFilters.MonthValueDigits | components/search-filters.tsx:224-226 | each month option value is two digits and reads back as the month's number |
| SearchFilters.MonthValuesDistinct | components/search-filters.tsx:265-267 | different months get different option values |
| SearchFilters.MonthChangeKeepsYear | components/search-filters.tsx:215-218 | choosing a month keeps the date's year (or the default); an empty month clears the date |
| SearchFilters.YearChangeKeepsMonth | components/search-filters.tsx:233-236 | choosing a year sets the year and keeps the date's month (or the default) |
| SearchFilters.DateDefaults | components/search-filters.tsx:215-277 | with no date yet, a From month lands in 2008, a From year gets month 01, a To month lands in the current year, and a To year gets month 12 |
| ErrorState.Suggestions | components/error-state.tsx:11-43 | two suggestions for connection and access errors, three for timeouts and the fallback |
| ErrorState.GetErrorMessage | components/error-state.tsx:11-43 | the title is the classified kind's title, with 2, 3, 2 or 3 suggestions |
| ErrorState.Precedence | components/error-state.tsx:14-42 | connection exactly when "network" or "fetch" occurs; timeout only without those; access only without any earlier word; the fallback otherwise |
| ErrorState.TitlesDistinct | components/error-state.tsx:14-42 | the four titles differ, so the title identifies the rule |
| ErrorState.FallbackDescription | components/error-state.tsx:38-42 | the fallback shows the message, or the default sentence when the message is empty |
| ErrorState.EmptyMessageFallsBack | components/error-state.tsx:38-42 | an empty message matches no rule and gets the default sentence |
| ErrorState.CaseInsensitive | components/error-state.tsx:12 | messages that lower-case alike get the same kind, title and suggestions |
| ErrorState.LowerCasedAlike | components/error-state.tsx:12 | a message and its lower-cased form are classified alike |
| ErrorState.UpperCaseFetch | components/error-state.tsx:12-20 | an upper-case "FETCH" beside "timeout" is a connection error |

## Left out

- The database is not modelled. `pool.query`, SQL execution and PostgreSQL
  semantics are left out: the rows a query selects are a parameter
  (`matching`), taken to be in `lmk_key` order where the query has
  `ORDER BY lmk_key`. The REST search query has no ORDER BY, so its rows are
  in whatever order the parameter gives.
- Text comparison in PostgreSQL is modelled as code-point lexicographic order
  (the "C" collation). Other collations are not modelled.
- The SQL text of `certificates.getByPostcode` (backend/trpc.ts:235-241) is
  not modelled: it is missing its `FROM`. Only its filter and its page shaping
  are.
- The CSV body of `leads.export` (json2csv) and the response headers are
  foreign library and HTTP work. The model stops at the rows handed to the
  CSV writer.
- The `ai` router is left out: it makes embedding calls to an external model
  service and does floating-point similarity arithmetic.
- `stats.market` and `health.check` are left out: one is a fixed aggregate
  query with no logic of its own, the other reports the process uptime.
  `filters.getOptions`' three `SELECT DISTINCT` queries are left out for the
  same reason; only its fixed floor-area list is modelled.
- Express, the tRPC router, CORS, helmet, compression, logging, the rate
  limiter and the SIGTERM handlers are framework wiring, concurrency and
  process lifecycle.
- Numbers are JavaScript integers only. Fractional page sizes, `NaN` from
  `parseInt` (beyond treating 0 as falsy) and non-string body values are not
  modelled.
- `toLowerCase`/`toUpperCase` are modelled on ASCII letters only; other
  characters are left unchanged.
- `floorAreaConditions[label]` is modelled as a lookup in the six own keys.
  Inherited object keys such as `constructor` are not modelled.
- The compiled copies under backend/dist are not modelled; the TypeScript
  sources are. The stale lead schema in backend/dist/schemas.js is not part of
  this model.
- Rendering-only UI, the debounced search hook, the tRPC provider and the
  health check are not part of this model.
- Paging.WalkDropsPopped: the walk is bounded by a request count (`pages`).
  The lemma assumes at least `PagesNeeded` requests; a client that stops
  early sees a prefix of the walk, which is not stated.
- SearchService.SearchLeads: the procedure is modelled without a cursor,
  because its input schema strips it. So the keyset step is stated on
  `Paging.KeysetPage` and the walk, not on the procedure.
- SearchService.NullColumnsFailOutput: the score output check is modelled only
  as the score schema's demand for non-null rating and fuel. The rest of
  zod's output validation for that procedure is not modelled.
- SearchService.CheckedPage: the paged output check tests the four page
  numbers, the list key and, for certificates, that each row is a
  certificate row. Zod's checks on the individual row fields are not
  modelled.
- Paging.After: the keyset test is applied to the rows the other conditions
  select. That is what the clause means only while it is a conjunction, so
  the paging lemmas assume a floor area other than `unknown`, whose text's
  `OR` is not parenthesised.

/** The REST version of the API (backend/index.js): the unused `nextPrefix`
    helper, `/api/leads/search` with its request check, incremental query
    text and offset pagination, the fixed CSV export and
    `/api/properties/score`.

    As in the RPC version the database is a parameter: `matching` is the rows
    the built query selects, in whatever order the database returns them (the
    query has no ORDER BY), and `LIMIT`/`OFFSET` cut a slice of it. */
module LegacyApi {
  import opened Wrappers
  import opened Text
  import Constants
  import opened Schemas
  import QueryBuilder
  import SearchService
  import PlaceholderReading

  /* ---------- nextPrefix ---------- */

  /** A UTF-16 code unit, what `charCodeAt` returns and `fromCharCode` takes. */
  newtype CodeUnit = x: int | 0 <= x < 0x1_0000

  /** `prefix.slice(0, -1) + String.fromCharCode(lastChar.charCodeAt(0) + 1)`.
      On the empty string `charCodeAt(0)` is NaN, which `fromCharCode` turns
      into the unit 0; otherwise `fromCharCode` keeps the low sixteen bits. */
  function NextPrefix(prefix: seq<CodeUnit>): seq<CodeUnit> {
    if prefix == [] then [0]
    else prefix[..|prefix| - 1] + [((prefix[|prefix| - 1] as int + 1) % 0x1_0000) as CodeUnit]
  }

  /** On a non-empty prefix: same length, all but the last unit kept, the last
      unit replaced by the next one, wrapping from 0xFFFF to 0. */
  lemma NextPrefixShape(prefix: seq<CodeUnit>)
    requires prefix != []
    ensures |NextPrefix(prefix)| == |prefix|
    ensures NextPrefix(prefix)[..|prefix| - 1] == prefix[..|prefix| - 1]
    ensures prefix[|prefix| - 1] < 0xFFFF ==>
      NextPrefix(prefix)[|prefix| - 1] as int == prefix[|prefix| - 1] as int + 1
    ensures prefix[|prefix| - 1] == 0xFFFF ==> NextPrefix(prefix)[|prefix| - 1] == 0
  {
  }

  /** Unless the last unit is 0xFFFF, the result is an exclusive upper bound
      for the range of strings starting with the prefix: every such string
      agrees with it up to the last unit of the prefix and is smaller there. */
  lemma NextPrefixBoundsExtensions(prefix: seq<CodeUnit>, s: seq<CodeUnit>)
    requires prefix != [] && prefix[|prefix| - 1] < 0xFFFF && prefix <= s
    ensures s[..|prefix| - 1] == NextPrefix(prefix)[..|prefix| - 1]
    ensures s[|prefix| - 1] < NextPrefix(prefix)[|prefix| - 1]
  {
    NextPrefixShape(prefix);
    assert s[..|prefix| - 1] == prefix[..|prefix| - 1];
    assert s[|prefix| - 1] == prefix[|prefix| - 1];
  }

  /** With a last unit of 0xFFFF the wrap makes the result smaller than the
      prefix itself, so it bounds no range. */
  lemma NextPrefixWraps(prefix: seq<CodeUnit>)
    requires prefix != [] && prefix[|prefix| - 1] == 0xFFFF
    ensures NextPrefix(prefix)[|prefix| - 1] < prefix[|prefix| - 1]
  {
  }

  /* ---------- request check ---------- */

  /** The request body as the handler reads it. */
  datatype LeadSearchBody = LeadSearchBody(
    postcode: Option<string>, rating: Option<string>, fuel: Option<string>,
    page: Option<int>, pageSize: Option<int>)

  /** `leadSearchSchema`: any strings for postcode, rating and fuel; only the
      paging numbers are checked. */
  function LeadSearchIssues(body: LeadSearchBody): seq<Issue> {
    NumberIssues("page", body.page, 1, None) + NumberIssues("pageSize", body.pageSize, 1, Some(100))
  }

  lemma LeadSearchIssuesExact(body: LeadSearchBody)
    ensures LeadSearchIssues(body) == [] <==> PageAccepted(body.page) && PageSizeAccepted(body.pageSize)
  {
  }

  /** Unlike the RPC schema, the REST one lets any rating or fuel text
      through. */
  lemma AnyRatingAccepted(r: string, f: string)
    ensures LeadSearchIssues(LeadSearchBody(None, Some(r), Some(f), None, None)) == []
    ensures r !in RATING_ENUM ==>
      ParseSearchLeads(SearchLeadsInput(None, Some(r), Some(f), None, None)).Err?
  {
  }

  /* ---------- query text ---------- */

  /** The values the handler pushes, in push order. */
  function LegacyParams(postcode: Option<string>, rating: Option<string>, fuel: Option<string>): seq<string> {
    (if QueryBuilder.Truthy(postcode) then [postcode.value, postcode.value + "Z"] else [])
    + (if QueryBuilder.Truthy(rating) then [rating.value] else [])
    + (if QueryBuilder.Truthy(fuel) then ["%" + fuel.value + "%"] else [])
  }

  /** Appending text and a reference to the value just pushed keeps the
      placeholders `$1..$n`. */
  lemma PushReferenced(q: seq<QueryBuilder.Token>, text: string, n: nat)
    requires n >= 1 && QueryBuilder.Placeholders(q) == QueryBuilder.Numbers(1, n - 1)
    ensures QueryBuilder.Placeholders(q + QueryBuilder.Chrs(text) + [QueryBuilder.Param(n)])
      == QueryBuilder.Numbers(1, n)
  {
    QueryBuilder.PlaceholdersAppend(q, QueryBuilder.Chrs(text));
    QueryBuilder.PlaceholdersAppend(q + QueryBuilder.Chrs(text), [QueryBuilder.Param(n)]);
    QueryBuilder.PlaceholdersOfText(text);
    assert QueryBuilder.Placeholders([QueryBuilder.Param(n)]) == [n];
    assert QueryBuilder.Numbers(1, n - 1) + [n] == QueryBuilder.Numbers(1, n);
  }

  /** The text the postcode range appends when `n` values are already
      pushed: references to the two values it pushes next. */
  function RangeText(n: nat): seq<QueryBuilder.Token> {
    QueryBuilder.Chrs(" AND postcode >= ") + [QueryBuilder.Param(n + 1)]
    + QueryBuilder.Chrs(" AND postcode < ") + [QueryBuilder.Param(n + 2)]
  }

  /** The text an equality appends when `n` values are already pushed: a
      reference to the value it pushes next. */
  function EqualityText(text: string, n: nat): seq<QueryBuilder.Token> {
    QueryBuilder.Chrs(text) + [QueryBuilder.Param(n + 1)]
  }

  const RATING_TEXT: string := " AND " + "current_energy_rating = "
  const FUEL_TEXT: string := " AND " + "main_fuel ILIKE "

  /** `if (postcode) { params.push(postcode); params.push(postcode + 'Z');
      baseQuery += … $${params.length - 1} … $${params.length} }`. */
  method AddPostcodeRange(baseQuery: seq<QueryBuilder.Token>, params: seq<string>, postcode: Option<string>)
    returns (baseQuery': seq<QueryBuilder.Token>, params': seq<string>)
    requires QueryBuilder.Placeholders(baseQuery) == QueryBuilder.Numbers(1, |params|)
    ensures QueryBuilder.Placeholders(baseQuery') == QueryBuilder.Numbers(1, |params'|)
    ensures params' == params + if QueryBuilder.Truthy(postcode) then [postcode.value, postcode.value + "Z"] else []
    ensures baseQuery' == baseQuery + if QueryBuilder.Truthy(postcode) then RangeText(|params|) else []
  {
    baseQuery', params' := baseQuery, params;
    if QueryBuilder.Truthy(postcode) {
      params' := params' + [postcode.value];
      params' := params' + [postcode.value + "Z"];
      PushReferenced(baseQuery', " AND postcode >= ", |params'| - 1);
      baseQuery' := baseQuery' + QueryBuilder.Chrs(" AND postcode >= ") + [QueryBuilder.Param(|params'| - 1)];
      PushReferenced(baseQuery', " AND postcode < ", |params'|);
      baseQuery' := baseQuery' + QueryBuilder.Chrs(" AND postcode < ") + [QueryBuilder.Param(|params'|)];
    }
  }

  /** `if (field) { params.push(value); baseQuery += text + $${params.length} }`. */
  method AddEquality(baseQuery: seq<QueryBuilder.Token>, params: seq<string>, present: bool, text: string, value: string)
    returns (baseQuery': seq<QueryBuilder.Token>, params': seq<string>)
    requires QueryBuilder.Placeholders(baseQuery) == QueryBuilder.Numbers(1, |params|)
    ensures QueryBuilder.Placeholders(baseQuery') == QueryBuilder.Numbers(1, |params'|)
    ensures params' == params + if present then [value] else []
    ensures baseQuery' == baseQuery + if present then EqualityText(text, |params|) else []
  {
    baseQuery', params' := baseQuery, params;
    if present {
      params' := params' + [value];
      PushReferenced(baseQuery', text, |params'|);
      baseQuery' := baseQuery' + QueryBuilder.Chrs(text) + [QueryBuilder.Param(|params'|)];
    }
  }

  const BASE_QUERY: string := "FROM certificates_stg WHERE 1=1"

  /** `let baseQuery = "FROM certificates_stg WHERE 1=1"`. */
  method StartQuery() returns (q: seq<QueryBuilder.Token>)
    ensures q == QueryBuilder.Chrs(BASE_QUERY) && QueryBuilder.Placeholders(q) == []
  {
    q := QueryBuilder.Chrs(BASE_QUERY);
    QueryBuilder.PlaceholdersOfText(BASE_QUERY);
  }

  /** The query text the search handler builds: each present condition,
      referencing the values pushed for it. */
  function LegacyTokens(postcode: Option<string>, rating: Option<string>, fuel: Option<string>): seq<QueryBuilder.Token> {
    var p := if QueryBuilder.Truthy(postcode) then 2 else 0;
    var r := if QueryBuilder.Truthy(rating) then 1 else 0;
    QueryBuilder.Chrs(BASE_QUERY)
    + (if QueryBuilder.Truthy(postcode) then RangeText(0) else [])
    + (if QueryBuilder.Truthy(rating) then EqualityText(RATING_TEXT, p) else [])
    + (if QueryBuilder.Truthy(fuel) then EqualityText(FUEL_TEXT, p + r) else [])
  }

  /** The `baseQuery +=` / `params.push` sequence of the search handler. Each
      value is referenced as `$${params.length}` right after its push, so the
      placeholders are `$1..$n` for the `n` values. The postcode is bound as
      sent, without upper-casing. */
  method BuildLegacyQuery(postcode: Option<string>, rating: Option<string>, fuel: Option<string>)
    returns (baseQuery: seq<QueryBuilder.Token>, params: seq<string>)
    ensures QueryBuilder.Placeholders(baseQuery) == QueryBuilder.Numbers(1, |params|)
    ensures params == LegacyParams(postcode, rating, fuel)
    ensures baseQuery == LegacyTokens(postcode, rating, fuel)
  {
    baseQuery := StartQuery();
    params := [];

    baseQuery, params := AddPostcodeRange(baseQuery, params, postcode);
    ghost var q1, n1 := baseQuery, |params|;
    baseQuery, params := AddEquality(baseQuery, params, QueryBuilder.Truthy(rating),
      RATING_TEXT, rating.GetOr(""));
    ghost var q2, n2 := baseQuery, |params|;
    baseQuery, params := AddEquality(baseQuery, params, QueryBuilder.Truthy(fuel),
      FUEL_TEXT, "%" + fuel.GetOr("") + "%");
    LegacyTokensSteps(postcode, rating, fuel, q1, n1, q2, n2, baseQuery);
  }

  /** The three appends of the handler spell out `LegacyTokens`. */
  lemma LegacyTokensSteps(postcode: Option<string>, rating: Option<string>, fuel: Option<string>,
                          q1: seq<QueryBuilder.Token>, n1: nat, q2: seq<QueryBuilder.Token>, n2: nat,
                          q3: seq<QueryBuilder.Token>)
    requires n1 == if QueryBuilder.Truthy(postcode) then 2 else 0
    requires n2 == n1 + if QueryBuilder.Truthy(rating) then 1 else 0
    requires q1 == QueryBuilder.Chrs(BASE_QUERY) + if QueryBuilder.Truthy(postcode) then RangeText(0) else []
    requires q2 == q1 + if QueryBuilder.Truthy(rating) then EqualityText(RATING_TEXT, n1) else []
    requires q3 == q2 + if QueryBuilder.Truthy(fuel) then EqualityText(FUEL_TEXT, n2) else []
    ensures q3 == LegacyTokens(postcode, rating, fuel)
  {
  }

  /** Three optional bound conditions after `1=1` bind their values in
      order. */
  lemma ThreeOptionalParams(p1: bool, c1: QueryBuilder.Cond, p2: bool, c2: QueryBuilder.Cond,
                            p3: bool, c3: QueryBuilder.Cond)
    requires c1.Bound? && c2.Bound? && c3.Bound?
    ensures QueryBuilder.Apply(QueryBuilder.Apply(QueryBuilder.Apply(QueryBuilder.START,
        QueryBuilder.Opt(p1, c1)), QueryBuilder.Opt(p2, c2)), QueryBuilder.Opt(p3, c3)).params
      == (if p1 then c1.values else []) + (if p2 then c2.values else []) + (if p3 then c3.values else [])
  {
    var s1 := QueryBuilder.Apply(QueryBuilder.START, QueryBuilder.Opt(p1, c1));
    var s2 := QueryBuilder.Apply(s1, QueryBuilder.Opt(p2, c2));
    QueryBuilder.ApplyOpt(QueryBuilder.START, p1, c1);
    QueryBuilder.ApplyOpt(s1, p2, c2);
    QueryBuilder.ApplyOpt(s2, p3, c3);
  }

  /** The values the RPC builder binds for a postcode, rating and fuel. */
  lemma BuilderParams(postcode: Option<string>, rating: Option<string>, fuel: Option<string>)
    ensures QueryBuilder.WhereParams(QueryBuilder.WhereInput(postcode, rating, fuel, None, None, None, None, None, None))
      == (if QueryBuilder.Truthy(postcode) then [ToUpper(postcode.value), ToUpper(postcode.value) + "Z"] else [])
       + (if QueryBuilder.Truthy(rating) then [rating.value] else [])
       + (if QueryBuilder.Truthy(fuel) then ["%" + fuel.value + "%"] else [])
  {
    var f := QueryBuilder.WhereInput(postcode, rating, fuel, None, None, None, None, None, None);
    SearchService.FirstThreeLinesOnly(f);
    SearchService.ThreeLinesApplied(f);
    ThreeOptionalParams(
      QueryBuilder.Truthy(postcode), QueryBuilder.Bound(QueryBuilder.POSTCODE_CLAUSE,
        [ToUpper(postcode.GetOr("")), ToUpper(postcode.GetOr("")) + "Z"]),
      QueryBuilder.Truthy(rating), QueryBuilder.Bound(QueryBuilder.RATING_CLAUSE, [rating.GetOr("")]),
      QueryBuilder.Truthy(fuel), QueryBuilder.Bound(QueryBuilder.FUEL_CLAUSE, ["%" + fuel.GetOr("") + "%"]));
  }

  /** The same filter through the RPC builder binds the same values, as long
      as the postcode is already upper-case: only the RPC version
      upper-cases it. */
  lemma LegacyParamsMatchBuilder(postcode: Option<string>, rating: Option<string>, fuel: Option<string>)
    requires postcode.Some? ==> ToUpper(postcode.value) == postcode.value
    ensures LegacyParams(postcode, rating, fuel)
      == QueryBuilder.WhereParams(QueryBuilder.WhereInput(postcode, rating, fuel, None, None, None, None, None, None))
  {
    BuilderParams(postcode, rating, fuel);
  }

  /** A postcode is bound as sent here and upper-cased by the RPC builder,
      so a lower-case one selects a different range in the two versions. */
  lemma PostcodeCaseDiffers(postcode: string)
    requires postcode != ""
    ensures LegacyParams(Some(postcode), None, None) == [postcode, postcode + "Z"]
    ensures QueryBuilder.WhereParams(QueryBuilder.WhereInput(Some(postcode), None, None, None, None, None, None, None, None))
      == [ToUpper(postcode), ToUpper(postcode) + "Z"]
  {
    BuilderParams(Some(postcode), None, None);
  }

  /** The state of the RPC builder's arrays, written out as the REST query
      text: `FROM certificates_stg ` then the clause so far. */
  function AsLegacyText(st: QueryBuilder.WhereState): seq<QueryBuilder.Token> {
    QueryBuilder.Chrs("FROM certificates_stg ") + (QueryBuilder.Chrs("WHERE ") + Join(st.conditions, QueryBuilder.AND))
  }

  /** One optional condition added by the RPC builder appends ` AND ` and
      its renumbered text to the query. */
  lemma LegacyTextStep(st: QueryBuilder.WhereState, present: bool, c: QueryBuilder.Cond,
                       piece: seq<QueryBuilder.Token>)
    requires |st.conditions| >= 1 && c.Bound?
    requires present ==> piece == QueryBuilder.AND + QueryBuilder.Renumber(c.clause, |st.params|)
    ensures AsLegacyText(QueryBuilder.Apply(st, QueryBuilder.Opt(present, c)))
         == AsLegacyText(st) + if present then piece else []
    ensures |QueryBuilder.Apply(st, QueryBuilder.Opt(present, c)).conditions| >= 1
    ensures |QueryBuilder.Apply(st, QueryBuilder.Opt(present, c)).params|
         == |st.params| + if present then |c.values| else 0
  {
    QueryBuilder.ApplyOpt(st, present, c);
    if present {
      var xs := st.conditions + [QueryBuilder.Renumber(c.clause, |st.params|)];
      assert xs[..|xs| - 1] == st.conditions;
    }
  }

  /** ` AND ` and a one-value clause renumbered past `n` values is the
      equality text the REST handler appends. */
  lemma EqualityPiece(prefix: string, n: nat)
    requires '$' !in prefix
    ensures QueryBuilder.AND + QueryBuilder.Renumber(prefix + "$1", n) == EqualityText(" AND " + prefix, n)
  {
    assert "$1" == ['$', '1'];
    QueryBuilder.SlotAfterText(prefix, '1', n);
    QueryBuilder.ChrsAppend(" AND ", prefix);
  }

  lemma RangePiece(n: nat)
    ensures QueryBuilder.AND + QueryBuilder.Renumber(QueryBuilder.POSTCODE_CLAUSE, n) == RangeText(n)
  {
    QueryBuilder.PostcodeRendered(n);
    assert " AND " + "postcode >= " == " AND postcode >= ";
    ConditionAfterAnd("postcode >= ", QueryBuilder.Param(n + 1), QueryBuilder.Chrs(" AND postcode < "),
      QueryBuilder.Param(n + 2));
  }

  /** ` AND ` before a condition that starts with text. */
  lemma ConditionAfterAnd(a: string, x: QueryBuilder.Token, b: seq<QueryBuilder.Token>, y: QueryBuilder.Token)
    ensures QueryBuilder.AND + (QueryBuilder.Chrs(a) + [x] + b + [y]) == QueryBuilder.Chrs(" AND " + a) + [x] + b + [y]
  {
    QueryBuilder.ChrsAppend(" AND ", a);
  }

  lemma StartText()
    ensures AsLegacyText(QueryBuilder.START) == QueryBuilder.Chrs(BASE_QUERY)
  {
    QueryBuilder.ChrsAppend("WHERE ", "1=1");
    QueryBuilder.ChrsAppend("FROM certificates_stg ", "WHERE 1=1");
  }

  /** The REST query is the RPC builder's clause for the same postcode,
      rating and fuel, after `FROM certificates_stg `: the same conditions
      with the same placeholder numbers. */
  lemma LegacyQueryMatchesBuilder(postcode: Option<string>, rating: Option<string>, fuel: Option<string>)
    ensures LegacyTokens(postcode, rating, fuel)
         == QueryBuilder.Chrs("FROM certificates_stg ")
          + QueryBuilder.WhereTokens(QueryBuilder.WhereInput(postcode, rating, fuel, None, None, None, None, None, None))
  {
    var f := QueryBuilder.WhereInput(postcode, rating, fuel, None, None, None, None, None, None);
    SearchService.FirstThreeLinesOnly(f);
    SearchService.ThreeLinesApplied(f);
    var up := ToUpper(postcode.GetOr(""));
    var c1 := QueryBuilder.Bound(QueryBuilder.POSTCODE_CLAUSE, [up, up + "Z"]);
    var c2 := QueryBuilder.Bound(QueryBuilder.RATING_CLAUSE, [rating.GetOr("")]);
    var c3 := QueryBuilder.Bound(QueryBuilder.FUEL_CLAUSE, ["%" + fuel.GetOr("") + "%"]);
    assert QueryBuilder.LineConditions(f, 1) == QueryBuilder.Opt(QueryBuilder.Truthy(postcode), c1);
    assert QueryBuilder.LineConditions(f, 2) == QueryBuilder.Opt(QueryBuilder.Truthy(rating), c2);
    assert QueryBuilder.LineConditions(f, 3) == QueryBuilder.Opt(QueryBuilder.Truthy(fuel), c3);
    LegacyTextFromLines(postcode, rating, fuel, c1, c2, c3);
  }

  lemma LegacyTextFromLines(postcode: Option<string>, rating: Option<string>, fuel: Option<string>,
                            c1: QueryBuilder.Cond, c2: QueryBuilder.Cond, c3: QueryBuilder.Cond)
    requires c1.Bound? && c1.clause == QueryBuilder.POSTCODE_CLAUSE && |c1.values| == 2
    requires c2.Bound? && c2.clause == QueryBuilder.RATING_CLAUSE && |c2.values| == 1
    requires c3.Bound? && c3.clause == QueryBuilder.FUEL_CLAUSE
    ensures AsLegacyText(QueryBuilder.Apply(QueryBuilder.Apply(QueryBuilder.Apply(QueryBuilder.START,
        QueryBuilder.Opt(QueryBuilder.Truthy(postcode), c1)), QueryBuilder.Opt(QueryBuilder.Truthy(rating), c2)),
        QueryBuilder.Opt(QueryBuilder.Truthy(fuel), c3)))
      == LegacyTokens(postcode, rating, fuel)
  {
    var s1 := QueryBuilder.Apply(QueryBuilder.START, QueryBuilder.Opt(QueryBuilder.Truthy(postcode), c1));
    var s2 := QueryBuilder.Apply(s1, QueryBuilder.Opt(QueryBuilder.Truthy(rating), c2));
    var s3 := QueryBuilder.Apply(s2, QueryBuilder.Opt(QueryBuilder.Truthy(fuel), c3));
    StartText();
    RangePiece(|QueryBuilder.START.params|);
    LegacyTextStep(QueryBuilder.START, QueryBuilder.Truthy(postcode), c1, RangeText(|QueryBuilder.START.params|));
    RatingPiece(|s1.params|);
    LegacyTextStep(s1, QueryBuilder.Truthy(rating), c2, EqualityText(RATING_TEXT, |s1.params|));
    FuelPiece(|s2.params|);
    LegacyTextStep(s2, QueryBuilder.Truthy(fuel), c3, EqualityText(FUEL_TEXT, |s2.params|));
    LegacyTokensSteps(postcode, rating, fuel, AsLegacyText(s1), |s1.params|, AsLegacyText(s2), |s2.params|,
      AsLegacyText(s3));
  }

  lemma RatingPiece(n: nat)
    ensures QueryBuilder.AND + QueryBuilder.Renumber(QueryBuilder.RATING_CLAUSE, n) == EqualityText(RATING_TEXT, n)
  {
    assert QueryBuilder.RATING_CLAUSE == "current_energy_rating = " + "$1";
    EqualityPieceFor(QueryBuilder.RATING_CLAUSE, "current_energy_rating = ", RATING_TEXT, n);
  }

  lemma FuelPiece(n: nat)
    ensures QueryBuilder.AND + QueryBuilder.Renumber(QueryBuilder.FUEL_CLAUSE, n) == EqualityText(FUEL_TEXT, n)
  {
    assert QueryBuilder.FUEL_CLAUSE == "main_fuel ILIKE " + "$1";
    EqualityPieceFor(QueryBuilder.FUEL_CLAUSE, "main_fuel ILIKE ", FUEL_TEXT, n);
  }

  lemma EqualityPieceFor(clause: string, prefix: string, text: string, n: nat)
    requires '$' !in prefix && clause == prefix + "$1" && text == " AND " + prefix
    ensures QueryBuilder.AND + QueryBuilder.Renumber(clause, n) == EqualityText(text, n)
  {
    EqualityPiece(prefix, n);
  }

  /** Placeholder-free text ending in a space adds nothing to what PostgreSQL
      reads after it. */
  lemma PrefixedRead(pre: string, ts: seq<QueryBuilder.Token>)
    requires '$' !in pre && pre != [] && pre[|pre| - 1] == ' '
    ensures PlaceholderReading.Lexed(QueryBuilder.Render(QueryBuilder.Chrs(pre) + ts))
         == PlaceholderReading.Lexed(QueryBuilder.Render(ts))
  {
    PlaceholderReading.RenderAppend(QueryBuilder.Chrs(pre), ts);
    PlaceholderReading.RenderText(pre);
    PlaceholderReading.LexedTextFirst(pre, QueryBuilder.Render(ts));
  }

  lemma LegacyParamCount(postcode: Option<string>, rating: Option<string>, fuel: Option<string>)
    ensures |LegacyParams(postcode, rating, fuel)|
         == |QueryBuilder.WhereParams(QueryBuilder.WhereInput(postcode, rating, fuel, None, None, None, None, None, None))|
  {
    BuilderParams(postcode, rating, fuel);
  }

  /** PostgreSQL reads the REST query's placeholders as exactly
      `$1..$params.length`, in order. */
  lemma LegacyQueryRead(postcode: Option<string>, rating: Option<string>, fuel: Option<string>)
    ensures PlaceholderReading.Lexed(QueryBuilder.Render(LegacyTokens(postcode, rating, fuel)))
         == QueryBuilder.Numbers(1, |LegacyParams(postcode, rating, fuel)|)
  {
    var f := QueryBuilder.WhereInput(postcode, rating, fuel, None, None, None, None, None, None);
    var w := QueryBuilder.WhereTokens(f);
    LegacyQueryMatchesBuilder(postcode, rating, fuel);
    LegacyParamCount(postcode, rating, fuel);
    assert QueryBuilder.AtMostNinePropertyTypes(f);
    PlaceholderReading.ClauseReadNumbered(f);
    FromRead(w);
    NumberedAfterPrefix(LegacyTokens(postcode, rating, fuel), QueryBuilder.Chrs("FROM certificates_stg ") + w, w,
                        |LegacyParams(postcode, rating, fuel)|);
  }

  /** The fixed `FROM` text holds no placeholder. */
  lemma FromRead(ts: seq<QueryBuilder.Token>)
    ensures PlaceholderReading.Lexed(QueryBuilder.Render(QueryBuilder.Chrs("FROM certificates_stg ") + ts))
         == PlaceholderReading.Lexed(QueryBuilder.Render(ts))
  {
    PrefixedRead("FROM certificates_stg ", ts);
  }

  lemma NumberedAfterPrefix(q: seq<QueryBuilder.Token>, pq: seq<QueryBuilder.Token>, ts: seq<QueryBuilder.Token>, n: nat)
    requires q == pq
    requires PlaceholderReading.Lexed(QueryBuilder.Render(pq)) == PlaceholderReading.Lexed(QueryBuilder.Render(ts))
    requires PlaceholderReading.Lexed(QueryBuilder.Render(ts)) == QueryBuilder.Numbers(1, n)
    ensures PlaceholderReading.Lexed(QueryBuilder.Render(q)) == QueryBuilder.Numbers(1, n)
  {
  }

  /* ---------- offset pagination ---------- */

  /** `x || d` on a number: 0 falls back to `d`. */
  function OrDefault(x: int, d: int): int {
    if x == 0 then d else x
  }

  /** `Math.min(parseInt(pageSize) || 50, 100)` with `pageSize = 50` when absent. */
  function LegacyLimit(pageSize: Option<int>): (limit: int)
    ensures limit <= Constants.MAX_PAGE_SIZE
    ensures pageSize.None? || pageSize.value == 0 ==> limit == Constants.DEFAULT_PAGE_SIZE
  {
    var size := OrDefault(pageSize.GetOr(50), 50);
    if size < 100 then size else 100
  }

  /** `parseInt(page) || 1` with `page = 1` when absent. */
  function LegacyPage(page: Option<int>): int {
    OrDefault(page.GetOr(1), 1)
  }

  /** `((parseInt(page) || 1) - 1) * limit`. */
  function Offset(page: Option<int>, limit: int): int {
    (LegacyPage(page) - 1) * limit
  }

  /** `Math.ceil(totalCount / limit)`. */
  function TotalPages(count: nat, limit: nat): nat
    requires limit >= 1
  {
    (count + limit - 1) / limit
  }

  /** For a body that passed the check, the limit is the requested page size
      (50 when absent) and the offset skips the earlier pages exactly. */
  lemma CheckedPaging(body: LeadSearchBody)
    requires LeadSearchIssues(body) == []
    ensures LegacyLimit(body.pageSize) == body.pageSize.GetOr(Constants.DEFAULT_PAGE_SIZE)
    ensures 1 <= LegacyLimit(body.pageSize) <= Constants.MAX_PAGE_SIZE
    ensures LegacyPage(body.page) == body.page.GetOr(1) >= 1
    ensures Offset(body.page, LegacyLimit(body.pageSize)) == (body.page.GetOr(1) - 1) * LegacyLimit(body.pageSize) >= 0
  {
    var n := body.page.GetOr(1) - 1;
    var limit := LegacyLimit(body.pageSize);
    assert n >= 0 && limit >= 1;
    assert n * limit >= 0;
  }

  /** `totalPages` pages of `limit` rows hold `count` rows, and one page fewer
      does not. */
  lemma TotalPagesBounds(count: nat, limit: nat)
    requires limit >= 1
    ensures count == 0 ==> TotalPages(count, limit) == 0
    ensures count > 0 ==>
      TotalPages(count, limit) >= 1
      && (TotalPages(count, limit) - 1) * limit < count <= TotalPages(count, limit) * limit
  {
    var q := TotalPages(count, limit);
    var r := (count + limit - 1) % limit;
    assert count + limit - 1 == q * limit + r;
    assert (q - 1) * limit == q * limit - limit;
    if count == 0 {
      assert q * limit < limit;
      if q >= 1 {
        MulMonotone(1, q, limit);
      }
    }
  }

  lemma MulMonotone(a: int, b: int, c: nat)
    requires a <= b
    ensures a * c <= b * c
  {
    assert b * c - a * c == (b - a) * c;
  }

  /** The page numbered `page` has rows exactly when `page` is at most
      `totalPages`. */
  lemma PageHasRowsIff(count: nat, limit: nat, page: int)
    requires limit >= 1 && page >= 1
    ensures (page - 1) * limit < count <==> page <= TotalPages(count, limit)
  {
    var tp := TotalPages(count, limit);
    TotalPagesBounds(count, limit);
    if page <= tp {
      MulMonotone(page - 1, tp - 1, limit);
    } else {
      MulMonotone(tp, page - 1, limit);
    }
  }

  /** `LIMIT limit OFFSET offset` over the selected rows. */
  function OffsetSlice(rows: seq<Row>, offset: nat, limit: nat): (r: seq<Row>)
    ensures |r| == if offset >= |rows| then 0 else if offset + limit <= |rows| then limit else |rows| - offset
    ensures |r| <= limit
    ensures offset < |rows| ==> r != [] || limit == 0
    ensures r != [] ==> offset + |r| <= |rows|
    ensures forall i :: 0 <= i < |r| ==> r[i] == rows[offset + i]
  {
    if offset >= |rows| then []
    else if offset + limit <= |rows| then rows[offset..offset + limit]
    else rows[offset..]
  }

  /* ---------- /api/leads/search ---------- */

  datatype SearchReply =
    | BadRequest(errors: seq<Issue>)
    | LeadsPage(page: int, pageSize: int, totalCount: nat, totalPages: nat, results: seq<Row>)

  /** The JSON object a successful reply sends. */
  function LegacyReplyObject(reply: SearchReply): Reply
    requires reply.LeadsPage?
  {
    map["page" := NumberField(reply.page), "pageSize" := NumberField(reply.pageSize),
        "totalCount" := NumberField(reply.totalCount), "totalPages" := NumberField(reply.totalPages),
        "results" := RowsField(reply.results)]
  }

  /** Every successful REST reply passes the RPC leads output schema
      unchanged, the shape the RPC resolver's own object fails. */
  lemma LegacyReplyAccepted(reply: SearchReply)
    requires reply.LeadsPage?
    ensures SearchService.CheckedPage(LegacyReplyObject(reply), "results") == Ok(LegacyReplyObject(reply))
  {
    var o := LegacyReplyObject(reply);
    assert PagedReplyAccepted(o, "results");
    var kept := map k | k in o && (k in PAGE_NUMBER_KEYS || k == "results") :: o[k];
    assert kept.Keys == o.Keys;
    assert kept == o;
  }

  /** The search handler: check the body (400 with the issues), then build
      the query, count the rows and cut the requested page. The body the
      handler reads is the raw one, so its own defaults apply. */
  method LegacySearch(body: LeadSearchBody, matching: seq<Row>)
    returns (baseQuery: seq<QueryBuilder.Token>, params: seq<string>, reply: SearchReply)
    ensures reply.BadRequest? <==> !(PageAccepted(body.page) && PageSizeAccepted(body.pageSize))
    ensures reply.BadRequest? ==> reply.errors == LeadSearchIssues(body) && reply.errors != []
    ensures QueryBuilder.Placeholders(baseQuery) == QueryBuilder.Numbers(1, |params|)
    ensures reply.BadRequest? ==> baseQuery == [] && params == []
    ensures reply.LeadsPage? ==>
      baseQuery == LegacyTokens(body.postcode, body.rating, body.fuel)
      && params == LegacyParams(body.postcode, body.rating, body.fuel)
      && reply.page == body.page.GetOr(1) >= 1
      && reply.pageSize == body.pageSize.GetOr(Constants.DEFAULT_PAGE_SIZE)
      && reply.totalCount == |matching|
      && reply.totalPages == TotalPages(|matching|, reply.pageSize)
      && reply.results == OffsetSlice(matching, (reply.page - 1) * reply.pageSize, reply.pageSize)
      && (reply.results != [] <==> reply.page <= reply.totalPages)
  {
    var issues := LeadSearchIssues(body);
    LeadSearchIssuesExact(body);
    if issues != [] {
      baseQuery, params := [], [];
      reply := BadRequest(issues);
      return;
    }
    baseQuery, params := BuildLegacyQuery(body.postcode, body.rating, body.fuel);
    var limit := LegacyLimit(body.pageSize);
    var offset := Offset(body.page, limit);
    CheckedPaging(body);
    var totalCount := |matching|;
    var results := OffsetSlice(matching, offset, limit);
    PageHasRowsIff(totalCount, limit, LegacyPage(body.page));
    reply := LeadsPage(LegacyPage(body.page), limit, totalCount, TotalPages(totalCount, limit), results);
  }

  /* ---------- /api/leads/export ---------- */

  /** The REST export ignores every filter: the first 100 rows of the table. */
  function LegacyExport(table: seq<Row>): (rows: seq<Row>)
    ensures rows <= table
    ensures |rows| == if |table| < 100 then |table| else 100
  {
    if |table| <= 100 then table else table[..100]
  }

  /* ---------- /api/properties/score ---------- */

  datatype ScoreReply =
    | NotFound(status: int, message: string)
    | Scored(lmk_key: Option<string>, score: int, current_energy_rating: Option<string>, main_fuel: Option<string>)

  /** The score handler: 404 before any scoring when no row comes back, the
      three `score +=` rules otherwise. The fuel test is written
      `main_fuel && …includes("mains gas")` here; it scores the same as the
      RPC version's optional chaining. */
  method LegacyScore(lmk_key: Option<string>, rows: seq<SearchService.ScoreRow>) returns (reply: ScoreReply)
    ensures reply.NotFound? <==> rows == []
    ensures reply.NotFound? ==> reply == NotFound(404, SearchService.NOT_FOUND)
    ensures reply.Scored? ==> reply == Scored(lmk_key,
      SearchService.LeadScore(rows[0].current_energy_rating, rows[0].main_fuel),
      rows[0].current_energy_rating, rows[0].main_fuel)
  {
    if |rows| == 0 {
      return NotFound(404, "Property not found");
    }
    var rating := rows[0].current_energy_rating;
    var fuel := rows[0].main_fuel;
    var score := 0;
    if rating.Some? && rating.value in ["E", "F", "G"] {
      score := score + 50;
    }
    if QueryBuilder.Truthy(fuel) && Contains(ToLower(fuel.value), "mains gas") {
      score := score + 30;
    }
    if rating == Some("D") {
      score := score + 20;
    }
    SearchService.ShortFuelNoGas("");
    reply := Scored(lmk_key, score, rating, fuel);
  }
}

/** The tRPC procedures of backend/trpc.ts that use the WHERE-clause builder
    and the page shaping: `leads.search`, `leads.export`,
    `certificates.getByPostcode`, `properties.score` and the fixed floor-area
    list of `filters.getOptions`.

    The database is a parameter: `matching` stands for the rows the built
    WHERE clause selects, in `ORDER BY lmk_key` order, and `LIMIT n` keeps the
    first `n` of them. */
module SearchService {
  import opened Wrappers
  import opened Text
  import Constants
  import opened Schemas
  import QueryBuilder
  import Paging

  /* ---------- the builder's input for each procedure ---------- */

  /** What `buildWhereClause(input)` sees for `leads.search`: the validated
      input holds only postcode, rating, fuel, page and pageSize, because the
      schema strips every other key (the cursor among them). */
  function LeadsFilter(p: SearchLeadsParams): QueryBuilder.WhereInput {
    QueryBuilder.WhereInput(p.postcode, p.rating, p.fuel, None, None, None, None, None, None)
  }

  function CertificatesFilter(p: CertificateSearchParams): QueryBuilder.WhereInput {
    QueryBuilder.WhereInput(Some(p.postcode), p.rating, p.fuel, None, None, None, None, None, None)
  }

  function ExportFilter(p: ExportParams): QueryBuilder.WhereInput {
    QueryBuilder.WhereInput(p.postcode, p.rating, p.fuel, None, None, None, None, None, None)
  }

  /** A filter that sets at most postcode, rating and fuel. */
  predicate OnlyFirstThreeFields(f: QueryBuilder.WhereInput) {
    f.propertyType.None? && f.localAuthority.None? && f.constituency.None?
    && f.floorArea.None? && f.uprn.None? && f.cursor.None?
  }

  /** Such a filter gets its conditions from the first three lines only: no
      property types, area, UPRN, floor area or keyset condition. */
  lemma FirstThreeLinesOnly(f: QueryBuilder.WhereInput)
    requires OnlyFirstThreeFields(f)
    ensures QueryBuilder.Conditions(f) == QueryBuilder.ConditionsUpTo(f, 3)
  {
    var c3 := QueryBuilder.ConditionsUpTo(f, 3);
    assert QueryBuilder.LineConditions(f, 4) == [];
    assert QueryBuilder.ConditionsUpTo(f, 4) == c3;
    assert QueryBuilder.LineConditions(f, 5) == [];
    assert QueryBuilder.ConditionsUpTo(f, 5) == c3;
    assert QueryBuilder.LineConditions(f, 6) == [];
    assert QueryBuilder.ConditionsUpTo(f, 6) == c3;
    assert QueryBuilder.LineConditions(f, 7) == [];
    assert QueryBuilder.ConditionsUpTo(f, 7) == c3;
    assert QueryBuilder.LineConditions(f, 8) == [];
    assert QueryBuilder.ConditionsUpTo(f, 8) == c3;
    assert QueryBuilder.LineConditions(f, 9) == [];
  }

  /** Such a filter's values come from the first three lines, run in order. */
  lemma ThreeLinesApplied(f: QueryBuilder.WhereInput)
    requires QueryBuilder.Conditions(f) == QueryBuilder.ConditionsUpTo(f, 3)
    ensures QueryBuilder.Built(f)
      == QueryBuilder.Apply(QueryBuilder.Apply(QueryBuilder.Apply(QueryBuilder.START,
           QueryBuilder.LineConditions(f, 1)), QueryBuilder.LineConditions(f, 2)), QueryBuilder.LineConditions(f, 3))
  {
    QueryBuilder.NextLine(f, 1);
    QueryBuilder.NextLine(f, 2);
    QueryBuilder.NextLine(f, 3);
    assert QueryBuilder.ConditionsUpTo(f, 0) == [];
  }

  /** Every procedure's clause is well numbered: its placeholders are
      `$1..$n` for its `n` parameters. */
  lemma FilterNumbered(f: QueryBuilder.WhereInput)
    requires OnlyFirstThreeFields(f)
    ensures QueryBuilder.Placeholders(QueryBuilder.WhereTokens(f))
      == QueryBuilder.Numbers(1, |QueryBuilder.WhereParams(f)|)
  {
    QueryBuilder.PlaceholdersContiguous(f);
  }

  /* ---------- page size ---------- */

  /** `const { pageSize = 50 } = input; Math.min(pageSize, 100)`. */
  function PageLimit(pageSize: Option<int>): (limit: int)
    ensures limit <= Constants.MAX_PAGE_SIZE && limit <= pageSize.GetOr(Constants.DEFAULT_PAGE_SIZE)
    ensures limit == pageSize.GetOr(Constants.DEFAULT_PAGE_SIZE) || limit == Constants.MAX_PAGE_SIZE
  {
    var size := pageSize.GetOr(50);
    if size < 100 then size else 100
  }

  /** After validation the clamp never binds: the limit is the requested page
      size, or the shared default when none was sent. */
  lemma ValidatedPageLimit(raw: SearchLeadsInput)
    requires ParseSearchLeads(raw).Ok?
    ensures PageLimit(Some(ParseSearchLeads(raw).value.pageSize)) == raw.pageSize.GetOr(Constants.DEFAULT_PAGE_SIZE)
    ensures 1 <= PageLimit(Some(ParseSearchLeads(raw).value.pageSize)) <= Constants.MAX_PAGE_SIZE
  {
  }

  /* ---------- leads.search and certificates.getByPostcode ---------- */

  /** The rows `LIMIT limit + 1` returns when no cursor applies. */
  function FirstRows(matching: seq<Row>, limit: nat): (rows: seq<Row>)
    ensures rows <= matching && |rows| <= limit + 1
    ensures |rows| == limit + 1 || rows == matching
  {
    if |matching| <= limit + 1 then matching else matching[..limit + 1]
  }

  /** `leads.search`: build the clause, fetch `limit + 1` rows, pop the
      extra one into `nextCursor`. The clause comes back as well. */
  method SearchLeads(p: SearchLeadsParams, matching: seq<Row>)
    returns (whereClause: seq<QueryBuilder.Token>, params: seq<string>, page: Paging.Page,
             answer: Result<Reply, string>)
    requires 1 <= p.pageSize
    ensures whereClause == QueryBuilder.WhereTokens(LeadsFilter(p)) && params == QueryBuilder.WhereParams(LeadsFilter(p))
    ensures QueryBuilder.Placeholders(whereClause) == QueryBuilder.Numbers(1, |params|)
    ensures page == Paging.KeysetPage(matching, None, PageLimit(Some(p.pageSize)))
    ensures |page.results| <= PageLimit(Some(p.pageSize)) <= Constants.MAX_PAGE_SIZE
    ensures page.results <= matching
    ensures page.nextCursor.Some? <==> |matching| > PageLimit(Some(p.pageSize))
    ensures page.nextCursor.Some? ==>
      page.nextCursor.value == matching[PageLimit(Some(p.pageSize))].lmk_key
    ensures answer == CheckedPage(ResolverReply(page, "results"), "results")
    ensures answer == Err(OUTPUT_INVALID)
  {
    var limit := PageLimit(Some(p.pageSize));
    whereClause, params := QueryBuilder.BuildWhereClause(LeadsFilter(p));
    FilterNumbered(LeadsFilter(p));
    var rows := FirstRows(matching, limit);
    page := Paging.ShapePage(rows, limit);
    Paging.ShapedPage(rows, limit);
    answer := CheckedPage(ResolverReply(page, "results"), "results");
    ResolverReplyRejected(page, "results");
  }

  /** `certificates.getByPostcode`: the same shaping over certificate rows. */
  method CertificatesByPostcode(p: CertificateSearchParams, matching: seq<Row>)
    returns (whereClause: seq<QueryBuilder.Token>, params: seq<string>, page: Paging.Page,
             answer: Result<Reply, string>)
    requires 1 <= p.pageSize
    ensures whereClause == QueryBuilder.WhereTokens(CertificatesFilter(p)) && params == QueryBuilder.WhereParams(CertificatesFilter(p))
    ensures QueryBuilder.Placeholders(whereClause) == QueryBuilder.Numbers(1, |params|)
    ensures page == Paging.KeysetPage(matching, None, PageLimit(Some(p.pageSize)))
    ensures |page.results| <= PageLimit(Some(p.pageSize)) <= Constants.MAX_PAGE_SIZE
    ensures page.results <= matching
    ensures page.nextCursor.Some? <==> |matching| > PageLimit(Some(p.pageSize))
    ensures page.nextCursor.Some? ==>
      page.nextCursor.value == matching[PageLimit(Some(p.pageSize))].lmk_key
    ensures answer == CheckedPage(ResolverReply(page, "certificates"), "certificates")
    ensures answer == Err(OUTPUT_INVALID)
  {
    var limit := PageLimit(Some(p.pageSize));
    whereClause, params := QueryBuilder.BuildWhereClause(CertificatesFilter(p));
    FilterNumbered(CertificatesFilter(p));
    var rows := FirstRows(matching, limit);
    page := Paging.ShapePage(rows, limit);
    Paging.ShapedPage(rows, limit);
    answer := CheckedPage(ResolverReply(page, "certificates"), "certificates");
    ResolverReplyRejected(page, "certificates");
  }

  /** Whatever the client sends, `leads.search` has no keyset condition: the
      cursor of one response cannot reach the next request, so every call
      returns the first page. */
  lemma LeadsSearchAlwaysFirstPage(raw: SearchLeadsInput, matching: seq<Row>, limit: nat)
    requires ParseSearchLeads(raw).Ok?
    ensures QueryBuilder.Conditions(LeadsFilter(ParseSearchLeads(raw).value))
      == QueryBuilder.ConditionsUpTo(LeadsFilter(ParseSearchLeads(raw).value), 3)
    ensures Paging.Fetch(matching, LeadsFilter(ParseSearchLeads(raw).value).cursor, limit)
      == FirstRows(matching, limit)
  {
    FirstThreeLinesOnly(LeadsFilter(ParseSearchLeads(raw).value));
  }

  /** `{ results: result.rows, nextCursor }`, or `certificates:` in place of
      `results`: the object the resolver returns. */
  function ResolverReply(page: Paging.Page, listKey: string): Reply {
    map[listKey := RowsField(page.results), "nextCursor" := CursorField(page.nextCursor)]
  }

  /** The procedure's answer once the paged output schema checks the
      resolver's object: the declared keys when it is accepted, the failure
      otherwise. */
  function CheckedPage(reply: Reply, listKey: string): Result<Reply, string> {
    if PagedReplyAccepted(reply, listKey) then
      Ok(map k | k in reply && (k in PAGE_NUMBER_KEYS || k == listKey) :: reply[k])
    else Err(OUTPUT_INVALID)
  }

  /** The resolvers' objects carry no page numbers, so the output check
      rejects every object either resolver could return, whatever rows and
      cursor it holds. */
  lemma ResolverReplyRejected(page: Paging.Page, listKey: string)
    requires listKey !in PAGE_NUMBER_KEYS
    ensures CheckedPage(ResolverReply(page, listKey), listKey) == Err(OUTPUT_INVALID)
  {
    assert "page" in PAGE_NUMBER_KEYS;
  }

  /** The four numbers are all that is missing: with them the same object is
      accepted exactly when its rows fit the list's row schema, and the answer
      drops the cursor. */
  lemma NumbersCompleteReply(page: Paging.Page, listKey: string, pageNo: int, size: int, count: int, pages: int)
    requires listKey !in PAGE_NUMBER_KEYS && listKey != "nextCursor"
    ensures var full := ResolverReply(page, listKey)["page" := NumberField(pageNo)]["pageSize" := NumberField(size)]
                          ["totalCount" := NumberField(count)]["totalPages" := NumberField(pages)];
      && (CheckedPage(full, listKey).Ok? <==> forall r :: r in page.results ==> RowFits(r, listKey))
      && (CheckedPage(full, listKey).Ok? ==>
            "nextCursor" !in CheckedPage(full, listKey).value
            && CheckedPage(full, listKey).value[listKey] == RowsField(page.results))
  {
  }

  /* ---------- leads.export ---------- */

  /** `const { limit = 1000 } = input; Math.min(limit, 10000)`. */
  function ExportRowLimit(limit: Option<int>): (n: int)
    ensures n <= Constants.MAX_EXPORT_LIMIT && n <= limit.GetOr(1000)
    ensures n == limit.GetOr(1000) || n == Constants.MAX_EXPORT_LIMIT
  {
    var requested := limit.GetOr(1000);
    if requested < 10000 then requested else 10000
  }

  /** After validation `limit` is always present, so the handler's own default
      of 1000 is never used: an omitted limit exports 100 rows at most. */
  lemma ExportDefaultFromSchema(raw: ExportInput)
    requires ParseExport(raw).Ok?
    ensures ExportRowLimit(Some(ParseExport(raw).value.limit)) == raw.limit.GetOr(Constants.DEFAULT_EXPORT_LIMIT)
    ensures raw.limit.None? ==> ExportRowLimit(Some(ParseExport(raw).value.limit)) == 100
  {
  }

  /** `leads.export`: the rows written to the CSV. */
  method ExportLeads(p: ExportParams, matching: seq<Row>)
    returns (whereClause: seq<QueryBuilder.Token>, params: seq<string>, rows: seq<Row>)
    requires 1 <= p.limit
    ensures whereClause == QueryBuilder.WhereTokens(ExportFilter(p)) && params == QueryBuilder.WhereParams(ExportFilter(p))
    ensures QueryBuilder.Placeholders(whereClause) == QueryBuilder.Numbers(1, |params|)
    ensures rows <= matching
    ensures |rows| == if |matching| <= ExportRowLimit(Some(p.limit)) then |matching| else ExportRowLimit(Some(p.limit))
    ensures |rows| <= Constants.MAX_EXPORT_LIMIT
  {
    var n := ExportRowLimit(Some(p.limit));
    whereClause, params := QueryBuilder.BuildWhereClause(ExportFilter(p));
    FilterNumbered(ExportFilter(p));
    rows := if |matching| <= n then matching else matching[..n];
  }

  /* ---------- properties.score ---------- */

  const POOR_RATINGS: seq<string> := ["E", "F", "G"]
  const NOT_FOUND: string := "Property not found"

  /** +50 for a poor rating (`['E','F','G'].includes(rating)`). */
  function PoorRatingPoints(rating: Option<string>): nat {
    if rating.Some? && rating.value in POOR_RATINGS then 50 else 0
  }

  /** +30 when the lower-cased fuel mentions mains gas; nothing for null. */
  function GasPoints(fuel: Option<string>): nat {
    if fuel.Some? && Contains(ToLower(fuel.value), "mains gas") then 30 else 0
  }

  /** +20 for rating D. */
  function FairRatingPoints(rating: Option<string>): nat {
    if rating == Some("D") then 20 else 0
  }

  /** The additive lead score of a property. */
  function LeadScore(rating: Option<string>, fuel: Option<string>): (score: nat)
    ensures score in {0, 20, 30, 50, 80}
    ensures rating.Some? && rating.value in POOR_RATINGS ==> score in {50, 80}
    ensures rating == Some("D") ==> score in {20, 50}
    ensures score == 80 <==> PoorRatingPoints(rating) > 0 && GasPoints(fuel) > 0
  {
    PoorRatingPoints(rating) + GasPoints(fuel) + FairRatingPoints(rating)
  }

  /** `let score = 0` and the three `score +=` rules, in source order. */
  method AccumulateScore(rating: Option<string>, fuel: Option<string>) returns (score: int)
    ensures score == LeadScore(rating, fuel)
  {
    score := 0;
    if rating.Some? && rating.value in POOR_RATINGS {
      score := score + 50;
    }
    if fuel.Some? && Contains(ToLower(fuel.value), "mains gas") {
      score := score + 30;
    }
    if rating == Some("D") {
      score := score + 20;
    }
  }

  /** A null fuel adds nothing; a fuel adds 0 or 30. */
  lemma FuelAddsNothingOrThirty(rating: Option<string>, fuel: Option<string>)
    ensures LeadScore(rating, None) == PoorRatingPoints(rating) + FairRatingPoints(rating)
    ensures LeadScore(rating, fuel) - LeadScore(rating, None) in {0, 30}
  {
  }

  /** Among the fuel filter values only mains gas scores. */
  lemma OnlyMainsGasScores()
    ensures forall f :: f in Constants.FUEL_TYPES ==> (GasPoints(Some(f)) == 30 <==> f == "mains gas (not community)")
  {
    forall f | f in Constants.FUEL_TYPES
      ensures GasPoints(Some(f)) == 30 <==> f == "mains gas (not community)"
    {
      if f == "mains gas (not community)" {
        MainsGasScores();
      } else if f == "electricity" || f == "solid fuel" {
        NoGasWithoutM(f);
      } else {
        ShortFuelNoGas(f);
      }
    }
  }

  lemma ShortFuelNoGas(fuel: string)
    requires |fuel| < 9
    ensures GasPoints(Some(fuel)) == 0
  {
    NoRunLongerThan(ToLower(fuel), "mains gas");
  }

  lemma MainsGasScores()
    ensures GasPoints(Some("mains gas (not community)")) == 30
  {
    var lower := ToLower("mains gas (not community)");
    assert lower[..9] == "mains gas";
  }

  /** A lower-case text without the letter `m` never mentions mains gas. */
  lemma NoGasWithoutM(fuel: string)
    requires 'm' !in fuel && 'M' !in fuel
    ensures GasPoints(Some(fuel)) == 0
  {
    if Contains(ToLower(fuel), "mains gas") {
      ContainsElements(ToLower(fuel), "mains gas", 'm');
    }
  }

  lemma {:induction false} NoRunLongerThan(s: string, t: string)
    requires |s| < |t|
    ensures !Contains(s, t)
  {
    if |s| > 0 {
      NoRunLongerThan(s[1..], t);
    }
  }

  /** The row `SELECT current_energy_rating, main_fuel … LIMIT 1` returns. */
  datatype ScoreRow = ScoreRow(current_energy_rating: Option<string>, main_fuel: Option<string>)

  /** The resolver of `properties.score`: no row is an error raised before
      any scoring, otherwise the first row is scored. */
  method ScoreProperty(p: ScoreParams, rows: seq<ScoreRow>) returns (r: Result<ScoreResponse, string>)
    ensures r.Err? <==> rows == []
    ensures r.Err? ==> r.error == NOT_FOUND
    ensures r.Ok? ==> r.value == ScoreResponse(p.lmk_key,
      LeadScore(rows[0].current_energy_rating, rows[0].main_fuel),
      rows[0].current_energy_rating, rows[0].main_fuel)
  {
    if |rows| == 0 {
      return Err(NOT_FOUND);
    }
    var row := rows[0];
    var score := AccumulateScore(row.current_energy_rating, row.main_fuel);
    r := Ok(ScoreResponse(p.lmk_key, score, row.current_energy_rating, row.main_fuel));
  }

  const OUTPUT_INVALID: string := "Output validation failed"

  /** The procedure's answer once `propertyScoreResponseSchema` checks the
      resolver's result. */
  function CheckedScore(r: Result<ScoreResponse, string>): Result<ScoreResponse, string> {
    if r.Ok? && !ScoreResponseAccepted(r.value) then Err(OUTPUT_INVALID) else r
  }

  /** A found property whose rating or fuel is null, which the row schemas
      allow, still fails: the response schema demands strings. */
  lemma NullColumnsFailOutput(p: ScoreParams, row: ScoreRow)
    requires row.current_energy_rating.None? || row.main_fuel.None?
    ensures CheckedScore(Ok(ScoreResponse(p.lmk_key, LeadScore(row.current_energy_rating, row.main_fuel),
      row.current_energy_rating, row.main_fuel))) == Err(OUTPUT_INVALID)
  {
  }

  /* ---------- filters.getOptions ---------- */

  const FLOOR_AREA_RANGES: seq<string> := ["unknown", "1-55m²", "55-70m²", "70-85m²", "85-110m²", "110m+"]

  /** Every offered floor-area range is a label the builder recognises, and
      every recognised label is offered exactly once. */
  lemma FloorAreaRangesRecognised()
    ensures forall r :: r in FLOOR_AREA_RANGES <==> r in QueryBuilder.FLOOR_AREA_CONDITIONS
    ensures forall i, j :: 0 <= i < j < |FLOOR_AREA_RANGES| ==> FLOOR_AREA_RANGES[i] != FLOOR_AREA_RANGES[j]
  {
  }
}

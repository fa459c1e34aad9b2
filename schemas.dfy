/** The request validators and the row shapes of the RPC API
    (backend/schemas.ts). A validator either reports its issues or returns the
    request with every missing defaulted field filled in; keys a schema does
    not declare are dropped, which the input records model by not having them. */
module Schemas {
  import opened Wrappers
  import Constants

  /** One validation issue, naming the offending field. `TooSmall` carries the
      schema's own message when it declares one. */
  datatype Issue =
    | Required(path: string)
    | InvalidEnumValue(path: string)
    | TooSmall(path: string, message: Option<string>)
    | TooBig(path: string)

  /** The rating and fuel enumerations as the schemas spell them out. */
  const RATING_ENUM: seq<string> := ["A", "B", "C", "D", "E", "F", "G"]
  const FUEL_ENUM: seq<string> :=
    ["mains gas (not community)", "electricity", "oil", "LPG", "solid fuel"]

  /* ---------- field checks ---------- */

  /** `z.enum(values).optional()`. */
  function EnumIssues(path: string, v: Option<string>, values: seq<string>): seq<Issue> {
    if v.Some? && v.value !in values then [InvalidEnumValue(path)] else []
  }

  /** `z.number().min(lo)`, with `.max(hi)` when `hi` is given, on an optional
      (defaulted) field. */
  function NumberIssues(path: string, v: Option<int>, lo: int, hi: Option<int>): seq<Issue> {
    if v.None? then []
    else if v.value < lo then [TooSmall(path, None)]
    else if hi.Some? && v.value > hi.value then [TooBig(path)]
    else []
  }

  /** `z.string().min(1, message)` on a required field. */
  function NonEmptyIssues(path: string, v: Option<string>, message: string): seq<Issue> {
    if v.None? then [Required(path)]
    else if |v.value| < 1 then [TooSmall(path, Some(message))]
    else []
  }

  /** What the validators accept, stated against the shared constants. */
  predicate RatingAccepted(v: Option<string>) {
    v.None? || v.value in Constants.ENERGY_RATINGS
  }

  predicate FuelAccepted(v: Option<string>) {
    v.None? || v.value in Constants.FUEL_TYPES
  }

  predicate PageAccepted(v: Option<int>) {
    v.None? || v.value >= 1
  }

  predicate PageSizeAccepted(v: Option<int>) {
    v.None? || 1 <= v.value <= Constants.MAX_PAGE_SIZE
  }

  predicate ExportLimitAccepted(v: Option<int>) {
    v.None? || 1 <= v.value <= Constants.MAX_EXPORT_LIMIT
  }

  /* ---------- searchLeadsParamsSchema ---------- */

  datatype SearchLeadsInput = SearchLeadsInput(
    postcode: Option<string>, rating: Option<string>, fuel: Option<string>,
    page: Option<int>, pageSize: Option<int>)

  datatype SearchLeadsParams = SearchLeadsParams(
    postcode: Option<string>, rating: Option<string>, fuel: Option<string>,
    page: int, pageSize: int)

  function SearchLeadsIssues(raw: SearchLeadsInput): seq<Issue> {
    EnumIssues("rating", raw.rating, RATING_ENUM)
    + EnumIssues("fuel", raw.fuel, FUEL_ENUM)
    + NumberIssues("page", raw.page, 1, None)
    + NumberIssues("pageSize", raw.pageSize, 1, Some(100))
  }

  function ParseSearchLeads(raw: SearchLeadsInput): (r: Result<SearchLeadsParams, seq<Issue>>)
    ensures r.Ok? <==>
      RatingAccepted(raw.rating) && FuelAccepted(raw.fuel)
      && PageAccepted(raw.page) && PageSizeAccepted(raw.pageSize)
    ensures r.Ok? ==>
      r.value.postcode == raw.postcode && r.value.rating == raw.rating && r.value.fuel == raw.fuel
      && r.value.page == raw.page.GetOr(1)
      && r.value.pageSize == raw.pageSize.GetOr(Constants.DEFAULT_PAGE_SIZE)
    ensures r.Ok? ==> r.value.page >= 1 && 1 <= r.value.pageSize <= Constants.MAX_PAGE_SIZE
    ensures r.Err? ==> r.error != []
  {
    var issues := SearchLeadsIssues(raw);
    if issues != [] then Err(issues)
    else Ok(SearchLeadsParams(raw.postcode, raw.rating, raw.fuel, raw.page.GetOr(1), raw.pageSize.GetOr(50)))
  }

  function SearchLeadsAsInput(p: SearchLeadsParams): SearchLeadsInput {
    SearchLeadsInput(p.postcode, p.rating, p.fuel, Some(p.page), Some(p.pageSize))
  }

  /** Validating an already validated request changes nothing. */
  lemma SearchLeadsIdempotent(raw: SearchLeadsInput)
    requires ParseSearchLeads(raw).Ok?
    ensures ParseSearchLeads(SearchLeadsAsInput(ParseSearchLeads(raw).value)) == ParseSearchLeads(raw)
  {
  }

  /* ---------- leadScoreParamsSchema ---------- */

  datatype ScoreInput = ScoreInput(lmk_key: Option<string>)
  datatype ScoreParams = ScoreParams(lmk_key: string)

  function ParseScore(raw: ScoreInput): (r: Result<ScoreParams, seq<Issue>>)
    ensures r.Ok? <==> raw.lmk_key.Some? && |raw.lmk_key.value| >= 1
    ensures r.Ok? ==> Some(r.value.lmk_key) == raw.lmk_key
    ensures raw.lmk_key == Some("") ==> r == Err([TooSmall("lmk_key", Some("Property key is required"))])
  {
    var issues := NonEmptyIssues("lmk_key", raw.lmk_key, "Property key is required");
    if issues != [] then Err(issues) else Ok(ScoreParams(raw.lmk_key.value))
  }

  /* ---------- exportLeadsParamsSchema ---------- */

  datatype ExportInput = ExportInput(
    postcode: Option<string>, rating: Option<string>, fuel: Option<string>, limit: Option<int>)

  datatype ExportParams = ExportParams(
    postcode: Option<string>, rating: Option<string>, fuel: Option<string>, limit: int)

  function ExportIssues(raw: ExportInput): seq<Issue> {
    EnumIssues("rating", raw.rating, RATING_ENUM)
    + EnumIssues("fuel", raw.fuel, FUEL_ENUM)
    + NumberIssues("limit", raw.limit, 1, Some(10000))
  }

  function ParseExport(raw: ExportInput): (r: Result<ExportParams, seq<Issue>>)
    ensures r.Ok? <==>
      RatingAccepted(raw.rating) && FuelAccepted(raw.fuel) && ExportLimitAccepted(raw.limit)
    ensures r.Ok? ==>
      r.value.postcode == raw.postcode && r.value.rating == raw.rating && r.value.fuel == raw.fuel
      && r.value.limit == raw.limit.GetOr(Constants.DEFAULT_EXPORT_LIMIT)
    ensures r.Ok? ==> 1 <= r.value.limit <= Constants.MAX_EXPORT_LIMIT
    ensures r.Err? ==> r.error != []
  {
    var issues := ExportIssues(raw);
    if issues != [] then Err(issues)
    else Ok(ExportParams(raw.postcode, raw.rating, raw.fuel, raw.limit.GetOr(100)))
  }

  /* ---------- certificateSearchSchema ---------- */

  datatype CertificateSearchInput = CertificateSearchInput(
    postcode: Option<string>, page: Option<int>, pageSize: Option<int>,
    rating: Option<string>, fuel: Option<string>)

  datatype CertificateSearchParams = CertificateSearchParams(
    postcode: string, page: int, pageSize: int, rating: Option<string>, fuel: Option<string>)

  function CertificateSearchIssues(raw: CertificateSearchInput): seq<Issue> {
    NonEmptyIssues("postcode", raw.postcode, "Postcode is required")
    + NumberIssues("page", raw.page, 1, None)
    + NumberIssues("pageSize", raw.pageSize, 1, Some(100))
    + EnumIssues("rating", raw.rating, RATING_ENUM)
    + EnumIssues("fuel", raw.fuel, FUEL_ENUM)
  }

  function ParseCertificateSearch(raw: CertificateSearchInput): (r: Result<CertificateSearchParams, seq<Issue>>)
    ensures r.Ok? <==>
      raw.postcode.Some? && |raw.postcode.value| >= 1
      && PageAccepted(raw.page) && PageSizeAccepted(raw.pageSize)
      && RatingAccepted(raw.rating) && FuelAccepted(raw.fuel)
    ensures r.Ok? ==>
      Some(r.value.postcode) == raw.postcode && r.value.rating == raw.rating && r.value.fuel == raw.fuel
      && r.value.page == raw.page.GetOr(1)
      && r.value.pageSize == raw.pageSize.GetOr(Constants.DEFAULT_PAGE_SIZE)
    ensures r.Ok? ==> r.value.page >= 1 && 1 <= r.value.pageSize <= Constants.MAX_PAGE_SIZE
    ensures raw.postcode.None? ==> r.Err? && |r.error| >= 1 && r.error[0] == Required("postcode")
  {
    var issues := CertificateSearchIssues(raw);
    if issues != [] then Err(issues)
    else Ok(CertificateSearchParams(raw.postcode.value, raw.page.GetOr(1), raw.pageSize.GetOr(50), raw.rating, raw.fuel))
  }

  /* ---------- rows and responses ---------- */

  /** A row as the lead and certificate schemas describe it: rating, fuel and
      the certificate's extra columns may all be null. */
  datatype Row =
    | LeadRow(lmk_key: string, postcode: string,
              current_energy_rating: Option<string>, main_fuel: Option<string>)
    | CertificateRow(lmk_key: string, postcode: string,
                     current_energy_rating: Option<string>, main_fuel: Option<string>,
                     property_type: Option<string>, total_floor_area: Option<real>,
                     number_habitable_rooms: Option<real>, construction_age_band: Option<string>,
                     current_energy_efficiency: Option<real>)

  /** The score procedure's response, as its resolver builds it. */
  datatype ScoreResponse = ScoreResponse(
    lmk_key: string, score: int, current_energy_rating: Option<string>, main_fuel: Option<string>)

  /** propertyScoreResponseSchema: rating and fuel must be strings, not null. */
  predicate ScoreResponseAccepted(r: ScoreResponse) {
    r.current_energy_rating.Some? && r.main_fuel.Some?
  }

  /** A field of a response object, as the output check sees it. */
  datatype ReplyField =
    | NumberField(n: int)
    | RowsField(rows: seq<Row>)
    | CursorField(cursor: Option<string>)

  /** A response object: its keys and their values. */
  type Reply = map<string, ReplyField>

  /** The four numbers both paged response schemas require. */
  const PAGE_NUMBER_KEYS: seq<string> := ["page", "pageSize", "totalCount", "totalPages"]

  /** An element of `z.array(leadSchema)` (`results`) or
      `z.array(certificateSchema)` (`certificates`). Every row satisfies the
      lead schema, a certificate row having more keys, which are dropped; the
      certificate schema requires its extra columns, which a lead row lacks. */
  predicate RowFits(r: Row, listKey: string) {
    listKey != "certificates" || r.CertificateRow?
  }

  /** `searchLeadsResponseSchema` (list key `results`) and
      `certificatesResponseSchema` (list key `certificates`): the four page
      numbers and the row list must each be present with their type; keys the
      schema does not declare are dropped. */
  predicate PagedReplyAccepted(reply: Reply, listKey: string) {
    && (forall k :: k in PAGE_NUMBER_KEYS ==> k in reply && reply[k].NumberField?)
    && listKey in reply && reply[listKey].RowsField?
    && (forall r :: r in reply[listKey].rows ==> RowFits(r, listKey))
  }

  /** The schemas' enumerations are exactly the shared constants. */
  lemma EnumsMatchConstants()
    ensures RATING_ENUM == Constants.ENERGY_RATINGS
    ensures FUEL_ENUM == Constants.FUEL_TYPES
  {
  }

  /** Omitted paging fields take the shared defaults. */
  lemma DefaultsFilled()
    ensures ParseSearchLeads(SearchLeadsInput(None, None, None, None, None))
      == Ok(SearchLeadsParams(None, None, None, 1, Constants.DEFAULT_PAGE_SIZE))
    ensures ParseExport(ExportInput(None, None, None, None))
      == Ok(ExportParams(None, None, None, Constants.DEFAULT_EXPORT_LIMIT))
  {
  }
}

/** The dynamic WHERE-clause builder of the RPC backend (backend/trpc.ts,
    `floorAreaConditions` and `buildWhereClause` with its `addCondition`
    closure).

    A condition is written with local placeholders `$1`..`$k`; `addCondition`
    appends its values to `params` and rewrites each `$d` (one digit, as the
    regular expression `\$(\d)` reads it) to `$(offset + d)`, where the offset
    is the number of values bound before. The rendered clause is a sequence of
    tokens: a literal character, or a placeholder the rewrite wrote. How
    PostgreSQL reads the rendered text back is `PlaceholderReading.Lexed`. */
module QueryBuilder {
  import opened Wrappers
  import opened Text

  /* ---------- tokens and placeholders ---------- */

  /** One unit of rendered SQL text: a literal character, or a placeholder
      `$n` the builder wrote for `params[n - 1]`. PostgreSQL reads it as `$n`
      only when no digit follows it in the text; a digit right after it
      continues the number (see `PlaceholderReading`). */
  datatype Token = Chr(c: char) | Param(n: nat)

  /** Literal text with no placeholder in it. */
  function Chrs(s: string): (ts: seq<Token>)
    ensures |ts| == |s|
    ensures forall i :: 0 <= i < |s| ==> ts[i] == Chr(s[i])
  {
    seq(|s|, i requires 0 <= i < |s| => Chr(s[i]))
  }

  /** The placeholder numbers of a rendered text, left to right. */
  function Placeholders(ts: seq<Token>): seq<nat> {
    if ts == [] then []
    else (if ts[0].Param? then [ts[0].n] else []) + Placeholders(ts[1..])
  }

  /** The SQL string itself: a placeholder `Param(n)` is written `$` and the
      decimal digits of `n`. */
  function Render(ts: seq<Token>): string {
    if ts == [] then []
    else
      (match ts[0]
       case Chr(c) => [c]
       case Param(n) => "$" + DecimalString(n))
      + Render(ts[1..])
  }

  /** `from, from + 1, ..., from + count - 1`. */
  function Numbers(from: nat, count: nat): (r: seq<nat>)
    ensures |r| == count
    ensures forall i :: 0 <= i < count ==> r[i] == from + i
  {
    seq(count, i requires 0 <= i < count => from + i)
  }

  /** Every number of `xs` raised by `offset`. */
  function Shifted(xs: seq<nat>, offset: nat): (r: seq<nat>)
    ensures |r| == |xs|
    ensures forall i :: 0 <= i < |xs| ==> r[i] == xs[i] + offset
  {
    seq(|xs|, i requires 0 <= i < |xs| => xs[i] + offset)
  }

  lemma {:induction false} PlaceholdersAppend(a: seq<Token>, b: seq<Token>)
    ensures Placeholders(a + b) == Placeholders(a) + Placeholders(b)
  {
    if a != [] {
      assert (a + b)[0] == a[0];
      assert (a + b)[1..] == a[1..] + b;
      PlaceholdersAppend(a[1..], b);
    } else {
      assert a + b == b;
    }
  }

  lemma {:induction false} PlaceholdersOfText(s: string)
    ensures Placeholders(Chrs(s)) == []
  {
    if s != [] {
      assert Chrs(s)[1..] == Chrs(s[1..]);
      PlaceholdersOfText(s[1..]);
    }
  }

  /* ---------- the placeholder rewrite of addCondition ---------- */

  /** `clause.replace(/\$(\d)/g, (_, n) => '$' + (offset + parseInt(n)))`:
      scanning left to right, a `$` followed by a digit `d` becomes the
      placeholder `offset + d`; any further digit stays literal text. */
  function Renumber(clause: string, offset: nat): seq<Token> {
    if clause == [] then []
    else if clause[0] == '$' && |clause| >= 2 && IsDigit(clause[1]) then
      [Param(offset + DigitValue(clause[1]))] + Renumber(clause[2..], offset)
    else [Chr(clause[0])] + Renumber(clause[1..], offset)
  }

  /** The local placeholder numbers a clause is written with. */
  function Slots(clause: string): seq<nat> {
    Placeholders(Renumber(clause, 0))
  }

  lemma ShiftedCons(x: nat, xs: seq<nat>, offset: nat)
    ensures Shifted([x] + xs, offset) == [x + offset] + Shifted(xs, offset)
  {
  }

  lemma PlaceholdersCons(t: Token, ts: seq<Token>)
    ensures Placeholders([t] + ts) == (if t.Param? then [t.n] else []) + Placeholders(ts)
  {
    assert ([t] + ts)[1..] == ts;
  }

  /** Renumbering raises every local placeholder by exactly the offset. */
  lemma {:induction false} RenumberShifts(clause: string, offset: nat)
    ensures Placeholders(Renumber(clause, offset)) == Shifted(Slots(clause), offset)
  {
    if clause == [] {
    } else if clause[0] == '$' && |clause| >= 2 && IsDigit(clause[1]) {
      RenumberShifts(clause[2..], offset);
      ShiftParamStep(clause, offset);
    } else {
      RenumberShifts(clause[1..], offset);
      ShiftCharStep(clause, offset);
    }
  }

  /** A clause starting with `$d` renumbers to a placeholder and the rest. */
  lemma RenumberParamHead(clause: string, offset: nat)
    requires |clause| >= 2 && clause[0] == '$' && IsDigit(clause[1])
    ensures Renumber(clause, offset) == [Param(offset + DigitValue(clause[1]))] + Renumber(clause[2..], offset)
  {
  }

  /** Any other clause renumbers to its first character and the rest. */
  lemma RenumberCharHead(clause: string, offset: nat)
    requires |clause| >= 1 && !(clause[0] == '$' && |clause| >= 2 && IsDigit(clause[1]))
    ensures Renumber(clause, offset) == [Chr(clause[0])] + Renumber(clause[1..], offset)
  {
  }

  lemma ShiftParamStep(clause: string, offset: nat)
    requires |clause| >= 2 && clause[0] == '$' && IsDigit(clause[1])
    requires Placeholders(Renumber(clause[2..], offset)) == Shifted(Slots(clause[2..]), offset)
    ensures Placeholders(Renumber(clause, offset)) == Shifted(Slots(clause), offset)
  {
    var d := DigitValue(clause[1]);
    var rest := clause[2..];
    RenumberParamHead(clause, offset);
    RenumberParamHead(clause, 0);
    PlaceholdersCons(Param(offset + d), Renumber(rest, offset));
    PlaceholdersCons(Param(d), Renumber(rest, 0));
    assert Slots(clause) == [d] + Slots(rest);
    ShiftedCons(d, Slots(rest), offset);
  }

  lemma ShiftCharStep(clause: string, offset: nat)
    requires |clause| >= 1 && !(clause[0] == '$' && |clause| >= 2 && IsDigit(clause[1]))
    requires Placeholders(Renumber(clause[1..], offset)) == Shifted(Slots(clause[1..]), offset)
    ensures Placeholders(Renumber(clause, offset)) == Shifted(Slots(clause), offset)
  {
    var rest := clause[1..];
    RenumberCharHead(clause, offset);
    RenumberCharHead(clause, 0);
    PlaceholdersCons(Chr(clause[0]), Renumber(rest, offset));
    PlaceholdersCons(Chr(clause[0]), Renumber(rest, 0));
  }

  lemma {:induction false} RenumberText(s: string, offset: nat)
    requires '$' !in s
    ensures Renumber(s, offset) == Chrs(s)
  {
    if s != [] {
      RenumberText(s[1..], offset);
      assert Chrs(s) == [Chr(s[0])] + Chrs(s[1..]);
    }
  }

  /** `s` does not end in a `$` that could pair with a following digit. */
  predicate EndsSafely(s: string) {
    s == [] || s[|s| - 1] != '$'
  }

  lemma EndsSafelyTail(a: string, j: nat)
    requires EndsSafely(a) && j <= |a|
    ensures EndsSafely(a[j..])
  {
    if a[j..] != [] {
      assert a[j..][|a[j..]| - 1] == a[|a| - 1];
    }
  }

  lemma {:induction false} RenumberAppend(a: string, b: string, offset: nat)
    requires EndsSafely(a)
    ensures Renumber(a + b, offset) == Renumber(a, offset) + Renumber(b, offset)
    decreases |a|, 1
  {
    var s := a + b;
    if a == [] {
      assert s == b;
    } else if a[0] == '$' && |a| >= 2 && IsDigit(a[1]) {
      assert s[0] == '$' && s[1] == a[1];
      assert s[2..] == a[2..] + b;
      EndsSafelyTail(a, 2);
      RenumberAppend(a[2..], b, offset);
      RenumberParamHead(s, offset);
      RenumberParamHead(a, offset);
    } else {
      RenumberAppendChar(a, b, offset);
    }
  }

  /** The step of `RenumberAppend` past a plain first character. */
  lemma {:induction false} RenumberAppendChar(a: string, b: string, offset: nat)
    requires EndsSafely(a) && |a| >= 1 && !(a[0] == '$' && |a| >= 2 && IsDigit(a[1]))
    ensures Renumber(a + b, offset) == Renumber(a, offset) + Renumber(b, offset)
    decreases |a|, 0
  {
    var s := a + b;
    assert s[0] == a[0];
    assert !(s[0] == '$' && |s| >= 2 && IsDigit(s[1])) by {
      if a[0] == '$' {
        assert |a| >= 2 && s[1] == a[1];
      }
    }
    assert s[1..] == a[1..] + b;
    EndsSafelyTail(a, 1);
    RenumberAppend(a[1..], b, offset);
    RenumberCharHead(s, offset);
    RenumberCharHead(a, offset);
  }

  /** Renumbering writes no literal character that was not in the clause. */
  lemma {:induction false} RenumberChars(clause: string, offset: nat, c: char)
    requires Chr(c) in Renumber(clause, offset)
    ensures c in clause
  {
    if clause == [] {
    } else if clause[0] == '$' && |clause| >= 2 && IsDigit(clause[1]) {
      RenumberChars(clause[2..], offset, c);
    } else if c != clause[0] {
      RenumberChars(clause[1..], offset, c);
    }
  }

  /** Placeholder-free text followed by one placeholder `$d`. */
  lemma SlotAfterText(prefix: string, d: char, offset: nat)
    requires '$' !in prefix && IsDigit(d)
    ensures Renumber(prefix + ['$', d], offset) == Chrs(prefix) + [Param(offset + DigitValue(d))]
    ensures Placeholders(Renumber(prefix + ['$', d], offset)) == [offset + DigitValue(d)]
    ensures EndsSafely(prefix + ['$', d])
  {
    var tail := ['$', d];
    RenumberAppend(prefix, tail, offset);
    RenumberText(prefix, offset);
    assert tail[2..] == [];
    assert Renumber(tail, offset) == [Param(offset + DigitValue(d))];
    PlaceholdersAppend(Chrs(prefix), [Param(offset + DigitValue(d))]);
    PlaceholdersOfText(prefix);
    PlaceholdersCons(Param(offset + DigitValue(d)), []);
  }

  /** A clause with one placeholder `$1` after placeholder-free text. */
  lemma OneSlot(prefix: string)
    requires '$' !in prefix
    ensures Slots(prefix + "$1") == [1]
  {
    assert "$1" == ['$', '1'];
    SlotAfterText(prefix, '1', 0);
  }

  /* ---------- the clauses ---------- */

  const POSTCODE_CLAUSE: string := "postcode >= $1 AND postcode < $2"
  const RATING_CLAUSE: string := "current_energy_rating = $1"
  const FUEL_CLAUSE: string := "main_fuel ILIKE $1"
  const LOCAL_AUTHORITY_CLAUSE: string := "local_authority = $1"
  const CONSTITUENCY_CLAUSE: string := "constituency = $1"
  const UPRN_CLAUSE: string := "uprn = $1"
  const CURSOR_CLAUSE: string := "lmk_key > $1"

  /** The floor-area labels and the literal text each one adds. */
  const UNKNOWN_FLOOR_AREA: string := "total_floor_area IS NULL OR total_floor_area = 0"
  const FLOOR_AREA_CONDITIONS: map<string, string> := map[
    "1-55m²" := "total_floor_area BETWEEN 1 AND 55",
    "55-70m²" := "total_floor_area BETWEEN 55 AND 70",
    "70-85m²" := "total_floor_area BETWEEN 70 AND 85",
    "85-110m²" := "total_floor_area BETWEEN 85 AND 110",
    "110m+" := "total_floor_area > 110",
    "unknown" := UNKNOWN_FLOOR_AREA
  ]

  /** `$k`, as the property-type list writes its k-th placeholder. */
  function PlaceholderItem(k: nat): string {
    "$" + DecimalString(k)
  }

  function PlaceholderItems(n: nat): seq<string> {
    seq(n, i requires 0 <= i < n => PlaceholderItem(i + 1))
  }

  /** `property_type IN ($1, $2, ..., $n)`. */
  function InListClause(n: nat): string {
    "property_type IN (" + Join(PlaceholderItems(n), ", ") + ")"
  }

  /** The leading digits of 1..n: what the one-digit rewrite captures in
      `$1`..`$n`. */
  function LeadDigits(n: nat): (r: seq<nat>)
    ensures |r| == n
  {
    seq(n, i requires 0 <= i < n => LeadingDigit(i + 1))
  }

  /** Two placeholder-free texts, each followed by its placeholder. */
  lemma TwoSlots(a: string, b: string)
    requires '$' !in a && '$' !in b
    ensures Slots((a + "$1") + (b + "$2")) == [1, 2]
  {
    assert "$1" == ['$', '1'] && "$2" == ['$', '2'];
    SlotAfterText(a, '1', 0);
    SlotAfterText(b, '2', 0);
    RenumberAppend(a + "$1", b + "$2", 0);
    PlaceholdersAppend(Renumber(a + "$1", 0), Renumber(b + "$2", 0));
  }

  lemma PostcodeClauseSlots()
    ensures Slots(POSTCODE_CLAUSE) == [1, 2]
  {
    var a, b := "postcode >= ", " AND postcode < ";
    assert POSTCODE_CLAUSE == (a + "$1") + (b + "$2");
    TwoSlots(a, b);
  }

  /** A `$d` followed by placeholder-free text. */
  predicate ParamThenText(s: string) {
    |s| >= 2 && s[0] == '$' && IsDigit(s[1]) && '$' !in s[2..]
  }

  lemma ParamThenTextRenumbered(s: string, offset: nat)
    requires ParamThenText(s)
    ensures Renumber(s, offset) == [Param(offset + DigitValue(s[1]))] + Chrs(s[2..])
  {
    RenumberParamHead(s, offset);
    RenumberText(s[2..], offset);
  }

  lemma ParamThenTextSlots(s: string)
    requires ParamThenText(s)
    ensures Slots(s) == [DigitValue(s[1])]
  {
    ParamThenTextRenumbered(s, 0);
    PlaceholdersCons(Param(DigitValue(s[1])), Chrs(s[2..]));
    PlaceholdersOfText(s[2..]);
  }

  /** `$k` is a `$`, the leading digit of k and the other digits. */
  lemma ItemShape(k: nat)
    ensures ParamThenText(PlaceholderItem(k))
    ensures DigitValue(PlaceholderItem(k)[1]) == LeadingDigit(k)
    ensures PlaceholderItem(k)[2..] == DecimalString(k)[1..]
  {
    var d := DecimalString(k);
    var s := PlaceholderItem(k);
    DecimalStringHead(k);
    assert s[1] == d[0] && s[2..] == d[1..];
    assert '$' !in d[1..] by {
      forall i | 0 <= i < |d[1..]| ensures d[1..][i] != '$' {
        assert IsDigit(d[i + 1]);
      }
    }
  }

  lemma PlaceholderItemRenumbered(k: nat, offset: nat)
    ensures Renumber(PlaceholderItem(k), offset)
         == [Param(offset + LeadingDigit(k))] + Chrs(DecimalString(k)[1..])
  {
    ItemShape(k);
    ParamThenTextRenumbered(PlaceholderItem(k), offset);
  }

  /** `$k` holds one placeholder: the leading digit of k. */
  lemma ItemSlots(k: nat)
    ensures Slots(PlaceholderItem(k)) == [LeadingDigit(k)]
    ensures EndsSafely(PlaceholderItem(k))
  {
    ItemShape(k);
    ParamThenTextSlots(PlaceholderItem(k));
    ItemEndsSafely(k);
  }

  lemma ItemEndsSafely(k: nat)
    ensures EndsSafely(PlaceholderItem(k))
  {
    var d := DecimalString(k);
    assert PlaceholderItem(k)[|PlaceholderItem(k)| - 1] == d[|d| - 1];
    assert IsDigit(d[|d| - 1]);
  }

  /** Appending `, $k` to a list adds the one placeholder of `$k`. */
  lemma AppendItemSlots(init: string, k: nat)
    requires EndsSafely(init)
    ensures Slots(init + ", " + PlaceholderItem(k)) == Slots(init) + [LeadingDigit(k)]
    ensures EndsSafely(init + ", " + PlaceholderItem(k))
  {
    var item := PlaceholderItem(k);
    ItemSlots(k);
    CommaItemSlots(item);
    assert init + ", " + item == init + (", " + item);
    RenumberAppend(init, ", " + item, 0);
    PlaceholdersAppend(Renumber(init, 0), Renumber(", " + item, 0));
    EndsSafelyAppend(init + ", ", item);
  }

  /** `, ` before an item adds no placeholder. */
  lemma CommaItemSlots(item: string)
    requires EndsSafely(item)
    ensures Slots(", " + item) == Slots(item)
  {
    var comma := ", ";
    RenumberAppend(comma, item, 0);
    RenumberText(comma, 0);
    PlaceholdersOfText(comma);
    PlaceholdersAppend(Chrs(comma), Renumber(item, 0));
  }

  lemma EndsSafelyAppend(a: string, b: string)
    requires EndsSafely(b) && b != []
    ensures EndsSafely(a + b)
  {
    assert (a + b)[|a + b| - 1] == b[|b| - 1];
  }

  /** The slots of the joined placeholder list are the leading digits of 1..n. */
  lemma {:induction false} PlaceholderListSlots(n: nat)
    ensures Slots(Join(PlaceholderItems(n), ", ")) == LeadDigits(n)
    ensures EndsSafely(Join(PlaceholderItems(n), ", "))
  {
    var items := PlaceholderItems(n);
    if n == 0 {
      assert LeadDigits(0) == [];
    } else if n == 1 {
      assert Join(items, ", ") == PlaceholderItem(1);
      ItemSlots(1);
      assert LeadDigits(1) == [LeadingDigit(1)];
    } else {
      assert items[..n - 1] == PlaceholderItems(n - 1);
      assert Join(items, ", ") == Join(PlaceholderItems(n - 1), ", ") + ", " + PlaceholderItem(n);
      PlaceholderListSlots(n - 1);
      AppendItemSlots(Join(PlaceholderItems(n - 1), ", "), n);
      assert LeadDigits(n) == LeadDigits(n - 1) + [LeadingDigit(n)];
    }
  }

  /** The one-digit rewrite captures, in the n-th entry of the property-type
      list, only the leading digit d of n: `$10` becomes the placeholder for
      `$1` followed by the literal text `0`. */
  lemma InListSlots(n: nat)
    ensures Slots(InListClause(n)) == LeadDigits(n)
  {
    PlaceholderListSlots(n);
    SlotsBetweenText("property_type IN (", Join(PlaceholderItems(n), ", "), ")");
  }

  /** Placeholder-free text around a clause adds no placeholder. */
  lemma SlotsBetweenText(pre: string, mid: string, post: string)
    requires '$' !in pre && '$' !in post && EndsSafely(mid)
    ensures Slots(pre + mid + post) == Slots(mid)
  {
    assert pre + mid + post == pre + (mid + post);
    RenumberAppend(pre, mid + post, 0);
    RenumberAppend(mid, post, 0);
    RenumberText(pre, 0);
    RenumberText(post, 0);
    PlaceholdersOfText(pre);
    PlaceholdersOfText(post);
    PlaceholdersAppend(Chrs(pre), Renumber(mid, 0) + Chrs(post));
    PlaceholdersAppend(Renumber(mid, 0), Chrs(post));
  }

  /** Up to nine property types, the list numbers its placeholders 1..n. */
  lemma InListSlotsUpToNine(n: nat)
    requires n <= 9
    ensures Slots(InListClause(n)) == Numbers(1, n)
  {
    InListSlots(n);
  }

  /* ---------- the filter and its conditions ---------- */

  /** The builder's input: every field optional. */
  datatype WhereInput = WhereInput(
    postcode: Option<string>, rating: Option<string>, fuel: Option<string>,
    propertyType: Option<seq<string>>, localAuthority: Option<string>,
    constituency: Option<string>, floorArea: Option<string>, uprn: Option<string>,
    cursor: Option<string>)

  /** JavaScript truthiness of an optional string: present and non-empty. */
  predicate Truthy(v: Option<string>) {
    v.Some? && v.value != ""
  }

  /** A condition as the builder receives it: a clause with local placeholders
      and the values they stand for, or fixed text pushed as it is. */
  datatype Cond = Bound(clause: string, values: seq<string>) | Raw(text: string)

  function CondValues(c: Cond): seq<string> {
    if c.Bound? then c.values else []
  }

  /** The values of a run of conditions, in order. */
  function ValuesOf(cs: seq<Cond>): seq<string> {
    if cs == [] then [] else ValuesOf(cs[..|cs| - 1]) + CondValues(cs[|cs| - 1])
  }

  /** A condition as it is pushed when `offset` values are already bound. */
  function RenderCond(c: Cond, offset: nat): seq<Token> {
    match c
    case Bound(clause, _) => Renumber(clause, offset)
    case Raw(text) => Chrs(text)
  }

  /** A run of conditions added one after another. */
  function RenderConds(cs: seq<Cond>): (r: seq<seq<Token>>)
    ensures |r| == |cs|
  {
    if cs == [] then []
    else RenderConds(cs[..|cs| - 1]) + [RenderCond(cs[|cs| - 1], |ValuesOf(cs[..|cs| - 1])|)]
  }

  function Opt(present: bool, c: Cond): seq<Cond> {
    if present then [c] else []
  }

  predicate HasPropertyTypes(input: WhereInput) {
    input.propertyType.Some? && |input.propertyType.value| > 0
  }

  /** `floorArea && floorAreaConditions[floorArea]`: the text for a known
      label, nothing for an absent, empty or unknown one. */
  function FloorAreaText(area: Option<string>): Option<string> {
    if area.Some? && area.value in FLOOR_AREA_CONDITIONS then
      Some(FLOOR_AREA_CONDITIONS[area.value])
    else
      None
  }

  predicate HasFloorArea(input: WhereInput) {
    FloorAreaText(input.floorArea).Some?
  }

  function OptRaw(text: Option<string>): seq<Cond> {
    if text.Some? then [Raw(text.value)] else []
  }

  /** The builder's condition lines, in source order: postcode, rating, fuel,
      property types, local authority, constituency, UPRN, floor area, cursor. */
  const LINES: nat := 9

  /** The condition line `k` adds, if any. */
  function LineConditions(input: WhereInput, k: nat): seq<Cond>
    requires 1 <= k <= LINES
  {
    match k
    case 1 => Opt(Truthy(input.postcode),
                  Bound(POSTCODE_CLAUSE, [ToUpper(input.postcode.GetOr("")), ToUpper(input.postcode.GetOr("")) + "Z"]))
    case 2 => Opt(Truthy(input.rating), Bound(RATING_CLAUSE, [input.rating.GetOr("")]))
    case 3 => Opt(Truthy(input.fuel), Bound(FUEL_CLAUSE, ["%" + input.fuel.GetOr("") + "%"]))
    case 4 => Opt(HasPropertyTypes(input),
                  Bound(InListClause(|input.propertyType.GetOr([])|), input.propertyType.GetOr([])))
    case 5 => Opt(Truthy(input.localAuthority), Bound(LOCAL_AUTHORITY_CLAUSE, [input.localAuthority.GetOr("")]))
    case 6 => Opt(Truthy(input.constituency), Bound(CONSTITUENCY_CLAUSE, [input.constituency.GetOr("")]))
    case 7 => Opt(Truthy(input.uprn), Bound(UPRN_CLAUSE, [input.uprn.GetOr("")]))
    case 8 => OptRaw(FloorAreaText(input.floorArea))
    case _ => Opt(Truthy(input.cursor), Bound(CURSOR_CLAUSE, [input.cursor.GetOr("")]))
  }

  /** The conditions the first `k` lines add. */
  function ConditionsUpTo(input: WhereInput, k: nat): seq<Cond>
    requires k <= LINES
  {
    if k == 0 then [] else ConditionsUpTo(input, k - 1) + LineConditions(input, k)
  }

  /** The conditions a filter adds, in the builder's fixed order. */
  function Conditions(input: WhereInput): seq<Cond> {
    ConditionsUpTo(input, LINES)
  }

  lemma ConditionsStep(input: WhereInput, k: nat)
    requires 1 <= k <= LINES
    ensures ConditionsUpTo(input, k) == ConditionsUpTo(input, k - 1) + LineConditions(input, k)
  {
  }

  const AND: seq<Token> := Chrs(" AND ")
  const TRUE_CONDITION: seq<Token> := Chrs("1=1")

  /* ---------- the builder ---------- */

  /** The two arrays `buildWhereClause` fills: the condition texts, starting
      with `1=1`, and the bind values. */
  datatype WhereState = WhereState(conditions: seq<seq<Token>>, params: seq<string>)

  const START: WhereState := WhereState([TRUE_CONDITION], [])

  /** One condition added to the arrays: a bound clause binds its values after
      those bound before and is renumbered past them (`addCondition`); fixed
      text is pushed as it is. */
  function ApplyCond(st: WhereState, c: Cond): WhereState {
    match c
    case Bound(clause, values) =>
      WhereState(st.conditions + [Renumber(clause, |st.params|)], st.params + values)
    case Raw(text) => WhereState(st.conditions + [Chrs(text)], st.params)
  }

  /** A run of conditions added one after another. */
  function Apply(st: WhereState, cs: seq<Cond>): WhereState {
    if cs == [] then st else ApplyCond(Apply(st, cs[..|cs| - 1]), cs[|cs| - 1])
  }

  /** The arrays once every line has run. */
  function Built(input: WhereInput): WhereState {
    Apply(START, Conditions(input))
  }

  /** The clause for a filter: `WHERE 1=1 AND c1 AND c2 ...`. */
  function WhereTokens(input: WhereInput): seq<Token> {
    Chrs("WHERE ") + Join(Built(input).conditions, AND)
  }

  /** The bind values for a filter. */
  function WhereParams(input: WhereInput): seq<string> {
    Built(input).params
  }

  lemma {:induction false} ApplyAppend(st: WhereState, a: seq<Cond>, b: seq<Cond>)
    ensures Apply(st, a + b) == Apply(Apply(st, a), b)
  {
    if b == [] {
      assert a + b == a;
    } else {
      assert (a + b)[..|a + b| - 1] == a + b[..|b| - 1];
      ApplyAppend(st, a, b[..|b| - 1]);
    }
  }

  /** The arrays after the lines have run one after another. */
  lemma BuiltLineByLine(input: WhereInput)
    ensures Built(input)
         == Apply(Apply(Apply(Apply(Apply(Apply(Apply(Apply(Apply(START,
              LineConditions(input, 1)), LineConditions(input, 2)), LineConditions(input, 3)),
              LineConditions(input, 4)), LineConditions(input, 5)), LineConditions(input, 6)),
              LineConditions(input, 7)), LineConditions(input, 8)), LineConditions(input, 9))
  {
    NextLine(input, 1);
    NextLine(input, 2);
    NextLine(input, 3);
    NextLine(input, 4);
    NextLine(input, 5);
    NextLine(input, 6);
    NextLine(input, 7);
    NextLine(input, 8);
    NextLine(input, 9);
  }

  /** Running line `k` after the lines before it. */
  lemma NextLine(input: WhereInput, k: nat)
    requires 1 <= k <= LINES
    ensures Apply(START, ConditionsUpTo(input, k))
         == Apply(Apply(START, ConditionsUpTo(input, k - 1)), LineConditions(input, k))
  {
    ApplyAppend(START, ConditionsUpTo(input, k - 1), LineConditions(input, k));
  }

  lemma ApplyOpt(st: WhereState, present: bool, c: Cond)
    ensures Apply(st, Opt(present, c)) == if present then ApplyCond(st, c) else st
  {
    if present {
      assert [c][..0] == [];
    }
  }

  lemma ApplyOptRaw(st: WhereState, text: Option<string>)
    ensures Apply(st, OptRaw(text)) == if text.Some? then ApplyCond(st, Raw(text.value)) else st
  {
    if text.Some? {
      assert [Raw(text.value)][..0] == [];
    }
  }

  /** The `addCondition` closure: bind the values after those already bound
      and append the clause with its placeholders moved past them. */
  method AddCondition(st: WhereState, clause: string, values: seq<string>) returns (st': WhereState)
    ensures st'.params == st.params + values
    ensures st'.conditions == st.conditions + [Renumber(clause, |st.params|)]
  {
    var params := st.params + values;
    var placeholderClause := Renumber(clause, |params| - |values|);
    st' := WhereState(st.conditions + [placeholderClause], params);
  }

  /** Line `k` of `buildWhereClause`: its field's test, then `addCondition`
      (or, for the floor area, a plain push). */
  method RunLine(st: WhereState, input: WhereInput, k: nat) returns (st': WhereState)
    requires 1 <= k <= LINES
    ensures st' == Apply(st, LineConditions(input, k))
  {
    st' := st;
    if k == 1 {
      if Truthy(input.postcode) {
        var upperPostcode := ToUpper(input.postcode.value);
        st' := AddCondition(st, POSTCODE_CLAUSE, [upperPostcode, upperPostcode + "Z"]);
      }
      ApplyOpt(st, Truthy(input.postcode),
        Bound(POSTCODE_CLAUSE, [ToUpper(input.postcode.GetOr("")), ToUpper(input.postcode.GetOr("")) + "Z"]));
    } else if k == 2 {
      if Truthy(input.rating) {
        st' := AddCondition(st, RATING_CLAUSE, [input.rating.value]);
      }
      ApplyOpt(st, Truthy(input.rating), Bound(RATING_CLAUSE, [input.rating.GetOr("")]));
    } else if k == 3 {
      if Truthy(input.fuel) {
        st' := AddCondition(st, FUEL_CLAUSE, ["%" + input.fuel.value + "%"]);
      }
      ApplyOpt(st, Truthy(input.fuel), Bound(FUEL_CLAUSE, ["%" + input.fuel.GetOr("") + "%"]));
    } else if k == 4 {
      if input.propertyType.Some? && |input.propertyType.value| > 0 {
        var placeholders := Join(PlaceholderItems(|input.propertyType.value|), ", ");
        st' := AddCondition(st, "property_type IN (" + placeholders + ")", input.propertyType.value);
      }
      ApplyOpt(st, HasPropertyTypes(input),
        Bound(InListClause(|input.propertyType.GetOr([])|), input.propertyType.GetOr([])));
    } else if k == 5 {
      if Truthy(input.localAuthority) {
        st' := AddCondition(st, LOCAL_AUTHORITY_CLAUSE, [input.localAuthority.value]);
      }
      ApplyOpt(st, Truthy(input.localAuthority), Bound(LOCAL_AUTHORITY_CLAUSE, [input.localAuthority.GetOr("")]));
    } else if k == 6 {
      if Truthy(input.constituency) {
        st' := AddCondition(st, CONSTITUENCY_CLAUSE, [input.constituency.value]);
      }
      ApplyOpt(st, Truthy(input.constituency), Bound(CONSTITUENCY_CLAUSE, [input.constituency.GetOr("")]));
    } else if k == 7 {
      if Truthy(input.uprn) {
        st' := AddCondition(st, UPRN_CLAUSE, [input.uprn.value]);
      }
      ApplyOpt(st, Truthy(input.uprn), Bound(UPRN_CLAUSE, [input.uprn.GetOr("")]));
    } else if k == 8 {
      if input.floorArea.Some? && input.floorArea.value in FLOOR_AREA_CONDITIONS {
        st' := WhereState(st.conditions + [Chrs(FLOOR_AREA_CONDITIONS[input.floorArea.value])], st.params);
      }
      ApplyOptRaw(st, FloorAreaText(input.floorArea));
    } else {
      if Truthy(input.cursor) {
        st' := AddCondition(st, CURSOR_CLAUSE, [input.cursor.value]);
      }
      ApplyOpt(st, Truthy(input.cursor), Bound(CURSOR_CLAUSE, [input.cursor.GetOr("")]));
    }
  }

  /** `buildWhereClause(input)`: the lines run in order on the arrays that
      start as `['1=1']` and `[]`, and the conditions are joined with `AND`. */
  method BuildWhereClause(input: WhereInput) returns (whereClause: seq<Token>, params: seq<string>)
    ensures whereClause == WhereTokens(input) && params == WhereParams(input)
  {
    var st := WhereState([TRUE_CONDITION], []);
    st := RunLine(st, input, 1);
    st := RunLine(st, input, 2);
    st := RunLine(st, input, 3);
    st := RunLine(st, input, 4);
    st := RunLine(st, input, 5);
    st := RunLine(st, input, 6);
    st := RunLine(st, input, 7);
    st := RunLine(st, input, 8);
    st := RunLine(st, input, 9);
    BuiltLineByLine(input);
    whereClause := Chrs("WHERE ") + Join(st.conditions, AND);
    params := st.params;
  }

  /* ---------- the builder's arrays as a list of conditions ---------- */

  /** Placeholders are renumbered one digit at a time, so the entries `$10`,
      `$11`, ... of a list of more than nine property types are rewritten in
      their leading digit only. */
  predicate AtMostNinePropertyTypes(input: WhereInput) {
    input.propertyType.None? || |input.propertyType.value| <= 9
  }

  /** Adding conditions in turn leaves the arrays holding `1=1` and each
      condition rendered past the values before it, and the values in order. */
  lemma {:induction false} ApplyRenders(cs: seq<Cond>)
    ensures Apply(START, cs) == WhereState([TRUE_CONDITION] + RenderConds(cs), ValuesOf(cs))
  {
    if cs != [] {
      var init := cs[..|cs| - 1];
      ApplyRenders(init);
      assert ([TRUE_CONDITION] + RenderConds(init)) + [RenderCond(cs[|cs| - 1], |ValuesOf(init)|)]
          == [TRUE_CONDITION] + RenderConds(cs);
    }
  }

  /* ---------- assembling the clause ---------- */

  /** A condition whose local placeholders are `$1..$k` for its k values. */
  predicate WellNumbered(c: Cond) {
    c.Bound? ==> Slots(c.clause) == Numbers(1, |c.values|)
  }

  /** The placeholders of a list of texts, one after another. */
  function FlatPlaceholders(xs: seq<seq<Token>>): seq<nat> {
    if xs == [] then [] else FlatPlaceholders(xs[..|xs| - 1]) + Placeholders(xs[|xs| - 1])
  }

  lemma {:induction false} FlatPlaceholdersPrepend(x: seq<Token>, xs: seq<seq<Token>>)
    ensures FlatPlaceholders([x] + xs) == Placeholders(x) + FlatPlaceholders(xs)
  {
    if xs != [] {
      assert ([x] + xs)[..|xs|] == [x] + xs[..|xs| - 1];
      FlatPlaceholdersPrepend(x, xs[..|xs| - 1]);
    }
  }

  /** Separators without placeholders add none to a join. */
  lemma {:induction false} PlaceholdersJoin(xs: seq<seq<Token>>, sep: seq<Token>)
    requires Placeholders(sep) == []
    ensures Placeholders(Join(xs, sep)) == FlatPlaceholders(xs)
  {
    if |xs| == 1 {
      assert xs[..0] == [];
    } else if |xs| >= 2 {
      var init := xs[..|xs| - 1];
      PlaceholdersJoin(init, sep);
      PlaceholdersAppend(Join(init, sep) + sep, xs[|xs| - 1]);
      PlaceholdersAppend(Join(init, sep), sep);
    }
  }

  /** Well-numbered conditions, added in turn, use the placeholders
      `$1..$n` for their n values, in order. */
  lemma {:induction false} RenderedPlaceholders(cs: seq<Cond>)
    requires AllWellNumbered(cs)
    ensures FlatPlaceholders(RenderConds(cs)) == Numbers(1, |ValuesOf(cs)|)
  {
    if cs != [] {
      var init, last := cs[..|cs| - 1], cs[|cs| - 1];
      var offset := |ValuesOf(init)|;
      RenderedPlaceholders(init);
      assert RenderConds(cs)[..|cs| - 1] == RenderConds(init);
      var rendered := RenderConds(cs);
      assert rendered[|cs| - 1] == RenderCond(last, offset);
      assert FlatPlaceholders(rendered)
          == FlatPlaceholders(RenderConds(init)) + Placeholders(RenderCond(last, offset));
      assert last in cs;
      match last
      case Bound(clause, values) =>
        RenumberShifts(clause, offset);
        NumbersSplit(offset, |values|);
      case Raw(text) =>
        PlaceholdersOfText(text);
    }
  }

  lemma NumbersSplit(m: nat, k: nat)
    ensures Numbers(1, m) + Shifted(Numbers(1, k), m) == Numbers(1, m + k)
  {
  }

  /** Each single-value clause uses exactly the placeholder `$1`. */
  lemma RatingClauseSlots()
    ensures Slots(RATING_CLAUSE) == [1]
  {
    var p := "current_energy_rating = ";
    OneSlot(p);
    assert RATING_CLAUSE == p + "$1";
  }

  lemma FuelClauseSlots()
    ensures Slots(FUEL_CLAUSE) == [1]
  {
    var p := "main_fuel ILIKE ";
    OneSlot(p);
    assert FUEL_CLAUSE == p + "$1";
  }

  lemma LocalAuthorityClauseSlots()
    ensures Slots(LOCAL_AUTHORITY_CLAUSE) == [1]
  {
    var p := "local_authority = ";
    OneSlot(p);
    assert LOCAL_AUTHORITY_CLAUSE == p + "$1";
  }

  lemma ConstituencyClauseSlots()
    ensures Slots(CONSTITUENCY_CLAUSE) == [1]
  {
    var p := "constituency = ";
    OneSlot(p);
    assert CONSTITUENCY_CLAUSE == p + "$1";
  }

  lemma UprnClauseSlots()
    ensures Slots(UPRN_CLAUSE) == [1]
  {
    var p := "uprn = ";
    OneSlot(p);
    assert UPRN_CLAUSE == p + "$1";
  }

  lemma CursorClauseSlots()
    ensures Slots(CURSOR_CLAUSE) == [1]
  {
    var p := "lmk_key > ";
    OneSlot(p);
    assert CURSOR_CLAUSE == p + "$1";
  }

  predicate AllWellNumbered(cs: seq<Cond>) {
    forall c :: c in cs ==> WellNumbered(c)
  }

  lemma AllWellNumberedAppend(a: seq<Cond>, b: seq<Cond>)
    requires AllWellNumbered(a) && AllWellNumbered(b)
    ensures AllWellNumbered(a + b)
  {
  }

  lemma OptWellNumbered(present: bool, c: Cond)
    requires WellNumbered(c)
    ensures AllWellNumbered(Opt(present, c))
  {
  }

  lemma OneValueWellNumbered(clause: string, v: string)
    requires Slots(clause) == [1]
    ensures WellNumbered(Bound(clause, [v]))
  {
    assert Numbers(1, 1) == [1];
  }

  lemma PostcodeWellNumbered(low: string, high: string)
    ensures WellNumbered(Bound(POSTCODE_CLAUSE, [low, high]))
  {
    PostcodeClauseSlots();
    assert Numbers(1, 2) == [1, 2];
  }

  /** Each line's condition, if any, is well numbered, given at most nine
      property types. */
  lemma LineWellNumbered(input: WhereInput, k: nat)
    requires 1 <= k <= LINES && AtMostNinePropertyTypes(input)
    ensures AllWellNumbered(LineConditions(input, k))
  {
    if k == 1 {
      PostcodeLineWellNumbered(input);
    } else if k == 2 {
      RatingLineWellNumbered(input);
    } else if k == 3 {
      FuelLineWellNumbered(input);
    } else if k == 4 {
      PropertyTypeLineWellNumbered(input);
    } else if k == 5 {
      LocalAuthorityLineWellNumbered(input);
    } else if k == 6 {
      ConstituencyLineWellNumbered(input);
    } else if k == 7 {
      UprnLineWellNumbered(input);
    } else if k == 9 {
      CursorLineWellNumbered(input);
    }
  }

  lemma OneValueLineWellNumbered(present: bool, clause: string, v: string)
    requires Slots(clause) == [1]
    ensures AllWellNumbered(Opt(present, Bound(clause, [v])))
  {
    OneValueWellNumbered(clause, v);
    OptWellNumbered(present, Bound(clause, [v]));
  }

  lemma PostcodeLineWellNumbered(input: WhereInput)
    ensures AllWellNumbered(LineConditions(input, 1))
  {
    var up := ToUpper(input.postcode.GetOr(""));
    assert LineConditions(input, 1) == Opt(Truthy(input.postcode), Bound(POSTCODE_CLAUSE, [up, up + "Z"]));
    PostcodeWellNumbered(up, up + "Z");
    OptWellNumbered(Truthy(input.postcode), Bound(POSTCODE_CLAUSE, [up, up + "Z"]));
  }

  lemma RatingLineWellNumbered(input: WhereInput)
    ensures AllWellNumbered(LineConditions(input, 2))
  {
    assert LineConditions(input, 2) == Opt(Truthy(input.rating), Bound(RATING_CLAUSE, [input.rating.GetOr("")]));
    RatingClauseSlots();
    OneValueLineWellNumbered(Truthy(input.rating), RATING_CLAUSE, input.rating.GetOr(""));
  }

  lemma FuelLineWellNumbered(input: WhereInput)
    ensures AllWellNumbered(LineConditions(input, 3))
  {
    assert LineConditions(input, 3) == Opt(Truthy(input.fuel), Bound(FUEL_CLAUSE, ["%" + input.fuel.GetOr("") + "%"]));
    FuelClauseSlots();
    OneValueLineWellNumbered(Truthy(input.fuel), FUEL_CLAUSE, "%" + input.fuel.GetOr("") + "%");
  }

  lemma PropertyTypeLineWellNumbered(input: WhereInput)
    requires AtMostNinePropertyTypes(input)
    ensures AllWellNumbered(LineConditions(input, 4))
  {
    var pt := input.propertyType.GetOr([]);
    assert LineConditions(input, 4) == Opt(HasPropertyTypes(input), Bound(InListClause(|pt|), pt));
    InListSlotsUpToNine(|pt|);
    OptWellNumbered(HasPropertyTypes(input), Bound(InListClause(|pt|), pt));
  }

  lemma LocalAuthorityLineWellNumbered(input: WhereInput)
    ensures AllWellNumbered(LineConditions(input, 5))
  {
    assert LineConditions(input, 5) == Opt(Truthy(input.localAuthority), Bound(LOCAL_AUTHORITY_CLAUSE, [input.localAuthority.GetOr("")]));
    LocalAuthorityClauseSlots();
    OneValueLineWellNumbered(Truthy(input.localAuthority), LOCAL_AUTHORITY_CLAUSE, input.localAuthority.GetOr(""));
  }

  lemma ConstituencyLineWellNumbered(input: WhereInput)
    ensures AllWellNumbered(LineConditions(input, 6))
  {
    assert LineConditions(input, 6) == Opt(Truthy(input.constituency), Bound(CONSTITUENCY_CLAUSE, [input.constituency.GetOr("")]));
    ConstituencyClauseSlots();
    OneValueLineWellNumbered(Truthy(input.constituency), CONSTITUENCY_CLAUSE, input.constituency.GetOr(""));
  }

  lemma UprnLineWellNumbered(input: WhereInput)
    ensures AllWellNumbered(LineConditions(input, 7))
  {
    assert LineConditions(input, 7) == Opt(Truthy(input.uprn), Bound(UPRN_CLAUSE, [input.uprn.GetOr("")]));
    UprnClauseSlots();
    OneValueLineWellNumbered(Truthy(input.uprn), UPRN_CLAUSE, input.uprn.GetOr(""));
  }

  lemma CursorLineWellNumbered(input: WhereInput)
    ensures AllWellNumbered(LineConditions(input, 9))
  {
    assert LineConditions(input, 9) == Opt(Truthy(input.cursor), Bound(CURSOR_CLAUSE, [input.cursor.GetOr("")]));
    CursorClauseSlots();
    OneValueLineWellNumbered(Truthy(input.cursor), CURSOR_CLAUSE, input.cursor.GetOr(""));
  }

  lemma {:induction false} ConditionsUpToWellNumbered(input: WhereInput, k: nat)
    requires k <= LINES && AtMostNinePropertyTypes(input)
    ensures AllWellNumbered(ConditionsUpTo(input, k))
  {
    if k > 0 {
      ConditionsUpToWellNumbered(input, k - 1);
      LineWellNumbered(input, k);
      AllWellNumberedAppend(ConditionsUpTo(input, k - 1), LineConditions(input, k));
    }
  }

  /** Every condition the builder can add is well numbered, given at most
      nine property types. */
  lemma ConditionsWellNumbered(input: WhereInput)
    requires AtMostNinePropertyTypes(input)
    ensures AllWellNumbered(Conditions(input))
  {
    ConditionsUpToWellNumbered(input, LINES);
  }

  /** The placeholders the builder writes into the clause are exactly
      `$1..$|params|`, in increasing order, whenever the filter has at most
      nine property types. */
  lemma PlaceholdersContiguous(input: WhereInput)
    requires AtMostNinePropertyTypes(input)
    ensures Placeholders(WhereTokens(input)) == Numbers(1, |WhereParams(input)|)
  {
    var cs := Conditions(input);
    ApplyRenders(cs);
    ConditionsWellNumbered(input);
    RenderedPlaceholders(cs);
    PlaceholdersOfText(" AND ");
    PlaceholdersOfText("1=1");
    PlaceholdersOfText("WHERE ");
    PlaceholdersJoin([TRUE_CONDITION] + RenderConds(cs), AND);
    FlatPlaceholdersPrepend(TRUE_CONDITION, RenderConds(cs));
    PlaceholdersAppend(Chrs("WHERE "), Join([TRUE_CONDITION] + RenderConds(cs), AND));
  }

  /* ---------- what each line contributes ---------- */

  /** Adding conditions only ever appends: one condition text per condition,
      and the values after those bound before. */
  lemma {:induction false} ApplyExtends(st: WhereState, cs: seq<Cond>)
    ensures st.conditions <= Apply(st, cs).conditions && st.params <= Apply(st, cs).params
    ensures |Apply(st, cs).conditions| == |st.conditions| + |cs|
  {
    if cs != [] {
      ApplyExtends(st, cs[..|cs| - 1]);
    }
  }

  /** The earlier lines' conditions are a prefix of the later ones'. */
  lemma {:induction false} ConditionsPrefix(input: WhereInput, j: nat, k: nat)
    requires j <= k <= LINES
    ensures ConditionsUpTo(input, j) <= ConditionsUpTo(input, k)
  {
    if j < k {
      ConditionsStep(input, k);
      ConditionsPrefix(input, j, k - 1);
    }
  }

  /** Running a prefix of a list of conditions builds prefixes of the arrays. */
  lemma ApplyPrefix(st: WhereState, a: seq<Cond>, full: seq<Cond>)
    requires a <= full
    ensures Apply(st, a).conditions <= Apply(st, full).conditions
    ensures Apply(st, a).params <= Apply(st, full).params
    ensures |Apply(st, a).conditions| == |st.conditions| + |a|
  {
    var b := full[|a|..];
    assert full == a + b;
    ApplyAppend(st, a, b);
    ApplyExtends(Apply(st, a), b);
    ApplyExtends(st, a);
  }

  /** The arrays after the first `j` lines are prefixes of the final ones. */
  lemma BuiltExtends(input: WhereInput, j: nat)
    requires j <= LINES
    ensures Apply(START, ConditionsUpTo(input, j)).conditions <= Built(input).conditions
    ensures Apply(START, ConditionsUpTo(input, j)).params <= Built(input).params
    ensures |Apply(START, ConditionsUpTo(input, j)).conditions| == 1 + |ConditionsUpTo(input, j)|
  {
    ConditionsPrefix(input, j, LINES);
    ApplyPrefix(START, ConditionsUpTo(input, j), ConditionsUpTo(input, LINES));
  }

  /** `addCondition` on a clause numbered `$1..$k` for its k values: the
      values land at positions `offset + 1 .. offset + k` of `params`, and the
      appended text uses exactly the placeholders for those positions. */
  lemma AddConditionBinds(st: WhereState, clause: string, values: seq<string>)
    requires Slots(clause) == Numbers(1, |values|)
    ensures var st' := ApplyCond(st, Bound(clause, values));
      && st'.params[..|st.params|] == st.params
      && st'.params[|st.params|..] == values
      && Placeholders(st'.conditions[|st'.conditions| - 1]) == Numbers(|st.params| + 1, |values|)
  {
    var st' := ApplyCond(st, Bound(clause, values));
    RenumberShifts(clause, |st.params|);
    assert st'.conditions[|st'.conditions| - 1] == Renumber(clause, |st.params|);
    assert Shifted(Numbers(1, |values|), |st.params|) == Numbers(|st.params| + 1, |values|);
  }

  /** Two placeholder-free texts, each followed by its placeholder, renumbered. */
  lemma TwoSlotsRendered(a: string, b: string, offset: nat)
    requires '$' !in a && '$' !in b
    ensures Renumber((a + "$1") + (b + "$2"), offset)
         == Chrs(a) + [Param(offset + 1)] + Chrs(b) + [Param(offset + 2)]
  {
    assert "$1" == ['$', '1'] && "$2" == ['$', '2'];
    SlotAfterText(a, '1', offset);
    SlotAfterText(b, '2', offset);
    RenumberAppend(a + "$1", b + "$2", offset);
  }

  /** The postcode clause renumbered past `offset` values. */
  lemma PostcodeRendered(offset: nat)
    ensures Renumber(POSTCODE_CLAUSE, offset)
         == Chrs("postcode >= ") + [Param(offset + 1)] + Chrs(" AND postcode < ") + [Param(offset + 2)]
  {
    var a, b := "postcode >= ", " AND postcode < ";
    assert POSTCODE_CLAUSE == (a + "$1") + (b + "$2");
    TwoSlotsRendered(a, b, offset);
  }

  lemma ApplySingle(st: WhereState, c: Cond)
    ensures Apply(st, [c]) == ApplyCond(st, c)
  {
    assert [c][..0] == [];
  }

  /** With a postcode, the first line adds exactly its condition. */
  lemma PostcodeLine(input: WhereInput)
    requires Truthy(input.postcode)
    ensures var upper := ToUpper(input.postcode.value);
      ConditionsUpTo(input, 1) == [Bound(POSTCODE_CLAUSE, [upper, upper + "Z"])]
  {
  }

  /** The arrays after the first line, when a postcode is given. */
  lemma PostcodeFirstState(input: WhereInput)
    requires Truthy(input.postcode)
    ensures var upper := ToUpper(input.postcode.value);
      Apply(START, ConditionsUpTo(input, 1))
        == WhereState([TRUE_CONDITION, Renumber(POSTCODE_CLAUSE, 0)], [upper, upper + "Z"])
  {
    var upper := ToUpper(input.postcode.value);
    PostcodeLine(input);
    FirstBound(POSTCODE_CLAUSE, [upper, upper + "Z"]);
  }

  /** One bound condition added to the starting arrays. */
  lemma FirstBound(clause: string, values: seq<string>)
    ensures Apply(START, [Bound(clause, values)])
         == WhereState([TRUE_CONDITION, Renumber(clause, 0)], values)
  {
    ApplySingle(START, Bound(clause, values));
  }

  /** The postcode, when given, is upper-cased and bound as the first two
      values, to the postcode clause numbered from 0 (`postcode >= $1 AND
      postcode < $2`, by `PostcodeRendered`) right after `1=1`. */
  lemma PostcodeBinding(input: WhereInput)
    requires Truthy(input.postcode)
    ensures var upper := ToUpper(input.postcode.value);
      && |WhereParams(input)| >= 2
      && WhereParams(input)[..2] == [upper, upper + "Z"]
      && |Built(input).conditions| >= 2
      && Built(input).conditions[1] == Renumber(POSTCODE_CLAUSE, 0)
  {
    var upper := ToUpper(input.postcode.value);
    PostcodeFirstState(input);
    BuiltExtends(input, 1);
    FirstTwoKept(Apply(START, ConditionsUpTo(input, 1)), Built(input),
      Renumber(POSTCODE_CLAUSE, 0), upper, upper + "Z");
  }

  /** A state that extends one holding one condition after `1=1` and two
      values keeps them in front. */
  lemma FirstTwoKept(early: WhereState, st: WhereState, cond: seq<Token>, a: string, b: string)
    requires early == WhereState([TRUE_CONDITION, cond], [a, b])
    requires early.conditions <= st.conditions && early.params <= st.params
    ensures |st.params| >= 2 && st.params[..2] == [a, b]
    ensures |st.conditions| >= 2 && st.conditions[1] == cond
  {
  }

  /** `lmk_key > $1` added when `offset` values are bound. */
  lemma CursorAppended(st: WhereState, cursor: string)
    ensures var st' := ApplyCond(st, Bound(CURSOR_CLAUSE, [cursor]));
      && st'.params[|st'.params| - 1] == cursor
      && st'.conditions[|st'.conditions| - 1] == Chrs("lmk_key > ") + [Param(|st'.params|)]
  {
    var p := "lmk_key > ";
    assert CURSOR_CLAUSE == p + ['$', '1'];
    SlotAfterText(p, '1', |st.params|);
  }

  /** With a cursor, the last line adds its condition to what the others built. */
  lemma CursorLine(input: WhereInput)
    requires Truthy(input.cursor)
    ensures Built(input) == ApplyCond(Apply(START, ConditionsUpTo(input, 8)), Bound(CURSOR_CLAUSE, [input.cursor.value]))
  {
    NextLine(input, LINES);
    assert LineConditions(input, 9) == [Bound(CURSOR_CLAUSE, [input.cursor.value])];
    assert [Bound(CURSOR_CLAUSE, [input.cursor.value])][..0] == [];
  }

  /** The cursor, when given, is the last value and its condition
      `lmk_key > $n` is the last condition, with `n` the number of values. */
  lemma CursorComesLast(input: WhereInput)
    requires Truthy(input.cursor)
    ensures |WhereParams(input)| >= 1 && |Built(input).conditions| >= 2
    ensures WhereParams(input)[|WhereParams(input)| - 1] == input.cursor.value
    ensures Built(input).conditions[|Built(input).conditions| - 1]
         == Chrs("lmk_key > ") + [Param(|WhereParams(input)|)]
  {
    CursorLine(input);
    CursorAppended(Apply(START, ConditionsUpTo(input, 8)), input.cursor.value);
  }

  /* ---------- empty and falsy fields ---------- */

  /** No line of the filter adds a condition: every string field is absent
      or empty, the property-type list is absent or empty, and the floor-area
      label is absent or unrecognised. */
  predicate NoFilter(input: WhereInput) {
    && !Truthy(input.postcode) && !Truthy(input.rating) && !Truthy(input.fuel)
    && !HasPropertyTypes(input) && !Truthy(input.localAuthority)
    && !Truthy(input.constituency) && !Truthy(input.uprn) && !HasFloorArea(input)
    && !Truthy(input.cursor)
  }

  lemma {:induction false} NoConditions(input: WhereInput, k: nat)
    requires NoFilter(input) && k <= LINES
    ensures ConditionsUpTo(input, k) == []
  {
    if k > 0 {
      ConditionsStep(input, k);
      NoConditions(input, k - 1);
    }
  }

  lemma ChrsAppend(a: string, b: string)
    ensures Chrs(a + b) == Chrs(a) + Chrs(b)
  {
  }

  /** A filter with nothing in it gives `WHERE 1=1` and no values. */
  lemma EmptyFilter(input: WhereInput)
    requires NoFilter(input)
    ensures WhereTokens(input) == Chrs("WHERE 1=1")
    ensures WhereParams(input) == []
  {
    NoConditions(input, LINES);
    assert Built(input) == START;
    ChrsAppend("WHERE ", "1=1");
  }

  /* ---------- the clause does not depend on the values ---------- */

  /** Two conditions that can differ only in the values they bind. */
  predicate SameCondShape(c: Cond, d: Cond) {
    match c
    case Bound(clause, values) => d.Bound? && d.clause == clause && |d.values| == |values|
    case Raw(_) => d == c
  }

  predicate SameShapes(cs: seq<Cond>, ds: seq<Cond>) {
    |cs| == |ds| && forall i :: 0 <= i < |cs| ==> SameCondShape(cs[i], ds[i])
  }

  /** Conditions of the same shapes, added to arrays with the same texts and
      as many values, give the same texts and as many values. */
  lemma {:induction false} ApplyShape(st: WhereState, st2: WhereState, cs: seq<Cond>, ds: seq<Cond>)
    requires st.conditions == st2.conditions && |st.params| == |st2.params|
    requires SameShapes(cs, ds)
    ensures Apply(st, cs).conditions == Apply(st2, ds).conditions
    ensures |Apply(st, cs).params| == |Apply(st2, ds).params|
  {
    if cs != [] {
      var n := |cs| - 1;
      assert SameShapes(cs[..n], ds[..n]);
      ApplyShape(st, st2, cs[..n], ds[..n]);
      assert SameCondShape(cs[n], ds[n]);
    }
  }

  lemma SameShapesAppend(a: seq<Cond>, b: seq<Cond>, c: seq<Cond>, d: seq<Cond>)
    requires SameShapes(a, b) && SameShapes(c, d)
    ensures SameShapes(a + c, b + d)
  {
    assert forall i :: |a| <= i < |a + c| ==> (a + c)[i] == c[i - |a|] && (b + d)[i] == d[i - |a|];
  }

  /** Two filters that agree on which lines are present, on the number of
      property types, and on the floor-area label's text. */
  predicate SameFilterShape(a: WhereInput, b: WhereInput) {
    && Truthy(a.postcode) == Truthy(b.postcode)
    && Truthy(a.rating) == Truthy(b.rating)
    && Truthy(a.fuel) == Truthy(b.fuel)
    && HasPropertyTypes(a) == HasPropertyTypes(b)
    && |a.propertyType.GetOr([])| == |b.propertyType.GetOr([])|
    && Truthy(a.localAuthority) == Truthy(b.localAuthority)
    && Truthy(a.constituency) == Truthy(b.constituency)
    && Truthy(a.uprn) == Truthy(b.uprn)
    && FloorAreaText(a.floorArea) == FloorAreaText(b.floorArea)
    && Truthy(a.cursor) == Truthy(b.cursor)
  }

  lemma OptShape(present: bool, c: Cond, d: Cond)
    requires SameCondShape(c, d)
    ensures SameShapes(Opt(present, c), Opt(present, d))
  {
  }

  lemma LineShape(a: WhereInput, b: WhereInput, k: nat)
    requires SameFilterShape(a, b) && 1 <= k <= LINES
    ensures SameShapes(LineConditions(a, k), LineConditions(b, k))
  {
    if k <= 4 {
      EarlyLineShape(a, b, k);
    } else {
      LateLineShape(a, b, k);
    }
  }

  lemma EarlyLineShape(a: WhereInput, b: WhereInput, k: nat)
    requires SameFilterShape(a, b) && 1 <= k <= 4
    ensures SameShapes(LineConditions(a, k), LineConditions(b, k))
  {
  }

  lemma LateLineShape(a: WhereInput, b: WhereInput, k: nat)
    requires SameFilterShape(a, b) && 5 <= k <= LINES
    ensures SameShapes(LineConditions(a, k), LineConditions(b, k))
  {
  }

  lemma {:induction false} ConditionsShape(a: WhereInput, b: WhereInput, k: nat)
    requires SameFilterShape(a, b) && k <= LINES
    ensures SameShapes(ConditionsUpTo(a, k), ConditionsUpTo(b, k))
  {
    if k > 0 {
      ConditionsStep(a, k);
      ConditionsStep(b, k);
      ConditionsShape(a, b, k - 1);
      LineShape(a, b, k);
      SameShapesAppend(ConditionsUpTo(a, k - 1), ConditionsUpTo(b, k - 1),
        LineConditions(a, k), LineConditions(b, k));
    }
  }

  /** The clause text is fixed by which filters are present, the number of
      property types and the floor-area label: the values a caller supplies
      never reach the SQL text, only `params`, and there are as many of them. */
  lemma ClauseIgnoresValues(a: WhereInput, b: WhereInput)
    requires SameFilterShape(a, b)
    ensures WhereTokens(a) == WhereTokens(b)
    ensures |WhereParams(a)| == |WhereParams(b)|
  {
    ConditionsShape(a, b, LINES);
    ApplyShape(START, START, Conditions(a), Conditions(b));
  }

  /** Filters whose lines all add the same conditions build the same arrays. */
  lemma {:induction false} SameLinesUpTo(a: WhereInput, b: WhereInput, k: nat)
    requires k <= LINES
    requires forall j :: 1 <= j <= LINES ==> LineConditions(a, j) == LineConditions(b, j)
    ensures ConditionsUpTo(a, k) == ConditionsUpTo(b, k)
  {
    if k > 0 {
      ConditionsStep(a, k);
      ConditionsStep(b, k);
      SameLinesUpTo(a, b, k - 1);
      assert LineConditions(a, k) == LineConditions(b, k);
    }
  }

  /** A field kept only when the builder would use it. */
  function Present(v: Option<string>): (r: Option<string>)
    ensures Truthy(r) == Truthy(v) && (r.Some? ==> Truthy(r))
  {
    if Truthy(v) then v else None
  }

  /** A filter in which every field is absent or one the builder uses. */
  predicate NoFalsyFields(input: WhereInput) {
    && (input.postcode.Some? ==> Truthy(input.postcode))
    && (input.rating.Some? ==> Truthy(input.rating))
    && (input.fuel.Some? ==> Truthy(input.fuel))
    && (input.propertyType.Some? ==> HasPropertyTypes(input))
    && (input.localAuthority.Some? ==> Truthy(input.localAuthority))
    && (input.constituency.Some? ==> Truthy(input.constituency))
    && (input.uprn.Some? ==> Truthy(input.uprn))
    && (input.floorArea.Some? ==> HasFloorArea(input))
    && (input.cursor.Some? ==> Truthy(input.cursor))
  }

  /** The filter with its empty strings, empty property-type list and
      unrecognised floor-area label dropped. */
  function Normalised(input: WhereInput): (r: WhereInput)
    ensures NoFalsyFields(r)
  {
    WhereInput(Present(input.postcode), Present(input.rating), Present(input.fuel),
      if HasPropertyTypes(input) then input.propertyType else None,
      Present(input.localAuthority), Present(input.constituency),
      if HasFloorArea(input) then input.floorArea else None,
      Present(input.uprn), Present(input.cursor))
  }

  lemma EarlyLinesNormalised(input: WhereInput, k: nat)
    requires 1 <= k <= 4
    ensures LineConditions(Normalised(input), k) == LineConditions(input, k)
  {
  }

  lemma LateLinesNormalised(input: WhereInput, k: nat)
    requires 5 <= k <= LINES
    ensures LineConditions(Normalised(input), k) == LineConditions(input, k)
  {
  }

  /** Empty strings, an empty property-type list and an unrecognised
      floor-area label add nothing: the filter builds what it builds with
      those fields absent. */
  lemma FalsyFieldsIgnored(input: WhereInput)
    ensures Built(Normalised(input)) == Built(input)
  {
    forall j | 1 <= j <= LINES
      ensures LineConditions(Normalised(input), j) == LineConditions(input, j)
    {
      if j <= 4 {
        EarlyLinesNormalised(input, j);
      } else {
        LateLinesNormalised(input, j);
      }
    }
    SameLinesUpTo(Normalised(input), input, LINES);
  }

  /* ---------- the floor area ---------- */

  /** The values bound are those of the conditions, in order. */
  lemma BuiltParams(input: WhereInput)
    ensures WhereParams(input) == ValuesOf(Conditions(input))
  {
    ApplyRenders(Conditions(input));
  }

  /** The same conditions added to arrays with the same values bind the
      same values. */
  lemma {:induction false} SameParamsAfter(st: WhereState, st2: WhereState, cs: seq<Cond>)
    requires st.params == st2.params
    ensures Apply(st, cs).params == Apply(st2, cs).params
  {
    if cs != [] {
      SameParamsAfter(st, st2, cs[..|cs| - 1]);
    }
  }

  lemma {:induction false} FirstLinesIgnoreFloorArea(input: WhereInput, k: nat)
    requires k <= 7
    ensures ConditionsUpTo(input, k) == ConditionsUpTo(input.(floorArea := None), k)
  {
    if k > 0 {
      ConditionsStep(input, k);
      ConditionsStep(input.(floorArea := None), k);
      FirstLinesIgnoreFloorArea(input, k - 1);
      LinesBesideFloorArea(input, k);
    }
  }

  lemma LinesBesideFloorArea(input: WhereInput, k: nat)
    requires 1 <= k <= LINES && k != 8
    ensures LineConditions(input.(floorArea := None), k) == LineConditions(input, k)
  {
  }

  /** The floor-area line binds no value. */
  lemma FloorAreaLineBindsNothing(input: WhereInput)
    ensures Apply(START, ConditionsUpTo(input, 8)).params == Apply(START, ConditionsUpTo(input, 7)).params
  {
    assert LineConditions(input, 8) == OptRaw(FloorAreaText(input.floorArea));
    NextLine(input, 8);
    ApplyOptRaw(Apply(START, ConditionsUpTo(input, 7)), FloorAreaText(input.floorArea));
  }

  /** The floor-area label binds no value: the values are those bound
      without it. */
  lemma FloorAreaBindsNothing(input: WhereInput)
    ensures WhereParams(input) == WhereParams(input.(floorArea := None))
  {
    var other := input.(floorArea := None);
    FloorAreaLineBindsNothing(input);
    FloorAreaLineBindsNothing(other);
    FirstLinesIgnoreFloorArea(input, 7);
    NextLine(input, 9);
    NextLine(other, 9);
    LinesBesideFloorArea(input, 9);
    SameParamsAfter(Apply(START, ConditionsUpTo(input, 8)), Apply(START, ConditionsUpTo(other, 8)),
      LineConditions(input, 9));
  }

  /** An unrecognised floor-area label adds nothing at all. */
  lemma UnknownLabelIgnored(input: WhereInput)
    requires input.floorArea.Some? && input.floorArea.value !in FLOOR_AREA_CONDITIONS
    ensures Built(input) == Built(input.(floorArea := None))
  {
    forall j | 1 <= j <= LINES
      ensures LineConditions(input, j) == LineConditions(input.(floorArea := None), j)
    {
      if j != 8 {
        LinesBesideFloorArea(input, j);
      }
    }
    SameLinesUpTo(input, input.(floorArea := None), LINES);
  }

  /** The last condition of arrays that a later state extends. */
  lemma LastKept(early: WhereState, st: WhereState, x: seq<Token>)
    requires |early.conditions| > 0 && early.conditions[|early.conditions| - 1] == x
    requires early.conditions <= st.conditions
    ensures st.conditions[|early.conditions| - 1] == x
  {
  }

  lemma FloorAreaLine(input: WhereInput)
    requires HasFloorArea(input)
    ensures Apply(START, ConditionsUpTo(input, 8))
         == ApplyCond(Apply(START, ConditionsUpTo(input, 7)), Raw(FLOOR_AREA_CONDITIONS[input.floorArea.value]))
  {
    assert LineConditions(input, 8) == OptRaw(FloorAreaText(input.floorArea));
    NextLine(input, 8);
    ApplyOptRaw(Apply(START, ConditionsUpTo(input, 7)), FloorAreaText(input.floorArea));
  }

  /** A recognised floor-area label pushes its text as it is, as the
      condition right after those of the first seven lines. */
  lemma FloorAreaPushed(input: WhereInput)
    requires HasFloorArea(input)
    ensures var i := 1 + |ConditionsUpTo(input, 7)|;
      i < |Built(input).conditions|
      && Built(input).conditions[i] == Chrs(FLOOR_AREA_CONDITIONS[input.floorArea.value])
  {
    var s7 := Apply(START, ConditionsUpTo(input, 7));
    FloorAreaLine(input);
    ApplyExtends(START, ConditionsUpTo(input, 7));
    BuiltExtends(input, 8);
    LastKept(Apply(START, ConditionsUpTo(input, 8)), Built(input), Chrs(FLOOR_AREA_CONDITIONS[input.floorArea.value]));
  }

  /* ---------- the unparenthesised `OR` ---------- */

  /** A condition whose text has no `ch` in it. */
  predicate FreeOf(c: Cond, ch: char) {
    match c
    case Bound(clause, _) => ch !in clause
    case Raw(text) => ch !in text
  }

  predicate AllFreeOf(cs: seq<Cond>, ch: char) {
    forall c :: c in cs ==> FreeOf(c, ch)
  }

  lemma RenderFreeOf(c: Cond, offset: nat, ch: char)
    requires FreeOf(c, ch)
    ensures Chr(ch) !in RenderCond(c, offset)
  {
    if c.Bound? && Chr(ch) in Renumber(c.clause, offset) {
      RenumberChars(c.clause, offset, ch);
    }
  }

  lemma {:induction false} RenderConditionsFreeOf(cs: seq<Cond>, ch: char)
    requires AllFreeOf(cs, ch)
    ensures forall t :: t in RenderConds(cs) ==> Chr(ch) !in t
  {
    if cs != [] {
      var init := cs[..|cs| - 1];
      assert AllFreeOf(init, ch);
      RenderConditionsFreeOf(init, ch);
      RenderFreeOf(cs[|cs| - 1], |ValuesOf(init)|, ch);
    }
  }

  lemma JoinFreeOf(xs: seq<seq<Token>>, sep: seq<Token>, x: Token)
    requires x !in sep && forall t :: t in xs ==> x !in t
    ensures x !in Join(xs, sep)
  {
    if x in Join(xs, sep) {
      JoinElements(xs, sep, x);
    }
  }

  /** Conditions free of `ch`, added in turn and joined, write no `ch`
      unless the fixed text does. */
  lemma TokensFreeOf(cs: seq<Cond>, ch: char)
    requires AllFreeOf(cs, ch) && ch !in "WHERE 1=1 AND "
    ensures Chr(ch) !in Chrs("WHERE ") + Join([TRUE_CONDITION] + RenderConds(cs), AND)
  {
    RenderConditionsFreeOf(cs, ch);
    JoinFreeOf([TRUE_CONDITION] + RenderConds(cs), AND, Chr(ch));
  }

  /** The property-type list writes only its fixed text, `$`, digits,
      commas and spaces. */
  lemma InListFreeOf(n: nat, ch: char)
    requires ch !in "property_type IN (), $" && !IsDigit(ch)
    ensures ch !in InListClause(n)
  {
    var items := PlaceholderItems(n);
    forall k | 0 <= k < |items|
      ensures ch !in items[k]
    {
      assert items[k] == "$" + DecimalString(k + 1);
    }
    if ch in Join(items, ", ") {
      JoinElements(items, ", ", ch);
    }
  }

  lemma OneFreeOf(present: bool, c: Cond, ch: char)
    requires FreeOf(c, ch)
    ensures AllFreeOf(Opt(present, c), ch)
  {
  }

  /** Only the `unknown` floor-area text holds a capital `O`. */
  lemma FloorAreaTextsFreeOfO(area: string)
    requires area in FLOOR_AREA_CONDITIONS && area != "unknown"
    ensures 'O' !in FLOOR_AREA_CONDITIONS[area]
  {
  }

  lemma EarlyClausesFreeOfO()
    ensures 'O' !in POSTCODE_CLAUSE && 'O' !in RATING_CLAUSE && 'O' !in FUEL_CLAUSE
  {
  }

  lemma LateClausesFreeOfO()
    ensures 'O' !in LOCAL_AUTHORITY_CLAUSE && 'O' !in CONSTITUENCY_CLAUSE
    ensures 'O' !in UPRN_CLAUSE && 'O' !in CURSOR_CLAUSE
  {
  }

  lemma EarlyLinesFreeOfO(input: WhereInput, k: nat)
    requires 1 <= k <= 4
    ensures AllFreeOf(LineConditions(input, k), 'O')
  {
    EarlyClausesFreeOfO();
    if k == 4 {
      var pt := input.propertyType.GetOr([]);
      InListFreeOf(|pt|, 'O');
      OneFreeOf(HasPropertyTypes(input), Bound(InListClause(|pt|), pt), 'O');
    }
  }

  lemma LateLinesFreeOfO(input: WhereInput, k: nat)
    requires 5 <= k <= LINES && input.floorArea != Some("unknown")
    ensures AllFreeOf(LineConditions(input, k), 'O')
  {
    LateClausesFreeOfO();
    if k == 8 && HasFloorArea(input) {
      FloorAreaTextsFreeOfO(input.floorArea.value);
    }
  }

  lemma {:induction false} ConditionsFreeOfO(input: WhereInput, k: nat)
    requires k <= LINES && input.floorArea != Some("unknown")
    ensures AllFreeOf(ConditionsUpTo(input, k), 'O')
  {
    if k > 0 {
      ConditionsStep(input, k);
      ConditionsFreeOfO(input, k - 1);
      if k <= 4 {
        EarlyLinesFreeOfO(input, k);
      } else {
        LateLinesFreeOfO(input, k);
      }
    }
  }

  /** Without the `unknown` label the clause holds no capital `O`. */
  lemma NoOWithoutUnknown(input: WhereInput)
    requires input.floorArea != Some("unknown")
    ensures Chr('O') !in WhereTokens(input)
  {
    ConditionsFreeOfO(input, LINES);
    ApplyRenders(Conditions(input));
    TokensFreeOf(Conditions(input), 'O');
  }

  lemma UnknownHoldsOr()
    ensures Contains(Chrs(UNKNOWN_FLOOR_AREA), Chrs(" OR "))
  {
    var a, b := "total_floor_area IS NULL", "total_floor_area = 0";
    assert UNKNOWN_FLOOR_AREA == a + (" OR " + b);
    ChrsAppend(a, " OR " + b);
    ChrsAppend(" OR ", b);
    assert Chrs(" OR ") <= Chrs(" OR ") + Chrs(b);
    ContainsAppendRight(Chrs(a), Chrs(" OR ") + Chrs(b), Chrs(" OR "));
  }

  /** A clause whose conditions include one holding `t` holds `t`. */
  lemma ClauseContains(conditions: seq<seq<Token>>, i: nat, t: seq<Token>)
    requires i < |conditions| && Contains(conditions[i], t)
    ensures Contains(Chrs("WHERE ") + Join(conditions, AND), t)
  {
    JoinContains(conditions, AND, i, t);
    ContainsAppendRight(Chrs("WHERE "), Join(conditions, AND), t);
  }

  /** The `unknown` label's text is joined with `AND` as it is, so its `OR`
      is not held inside parentheses: the clause has ` OR ` exactly when the
      floor area is `unknown`. */
  lemma OrOnlyFromUnknown(input: WhereInput)
    ensures Contains(WhereTokens(input), Chrs(" OR ")) <==> input.floorArea == Some("unknown")
  {
    if input.floorArea == Some("unknown") {
      FloorAreaPushed(input);
      UnknownHoldsOr();
      ClauseContains(Built(input).conditions, 1 + |ConditionsUpTo(input, 7)|, Chrs(" OR "));
    } else {
      NoOWithoutUnknown(input);
      if Contains(WhereTokens(input), Chrs(" OR ")) {
        assert Chrs(" OR ")[1] == Chr('O');
        ContainsElements(WhereTokens(input), Chrs(" OR "), Chr('O'));
      }
    }
  }

  /* ---------- the property-type line ---------- */

  /** The arrays after the property-type line, when the filter has types. */
  lemma PropertyTypeLine(input: WhereInput)
    requires HasPropertyTypes(input)
    ensures Apply(START, ConditionsUpTo(input, 4))
         == ApplyCond(Apply(START, ConditionsUpTo(input, 3)),
              Bound(InListClause(|input.propertyType.value|), input.propertyType.value))
  {
    NextLine(input, 4);
    ApplyOpt(Apply(START, ConditionsUpTo(input, 3)), true,
      Bound(InListClause(|input.propertyType.value|), input.propertyType.value));
  }

  /* ---------- the cursor line ---------- */

  /** Without a cursor the last line adds nothing: the clause has no
      `lmk_key > $n` condition and a request sees the first page. */
  lemma NoCursorNoKeyset(input: WhereInput)
    requires !Truthy(input.cursor)
    ensures Conditions(input) == ConditionsUpTo(input, 8)
  {
    assert LineConditions(input, 9) == [];
    assert ConditionsUpTo(input, 9) == ConditionsUpTo(input, 8) + LineConditions(input, 9);
  }
}

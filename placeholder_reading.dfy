/** How PostgreSQL reads the bind placeholders of the SQL text the RPC
    builder returns (backend/trpc.ts, `buildWhereClause`).

    PostgreSQL takes `$` followed by a run of digits as one placeholder,
    numbered by the whole run. The rewrite in `addCondition` captures only
    the first digit after a `$`, so in an entry such as `$10` of the
    property-type list it renumbers the `1` and leaves the `0` as text right
    after the new number. PostgreSQL then reads one larger number. `Lexed`
    states what PostgreSQL reads; the lemmas relate it to the builder's
    tokens and to its `params`. */
module PlaceholderReading {
  import opened Wrappers
  import opened Text
  import opened QueryBuilder

  /* ---------- reading placeholders out of SQL text ---------- */

  /** The length of the run of digits `s` starts with. */
  function DigitRun(s: string): (k: nat)
    ensures k <= |s|
    ensures forall i :: 0 <= i < k ==> IsDigit(s[i])
    ensures k < |s| ==> !IsDigit(s[k])
  {
    if s != [] && IsDigit(s[0]) then 1 + DigitRun(s[1..]) else 0
  }

  /** The placeholder numbers PostgreSQL reads in an SQL text, left to right:
      a `$` and the whole run of digits after it is one placeholder, numbered
      by those digits; every other character is text. */
  function Lexed(s: string): seq<nat>
    decreases |s|
  {
    if s == [] then []
    else if s[0] == '$' && |s| >= 2 && IsDigit(s[1]) then
      var run := s[1..][..DigitRun(s[1..])];
      [ParseDecimal(run)] + Lexed(s[1 + |run|..])
    else Lexed(s[1..])
  }

  /** `10^e`. */
  function Pow10(e: nat): (p: nat)
    ensures p >= 1
    ensures e >= 1 ==> p >= 10
  {
    if e == 0 then 1 else 10 * Pow10(e - 1)
  }

  /** Reading the digits of `a` and then those of `b`. */
  lemma {:induction false} ParseDecimalAppend(a: string, b: string)
    requires AllDigits(a) && AllDigits(b)
    ensures AllDigits(a + b)
    ensures ParseDecimal(a + b) == ParseDecimal(a) * Pow10(|b|) + ParseDecimal(b)
  {
    if b == [] {
      assert a + b == a;
    } else {
      var init := b[..|b| - 1];
      assert (a + b)[..|a + b| - 1] == a + init;
      assert (a + b)[|a + b| - 1] == b[|b| - 1];
      ParseDecimalAppend(a, init);
      MulAssociates(ParseDecimal(a), Pow10(|init|));
    }
  }

  lemma MulAssociates(x: nat, p: nat)
    ensures 10 * (x * p) == x * (10 * p)
  {
  }

  lemma {:induction false} DigitRunAll(s: string)
    requires AllDigits(s)
    ensures DigitRun(s) == |s|
  {
    if s != [] {
      DigitRunAll(s[1..]);
    }
  }

  /** A run of digits stops where `x` stops, when what follows cannot
      continue it. */
  lemma {:induction false} DigitRunAppend(x: string, b: string)
    requires b == [] || !IsDigit(b[0]) || (x != [] && !IsDigit(x[|x| - 1]))
    ensures DigitRun(x + b) == DigitRun(x)
  {
    if x == [] {
      assert x + b == b;
    } else if IsDigit(x[0]) {
      assert (x + b)[0] == x[0];
      assert (x + b)[1..] == x[1..] + b;
      if x[1..] != [] {
        assert x[1..][|x[1..]| - 1] == x[|x| - 1];
      }
      DigitRunAppend(x[1..], b);
    } else {
      assert (x + b)[0] == x[0];
    }
  }

  /** `b` cannot continue a placeholder at the end of `a`: it does not start
      with a digit, or `a` ends in a character that is neither a digit nor a
      `$`. */
  predicate ReadApart(a: string, b: string) {
    b == [] || !IsDigit(b[0]) || (a != [] && !IsDigit(a[|a| - 1]) && a[|a| - 1] != '$')
  }

  /** A `$` and a digit start a placeholder. */
  lemma LexedParamHead(s: string)
    requires |s| >= 2 && s[0] == '$' && IsDigit(s[1])
    ensures Lexed(s) == [ParseDecimal(s[1..][..DigitRun(s[1..])])] + Lexed(s[1 + DigitRun(s[1..])..])
  {
  }

  /** Any other first character is text. */
  lemma LexedCharHead(s: string)
    requires s != [] && !(s[0] == '$' && |s| >= 2 && IsDigit(s[1]))
    ensures Lexed(s) == Lexed(s[1..])
  {
  }

  /** Texts read apart are read one after the other. */
  lemma {:induction false} LexedAppend(a: string, b: string)
    requires ReadApart(a, b)
    ensures Lexed(a + b) == Lexed(a) + Lexed(b)
    decreases |a|, 1
  {
    if a == [] {
      assert a + b == b;
    } else if a[0] == '$' && |a| >= 2 && IsDigit(a[1]) {
      LexedAppendParam(a, b);
    } else {
      LexedAppendChar(a, b);
    }
  }

  /** Slicing a concatenation inside its first part. */
  lemma SliceAppend(a: string, b: string, j: nat)
    requires j <= |a|
    ensures (a + b)[j..] == a[j..] + b
    ensures (a + b)[..j] == a[..j]
  {
  }

  /** The digit run after a leading `$` of `a` is the same in `a + b`, and
      what is left after it can again be read apart from `b`. */
  lemma {:induction false} ParamRunApart(a: string, b: string)
    requires ReadApart(a, b) && |a| >= 2 && a[0] == '$' && IsDigit(a[1])
    ensures DigitRun((a + b)[1..]) == DigitRun(a[1..]) <= |a| - 1
    ensures (a + b)[1..][..DigitRun(a[1..])] == a[1..][..DigitRun(a[1..])]
    ensures (a + b)[1 + DigitRun(a[1..])..] == a[1 + DigitRun(a[1..])..] + b
    ensures ReadApart(a[1 + DigitRun(a[1..])..], b)
  {
    var x := a[1..];
    SliceAppend(a, b, 1);
    if b != [] && IsDigit(b[0]) {
      assert x[|x| - 1] == a[|a| - 1];
    }
    DigitRunAppend(x, b);
    var k := DigitRun(x);
    SliceAppend(x, b, k);
    var rest := a[1 + k..];
    SliceAppend(a, b, 1 + k);
    if rest != [] {
      assert rest[|rest| - 1] == a[|a| - 1];
    } else {
      assert IsDigit(x[|x| - 1]);
    }
  }

  /** The placeholder at the start of `a` is the one read at the start of
      `a + b`. */
  lemma LexedParamSplit(a: string, b: string)
    requires ReadApart(a, b) && |a| >= 2 && a[0] == '$' && IsDigit(a[1])
    ensures DigitRun(a[1..]) <= |a| - 1
    ensures Lexed(a + b)
         == [ParseDecimal(a[1..][..DigitRun(a[1..])])] + Lexed(a[1 + DigitRun(a[1..])..] + b)
    ensures ReadApart(a[1 + DigitRun(a[1..])..], b)
  {
    ParamRunApart(a, b);
    LexedParamHead(a + b);
  }

  /** The step of `LexedAppend` past a placeholder at the start of `a`. */
  lemma {:induction false} LexedAppendParam(a: string, b: string)
    requires ReadApart(a, b) && |a| >= 2 && a[0] == '$' && IsDigit(a[1])
    ensures Lexed(a + b) == Lexed(a) + Lexed(b)
    decreases |a|, 0
  {
    LexedParamSplit(a, b);
    var k := DigitRun(a[1..]);
    var rest := a[1 + k..];
    var head := [ParseDecimal(a[1..][..k])];
    LexedParamHead(a);
    LexedAppend(rest, b);
    HeadThenParts(head, Lexed(a + b), Lexed(rest + b), Lexed(a), Lexed(rest), Lexed(b));
  }

  lemma HeadThenParts(head: seq<nat>, whole: seq<nat>, restAndB: seq<nat>, ofA: seq<nat>, rest: seq<nat>, ofB: seq<nat>)
    requires whole == head + restAndB && restAndB == rest + ofB && ofA == head + rest
    ensures whole == ofA + ofB
  {
  }

  /** The step of `LexedAppend` past a text character at the start of `a`. */
  lemma {:induction false} LexedAppendChar(a: string, b: string)
    requires ReadApart(a, b) && a != [] && !(a[0] == '$' && |a| >= 2 && IsDigit(a[1]))
    ensures Lexed(a + b) == Lexed(a) + Lexed(b)
    decreases |a|, 0
  {
    var s := a + b;
    assert s[0] == a[0];
    assert s[1..] == a[1..] + b;
    LexedCharHead(a);
    if |a| == 1 {
      assert !(s[0] == '$' && |s| >= 2 && IsDigit(s[1]));
      LexedCharHead(s);
      assert a[1..] + b == b;
    } else {
      assert s[1] == a[1];
      LexedCharHead(s);
      assert a[1..][|a[1..]| - 1] == a[|a| - 1];
      LexedAppend(a[1..], b);
    }
  }

  /** Text without a `$` holds no placeholder. */
  lemma {:induction false} LexedText(s: string)
    requires '$' !in s
    ensures Lexed(s) == []
  {
    if s != [] {
      LexedText(s[1..]);
    }
  }

  /** `$` and a run of digits is the one placeholder those digits number. */
  lemma LexedPlaceholder(digits: string)
    requires |digits| >= 1 && AllDigits(digits)
    ensures Lexed("$" + digits) == [ParseDecimal(digits)]
  {
    var s := "$" + digits;
    DigitRunAll(digits);
    assert s[1..] == digits;
    assert s[1..][..|digits|] == digits;
    assert s[1 + |digits|..] == [];
  }

  /* ---------- tokens as SQL text ---------- */

  lemma {:induction false} RenderAppend(a: seq<Token>, b: seq<Token>)
    ensures Render(a + b) == Render(a) + Render(b)
  {
    if a == [] {
      assert a + b == b;
    } else {
      assert (a + b)[0] == a[0];
      assert (a + b)[1..] == a[1..] + b;
      RenderAppend(a[1..], b);
    }
  }

  lemma {:induction false} RenderText(s: string)
    ensures Render(Chrs(s)) == s
  {
    if s != [] {
      assert Chrs(s)[1..] == Chrs(s[1..]);
      RenderText(s[1..]);
    }
  }

  lemma RenderParam(n: nat)
    ensures Render([Param(n)]) == "$" + DecimalString(n)
  {
    assert [Param(n)][1..] == [];
  }

  /** The text of a placeholder starts with `$`, that of a character with
      the character. */
  lemma RenderHead(ts: seq<Token>)
    requires ts != []
    ensures Render(ts) != [] && Render(ts)[0] == (if ts[0].Chr? then ts[0].c else '$')
  {
  }

  /** A token that a digit right after it would extend: a placeholder, or a
      literal `$`. */
  predicate Extendable(t: Token) {
    t.Param? || t == Chr('$')
  }

  predicate IsDigitToken(t: Token) {
    t.Chr? && IsDigit(t.c)
  }

  /** No placeholder and no literal `$` is followed by a literal digit. */
  predicate Unambiguous(ts: seq<Token>) {
    forall i :: 0 <= i < |ts| - 1 && Extendable(ts[i]) ==> !IsDigitToken(ts[i + 1])
  }

  /** When nothing follows a placeholder that could continue it, PostgreSQL
      reads exactly the tokens' placeholders. */
  lemma {:induction false} LexedRender(ts: seq<Token>)
    requires Unambiguous(ts)
    ensures Lexed(Render(ts)) == Placeholders(ts)
  {
    if ts != [] {
      var rest := ts[1..];
      assert Unambiguous(rest) by {
        forall i | 0 <= i < |rest| - 1 && Extendable(rest[i])
          ensures !IsDigitToken(rest[i + 1])
        {
          assert rest[i] == ts[i + 1] && rest[i + 1] == ts[i + 2];
        }
      }
      LexedRender(rest);
      var r := Render(rest);
      if rest != [] {
        RenderHead(rest);
        assert rest[0] == ts[1];
      }
      match ts[0]
      case Chr(c) =>
        assert Render(ts) == [c] + r;
        assert ([c] + r)[1..] == r;
      case Param(n) =>
        var d := DecimalString(n);
        assert Render(ts) == ("$" + d) + r;
        LexedAppend("$" + d, r);
        LexedPlaceholder(d);
        DecimalRoundTrip(n);
    }
  }

  /** A clause whose parts are joined by a placeholder-free separator that
      starts and ends with a non-digit is read part by part, whatever offset
      it is renumbered past. */
  lemma Separated(a: string, sep: string, b: string, offset: nat)
    requires EndsSafely(a) && '$' !in sep && sep != []
    requires !IsDigit(sep[0]) && !IsDigit(sep[|sep| - 1])
    ensures Lexed(Render(Renumber(a + (sep + b), offset)))
         == Lexed(Render(Renumber(a, offset))) + Lexed(Render(Renumber(b, offset)))
  {
    SeparatedTokens(a, sep, b, offset);
    LexedAround(Render(Renumber(a, offset)), sep, Render(Renumber(b, offset)));
  }

  /** Placeholder-free text that starts and ends with a non-digit keeps the
      texts on its two sides apart. */
  lemma LexedAround(x: string, sep: string, y: string)
    requires '$' !in sep && sep != []
    requires !IsDigit(sep[0]) && !IsDigit(sep[|sep| - 1])
    ensures Lexed(x + (sep + y)) == Lexed(x) + Lexed(y)
  {
    LexedTextFirst(sep, y);
    LexedAppend(x, sep + y);
  }

  /** Placeholder-free text that ends with a non-digit adds nothing to what
      follows it. */
  lemma LexedTextFirst(sep: string, y: string)
    requires '$' !in sep && sep != [] && !IsDigit(sep[|sep| - 1])
    ensures Lexed(sep + y) == Lexed(y)
  {
    assert sep[|sep| - 1] in sep;
    LexedAppend(sep, y);
    LexedText(sep);
  }

  lemma SeparatedTokens(a: string, sep: string, b: string, offset: nat)
    requires EndsSafely(a) && '$' !in sep && sep != []
    ensures Render(Renumber(a + (sep + b), offset))
         == Render(Renumber(a, offset)) + (sep + Render(Renumber(b, offset)))
  {
    assert sep[|sep| - 1] in sep;
    RenumberAppend(a, sep + b, offset);
    RenumberAppend(sep, b, offset);
    RenumberText(sep, offset);
    var ra, rb := Renumber(a, offset), Renumber(b, offset);
    RenderAppend(ra, Chrs(sep) + rb);
    RenderAppend(Chrs(sep), rb);
    RenderText(sep);
  }

  /* ---------- the condition texts ---------- */

  /** Placeholder-free text followed by `$d`, renumbered past `offset` values. */
  lemma OneRefRead(prefix: string, d: char, offset: nat)
    requires '$' !in prefix && IsDigit(d)
    ensures Render(Renumber(prefix + ['$', d], offset))
         == prefix + ("$" + DecimalString(offset + DigitValue(d)))
    ensures Lexed(Render(Renumber(prefix + ['$', d], offset))) == [offset + DigitValue(d)]
  {
    var v := offset + DigitValue(d);
    SlotAfterText(prefix, d, offset);
    RenderAppend(Chrs(prefix), [Param(v)]);
    RenderText(prefix);
    RenderParam(v);
    LexedAppend(prefix, "$" + DecimalString(v));
    LexedText(prefix);
    LexedPlaceholder(DecimalString(v));
    DecimalRoundTrip(v);
  }

  /** A condition rendered past `offset` values is read as the placeholders
      `offset + 1 .. offset + k` for its k values. */
  predicate ReadAsNumbered(c: Cond, offset: nat) {
    Lexed(Render(RenderCond(c, offset))) == Numbers(offset + 1, |CondValues(c)|)
  }

  lemma OneValueRead(prefix: string, v: string, offset: nat)
    requires '$' !in prefix
    ensures ReadAsNumbered(Bound(prefix + "$1", [v]), offset)
  {
    assert "$1" == ['$', '1'];
    OneRefRead(prefix, '1', offset);
    assert Numbers(offset + 1, 1) == [offset + 1];
  }

  /** Two placeholders `$d1` and `$d2`, each after placeholder-free text. */
  lemma TwoRefsRead(p1: string, d1: char, sep: string, d2: char, offset: nat)
    requires '$' !in p1 && '$' !in sep && sep != [] && !IsDigit(sep[0]) && !IsDigit(sep[|sep| - 1])
    requires IsDigit(d1) && IsDigit(d2)
    ensures Lexed(Render(Renumber((p1 + ['$', d1]) + (sep + ['$', d2]), offset)))
         == [offset + DigitValue(d1), offset + DigitValue(d2)]
  {
    SlotAfterText(p1, d1, offset);
    Separated(p1 + ['$', d1], sep, ['$', d2], offset);
    OneRefRead(p1, d1, offset);
    assert [] + ['$', d2] == ['$', d2];
    OneRefRead([], d2, offset);
  }

  lemma PostcodeClauseRead(offset: nat)
    ensures Lexed(Render(Renumber(POSTCODE_CLAUSE, offset))) == [offset + 1, offset + 2]
  {
    assert POSTCODE_CLAUSE == ("postcode >= " + ['$', '1']) + (" AND postcode < " + ['$', '2']);
    TwoRefsRead("postcode >= ", '1', " AND postcode < ", '2', offset);
  }

  lemma PostcodeRead(low: string, high: string, offset: nat)
    ensures ReadAsNumbered(Bound(POSTCODE_CLAUSE, [low, high]), offset)
  {
    PostcodeClauseRead(offset);
    assert Numbers(offset + 1, 2) == [offset + 1, offset + 2];
  }

  lemma RawRead(text: string, offset: nat)
    requires '$' !in text
    ensures ReadAsNumbered(Raw(text), offset)
  {
    RenderText(text);
    LexedText(text);
  }

  /* ---------- the property-type list ---------- */

  /** The text the k-th entry `$k` of the list becomes once the list is
      renumbered past `offset` values: `$`, then `offset` plus the leading
      digit of k, then the other digits of k. */
  function ItemText(k: nat, offset: nat): string {
    "$" + (DecimalString(offset + LeadingDigit(k)) + DecimalString(k)[1..])
  }

  /** The number PostgreSQL reads for that entry. */
  function ItemNumber(k: nat, offset: nat): nat {
    k + offset * Pow10(|DecimalString(k)| - 1)
  }

  function ItemNumbers(n: nat, offset: nat): (r: seq<nat>)
    ensures |r| == n
    ensures forall i :: 0 <= i < n ==> r[i] == ItemNumber(i + 1, offset)
  {
    seq(n, i requires 0 <= i < n => ItemNumber(i + 1, offset))
  }

  /** A placeholder followed by literal text. */
  lemma RenderParamThenText(ts: seq<Token>, v: nat, tail: string)
    requires ts == [Param(v)] + Chrs(tail)
    ensures Render(ts) == "$" + (DecimalString(v) + tail)
  {
    RenderAppend([Param(v)], Chrs(tail));
    RenderParam(v);
    RenderText(tail);
  }

  lemma ItemRendered(k: nat, offset: nat)
    ensures Render(Renumber(PlaceholderItem(k), offset)) == ItemText(k, offset)
  {
    PlaceholderItemRenumbered(k, offset);
    RenderParamThenText(Renumber(PlaceholderItem(k), offset), offset + LeadingDigit(k), DecimalString(k)[1..]);
  }

  /** k is its leading digit times `10^(d−1)` plus the number its other
      digits spell. */
  lemma LeadingSplit(k: nat)
    ensures AllDigits(DecimalString(k)[1..])
    ensures k == LeadingDigit(k) * Pow10(|DecimalString(k)| - 1) + ParseDecimal(DecimalString(k)[1..])
  {
    var d := DecimalString(k);
    var tail := d[1..];
    assert AllDigits(tail) by {
      forall i | 0 <= i < |tail| ensures IsDigit(tail[i]) {
        assert tail[i] == d[i + 1];
      }
    }
    DecimalRoundTrip(k);
    DecimalStringHead(k);
    assert d == d[..1] + tail;
    ParseDecimalAppend(d[..1], tail);
    assert d[..1][..0] == [];
  }

  lemma AddToLeading(offset: nat, lead: nat, p: nat, t: nat)
    ensures (offset + lead) * p + t == (lead * p + t) + offset * p
  {
  }

  /** Entry k is read as k + offset·10^(d−1), d the number of digits of k:
      the offset is added to the leading digit, not to the number. */
  lemma ItemRead(k: nat, offset: nat)
    ensures Lexed(ItemText(k, offset)) == [ItemNumber(k, offset)]
  {
    var head := DecimalString(offset + LeadingDigit(k));
    var tail := DecimalString(k)[1..];
    LeadingSplit(k);
    DigitsThenDigits(head, tail);
    DecimalRoundTrip(offset + LeadingDigit(k));
    ShiftedLeading(ParseDecimal(head), offset, LeadingDigit(k), Pow10(|tail|), ParseDecimal(tail), k);
  }

  lemma ShiftedLeading(x: nat, offset: nat, lead: nat, p: nat, t: nat, k: nat)
    requires x == offset + lead && k == lead * p + t
    ensures x * p + t == k + offset * p
  {
    AddToLeading(offset, lead, p, t);
  }

  /** `$` and the digits of `a` then of `b` are one placeholder. */
  lemma DigitsThenDigits(a: string, b: string)
    requires |a| >= 1 && AllDigits(a) && AllDigits(b)
    ensures Lexed("$" + (a + b)) == [ParseDecimal(a) * Pow10(|b|) + ParseDecimal(b)]
  {
    ParseDecimalAppend(a, b);
    LexedPlaceholder(a + b);
  }

  /** Entry k of the list, renumbered past `offset` values, is read as
      `ItemNumber(k, offset)`. */
  lemma ItemTokensRead(k: nat, offset: nat)
    ensures Lexed(Render(Renumber(PlaceholderItem(k), offset))) == [ItemNumber(k, offset)]
  {
    ItemRendered(k, offset);
    ItemRead(k, offset);
  }

  /** The list of n >= 2 entries is that of n − 1 entries, a comma and entry n. */
  lemma ItemsLast(n: nat, offset: nat)
    requires n >= 2
    ensures Join(PlaceholderItems(n), ", ")
         == Join(PlaceholderItems(n - 1), ", ") + (", " + PlaceholderItem(n))
    ensures ItemNumbers(n, offset) == ItemNumbers(n - 1, offset) + [ItemNumber(n, offset)]
  {
    assert PlaceholderItems(n)[..n - 1] == PlaceholderItems(n - 1);
  }

  /** The entries of the list are read one after another. */
  lemma {:induction false} ListRead(n: nat, offset: nat)
    ensures Lexed(Render(Renumber(Join(PlaceholderItems(n), ", "), offset))) == ItemNumbers(n, offset)
  {
    if n == 1 {
      assert Join(PlaceholderItems(n), ", ") == PlaceholderItem(1);
      ItemTokensRead(1, offset);
    } else if n >= 2 {
      ItemsLast(n, offset);
      PlaceholderListSlots(n - 1);
      Separated(Join(PlaceholderItems(n - 1), ", "), ", ", PlaceholderItem(n), offset);
      ItemTokensRead(n, offset);
      ListRead(n - 1, offset);
    } else {
      assert Join(PlaceholderItems(n), ", ") == [];
    }
  }

  /** `property_type IN ($1, ..., $n)` renumbered past `offset` values is read
      as `ItemNumbers`: `offset + k` for the entries k up to 9, and
      k + offset·10^(d−1) for an entry k of d >= 2 digits. */
  lemma InListRead(n: nat, offset: nat)
    ensures Lexed(Render(Renumber(InListClause(n), offset))) == ItemNumbers(n, offset)
    ensures forall i :: 0 <= i < n && i < 9 ==> ItemNumbers(n, offset)[i] == i + 1 + offset
    ensures offset == 0 ==> ItemNumbers(n, offset) == Numbers(1, n)
  {
    var pre, list, post := "property_type IN (", Join(PlaceholderItems(n), ", "), ")";
    assert InListClause(n) == [] + (pre + (list + (post + [])));
    Separated([], pre, list + (post + []), offset);
    PlaceholderListSlots(n);
    Separated(list, post, [], offset);
    ListRead(n, offset);
    forall i | 0 <= i < n && i < 9 ensures ItemNumbers(n, offset)[i] == i + 1 + offset {
      assert |DecimalString(i + 1)| == 1;
    }
    if offset == 0 {
      forall i | 0 <= i < n ensures ItemNumbers(n, offset)[i] == Numbers(1, n)[i] {
      }
    }
  }

  lemma InListReadAsNumbered(values: seq<string>, offset: nat)
    requires |values| <= 9 || offset == 0
    ensures ReadAsNumbered(Bound(InListClause(|values|), values), offset)
  {
    InListRead(|values|, offset);
  }

  /* ---------- the whole clause ---------- */

  /** The numbers read in each condition text, one text after another. */
  function FlatLexed(xs: seq<seq<Token>>): seq<nat> {
    if xs == [] then [] else FlatLexed(xs[..|xs| - 1]) + Lexed(Render(xs[|xs| - 1]))
  }

  /** `" AND "` keeps the conditions apart, whatever they hold. */
  lemma {:induction false} LexedJoin(xs: seq<seq<Token>>)
    ensures Lexed(Render(Join(xs, AND))) == FlatLexed(xs)
  {
    if |xs| == 1 {
      assert xs[..0] == [];
    } else if |xs| >= 2 {
      var init, last := xs[..|xs| - 1], xs[|xs| - 1];
      LexedJoin(init);
      JoinRendered(init, last);
      LexedAround(Render(Join(init, AND)), " AND ", Render(last));
    }
  }

  lemma JoinRendered(init: seq<seq<Token>>, last: seq<Token>)
    requires |init| >= 1
    ensures Render(Join(init + [last], AND)) == Render(Join(init, AND)) + (" AND " + Render(last))
  {
    var xs := init + [last];
    assert xs[..|xs| - 1] == init && xs[|xs| - 1] == last;
    assert Join(xs, AND) == Join(init, AND) + (AND + last);
    RenderAppend(Join(init, AND), AND + last);
    RenderAppend(AND, last);
    RenderText(" AND ");
  }

  /** `WHERE ` adds nothing. */
  lemma ClauseLexed(conditions: seq<seq<Token>>)
    ensures Lexed(Render(Chrs("WHERE ") + Join(conditions, AND))) == FlatLexed(conditions)
  {
    RenderAppend(Chrs("WHERE "), Join(conditions, AND));
    RenderText("WHERE ");
    LexedTextFirst("WHERE ", Render(Join(conditions, AND)));
    LexedJoin(conditions);
  }

  /** Nor does the leading `1=1`. */
  lemma WhereLexed(rendered: seq<seq<Token>>)
    ensures Lexed(Render(Chrs("WHERE ") + Join([TRUE_CONDITION] + rendered, AND)))
         == FlatLexed(rendered)
  {
    ClauseLexed([TRUE_CONDITION] + rendered);
    FlatLexedPrepend(TRUE_CONDITION, rendered);
    RenderText("1=1");
    LexedText("1=1");
  }

  lemma FlatLexedPrepend(x: seq<Token>, xs: seq<seq<Token>>)
    ensures FlatLexed([x] + xs) == Lexed(Render(x)) + FlatLexed(xs)
  {
    FlatLexedAppend([x], xs);
    assert [] + [x] == [x];
    FlatLexedSnoc([], x);
  }

  lemma FlatLexedSnoc(xs: seq<seq<Token>>, y: seq<Token>)
    ensures FlatLexed(xs + [y]) == FlatLexed(xs) + Lexed(Render(y))
  {
    assert (xs + [y])[..|xs|] == xs;
  }

  lemma {:induction false} FlatLexedAppend(xs: seq<seq<Token>>, ys: seq<seq<Token>>)
    ensures FlatLexed(xs + ys) == FlatLexed(xs) + FlatLexed(ys)
  {
    if ys == [] {
      assert xs + ys == xs;
    } else {
      var init, y := ys[..|ys| - 1], ys[|ys| - 1];
      assert ys == init + [y];
      assert xs + ys == (xs + init) + [y];
      FlatLexedSnoc(xs + init, y);
      FlatLexedSnoc(init, y);
      FlatLexedAppend(xs, init);
    }
  }

  /** Each condition of a run is read as the placeholders for its own values,
      past those of the conditions before it. */
  predicate AllReadAsNumbered(cs: seq<Cond>) {
    cs == [] || (AllReadAsNumbered(cs[..|cs| - 1]) && ReadAsNumbered(cs[|cs| - 1], |ValuesOf(cs[..|cs| - 1])|))
  }

  /** Then the whole run is read as `1..n` for its n values. */
  lemma {:induction false} ReadConds(cs: seq<Cond>)
    requires AllReadAsNumbered(cs)
    ensures FlatLexed(RenderConds(cs)) == Numbers(1, |ValuesOf(cs)|)
  {
    if cs != [] {
      var init, last := cs[..|cs| - 1], cs[|cs| - 1];
      var offset := |ValuesOf(init)|;
      ReadConds(init);
      var r := RenderCond(last, offset);
      assert RenderConds(cs) == RenderConds(init) + [r];
      assert |ValuesOf(cs)| == offset + |CondValues(last)|;
      FlatLexedSnoc(RenderConds(init), r);
      ConcatNumbered(FlatLexed(RenderConds(init)), Lexed(Render(r)), offset, |CondValues(last)|);
    }
  }

  lemma ConcatNumbered(a: seq<nat>, b: seq<nat>, m: nat, k: nat)
    requires a == Numbers(1, m) && b == Numbers(m + 1, k)
    ensures a + b == Numbers(1, m + k)
  {
    NumbersAppend(m, k);
  }

  lemma NumbersAppend(m: nat, k: nat)
    ensures Numbers(1, m) + Numbers(m + 1, k) == Numbers(1, m + k)
  {
  }

  /** Every condition of a line is read as numbered past `offset` values. */
  predicate LineRead(line: seq<Cond>, offset: nat) {
    forall c :: c in line ==> ReadAsNumbered(c, offset)
  }

  /** A line adds at most one condition; read as numbered past the values
      before it, it keeps the run read as numbered. */
  lemma AllReadStep(before: seq<Cond>, line: seq<Cond>)
    requires AllReadAsNumbered(before) && |line| <= 1 && LineRead(line, |ValuesOf(before)|)
    ensures AllReadAsNumbered(before + line)
  {
    if line == [] {
      assert before + line == before;
    } else {
      var cs := before + line;
      assert cs[..|cs| - 1] == before && cs[|cs| - 1] == line[0];
    }
  }

  lemma OptRead(present: bool, c: Cond, offset: nat)
    requires ReadAsNumbered(c, offset)
    ensures LineRead(Opt(present, c), offset) && |Opt(present, c)| <= 1
  {
  }

  lemma OneValueLineRead(present: bool, prefix: string, v: string, offset: nat)
    requires '$' !in prefix
    ensures LineRead(Opt(present, Bound(prefix + "$1", [v])), offset)
    ensures |Opt(present, Bound(prefix + "$1", [v]))| <= 1
  {
    OneValueRead(prefix, v, offset);
    OptRead(present, Bound(prefix + "$1", [v]), offset);
  }

  /** Postcode, rating and fuel bind no value. */
  predicate NoEarlyValues(input: WhereInput) {
    !Truthy(input.postcode) && !Truthy(input.rating) && !Truthy(input.fuel)
  }

  /** Each line is read as numbered past any number of earlier values, except
      the property-type list of ten or more values, which is read so only
      when no value comes before it. */
  lemma LineReadAt(input: WhereInput, k: nat, offset: nat)
    requires 1 <= k <= LINES
    requires k == 4 && !AtMostNinePropertyTypes(input) ==> offset == 0
    ensures LineRead(LineConditions(input, k), offset) && |LineConditions(input, k)| <= 1
  {
    if k == 1 {
      var up := ToUpper(input.postcode.GetOr(""));
      assert LineConditions(input, 1) == Opt(Truthy(input.postcode), Bound(POSTCODE_CLAUSE, [up, up + "Z"]));
      PostcodeRead(up, up + "Z", offset);
      OptRead(Truthy(input.postcode), Bound(POSTCODE_CLAUSE, [up, up + "Z"]), offset);
    } else if k == 2 {
      assert RATING_CLAUSE == "current_energy_rating = " + "$1";
      assert LineConditions(input, 2)
          == Opt(Truthy(input.rating), Bound("current_energy_rating = " + "$1", [input.rating.GetOr("")]));
      OneValueLineRead(Truthy(input.rating), "current_energy_rating = ", input.rating.GetOr(""), offset);
    } else if k == 3 {
      assert FUEL_CLAUSE == "main_fuel ILIKE " + "$1";
      assert LineConditions(input, 3)
          == Opt(Truthy(input.fuel), Bound("main_fuel ILIKE " + "$1", ["%" + input.fuel.GetOr("") + "%"]));
      OneValueLineRead(Truthy(input.fuel), "main_fuel ILIKE ", "%" + input.fuel.GetOr("") + "%", offset);
    } else if k == 4 {
      var pt := input.propertyType.GetOr([]);
      assert LineConditions(input, 4) == Opt(HasPropertyTypes(input), Bound(InListClause(|pt|), pt));
      InListReadAsNumbered(pt, offset);
      OptRead(HasPropertyTypes(input), Bound(InListClause(|pt|), pt), offset);
    } else if k == 8 {
      FloorAreaLineRead(input, offset);
    } else {
      LateLineRead(input, k, offset);
    }
  }

  lemma LateLineRead(input: WhereInput, k: nat, offset: nat)
    requires k == 5 || k == 6 || k == 7 || k == 9
    ensures LineRead(LineConditions(input, k), offset) && |LineConditions(input, k)| <= 1
  {
    if k == 5 {
      assert LOCAL_AUTHORITY_CLAUSE == "local_authority = " + "$1";
      assert LineConditions(input, 5)
          == Opt(Truthy(input.localAuthority), Bound("local_authority = " + "$1", [input.localAuthority.GetOr("")]));
      OneValueLineRead(Truthy(input.localAuthority), "local_authority = ", input.localAuthority.GetOr(""), offset);
    } else if k == 6 {
      assert CONSTITUENCY_CLAUSE == "constituency = " + "$1";
      assert LineConditions(input, 6)
          == Opt(Truthy(input.constituency), Bound("constituency = " + "$1", [input.constituency.GetOr("")]));
      OneValueLineRead(Truthy(input.constituency), "constituency = ", input.constituency.GetOr(""), offset);
    } else if k == 7 {
      assert UPRN_CLAUSE == "uprn = " + "$1";
      assert LineConditions(input, 7)
          == Opt(Truthy(input.uprn), Bound("uprn = " + "$1", [input.uprn.GetOr("")]));
      OneValueLineRead(Truthy(input.uprn), "uprn = ", input.uprn.GetOr(""), offset);
    } else {
      assert CURSOR_CLAUSE == "lmk_key > " + "$1";
      assert LineConditions(input, 9)
          == Opt(Truthy(input.cursor), Bound("lmk_key > " + "$1", [input.cursor.GetOr("")]));
      OneValueLineRead(Truthy(input.cursor), "lmk_key > ", input.cursor.GetOr(""), offset);
    }
  }

  /** The floor-area texts hold no `$`. */
  lemma FloorAreaLineRead(input: WhereInput, offset: nat)
    ensures LineRead(LineConditions(input, 8), offset) && |LineConditions(input, 8)| <= 1
  {
    var text := FloorAreaText(input.floorArea);
    assert LineConditions(input, 8) == OptRaw(text);
    if text.Some? {
      FloorAreaTextsFreeOfDollar(input.floorArea.value);
      RawRead(text.value, offset);
    }
  }

  lemma FloorAreaTextsFreeOfDollar(area: string)
    requires area in FLOOR_AREA_CONDITIONS
    ensures '$' !in FLOOR_AREA_CONDITIONS[area]
  {
  }

  /** Without postcode, rating and fuel no value comes before the list. */
  lemma EarlyLinesEmpty(input: WhereInput)
    requires NoEarlyValues(input)
    ensures ValuesOf(ConditionsUpTo(input, 3)) == []
  {
    assert LineConditions(input, 1) == [] && LineConditions(input, 2) == [] && LineConditions(input, 3) == [];
    assert ConditionsUpTo(input, 1) == ConditionsUpTo(input, 0) + LineConditions(input, 1) == [];
    assert ConditionsUpTo(input, 2) == ConditionsUpTo(input, 1) + LineConditions(input, 2) == [];
    assert ConditionsUpTo(input, 3) == ConditionsUpTo(input, 2) + LineConditions(input, 3) == [];
  }

  lemma {:induction false} ConditionsUpToRead(input: WhereInput, k: nat)
    requires k <= LINES && (AtMostNinePropertyTypes(input) || NoEarlyValues(input))
    ensures AllReadAsNumbered(ConditionsUpTo(input, k))
  {
    if k > 0 {
      ConditionsUpToRead(input, k - 1);
      var before := ConditionsUpTo(input, k - 1);
      if k == 4 && !AtMostNinePropertyTypes(input) {
        EarlyLinesEmpty(input);
      }
      LineReadAt(input, k, |ValuesOf(before)|);
      AllReadStep(before, LineConditions(input, k));
    }
  }

  /** PostgreSQL reads the clause's placeholders as exactly
      `$1..$|params|`, in order, whenever the list has at most nine property
      types or no value is bound before it. */
  lemma ClauseReadNumbered(input: WhereInput)
    requires AtMostNinePropertyTypes(input) || NoEarlyValues(input)
    ensures Lexed(Render(WhereTokens(input))) == Numbers(1, |WhereParams(input)|)
  {
    var cs := Conditions(input);
    ApplyRenders(cs);
    WhereLexed(RenderConds(cs));
    ConditionsUpToRead(input, LINES);
    ReadConds(cs);
  }

  /** With at most nine property types PostgreSQL reads exactly the
      placeholders the builder meant to write. */
  lemma ReadMatchesPlaceholders(input: WhereInput)
    requires AtMostNinePropertyTypes(input)
    ensures Lexed(Render(WhereTokens(input))) == Placeholders(WhereTokens(input))
  {
    ClauseReadNumbered(input);
    PlaceholdersContiguous(input);
  }

  /* ---------- ten or more property types after other values ---------- */

  /** How many values postcode, rating and fuel bind before the list. */
  function EarlyValueCount(input: WhereInput): nat {
    (if Truthy(input.postcode) then 2 else 0) + (if Truthy(input.rating) then 1 else 0)
    + (if Truthy(input.fuel) then 1 else 0)
  }

  lemma EarlyValues(input: WhereInput)
    ensures |Apply(START, ConditionsUpTo(input, 3)).params| == EarlyValueCount(input)
  {
    var s1 := Apply(START, ConditionsUpTo(input, 1));
    var s2 := Apply(START, ConditionsUpTo(input, 2));
    NextLine(input, 1);
    NextLine(input, 2);
    NextLine(input, 3);
    var up := ToUpper(input.postcode.GetOr(""));
    assert LineConditions(input, 1) == Opt(Truthy(input.postcode), Bound(POSTCODE_CLAUSE, [up, up + "Z"]));
    ApplyOpt(START, Truthy(input.postcode), Bound(POSTCODE_CLAUSE, [up, up + "Z"]));
    assert LineConditions(input, 2) == Opt(Truthy(input.rating), Bound(RATING_CLAUSE, [input.rating.GetOr("")]));
    ApplyOpt(s1, Truthy(input.rating), Bound(RATING_CLAUSE, [input.rating.GetOr("")]));
    assert LineConditions(input, 3) == Opt(Truthy(input.fuel), Bound(FUEL_CLAUSE, ["%" + input.fuel.GetOr("") + "%"]));
    ApplyOpt(s2, Truthy(input.fuel), Bound(FUEL_CLAUSE, ["%" + input.fuel.GetOr("") + "%"]));
  }

  /** Each line after the list binds at most one value. */
  lemma LateLineBindsOne(st: WhereState, input: WhereInput, k: nat)
    requires 5 <= k <= LINES
    ensures |Apply(st, LineConditions(input, k)).params| <= |st.params| + 1
  {
    if k == 8 {
      ApplyOptRaw(st, FloorAreaText(input.floorArea));
    } else {
      var v := match k
        case 5 => input.localAuthority
        case 6 => input.constituency
        case 7 => input.uprn
        case _ => input.cursor;
      var clause := match k
        case 5 => LOCAL_AUTHORITY_CLAUSE
        case 6 => CONSTITUENCY_CLAUSE
        case 7 => UPRN_CLAUSE
        case _ => CURSOR_CLAUSE;
      assert LineConditions(input, k) == Opt(Truthy(v), Bound(clause, [v.GetOr("")]));
      ApplyOpt(st, Truthy(v), Bound(clause, [v.GetOr("")]));
    }
  }

  /** The lines after the list bind at most one value each. */
  lemma {:induction false} LateValuesBound(input: WhereInput, k: nat)
    requires 4 <= k <= LINES
    ensures |Apply(START, ConditionsUpTo(input, k)).params|
         <= |Apply(START, ConditionsUpTo(input, 4)).params| + (k - 4)
  {
    if k > 4 {
      LateValuesBound(input, k - 1);
      NextLine(input, k);
      LateLineBindsOne(Apply(START, ConditionsUpTo(input, k - 1)), input, k);
    }
  }

  lemma MulAtLeast(m: nat, p: nat)
    requires p >= 10
    ensures m * p >= 10 * m
  {
  }

  /** Entry n >= 10 of a list renumbered past m >= 1 values is read as a
      number beyond every value the list and the lines after it can bind. */
  lemma ItemBeyond(n: nat, m: nat)
    requires n >= 10 && m >= 1
    ensures ItemNumber(n, m) >= n + 10 * m > m + n + 5
  {
    assert |DecimalString(n)| >= 2;
    MulAtLeast(m, Pow10(|DecimalString(n)| - 1));
  }

  /** The clause read as the conditions before the list, the list, and the
      conditions after it. */
  lemma ListAmongConditions(before: seq<seq<Token>>, x: seq<Token>, conditions: seq<seq<Token>>)
    requires before + [x] <= conditions
    ensures Lexed(Render(Chrs("WHERE ") + Join(conditions, AND)))
         == FlatLexed(before) + Lexed(Render(x)) + FlatLexed(conditions[|before| + 1..])
  {
    var rest := conditions[|before| + 1..];
    assert conditions == (before + [x]) + rest;
    ClauseLexed(conditions);
    FlatLexedAppend(before + [x], rest);
    FlatLexedAppend(before, [x]);
    assert [x][..0] == [];
  }

  lemma InMiddle(a: seq<nat>, l: seq<nat>, b: seq<nat>, i: nat)
    requires i < |l|
    ensures l[i] in a + l + b
  {
    assert (a + l + b)[|a| + i] == l[i];
  }

  /** The last entry of the list is read as `ItemNumber(n, m)`, m the values
      bound before the list. */
  lemma LastItemRead(input: WhereInput)
    requires HasPropertyTypes(input)
    ensures ItemNumber(|input.propertyType.value|, EarlyValueCount(input)) in Lexed(Render(WhereTokens(input)))
  {
    var n := |input.propertyType.value|;
    var m := EarlyValueCount(input);
    var s3 := Apply(START, ConditionsUpTo(input, 3));
    var x := Renumber(InListClause(n), |s3.params|);
    EarlyValues(input);
    PropertyTypeLine(input);
    BuiltExtends(input, 4);
    ListAmongConditions(s3.conditions, x, Built(input).conditions);
    InListRead(n, m);
    InMiddle(FlatLexed(s3.conditions), ItemNumbers(n, m),
      FlatLexed(Built(input).conditions[|s3.conditions| + 1..]), n - 1);
  }

  /** The list binds its n values after the m early ones, and the lines after
      it at most five more. */
  lemma ParamsBound(input: WhereInput)
    requires HasPropertyTypes(input)
    ensures |WhereParams(input)| <= EarlyValueCount(input) + |input.propertyType.value| + 5
  {
    EarlyValues(input);
    PropertyTypeLine(input);
    LateValuesBound(input, LINES);
  }

  lemma BeyondNumbers(v: nat, p: nat)
    requires v > p
    ensures v !in Numbers(1, p)
  {
  }

  /** With ten or more property types after a postcode, rating or fuel value,
      the rewrite adds the offset to the leading digit of `$10`, `$11`, ...,
      and PostgreSQL reads a placeholder numbered beyond every bound value:
      the query cannot run. */
  lemma TenTypesAfterEarlierValues(input: WhereInput)
    requires input.propertyType.Some? && |input.propertyType.value| >= 10 && !NoEarlyValues(input)
    ensures ItemNumber(|input.propertyType.value|, EarlyValueCount(input)) in Lexed(Render(WhereTokens(input)))
    ensures ItemNumber(|input.propertyType.value|, EarlyValueCount(input)) > |WhereParams(input)|
    ensures Lexed(Render(WhereTokens(input))) != Numbers(1, |WhereParams(input)|)
  {
    var n, m := |input.propertyType.value|, EarlyValueCount(input);
    LastItemRead(input);
    ParamsBound(input);
    ItemBeyond(n, m);
    BeyondNumbers(ItemNumber(n, m), |WhereParams(input)|);
  }
}

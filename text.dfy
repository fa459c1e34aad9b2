/** The JavaScript string built-ins the source relies on (`String(n)`,
    `parseInt`, `includes`, `toLowerCase`/`toUpperCase` on ASCII letters,
    `split` on one character, `join`, `padStart`) and the lexicographic order
    PostgreSQL uses for text under the "C" collation. */
module Text {

  /* ---------- digits and decimal numbers ---------- */

  predicate IsDigit(c: char) {
    '0' <= c <= '9'
  }

  predicate AllDigits(s: string) {
    forall i :: 0 <= i < |s| ==> IsDigit(s[i])
  }

  function DigitValue(c: char): (d: nat)
    requires IsDigit(c)
    ensures d < 10
  {
    c as int - '0' as int
  }

  function DigitChar(d: nat): (c: char)
    requires d < 10
    ensures IsDigit(c) && DigitValue(c) == d
  {
    ('0' as int + d) as char
  }

  /** `String(n)` for a non-negative integer: its decimal digits, no leading zero. */
  function DecimalString(n: nat): (s: string)
    ensures |s| >= 1 && AllDigits(s)
    ensures n < 10 <==> |s| == 1
  {
    if n < 10 then [DigitChar(n)] else DecimalString(n / 10) + [DigitChar(n % 10)]
  }

  /** `parseInt(s, 10)` of a string made of digits only. */
  function ParseDecimal(s: string): nat
    requires AllDigits(s)
  {
    if s == [] then 0 else 10 * ParseDecimal(s[..|s| - 1]) + DigitValue(s[|s| - 1])
  }

  /** The first decimal digit of `n`. */
  function LeadingDigit(n: nat): (d: nat)
    ensures d < 10
    ensures n >= 1 ==> d >= 1
  {
    if n < 10 then n else LeadingDigit(n / 10)
  }

  /** Reading back what `String(n)` wrote gives `n`. */
  lemma {:induction false} DecimalRoundTrip(n: nat)
    ensures ParseDecimal(DecimalString(n)) == n
  {
    var s := DecimalString(n);
    if n >= 10 {
      assert s[..|s| - 1] == DecimalString(n / 10);
      DecimalRoundTrip(n / 10);
    }
  }

  /** `String(n)` starts with the leading digit of `n`. */
  lemma {:induction false} DecimalStringHead(n: nat)
    ensures DecimalString(n)[0] == DigitChar(LeadingDigit(n))
  {
    if n >= 10 {
      DecimalStringHead(n / 10);
    }
  }

  /** `s.padStart(n, [c])` for a one-character pad. */
  function PadStart(s: string, n: nat, c: char): (r: string)
    ensures |r| == if |s| >= n then |s| else n
    ensures r[|r| - |s|..] == s
    ensures forall i :: 0 <= i < |r| - |s| ==> r[i] == c
  {
    if |s| >= n then s else seq(n - |s|, _ => c) + s
  }

  /* ---------- searching ---------- */

  /** `s.includes(t)`: `t` occurs in `s` as a contiguous run. */
  predicate Contains<T(==)>(s: seq<T>, t: seq<T>) {
    t <= s || (|s| > 0 && Contains(s[1..], t))
  }

  lemma {:induction false} ContainsAppendLeft<T>(a: seq<T>, b: seq<T>, t: seq<T>)
    requires Contains(a, t)
    ensures Contains(a + b, t)
  {
    if t <= a {
      assert t <= a + b;
    } else {
      assert (a + b)[1..] == a[1..] + b;
      ContainsAppendLeft(a[1..], b, t);
    }
  }

  lemma {:induction false} ContainsAppendRight<T>(a: seq<T>, b: seq<T>, t: seq<T>)
    requires Contains(b, t)
    ensures Contains(a + b, t)
  {
    if a == [] {
      assert a + b == b;
    } else {
      assert (a + b)[1..] == a[1..] + b;
      ContainsAppendRight(a[1..], b, t);
    }
  }

  /** Whatever occurs in `s` is made of elements of `s`. */
  lemma {:induction false} ContainsElements<T>(s: seq<T>, t: seq<T>, x: T)
    requires Contains(s, t) && x in t
    ensures x in s
  {
    if t <= s {
      var k :| 0 <= k < |t| && t[k] == x;
      assert s[k] == x;
    } else {
      ContainsElements(s[1..], t, x);
    }
  }

  /* ---------- ASCII case mapping ---------- */

  function LowerChar(c: char): char {
    if 'A' <= c <= 'Z' then (c as int + 32) as char else c
  }

  function UpperChar(c: char): char {
    if 'a' <= c <= 'z' then (c as int - 32) as char else c
  }

  /** `s.toLowerCase()` restricted to ASCII letters. */
  function ToLower(s: string): (r: string)
    ensures |r| == |s|
    ensures forall i :: 0 <= i < |s| ==> r[i] == LowerChar(s[i])
  {
    seq(|s|, i requires 0 <= i < |s| => LowerChar(s[i]))
  }

  /** `s.toUpperCase()` restricted to ASCII letters. */
  function ToUpper(s: string): (r: string)
    ensures |r| == |s|
    ensures forall i :: 0 <= i < |s| ==> r[i] == UpperChar(s[i])
  {
    seq(|s|, i requires 0 <= i < |s| => UpperChar(s[i]))
  }

  /* ---------- split and join ---------- */

  /** `s.split(c)` for a one-character separator. */
  function SplitOn(s: string, c: char): (parts: seq<string>)
    ensures |parts| >= 1
  {
    if s == [] then [""]
    else
      var rest := SplitOn(s[1..], c);
      if s[0] == c then [""] + rest else [[s[0]] + rest[0]] + rest[1..]
  }

  lemma {:induction false} SplitWithoutSeparator(s: string, c: char)
    requires c !in s
    ensures SplitOn(s, c) == [s]
  {
    if s != [] {
      SplitWithoutSeparator(s[1..], c);
      assert [s[0]] + s[1..] == s;
    }
  }

  /** Splitting `a` + `c` + `b` on `c` gives back `a` and `b`. */
  lemma {:induction false} SplitPair(a: string, b: string, c: char)
    requires c !in a && c !in b
    ensures SplitOn(a + [c] + b, c) == [a, b]
  {
    var s := a + [c] + b;
    if a == [] {
      assert s[1..] == b;
      SplitWithoutSeparator(b, c);
    } else {
      assert s[1..] == a[1..] + [c] + b;
      SplitPair(a[1..], b, c);
      assert [a[0]] + a[1..] == a;
    }
  }

  /** No piece produced by `split(c)` contains `c`. */
  lemma {:induction false} SplitPiecesLackSeparator(s: string, c: char)
    ensures forall p :: p in SplitOn(s, c) ==> c !in p
  {
    if s != [] {
      SplitPiecesLackSeparator(s[1..], c);
    }
  }

  /** `xs.join(sep)`. */
  function Join<T>(xs: seq<seq<T>>, sep: seq<T>): seq<T> {
    if |xs| == 0 then []
    else if |xs| == 1 then xs[0]
    else Join(xs[..|xs| - 1], sep) + sep + xs[|xs| - 1]
  }

  /** Every element of a join comes from a piece or from the separator. */
  lemma {:induction false} JoinElements<T>(xs: seq<seq<T>>, sep: seq<T>, x: T)
    requires x in Join(xs, sep)
    ensures x in sep || exists k :: 0 <= k < |xs| && x in xs[k]
  {
    if |xs| >= 2 {
      var init := xs[..|xs| - 1];
      if x in Join(init, sep) {
        JoinElements(init, sep, x);
        assert forall k :: 0 <= k < |init| ==> init[k] == xs[k];
      } else if x !in sep {
        assert x in xs[|xs| - 1];
      }
    }
  }

  /** A run inside one piece is a run inside the join. */
  lemma {:induction false} JoinContains<T>(xs: seq<seq<T>>, sep: seq<T>, k: nat, t: seq<T>)
    requires k < |xs| && Contains(xs[k], t)
    ensures Contains(Join(xs, sep), t)
  {
    if |xs| >= 2 {
      var init := xs[..|xs| - 1];
      if k == |xs| - 1 {
        ContainsAppendRight(Join(init, sep) + sep, xs[k], t);
      } else {
        JoinContains(init, sep, k, t);
        ContainsAppendLeft(Join(init, sep), sep + xs[|xs| - 1], t);
        assert Join(init, sep) + (sep + xs[|xs| - 1]) == Join(xs, sep);
      }
    }
  }

  /* ---------- text order ---------- */

  /** `a < b` between text values in PostgreSQL's "C" collation:
      lexicographic by code point, a proper prefix sorting first. */
  predicate Below(a: string, b: string) {
    if |b| == 0 then false
    else if |a| == 0 then true
    else if a[0] == b[0] then Below(a[1..], b[1..])
    else a[0] < b[0]
  }

  lemma {:induction false} BelowIrreflexive(a: string)
    ensures !Below(a, a)
  {
    if |a| > 0 {
      BelowIrreflexive(a[1..]);
    }
  }

  lemma {:induction false} BelowAsymmetric(a: string, b: string)
    requires Below(a, b)
    ensures !Below(b, a)
  {
    if |a| > 0 && |b| > 0 && a[0] == b[0] {
      BelowAsymmetric(a[1..], b[1..]);
    }
  }

  lemma {:induction false} BelowTransitive(a: string, b: string, c: string)
    requires Below(a, b) && Below(b, c)
    ensures Below(a, c)
  {
    if |a| > 0 && a[0] == b[0] && b[0] == c[0] {
      BelowTransitive(a[1..], b[1..], c[1..]);
    }
  }
}

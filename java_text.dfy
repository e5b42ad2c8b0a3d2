/**
 * The pieces of java.lang.String, Integer and Double that the mesh and triage code rely on,
 * written out so that their edge cases (null, trailing empty fields, signs, overflow) are explicit.
 */
module JavaText {
  import opened Wrappers
  import opened Seqs

  /** A Java String reference: None stands for null. */
  type JString = Option<string>

  /** String conversion as `+` and StringBuilder.append perform it: null becomes "null". */
  function Text(s: JString): string {
    match s
    case None => "null"
    case Some(t) => t
  }

  predicate StartsWith(s: string, prefix: string) {
    |prefix| <= |s| && s[..|prefix|] == prefix
  }

  /** String.indexOf(char): the first index holding `c`, or -1. */
  function IndexOf(s: string, c: char): (r: int)
    ensures -1 <= r < |s|
    ensures r == -1 <==> c !in s
    ensures r >= 0 ==> s[r] == c && c !in s[..r]
  {
    if |s| == 0 then -1
    else if s[0] == c then 0
    else
      var k := IndexOf(s[1..], c);
      assert s[1..][..k + 1] == s[1..k + 2] by {
        if k >= 0 { assert s[1..][..k] == s[1..k + 1]; }
      }
      if k < 0 then -1 else k + 1
  }

  /** String.replace(char, char): every `a` becomes `b`. */
  function ReplaceChar(s: string, a: char, b: char): (r: string)
    ensures |r| == |s|
    ensures forall i :: 0 <= i < |s| ==> r[i] == if s[i] == a then b else s[i]
  {
    if s == [] then [] else [if s[0] == a then b else s[0]] + ReplaceChar(s[1..], a, b)
  }

  /** String.join with a one-character separator. */
  function Join(fields: seq<string>, sep: char): string {
    if |fields| == 0 then ""
    else if |fields| == 1 then fields[0]
    else fields[0] + [sep] + Join(fields[1..], sep)
  }

  /**
   * String.split(sep, -1) for a one-character separator: every field, including the empty
   * ones at the start and at the end; a string without `sep` is a single field.
   */
  function SplitAll(s: string, sep: char): (r: seq<string>)
    ensures |r| >= 1
    ensures forall i :: 0 <= i < |r| ==> sep !in r[i]
    ensures Join(r, sep) == s
    decreases |s|
  {
    var k := IndexOf(s, sep);
    if k < 0 then [s]
    else
      var rest := SplitAll(s[k + 1..], sep);
      assert s == s[..k] + [sep] + s[k + 1..];
      [s[..k]] + rest
  }

  /** Drops the empty fields at the end of a split result. */
  function DropTrailingEmpty(fields: seq<string>): (r: seq<string>)
    ensures r <= fields
    ensures |r| == 0 || r[|r| - 1] != ""
    ensures forall i :: |r| <= i < |fields| ==> fields[i] == ""
  {
    if |fields| == 0 || fields[|fields| - 1] != "" then fields
    else DropTrailingEmpty(fields[..|fields| - 1])
  }

  /**
   * String.split(sep), the default limit 0: as SplitAll, but trailing empty fields are removed,
   * except that a string without any `sep` comes back whole (so "" splits into [""]).
   */
  function SplitDefault(s: string, sep: char): (r: seq<string>)
    ensures sep !in s ==> r == [s]
    ensures forall i :: 0 <= i < |r| ==> sep !in r[i]
    ensures sep in s ==> |r| == 0 || r[|r| - 1] != ""
  {
    if sep !in s then [s] else DropTrailingEmpty(SplitAll(s, sep))
  }

  /** Splitting a join of separator-free fields gives the fields back. */
  lemma {:induction false} SplitAllJoin(fields: seq<string>, sep: char)
    requires |fields| >= 1
    requires forall i :: 0 <= i < |fields| ==> sep !in fields[i]
    ensures SplitAll(Join(fields, sep), sep) == fields
  {
    if |fields| > 1 {
      var s := Join(fields, sep);
      var f := fields[0];
      assert s == f + ([sep] + Join(fields[1..], sep));
      IndexOfAfter(f, [sep] + Join(fields[1..], sep), sep);
      assert s[|f| + 1..] == Join(fields[1..], sep);
      assert s[..|f|] == f;
      SplitAllJoin(fields[1..], sep);
    }
  }

  /** The first occurrence is the one with no `c` before it. */
  lemma IndexOfIs(s: string, c: char, k: int)
    requires 0 <= k < |s| && s[k] == c && c !in s[..k]
    ensures IndexOf(s, c) == k
  {
  }

  /** The first `c` of `a + b` is that of `b` when `a` has none. */
  lemma IndexOfAfter(a: string, b: string, c: char)
    requires c !in a && |b| > 0 && b[0] == c
    ensures IndexOf(a + b, c) == |a|
  {
    var s := a + b;
    assert s[|a|] == c;
    assert s[..|a|] == a;
  }

  /** Splitting at a separator splits the fields: the split of `a|b` is the split of `a` then that of `b`. */
  lemma {:induction false} SplitAllConcat(a: string, b: string, sep: char)
    ensures SplitAll(a + [sep] + b, sep) == SplitAll(a, sep) + SplitAll(b, sep)
    decreases |a|
  {
    var k := IndexOf(a, sep);
    if k < 0 {
      SplitAllConcatFirst(a, b, sep);
    } else {
      SplitAllConcat(a[k + 1..], b, sep);
      SplitAllConcatLater(a, b, sep, k);
    }
  }

  /** SplitAllConcat when `a` holds no separator: `a` is the first field. */
  lemma SplitAllConcatFirst(a: string, b: string, sep: char)
    requires sep !in a
    ensures SplitAll(a + [sep] + b, sep) == SplitAll(a, sep) + SplitAll(b, sep)
  {
    var s := a + [sep] + b;
    IndexOfAfter(a, [sep] + b, sep);
    assert a + [sep] + b == a + ([sep] + b);
    assert s[|a| + 1..] == b;
    assert s[..|a|] == a;
    assert SplitAll(s, sep) == [a] + SplitAll(b, sep);
    assert SplitAll(a, sep) == [a];
  }

  /** Cutting `a + [sep] + b` inside `a`. */
  lemma CutInFirst(a: string, b: string, sep: char, k: int)
    requires 0 <= k < |a|
    ensures (a + [sep] + b)[k] == a[k]
    ensures (a + [sep] + b)[..k] == a[..k]
    ensures (a + [sep] + b)[k + 1..] == a[k + 1..] + [sep] + b
  {
  }

  /** SplitAllConcat when the first separator lies inside `a`. */
  lemma SplitAllConcatLater(a: string, b: string, sep: char, k: int)
    requires k == IndexOf(a, sep) && k >= 0
    requires SplitAll(a[k + 1..] + [sep] + b, sep) == SplitAll(a[k + 1..], sep) + SplitAll(b, sep)
    ensures SplitAll(a + [sep] + b, sep) == SplitAll(a, sep) + SplitAll(b, sep)
  {
    var s := a + [sep] + b;
    var head := a[..k];
    var ra := SplitAll(a[k + 1..], sep);
    var rb := SplitAll(b, sep);
    CutInFirst(a, b, sep, k);
    IndexOfIs(s, sep, k);
    assert SplitAll(s, sep) == [head] + (ra + rb);
    assert SplitAll(a, sep) == [head] + ra;
    ConcatAssoc([head], ra, rb);
  }

  /** SplitDefault keeps a prefix of SplitAll, and all of it when the last field is not empty. */
  lemma SplitDefaultPrefix(s: string, sep: char)
    ensures SplitDefault(s, sep) <= SplitAll(s, sep)
    ensures SplitAll(s, sep)[|SplitAll(s, sep)| - 1] != "" ==> SplitDefault(s, sep) == SplitAll(s, sep)
  {
    if sep !in s {
      assert IndexOf(s, sep) == -1;
    }
  }

  // ── Decimal numbers ─────────────────────────────────────────────────────────

  const INT_MIN: int := -0x8000_0000
  const INT_MAX: int := 0x7fff_ffff

  predicate IsDigit(c: char) {
    '0' <= c <= '9'
  }

  predicate AllDigits(s: string) {
    forall i :: 0 <= i < |s| ==> IsDigit(s[i])
  }

  function DigitChar(d: nat): (c: char)
    requires d < 10
    ensures IsDigit(c)
  {
    (48 + d) as char
  }

  /** The value of a string of decimal digits. */
  function DigitsValue(s: string): nat
    requires AllDigits(s)
  {
    if s == [] then 0 else DigitsValue(s[..|s| - 1]) * 10 + (s[|s| - 1] as int - 48)
  }

  /** Decimal rendering of a natural number, no leading zeros. */
  function NatToString(n: nat): (r: string)
    ensures |r| >= 1 && AllDigits(r)
  {
    if n < 10 then [DigitChar(n)] else NatToString(n / 10) + [DigitChar(n % 10)]
  }

  /** Integer.toString / Long.toString: a minus sign for negative values. */
  function IntToString(i: int): (r: string)
    ensures |r| >= 1
    ensures '|' !in r
    ensures forall c :: c in r ==> IsDigit(c) || c == '-'
  {
    if i < 0 then "-" + NatToString(-i) else NatToString(i)
  }

  /**
   * Integer.parseInt(s) in radix 10: an optional '+' or '-' followed by at least one digit,
   * with a value that fits in 32 bits. None wherever Java throws NumberFormatException.
   */
  function ParseInt(s: string): (r: Option<int>)
    ensures r.Some? ==> INT_MIN <= r.value <= INT_MAX
  {
    if |s| == 0 then None
    else
      var digits := if s[0] == '-' || s[0] == '+' then s[1..] else s;
      if |digits| == 0 || !AllDigits(digits) then None
      else
        var v: int := if s[0] == '-' then 0 - DigitsValue(digits) else DigitsValue(digits);
        if INT_MIN <= v <= INT_MAX then Some(v) else None
  }

  lemma {:induction false} DigitsValueOfNat(n: nat)
    ensures DigitsValue(NatToString(n)) == n
  {
    if n >= 10 {
      var s := NatToString(n);
      assert s[..|s| - 1] == NatToString(n / 10);
      DigitsValueOfNat(n / 10);
    }
  }

  /** Parsing what Integer.toString printed gives the number back. */
  lemma ParseIntToString(i: int)
    requires INT_MIN <= i <= INT_MAX
    ensures ParseInt(IntToString(i)) == Some(i)
  {
    if i < 0 {
      var s := IntToString(i);
      assert s[1..] == NatToString(-i);
      DigitsValueOfNat(-i);
    } else {
      DigitsValueOfNat(i);
    }
  }

  // ── Double.parseDouble, as an acceptance test on the token ──────────────────

  /** String.trim(): strips every leading and trailing character up to U+0020. */
  function Trim(s: string): (r: string)
    ensures |r| <= |s|
    ensures r == [] || (r[0] > ' ' && r[|r| - 1] > ' ')
  {
    TrimEnd(TrimStart(s))
  }

  /** The number of leading characters up to U+0020 that trim removes. */
  function LeadingPad(s: string): nat {
    |s| - |TrimStart(s)|
  }

  /** trim keeps one contiguous piece of the input and removes only characters up to U+0020. */
  lemma TrimSlice(s: string)
    ensures var r := Trim(s); var i := LeadingPad(s);
            i + |r| <= |s| && r == s[i..i + |r|] &&
            (forall k :: 0 <= k < i ==> s[k] <= ' ') && (forall k :: i + |r| <= k < |s| ==> s[k] <= ' ')
  {
    var t := TrimStart(s);
    var r := TrimEnd(t);
    var i := |s| - |t|;
    assert t == s[i..];
    assert r == t[..|r|];
    forall k | i + |r| <= k < |s| ensures s[k] <= ' ' {
      assert s[k] == t[k - i];
    }
  }

  /** The leading part of trim: the input with its leading characters up to U+0020 removed. */
  function TrimStart(s: string): (r: string)
    ensures |r| <= |s|
    ensures r == [] || r[0] > ' '
    ensures r == s[|s| - |r|..]
    ensures forall k :: 0 <= k < |s| - |r| ==> s[k] <= ' '
  {
    if s != [] && s[0] <= ' ' then TrimStart(s[1..]) else s
  }

  /** The trailing part of trim: the input with its trailing characters up to U+0020 removed. */
  function TrimEnd(s: string): (r: string)
    ensures |r| <= |s|
    ensures r == [] || r[|r| - 1] > ' '
    ensures r == s[..|r|]
    ensures forall k :: |r| <= k < |s| ==> s[k] <= ' '
  {
    if s != [] && s[|s| - 1] <= ' ' then TrimEnd(s[..|s| - 1]) else s
  }

  /** Trimming twice is trimming once. */
  lemma TrimIdempotent(s: string)
    ensures Trim(Trim(s)) == Trim(s)
  {
    var r := Trim(s);
    if r != [] {
      assert TrimStart(r) == r;
      assert TrimEnd(r) == r;
    }
  }

  function DropSign(s: string): string {
    if |s| > 0 && (s[0] == '+' || s[0] == '-') then s[1..] else s
  }

  /** digits, digits '.' digits, '.' digits or digits '.': at least one digit, at most one point. */
  predicate Mantissa(m: string) {
    var d := IndexOf(m, '.');
    if d < 0 then |m| > 0 && AllDigits(m)
    else |m| > 1 && AllDigits(m[..d]) && AllDigits(m[d + 1..])
  }

  /** An optional sign followed by at least one digit. */
  predicate Exponent(e: string) {
    var f := DropSign(e);
    |f| > 0 && AllDigits(f)
  }

  /** A decimal floating literal: mantissa, optional exponent, optional f/F/d/D suffix. */
  predicate DecimalLiteral(u: string) {
    var b := if |u| > 0 && u[|u| - 1] in "fFdD" then u[..|u| - 1] else u;
    var e := IndexOf(b, 'e');
    var big := IndexOf(b, 'E');
    var k := if e < 0 then big else if big < 0 then e else if e < big then e else big;
    if k < 0 then Mantissa(b) else Mantissa(b[..k]) && Exponent(b[k + 1..])
  }

  /** Whether Double.parseDouble accepts the text (decimal forms, NaN and Infinity, after trimming). */
  predicate ParsesAsDouble(s: string) {
    var u := DropSign(Trim(s));
    u == "NaN" || u == "Infinity" || DecimalLiteral(u)
  }


  /** Like Double.parseDouble, the test ignores leading and trailing characters up to U+0020. */
  lemma ParsesAsDoubleTrimmed(s: string)
    ensures ParsesAsDouble(Trim(s)) == ParsesAsDouble(s)
  {
    TrimIdempotent(s);
  }
}

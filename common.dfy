/** Shared vocabulary: an Option type, Python's clamp idiom `max(lo, min(hi, x))`,
    and the small part of Python's string and number behaviour the managers rely on
    (`strip`, `split`, `in`, `startswith`, `int()`, `float()`, `str()` of an int,
    `f"{i:02d}"`-style zero padding, and `int()` of a float). */
module Common {

  datatype Option<T> = None | Some(value: T)

  // ---------------------------------------------------------------------------
  // Clamping, as the source writes it: max(lo, min(hi, x))
  // ---------------------------------------------------------------------------

  function Clamp(x: int, lo: int, hi: int): (r: int)
    ensures lo <= hi ==> lo <= r <= hi
    ensures lo <= x <= hi ==> r == x
    ensures lo <= hi && x > hi ==> r == hi
    ensures x < lo ==> r == lo
  {
    var m := if hi <= x then hi else x;
    if lo >= m then lo else m
  }

  function ClampReal(x: real, lo: real, hi: real): (r: real)
    ensures lo <= hi ==> lo <= r <= hi
    ensures lo <= x <= hi ==> r == x
    ensures lo <= hi && x > hi ==> r == hi
    ensures x < lo ==> r == lo
  {
    var m := if hi <= x then hi else x;
    if lo >= m then lo else m
  }

  /** Python's `int(x)` on a float: truncation toward zero. */
  function Trunc(x: real): (r: int)
    ensures x >= 0.0 ==> r as real <= x < r as real + 1.0
    ensures x < 0.0 ==> r as real - 1.0 < x <= r as real
  {
    if x >= 0.0 then x.Floor else -((-x).Floor)
  }

  // ---------------------------------------------------------------------------
  // Characters and strings
  // ---------------------------------------------------------------------------

  /** Python's `str.isspace()` (also the class `\s` matches in a str pattern). */
  predicate IsSpace(c: char)
  {
    || ('\t' <= c <= '\r')            // \t \n \x0b \x0c \r
    || ('\U{1C}' <= c <= ' ')          // \x1c-\x1f and the space
    || c == '\U{85}' || c == '\U{A0}' || c == '\U{1680}'
    || ('\U{2000}' <= c <= '\U{200A}')
    || c == '\U{2028}' || c == '\U{2029}' || c == '\U{202F}' || c == '\U{205F}' || c == '\U{3000}'
  }

  /** ASCII digits only (Python's `\d` and `int()` also accept other Unicode digits). */
  predicate IsDigit(c: char) { '0' <= c <= '9' }

  predicate AllDigits(s: string) { forall i :: 0 <= i < |s| ==> IsDigit(s[i]) }

  predicate StartsWith(s: string, p: string) { |p| <= |s| && s[..|p|] == p }

  predicate EndsWith(s: string, p: string) { |p| <= |s| && s[|s| - |p|..] == p }

  predicate OccursAt(s: string, sub: string, j: int)
  {
    0 <= j && j + |sub| <= |s| && s[j..j + |sub|] == sub
  }

  /** Index of the first occurrence of `sub` in `s` at or after `from`. */
  function IndexOf(s: string, sub: string, from: nat): (r: Option<nat>)
    ensures r.Some? ==> from <= r.value && OccursAt(s, sub, r.value)
    ensures r.Some? ==> forall j :: from <= j < r.value ==> !OccursAt(s, sub, j)
    ensures r.None? ==> forall j :: from <= j ==> !OccursAt(s, sub, j)
    decreases |s| - from
  {
    if from + |sub| > |s| then None
    else if s[from..from + |sub|] == sub then Some(from)
    else IndexOf(s, sub, from + 1)
  }

  /** Python's `sub in s`. */
  predicate Contains(s: string, sub: string) { IndexOf(s, sub, 0).Some? }

  lemma ContainsAt(s: string, sub: string, j: int)
    requires OccursAt(s, sub, j)
    ensures Contains(s, sub)
  {
  }

  function StripLeft(s: string): (r: string)
    ensures |r| <= |s| && r == s[|s| - |r|..]
    ensures r == [] || !IsSpace(r[0])
    decreases |s|
  {
    if s != [] && IsSpace(s[0]) then StripLeft(s[1..]) else s
  }

  function StripRight(s: string): (r: string)
    ensures |r| <= |s| && r == s[..|r|]
    ensures r == [] || !IsSpace(r[|r| - 1])
    decreases |s|
  {
    if s != [] && IsSpace(s[|s| - 1]) then StripRight(s[..|s| - 1]) else s
  }

  /** Python's `s.strip()`. */
  function Strip(s: string): string { StripRight(StripLeft(s)) }

  predicate NoSpace(s: string) { forall i :: 0 <= i < |s| ==> !IsSpace(s[i]) }

  lemma StripNoSpace(s: string)
    requires NoSpace(s)
    ensures Strip(s) == s
  {
    if s != [] {
      assert IsSpace(s[0]) == false;
      assert IsSpace(s[|s| - 1]) == false;
    }
  }

  /** One leading space comes off; the text after it does not start with one. */
  lemma StripOneSpace(x: string)
    requires x != [] && !IsSpace(x[0])
    ensures StripLeft(" " + x) == x
  {
    assert (" " + x)[1..] == x;
  }

  /** Stripping twice is stripping once, so `int(s.strip())` is `int(s)`. */
  lemma StripTwice(s: string)
    ensures Strip(Strip(s)) == Strip(s)
    ensures PyInt(Strip(s)) == PyInt(s) && PyFloat(Strip(s)) == PyFloat(s)
  {
    var l := StripLeft(s);
    var r := StripRight(l);
    assert r == [] || r[0] == l[0];
    assert StripLeft(r) == r;
    assert StripRight(r) == r;
  }

  /** Python's `s.split(sep)` for a one-character separator. */
  function Split(s: string, sep: char): (r: seq<string>)
    ensures |r| >= 1
    ensures forall k :: 0 <= k < |r| ==> sep !in r[k]
    decreases |s|
  {
    if sep !in s then [s]
    else
      var i := FirstIndex(s, sep);
      [s[..i]] + Split(s[i + 1..], sep)
  }

  function FirstIndex(s: string, c: char): (i: nat)
    requires c in s
    ensures i < |s| && s[i] == c && c !in s[..i]
  {
    if s[0] == c then 0 else 1 + FirstIndex(s[1..], c)
  }

  /** Python's `sep.join(parts)`. */
  function Join(parts: seq<string>, sep: char): string
    requires |parts| >= 1
  {
    if |parts| == 1 then parts[0] else parts[0] + [sep] + Join(parts[1..], sep)
  }

  /** `Split` loses nothing: joining the fields with the separator gives the line back. */
  lemma {:induction false} SplitJoin(s: string, sep: char)
    ensures Join(Split(s, sep), sep) == s
    decreases |s|
  {
    if sep in s {
      var i := FirstIndex(s, sep);
      var rest := Split(s[i + 1..], sep);
      var parts := [s[..i]] + rest;
      assert Split(s, sep) == parts;
      assert |parts| > 1 && parts[0] == s[..i] && parts[1..] == rest;
      SplitJoin(s[i + 1..], sep);
      assert Join(parts, sep) == s[..i] + [sep] + s[i + 1..];
      Around(s, i);
    } else {
      assert Split(s, sep) == [s];
    }
  }

  /** A sequence is what comes before, at and after any of its positions. */
  lemma Around(s: string, i: nat)
    requires i < |s|
    ensures s[..i] + [s[i]] + s[i + 1..] == s
  {
  }

  /** Splitting a join of separator-free fields gives the fields back. */
  lemma {:induction false} JoinSplit(parts: seq<string>, sep: char)
    requires |parts| >= 1
    requires forall k :: 0 <= k < |parts| ==> sep !in parts[k]
    ensures Split(Join(parts, sep), sep) == parts
    decreases |parts|
  {
    if |parts| > 1 {
      var rest := Join(parts[1..], sep);
      assert Join(parts, sep) == parts[0] + [sep] + rest;
      SplitFirst(parts[0], sep, rest);
      JoinSplit(parts[1..], sep);
      assert parts == [parts[0]] + parts[1..];
    } else {
      assert Join(parts, sep) == parts[0];
    }
  }

  /** The first field of `a + [sep] + b` is `a` when `a` has no separator. */
  lemma SplitFirst(a: string, sep: char, b: string)
    requires sep !in a
    ensures Split(a + [sep] + b, sep) == [a] + Split(b, sep)
  {
    var s := a + [sep] + b;
    assert s[..|a|] == a;
    FirstIndexIs(s, sep, |a|);
    assert s[|a| + 1..] == b;
  }

  /** The first occurrence is the one with none before it. */
  lemma {:induction false} FirstIndexIs(s: string, c: char, i: nat)
    requires i < |s| && s[i] == c && c !in s[..i]
    ensures FirstIndex(s, c) == i
    decreases i
  {
    if i > 0 {
      assert s[0] == s[..i][0];
      assert s[1..][i - 1] == c;
      assert s[1..][..i - 1] == s[..i][1..];
      FirstIndexIs(s[1..], c, i - 1);
    }
  }


  /** Python's `s.split(sep)[1]` for a multi-character separator that occurs in `s`:
      the text after the first occurrence, up to the next occurrence (if any). */
  function SecondField(s: string, sep: string): (r: string)
    requires |sep| > 0 && Contains(s, sep)
  {
    var i := IndexOf(s, sep, 0).value;
    var rest := s[i + |sep|..];
    match IndexOf(rest, sep, 0)
    case Some(j) => rest[..j]
    case None => rest
  }

  // ---------------------------------------------------------------------------
  // Decimal numerals
  // ---------------------------------------------------------------------------

  function DigitChar(d: nat): (c: char)
    requires d < 10
    ensures IsDigit(c)
  {
    ('0' as int + d) as char
  }

  function DigitValue(c: char): (d: nat)
    requires IsDigit(c)
    ensures d < 10 && DigitChar(d) == c
  {
    (c as int - '0' as int) as nat
  }

  /** The value of a string of decimal digits (leading zeros allowed). */
  function DigitsValue(s: string): nat
    requires AllDigits(s)
  {
    if s == [] then 0 else DigitsValue(s[..|s| - 1]) * 10 + DigitValue(s[|s| - 1])
  }

  /** Python's `str(n)` for a natural number. */
  function NatToString(n: nat): (s: string)
    ensures |s| >= 1 && AllDigits(s)
  {
    if n < 10 then [DigitChar(n)] else NatToString(n / 10) + [DigitChar(n % 10)]
  }

  /** Python's `str(i)` for an integer. */
  function IntToString(i: int): (s: string)
    ensures |s| >= 1 && NoSpace(s) && ',' !in s
  {
    var s := if i < 0 then "-" + NatToString(-i) else NatToString(i);
    assert forall k :: 0 <= k < |s| ==> s[k] == '-' || IsDigit(s[k]);
    s
  }

  /** Python's `f"{n:0{width}d}"`: the decimal numeral, left-padded with zeros to `width`. */
  function ZeroPad(n: nat, width: nat): (s: string)
    ensures AllDigits(s) && |s| >= width && |s| >= 1
  {
    var d := NatToString(n);
    if |d| < width then Zeros(width - |d|) + d else d
  }

  function Zeros(k: nat): (s: string)
    ensures |s| == k && AllDigits(s)
    ensures forall i :: 0 <= i < k ==> s[i] == '0'
  {
    if k == 0 then "" else "0" + Zeros(k - 1)
  }

  lemma {:induction false} DigitsValueAppend(s: string, c: char)
    requires AllDigits(s) && IsDigit(c)
    ensures AllDigits(s + [c])
    ensures DigitsValue(s + [c]) == DigitsValue(s) * 10 + DigitValue(c)
  {
    assert (s + [c])[..|s|] == s;
  }

  /** Reading back a printed natural number gives the number. */
  lemma {:induction false} NatToStringValue(n: nat)
    ensures DigitsValue(NatToString(n)) == n
  {
    if n < 10 {
      DigitsValueAppend([], DigitChar(n));
      assert [] + [DigitChar(n)] == NatToString(n);
    } else {
      NatToStringValue(n / 10);
      DigitsValueAppend(NatToString(n / 10), DigitChar(n % 10));
    }
  }

  /** Leading zeros do not change the value of a numeral. */
  lemma {:induction false} LeadingZeros(k: nat, s: string)
    requires AllDigits(s)
    ensures AllDigits(Zeros(k) + s)
    ensures DigitsValue(Zeros(k) + s) == DigitsValue(s)
    decreases |s|
  {
    if s == [] {
      assert Zeros(k) + s == Zeros(k);
      ZerosValue(k);
    } else {
      var init := s[..|s| - 1];
      LeadingZeros(k, init);
      assert Zeros(k) + s == (Zeros(k) + init) + [s[|s| - 1]];
      DigitsValueAppend(Zeros(k) + init, s[|s| - 1]);
    }
  }

  lemma {:induction false} ZerosValue(k: nat)
    ensures DigitsValue(Zeros(k)) == 0
  {
    if k > 0 {
      assert Zeros(k) == Zeros(k - 1) + ['0'] by {
        ZerosSnoc(k - 1);
      }
      ZerosValue(k - 1);
      DigitsValueAppend(Zeros(k - 1), '0');
    }
  }

  lemma ZerosSnoc(k: nat)
    ensures Zeros(k + 1) == Zeros(k) + ['0']
  {
    var a := Zeros(k + 1);
    var b := Zeros(k) + ['0'];
    assert |a| == |b|;
    forall i | 0 <= i < |a| ensures a[i] == b[i] { }
  }

  /** A zero-padded numeral still reads back as the number. */
  lemma ZeroPadValue(n: nat, width: nat)
    ensures DigitsValue(ZeroPad(n, width)) == n
  {
    NatToStringValue(n);
    PaddedValue(NatToString(n), width);
  }

  /** Padding a numeral with zeros up to `width` keeps its value. */
  lemma PaddedValue(d: string, width: nat)
    requires AllDigits(d)
    ensures var p := if |d| < width then Zeros(width - |d|) + d else d;
            AllDigits(p) && DigitsValue(p) == DigitsValue(d)
  {
    if |d| < width {
      LeadingZeros(width - |d|, d);
    }
  }

  // ---------------------------------------------------------------------------
  // Python's int() and float() on text
  // ---------------------------------------------------------------------------

  /** Python's `int(s)`: surrounding whitespace, an optional sign, then one or more
      digits; `None` where Python raises ValueError. (Underscores between digits and
      non-ASCII digits, which Python also accepts, are not modelled.) */
  function PyInt(s: string): (r: Option<int>)
  {
    SignedInt(Strip(s))
  }

  /** An optional sign followed by one or more digits, nothing else. */
  function SignedInt(t: string): (r: Option<int>)
  {
    if t != [] && (t[0] == '-' || t[0] == '+') then
      var body := t[1..];
      if body != [] && AllDigits(body) then
        Some(if t[0] == '-' then -(DigitsValue(body) as int) else DigitsValue(body) as int)
      else None
    else if t != [] && AllDigits(t) then Some(DigitsValue(t) as int)
    else None
  }

  /** `int(str(i)) == i`. */
  lemma IntRoundTrip(i: int)
    ensures PyInt(IntToString(i)) == Some(i)
  {
    if i < 0 {
      NegativeRoundTrip(i);
    } else {
      NatRoundTrip(i);
    }
  }

  lemma NegativeRoundTrip(i: int)
    requires i < 0
    ensures PyInt(IntToString(i)) == Some(i)
  {
    var n: nat := -i;
    var d := NatToString(n);
    assert IntToString(i) == "-" + d;
    NatToStringValue(n);
    assert DigitsValue(d) == n;
    NegativeReads(d, n);
  }

  lemma NatRoundTrip(n: nat)
    ensures PyInt(IntToString(n)) == Some(n)
  {
    assert IntToString(n) == NatToString(n);
    NatToStringValue(n);
    UnsignedReads(NatToString(n), n);
  }

  /** A minus sign and a numeral read as the negated value. */
  lemma NegativeReads(d: string, n: nat)
    requires d != [] && AllDigits(d) && DigitsValue(d) == n
    ensures PyInt("-" + d) == Some(-(n as int))
  {
    var s := "-" + d;
    assert s[1..] == d;
    assert SignedInt(s) == Some(-(n as int));
    ReadsAs(s, -(n as int));
  }

  /** A numeral without a sign reads as its value. */
  lemma UnsignedReads(d: string, n: nat)
    requires d != [] && AllDigits(d) && DigitsValue(d) == n
    ensures PyInt(d) == Some(n as int)
  {
    assert IsDigit(d[0]);
    assert SignedInt(d) == Some(n as int);
    ReadsAs(d, n);
  }

  /** Text without white space reads as `SignedInt` reads it. */
  lemma ReadsAs(s: string, v: int)
    requires NoSpace(s) && SignedInt(s) == Some(v)
    ensures PyInt(s) == Some(v)
  {
    StripNoSpace(s);
  }

  /** The value of an unsigned decimal literal `digits[.digits]` or `.digits`. */
  predicate IsUnsignedDecimal(s: string)
  {
    if '.' in s then
      var i := FirstIndex(s, '.');
      AllDigits(s[..i]) && AllDigits(s[i + 1..]) && |s| >= 2
    else s != [] && AllDigits(s)
  }

  function Pow10(k: nat): (p: nat)
    ensures p >= 1
  {
    if k == 0 then 1 else 10 * Pow10(k - 1)
  }

  function UnsignedDecimalValue(s: string): real
    requires IsUnsignedDecimal(s)
  {
    if '.' in s then
      var i := FirstIndex(s, '.');
      DigitsValue(s[..i]) as real + DigitsValue(s[i + 1..]) as real / Pow10(|s| - i - 1) as real
    else DigitsValue(s) as real
  }

  /** Python's `float(s)` restricted to plain decimal literals with an optional sign
      (`12`, `-3.5`, `.5`, `7.`); `None` where the model does not accept the text.
      Exponents, `inf`, `nan` and underscores are not modelled. */
  function PyFloat(s: string): (r: Option<real>)
  {
    SignedDecimal(Strip(s))
  }

  function SignedDecimal(t: string): (r: Option<real>)
  {
    if t != [] && (t[0] == '-' || t[0] == '+') then
      var body := t[1..];
      if IsUnsignedDecimal(body) then
        Some(if t[0] == '-' then -UnsignedDecimalValue(body) else UnsignedDecimalValue(body))
      else None
    else if IsUnsignedDecimal(t) then Some(UnsignedDecimalValue(t))
    else None
  }

  /** `float(str(i)) == i`. */
  lemma FloatOfIntString(i: int)
    ensures PyFloat(IntToString(i)) == Some(i as real)
  {
    if i < 0 {
      FloatOfNegative(i);
    } else {
      FloatOfNat(i);
    }
  }

  lemma FloatOfNegative(i: int)
    requires i < 0
    ensures PyFloat(IntToString(i)) == Some(i as real)
  {
    var n: nat := -i;
    var d := NatToString(n);
    assert IntToString(i) == "-" + d;
    NatToStringValue(n);
    assert DigitsValue(d) == n;
    NegativeDecimal(d, n);
  }

  lemma FloatOfNat(n: nat)
    ensures PyFloat(IntToString(n)) == Some(n as real)
  {
    assert IntToString(n) == NatToString(n);
    NatToStringValue(n);
    UnsignedDecimal(NatToString(n), n);
  }

  /** A numeral is a decimal literal with its own value. */
  lemma NumeralDecimal(d: string, n: nat)
    requires d != [] && AllDigits(d) && DigitsValue(d) == n
    ensures IsUnsignedDecimal(d) && UnsignedDecimalValue(d) == n as real
  {
    assert '.' !in d by {
      assert forall k :: 0 <= k < |d| ==> IsDigit(d[k]);
    }
  }

  /** `float()` of a numeral without a sign. */
  lemma UnsignedDecimal(d: string, n: nat)
    requires d != [] && AllDigits(d) && DigitsValue(d) == n
    ensures PyFloat(d) == Some(n as real)
  {
    NumeralDecimal(d, n);
    assert IsDigit(d[0]);
    assert SignedDecimal(d) == Some(n as real);
    DecimalAs(d, n as real);
  }

  /** `float()` of a minus sign and a numeral. */
  lemma NegativeDecimal(d: string, n: nat)
    requires d != [] && AllDigits(d) && DigitsValue(d) == n
    ensures PyFloat("-" + d) == Some(-(n as real))
  {
    NumeralDecimal(d, n);
    var s := "-" + d;
    assert s[1..] == d;
    assert SignedDecimal(s) == Some(-(n as real));
    DecimalAs(s, -(n as real));
  }

  /** Text without white space reads as `SignedDecimal` reads it. */
  lemma DecimalAs(s: string, v: real)
    requires NoSpace(s) && SignedDecimal(s) == Some(v)
    ensures PyFloat(s) == Some(v)
  {
    StripNoSpace(s);
  }
}

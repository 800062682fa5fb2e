/** The optional value used throughout the model for JavaScript's `undefined`, `null` and `NaN` results. */
module Wrappers {
  datatype Option<+T> = None | Some(value: T)
}

/**
 * The JavaScript built-ins the app leans on, over exact arithmetic and `seq<char>`:
 * `Math.round`, `Math.floor`, the truncating `%`, `parseInt`, `parseFloat` on the
 * restricted text a numeric input field allows, number-to-text for integers,
 * `String.prototype.trim` and `toLowerCase`.
 */
module Numeric {
  import opened Wrappers

  // ---------------------------------------------------------------- rounding

  /** `Math.round`: the nearest integer, halves rounded towards +infinity. */
  function Round(x: real): (r: int)
    ensures x - 0.5 < r as real <= x + 0.5
  {
    (x + 0.5).Floor
  }

  /** Rounding never moves a value by more than one half. */
  lemma RoundError(x: real)
    ensures -0.5 <= Round(x) as real - x <= 0.5
  {
  }

  /** `Math.round` is monotone. */
  lemma RoundMonotone(x: real, y: real)
    requires x <= y
    ensures Round(x) <= Round(y)
  {
  }

  /** Truncation towards zero, the integer part JavaScript's `%` works with. */
  function Trunc(x: real): (r: int)
    ensures 0.0 <= x ==> r as real <= x < r as real + 1.0
    ensures x < 0.0 ==> r as real - 1.0 < x <= r as real
  {
    if x >= 0.0 then x.Floor else -((-x).Floor)
  }

  /**
   * JavaScript's `x % 12` on numbers (the only modulus the app uses): the remainder of
   * truncated division, so the result takes the sign of `x`; Dafny's own `%` is
   * Euclidean and defined on integers only.
   */
  function Rem12(x: real): (r: real)
    ensures 0.0 <= x ==> 0.0 <= r < 12.0
    ensures x < 0.0 ==> -12.0 < r <= 0.0
    ensures x == 12.0 * Trunc(x / 12.0) as real + r
  {
    x - 12.0 * Trunc(x / 12.0) as real
  }

  /** On a non-negative integer the JavaScript remainder is Dafny's remainder. */
  lemma Rem12OfNat(n: int)
    requires n >= 0
    ensures Rem12(n as real) == (n % 12) as real
  {
    var k := n / 12;
    assert 12 * k <= n < 12 * k + 12;
    assert k as real <= n as real / 12.0 < k as real + 1.0;
    assert Trunc(n as real / 12.0) == k;
  }

  // ---------------------------------------------------------------- characters

  predicate IsDigit(c: char) {
    '0' <= c <= '9'
  }

  predicate AllDigits(s: string) {
    forall i :: 0 <= i < |s| ==> IsDigit(s[i])
  }

  /**
   * The white space `trim` and `parseInt` skip: JavaScript's WhiteSpace (tab, vertical
   * tab, form feed, space, no-break space, the byte order mark and every Unicode space
   * separator) and its LineTerminators.
   */
  predicate IsSpace(c: char) {
    || c == '\t' || c == '\U{B}' || c == '\U{C}' || c == ' ' || c == '\U{A0}' || c == '\U{FEFF}'
    || c == '\U{1680}' || ('\U{2000}' <= c <= '\U{200A}') || c == '\U{202F}' || c == '\U{205F}' || c == '\U{3000}'
    || c == '\n' || c == '\r' || c == '\U{2028}' || c == '\U{2029}'
  }

  function DigitValue(c: char): (d: nat)
    requires IsDigit(c)
    ensures d < 10
  {
    c as int - '0' as int
  }

  function DigitChar(d: nat): (c: char)
    requires d < 10
    ensures IsDigit(c) && DigitValue(c) == d
  {
    ('0' as int + d) as char
  }

  // ---------------------------------------------------------------- integer text

  /** The value of a string of decimal digits, most significant first. */
  function DigitsValue(s: string): nat
    requires AllDigits(s)
  {
    if s == [] then 0 else DigitsValue(s[..|s| - 1]) * 10 + DigitValue(s[|s| - 1])
  }

  /** The longest prefix of `s` made of digits. */
  function LeadingDigits(s: string): (r: string)
    ensures AllDigits(r) && r <= s
    ensures |r| < |s| ==> !IsDigit(s[|r|])
  {
    if s == [] || !IsDigit(s[0]) then [] else [s[0]] + LeadingDigits(s[1..])
  }

  /** `s` with its leading white space removed: a suffix, and everything before it is white space. */
  function TrimStart(s: string): (r: string)
    ensures |r| <= |s| && r == s[|s| - |r|..]
    ensures r != [] ==> !IsSpace(r[0])
    ensures forall k :: 0 <= k < |s| - |r| ==> IsSpace(s[k])
  {
    if s != [] && IsSpace(s[0]) then TrimStart(s[1..]) else s
  }

  /** `s` with its trailing white space removed: a prefix, and everything after it is white space. */
  function TrimEnd(s: string): (r: string)
    ensures |r| <= |s| && r == s[..|r|]
    ensures r != [] ==> !IsSpace(r[|r| - 1])
    ensures forall k :: |r| <= k < |s| ==> IsSpace(s[k])
  {
    if s != [] && IsSpace(s[|s| - 1]) then TrimEnd(s[..|s| - 1]) else s
  }

  /**
   * `String.prototype.trim`: a slice of `s` that neither starts nor ends with white
   * space, everything cut away on either side being white space.
   */
  function Trim(s: string): (r: string)
    ensures |r| <= |s|
    ensures r != [] ==> !IsSpace(r[0]) && !IsSpace(r[|r| - 1])
    ensures (forall i :: 0 <= i < |s| ==> !IsSpace(s[i])) ==> r == s
    ensures exists i, j :: 0 <= i <= j <= |s| && r == s[i..j] && Surrounds(s, i, j)
  {
    var e := TrimEnd(s);
    var r := TrimStart(e);
    SliceOfTrims(s, e, r);
    r
  }

  /** Cutting white space off the end of `s`, then off the start, leaves a slice surrounded by white space. */
  lemma SliceOfTrims(s: string, e: string, r: string)
    requires |e| <= |s| && e == s[..|e|] && forall k :: |e| <= k < |s| ==> IsSpace(s[k])
    requires e != [] ==> !IsSpace(e[|e| - 1])
    requires |r| <= |e| && r == e[|e| - |r|..] && forall k :: 0 <= k < |e| - |r| ==> IsSpace(e[k])
    requires r != [] ==> !IsSpace(r[0])
    ensures r != [] ==> !IsSpace(r[0]) && !IsSpace(r[|r| - 1])
    ensures (forall k :: 0 <= k < |s| ==> !IsSpace(s[k])) ==> r == s
    ensures exists i, j :: 0 <= i <= j <= |s| && r == s[i..j] && Surrounds(s, i, j)
  {
    var i, j := |e| - |r|, |e|;
    if r != [] {
      assert r[|r| - 1] == e[|e| - 1];
    }
    assert |e| < |s| ==> IsSpace(s[|e|]);
    assert |r| < |e| ==> IsSpace(e[0]);
    forall k | 0 <= k < i
      ensures IsSpace(s[k])
    {
      assert s[k] == e[k];
    }
    assert r == s[i..j] && Surrounds(s, i, j);
  }

  /** Only white space lies before `i` and from `j` on. */
  predicate Surrounds(s: string, i: nat, j: nat)
    requires i <= j <= |s|
  {
    && (forall k :: 0 <= k < i ==> IsSpace(s[k]))
    && (forall k :: j <= k < |s| ==> IsSpace(s[k]))
  }

  /** Trimming text that is white space on both sides of a slice without outer white space gives that slice. */
  lemma TrimOfSurrounded(s: string, i: nat, j: nat)
    requires i <= j <= |s| && Surrounds(s, i, j)
    requires i < j ==> !IsSpace(s[i]) && !IsSpace(s[j - 1])
    ensures Trim(s) == s[i..j]
  {
    SurroundedCore(s, Trim(s), i, j);
  }

  lemma SurroundedCore(s: string, r: string, i: nat, j: nat)
    requires i <= j <= |s| && Surrounds(s, i, j)
    requires i < j ==> !IsSpace(s[i]) && !IsSpace(s[j - 1])
    requires r != [] ==> !IsSpace(r[0]) && !IsSpace(r[|r| - 1])
    requires exists i', j' :: 0 <= i' <= j' <= |s| && r == s[i'..j'] && Surrounds(s, i', j')
    ensures r == s[i..j]
  {
    var i', j' :| 0 <= i' <= j' <= |s| && r == s[i'..j'] && Surrounds(s, i', j');
    assert |r| == j' - i';
    if i < j {
      assert !IsSpace(s[i]);
      assert i' <= i < j';
      assert r[0] == s[i'] && r[|r| - 1] == s[j' - 1];
      SameCore(s, i, j, i', j');
    } else {
      assert forall k :: 0 <= k < |s| ==> IsSpace(s[k]);
    }
  }

  /** White space inside the text stays: `" a b ".trim()` is `"a b"`. */
  lemma TrimKeepsInnerSpace()
    ensures Trim(" a b ") == "a b"
  {
    var s := " a b ";
    assert s[1..4] == "a b";
    assert Surrounds(s, 1, 4) && !IsSpace(s[1]) && !IsSpace(s[3]) by {
      assert s[0] == ' ' && s[4] == ' ';
    }
    TrimOfSurrounded(s, 1, 4);
  }

  /** Two slices without outer white space, each surrounded by white space only, are the same slice. */
  lemma SameCore(s: string, i: nat, j: nat, i': nat, j': nat)
    requires i < j <= |s| && Surrounds(s, i, j) && !IsSpace(s[i]) && !IsSpace(s[j - 1])
    requires i' < j' <= |s| && Surrounds(s, i', j') && !IsSpace(s[i']) && !IsSpace(s[j' - 1])
    ensures i == i' && j == j'
  {
  }

  /**
   * `parseInt(s)` in base 10: skip leading white space, read an optional sign and the
   * longest run of digits after it; no digits gives `NaN`, written `None`.
   */
  function ParseInt(s: string): (r: Option<int>)
    ensures r.None? <==> LeadingDigits(SignFree(TrimStart(s))) == []
  {
    var t := TrimStart(s);
    var negative := t != [] && t[0] == '-';
    var digits := LeadingDigits(SignFree(t));
    if digits == [] then None
    else if negative then Some(-(DigitsValue(digits) as int))
    else Some(DigitsValue(digits))
  }

  /** `s` without one leading `+` or `-`. */
  function SignFree(t: string): string {
    if t != [] && (t[0] == '-' || t[0] == '+') then t[1..] else t
  }

  /** `parseInt(s) || d`: the parsed integer, or `d` when it is `NaN` or zero. */
  function ParseIntOr(s: string, d: int): (r: int)
    ensures ParseInt(s).Some? && ParseInt(s).value != 0 ==> r == ParseInt(s).value
    ensures ParseInt(s).None? || ParseInt(s).value == 0 ==> r == d
  {
    match ParseInt(s)
    case Some(n) => if n != 0 then n else d
    case None => d
  }

  /** Decimal text of a natural number, as `String(n)` writes it. */
  function NatToString(n: nat): (s: string)
    ensures s != [] && AllDigits(s)
    ensures |s| > 1 ==> s[0] != '0'
  {
    if n < 10 then [DigitChar(n)] else NatToString(n / 10) + [DigitChar(n % 10)]
  }

  /** Decimal text of an integer, as a template literal `${n}` writes it. */
  function IntToString(n: int): (s: string)
    ensures s != []
  {
    if n < 0 then "-" + NatToString(-n) else NatToString(n)
  }

  lemma {:induction false} NatToStringValue(n: nat)
    ensures DigitsValue(NatToString(n)) == n
  {
    if n >= 10 {
      var s := NatToString(n);
      NatToStringValue(n / 10);
      assert s[..|s| - 1] == NatToString(n / 10);
    }
  }

  lemma {:induction false} LeadingDigitsOfDigits(s: string, rest: string)
    requires AllDigits(s)
    requires rest == [] || !IsDigit(rest[0])
    ensures LeadingDigits(s + rest) == s
  {
    if s != [] {
      assert (s + rest)[1..] == s[1..] + rest;
      LeadingDigitsOfDigits(s[1..], rest);
    }
  }

  /** `parseInt` on text whose sign-free part starts with the digits `digits` reads those digits. */
  lemma ParseIntOfSignedDigits(s: string, digits: string, t: string)
    requires digits != [] && AllDigits(digits)
    requires TrimStart(s) == s && SignFree(s) == t && LeadingDigits(t) == digits
    ensures s != [] && s[0] == '-' ==> ParseInt(s) == Some(-(DigitsValue(digits) as int))
    ensures !(s != [] && s[0] == '-') ==> ParseInt(s) == Some(DigitsValue(digits) as int)
  {
  }

  /** A digit string followed by text that does not start with a digit reads back as its value. */
  lemma ParseIntOfDigits(digits: string, rest: string)
    requires digits != [] && AllDigits(digits)
    requires rest == [] || !IsDigit(rest[0])
    ensures ParseInt(digits + rest) == Some(DigitsValue(digits) as int)
  {
    var s := digits + rest;
    assert s[0] == digits[0];
    assert TrimStart(s) == s by { assert !IsSpace(s[0]); }
    assert SignFree(s) == s by { assert s[0] != '-' && s[0] != '+'; }
    LeadingDigitsOfDigits(digits, rest);
    ParseIntOfSignedDigits(s, digits, s);
  }

  /** The same after a minus sign: the negated value. */
  lemma ParseIntOfNegativeDigits(digits: string, rest: string)
    requires digits != [] && AllDigits(digits)
    requires rest == [] || !IsDigit(rest[0])
    ensures ParseInt("-" + digits + rest) == Some(-(DigitsValue(digits) as int))
  {
    var s := "-" + digits + rest;
    assert s[0] == '-' && s[1..] == digits + rest;
    LeadingDigitsOfDigits(digits, rest);
    ParseIntOfSignedDigits(s, digits, digits + rest);
  }

  /**
   * Writing an integer and reading it back with `parseInt` gives the integer, also
   * when more text follows that does not start with a digit.
   */
  lemma ParseIntOfIntToString(n: int, rest: string)
    requires rest == [] || !IsDigit(rest[0])
    ensures ParseInt(IntToString(n) + rest) == Some(n)
  {
    var m: nat := if n < 0 then -n else n;
    NatToStringValue(m);
    if n < 0 {
      ParseIntOfNegativeDigits(NatToString(m), rest);
    } else {
      ParseIntOfDigits(NatToString(m), rest);
    }
  }

  // ---------------------------------------------------------------- decimal text

  function Pow10(k: nat): (p: nat)
    ensures p >= 1
  {
    if k == 0 then 1 else 10 * Pow10(k - 1)
  }

  /**
   * The text a nutrient field accepts, the regular expression `^\d*\.?\d*$`:
   * digits, at most one `.`, digits.
   */
  predicate IsDecimalText(s: string) {
    AllDigits(s) || exists k :: 0 <= k < |s| && s[k] == '.' && AllDigits(s[..k]) && AllDigits(s[k + 1..])
  }

  /**
   * `parseFloat(s)` on text of the shape `IsDecimalText`: the integer part plus the
   * fraction; text without any digit (`""` and `"."`) gives `NaN`, written `None`.
   */
  function ParseDecimal(s: string): (r: Option<real>)
    requires IsDecimalText(s)
    ensures r.Some? ==> r.value >= 0.0
    ensures AllDigits(s) ==> (r.Some? <==> s != [])
    ensures AllDigits(s) && s != [] ==> r == Some(DigitsValue(s) as real)
  {
    if AllDigits(s) then
      if s == [] then None else Some(DigitsValue(s) as real)
    else
      var k :| 0 <= k < |s| && s[k] == '.' && AllDigits(s[..k]) && AllDigits(s[k + 1..]);
      var whole, frac := s[..k], s[k + 1..];
      if whole == [] && frac == [] then None
      else
        Some(Decimal(DigitsValue(whole), DigitsValue(frac), Pow10(|frac|)))
  }

  /** The integer part plus the fraction `frac / scale`: exactly `whole * scale + frac` over `scale`. */
  function Decimal(whole: nat, frac: nat, scale: nat): (v: real)
    requires scale >= 1
    ensures v >= 0.0
    ensures v * scale as real == (whole * scale + frac) as real
  {
    ScaleDecimal(whole as real, frac as real, scale as real);
    RealOfProduct(whole, scale);
    whole as real + frac as real / scale as real
  }

  /** Reading digits after other digits shifts the first ones by a power of ten. */
  lemma {:induction false} DigitsValueAppend(a: string, b: string)
    requires AllDigits(a) && AllDigits(b)
    ensures AllDigits(a + b)
    ensures DigitsValue(a + b) == DigitsValue(a) * Pow10(|b|) + DigitsValue(b)
  {
    AllDigitsAppend(a, b);
    if b == [] {
      assert a + b == a;
    } else {
      var init, last := b[..|b| - 1], b[|b| - 1];
      assert AllDigits(init);
      DigitsValueAppend(a, init);
      assert (a + b)[..|a + b| - 1] == a + init;
      assert (a + b)[|a + b| - 1] == last;
      ShiftByTen(DigitsValue(a), Pow10(|init|), DigitsValue(init), DigitValue(last));
    }
  }

  lemma AllDigitsAppend(a: string, b: string)
    requires AllDigits(a) && AllDigits(b)
    ensures AllDigits(a + b)
  {
    assert forall i :: 0 <= i < |a + b| ==> (a + b)[i] == if i < |a| then a[i] else b[i - |a|];
  }

  lemma ShiftByTen(wa: int, p: int, wi: int, d: int)
    ensures (wa * p + wi) * 10 + d == wa * (10 * p) + (wi * 10 + d)
  {
  }

  /** `whole + frac / scale`, scaled back up by `scale`, is `whole * scale + frac`. */
  lemma ScaleDecimal(whole: real, frac: real, scale: real)
    requires scale >= 1.0
    ensures (whole + frac / scale) * scale == whole * scale + frac
  {
  }

  lemma RealOfProduct(a: nat, b: nat)
    ensures (a * b) as real == a as real * b as real
  {
  }

  /** `v` times `scale` is `n`. */
  predicate Scaled(v: real, scale: nat, n: nat) {
    v * scale as real == n as real
  }

  /** The value `parseFloat` gives digits around a point, scaled by ten to the fraction's length. */
  lemma DecimalPartsValue(whole: string, frac: string)
    requires AllDigits(whole) && AllDigits(frac)
    ensures AllDigits(whole + frac)
    ensures Scaled(Decimal(DigitsValue(whole), DigitsValue(frac), Pow10(|frac|)), Pow10(|frac|), DigitsValue(whole + frac))
  {
    DigitsValueAppend(whole, frac);
  }

  /** Text with a point at `k`: `ParseDecimal` reads the digits on either side of that point. */
  lemma ParseDecimalAt(s: string, k: nat)
    requires k < |s| && s[k] == '.' && AllDigits(s[..k]) && AllDigits(s[k + 1..])
    requires k > 0 || k + 1 < |s|
    ensures IsDecimalText(s)
    ensures var whole, frac := s[..k], s[k + 1..];
            ParseDecimal(s) == Some(Decimal(DigitsValue(whole), DigitsValue(frac), Pow10(|frac|)))
  {
    assert !IsDigit(s[k]);
    assert forall j :: 0 <= j < |s| && s[j] == '.' && AllDigits(s[..j]) ==> j >= k;
    assert !AllDigits(s);
  }

  /**
   * Text with a point and at least one digit parses to the value of its digits with the
   * point taken out, divided by ten to the number of digits after the point: `"12.5"`
   * times 10 is 125.
   */
  lemma ParseDecimalScaled(s: string, k: nat)
    requires k < |s| && s[k] == '.' && AllDigits(s[..k]) && AllDigits(s[k + 1..])
    requires k > 0 || k + 1 < |s|
    ensures IsDecimalText(s) && AllDigits(s[..k] + s[k + 1..])
    ensures ParseDecimal(s).Some?
    ensures var whole, frac := s[..k], s[k + 1..];
            Scaled(ParseDecimal(s).value, Pow10(|frac|), DigitsValue(whole + frac))
  {
    ParseDecimalAt(s, k);
    DecimalPartsValue(s[..k], s[k + 1..]);
  }

  /** The one input that passes the field filter yet has no digit besides the empty one. */
  lemma DotIsDecimalTextWithoutValue()
    ensures IsDecimalText(".") && ParseDecimal(".") == None
  {
    assert ".."[..0] == [];
    var s := ".";
    assert s[0] == '.' && AllDigits(s[..0]) && AllDigits(s[1..]);
    assert !AllDigits(s);
  }

  // ---------------------------------------------------------------- letter case

  /** `toLowerCase` on one character (ASCII letters; other scripts are left as they are). */
  function LowerChar(c: char): (d: char)
    ensures 'A' <= c <= 'Z' ==> d as int == c as int + 32
    ensures !('A' <= c <= 'Z') ==> d == c
  {
    if 'A' <= c <= 'Z' then (c as int + 32) as char else c
  }

  function Lower(s: string): (r: string)
    ensures |r| == |s| && forall i :: 0 <= i < |s| ==> r[i] == LowerChar(s[i])
  {
    seq(|s|, i requires 0 <= i < |s| => LowerChar(s[i]))
  }

  /**
   * A string's `length` in JavaScript: UTF-16 code units, one for a character of the
   * Basic Multilingual Plane and two (a surrogate pair) for any character above it.
   */
  function Utf16Length(s: string): (n: nat)
    ensures |s| <= n <= 2 * |s|
    ensures n == 0 <==> s == []
  {
    if s == [] then 0 else Utf16Length(s[..|s| - 1]) + CodeUnits(s[|s| - 1])
  }

  function CodeUnits(c: char): (n: nat)
    ensures n == 1 || n == 2
  {
    if c as int >= 0x1_0000 then 2 else 1
  }

  /** Text of the Basic Multilingual Plane alone is as long in code units as in characters. */
  lemma {:induction false} Utf16LengthOfBmp(s: string)
    requires forall i :: 0 <= i < |s| ==> s[i] as int < 0x1_0000
    ensures Utf16Length(s) == |s|
  {
    if s != [] {
      Utf16LengthOfBmp(s[..|s| - 1]);
    }
  }

  /** Lower-casing (of ASCII letters) keeps the length in code units. */
  lemma {:induction false} LowerKeepsUtf16Length(s: string)
    ensures Utf16Length(Lower(s)) == Utf16Length(s)
  {
    if s != [] {
      var init := s[..|s| - 1];
      LowerKeepsUtf16Length(init);
      assert Lower(s)[..|s| - 1] == Lower(init);
    }
  }

  /** `a.toLowerCase() === b.toLowerCase()`. */
  predicate SameIgnoringCase(a: string, b: string) {
    Lower(a) == Lower(b)
  }

  /** `s.replace(/[^0-9]/g, '')`: keep only the digits, in order. */
  function DigitsOnly(s: string): (r: string)
    ensures AllDigits(r) && |r| <= |s|
    ensures forall c :: c in r <==> c in s && IsDigit(c)
    ensures AllDigits(s) ==> r == s
  {
    if s == [] then []
    else if IsDigit(s[0]) then [s[0]] + DigitsOnly(s[1..])
    else DigitsOnly(s[1..])
  }

  /**
   * Dropping the non-digits works piece by piece; with `DigitsOnlyOfOne`, every digit
   * is kept, as often as it occurs, in its order.
   */
  lemma {:induction false} DigitsOnlyAppend(a: string, b: string)
    ensures DigitsOnly(a + b) == DigitsOnly(a) + DigitsOnly(b)
  {
    if a == [] {
      assert a + b == b;
    } else {
      var x, rest := a[0], a[1..];
      assert (a + b)[0] == x && (a + b)[1..] == rest + b;
      DigitsOnlyAppend(rest, b);
      if IsDigit(x) {
        assert DigitsOnly(a + b) == [x] + DigitsOnly(rest + b);
        assert ([x] + DigitsOnly(rest)) + DigitsOnly(b) == [x] + (DigitsOnly(rest) + DigitsOnly(b));
      } else {
        assert DigitsOnly(a + b) == DigitsOnly(rest + b);
      }
    }
  }

  /** A single character stays exactly when it is a digit. */
  lemma DigitsOnlyOfOne(c: char)
    ensures DigitsOnly([c]) == if IsDigit(c) then [c] else []
  {
    assert [c][1..] == [];
  }

  /** Text with letters between the digits keeps them all: `"a1b2"` gives `"12"`. */
  lemma DigitsOnlyExample()
    ensures DigitsOnly("a1b2") == "12"
  {
    assert "a1b2"[1..] == "1b2" && "1b2"[1..] == "b2" && "b2"[1..] == "2" && "2"[1..] == [];
  }
}

/** Cell values of a spreadsheet frame, and the two string conversions the
    pipeline applies to key columns: `astype(str)` and `str.strip()`. */
module Cells {

  /** One cell of a frame: a text value, an integer value, or a missing value
      (NaN / None, which every comparison with a string treats as unequal). */
  datatype Cell = Text(s: string) | Int(i: int) | Missing

  datatype Option<T> = None | Some(value: T)

  /** The outcome of a step that either yields a value or stops the run. */
  datatype Result<T, E> = Ok(value: T) | Err(error: E)

  /** The characters Python's `str.strip()` removes (those for which
      `str.isspace()` holds). */
  predicate IsSpace(c: char)
  {
    c in {' ', '\t', '\n', '\r', '\U{000B}', '\U{000C}',
          '\U{001C}', '\U{001D}', '\U{001E}', '\U{001F}', '\U{0085}', '\U{00A0}',
          '\U{1680}', '\U{2000}', '\U{2001}', '\U{2002}', '\U{2003}', '\U{2004}',
          '\U{2005}', '\U{2006}', '\U{2007}', '\U{2008}', '\U{2009}', '\U{200A}',
          '\U{2028}', '\U{2029}', '\U{202F}', '\U{205F}', '\U{3000}'}
  }

  predicate AllSpace(s: string)
  {
    forall i :: 0 <= i < |s| ==> IsSpace(s[i])
  }

  /** Number of whitespace characters at the front of `s`. */
  function LeadingSpaces(s: string): (n: nat)
    ensures n <= |s|
    ensures AllSpace(s[..n])
    ensures n < |s| ==> !IsSpace(s[n])
  {
    if s == [] || !IsSpace(s[0]) then 0 else 1 + LeadingSpaces(s[1..])
  }

  /** Number of whitespace characters at the back of `s`. */
  function TrailingSpaces(s: string): (n: nat)
    ensures n <= |s|
    ensures AllSpace(s[|s| - n..])
    ensures n < |s| ==> !IsSpace(s[|s| - 1 - n])
  {
    if s == [] || !IsSpace(s[|s| - 1]) then 0 else 1 + TrailingSpaces(s[..|s| - 1])
  }

  /** Python's `str.strip()`: the longest middle part of `s` that neither
      starts nor ends with whitespace; everything cut off is whitespace. */
  function Strip(s: string): (r: string)
    ensures LeadingSpaces(s) + |r| <= |s|
    ensures r == s[LeadingSpaces(s)..LeadingSpaces(s) + |r|]
    ensures AllSpace(s[..LeadingSpaces(s)]) && AllSpace(s[LeadingSpaces(s) + |r|..])
    ensures r == [] || (!IsSpace(r[0]) && !IsSpace(r[|r| - 1]))
  {
    var a := LeadingSpaces(s);
    var t := s[a..];
    var r := t[..|t| - TrailingSpaces(t)];
    assert r != [] ==> r[0] == s[a];
    r
  }

  /** Any cut of `s` into whitespace, a part that does not start or end with
      whitespace, and whitespace, has that part equal to `Strip(s)`. */
  lemma {:induction false} StripUnique(s: string, i: nat, j: nat)
    requires i <= j <= |s|
    requires AllSpace(s[..i]) && AllSpace(s[j..])
    requires i == j || (!IsSpace(s[i]) && !IsSpace(s[j - 1]))
    ensures Strip(s) == s[i..j]
  {
    var a := LeadingSpaces(s);
    var r := Strip(s);
    var b := a + |r|;
    if i < j {
      assert a == i;
      assert b == j;
    }
  }

  /** Stripping is idempotent. */
  lemma StripIdempotent(s: string)
    ensures Strip(Strip(s)) == Strip(s)
  {
    var r := Strip(s);
    assert r[..0] == [] && r[|r|..] == [] && r[0..|r|] == r;
    StripUnique(r, 0, |r|);
  }

  /** Whitespace around a value does not change what it strips to, so
      " N100 " and "N100" give the same key. */
  lemma StripIgnoresPadding(p: string, s: string, q: string)
    requires AllSpace(p) && AllSpace(q)
    ensures Strip(p + s + q) == Strip(s)
  {
    var r := Strip(s);
    var a := LeadingSpaces(s);
    var b := a + |r|;
    var t := p + s + q;
    var i, j := |p| + a, |p| + b;
    PaddedSlices(p, s, q, a, b);
    AllSpaceConcat(p, s[..a]);
    AllSpaceConcat(s[b..], q);
    assert AllSpace(t[..i]) && AllSpace(t[j..]);
    assert t[i..j] == r;
    if r != [] {
      assert t[i] == r[0] && t[j - 1] == r[|r| - 1];
    }
    StripUnique(t, i, j);
  }

  lemma AllSpaceConcat(a: string, b: string)
    requires AllSpace(a) && AllSpace(b)
    ensures AllSpace(a + b)
  {
    assert forall k :: 0 <= k < |a + b| ==> (a + b)[k] == if k < |a| then a[k] else b[k - |a|];
  }

  /** How slices of a padded string line up with slices of the string. */
  lemma PaddedSlices(p: string, s: string, q: string, a: nat, b: nat)
    requires a <= b <= |s|
    ensures (p + s + q)[..|p| + a] == p + s[..a]
    ensures (p + s + q)[|p| + a..|p| + b] == s[a..b]
    ensures (p + s + q)[|p| + b..] == s[b..] + q
  {
  }

  function DigitChar(d: nat): (c: char)
    requires d < 10
    ensures '0' <= c <= '9'
    ensures DigitValue(c) == d
  {
    ('0' as int + d) as char
  }

  /** The value of one decimal digit character. */
  function DigitValue(c: char): int
  {
    c as int - '0' as int
  }

  predicate IsDigits(s: string)
  {
    forall i :: 0 <= i < |s| ==> '0' <= s[i] <= '9'
  }

  /** Decimal rendering of a natural number, most significant digit first. */
  function Digits(n: nat): (r: string)
    ensures r != [] && IsDigits(r)
    ensures n >= 10 ==> |r| > 1
    ensures r[0] == '0' <==> n == 0
    ensures n == 0 ==> r == "0"
    ensures |r| > 1 ==> r[0] != '0'
  {
    if n < 10 then [DigitChar(n)] else Digits(n / 10) + [DigitChar(n % 10)]
  }

  /** Reading a string of digits back as a number, most significant digit first. */
  function ParseDigits(s: string): int
  {
    if s == [] then 0 else ParseDigits(s[..|s| - 1]) * 10 + DigitValue(s[|s| - 1])
  }

  /** Reading back the rendering of `n` gives `n`. */
  lemma {:induction false} DigitsRoundTrip(n: nat)
    ensures ParseDigits(Digits(n)) == n
  {
    var r := Digits(n);
    if n < 10 {
      assert r[..0] == [];
    } else {
      var d := Digits(n / 10);
      assert r[..|r| - 1] == d;
      DigitsRoundTrip(n / 10);
    }
  }

  /** Different numbers have different renderings. */
  lemma DigitsInjective(m: nat, n: nat)
    ensures Digits(m) == Digits(n) ==> m == n
  {
    DigitsRoundTrip(m);
    DigitsRoundTrip(n);
  }

  /** Python's `str()` of an integer. */
  function Decimal(n: int): (r: string)
    ensures r != []
    ensures n >= 0 ==> IsDigits(r)
    ensures n < 0 ==> r[0] == '-' && IsDigits(r[1..])
    // no leading zeros: only zero itself is written with a leading '0'
    ensures n >= 0 && |r| > 1 ==> r[0] != '0'
    ensures n < 0 ==> |r| > 1 && r[1] != '0'
  {
    if n < 0 then "-" + Digits(-n) else Digits(n)
  }

  /** The text of a number determines the number: different integers have
      different decimal texts, and the sign is the leading '-'. */
  lemma DecimalInjective(m: int, n: int)
    ensures Decimal(m) == Decimal(n) ==> m == n
  {
    if Decimal(m) == Decimal(n) {
      var r := Decimal(m);
      if m < 0 && n < 0 {
        assert r[1..] == Digits(-m) == Digits(-n);
        DigitsInjective(-m, -n);
      } else if m >= 0 && n >= 0 {
        DigitsInjective(m, n);
      } else {
        // one text starts with '-', the other with a digit
        assert false;
      }
    }
  }

  /** pandas `astype(str)` of one cell: a missing value becomes the text "nan". */
  function AsStr(c: Cell): string
  {
    match c
    case Text(s) => s
    case Int(n) => Decimal(n)
    case Missing => "nan"
  }

  /** An integer code has no whitespace to strip, so trimming its string form
      leaves it as it is. */
  lemma StripDecimal(n: int)
    ensures Strip(Decimal(n)) == Decimal(n)
  {
    var r := Decimal(n);
    assert r[..0] == [] && r[|r|..] == [] && r[0..|r|] == r;
    assert !IsSpace(r[0]) && !IsSpace(r[|r| - 1]);
    StripUnique(r, 0, |r|);
  }
}

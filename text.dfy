/** The string primitives the backend relies on: String.Trim, String.IsNullOrEmpty,
    String.Contains and Int32.Parse. */
module Text {
  import opened Wrappers
  import opened Errors

  /** char.IsWhiteSpace: the Unicode space, line and paragraph separators plus the
      control characters U+0009..U+000D and U+0085. String.Trim removes these. */
  predicate IsWhiteSpace(c: char)
  {
    c == ' ' || ('\t' <= c <= '\r') || c == '\U{85}' || c == '\U{A0}' || c == '\U{1680}'
    || ('\U{2000}' <= c <= '\U{200A}') || c == '\U{2028}' || c == '\U{2029}'
    || c == '\U{202F}' || c == '\U{205F}' || c == '\U{3000}'
  }

  /** The white space Int32.Parse allows around a number (NumberStyles.Integer). */
  predicate IsNumberSpace(c: char)
  {
    c == ' ' || ('\t' <= c <= '\r')
  }

  predicate IsDigit(c: char)
  {
    '0' <= c <= '9'
  }

  /** Every character of `s` satisfies `p`. */
  predicate All(s: string, p: char -> bool)
  {
    forall i :: 0 <= i < |s| ==> p(s[i])
  }

  /** `s` without its leading characters satisfying `strip`. */
  function TrimStartBy(s: string, strip: char -> bool): (r: string)
    ensures |r| <= |s| && r == s[|s| - |r|..]
    ensures All(s[..|s| - |r|], strip)
    ensures r == [] || !strip(r[0])
  {
    if s != [] && strip(s[0]) then TrimStartBy(s[1..], strip) else s
  }

  /** `s` without its trailing characters satisfying `strip`. */
  function TrimEndBy(s: string, strip: char -> bool): (r: string)
    ensures |r| <= |s| && r == s[..|r|]
    ensures All(s[|r|..], strip)
    ensures r == [] || !strip(r[|r| - 1])
  {
    if s != [] && strip(s[|s| - 1]) then TrimEndBy(s[..|s| - 1], strip) else s
  }

  function TrimBy(s: string, strip: char -> bool): string
  {
    TrimEndBy(TrimStartBy(s, strip), strip)
  }

  /** String.Trim. */
  function Trim(s: string): (r: string)
    // never longer, and neither end is white space
    ensures |r| <= |s|
    ensures r == [] || (!IsWhiteSpace(r[0]) && !IsWhiteSpace(r[|r| - 1]))
  {
    TrimByEnds(s, IsWhiteSpace);
    TrimBy(s, IsWhiteSpace)
  }

  /** A string that String.Trim turns into the empty string. */
  predicate IsBlank(s: string)
  {
    All(s, IsWhiteSpace)
  }

  /** The trimmed string is the slice of `s` between a stripped prefix and a stripped
      suffix, and neither of its ends is stripped. */
  lemma TrimByShape(s: string, strip: char -> bool)
    ensures exists i, j :: 0 <= i <= j <= |s| && TrimBy(s, strip) == s[i..j]
              && All(s[..i], strip) && All(s[j..], strip)
    ensures TrimBy(s, strip) == [] || (!strip(TrimBy(s, strip)[0]) && !strip(TrimBy(s, strip)[|TrimBy(s, strip)| - 1]))
  {
    var t := TrimStartBy(s, strip);
    var r := TrimEndBy(t, strip);
    var i := |s| - |t|;
    var j := i + |r|;
    SliceOfSuffix(s, t, i, |r|);
    assert TrimBy(s, strip) == r;
    assert r == s[i..j] && All(s[..i], strip) && All(s[j..], strip);
    TrimByEnds(s, strip);
  }

  /** Neither end of the trimmed string is stripped. */
  lemma TrimByEnds(s: string, strip: char -> bool)
    ensures TrimBy(s, strip) == [] || (!strip(TrimBy(s, strip)[0]) && !strip(TrimBy(s, strip)[|TrimBy(s, strip)| - 1]))
  {
    var t := TrimStartBy(s, strip);
    var r := TrimEndBy(t, strip);
    assert TrimBy(s, strip) == r;
    if r != [] {
      assert r[0] == t[0];
    }
  }

  /** Slices of a suffix are slices of the whole. */
  lemma SliceOfSuffix(s: string, t: string, i: nat, n: nat)
    requires i <= |s| && t == s[i..] && n <= |t|
    ensures t[..n] == s[i..i + n] && t[n..] == s[i + n..]
  {
  }

  /** String.Trim returns the slice of `s` between a white-space prefix and a white-space
      suffix, and neither of its ends is white space. */
  lemma TrimShape(s: string)
    ensures exists i, j :: 0 <= i <= j <= |s| && Trim(s) == s[i..j]
              && All(s[..i], IsWhiteSpace) && All(s[j..], IsWhiteSpace)
    ensures Trim(s) == [] || (!IsWhiteSpace(Trim(s)[0]) && !IsWhiteSpace(Trim(s)[|Trim(s)| - 1]))
  {
    TrimByShape(s, IsWhiteSpace);
  }

  /** Trimming yields the empty string exactly when the string is all white space. */
  lemma TrimEmptyIffBlank(s: string)
    ensures Trim(s) == [] <==> IsBlank(s)
  {
    var t := TrimStartBy(s, IsWhiteSpace);
    if Trim(s) == [] {
      assert t == [];
      assert s[..|s|] == s;
    } else {
      assert t[0] == s[|s| - |t|];
    }
  }

  /** Trimming twice trims nothing more. */
  lemma TrimIdempotent(s: string)
    ensures Trim(Trim(s)) == Trim(s)
  {
    var r := Trim(s);
    TrimShape(s);
    if r != [] {
      assert TrimStartBy(r, IsWhiteSpace) == r;
      assert TrimEndBy(r, IsWhiteSpace) == r;
    }
  }

  /** `part` occurs in `s` starting at index `i`. */
  predicate OccursAt(s: string, part: string, i: nat)
  {
    i + |part| <= |s| && s[i..i + |part|] == part
  }

  /** String.Contains (ordinal). */
  function Contains(s: string, part: string): (r: bool)
    // the empty part occurs everywhere, and nothing longer than `s` occurs in it
    ensures part == [] ==> r
    ensures r ==> |part| <= |s|
  {
    if |part| > |s| then false else s[..|part|] == part || Contains(s[1..], part)
  }

  /** Contains holds exactly when the part occurs at some index. */
  lemma {:induction false} ContainsIff(s: string, part: string)
    ensures Contains(s, part) <==> exists i: nat :: OccursAt(s, part, i)
  {
    if |part| <= |s| && s[..|part|] == part {
      assert OccursAt(s, part, 0);
    } else if |part| <= |s| {
      ContainsIff(s[1..], part);
      if Contains(s[1..], part) {
        var i: nat :| OccursAt(s[1..], part, i);
        assert s[1..][i..i + |part|] == s[i + 1..i + 1 + |part|];
        assert OccursAt(s, part, i + 1);
      } else {
        forall i: nat | OccursAt(s, part, i) ensures i > 0 && OccursAt(s[1..], part, i - 1) {
          if i > 0 {
            assert s[1..][i - 1..i - 1 + |part|] == s[i..i + |part|];
          }
        }
      }
    }
  }

  /** The value of a string of decimal digits. */
  function DigitsValue(ds: string): nat
    requires All(ds, IsDigit)
  {
    if ds == [] then 0
    else DigitsValue(ds[..|ds| - 1]) * 10 + (ds[|ds| - 1] as int - '0' as int)
  }

  /** Int32.Parse with NumberStyles.Integer: optional surrounding white space, an optional
      sign, one or more decimal digits, and a value that fits in an `int`. */
  function ParseInt32(s: string): (r: Result<int32, Error>)
    // it fails only with a format or an overflow error, and white space alone is malformed
    ensures r.Failure? ==> r.error == NumberFormat || r.error == NumberOverflow
    ensures All(s, IsNumberSpace) ==> r == Failure(NumberFormat)
  {
    var t := TrimBy(s, IsNumberSpace);
    var signed := t != [] && (t[0] == '-' || t[0] == '+');
    var ds := if signed then t[1..] else t;
    if ds == [] || !All(ds, IsDigit) then Failure(NumberFormat)
    else
      var v: int := if signed && t[0] == '-' then -(DigitsValue(ds) as int) else DigitsValue(ds);
      if -0x8000_0000 <= v < 0x8000_0000 then Success(v) else Failure(NumberOverflow)
  }

  function DigitChar(d: nat): char
    requires d < 10
  {
    ('0' as int + d) as char
  }

  /** The decimal digits of `n`, without leading zeros. */
  function Digits(n: nat): (ds: string)
    ensures ds != [] && All(ds, IsDigit)
  {
    if n < 10 then [DigitChar(n)] else Digits(n / 10) + [DigitChar(n % 10)]
  }

  /** Int32.ToString: the decimal form of `n`, with a leading '-' when it is negative. */
  function Decimal(n: int32): string
  {
    if n < 0 then "-" + Digits(-(n as int)) else Digits(n)
  }

  lemma {:induction false} DigitsValueOfDigits(n: nat)
    ensures DigitsValue(Digits(n)) == n
  {
    if n >= 10 {
      var ds := Digits(n);
      assert ds[..|ds| - 1] == Digits(n / 10);
      DigitsValueOfDigits(n / 10);
    }
  }

  /** A string whose ends are kept is not changed by trimming. */
  lemma TrimByKeeps(s: string, strip: char -> bool)
    requires s != [] && !strip(s[0]) && !strip(s[|s| - 1])
    ensures TrimBy(s, strip) == s
  {
    assert TrimStartBy(s, strip) == s;
  }

  /** Parsing the decimal form of an `int` gives the `int` back. */
  lemma ParseDecimal(n: int32)
    ensures ParseInt32(Decimal(n)) == Success(n)
  {
    var m: nat := if n < 0 then -(n as int) else n;
    var ds := Digits(m);
    var s := Decimal(n);
    DigitsValueOfDigits(m);
    if n < 0 {
      assert s == ['-'] + ds && s[1..] == ds;
      assert s[|s| - 1] == ds[|ds| - 1];
    } else {
      assert s == ds;
    }
    TrimByKeeps(s, IsNumberSpace);
  }
}

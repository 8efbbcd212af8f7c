/**
 * The two library parsers the handlers validate path and body values with: strconv.Atoi for
 * integer ids and uuid.Parse (github.com/google/uuid) for user ids. Strings are taken one
 * character per byte, as Go indexes them.
 */
module Parsing {
  import opened Wrappers
  import opened Errors

  /** The range of Go's int on the 64-bit platforms the service is built for. */
  const MinInt: int := -0x8000_0000_0000_0000
  const MaxInt: int := 0x7fff_ffff_ffff_ffff

  predicate IsDigit(c: char) { '0' <= c <= '9' }

  predicate AllDigits(t: string) { forall i :: 0 <= i < |t| ==> IsDigit(t[i]) }

  /** The value of a string of decimal digits, most significant digit first. */
  function DigitsValue(t: string): nat
    requires AllDigits(t)
  {
    if |t| == 0 then 0 else DigitsValue(t[..|t| - 1]) * 10 + (t[|t| - 1] as int - '0' as int)
  }

  /** Splits an optional leading sign off s: whether the sign was '-', and what follows it. */
  function SplitSign(s: string): (bool, string)
  {
    if |s| > 0 && (s[0] == '+' || s[0] == '-') then (s[0] == '-', s[1..]) else (false, s)
  }

  /** The value s denotes when it is an optionally signed, non-empty run of decimal digits. */
  predicate Denotes(s: string, n: int)
  {
    var (negative, t) := SplitSign(s);
    |t| > 0 && AllDigits(t) && n == (if negative then -(DigitsValue(t) as int) else DigitsValue(t))
  }

  /**
   * strconv.Atoi: an optional '+' or '-' followed by at least one decimal digit (leading
   * zeros allowed), whose value fits in an int. Anything else is an error naming s.
   */
  function Atoi(s: string): (r: Result<int, Error>)
    ensures r.Ok? ==> Denotes(s, r.value) && MinInt <= r.value <= MaxInt
    ensures r.Err? ==> r.error == Root(BadNumber(s))
    ensures r.Err? ==> forall n :: MinInt <= n <= MaxInt ==> !Denotes(s, n)
  {
    var (negative, t) := SplitSign(s);
    if |t| == 0 || !AllDigits(t) then Err(Root(BadNumber(s)))
    else
      var n := if negative then -(DigitsValue(t) as int) else DigitsValue(t);
      if MinInt <= n <= MaxInt then Ok(n) else Err(Root(BadNumber(s)))
  }

  /** A character that is not a digit, anywhere after an optional leading sign, makes Atoi fail. */
  lemma AtoiRejectsNonDigit(s: string, i: nat)
    requires i < |s| && !IsDigit(s[i])
    requires i > 0 || (s[0] != '+' && s[0] != '-')
    ensures Atoi(s).Err?
  {
  }

  function DigitChar(d: nat): (c: char)
    requires d < 10
    ensures IsDigit(c) && c as int - '0' as int == d
  {
    ('0' as int + d) as char
  }

  /** The decimal digits of n, most significant first, without leading zeros. */
  function Digits(n: nat): (t: string)
    ensures |t| > 0 && AllDigits(t)
    ensures DigitsValue(t) == n
    decreases n
  {
    if n < 10 then [DigitChar(n)]
    else
      var prefix := Digits(n / 10);
      var t := prefix + [DigitChar(n % 10)];
      assert t[..|t| - 1] == prefix;
      t
  }

  /** strconv.Itoa: the decimal text of n, with a '-' in front when n is negative. */
  function Itoa(n: int): (s: string)
  {
    if n < 0 then "-" + Digits(-n) else Digits(n)
  }

  /** Atoi reads back every int that Itoa writes. */
  lemma AtoiReadsItoa(n: int)
    requires MinInt <= n <= MaxInt
    ensures Atoi(Itoa(n)) == Ok(n)
  {
  }

  predicate IsHex(c: char) { '0' <= c <= '9' || 'a' <= c <= 'f' || 'A' <= c <= 'F' }

  /** Where the sixteen hex-digit pairs of the dashed form start. */
  const PairOffsets: seq<nat> := [0, 2, 4, 6, 9, 11, 14, 16, 19, 21, 24, 26, 28, 30, 32, 34]

  /** uuid.Parse's check of the dashed form in the first 36 characters of s. */
  predicate Dashed(s: string)
    requires |s| >= 36
  {
    && s[8] == '-' && s[13] == '-' && s[18] == '-' && s[23] == '-'
    && forall k :: 0 <= k < |PairOffsets| ==> IsHex(s[PairOffsets[k]]) && IsHex(s[PairOffsets[k] + 1])
  }

  /** ASCII case-insensitive equality against a lower-case pattern (strings.EqualFold). */
  predicate EqualFold(s: string, lower: string)
  {
    |s| == |lower| &&
    forall i :: 0 <= i < |s| ==>
      s[i] == lower[i] || ('a' <= lower[i] <= 'z' && s[i] as int == lower[i] as int - 32)
  }

  /**
   * Whether uuid.Parse accepts s. It takes the dashed form (36 characters), the same behind
   * a case-insensitive "urn:uuid:" (45), the same inside two characters it never looks at
   * (38, meant for braces), or 32 hex digits; every other length is an error.
   */
  predicate IsUuid(s: string)
    ensures IsUuid(s) ==> |s| == 32 || |s| == 36 || |s| == 38 || |s| == 45
    ensures |s| == 45 && EqualFold(s[..9], "urn:uuid:") ==> (IsUuid(s) <==> IsUuid(s[9..]))
    ensures |s| == 38 ==> (IsUuid(s) <==> IsUuid(s[1..37]))
  {
    if |s| == 36 then Dashed(s)
    else if |s| == 45 then EqualFold(s[..9], "urn:uuid:") && Dashed(s[9..])
    else if |s| == 38 then Dashed(s[1..])
    else if |s| == 32 then forall i :: 0 <= i < 32 ==> IsHex(s[i])
    else false
  }

  predicate DashPosition(i: int) { i == 8 || i == 13 || i == 18 || i == 23 }

  /** The 36-character form is accepted exactly when it has dashes at 8, 13, 18, 23 and hex elsewhere. */
  lemma DashedFormExactly(s: string)
    requires |s| == 36
    ensures IsUuid(s) <==> forall i :: 0 <= i < 36 ==> if DashPosition(i) then s[i] == '-' else IsHex(s[i])
  {
    if IsUuid(s) {
      forall i | 0 <= i < 36 && !DashPosition(i)
        ensures IsHex(s[i])
      {
        var k := if i < 8 then i / 2 else if i < 13 then 4 + (i - 9) / 2
          else if i < 18 then 6 + (i - 14) / 2 else if i < 23 then 8 + (i - 19) / 2
          else 10 + (i - 24) / 2;
        assert PairOffsets[k] == i || PairOffsets[k] + 1 == i;
      }
    }
  }

  /** The two values the handler's tests use: a valid UUID, and a malformed one. */
  lemma UuidTestValues()
    ensures IsUuid("f47ac10b-58cc-4372-a567-0e02b2c3de91")
    ensures !IsUuid("not-uuid")
  {
  }

  /** The path value the handler's tests use as a malformed id. */
  lemma AtoiTestValues()
    ensures Atoi("slovo").Err?
    ensures Atoi("1") == Ok(1)
  {
  }
}

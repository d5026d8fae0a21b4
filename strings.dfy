/**
 * The parts of Go's `strings`, `strconv` and `unicode` packages that the core relies on,
 * written out so that their behaviour on edge cases (empty strings, separators at the
 * ends, long digit runs, non-ASCII text) is explicit.
 */
module Strings {

  // ---------------------------------------------------------------------------
  // Decimal rendering and parsing: strconv.Itoa, fmt's %d, strconv.Atoi.
  // ---------------------------------------------------------------------------

  predicate IsDigit(c: char) {
    '0' <= c <= '9'
  }

  predicate AllDigits(s: string) {
    forall i :: 0 <= i < |s| ==> IsDigit(s[i])
  }

  function DigitValue(c: char): nat
    requires IsDigit(c)
  {
    (c as int) - ('0' as int)
  }

  /** The character of decimal digit `d`; the entry `d` of the table "0123456789". */
  function DigitChar(d: nat): (c: char)
    requires d < 10
    ensures IsDigit(c) && DigitValue(c) == d
  {
    (('0' as int) + d) as char
  }

  /** The decimal digits of `n`, most significant first, without leading zeros. */
  function NatToString(n: nat): (s: string)
    ensures |s| > 0 && AllDigits(s)
    decreases n
  {
    if n < 10 then [DigitChar(n)] else NatToString(n / 10) + [DigitChar(n % 10)]
  }

  /** strconv.Itoa, and fmt's "%d": a '-' sign for negative numbers, then the digits. */
  function Itoa(n: int): (s: string)
    ensures |s| > 0
    ensures s[0] == '-' <==> n < 0
  {
    if n < 0 then "-" + NatToString(-n) else NatToString(n)
  }

  /** The value of a run of decimal digits (the empty run has value 0). */
  function ParseDigits(s: string): nat
    requires AllDigits(s)
  {
    if |s| == 0 then 0 else ParseDigits(s[..|s| - 1]) * 10 + DigitValue(s[|s| - 1])
  }

  /** The length of the run of digits at the start of `s`. */
  function DigitRun(s: string): (n: nat)
    ensures n <= |s| && AllDigits(s[..n])
    ensures n < |s| ==> !IsDigit(s[n])
    ensures AllDigits(s) ==> n == |s|
  {
    if |s| == 0 || !IsDigit(s[0]) then 0
    else
      var n := 1 + DigitRun(s[1..]);
      assert s[..n] == [s[0]] + s[1..][..n - 1];
      n
  }

  /** The digit run of digits followed by a non-digit (or nothing) is those digits. */
  lemma {:induction false} DigitRunOf(d: string, rest: string)
    requires AllDigits(d)
    requires |rest| > 0 ==> !IsDigit(rest[0])
    ensures DigitRun(d + rest) == |d|
    decreases |d|
  {
    if |d| > 0 {
      assert (d + rest)[1..] == d[1..] + rest;
      DigitRunOf(d[1..], rest);
    } else {
      assert d + rest == rest;
    }
  }

  /** A prefix of a digit run is worth no more than the whole run. */
  lemma {:induction false} ParseDigitsPrefix(s: string, i: nat)
    requires AllDigits(s) && i <= |s|
    ensures ParseDigits(s[..i]) <= ParseDigits(s)
    decreases |s|
  {
    if i < |s| {
      assert s[..|s| - 1][..i] == s[..i];
      ParseDigitsPrefix(s[..|s| - 1], i);
    } else {
      assert s[..i] == s;
    }
  }

  /** Reading back what NatToString wrote gives the number again. */
  lemma {:induction false} ParseNatToString(n: nat)
    ensures ParseDigits(NatToString(n)) == n
    decreases n
  {
    if n >= 10 {
      ParseNatToString(n / 10);
      var s := NatToString(n);
      assert s[..|s| - 1] == NatToString(n / 10);
    }
  }

  /** Distinct numbers render differently, so keys such as "chef_rr:" + Itoa(id) never collide. */
  lemma ItoaInjective(a: int, b: int)
    requires Itoa(a) == Itoa(b)
    ensures a == b
  {
    if a < 0 {
      assert b < 0;
      assert Itoa(a)[1..] == NatToString(-a);
      assert Itoa(b)[1..] == NatToString(-b);
      ParseNatToString(-a);
      ParseNatToString(-b);
    } else {
      assert b >= 0;
      ParseNatToString(a);
      ParseNatToString(b);
    }
  }

  /** The same prefix followed by distinct numbers gives distinct keys. */
  lemma PrefixedItoaInjective(prefix: string, a: int, b: int)
    requires prefix + Itoa(a) == prefix + Itoa(b)
    ensures a == b
  {
    assert Itoa(a) == (prefix + Itoa(a))[|prefix|..];
    assert Itoa(b) == (prefix + Itoa(b))[|prefix|..];
    ItoaInjective(a, b);
  }

  const MaxInt64: int := 0x7fff_ffff_ffff_ffff

  /**
   * strconv.Atoi applied to a run of ASCII digits on a 64-bit platform: the value when it
   * fits in an int64; otherwise Atoi reports a range error and returns the largest int64.
   */
  function AtoiDigits(s: string): (n: int)
    requires AllDigits(s)
    ensures 0 <= n <= MaxInt64
    ensures ParseDigits(s) <= MaxInt64 ==> n == ParseDigits(s)
    ensures ParseDigits(s) > MaxInt64 ==> n == MaxInt64
  {
    var v := ParseDigits(s);
    if v > MaxInt64 then MaxInt64 else v
  }

  const MinInt64: int := -0x8000_0000_0000_0000

  /** Every number rendered by NatToString other than 0 starts with a non-zero digit. */
  lemma {:induction false} NatToStringLeadingDigit(n: nat)
    ensures NatToString(n)[0] == '0' <==> n == 0
    ensures n == 0 ==> NatToString(n) == "0"
    decreases n
  {
    if n >= 10 {
      NatToStringLeadingDigit(n / 10);
      assert NatToString(n)[0] == NatToString(n / 10)[0];
    }
  }

  const MaxUint64: int := 0xffff_ffff_ffff_ffff

  /**
   * The value strconv.Atoi returns when its error is discarded, on a 64-bit platform.
   * An optional '+' or '-' is taken off the front, and the rest is read digit by digit as
   * an unsigned 64-bit number. The reading stops with a range error at the first digit
   * that takes the value past 2^64 - 1, before any later character is looked at; the result
   * is then the int64 bound of the sign. Otherwise, text that is empty after the sign or
   * holds a non-digit gives 0, and a run of digits gives its value, clamped to the int64
   * range.
   */
  function AtoiIgnoringError(s: string): (n: int)
    ensures MinInt64 <= n <= MaxInt64
    ensures AllDigits(s) && |s| > 0 ==> n == AtoiDigits(s)
  {
    if |s| > 0 && s[0] == '-' then AtoiUnsigned(s[1..], true)
    else if |s| > 0 && s[0] == '+' then AtoiUnsigned(s[1..], false)
    else AtoiUnsigned(s, false)
  }

  /** strconv.ParseInt's value for the text after the sign; `neg` says the sign was '-'. */
  function AtoiUnsigned(body: string, neg: bool): (n: int)
    ensures MinInt64 <= n <= MaxInt64
    ensures AllDigits(body) && |body| > 0 && !neg ==> n == AtoiDigits(body)
  {
    var k := DigitRun(body);
    var u := ParseDigits(body[..k]);
    assert k == |body| ==> body[..k] == body;
    if u > MaxUint64 then (if neg then MinInt64 else MaxInt64)
    else if k == 0 || k < |body| then 0
    else if neg then (if u > -MinInt64 then MinInt64 else -(u as int))
    else AtoiDigits(body)
  }

  /**
   * Digits worth more than 2^64 - 1 saturate whatever follows them: the range error comes
   * before the syntax error a later non-digit would raise.
   */
  lemma AtoiOverflowIgnoresRest(d: string, rest: string)
    requires AllDigits(d) && ParseDigits(d) > MaxUint64
    ensures AtoiIgnoringError(d + rest) == MaxInt64
    ensures AtoiIgnoringError("-" + (d + rest)) == MinInt64
  {
    var s := d + rest;
    AtoiUnsignedOverflow(d, rest, false);
    AtoiUnsignedOverflow(d, rest, true);
    assert |d| > 0 && s[0] == d[0] && IsDigit(d[0]);
    assert AtoiIgnoringError(s) == AtoiUnsigned(s, false);
    var t := "-" + (d + rest);
    assert t[0] == '-' && t[1..] == s;
    assert AtoiIgnoringError(t) == AtoiUnsigned(s, true);
  }

  lemma AtoiUnsignedOverflow(d: string, rest: string, neg: bool)
    requires AllDigits(d) && ParseDigits(d) > MaxUint64
    ensures AtoiUnsigned(d + rest, neg) == if neg then MinInt64 else MaxInt64
  {
    var s := d + rest;
    var k := DigitRun(s);
    assert k >= |d|;
    assert s[..k][..|d|] == d;
    ParseDigitsPrefix(s[..k], |d|);
  }

  /** Digits that fit in 64 bits followed by a non-digit are a syntax error, read as 0. */
  lemma AtoiTrailingJunk(d: string, rest: string)
    requires AllDigits(d) && |d| > 0 && ParseDigits(d) <= MaxUint64
    requires |rest| > 0 && !IsDigit(rest[0])
    ensures AtoiIgnoringError(d + rest) == 0
    ensures AtoiIgnoringError("-" + (d + rest)) == 0
  {
    DigitRunOf(d, rest);
    assert (d + rest)[..|d|] == d;
    assert (d + rest)[0] == d[0];
    assert ("-" + (d + rest))[1..] == d + rest;
  }

  /** A '-' before a run of digits negates its value, down to the smallest int64. */
  lemma AtoiNegative(d: string)
    requires AllDigits(d) && |d| > 0
    ensures AtoiIgnoringError("-" + d) == if ParseDigits(d) > -MinInt64 then MinInt64 else -(ParseDigits(d) as int)
  {
    var t := "-" + d;
    assert t[0] == '-' && t[1..] == d;
    assert AtoiIgnoringError(t) == AtoiUnsigned(d, true);
    assert d[..DigitRun(d)] == d;
  }

  /** Atoi reads back every int64 that Itoa wrote. */
  lemma AtoiItoa(n: int)
    requires MinInt64 <= n <= MaxInt64
    ensures AtoiIgnoringError(Itoa(n)) == n
  {
    if n < 0 {
      ParseNatToString(-n);
      AtoiNegative(NatToString(-n));
    } else {
      ParseNatToString(n);
    }
  }

  // ---------------------------------------------------------------------------
  // strings.Split, strings.Join, strings.SplitN(s, sep, 2), Count.
  // ---------------------------------------------------------------------------

  /** The number of occurrences of `c` in `s`. */
  function CountChar(s: string, c: char): nat {
    if |s| == 0 then 0
    else CountChar(s[..|s| - 1], c) + (if s[|s| - 1] == c then 1 else 0)
  }

  lemma {:induction false} CountCharAppend(a: string, b: string, c: char)
    ensures CountChar(a + b, c) == CountChar(a, c) + CountChar(b, c)
    decreases |b|
  {
    if |b| == 0 {
      assert a + b == a;
    } else {
      var b' := b[..|b| - 1];
      assert (a + b)[..|a + b| - 1] == a + b';
      CountCharAppend(a, b', c);
    }
  }

  /**
   * strings.Split(s, sep) for a one-character separator: the pieces between the separators,
   * in order. The empty string gives [""], a separator at either end gives an empty piece.
   */
  function Split(s: string, sep: char): (parts: seq<string>)
    ensures |parts| >= 1
    decreases |s|
  {
    if |s| == 0 then [""]
    else
      var init := Split(s[..|s| - 1], sep);
      if s[|s| - 1] == sep then init + [""]
      else init[..|init| - 1] + [init[|init| - 1] + [s[|s| - 1]]]
  }

  /** strings.Join(parts, sep). */
  function Join(parts: seq<string>, sep: string): string {
    if |parts| == 0 then ""
    else if |parts| == 1 then parts[0]
    else Join(parts[..|parts| - 1], sep) + sep + parts[|parts| - 1]
  }

  lemma JoinSnoc(parts: seq<string>, x: string, sep: string)
    requires |parts| > 0
    ensures Join(parts + [x], sep) == Join(parts, sep) + sep + x
  {
    assert (parts + [x])[..|parts|] == parts;
  }

  /** Split yields one more piece than there are separators. */
  lemma {:induction false} SplitCount(s: string, sep: char)
    ensures |Split(s, sep)| == CountChar(s, sep) + 1
    decreases |s|
  {
    if |s| > 0 {
      SplitCount(s[..|s| - 1], sep);
    }
  }

  /** No piece of Split contains the separator. */
  lemma {:induction false} SplitPiecesHaveNoSep(s: string, sep: char)
    ensures forall i :: 0 <= i < |Split(s, sep)| ==> sep !in Split(s, sep)[i]
    decreases |s|
  {
    if |s| > 0 {
      SplitPiecesHaveNoSep(s[..|s| - 1], sep);
    }
  }

  /** Joining the pieces of Split with the separator gives back the string. */
  lemma {:induction false} JoinSplit(s: string, sep: char)
    ensures Join(Split(s, sep), [sep]) == s
    decreases |s|
  {
    if |s| > 0 {
      var s', c := s[..|s| - 1], s[|s| - 1];
      assert s == s' + [c];
      var init := Split(s', sep);
      JoinSplit(s', sep);
      if c == sep {
        assert Split(s, sep) == init + [""];
        JoinSnoc(init, "", [sep]);
      } else {
        var k := |init| - 1;
        var last := init[k] + [c];
        assert Split(s, sep) == init[..k] + [last];
        if k == 0 {
          assert init == [init[0]];
          assert Join(Split(s, sep), [sep]) == last;
        } else {
          assert init == init[..k] + [init[k]];
          JoinSnoc(init[..k], init[k], [sep]);
          JoinSnoc(init[..k], last, [sep]);
        }
      }
    }
  }

  /** The first index of `c` in `s`, or |s| when `c` does not occur. */
  function IndexOfChar(s: string, c: char): (i: nat)
    ensures i <= |s|
    ensures i < |s| ==> s[i] == c
    ensures forall j :: 0 <= j < i ==> s[j] != c
  {
    if |s| == 0 then 0
    else if s[0] == c then 0
    else 1 + IndexOfChar(s[1..], c)
  }

  /** strings.SplitN(s, sep, 2): split at the first separator only. */
  function SplitFirst(s: string, sep: char): (parts: seq<string>)
    ensures 1 <= |parts| <= 2
    ensures |parts| == 1 <==> sep !in s
    ensures |parts| == 1 ==> parts[0] == s
    ensures |parts| == 2 ==> parts[0] + [sep] + parts[1] == s && sep !in parts[0]
  {
    var i := IndexOfChar(s, sep);
    if i == |s| then [s] else [s[..i], s[i + 1..]]
  }

  // ---------------------------------------------------------------------------
  // Prefixes, suffixes, substrings.
  // ---------------------------------------------------------------------------

  predicate HasPrefix(s: string, prefix: string) {
    |prefix| <= |s| && s[..|prefix|] == prefix
  }

  predicate HasSuffix(s: string, suffix: string) {
    |suffix| <= |s| && s[|s| - |suffix|..] == suffix
  }

  /** `sub` occurs in `s` at position `k`. */
  predicate OccursAt(s: string, sub: string, k: nat) {
    k + |sub| <= |s| && s[k..k + |sub|] == sub
  }

  /** strings.Contains. */
  predicate Contains(s: string, sub: string)
    decreases |s|
  {
    HasPrefix(s, sub) || (|s| > 0 && Contains(s[1..], sub))
  }

  /** Contains holds exactly when `sub` occurs at some position of `s`. */
  lemma {:induction false} ContainsAt(s: string, sub: string, k: nat)
    requires k + |sub| <= |s| && s[k..k + |sub|] == sub
    ensures Contains(s, sub)
    decreases k
  {
    if k > 0 {
      assert s[1..][k - 1..k - 1 + |sub|] == s[k..k + |sub|];
      ContainsAt(s[1..], sub, k - 1);
    }
  }

  /** The converse of ContainsAt: a string that contains `sub` has it at some position. */
  lemma {:induction false} ContainsWitness(s: string, sub: string) returns (k: nat)
    requires Contains(s, sub)
    ensures OccursAt(s, sub, k)
    decreases |s|
  {
    if HasPrefix(s, sub) {
      k := 0;
    } else {
      var k' := ContainsWitness(s[1..], sub);
      assert s[1..][k'..k' + |sub|] == s[k' + 1..k' + 1 + |sub|];
      k := k' + 1;
    }
  }

  /** strings.Contains holds exactly when `sub` occurs at some position. */
  lemma ContainsIff(s: string, sub: string)
    ensures Contains(s, sub) <==> exists k :: OccursAt(s, sub, k)
  {
    if Contains(s, sub) {
      var k := ContainsWitness(s, sub);
    } else if exists k :: OccursAt(s, sub, k) {
      var k :| OccursAt(s, sub, k);
      ContainsAt(s, sub, k);
      assert false;
    }
  }

  // ---------------------------------------------------------------------------
  // Whitespace trimming (unicode.IsSpace, strings.TrimSpace).
  // ---------------------------------------------------------------------------

  /**
   * unicode.IsSpace: '\t', '\n', '\v', '\f', '\r', ' ', U+0085 and U+00A0 in Latin-1, and
   * above it the Unicode White_Space characters.
   */
  predicate IsSpace(c: char) {
    var u := c as int;
    (9 <= u <= 13) || u == 32 || u == 0x85 || u == 0xA0 || u == 0x1680
    || (0x2000 <= u <= 0x200A) || u == 0x2028 || u == 0x2029 || u == 0x202F
    || u == 0x205F || u == 0x3000
  }

  function TrimLeftSpace(s: string): (r: string)
    ensures |r| <= |s| && r == s[|s| - |r|..]
    ensures forall i :: 0 <= i < |s| - |r| ==> IsSpace(s[i])
    ensures r == [] || !IsSpace(r[0])
  {
    if |s| > 0 && IsSpace(s[0]) then TrimLeftSpace(s[1..]) else s
  }

  function TrimRightSpace(s: string): (r: string)
    ensures |r| <= |s| && r == s[..|r|]
    ensures forall i :: |r| <= i < |s| ==> IsSpace(s[i])
    ensures r == [] || !IsSpace(r[|r| - 1])
  {
    if |s| > 0 && IsSpace(s[|s| - 1]) then TrimRightSpace(s[..|s| - 1]) else s
  }

  /** strings.TrimSpace: drop leading and trailing white space. */
  function TrimSpace(s: string): string {
    TrimRightSpace(TrimLeftSpace(s))
  }

  /** `strings.TrimSpace(s) == ""`, the services' test for a missing name. */
  predicate IsBlank(s: string) {
    TrimSpace(s) == ""
  }

  lemma {:induction false} AllSpaceTrimsToEmpty(s: string)
    requires forall i :: 0 <= i < |s| ==> IsSpace(s[i])
    ensures TrimLeftSpace(s) == []
    decreases |s|
  {
    if |s| > 0 {
      AllSpaceTrimsToEmpty(s[1..]);
    }
  }

  /** A non-space character anywhere keeps a string from trimming to nothing. */
  lemma NonSpaceNotBlank(s: string, i: nat)
    requires i < |s| && !IsSpace(s[i])
    ensures !IsBlank(s)
  {
    var l := TrimLeftSpace(s);
    var k := |s| - |l|;
    assert i >= k;
    assert l[i - k] == s[k..][i - k];
    assert !IsSpace(l[0]);
  }

  /** A string is blank exactly when every character of it is white space. */
  lemma BlankIffAllSpace(s: string)
    ensures IsBlank(s) <==> forall i :: 0 <= i < |s| ==> IsSpace(s[i])
  {
    if forall i :: 0 <= i < |s| ==> IsSpace(s[i]) {
      AllSpaceTrimsToEmpty(s);
    } else {
      var i :| 0 <= i < |s| && !IsSpace(s[i]);
      NonSpaceNotBlank(s, i);
    }
  }

  /** A string that neither starts nor ends with white space is left alone by TrimSpace. */
  lemma TrimSpaceNoOp(s: string)
    requires s == [] || (!IsSpace(s[0]) && !IsSpace(s[|s| - 1]))
    ensures TrimSpace(s) == s
  {
  }

  // ---------------------------------------------------------------------------
  // Case mapping and replacement.
  // ---------------------------------------------------------------------------

  /** Lower-casing of one character, on the ASCII letters. */
  function LowerChar(c: char): char {
    if 'A' <= c <= 'Z' then ((c as int) + 32) as char else c
  }

  /** strings.ToLower, on the ASCII letters. */
  function ToLower(s: string): (r: string)
    ensures |r| == |s| && forall i :: 0 <= i < |s| ==> r[i] == LowerChar(s[i])
  {
    seq(|s|, i requires 0 <= i < |s| => LowerChar(s[i]))
  }

  /** strings.ReplaceAll(s, [from], [to]) for one-character patterns. */
  function ReplaceChar(s: string, from: char, to: char): (r: string)
    ensures |r| == |s| && forall i :: 0 <= i < |s| ==> r[i] == (if s[i] == from then to else s[i])
  {
    seq(|s|, i requires 0 <= i < |s| => if s[i] == from then to else s[i])
  }

  // ---------------------------------------------------------------------------
  // Byte length: Go's len on a string counts UTF-8 bytes.
  // ---------------------------------------------------------------------------

  function Utf8Width(c: char): nat {
    var u := c as int;
    if u < 0x80 then 1 else if u < 0x800 then 2 else if u < 0x10000 then 3 else 4
  }

  /** len(s) in Go: the number of bytes of the UTF-8 encoding of `s`. */
  function Utf8Len(s: string): nat {
    if |s| == 0 then 0 else Utf8Len(s[..|s| - 1]) + Utf8Width(s[|s| - 1])
  }

  /** On ASCII text the byte length is the character count. */
  lemma {:induction false} Utf8LenAscii(s: string)
    requires forall i :: 0 <= i < |s| ==> (s[i] as int) < 0x80
    ensures Utf8Len(s) == |s|
    decreases |s|
  {
    if |s| > 0 {
      Utf8LenAscii(s[..|s| - 1]);
    }
  }

  /** Every character takes at least one byte. */
  lemma {:induction false} Utf8LenAtLeast(s: string)
    ensures Utf8Len(s) >= |s|
    decreases |s|
  {
    if |s| > 0 {
      Utf8LenAtLeast(s[..|s| - 1]);
    }
  }
}

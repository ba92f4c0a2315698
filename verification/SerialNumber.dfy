/** Serial numbers of cf001 devices: 4 product, 6 date, 2 line, 9 sequence, 2 checksum characters. */
module SerialNumber {
  import opened Basics

  const SN_LEN := 23
  const SEQ_MOD := 1_000_000_000
  const MIN_INT64 := -0x8000_0000_0000_0000
  const MAX_INT64 := 0x7FFF_FFFF_FFFF_FFFF

  predicate IsAscii(s: string) {
    forall i :: 0 <= i < |s| ==> s[i] as int < 128
  }

  function Digit(n: nat): char
    requires n < 10
  {
    '0' + n as char
  }

  function HexDigit(n: nat): char
    requires n < 16
  {
    if n < 10 then '0' + n as char else 'A' + (n - 10) as char
  }

  /** The last width decimal digits of n. */
  function Dec(n: nat, width: nat): (s: string)
    ensures |s| == width && IsAscii(s)
  {
    if width == 0 then "" else Dec(n / 10, width - 1) + [Digit(n % 10)]
  }

  function Sum(s: string): nat {
    if s == "" then 0 else Sum(s[..|s| - 1]) + s[|s| - 1] as int
  }

  function Checksum(s: string): (c: string)
    ensures |c| == 2
  {
    var m := Sum(s) % 256;
    [HexDigit(m / 16), HexDigit(m % 16)]
  }

  method ComputeChecksum(s: string) returns (c: string)
    ensures c == Checksum(s)
  {
    var sum := 0;
    for i := 0 to |s|
      invariant sum == Sum(s[..i])
    {
      assert s[..i + 1][..i] == s[..i];
      sum := sum + s[i] as int;
    }
    assert s[..|s|] == s;
    c := [HexDigit(sum % 256 / 16), HexDigit(sum % 256 % 16)];
  }

  function Upper(c: char): char {
    if 'a' <= c <= 'z' then c - 'a' + 'A' else c
  }

  function UpperAll(s: string): string {
    seq(|s|, i requires 0 <= i < |s| => Upper(s[i]))
  }

  function PadRight(s: string, width: nat): string {
    s + seq(if |s| < width then width - |s| else 0, _ => '_')
  }

  function PadLeft(s: string, width: nat): string {
    seq(if |s| < width then width - |s| else 0, _ => '0') + s
  }

  function Prefix4(productKey: string): string {
    var p := UpperAll(productKey);
    if |p| > 4 then p[..4] else PadRight(p, 4)
  }

  method ComputePrefix4(productKey: string) returns (p: string)
    ensures p == Prefix4(productKey) && |p| == 4
  {
    p := UpperAll(productKey);
    if |p| > 4 {
      p := p[..4];
    }
    ghost var start := p;
    while |p| < 4
      invariant |start| <= |p| <= 4 || p == start
      invariant p == start + seq(|p| - |start|, _ => '_')
    {
      p := p + "_";
    }
  }

  predicate IsSpace(c: char) {
    c == ' ' || '\t' <= c <= '\r'
  }

  function Trim(s: string): string {
    if s == "" then ""
    else if IsSpace(s[0]) then Trim(s[1..])
    else if IsSpace(s[|s| - 1]) then Trim(s[..|s| - 1])
    else s
  }

  function NormalizeLine(line: string): (r: string)
    ensures |r| == 2
  {
    var t := Trim(line);
    if t == "" then "01"
    else if |t| == 1 then "0" + t
    else if |t| > 2 then t[|t| - 2..]
    else t
  }

  function Date6(yymmdd: string): (r: string)
    ensures |r| == 6
    ensures |yymmdd| == 6 ==> r == yymmdd
  {
    if |yymmdd| > 6 then yymmdd[..6] else PadLeft(yymmdd, 6)
  }

  /** int64 negation: the least value is its own negation. */
  function Negate64(n: int): int {
    if n == MIN_INT64 then n else -n
  }

  /** Go's remainder keeps the sign of the dividend. */
  function Rem(n: int, m: nat): int
    requires m > 0
  {
    if n >= 0 then n % m else -((-n) % m)
  }

  /** fmt %09d: zero padding counts the sign. */
  function Format09(n: int): string
    requires -SEQ_MOD < n < SEQ_MOD
  {
    if n >= 0 then Dec(n, 9)
    else if -n < 100_000_000 then "-" + Dec(-n, 8)
    else "-" + Dec(-n, 9)
  }

  function Body(productKey: string, yymmdd: string, line: string, n: int): string {
    var m := if n < 0 then Negate64(n) else n;
    Prefix4(productKey) + Date6(yymmdd) + NormalizeLine(line) + Format09(Rem(m, SEQ_MOD))
  }

  function BuildSN(productKey: string, yymmdd: string, line: string, n: int): string {
    var body := Body(productKey, yymmdd, line, n);
    body + Checksum(body)
  }

  predicate ValidSN(sn: string) {
    |sn| == SN_LEN && Checksum(sn[..21]) == sn[21..]
  }

  lemma PrefixLength(productKey: string)
    ensures |Prefix4(productKey)| == 4
  {
  }

  lemma RemBounds(n: int)
    ensures -SEQ_MOD < Rem(n, SEQ_MOD) < SEQ_MOD
    ensures n >= 0 ==> 0 <= Rem(n, SEQ_MOD)
  {
  }

  lemma BodyLength(productKey: string, yymmdd: string, line: string, n: int)
    requires MIN_INT64 <= n <= MAX_INT64
    ensures |Body(productKey, yymmdd, line, n)| == if n == MIN_INT64 then 22 else 21
  {
    PrefixLength(productKey);
    if n == MIN_INT64 {
      assert Rem(n, SEQ_MOD) == -854_775_808;
    } else {
      RemBounds(if n < 0 then -n else n);
    }
  }

  /** For every product key, date, line and int64 sequence number but the least one, the built
      serial number has 23 characters and validates; for that one it does neither. */
  lemma BuiltIsValid(productKey: string, yymmdd: string, line: string, n: int)
    requires MIN_INT64 <= n <= MAX_INT64
    ensures |BuildSN(productKey, yymmdd, line, n)| == SN_LEN <==> n != MIN_INT64
    ensures ValidSN(BuildSN(productKey, yymmdd, line, n)) <==> n != MIN_INT64
  {
    BodyLength(productKey, yymmdd, line, n);
    var body := Body(productKey, yymmdd, line, n);
    if n != MIN_INT64 {
      assert BuildSN(productKey, yymmdd, line, n)[..21] == body;
      assert BuildSN(productKey, yymmdd, line, n)[21..] == Checksum(body);
    }
  }

  lemma {:induction false} DecInjective(a: nat, b: nat, width: nat, limit: nat)
    requires limit == Pow10(width) && a < limit && b < limit && Dec(a, width) == Dec(b, width)
    ensures a == b
  {
    if width > 0 {
      var s, t := Dec(a, width), Dec(b, width);
      assert s[..width - 1] == Dec(a / 10, width - 1) && s[width - 1] == Digit(a % 10);
      assert t[..width - 1] == Dec(b / 10, width - 1) && t[width - 1] == Digit(b % 10);
      DecInjective(a / 10, b / 10, width - 1, Pow10(width - 1));
    }
  }

  function Pow10(n: nat): nat {
    if n == 0 then 1 else 10 * Pow10(n - 1)
  }

  lemma Pow10Of9()
    ensures Pow10(9) == SEQ_MOD
  {
    assert Pow10(3) == 1000;
    assert Pow10(6) == 1_000_000;
  }

  /** Equal serial numbers come from the same day and the same sequence number of that day. */
  lemma BuiltDistinct(pk1: string, day1: string, line1: string, n1: nat, pk2: string, day2: string, line2: string, n2: nat)
    requires |day1| == 6 && |day2| == 6 && n1 < SEQ_MOD && n2 < SEQ_MOD
    ensures BuildSN(pk1, day1, line1, n1) == BuildSN(pk2, day2, line2, n2) ==> day1 == day2 && n1 == n2
  {
    Pow10Of9();
    BuiltParts(pk1, day1, line1, n1);
    BuiltParts(pk2, day2, line2, n2);
    if Dec(n1, 9) == Dec(n2, 9) {
      DecInjective(n1, n2, 9, SEQ_MOD);
    }
  }

  lemma Slices(p: string, d: string, l: string, q: string, c: string)
    requires |p| == 4 && |d| == 6 && |l| == 2 && |q| == 9
    ensures (p + d + l + q + c)[4..10] == d
    ensures (p + d + l + q + c)[12..21] == q
  {
    var s := p + d + l + q + c;
    assert s == p + (d + (l + q + c));
    assert s == (p + d + l) + (q + c);
  }

  lemma BodyOf(pk: string, day: string, line: string, n: nat)
    requires |day| == 6 && n < SEQ_MOD
    ensures Body(pk, day, line, n) == Prefix4(pk) + day + NormalizeLine(line) + Dec(n, 9)
  {
    assert Rem(n, SEQ_MOD) == n;
  }

  /** Where the day and the sequence number stand in a serial number. */
  lemma BuiltParts(pk: string, day: string, line: string, n: nat)
    requires |day| == 6 && n < SEQ_MOD
    ensures |BuildSN(pk, day, line, n)| >= 21
    ensures BuildSN(pk, day, line, n)[4..10] == day
    ensures BuildSN(pk, day, line, n)[12..21] == Dec(n, 9)
  {
    PrefixLength(pk);
    BodyOf(pk, day, line, n);
    Slices(Prefix4(pk), day, NormalizeLine(line), Dec(n, 9), Checksum(Body(pk, day, line, n)));
  }

  lemma {:induction false} SumUpdate(s: string, i: nat, c: char)
    requires i < |s|
    ensures Sum(s[i := c]) == Sum(s) - s[i] as int + c as int
  {
    var m := |s| - 1;
    if i == m {
      assert s[i := c][..m] == s[..m];
    } else {
      assert s[i := c][..m] == s[..m][i := c];
      SumUpdate(s[..m], i, c);
    }
  }

  lemma HexDigitInjective(a: nat, b: nat)
    requires a < 16 && b < 16 && HexDigit(a) == HexDigit(b)
    ensures a == b
  {
  }

  lemma ChecksumSeparates(s: string, t: string)
    requires Sum(s) % 256 != Sum(t) % 256
    ensures Checksum(s) != Checksum(t)
  {
    var m, n := Sum(s) % 256, Sum(t) % 256;
    if Checksum(s) == Checksum(t) {
      assert Checksum(s)[0] == HexDigit(m / 16) && Checksum(s)[1] == HexDigit(m % 16);
      assert Checksum(t)[0] == HexDigit(n / 16) && Checksum(t)[1] == HexDigit(n % 16);
      HexDigitInjective(m / 16, n / 16);
      HexDigitInjective(m % 16, n % 16);
    }
  }

  /** One wrong character anywhere makes a valid serial number invalid. */
  lemma OneErrorDetected(sn: string, i: nat, c: char)
    requires ValidSN(sn) && IsAscii(sn) && i < SN_LEN && c as int < 128 && c != sn[i]
    ensures !ValidSN(sn[i := c])
  {
    var bad := sn[i := c];
    if i < 21 {
      assert bad[..21] == sn[..21][i := c] && bad[21..] == sn[21..];
      SumUpdate(sn[..21], i, c);
      ChecksumSeparates(sn[..21], bad[..21]);
    } else {
      assert bad[..21] == sn[..21];
      assert bad[21..][i - 21] == c && sn[21..][i - 21] == sn[i];
    }
  }

  // ---- what stands in a serial number

  /** The sum is over the character codes, each once. */
  lemma {:induction false} SumOf(s: string, t: string, c: char)
    ensures Sum("") == 0 && Sum([c]) == c as int
    ensures Sum(s + t) == Sum(s) + Sum(t)
  {
    assert Sum([c]) == c as int by {
      assert [c][..0] == "";
    }
    if t == "" {
      assert s + t == s;
    } else {
      var m := |t| - 1;
      assert (s + t)[..|s + t| - 1] == s + t[..m];
      SumOf(s, t[..m], c);
    }
  }

  /** The checksum is the sum modulo 256 as two upper-case hexadecimal digits, the high one first. */
  lemma ChecksumMeans(s: string)
    ensures Checksum(s) == ["0123456789ABCDEF"[Sum(s) % 256 / 16], "0123456789ABCDEF"[Sum(s) % 256 % 16]]
  {
    var m := Sum(s) % 256;
    HexIs(m / 16);
    HexIs(m % 16);
  }

  lemma HexIs(n: nat)
    requires n < 16
    ensures HexDigit(n) == "0123456789ABCDEF"[n]
  {
  }

  /** Character i is the decimal digit of its place. */
  lemma {:induction false} DecMeans(n: nat, width: nat, i: nat)
    requires i < width
    ensures Pow10(width - 1 - i) > 0
    ensures Dec(n, width)[i] as int - 48 == n / Pow10(width - 1 - i) % 10
  {
    PowPositive(width - 1 - i);
    if i < width - 1 {
      DecMeans(n / 10, width - 1, i);
      PowPositive(width - 2 - i);
      DivideTwice(n, 10, Pow10(width - 2 - i), Pow10(width - 1 - i), n / 10, n % 10);
    }
  }

  lemma {:induction false} PowPositive(n: nat)
    ensures Pow10(n) > 0
  {
    if n > 0 {
      PowPositive(n - 1);
    }
  }

  /** The first four characters, lower-case ASCII letters raised, and underscores for missing ones. */
  lemma PrefixMeans(productKey: string, i: nat)
    requires i < 4
    ensures |Prefix4(productKey)| == 4
    ensures |productKey| <= i ==> Prefix4(productKey)[i] == '_'
    ensures i < |productKey| && !('a' <= productKey[i] <= 'z') ==> Prefix4(productKey)[i] == productKey[i]
    ensures i < |productKey| && 'a' <= productKey[i] <= 'z' ==> Prefix4(productKey)[i] as int == productKey[i] as int - 32
  {
  }

  predicate Blank(s: string) {
    forall i :: 0 <= i < |s| ==> s[i] in " \t\n\r" || s[i] as int in {11, 12}
  }

  predicate Trimmed(t: string) {
    t == "" || (!Blank([t[0]]) && !Blank([t[|t| - 1]]))
  }

  lemma BlankIsSpace(c: char)
    ensures Blank([c]) <==> IsSpace(c)
  {
    assert Blank([c]) <==> [c][0] in " \t\n\r" || [c][0] as int in {11, 12};
  }

  lemma {:induction false} TrimIs(a: string, t: string, b: string)
    requires Blank(a) && Trimmed(t) && Blank(b)
    ensures Trim(a + t + b) == t
    decreases |a| + |b|
  {
    var s := a + t + b;
    if a != "" {
      BlankIsSpace(a[0]);
      assert s[0] == a[0] && s[1..] == a[1..] + t + b;
      TrimIs(a[1..], t, b);
    } else if b != "" {
      BlankIsSpace(b[|b| - 1]);
      assert s[|s| - 1] == b[|b| - 1] && s[..|s| - 1] == t + b[..|b| - 1] == a + t + b[..|b| - 1];
      if t != "" {
        BlankIsSpace(t[0]);
        assert s[0] == t[0];
        TrimIs(a, t, b[..|b| - 1]);
      } else {
        BlankIsSpace(b[0]);
        assert s[0] == b[0] && s[1..] == a + t + b[1..];
        TrimIs(a, t, b[1..]);
      }
    } else {
      assert s == t;
      if t != "" {
        BlankIsSpace(t[0]);
        BlankIsSpace(t[|t| - 1]);
      }
    }
  }

  /** Without the white space around it: 01 when nothing is left, a zero before a single character,
      and the last two of more. */
  lemma LineMeans(a: string, t: string, b: string)
    requires Blank(a) && Trimmed(t) && Blank(b)
    ensures t == "" ==> NormalizeLine(a + t + b) == "01"
    ensures |t| == 1 ==> NormalizeLine(a + t + b) == "0" + t
    ensures |t| >= 2 ==> NormalizeLine(a + t + b) == t[|t| - 2..]
  {
    TrimIs(a, t, b);
  }

  /** The date is cut behind six characters or filled up with zeros in front. */
  lemma DateMeans(yymmdd: string)
    ensures |yymmdd| >= 6 ==> Date6(yymmdd) == yymmdd[..6]
    ensures |yymmdd| < 6 ==> Date6(yymmdd)[6 - |yymmdd|..] == yymmdd
    ensures forall i :: 0 <= i < 6 - |yymmdd| ==> Date6(yymmdd)[i] == '0'
  {
    if |yymmdd| < 6 {
      assert Date6(yymmdd) == seq(6 - |yymmdd|, _ => '0') + yymmdd;
    }
  }

  /** The parts in order, with the last nine digits of the sequence number taken without its sign. */
  lemma LayoutMeans(pk: string, day: string, line: string, n: int)
    requires MIN_INT64 < n <= MAX_INT64
    ensures var m := if n < 0 then -n else n;
            var sn := BuildSN(pk, day, line, n);
            && |sn| == 23 && sn[..4] == Prefix4(pk) && sn[4..10] == Date6(day) && sn[10..12] == NormalizeLine(line)
            && sn[12..21] == Dec(m % 1_000_000_000, 9) && sn[21..] == Checksum(sn[..21])
  {
    var m := if n < 0 then -n else n;
    PrefixLength(pk);
    SliceAll(Prefix4(pk), Date6(day), NormalizeLine(line), Dec(m % SEQ_MOD, 9), Checksum(Body(pk, day, line, n)));
  }

  lemma SliceAll(p: string, d: string, l: string, q: string, c: string)
    requires |p| == 4 && |d| == 6 && |l| == 2 && |q| == 9
    ensures var s := p + d + l + q + c;
            && s[..4] == p && s[4..10] == d && s[10..12] == l && s[12..21] == q && s[21..] == c && s[..21] == p + d + l + q
  {
    Slices(p, d, l, q, c);
    var s := p + d + l + q + c;
    assert s == p + (d + (l + (q + c)));
    assert s == (p + d) + (l + (q + c));
  }
}

/** The string operations the wire format is built from: splitting and joining on a separator,
    decimal integers, and the hexadecimal text of a UUID. */
module Strings {
  import opened Types

  // Splitting and joining

  function Split(s: Text, sep: Byte): (parts: seq<Text>)
    ensures |parts| >= 1
  {
    if s == [] then [[]]
    else
      var rest := Split(s[1..], sep);
      if s[0] == sep then [[]] + rest else [[s[0]] + rest[0]] + rest[1..]
  }

  function Join(parts: seq<Text>, sep: Byte): Text {
    if |parts| == 0 then []
    else if |parts| == 1 then parts[0]
    else parts[0] + [sep] + Join(parts[1..], sep)
  }

  ghost predicate NoneContains(parts: seq<Text>, sep: Byte) {
    forall p :: p in parts ==> sep !in p
  }

  lemma {:induction false} SplitFirst(head: Text, tail: Text, sep: Byte)
    requires sep !in head
    ensures Split(head + [sep] + tail, sep) == [head] + Split(tail, sep)
    ensures Split(head, sep) == [head]
  {
    var s := head + [sep] + tail;
    if head == [] {
      assert s[1..] == tail;
    } else {
      SplitFirst(head[1..], tail, sep);
      assert s[1..] == head[1..] + [sep] + tail;
      assert [head[0]] + head[1..] == head;
    }
  }

  lemma {:induction false} SplitJoin(parts: seq<Text>, sep: Byte)
    requires parts != [] && NoneContains(parts, sep)
    ensures Split(Join(parts, sep), sep) == parts
  {
    if |parts| == 1 {
      SplitFirst(parts[0], [], sep);
    } else {
      SplitJoin(parts[1..], sep);
      SplitFirst(parts[0], Join(parts[1..], sep), sep);
      assert parts == [parts[0]] + parts[1..];
    }
  }

  lemma {:induction false} JoinAvoids(parts: seq<Text>, sep: Byte, c: Byte)
    requires NoneContains(parts, c) && c != sep
    ensures c !in Join(parts, sep)
  {
    if |parts| > 1 {
      JoinAvoids(parts[1..], sep, c);
    }
  }

  /** Every separator ends a part. */
  lemma {:induction false} SplitCounts(s: Text, sep: Byte)
    ensures |Split(s, sep)| == multiset(s)[sep] + 1
  {
    if s != [] {
      SplitCounts(s[1..], sep);
      assert s == [s[0]] + s[1..];
    }
  }

  lemma {:induction false} JoinAppend(parts: seq<Text>, p: Text, sep: Byte)
    ensures Join(parts + [p], sep) == if parts == [] then p else Join(parts, sep) + [sep] + p
  {
    if |parts| == 0 {
      assert parts + [p] == [p];
    } else if |parts| == 1 {
      assert (parts + [p])[1..] == [p];
    } else {
      JoinAppend(parts[1..], p, sep);
      assert (parts + [p])[1..] == parts[1..] + [p];
    }
  }

  // Decimal integers

  function DecimalDigit(n: int): Byte
    requires 0 <= n < 10
  {
    ByteOf('0' as int + n)
  }

  predicate IsDecimalDigit(c: Byte) {
    '0' <= c <= '9'
  }

  function FormatNat(n: nat): (s: Text)
    ensures s != [] && forall c :: c in s ==> IsDecimalDigit(c)
  {
    if n < 10 then [DecimalDigit(n)] else FormatNat(n / 10) + [DecimalDigit(n % 10)]
  }

  /** The integer as "%d" prints it. */
  function FormatInt(n: int): Text {
    if n < 0 then ['-'] + FormatNat(-n) else FormatNat(n)
  }

  function ParseNat(s: Text): (n: nat)
    requires forall c :: c in s ==> IsDecimalDigit(c)
  {
    if s == [] then 0
    else
      assert IsDecimalDigit(s[|s| - 1]);
      ParseNat(s[..|s| - 1]) * 10 + (s[|s| - 1] as int - '0' as int)
  }

  const NOT_A_NUMBER: Text := "invalid syntax"
  const OUT_OF_RANGE: Text := "value out of range"

  /** An optional sign and at least one digit, within the range of a 64-bit int. */
  function Atoi(s: Text): Result<Int64> {
    var signed := s != [] && (s[0] == '-' || s[0] == '+');
    var digits := if signed then s[1..] else s;
    if digits == [] || exists c :: c in digits && !IsDecimalDigit(c) then Err(NOT_A_NUMBER)
    else
      var n: int := ParseNat(digits) * (if signed && s[0] == '-' then -1 else 1);
      if -0x8000_0000_0000_0000 <= n <= 0x7fff_ffff_ffff_ffff then Ok(n) else Err(OUT_OF_RANGE)
  }

  lemma {:induction false} ParseFormatNat(n: nat)
    ensures ParseNat(FormatNat(n)) == n
  {
    if n >= 10 {
      ParseFormatNat(n / 10);
      assert FormatNat(n)[..|FormatNat(n)| - 1] == FormatNat(n / 10);
    }
  }

  lemma AtoiUnsigned(n: nat)
    ensures Atoi(FormatNat(n)) == Atoi("+" + FormatNat(n)) ==
      if n <= 0x7fff_ffff_ffff_ffff then Ok(n) else Err(OUT_OF_RANGE)
  {
    ParseFormatNat(n);
    assert IsDecimalDigit(FormatNat(n)[0]);
    assert ("+" + FormatNat(n))[1..] == FormatNat(n);
  }

  lemma AtoiNegative(n: nat)
    ensures Atoi(['-'] + FormatNat(n)) == if n <= 0x8000_0000_0000_0000 then Ok(-(n as int)) else Err(OUT_OF_RANGE)
  {
    ParseFormatNat(n);
    assert (['-'] + FormatNat(n))[1..] == FormatNat(n);
  }

  /** An integer's text is read back when it fits in 64 bits and refused otherwise; a '+' before it is allowed. */
  lemma AtoiFormatInt(n: int)
    ensures Atoi(FormatInt(n)) ==
      if -0x8000_0000_0000_0000 <= n <= 0x7fff_ffff_ffff_ffff then Ok(n) else Err(OUT_OF_RANGE)
    ensures n >= 0 ==> Atoi("+" + FormatInt(n)) == Atoi(FormatInt(n))
  {
    if n < 0 {
      AtoiNegative(-n);
    } else {
      AtoiUnsigned(n);
    }
  }

  lemma FormatIntInjective(m: int, n: int)
    requires FormatInt(m) == FormatInt(n)
    ensures m == n
  {
    if m < 0 {
      assert FormatInt(n)[0] == '-';
      assert n >= 0 ==> IsDecimalDigit(FormatNat(n)[0]);
      assert FormatInt(m)[1..] == FormatNat(-m) && FormatInt(n)[1..] == FormatNat(-n);
      ParseFormatNat(-m);
      ParseFormatNat(-n);
    } else {
      assert IsDecimalDigit(FormatNat(m)[0]);
      assert n >= 0;
      ParseFormatNat(m);
      ParseFormatNat(n);
    }
  }

  // What the decimal text is

  function PowerOfTen(i: nat): (p: nat)
    ensures p > 0
  {
    if i == 0 then 1 else 10 * PowerOfTen(i - 1)
  }

  lemma DivideTwice(n: nat, p: nat)
    requires p > 0
    ensures n / 10 / p == n / (10 * p)
  {
    var q, r := n / 10 / p, n / 10 % p;
    var rest := 10 * r + n % 10;
    assert n / 10 == q * p + r;
    assert n == q * (10 * p) + rest;
    QuotientIs(n, 10 * p, q, rest);
  }

  lemma QuotientIs(n: nat, d: nat, q: nat, r: nat)
    requires r < d && n == q * d + r
    ensures n / d == q
  {
    Multiple(n / d - q, d);
    assert (n / d - q) * d == r - n % d;
  }

  lemma Multiple(k: int, d: nat)
    ensures k >= 1 ==> k * d >= d
    ensures k <= -1 ==> k * d + d <= 0
  {
  }

  /** The digits are all there, and none leads that is zero. */
  lemma {:induction false} FormatNatSize(n: nat)
    ensures var s := FormatNat(n); n < PowerOfTen(|s|) && (|s| > 1 ==> s[0] != '0')
  {
    if n >= 10 {
      FormatNatSize(n / 10);
    } else {
      assert PowerOfTen(1) == 10;
    }
  }

  /** The i-th digit of a number, from the end. */
  function Digit(n: nat, i: nat): (d: nat)
    ensures d < 10
  {
    n / PowerOfTen(i) % 10
  }

  lemma {:induction false} FormatNatDigit(n: nat, i: nat)
    requires i < |FormatNat(n)|
    ensures FormatNat(n)[|FormatNat(n)| - 1 - i] == DecimalDigit(Digit(n, i))
  {
    if i == 0 {
      assert n / PowerOfTen(0) == n;
    } else {
      assert n >= 10;
      FormatNatDigit(n / 10, i - 1);
      DivideTwice(n, PowerOfTen(i - 1));
    }
  }

  lemma DecimalDigitIs(d: nat)
    requires d < 10
    ensures DecimalDigit(d) == "0123456789"[d]
  {
  }

  /** The text is the integer's in base ten, after a '-' exactly when it is negative: the i-th digit from the end is
      |n| / 10^i mod 10, they are all there, and none leads that is zero. */
  lemma FormatIntIs(n: int, i: nat)
    ensures FormatInt(n) != [] && (FormatInt(n)[0] == '-' <==> n < 0)
    ensures
      var (size, digits) := if n < 0 then (-n, FormatInt(n)[1..]) else (n, FormatInt(n));
      && digits != [] && size < PowerOfTen(|digits|) && (|digits| > 1 ==> digits[0] != '0')
      && (i < |digits| ==> digits[|digits| - 1 - i] == "0123456789"[size / PowerOfTen(i) % 10])
  {
    var size := if n < 0 then -n else n;
    var digits := FormatNat(size);
    assert IsDecimalDigit(digits[0]);
    assert n < 0 ==> FormatInt(n)[1..] == digits;
    FormatNatSize(size);
    if i < |digits| {
      FormatNatDigit(size, i);
      DecimalDigitIs(Digit(size, i));
    }
  }

  predicate Plain(s: Text) {
    '.' !in s && ',' !in s && ';' !in s
  }

  lemma FormatIntPlain(n: int)
    ensures Plain(FormatInt(n))
  {
  }

  // UUID text, section 3 of RFC 4122

  function HexDigit(n: int): Byte
    requires 0 <= n < 16
  {
    if n < 10 then ByteOf('0' as int + n) else ByteOf('a' as int + (n - 10))
  }

  predicate IsHex(c: Byte) {
    '0' <= c <= '9' || 'a' <= c <= 'f' || 'A' <= c <= 'F'
  }

  function HexValue(c: Byte): (n: int)
    requires IsHex(c)
    ensures 0 <= n < 16
  {
    if '0' <= c <= '9' then c as int - '0' as int
    else if 'a' <= c <= 'f' then c as int - 'a' as int + 10
    else c as int - 'A' as int + 10
  }

  function Hex(b: Text): (s: Text)
    ensures |s| == 2 * |b|
    ensures forall c :: c in s ==> IsHex(c)
  {
    if b == [] then [] else [HexDigit(b[0] as int / 16), HexDigit(b[0] as int % 16)] + Hex(b[1..])
  }

  function Unhex(s: Text): (b: Text)
    requires |s| % 2 == 0 && forall c :: c in s ==> IsHex(c)
    ensures |b| == |s| / 2
  {
    if s == [] then [] else [ByteOf(HexValue(s[0]) * 16 + HexValue(s[1]))] + Unhex(s[2..])
  }

  lemma HexDigitRoundTrip(n: int)
    requires 0 <= n < 16
    ensures HexValue(HexDigit(n)) == n
  {
  }

  lemma {:induction false} UnhexHex(b: Text)
    ensures Unhex(Hex(b)) == b
  {
    if b != [] {
      UnhexHex(b[1..]);
      HexDigitRoundTrip(b[0] as int / 16);
      HexDigitRoundTrip(b[0] as int % 16);
      assert Hex(b)[2..] == Hex(b[1..]);
    }
  }

  function FormatID(id: ConnID): Text {
    Hex(id[..4]) + ['-'] + Hex(id[4..6]) + ['-'] + Hex(id[6..8]) + ['-'] + Hex(id[8..10]) + ['-'] + Hex(id[10..])
  }

  lemma HexDigitIs(n: int)
    requires 0 <= n < 16
    ensures HexDigit(n) == "0123456789abcdef"[n]
  {
  }

  lemma {:induction false} HexAt(b: Text, j: nat)
    requires j < |b|
    ensures Hex(b)[2 * j] == "0123456789abcdef"[b[j] as int / 16]
    ensures Hex(b)[2 * j + 1] == "0123456789abcdef"[b[j] as int % 16]
  {
    if j == 0 {
      HexDigitIs(b[0] as int / 16);
      HexDigitIs(b[0] as int % 16);
    } else {
      HexAt(b[1..], j - 1);
    }
  }

  /** How many dashes stand before the digits of the j-th byte. */
  function DashesBefore(j: nat): nat {
    if j < 4 then 0 else if j < 6 then 1 else if j < 8 then 2 else if j < 10 then 3 else 4
  }

  /** A group of bytes inside the text. */
  lemma GroupAt(s: Text, before: Text, b: Text, after: Text, j: nat)
    requires s == before + Hex(b) + after && j < |b|
    ensures |before| + 2 * j + 1 < |s|
    ensures s[|before| + 2 * j] == "0123456789abcdef"[b[j] as int / 16]
    ensures s[|before| + 2 * j + 1] == "0123456789abcdef"[b[j] as int % 16]
  {
    HexAt(b, j);
  }

  lemma FormatIDDashes(id: ConnID)
    ensures |FormatID(id)| == 36
    ensures FormatID(id)[8] == FormatID(id)[13] == FormatID(id)[18] == FormatID(id)[23] == '-'
  {
  }

  /** The group of bytes that the j-th byte is in, its place there, and the text around it. */
  lemma GroupOf(id: ConnID, j: nat) returns (before: Text, b: Text, after: Text, k: nat)
    requires j < 16
    ensures FormatID(id) == before + Hex(b) + after
    ensures k < |b| && b[k] == id[j] && |before| + 2 * k == 2 * j + DashesBefore(j)
  {
    var s := FormatID(id);
    if j < 4 {
      before, b, after, k := [], id[..4], s[8..], j;
    } else if j < 6 {
      before, b, after, k := s[..9], id[4..6], s[13..], j - 4;
    } else if j < 8 {
      before, b, after, k := s[..14], id[6..8], s[18..], j - 6;
    } else if j < 10 {
      before, b, after, k := s[..19], id[8..10], s[23..], j - 8;
    } else {
      before, b, after, k := s[..24], id[10..], [], j - 10;
    }
  }

  /** Dashes after four, six, eight and ten bytes, and each byte as two lower-case digits. */
  lemma FormatIDIs(id: ConnID, j: nat)
    requires j < 16
    ensures |FormatID(id)| == 36
    ensures FormatID(id)[8] == FormatID(id)[13] == FormatID(id)[18] == FormatID(id)[23] == '-'
    ensures
      var at := 2 * j + DashesBefore(j);
      && FormatID(id)[at] == "0123456789abcdef"[id[j] as int / 16]
      && FormatID(id)[at + 1] == "0123456789abcdef"[id[j] as int % 16]
  {
    FormatIDDashes(id);
    var before, b, after, k := GroupOf(id, j);
    GroupAt(FormatID(id), before, b, after, k);
  }

  const NOT_A_UUID: Text := "invalid UUID"

  /** The 36-character spelling; either case of hexadecimal digit is read. */
  function ParseID(s: Text): Result<ConnID> {
    if |s| != 36 || s[8] != '-' || s[13] != '-' || s[18] != '-' || s[23] != '-' then Err(NOT_A_UUID)
    else
      var hex := s[..8] + s[9..13] + s[14..18] + s[19..23] + s[24..];
      if forall c :: c in hex ==> IsHex(c) then Ok(Unhex(hex)) else Err(NOT_A_UUID)
  }

  lemma HexValueIs(n: nat)
    requires n < 16
    ensures IsHex("0123456789abcdef"[n]) && IsHex("0123456789ABCDEF"[n])
    ensures HexValue("0123456789abcdef"[n]) == HexValue("0123456789ABCDEF"[n]) == n
  {
  }

  lemma {:induction false} HexConcat(a: Text, b: Text)
    ensures Hex(a + b) == Hex(a) + Hex(b)
  {
    if a == [] {
      assert a + b == b;
    } else {
      HexConcat(a[1..], b);
      assert (a + b)[0] == a[0] && (a + b)[1..] == a[1..] + b;
      var first := [HexDigit(a[0] as int / 16), HexDigit(a[0] as int % 16)];
      assert Hex(a + b) == first + (Hex(a[1..]) + Hex(b)) == first + Hex(a[1..]) + Hex(b);
    }
  }

  lemma HexGroups(id: ConnID)
    ensures Hex(id[..4]) + Hex(id[4..6]) + Hex(id[6..8]) + Hex(id[8..10]) + Hex(id[10..]) == Hex(id)
  {
    HexConcat(id[..4], id[4..6]);
    HexConcat(id[..4] + id[4..6], id[6..8]);
    HexConcat(id[..4] + id[4..6] + id[6..8], id[8..10]);
    HexConcat(id[..4] + id[4..6] + id[6..8] + id[8..10], id[10..]);
    assert id[..4] + id[4..6] + id[6..8] + id[8..10] + id[10..] == id;
  }

  lemma ParseFormatID(id: ConnID)
    ensures ParseID(FormatID(id)) == Ok(id)
  {
    var s := FormatID(id);
    assert s[..8] == Hex(id[..4]) && s[9..13] == Hex(id[4..6]) && s[14..18] == Hex(id[6..8]);
    assert s[19..23] == Hex(id[8..10]) && s[24..] == Hex(id[10..]);
    HexGroups(id);
    UnhexHex(id);
  }

  lemma FormatIDPlain(id: ConnID)
    ensures Plain(FormatID(id)) && FormatID(id) != []
  {
  }
}

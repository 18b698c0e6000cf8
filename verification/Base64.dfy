/** Base64 with the standard alphabet and no padding, sections 3.2 and 4 of RFC 4648,
    as go-clarinet uses it for every free-text field it puts on the wire. */
module Base64 {
  import opened Types

  type Sextet = n: int | 0 <= n < 64

  function Digit(v: Sextet): Byte {
    if v < 26 then ByteOf('A' as int + v)
    else if v < 52 then ByteOf('a' as int + (v - 26))
    else if v < 62 then ByteOf('0' as int + (v - 52))
    else if v == 62 then '+'
    else '/'
  }

  predicate IsDigit(c: Byte) {
    'A' <= c <= 'Z' || 'a' <= c <= 'z' || '0' <= c <= '9' || c == '+' || c == '/'
  }

  function Value(c: Byte): Sextet
    requires IsDigit(c)
  {
    if 'A' <= c <= 'Z' then c as int - 'A' as int
    else if 'a' <= c <= 'z' then c as int - 'a' as int + 26
    else if '0' <= c <= '9' then c as int - '0' as int + 52
    else if c == '+' then 62
    else 63
  }

  predicate AllDigits(s: Text) {
    forall c :: c in s ==> IsDigit(c)
  }

  function Digits(v: seq<Sextet>): (s: Text)
    ensures |s| == |v|
    ensures forall i :: 0 <= i < |v| ==> s[i] == Digit(v[i])
  {
    seq(|v|, i requires 0 <= i < |v| => Digit(v[i]))
  }

  function Values(s: Text): (v: seq<Sextet>)
    requires AllDigits(s)
    ensures |v| == |s|
    ensures forall i :: 0 <= i < |v| ==> v[i] == Value(s[i])
  {
    seq(|s|, i requires 0 <= i < |s| => Value(s[i]))
  }

  lemma ValuesOfDigits(v: seq<Sextet>)
    ensures AllDigits(Digits(v)) && Values(Digits(v)) == v
  {
  }

  /** Three bytes as four six-bit values; a final group of one or two bytes as two or three. */
  function Sextets(b: Text): (v: seq<Sextet>)
    ensures |b| > 0 ==> |v| >= 2
    ensures |b| == 0 ==> |v| == 0
    ensures |v| % 4 != 1
  {
    if |b| == 0 then []
    else
      var x := b[0] as int;
      if |b| == 1 then [x / 4, x % 4 * 16]
      else
        var y := b[1] as int;
        if |b| == 2 then [x / 4, x % 4 * 16 + y / 16, y % 16 * 4]
        else
          var z := b[2] as int;
          [x / 4, x % 4 * 16 + y / 16, y % 16 * 4 + z / 64, z % 64] + Sextets(b[3..])
  }

  /** Bits beyond the last whole byte are dropped, as the non-strict decoder does. */
  function Octets(v: seq<Sextet>): Text
    requires |v| % 4 != 1
  {
    if |v| == 0 then []
    else
      var p: int, q: int := v[0], v[1];
      if |v| == 2 then [ByteOf(p * 4 + q / 16)]
      else
        var r: int := v[2];
        if |v| == 3 then [ByteOf(p * 4 + q / 16), ByteOf(q % 16 * 16 + r / 4)]
        else [ByteOf(p * 4 + q / 16), ByteOf(q % 16 * 16 + r / 4), ByteOf(r % 4 * 64 + v[3])] + Octets(v[4..])
  }

  lemma {:induction false} OctetsOfSextets(b: Text)
    ensures Octets(Sextets(b)) == b
  {
    if |b| >= 3 {
      var v := Sextets(b);
      OctetsOfSextets(b[3..]);
      assert v[4..] == Sextets(b[3..]);
      assert b == [b[0], b[1], b[2]] + b[3..];
    }
  }

  function Encode(b: Text): Text {
    Digits(Sextets(b))
  }

  // What the encoding is, section 4 of RFC 4648

  const ALPHABET := "ABCDEFGHIJKLMNOPQRSTUVWXYZ" + "abcdefghijklmnopqrstuvwxyz" + "0123456789" + "+/"

  predicate IsBit(n: int) {
    n == 0 || n == 1
  }

  /** The bits of a byte, most significant first. */
  function ByteBits(c: Byte): (bits: seq<int>)
    ensures |bits| == 8 && forall j :: 0 <= j < 8 ==> IsBit(bits[j])
  {
    var n := c as int;
    [n / 128, n / 64 % 2, n / 32 % 2, n / 16 % 2, n / 8 % 2, n / 4 % 2, n / 2 % 2, n % 2]
  }

  /** All bits of a text, in order. */
  function Bits(b: Text): (bits: seq<int>)
    ensures |bits| == 8 * |b| && forall j :: 0 <= j < |bits| ==> IsBit(bits[j])
  {
    if b == [] then [] else ByteBits(b[0]) + Bits(b[1..])
  }

  /** The k-th bit of a text; past its end there are only zeros. */
  function Bit(b: Text, k: nat): (bit: int)
    ensures IsBit(bit)
  {
    if k < 8 * |b| then Bits(b)[k] else 0
  }

  lemma BitLater(b: Text, k: nat)
    requires b != []
    ensures k < 8 ==> Bit(b, k) == ByteBits(b[0])[k]
    ensures Bit(b, 8 + k) == Bit(b[1..], k)
  {
  }

  lemma DigitIsLetter(v: Sextet)
    ensures |ALPHABET| == 64 && Digit(v) == ALPHABET[v]
  {
  }

  /** The number that six bits form. */
  function Six(b: Text, k: nat): (v: Sextet) {
    32 * Bit(b, k) + 16 * Bit(b, k + 1) + 8 * Bit(b, k + 2) + 4 * Bit(b, k + 3) + 2 * Bit(b, k + 4) + Bit(b, k + 5)
  }

  /** A number and its half: the last bit is what the half leaves. */
  lemma Halves(n: int)
    requires 0 <= n < 256
    ensures n / 2 / 2 == n / 4 && n / 4 / 2 == n / 8 && n / 8 / 2 == n / 16
    ensures n / 16 / 2 == n / 32 && n / 32 / 2 == n / 64 && n / 64 / 2 == n / 128 && 0 <= n / 128 < 2
  {
  }

  /** A byte cut after its sixth, fourth or second bit. */
  lemma ByteParts(c: Byte)
    ensures
      var n, bits := c as int, ByteBits(c);
      && n / 4 == 32 * bits[0] + 16 * bits[1] + 8 * bits[2] + 4 * bits[3] + 2 * bits[4] + bits[5]
      && n % 4 == 2 * bits[6] + bits[7]
      && n / 16 == 8 * bits[0] + 4 * bits[1] + 2 * bits[2] + bits[3]
      && n % 16 == 8 * bits[4] + 4 * bits[5] + 2 * bits[6] + bits[7]
      && n / 64 == 2 * bits[0] + bits[1]
      && n % 64 == 32 * bits[2] + 16 * bits[3] + 8 * bits[4] + 4 * bits[5] + 2 * bits[6] + bits[7]
  {
    Halves(c as int);
  }

  lemma FirstBits(b: Text)
    requires b != []
    ensures forall j: nat :: j < 8 ==> Bit(b, j) == ByteBits(b[0])[j]
    ensures forall j: nat :: 8 <= j < 16 ==> Bit(b, j) == if |b| > 1 then ByteBits(b[1])[j - 8] else 0
    ensures forall j: nat :: 16 <= j < 24 ==> Bit(b, j) == if |b| > 2 then ByteBits(b[2])[j - 16] else 0
  {
    if |b| > 1 {
      assert Bits(b) == ByteBits(b[0]) + (ByteBits(b[1]) + Bits(b[1..][1..]));
      if |b| > 2 {
        assert Bits(b[1..][1..]) == ByteBits(b[2]) + Bits(b[1..][1..][1..]);
      }
    }
  }

  lemma FirstSextet(b: Text)
    requires b != []
    ensures Sextets(b)[0] == Six(b, 0)
  {
    FirstBits(b);
    ByteParts(b[0]);
  }

  lemma SecondSextet(b: Text)
    requires b != []
    ensures Sextets(b)[1] == Six(b, 6)
  {
    FirstBits(b);
    ByteParts(b[0]);
    if |b| > 1 {
      ByteParts(b[1]);
    }
  }

  lemma ThirdSextet(b: Text)
    requires |b| > 1
    ensures Sextets(b)[2] == Six(b, 12)
  {
    FirstBits(b);
    ByteParts(b[1]);
    if |b| > 2 {
      ByteParts(b[2]);
    }
  }

  lemma FourthSextet(b: Text)
    requires |b| > 2
    ensures Sextets(b)[3] == Six(b, 18)
  {
    FirstBits(b);
    ByteParts(b[2]);
  }

  lemma SixLater(b: Text, k: nat)
    requires |b| >= 3
    ensures Six(b, 24 + k) == Six(b[3..], k)
  {
    assert b[1..][1..][1..] == b[3..];
    BitsLater(b, k);
    BitsLater(b, k + 1);
    BitsLater(b, k + 2);
    BitsLater(b, k + 3);
    BitsLater(b, k + 4);
    BitsLater(b, k + 5);
  }

  lemma BitsLater(b: Text, k: nat)
    requires |b| >= 3
    ensures Bit(b, 24 + k) == Bit(b[3..], k)
  {
    BitLater(b, 16 + k);
    BitLater(b[1..], 8 + k);
    BitLater(b[1..][1..], k);
    assert b[1..][1..][1..] == b[3..];
  }

  lemma {:induction false} SextetsAre(b: Text, i: nat)
    ensures |Sextets(b)| == (8 * |b| + 5) / 6
    ensures i < |Sextets(b)| ==> Sextets(b)[i] == Six(b, 6 * i)
  {
    if |b| >= 3 {
      SextetsAre(b[3..], if i >= 4 then i - 4 else 0);
    }
    if i < |Sextets(b)| {
      SextetIs(b, i);
    }
  }

  lemma SextetIs(b: Text, i: nat)
    requires i < |Sextets(b)|
    requires i >= 4 ==> Sextets(b[3..])[i - 4] == Six(b[3..], 6 * (i - 4))
    ensures Sextets(b)[i] == Six(b, 6 * i)
  {
    if i == 0 {
      FirstSextet(b);
    } else if i == 1 {
      SecondSextet(b);
    } else if i == 2 {
      ThirdSextet(b);
    } else if i == 3 {
      FourthSextet(b);
    } else {
      SixLater(b, 6 * (i - 4));
    }
  }

  /** One letter for each six bits begun, the last filled up with zeros: the letter at the number the bits form. */
  lemma EncodeIs(b: Text, i: nat)
    ensures |Encode(b)| == (8 * |b| + 5) / 6 && |ALPHABET| == 64
    ensures i < |Encode(b)| ==>
      Encode(b)[i] == ALPHABET[
        32 * Bit(b, 6 * i) + 16 * Bit(b, 6 * i + 1) + 8 * Bit(b, 6 * i + 2)
        + 4 * Bit(b, 6 * i + 3) + 2 * Bit(b, 6 * i + 4) + Bit(b, 6 * i + 5)]
  {
    SextetsAre(b, i);
    if i < |Encode(b)| {
      DigitIsLetter(Sextets(b)[i]);
    }
  }

  const CORRUPT: Text := "illegal base64 data"

  /** The decoder skips line breaks. */
  function Unbroken(s: Text): Text {
    if s == [] then []
    else if s[0] == '\n' || s[0] == '\r' then Unbroken(s[1..])
    else [s[0]] + Unbroken(s[1..])
  }

  function Decode(s: Text): Result<Text> {
    var t := Unbroken(s);
    if AllDigits(t) && |t| % 4 != 1 then Ok(Octets(Values(t))) else Err(CORRUPT)
  }

  lemma {:induction false} UnbrokenConcat(a: Text, b: Text)
    ensures Unbroken(a + b) == Unbroken(a) + Unbroken(b)
  {
    if a == [] {
      assert a + b == b;
    } else {
      UnbrokenConcat(a[1..], b);
      assert (a + b)[1..] == a[1..] + b;
    }
  }

  /** A line break changes nothing wherever it stands. */
  lemma BreaksAreSkipped(a: Text, br: Byte, b: Text)
    requires br == '\n' || br == '\r'
    ensures Decode(a + [br] + b) == Decode(a + b)
  {
    assert Unbroken([br]) == [];
    UnbrokenConcat(a, b);
    UnbrokenConcat(a, [br]);
    UnbrokenConcat(a + [br], b);
    assert Unbroken(a + [br] + b) == Unbroken(a + b);
  }

  lemma IsDigitExactly(c: Byte)
    ensures IsDigit(c) <==> c in ALPHABET
  {
    if IsDigit(c) {
      DigitIsLetter(Value(c));
      assert Digit(Value(c)) == c;
    } else if c in ALPHABET {
      var v: nat :| v < |ALPHABET| && ALPHABET[v] == c;
      DigitIsLetter(v);
    }
  }

  lemma {:induction false} UnbrokenHolds(s: Text, c: Byte)
    ensures c in Unbroken(s) <==> c in s && c != '\n' && c != '\r'
    ensures |Unbroken(s)| + multiset(s)['\n'] + multiset(s)['\r'] == |s|
  {
    if s != [] {
      UnbrokenHolds(s[1..], c);
      assert s == [s[0]] + s[1..];
    }
  }

  /** A text is refused exactly when it holds a byte that is neither a letter of the alphabet nor a line break, or its
      letters leave a single one over after the groups of four. */
  lemma DecodesExactly(s: Text)
    ensures Decode(s).Ok? <==>
      && (forall c :: c in s ==> c in ALPHABET || c == '\n' || c == '\r')
      && (|s| - multiset(s)['\n'] - multiset(s)['\r']) % 4 != 1
  {
    var t := Unbroken(s);
    UnbrokenHolds(s, 'A');
    forall c: Byte | c in s ensures c == '\n' || c == '\r' || (c in t && (IsDigit(c) <==> c in ALPHABET)) {
      UnbrokenHolds(s, c);
      IsDigitExactly(c);
    }
    forall c: Byte | c in t ensures c in s && c != '\n' && c != '\r' {
      UnbrokenHolds(s, c);
    }
  }

  lemma {:induction false} DigitsUnbroken(s: Text)
    requires AllDigits(s)
    ensures Unbroken(s) == s
  {
    if s != [] {
      assert IsDigit(s[0]);
      DigitsUnbroken(s[1..]);
      assert s == [s[0]] + s[1..];
    }
  }

  lemma RoundTrip(b: Text)
    ensures AllDigits(Encode(b))
    ensures Encode(b) == [] <==> b == []
    ensures Decode(Encode(b)) == Ok(b)
  {
    ValuesOfDigits(Sextets(b));
    OctetsOfSextets(b);
    DigitsUnbroken(Encode(b));
  }

  lemma Injective(a: Text, b: Text)
    requires Encode(a) == Encode(b)
    ensures a == b
  {
    RoundTrip(a);
    RoundTrip(b);
  }
}

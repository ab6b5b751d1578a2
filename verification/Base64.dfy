/**
 The base64 text `loadPreviewAudio` accepts, and the bytes `atob` decodes it to; with the encoder of section 4 of
 RFC 4648, by its table, which says what such a text stands for.
 */
module Base64 {
  import opened Bytes

  predicate IsDigit(c: char) {
    'A' <= c <= 'Z' || 'a' <= c <= 'z' || '0' <= c <= '9' || c == '+' || c == '/'
  }

  function Sextet(c: char): (v: nat)
    requires IsDigit(c)
    ensures v < 64
  {
    if 'A' <= c <= 'Z' then (c - 'A') as nat
    else if 'a' <= c <= 'z' then (c - 'a') as nat + 26
    else if '0' <= c <= '9' then (c - '0') as nat + 52
    else if c == '+' then 62 else 63
  }

  /** Whole groups of four digits, the last of which may be padded: the pattern at line 271. */
  predicate IsBase64(s: string)
    decreases |s|
  {
    if s == [] then true
    else if |s| < 4 then false
    else if |s| == 4 && IsDigit(s[0]) && IsDigit(s[1]) && s[3] == '=' then s[2] == '=' || IsDigit(s[2])
    else IsDigit(s[0]) && IsDigit(s[1]) && IsDigit(s[2]) && IsDigit(s[3]) && IsBase64(s[4..])
  }

  /** The three bytes of a group, each from six bits of two of its digits. */
  function HighBits(x: nat, y: nat): (v: nat)
    requires x < 64 && y < 64
    ensures v < 256
  {
    x * 4 + y / 16
  }

  function MiddleBits(y: nat, z: nat): (v: nat)
    requires y < 64 && z < 64
    ensures v < 256
  {
    y % 16 * 16 + z / 4
  }

  function LowBits(z: nat, w: nat): (v: nat)
    requires z < 64 && w < 64
    ensures v < 256
  {
    z % 4 * 64 + w
  }

  function High(a: char, b: char): byte
    requires IsDigit(a) && IsDigit(b)
  {
    ByteOf(HighBits(Sextet(a), Sextet(b)))
  }

  function Middle(b: char, c: char): byte
    requires IsDigit(b) && IsDigit(c)
  {
    ByteOf(MiddleBits(Sextet(b), Sextet(c)))
  }

  function Low(c: char, d: char): byte
    requires IsDigit(c) && IsDigit(d)
  {
    ByteOf(LowBits(Sextet(c), Sextet(d)))
  }

  function Decode(s: string): (bytes: seq<byte>)
    requires IsBase64(s)
    ensures |bytes| <= |s|
    decreases |s|
  {
    if s == [] then []
    else if s[2] == '=' then [High(s[0], s[1])]
    else if s[3] == '=' then [High(s[0], s[1]), Middle(s[1], s[2])]
    else [High(s[0], s[1]), Middle(s[1], s[2]), Low(s[2], s[3])] + Decode(s[4..])
  }

  // ----- the encoder -------------------------------------------------------------------------------

  const UPPER := "ABCDEFGHIJKLMNOPQRSTUVWXYZ"
  const LOWER := "abcdefghijklmnopqrstuvwxyz"
  const DIGITS := "0123456789"

  /** The digit for six bits: the alphabet, in order. */
  function Digit(v: nat): char
    requires v < 64
  {
    (UPPER + LOWER + DIGITS + "+/")[v]
  }

  /** Six bits a digit, the missing bits of the last group zero, and signs for what is missing of its digits. */
  function Encode(bytes: seq<byte>): string {
    if bytes == [] then ""
    else if |bytes| == 1 then Group(bytes[0], 0, 0)[..2] + "=="
    else if |bytes| == 2 then Group(bytes[0], bytes[1], 0)[..3] + "="
    else Group(bytes[0], bytes[1], bytes[2]) + Encode(bytes[3..])
  }

  function Group(a: byte, b: byte, c: byte): (s: string)
    ensures |s| == 4
  {
    var (x, y, z, w) := Sixes(a as nat, b as nat, c as nat);
    [Digit(x), Digit(y), Digit(z), Digit(w)]
  }

  lemma UpperIs(v: nat)
    requires v < 26
    ensures UPPER[v] as nat == 'A' as nat + v
  {
  }

  lemma LowerIs(v: nat)
    requires v < 26
    ensures LOWER[v] as nat == 'a' as nat + v
  {
  }

  lemma NumeralIs(v: nat)
    requires v < 10
    ensures DIGITS[v] as nat == '0' as nat + v
  {
  }

  /** The ranges of codes are the alphabet, in order. */
  lemma DigitIs(v: nat)
    requires v < 64
    ensures IsDigit(Digit(v)) && Sextet(Digit(v)) == v
  {
    assert |UPPER| == 26 && |LOWER| == 26 && |DIGITS| == 10;
    if v < 26 {
      UpperIs(v);
      assert Digit(v) == UPPER[v];
    } else if v < 52 {
      LowerIs(v - 26);
      assert Digit(v) == LOWER[v - 26];
    } else if v < 62 {
      NumeralIs(v - 52);
      assert Digit(v) == DIGITS[v - 52];
    }
  }

  /** The six bits of each digit of a group of bytes. */
  function Sixes(x: nat, y: nat, z: nat): (r: (nat, nat, nat, nat))
    requires x < 256 && y < 256 && z < 256
    ensures r.0 < 64 && r.1 < 64 && r.2 < 64 && r.3 < 64
  {
    (x / 4, x % 4 * 16 + y / 16, y % 16 * 4 + z / 64, z % 64)
  }

  lemma SixesHigh(x: nat, y: nat)
    requires x < 256 && y < 256
    ensures x / 4 < 64 && x % 4 * 16 + y / 16 < 64 && HighBits(x / 4, x % 4 * 16 + y / 16) == x
  {
  }

  lemma SixesMiddle(x: nat, y: nat, z: nat)
    requires x < 256 && y < 256 && z < 256
    ensures x % 4 * 16 + y / 16 < 64 && y % 16 * 4 + z / 64 < 64
    ensures MiddleBits(x % 4 * 16 + y / 16, y % 16 * 4 + z / 64) == y
  {
  }

  lemma SixesLow(y: nat, z: nat)
    requires y < 256 && z < 256
    ensures y % 16 * 4 + z / 64 < 64 && z % 64 < 64 && LowBits(y % 16 * 4 + z / 64, z % 64) == z
  {
  }

  lemma SixesBack(x: nat, y: nat, z: nat)
    requires x < 256 && y < 256 && z < 256
    ensures var r := Sixes(x, y, z);
      HighBits(r.0, r.1) == x && MiddleBits(r.1, r.2) == y && LowBits(r.2, r.3) == z
  {
    hide HighBits, MiddleBits, LowBits;
    SixesHigh(x, y);
    SixesMiddle(x, y, z);
    SixesLow(y, z);
  }

  lemma DigitsAgain(x: nat, y: nat, z: nat, w: nat, a: nat, b: nat, c: nat)
    requires x < 64 && y < 64 && z < 64 && w < 64 && a < 256 && b < 256 && c < 256
    requires HighBits(x, y) == a && MiddleBits(y, z) == b && LowBits(z, w) == c
    ensures IsDigit(Digit(x)) && IsDigit(Digit(y)) && IsDigit(Digit(z)) && IsDigit(Digit(w))
    ensures High(Digit(x), Digit(y)) == ByteOf(a)
    ensures Middle(Digit(y), Digit(z)) == ByteOf(b)
    ensures Low(Digit(z), Digit(w)) == ByteOf(c)
  {
    hide ByteOf, Digit, Sextet, IsDigit, HighBits, MiddleBits, LowBits;
    DigitIs(x);
    DigitIs(y);
    DigitIs(z);
    DigitIs(w);
  }

  /** Each byte of a group is put together again from its digits. */
  lemma GroupIs(a: byte, b: byte, c: byte)
    ensures var s := Group(a, b, c);
      && IsDigit(s[0]) && IsDigit(s[1]) && IsDigit(s[2]) && IsDigit(s[3])
      && High(s[0], s[1]) == a && Middle(s[1], s[2]) == b && Low(s[2], s[3]) == c
  {
    hide ByteOf, Digit, IsDigit, Sixes, High, Middle, Low, HighBits, MiddleBits, LowBits;
    var r := Sixes(a as nat, b as nat, c as nat);
    SixesBack(a as nat, b as nat, c as nat);
    DigitsAgain(r.0, r.1, r.2, r.3, a as nat, b as nat, c as nat);
    ByteOfNat(a);
    ByteOfNat(b);
    ByteOfNat(c);
  }

  lemma NoSign()
    ensures !IsDigit('=')
  {
  }

  /** Every byte string has a text, and the text stands for it. */
  lemma {:induction false} DecodeEncode(bytes: seq<byte>)
    ensures IsBase64(Encode(bytes)) && Decode(Encode(bytes)) == bytes
    ensures |Encode(bytes)| == (|bytes| + 2) / 3 * 4
  {
    hide IsDigit, Digit, Sixes, High, Middle, Low;
    if bytes != [] {
      var a := bytes[0];
      var b: byte := if |bytes| > 1 then bytes[1] else 0;
      var c: byte := if |bytes| > 2 then bytes[2] else 0;
      NoSign();
      GroupIs(a, b, c);
      if |bytes| > 2 {
        DecodeEncode(bytes[3..]);
        assert Encode(bytes)[4..] == Encode(bytes[3..]);
        assert bytes == [a, b, c] + bytes[3..];
      }
    }
  }

  lemma UpperHas(c: char)
    requires 'A' <= c <= 'Z'
    ensures UPPER[(c - 'A') as nat] == c
  {
    UpperIs((c - 'A') as nat);
  }

  lemma LowerHas(c: char)
    requires 'a' <= c <= 'z'
    ensures LOWER[(c - 'a') as nat] == c
  {
    LowerIs((c - 'a') as nat);
  }

  lemma NumeralHas(c: char)
    requires '0' <= c <= '9'
    ensures DIGITS[(c - '0') as nat] == c
  {
    NumeralIs((c - '0') as nat);
  }

  lemma SextetIs(c: char)
    requires IsDigit(c)
    ensures Digit(Sextet(c)) == c
  {
    var v := Sextet(c);
    assert |UPPER| == 26 && |LOWER| == 26 && |DIGITS| == 10;
    if 'A' <= c <= 'Z' {
      UpperHas(c);
      assert Digit(v) == UPPER[v];
    } else if 'a' <= c <= 'z' {
      LowerHas(c);
      assert Digit(v) == LOWER[v - 26];
    } else if '0' <= c <= '9' {
      NumeralHas(c);
      assert Digit(v) == DIGITS[v - 52];
    }
  }

  /** Six bits without the last two, or the last four, of them. */
  function WithoutTwo(v: nat): (r: nat)
    ensures r <= v
  {
    v / 4 * 4
  }

  function WithoutFour(v: nat): (r: nat)
    ensures r <= v
  {
    v / 16 * 16
  }

  /** Division undoes putting together. */
  lemma Parts(high: nat, low: nat, k: nat)
    requires k in {4, 16, 64} && low < k
    ensures (high * k + low) / k == high && (high * k + low) % k == low
  {
  }

  lemma DigitOfParts(x: nat, y: nat)
    requires x < 64 && y < 64
    ensures HighBits(x, y) / 4 == x && HighBits(x, y) % 4 == y / 16
  {
    Parts(x, y / 16, 4);
  }

  lemma DigitOfMiddle(y: nat, z: nat)
    requires y < 64 && z < 64
    ensures MiddleBits(y, z) / 16 == y % 16 && MiddleBits(y, z) % 16 == z / 4
  {
    Parts(y % 16, z / 4, 16);
  }

  lemma DigitOfLow(z: nat, w: nat)
    requires z < 64 && w < 64
    ensures LowBits(z, w) / 64 == z % 4 && LowBits(z, w) % 64 == w
  {
    Parts(z % 4, w, 64);
  }

  lemma SixesAgain(x: nat, y: nat, z: nat, w: nat)
    requires x < 64 && y < 64 && z < 64 && w < 64
    ensures Sixes(HighBits(x, y), MiddleBits(y, z), LowBits(z, w)) == (x, y, z, w)
    ensures Sixes(HighBits(x, y), MiddleBits(y, z), 0) == (x, y, WithoutTwo(z), 0)
    ensures Sixes(HighBits(x, y), 0, 0) == (x, WithoutFour(y), 0, 0)
  {
    hide HighBits, MiddleBits, LowBits;
    DigitOfParts(x, y);
    DigitOfMiddle(y, z);
    DigitOfLow(z, w);
  }

  lemma GroupOf(x: nat, y: nat, z: nat)
    requires x < 256 && y < 256 && z < 256
    ensures var r := Sixes(x, y, z);
      Group(ByteOf(x), ByteOf(y), ByteOf(z)) == [Digit(r.0), Digit(r.1), Digit(r.2), Digit(r.3)]
  {
    hide ByteOf, Digit, Sixes;
  }

  lemma ZeroByte()
    ensures ByteOf(0) == 0
  {
  }

  /** The digits of a group are found again from its bytes, but for the bits of a padded group that no byte has. */
  lemma GroupAgain(a: char, b: char, c: char, d: char)
    requires IsDigit(a) && IsDigit(b) && IsDigit(c) && IsDigit(d)
    ensures Group(High(a, b), Middle(b, c), Low(c, d)) == [a, b, c, d]
  {
    hide ByteOf, Sextet, Digit, IsDigit, Sixes, Group, HighBits, MiddleBits, LowBits, WithoutTwo, WithoutFour;
    var x, y, z, w := Sextet(a), Sextet(b), Sextet(c), Sextet(d);
    SextetIs(a);
    SextetIs(b);
    SextetIs(c);
    SextetIs(d);
    SixesAgain(x, y, z, w);
    GroupOf(HighBits(x, y), MiddleBits(y, z), LowBits(z, w));
  }

  lemma ThreeAgain(a: char, b: char, c: char)
    requires IsDigit(a) && IsDigit(b) && IsDigit(c)
    ensures Group(High(a, b), Middle(b, c), 0)[..3] == [a, b, Digit(WithoutTwo(Sextet(c)))]
  {
    hide ByteOf, Sextet, Digit, IsDigit, Sixes, Group, HighBits, MiddleBits, LowBits, WithoutTwo, WithoutFour;
    var x, y, z := Sextet(a), Sextet(b), Sextet(c);
    SextetIs(a);
    SextetIs(b);
    SixesAgain(x, y, z, 0);
    ZeroByte();
    GroupOf(HighBits(x, y), MiddleBits(y, z), 0);
  }

  lemma TwoAgain(a: char, b: char)
    requires IsDigit(a) && IsDigit(b)
    ensures Group(High(a, b), 0, 0)[..2] == [a, Digit(WithoutFour(Sextet(b)))]
  {
    hide ByteOf, Sextet, Digit, IsDigit, Sixes, Group, HighBits, MiddleBits, LowBits, WithoutTwo, WithoutFour;
    var x, y := Sextet(a), Sextet(b);
    SextetIs(a);
    SixesAgain(x, y, 0, 0);
    ZeroByte();
    GroupOf(HighBits(x, y), 0, 0);
  }

  /** The text with the bits that no byte has taken out of its last digit. */
  function Trimmed(s: string): string
    requires IsBase64(s)
    decreases |s|
  {
    if s == [] then s
    else if s[2] == '=' then [s[0], Digit(WithoutFour(Sextet(s[1]))), '=', '=']
    else if s[3] == '=' then [s[0], s[1], Digit(WithoutTwo(Sextet(s[2]))), '=']
    else s[..4] + Trimmed(s[4..])
  }

  /** Every text that is accepted is the text of its bytes, but for those bits. */
  lemma {:induction false} EncodeDecode(s: string)
    requires IsBase64(s)
    ensures Encode(Decode(s)) == Trimmed(s)
    decreases |s|
  {
    hide Digit, Group, High, Middle, Low, Sextet;
    if s != [] {
      NoSign();
      hide IsDigit;
      if s[2] == '=' {
        TwoAgain(s[0], s[1]);
      } else if s[3] == '=' {
        ThreeAgain(s[0], s[1], s[2]);
      } else {
        GroupAgain(s[0], s[1], s[2], s[3]);
        EncodeDecode(s[4..]);
        assert Decode(s)[3..] == Decode(s[4..]);
        assert s[..4] == [s[0], s[1], s[2], s[3]];
      }
    }
  }

  lemma {:induction false} TrimmedLength(s: string)
    requires IsBase64(s)
    ensures |Trimmed(s)| == |s|
    decreases |s|
  {
    NoSign();
    hide IsDigit, Digit, Sextet;
    if s != [] && s[2] != '=' && s[3] != '=' {
      TrimmedLength(s[4..]);
    }
  }
}

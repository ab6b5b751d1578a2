/**
 The page checksum of `preview-audio.ts`: a table of 256 words, and a loop that folds a page through
 it with bytes 22 to 25 read as zero. The lemmas show that it is the remainder of schoolbook long
 division over GF(2) by the polynomial 0x04c11db7 of section 6 of RFC 3533, and that it does not
 depend on the four bytes it is later stored in.
 */
module Crc {
  import opened Bytes

  const POLYNOMIAL: bv32 := 0x04c11db7

  function Xor(a: bv32, b: bv32): bv32 { a ^ b }

  predicate Top(c: bv32) { c & 0x80000000 != 0 }

  /** One bit of the register: shift left, and reduce when the bit shifted out was set. */
  function Shift(c: bv32): bv32 {
    if Top(c) then Xor(c << 1, POLYNOMIAL) else c << 1
  }

  function ShiftN(c: bv32, n: nat): bv32
    decreases n
  {
    if n == 0 then c else ShiftN(Shift(c), n - 1)
  }

  /** The table entry of a byte. */
  function Entry(b: byte): bv32 { ShiftN((b as bv32) << 24, 8) }

  ghost predicate IsCrcTable(table: array<bv32>)
    reads table
  {
    && table.Length == 256
    && forall i :: 0 <= i < 256 ==> table[i] == Entry(ByteOf(i))
  }

  method CrcTableEntry(b: byte) returns (crc: bv32)
    ensures crc == Entry(b)
  {
    hide Xor;
    crc := (b as bv32) << 24;
    for bit := 0 to 8
      invariant ShiftN(crc, 8 - bit) == Entry(b)
    {
      crc := if Top(crc) then Xor(crc << 1, POLYNOMIAL) else crc << 1;
    }
  }

  method BuildCrcTable() returns (table: array<bv32>)
    ensures IsCrcTable(table) && fresh(table)
  {
    hide Entry;
    table := new bv32[256];
    for i := 0 to 256
      invariant forall j :: 0 <= j < i ==> table[j] == Entry(ByteOf(j))
    {
      var crc := CrcTableEntry(ByteOf(i));
      table[i] := crc;
    }
  }

  // ----- the checksum of a page ---------------------------------------------

  /** Byte `i` of a page as the checksum sees it. */
  function Masked(page: seq<byte>, i: nat): byte
    requires i < |page|
  {
    if 22 <= i < 26 then 0 else page[i]
  }

  function TableStep(crc: bv32, b: byte): bv32 {
    Xor(crc << 8, Entry(Index(crc, b)))
  }

  function Index(crc: bv32, b: byte): byte {
    (Xor(crc >> 24, b as bv32) & 255) as byte
  }

  lemma TableStepIs(crc: bv32, b: byte)
    ensures TableStep(crc, b) == Xor(crc << 8, Entry(Index(crc, b)))
  {
    hide Xor, Entry, Index;
  }

  /** The checksum of the first `n` bytes of a page. */
  function ChecksumPrefix(page: seq<byte>, n: nat): bv32
    requires n <= |page|
  {
    if n == 0 then 0 else TableStep(ChecksumPrefix(page, n - 1), Masked(page, n - 1))
  }

  function Checksum(page: seq<byte>): bv32 { ChecksumPrefix(page, |page|) }

  method PageChecksum(table: array<bv32>, page: seq<byte>) returns (crc: bv32)
    requires IsCrcTable(table)
    ensures crc == Checksum(page)
  {
    hide Xor, Entry, ByteOf, Index, TableStep;
    crc := 0;
    for offset := 0 to |page|
      invariant crc == ChecksumPrefix(page, offset)
    {
      var value := if 22 <= offset < 26 then 0 else page[offset];
      var index := Index(crc, value);
      ByteOfNat(index);
      TableStepIs(crc, value);
      crc := Xor(crc << 8, table[index as int]);
    }
  }

  /** Writing the checksum into a page leaves its checksum as it was. */
  lemma {:induction false} ChecksumIgnoresItsField(a: seq<byte>, b: seq<byte>, n: nat)
    requires n <= |a| && n <= |b|
    requires forall i :: 0 <= i < n && !(22 <= i < 26) ==> a[i] == b[i]
    ensures ChecksumPrefix(a, n) == ChecksumPrefix(b, n)
  {
    hide TableStep;
    if n > 0 {
      ChecksumIgnoresItsField(a, b, n - 1);
      assert Masked(a, n - 1) == Masked(b, n - 1);
    }
  }

  // ----- long division ------------------------------------------------------

  function Bit(isOne: bool): bv32 { if isOne then 1 else 0 }

  /** Long division of a bit string by the polynomial, keeping the 32-bit remainder. */
  function Divide(remainder: bv32, bits: seq<bool>): bv32
    decreases |bits|
  {
    if bits == [] then remainder
    else Divide(Xor(Shift(remainder), Bit(bits[0])), bits[1..])
  }

  /** Bit `k` of a byte, counted from the most significant. */
  function BitAt(b: byte, k: nat): bool {
    if k == 0 then b & 128 != 0 else if k == 1 then b & 64 != 0
    else if k == 2 then b & 32 != 0 else if k == 3 then b & 16 != 0
    else if k == 4 then b & 8 != 0 else if k == 5 then b & 4 != 0
    else if k == 6 then b & 2 != 0 else b & 1 != 0
  }

  function Bits(b: byte): seq<bool> { seq(8, k requires 0 <= k => BitAt(b, k)) }

  function Message(page: seq<byte>, n: nat): seq<bool>
    requires n <= |page|
  {
    if n == 0 then [] else Message(page, n - 1) + Bits(Masked(page, n - 1))
  }

  function Zeros(n: nat): seq<bool> { seq(n, _ => false) }

  // Facts about 32-bit words, each kept away from the others so that the solver sees one at a time.

  lemma XorIs(a: bv32, b: bv32)
    ensures Xor(a, b) == a ^ b
  {
  }

  lemma ShlXorBv(a: bv32, b: bv32)
    ensures (a ^ b) << 1 == (a << 1) ^ (b << 1)
  {
  }

  lemma XorCancelBv(x: bv32, y: bv32, p: bv32)
    ensures (x ^ p) ^ (y ^ p) == x ^ y
  {
  }

  lemma XorAssocBv(x: bv32, y: bv32, z: bv32)
    ensures (x ^ y) ^ z == x ^ (y ^ z)
  {
  }

  lemma ShlXor(a: bv32, b: bv32)
    ensures Xor(a, b) << 1 == Xor(a << 1, b << 1)
  {
    hide Xor;
    ShlXorBv(a, b);
    XorIs(a, b);
    XorIs(a << 1, b << 1);
  }

  lemma TopXor(a: bv32, b: bv32)
    ensures Top(Xor(a, b)) == (Top(a) != Top(b))
  {
  }

  lemma XorCancel(x: bv32, y: bv32, p: bv32)
    ensures Xor(Xor(x, p), Xor(y, p)) == Xor(x, y)
  {
    hide Xor;
    calc {
      Xor(Xor(x, p), Xor(y, p));
    == { XorIs(x, p); XorIs(y, p); XorIs(x ^ p, y ^ p); }
      (x ^ p) ^ (y ^ p);
    == { XorCancelBv(x, y, p); }
      x ^ y;
    == { XorIs(x, y); }
      Xor(x, y);
    }
  }

  lemma XorAssoc(x: bv32, y: bv32, z: bv32)
    ensures Xor(Xor(x, y), z) == Xor(x, Xor(y, z))
  {
    hide Xor;
    calc {
      Xor(Xor(x, y), z);
    == { XorIs(x, y); XorIs(x ^ y, z); }
      (x ^ y) ^ z;
    == { XorAssocBv(x, y, z); }
      x ^ (y ^ z);
    == { XorIs(y, z); XorIs(x, y ^ z); }
      Xor(x, Xor(y, z));
    }
  }

  lemma XorSwap(x: bv32, y: bv32)
    ensures Xor(x, y) == Xor(y, x)
  {
  }

  lemma ShiftXor(a: bv32, b: bv32)
    ensures Shift(Xor(a, b)) == Xor(Shift(a), Shift(b))
  {
    hide Xor, Top;
    ShlXor(a, b);
    TopXor(a, b);
    XorCancel(a << 1, b << 1, POLYNOMIAL);
    XorAssoc(a << 1, b << 1, POLYNOMIAL);
    XorAssoc(a << 1, POLYNOMIAL, b << 1);
    XorSwap(b << 1, POLYNOMIAL);
  }

  /** The register is linear: this is what makes a byte-wise table possible at all. */
  lemma {:induction false} ShiftNXor(a: bv32, b: bv32, n: nat)
    ensures ShiftN(Xor(a, b), n) == Xor(ShiftN(a, n), ShiftN(b, n))
    decreases n
  {
    hide Xor, Shift;
    if n > 0 {
      ShiftXor(a, b);
      ShiftNXor(Shift(a), Shift(b), n - 1);
    }
  }

  lemma {:induction false} ShiftNAdd(c: bv32, m: nat, n: nat)
    ensures ShiftN(c, m + n) == ShiftN(ShiftN(c, m), n)
    decreases m
  {
    hide Shift;
    if m > 0 {
      ShiftNAdd(Shift(c), m - 1, n);
    }
  }

  /** A register whose top byte is zero passes through eight steps unreduced. */
  lemma ShiftLow(c: bv32)
    requires c & 0xff000000 == 0
    ensures ShiftN(c, 8) == c << 8
  {
    hide Xor;
    assert Shift(c) == c << 1;
    assert Shift(c << 1) == c << 2;
    assert Shift(c << 2) == c << 3;
    assert Shift(c << 3) == c << 4;
    assert Shift(c << 4) == c << 5;
    assert Shift(c << 5) == c << 6;
    assert Shift(c << 6) == c << 7;
    assert Shift(c << 7) == c << 8;
    assert ShiftN(c << 7, 1) == c << 8;
    assert ShiftN(c << 6, 2) == c << 8;
    assert ShiftN(c << 5, 3) == c << 8;
    assert ShiftN(c << 4, 4) == c << 8;
    assert ShiftN(c << 3, 5) == c << 8;
    assert ShiftN(c << 2, 6) == c << 8;
    assert ShiftN(c << 1, 7) == c << 8;
  }

  function High(crc: bv32): bv32 { (crc >> 24) << 24 }

  function Low(crc: bv32): bv32 { crc & 0x00ffffff }

  lemma WordParts(crc: bv32)
    ensures crc == Xor(High(crc), Low(crc))
    ensures Low(crc) & 0xff000000 == 0
    ensures Low(crc) << 8 == crc << 8
  {
  }

  lemma IndexBits(crc: bv32, b: byte)
    ensures (Index(crc, b) as bv32) << 24 == Xor(High(crc), (b as bv32) << 24)
  {
  }

  /** One table lookup is eight bit steps of the register with the byte added at its top. */
  lemma TableStepIsEightShifts(crc: bv32, b: byte)
    ensures TableStep(crc, b) == Xor(ShiftN(crc, 8), Entry(b))
  {
    hide Xor, ShiftN, Index, High, Low, TableStep;
    var hi, lo := High(crc), Low(crc);
    WordParts(crc);
    ShiftLow(lo);
    ShiftNXor(hi, lo, 8);
    IndexBits(crc, b);
    ShiftNXor(hi, (b as bv32) << 24, 8);
    XorAssoc(crc << 8, ShiftN(hi, 8), Entry(b));
    XorSwap(crc << 8, ShiftN(hi, 8));
    TableStepIs(crc, b);
  }

  lemma DivideNothing(remainder: bv32)
    ensures Divide(remainder, []) == remainder
  {
  }

  lemma {:induction false} DivideAppend(remainder: bv32, a: seq<bool>, b: seq<bool>)
    ensures Divide(remainder, a + b) == Divide(Divide(remainder, a), b)
    decreases |a|
  {
    hide Xor, Shift;
    if a == [] {
      assert a + b == b;
    } else {
      DivideAppend(Xor(Shift(remainder), Bit(a[0])), a[1..], b);
      assert (a + b)[1..] == a[1..] + b;
    }
  }

  lemma XorZero(a: bv32)
    ensures Xor(a, 0) == a
  {
  }

  /** Dividing on with zero bits runs the bare register. */
  lemma {:induction false} DivideZeros(remainder: bv32, n: nat)
    ensures Divide(remainder, Zeros(n)) == ShiftN(remainder, n)
    decreases n
  {
    hide Xor, Shift;
    if n > 0 {
      XorZero(Shift(remainder));
      DivideZeros(Shift(remainder), n - 1);
      assert Zeros(n)[1..] == Zeros(n - 1);
    }
  }

  /** Division is linear in the remainder carried in. */
  lemma {:induction false} DivideXor(a: bv32, b: bv32, bits: seq<bool>)
    ensures Divide(Xor(a, b), bits) == Xor(ShiftN(a, |bits|), Divide(b, bits))
    decreases |bits|
  {
    hide Xor, Shift;
    if bits != [] {
      var bit := Bit(bits[0]);
      calc {
        Divide(Xor(a, b), bits);
      ==
        Divide(Xor(Shift(Xor(a, b)), bit), bits[1..]);
      == { ShiftXor(a, b); }
        Divide(Xor(Xor(Shift(a), Shift(b)), bit), bits[1..]);
      == { XorAssoc(Shift(a), Shift(b), bit); }
        Divide(Xor(Shift(a), Xor(Shift(b), bit)), bits[1..]);
      == { DivideXor(Shift(a), Xor(Shift(b), bit), bits[1..]); }
        Xor(ShiftN(Shift(a), |bits| - 1), Divide(Xor(Shift(b), bit), bits[1..]));
      ==
        Xor(ShiftN(a, |bits|), Divide(b, bits));
      }
    }
  }

  /** The first `k` bits of a byte, as a number. */
  function Leading(b: byte, k: nat): bv32
    requires k <= 8
  {
    var w := b as bv32;
    if k == 0 then w >> 8 else if k == 1 then w >> 7 else if k == 2 then w >> 6
    else if k == 3 then w >> 5 else if k == 4 then w >> 4 else if k == 5 then w >> 3
    else if k == 6 then w >> 2 else if k == 7 then w >> 1 else w >> 0
  }

  lemma LeadingSmall(b: byte, k: nat)
    requires k <= 8
    ensures Leading(b, k) <= 255
  {
  }

  lemma NextBit(b: byte, k: nat)
    requires k < 8
    ensures Leading(b, k + 1) == (Leading(b, k) << 1) ^ Bit(BitAt(b, k))
  {
    if k == 0 {
    } else if k == 1 {
    } else if k == 2 {
    } else if k == 3 {
    } else if k == 4 {
    } else if k == 5 {
    } else if k == 6 {
    } else {
    }
  }

  lemma BitsLength(b: byte)
    ensures |Bits(b)| == 8 && Leading(b, 0) == 0 && Leading(b, 8) == b as bv32
  {
  }

  lemma SmallStep(r: bv32, bit: bv32)
    requires r <= 255
    ensures Xor(Shift(r), bit) == (r << 1) ^ bit
  {
  }

  lemma DivideOneBit(r: bv32, bits: seq<bool>, next: bv32)
    requires r <= 255 && bits != []
    requires next == (r << 1) ^ Bit(bits[0])
    ensures Divide(r, bits) == Divide(next, bits[1..])
  {
    hide Xor, Shift;
    SmallStep(r, Bit(bits[0]));
  }

  lemma {:induction false} DivideBits(b: byte, k: nat)
    requires k <= 8 && |Bits(b)| == 8
    ensures Divide(Leading(b, k), Bits(b)[k..]) == Leading(b, 8)
    decreases 8 - k
  {
    hide Xor, Shift, Bit, BitAt, Leading;
    if k < 8 {
      LeadingSmall(b, k);
      NextBit(b, k);
      DivideOneBit(Leading(b, k), Bits(b)[k..], Leading(b, k + 1));
      assert Bits(b)[k..][1..] == Bits(b)[k + 1..];
      DivideBits(b, k + 1);
    }
  }

  lemma DivideByte(b: byte)
    ensures Divide(0, Bits(b)) == b as bv32
  {
    hide Xor, Shift, BitAt, Divide, Leading;
    BitsLength(b);
    DivideBits(b, 0);
    assert Bits(b)[0..] == Bits(b);
  }

  /** Thirty-two zero bits after a byte leave its table entry. */
  lemma ByteRemainder(b: byte)
    ensures ShiftN(b as bv32, 32) == Entry(b)
  {
    hide Shift, Xor;
    var w := b as bv32;
    ShiftLow(w);
    ShiftLow(w << 8);
    ShiftLow(w << 16);
    ShiftNAdd(w, 8, 24);
    ShiftNAdd(w << 8, 8, 16);
    ShiftNAdd(w << 16, 8, 8);
  }

  lemma {:induction false} ChecksumIsRemainderPrefix(page: seq<byte>, n: nat)
    requires n <= |page|
    ensures ChecksumPrefix(page, n) == ShiftN(Divide(0, Message(page, n)), 32)
  {
    hide Xor, Shift, ShiftN, Entry, TableStep, Bits, Divide, Masked;
    if n == 0 {
      DivideNothing(0);
      ZeroRegister(32);
    } else {
      var b := Masked(page, n - 1);
      var a := Divide(0, Message(page, n - 1));
      ChecksumIsRemainderPrefix(page, n - 1);
      calc {
        ChecksumPrefix(page, n);
      ==
        TableStep(ShiftN(a, 32), b);
      == { TableStepIsEightShifts(ShiftN(a, 32), b); }
        Xor(ShiftN(ShiftN(a, 32), 8), Entry(b));
      == { ShiftNAdd(a, 32, 8); ShiftNAdd(a, 8, 32); ByteRemainder(b); }
        Xor(ShiftN(ShiftN(a, 8), 32), ShiftN(b as bv32, 32));
      == { ShiftNXor(ShiftN(a, 8), b as bv32, 32); }
        ShiftN(Xor(ShiftN(a, 8), b as bv32), 32);
      == { XorZero(a); DivideXor(a, 0, Bits(b)); DivideByte(b); BitsLength(b); }
        ShiftN(Divide(a, Bits(b)), 32);
      == { DivideAppend(0, Message(page, n - 1), Bits(b)); }
        ShiftN(Divide(0, Message(page, n)), 32);
      }
    }
  }

  lemma {:induction false} ZeroRegister(n: nat)
    ensures ShiftN(0, n) == 0
    decreases n
  {
    if n > 0 {
      ZeroRegister(n - 1);
    }
  }

  /** Main result: the page checksum is the remainder of the page's bits followed by 32 zero bits. */
  lemma ChecksumIsRemainder(page: seq<byte>)
    ensures Checksum(page) == Divide(0, Message(page, |page|) + Zeros(32))
  {
    hide Xor, Shift;
    ChecksumIsRemainderPrefix(page, |page|);
    DivideAppend(0, Message(page, |page|), Zeros(32));
    DivideZeros(Divide(0, Message(page, |page|)), 32);
  }
}

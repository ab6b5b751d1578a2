/**
 Ogg pages, section 6 of RFC 3533: the 27-byte header, the lacing table and the body, as bytes and as
 values. `ParsePage` is the structural half of the checks `validateOggOpus` makes on a page.
 */
module OggPage {
  import opened Wrappers
  import opened Bytes
  import Crc

  /** What a page says, apart from its checksum, which the rest of it determines. */
  datatype Page = Page(
    flags: byte,
    granule: nat,
    serial: nat,
    sequence: nat,
    lacing: seq<byte>,
    body: seq<byte>
  )

  const MAGIC: seq<byte> := [0x4f, 0x67, 0x67, 0x53] // "OggS"
  const NO_GRANULE: nat := 0xffff_ffff_ffff_ffff

  lemma MagicIs()
    ensures Ascii("OggS") == MAGIC
  {
    AsciiIs("OggS", MAGIC);
  }

  predicate Valid(p: Page) {
    && p.granule < Pow256(8)
    && p.serial < Pow256(4)
    && p.sequence < Pow256(4)
    && |p.lacing| < 256
    && |p.body| == Sum(p.lacing)
  }

  predicate AllValid(ps: seq<Page>) {
    forall i :: 0 <= i < |ps| ==> Valid(ps[i])
  }

  function Length(p: Page): nat { 27 + |p.lacing| + |p.body| }

  /** The bytes of a page around a given checksum field. */
  function Framed(p: Page, checksum: seq<byte>): (s: seq<byte>)
    requires |p.lacing| < 256 && |checksum| == 4
    ensures |s| == Length(p)
  {
    MAGIC + [0, p.flags] + ToLe(p.granule, 8) + ToLe(p.serial, 4) + ToLe(p.sequence, 4)
    + checksum + [ByteOf(|p.lacing|)] + p.lacing + p.body
  }

  function Octet(c: bv32, shift: bv32): byte
    requires shift <= 24
  {
    ((c >> shift) & 255) as byte
  }

  function Word(a: byte, b: byte, c: byte, d: byte): bv32 {
    (a as bv32) | ((b as bv32) << 8) | ((c as bv32) << 16) | ((d as bv32) << 24)
  }

  /** The little-endian bytes of a checksum, as `setUint32` writes it. */
  function ChecksumBytes(c: bv32): (s: seq<byte>)
    ensures |s| == 4
  {
    [Octet(c, 0), Octet(c, 8), Octet(c, 16), Octet(c, 24)]
  }

  function ReadChecksum(s: seq<byte>): bv32
    requires |s| == 4
  {
    Word(s[0], s[1], s[2], s[3])
  }

  lemma WordOfOctets(c: bv32)
    ensures Word(Octet(c, 0), Octet(c, 8), Octet(c, 16), Octet(c, 24)) == c
  {
  }

  lemma OctetsOfWord(a: byte, b: byte, c: byte, d: byte)
    ensures var w := Word(a, b, c, d);
      Octet(w, 0) == a && Octet(w, 8) == b && Octet(w, 16) == c && Octet(w, 24) == d
  {
  }

  lemma ChecksumRoundTrip(c: bv32)
    ensures ReadChecksum(ChecksumBytes(c)) == c
  {
    hide Word, Octet;
    WordOfOctets(c);
  }

  lemma ChecksumFieldRoundTrip(s: seq<byte>)
    requires |s| == 4
    ensures ChecksumBytes(ReadChecksum(s)) == s
  {
    hide Word, Octet;
    OctetsOfWord(s[0], s[1], s[2], s[3]);
    assert s == [s[0], s[1], s[2], s[3]];
  }

  /** A whole page with its checksum in place. */
  function Encode(p: Page): (s: seq<byte>)
    requires |p.lacing| < 256
    ensures |s| == Length(p)
  {
    Framed(p, ChecksumBytes(Crc.Checksum(Framed(p, [0, 0, 0, 0]))))
  }

  function EncodeAll(ps: seq<Page>): seq<byte>
    requires AllValid(ps)
  {
    if ps == [] then [] else Encode(ps[0]) + EncodeAll(ps[1..])
  }

  /** Where the fields of a page lie. */
  lemma FramedFields(p: Page, checksum: seq<byte>)
    requires |p.lacing| < 256 && |checksum| == 4
    ensures var s := Framed(p, checksum);
      && s[..4] == MAGIC && s[4] == 0 && s[5] == p.flags
      && s[6..14] == ToLe(p.granule, 8)
      && s[14..18] == ToLe(p.serial, 4)
      && s[18..22] == ToLe(p.sequence, 4)
      && s[22..26] == checksum
      && s[26] == ByteOf(|p.lacing|)
      && s[27..27 + |p.lacing|] == p.lacing
      && s[27 + |p.lacing|..] == p.body
  {
  }

  /** The page at the front of `t`, if there is one: structure and checksum only. */
  function ParsePage(t: seq<byte>): (r: Option<Page>)
    ensures r.Some? ==> Valid(r.value) && Length(r.value) <= |t|
  {
    if 27 > |t| || t[..4] != MAGIC || t[4] != 0 then None else
    var headerEnd := 27 + t[26] as nat;
    if headerEnd > |t| then None else
    var lacing := t[27..headerEnd];
    var pageEnd := headerEnd + Sum(lacing);
    if pageEnd > |t| then None else
    if Crc.Checksum(t[..pageEnd]) != ReadChecksum(t[22..26]) then None else
    Some(Page(t[5], FromLe(t[6..14]), FromLe(t[14..18]), FromLe(t[18..22]), lacing, t[headerEnd..pageEnd]))
  }

  /** A byte string that agrees with a page's fields is that page, framed. */
  lemma FramedFromFields(s: seq<byte>, p: Page)
    requires |p.lacing| < 256 && |s| == Length(p)
    requires s[..4] == MAGIC && s[4] == 0 && s[5] == p.flags
    requires s[6..14] == ToLe(p.granule, 8)
    requires s[14..18] == ToLe(p.serial, 4)
    requires s[18..22] == ToLe(p.sequence, 4)
    requires s[26] == ByteOf(|p.lacing|)
    requires s[27..27 + |p.lacing|] == p.lacing
    requires s[27 + |p.lacing|..] == p.body
    ensures s == Framed(p, s[22..26])
  {
    hide ToLe, ByteOf;
    var n := 27 + |p.lacing|;
    calc {
      s;
    ==
      s[..4] + [s[4], s[5]] + s[6..14] + s[14..18] + s[18..22] + s[22..26] + [s[26]] + s[27..n] + s[n..];
    ==
      Framed(p, s[22..26]);
    }
  }

  lemma FramedParts(p: Page, checksum: seq<byte>)
    requires |p.lacing| < 256 && |checksum| == 4
    ensures Framed(p, checksum)
      == (MAGIC + [0, p.flags] + ToLe(p.granule, 8) + ToLe(p.serial, 4) + ToLe(p.sequence, 4))
         + checksum + ([ByteOf(|p.lacing|)] + p.lacing + p.body)
  {
    hide ToLe, ByteOf;
  }

  lemma ChecksumOfFramed(p: Page, a: seq<byte>, b: seq<byte>)
    requires |p.lacing| < 256 && |a| == 4 && |b| == 4
    ensures Crc.Checksum(Framed(p, a)) == Crc.Checksum(Framed(p, b))
  {
    var head := MAGIC + [0, p.flags] + ToLe(p.granule, 8) + ToLe(p.serial, 4) + ToLe(p.sequence, 4);
    var tail := [ByteOf(|p.lacing|)] + p.lacing + p.body;
    FramedParts(p, a);
    FramedParts(p, b);
    var s, t := Framed(p, a), Framed(p, b);
    hide Framed, ToLe, ByteOf;
    forall i | 0 <= i < |s| && !(22 <= i < 26)
      ensures s[i] == t[i]
    {
    }
    Crc.ChecksumIgnoresItsField(s, t, |s|);
  }

  /** The fields of a page are the same read from the page or from the bytes it begins. */
  lemma FieldsOfPrefix(t: seq<byte>, lacingEnd: nat, n: nat)
    requires 27 <= lacingEnd <= n <= |t|
    ensures var u := t[..n];
      && u[..4] == t[..4] && u[6..14] == t[6..14] && u[14..18] == t[14..18]
      && u[18..22] == t[18..22] && u[22..26] == t[22..26]
      && u[27..lacingEnd] == t[27..lacingEnd] && u[lacingEnd..] == t[lacingEnd..n]
  {
    Window(t, 0, n, 0, 4);
    Window(t, 0, n, 6, 14);
    Window(t, 0, n, 14, 18);
    Window(t, 0, n, 18, 22);
    Window(t, 0, n, 22, 26);
    Window(t, 0, n, 27, lacingEnd);
    Window(t, 0, n, lacingEnd, n);
    assert t[0..n][lacingEnd..n] == t[..n][lacingEnd..];
  }

  /** Whatever parses is the encoding of what was parsed. */
  lemma ParsedIsEncoded(t: seq<byte>)
    requires ParsePage(t).Some?
    ensures var p := ParsePage(t).value; t[..Length(p)] == Encode(p)
  {
    hide Sum, ToLe, FromLe, ByteOf, Crc.Checksum, ReadChecksum, ChecksumBytes;
    var p := ParsePage(t).value;
    var n := Length(p);
    var u := t[..n];
    FieldsOfPrefix(t, 27 + |p.lacing|, n);
    ReadThenWrite(u[6..14]);
    ReadThenWrite(u[14..18]);
    ReadThenWrite(u[18..22]);
    ByteOfNat(u[26]);
    FramedFromFields(u, p);
    ChecksumFieldRoundTrip(u[22..26]);
    ChecksumOfFramed(p, u[22..26], [0, 0, 0, 0]);
  }

  /** What the parser reads from bytes that begin with an encoded page. */
  lemma EncodedFields(t: seq<byte>, p: Page)
    requires Valid(p) && Length(p) <= |t|
    requires t[..Length(p)] == Encode(p)
    ensures t[..4] == MAGIC && t[4] == 0 && t[5] == p.flags && t[26] as nat == |p.lacing|
    ensures FromLe(t[6..14]) == p.granule && FromLe(t[14..18]) == p.serial && FromLe(t[18..22]) == p.sequence
    ensures t[27..27 + |p.lacing|] == p.lacing && t[27 + |p.lacing|..Length(p)] == p.body
    ensures t[22..26] == ChecksumBytes(Crc.Checksum(Framed(p, [0, 0, 0, 0])))
  {
    hide Sum, ToLe, FromLe, ByteOf, Crc.Checksum, ReadChecksum, ChecksumBytes, Framed;
    var n := Length(p);
    var u := t[..n];
    FramedFields(p, ChecksumBytes(Crc.Checksum(Framed(p, [0, 0, 0, 0]))));
    FieldsOfPrefix(t, 27 + |p.lacing|, n);
    assert t[4] == u[4] && t[5] == u[5] && t[26] == u[26];
    WriteThenRead(p.granule, 8);
    WriteThenRead(p.serial, 4);
    WriteThenRead(p.sequence, 4);
  }

  /** Bytes that begin with an encoded page parse to that page. */
  lemma EncodedParses(t: seq<byte>, p: Page)
    requires Valid(p) && Length(p) <= |t|
    requires t[..Length(p)] == Encode(p)
    ensures ParsePage(t) == Some(p)
  {
    hide Sum, ToLe, FromLe, ByteOf, Crc.Checksum, ReadChecksum, ChecksumBytes, Framed;
    var checksum := Crc.Checksum(Framed(p, [0, 0, 0, 0]));
    EncodedFields(t, p);
    ChecksumRoundTrip(checksum);
    ChecksumOfFramed(p, ChecksumBytes(checksum), [0, 0, 0, 0]);
  }

  // ----- page sequences -----------------------------------------------------

  /** All pages from the front of the bytes to their end. */
  function ParseAll(t: seq<byte>): (r: Option<seq<Page>>)
    ensures r.Some? ==> AllValid(r.value)
    decreases |t|
  {
    if t == [] then Some([]) else
    match ParsePage(t)
    case None => None
    case Some(p) =>
      match ParseAll(t[Length(p)..])
      case None => None
      case Some(rest) => Some([p] + rest)
  }

  lemma {:induction false} ParsedAllIsEncoded(t: seq<byte>)
    requires ParseAll(t).Some?
    ensures t == EncodeAll(ParseAll(t).value)
    decreases |t|
  {
    hide ParsePage, Encode;
    if t != [] {
      var p := ParsePage(t).value;
      ParsedIsEncoded(t);
      ParsedAllIsEncoded(t[Length(p)..]);
      var rest := ParseAll(t[Length(p)..]).value;
      assert ([p] + rest)[1..] == rest;
      assert t == t[..Length(p)] + t[Length(p)..];
    }
  }

  lemma {:induction false} EncodedAllParses(ps: seq<Page>)
    requires AllValid(ps)
    ensures ParseAll(EncodeAll(ps)) == Some(ps)
    decreases |ps|
  {
    hide ParsePage, Encode;
    if ps != [] {
      var t, p := EncodeAll(ps), ps[0];
      assert t[..Length(p)] == Encode(p);
      assert t[Length(p)..] == EncodeAll(ps[1..]);
      EncodedParses(t, p);
      EncodedAllParses(ps[1..]);
      assert ps == [p] + ps[1..];
    }
  }

  /** Main result: page parsing and page encoding are inverse to each other on every byte string. */
  lemma ParseEncode(s: seq<byte>, ps: seq<Page>)
    requires AllValid(ps)
    ensures ParseAll(s) == Some(ps) <==> s == EncodeAll(ps)
  {
    if ParseAll(s) == Some(ps) {
      ParsedAllIsEncoded(s);
    }
    EncodedAllParses(ps);
  }

  lemma {:induction false} EncodeAllAppend(a: seq<Page>, b: seq<Page>)
    requires AllValid(a)
    requires AllValid(b)
    ensures AllValid(a + b) && EncodeAll(a + b) == EncodeAll(a) + EncodeAll(b)
  {
    hide Encode;
    if a == [] {
      assert a + b == b;
    } else {
      EncodeAllAppend(a[1..], b);
      assert (a + b)[1..] == a[1..] + b;
      assert Encode(a[0]) + (EncodeAll(a[1..]) + EncodeAll(b)) == (Encode(a[0]) + EncodeAll(a[1..])) + EncodeAll(b);
    }
  }
}

/**
 `appendOggOpusLink` and `loadPreviewAudio` of `preview-audio.ts`. The first copies the pages of a
 segment into the output buffer and patches each in place; the second checks the manifest, decodes
 each chunk and appends it as one link of a chained stream.
 */
module PreviewAudio {
  import opened Wrappers
  import opened Bytes
  import Crc
  import opened OggPage
  import opened OggStream
  import opened OggMeaning
  import opened OggRelink
  import opened OggValidator
  import Base64

  datatype Error =
    | NoAudio
    | TooManyChunks
    | BadManifest
    | TooLarge
    | ReadRejected
    | Unavailable
    | SizeMismatch
    | InvalidAudio
    | OutputMismatch

  // ----- patching a page in place ----------------------------------------------

  function Patch(s: seq<byte>, at: nat, field: seq<byte>): (r: seq<byte>)
    requires at + |field| <= |s|
    ensures |r| == |s|
  {
    s[..at] + field + s[at + |field|..]
  }

  /** A write of `field` into the buffer, as `set`, `fill` and `setUint32` make it. */
  method Store(buffer: array<byte>, at: nat, field: seq<byte>)
    requires at + |field| <= buffer.Length
    modifies buffer
    ensures buffer[..] == Patch(old(buffer[..]), at, field)
  {
    forall i | 0 <= i < |field| {
      buffer[at + i] := field[i];
    }
  }

  lemma PatchWithin(a: seq<byte>, s: seq<byte>, b: seq<byte>, at: nat, field: seq<byte>)
    requires at + |field| <= |s|
    ensures Patch(a + s + b, |a| + at, field) == a + Patch(s, at, field) + b
  {
  }

  lemma PatchMiddle(a: seq<byte>, f: seq<byte>, b: seq<byte>, g: seq<byte>)
    requires |f| == |g|
    ensures Patch(a + f + b, |a|, g) == a + g + b
  {
  }

  /** A page as the bytes before its serial, the serial, the sequence number, the checksum and the rest. */
  lemma FramedAround(p: Page, checksum: seq<byte>) returns (head: seq<byte>, tail: seq<byte>)
    requires |p.lacing| < 256 && |checksum| == 4
    ensures |head| == 14
    ensures forall serial, field: seq<byte> :: |field| == 4 ==>
      Framed(p.(serial := serial), field) == head + ToLe(serial, 4) + ToLe(p.sequence, 4) + field + tail
  {
    hide ToLe, ByteOf;
    head := MAGIC + [0, p.flags] + ToLe(p.granule, 8);
    tail := [ByteOf(|p.lacing|)] + p.lacing + p.body;
    forall serial, field: seq<byte> | |field| == 4
      ensures Framed(p.(serial := serial), field) == head + ToLe(serial, 4) + ToLe(p.sequence, 4) + field + tail
    {
      FramedParts(p.(serial := serial), field);
    }
  }

  /** Patching the serial number of a page. */
  lemma PatchedSerial(p: Page, checksum: seq<byte>, serial: nat)
    requires |p.lacing| < 256 && |checksum| == 4
    ensures Patch(Framed(p, checksum), 14, ToLe(serial, 4)) == Framed(p.(serial := serial), checksum)
  {
    var head, tail := FramedAround(p, checksum);
    hide ToLe, Framed, Patch;
    var f, g := ToLe(p.serial, 4), ToLe(serial, 4);
    var rest := ToLe(p.sequence, 4) + checksum + tail;
    assert p.(serial := p.serial) == p;
    PatchMiddle(head, f, rest, g);
    assert Framed(p, checksum) == head + f + rest;
    assert Framed(p.(serial := serial), checksum) == head + g + rest;
  }

  /** Patching the checksum field of a page. */
  lemma PatchedChecksum(p: Page, checksum: seq<byte>, field: seq<byte>)
    requires |p.lacing| < 256 && |checksum| == 4 && |field| == 4
    ensures Patch(Framed(p, checksum), 22, field) == Framed(p, field)
  {
    var head, tail := FramedAround(p, checksum);
    hide ToLe, Framed, Patch;
    assert p.(serial := p.serial) == p;
    PatchMiddle(head + ToLe(p.serial, 4) + ToLe(p.sequence, 4), checksum, tail, field);
  }

  lemma WindowOf(a: seq<byte>, s: seq<byte>, b: seq<byte>)
    ensures (a + s + b)[|a|..|a| + |s|] == s
  {
  }

  lemma RelinkedEncode(p: Page, serial: nat)
    requires Valid(p)
    ensures var q := p.(serial := serial);
      var blank := Framed(q, [0, 0, 0, 0]);
      && Patch(Patch(Encode(p), 14, ToLe(serial, 4)), 22, [0, 0, 0, 0]) == blank
      && Patch(blank, 22, ChecksumBytes(Crc.Checksum(blank))) == Encode(q)
  {
    var c := ChecksumBytes(Crc.Checksum(Framed(p, [0, 0, 0, 0])));
    var q := p.(serial := serial);
    PatchedSerial(p, c, serial);
    PatchedChecksum(q, c, [0, 0, 0, 0]);
    PatchedChecksum(q, [0, 0, 0, 0], ChecksumBytes(Crc.Checksum(Framed(q, [0, 0, 0, 0]))));
    hide Framed, Patch, ToLe, Crc.Checksum, ChecksumBytes;
  }

  /** Copy one page and give it its new serial and checksum. */
  method WritePage(table: array<bv32>, output: array<byte>, at: nat, page: seq<byte>, serial: nat, ghost p: Page)
    requires Crc.IsCrcTable(table)
    requires Valid(p) && page == Encode(p) && at + |page| <= output.Length
    modifies output
    ensures output[..] == old(output[..])[..at] + Encode(p.(serial := serial)) + old(output[..])[at + |page|..]
  {
    hide Encode, Framed, Patch, ToLe, Crc.Checksum, ChecksumBytes;
    ghost var a, b := output[..][..at], output[..][at + |page|..];
    assert output[..] == a + output[at..at + |page|] + b;
    PatchMiddle(a, output[at..at + |page|], b, page);
    RelinkedEncode(p, serial);
    Store(output, at, page);
    assert output[..] == a + page + b;
    PatchWithin(a, page, b, 14, ToLe(serial, 4));
    Store(output, at + 14, ToLe(serial, 4));
    ghost var renamed := Patch(page, 14, ToLe(serial, 4));
    assert output[..] == a + renamed + b;
    PatchWithin(a, renamed, b, 22, [0, 0, 0, 0]);
    Store(output, at + 22, [0, 0, 0, 0]);
    ghost var blank := Framed(p.(serial := serial), [0, 0, 0, 0]);
    assert output[..] == a + blank + b;
    WindowOf(a, blank, b);
    assert output[at..at + |page|] == output[..][at..at + |page|];
    var checksum := Crc.PageChecksum(table, output[at..at + |page|]);
    PatchWithin(a, blank, b, 22, ChecksumBytes(checksum));
    Store(output, at + 22, ChecksumBytes(checksum));
  }

  // ----- one link -----------------------------------------------------------------

  /** Where the next page of a stream ends, read from its own header. */
  lemma NextPage(t: seq<byte>, ps: seq<Page>)
    requires AllValid(ps) && t == EncodeAll(ps) && t != []
    ensures ps != [] && 27 <= Length(ps[0]) <= |t|
    ensures 27 + t[26] as nat <= Length(ps[0])
    ensures Length(ps[0]) == 27 + t[26] as nat + Sum(t[27..27 + t[26] as nat])
    ensures t[..Length(ps[0])] == Encode(ps[0]) && t[Length(ps[0])..] == EncodeAll(ps[1..])
  {
    hide Encode, FromLe, Sum;
    assert t[..Length(ps[0])] == Encode(ps[0]);
    EncodedFields(t, ps[0]);
  }

  lemma EncodeOneMore(qs: seq<Page>, k: nat)
    requires AllValid(qs) && k < |qs|
    ensures EncodeAll(qs[..k + 1]) == EncodeAll(qs[..k]) + Encode(qs[k])
  {
    hide Encode;
    EncodeAllAppend(qs[..k], [qs[k]]);
    assert qs[..k + 1] == qs[..k] + [qs[k]];
    assert EncodeAll([qs[k]]) == Encode(qs[k]) + EncodeAll([]);
  }

  lemma LacingFits(ps: seq<Page>, k: nat)
    requires AllValid(ps) && k < |ps|
    ensures |ps[k].lacing| < 256
  {
  }

  /** One turn of the copying loop, on values: the next page of the segment and of the link. */
  lemma PageStep(segment: seq<byte>, at: nat, ps: seq<Page>, serial: nat, k: nat)
    requires AllValid(ps) && AllValid(Relink(ps, serial)) && k <= |ps| && at < |segment|
    requires segment[at..] == EncodeAll(ps[k..])
    ensures k < |ps| && Valid(ps[k]) && Valid(ps[k].(serial := serial)) && |ps[k].lacing| < 256
    ensures var n := segment[at + 26] as nat;
      var pageEnd := at + Length(ps[k]);
      && at + 27 + n <= pageEnd <= |segment|
      && pageEnd == at + 27 + n + Sum(segment[at + 27..at + 27 + n])
      && segment[at..pageEnd] == Encode(ps[k])
      && segment[pageEnd..] == EncodeAll(ps[k + 1..])
      && EncodeAll(Relink(ps, serial)[..k + 1])
         == EncodeAll(Relink(ps, serial)[..k]) + Encode(ps[k].(serial := serial))
  {
    hide Encode, EncodeAll, Sum, Valid, Relink;
    var t := segment[at..];
    NextPage(t, ps[k..]);
    var n, size := t[26] as nat, Length(ps[k]);
    Tail(segment, at, 27, 27 + n);
    Tail(segment, at, 0, size);
    Tail(segment, at, size, size);
    assert t[..size] == t[0..size];
    assert ps[k..][1..] == ps[k + 1..];
    LacingFits(ps, k);
    EncodeOneMore(Relink(ps, serial), k);
  }

  /** The copying loop of `appendOggOpusLink`. */
  method CopyPages(
    table: array<bv32>, output: array<byte>, start: nat, segment: seq<byte>, outputSerial: nat, ghost ps: seq<Page>
  ) returns (fits: bool, end: nat)
    requires Crc.IsCrcTable(table)
    requires AllValid(ps) && AllValid(Relink(ps, outputSerial)) && segment == EncodeAll(ps)
    requires start <= output.Length
    modifies output
    ensures |output[..]| == |old(output[..])| && output[..][..start] == old(output[..])[..start]
    ensures fits <==> |segment| <= output.Length - start
    ensures fits ==> end == start + |segment|
    ensures fits ==> |EncodeAll(Relink(ps, outputSerial))| == |segment|
    ensures fits ==>
      output[..] == old(output[..])[..start] + EncodeAll(Relink(ps, outputSerial)) + old(output[..])[end..]
  {
    NothingEncoded();
    hide Encode, Sum, EncodeAll, Relink, Valid, Length, Crc.IsCrcTable;
    ghost var qs := Relink(ps, outputSerial);
    var inputOffset: nat, outputOffset: nat := 0, start;
    ghost var k, before := 0, output[..];
    assert segment[0..] == segment && ps[0..] == ps && qs[..0] == [];
    while inputOffset < |segment|
      invariant k <= |ps| && inputOffset <= |segment| && outputOffset == start + inputOffset <= output.Length
      invariant segment[inputOffset..] == EncodeAll(ps[k..])
      invariant |EncodeAll(qs[..k])| == inputOffset
      invariant output[..] == before[..start] + EncodeAll(qs[..k]) + before[outputOffset..]
      decreases |segment| - inputOffset
    {
      PageStep(segment, inputOffset, ps, outputSerial, k);
      var lacingCount := segment[inputOffset + 26] as nat;
      var headerEnd := inputOffset + 27 + lacingCount;
      var bodyBytes := Sum(segment[inputOffset + 27..headerEnd]);
      var pageEnd := headerEnd + bodyBytes;
      var pageLength := pageEnd - inputOffset;
      if pageLength > output.Length - outputOffset {
        return false, outputOffset;
      }
      WritePage(table, output, outputOffset, segment[inputOffset..pageEnd], outputSerial, ps[k]);
      Extended(before, start, EncodeAll(qs[..k]), Encode(ps[k].(serial := outputSerial)));
      inputOffset := pageEnd;
      outputOffset := outputOffset + pageLength;
      k := k + 1;
    }
    AllEncoded(ps[k..]);
    assert qs[..|ps|] == qs;
    return true, outputOffset;
  }

  /**
   Append a segment as one link under its own serial number. What is written is exactly `Link`, and the
   size guard inside the loop fires exactly when the whole link does not fit.
   */
  method AppendOggOpusLink(
    table: array<bv32>, output: array<byte>, start: nat, segment: seq<byte>, outputSerial: nat
  ) returns (r: Result<nat, Error>)
    requires Crc.IsCrcTable(table)
    requires start <= output.Length && outputSerial < Pow256(4)
    modifies output
    ensures |output[..]| == |old(output[..])| && output[..][..start] == old(output[..])[..start]
    ensures r == if !Accepts(segment) then Err(InvalidAudio)
                 else if |segment| > output.Length - start then Err(TooLarge)
                 else Ok(start + |segment|)
    ensures r.Ok? ==>
      output[..] == old(output[..])[..start] + Link(segment, outputSerial) + old(output[..])[start + |segment|..]
  {
    hide Accepts, WellFormed, EncodeAll, Pow256, Pages, Relink, Valid;
    var valid := ValidateOggOpus(table, segment);
    if !valid {
      return Err(InvalidAudio);
    }
    AcceptsIff(segment);
    RelinkValid(Pages(segment), outputSerial);
    var fits, end := CopyPages(table, output, start, segment, outputSerial, Pages(segment));
    r := if fits then Ok(end) else Err(TooLarge);
  }

  /** Writing a page after what was written leaves the buffer written one page further. */
  lemma Extended(before: seq<byte>, start: nat, written: seq<byte>, page: seq<byte>)
    requires start + |written| + |page| <= |before|
    ensures var at := start + |written|;
      var buffer := before[..start] + written + before[at..];
      buffer[..at] + page + buffer[at + |page|..] == before[..start] + (written + page) + before[at + |page|..]
  {
  }

  lemma NothingEncoded()
    ensures EncodeAll([]) == []
  {
  }

  lemma AllEncoded(ps: seq<Page>)
    requires AllValid(ps) && EncodeAll(ps) == []
    ensures ps == []
  {
    hide Encode;
  }

  // ----- the whole recording --------------------------------------------------------

  const MAX_PREVIEW_BYTES := 64 * 1024 * 1024
  const MAX_PREVIEW_CHUNKS := 120
  const MAX_SAFE_INTEGER := 0x1f_ffff_ffff_ffff

  datatype PreviewChunk = PreviewChunk(sequence: int, bytes: int)

  /** What reading a chunk yields: a rejected promise, no usable data, or data. */
  datatype Reply = Rejected | Absent | Data(base64: string, format: string)

  predicate IsSafeInteger(n: int) { -MAX_SAFE_INTEGER <= n <= MAX_SAFE_INTEGER }

  predicate ChunkOk(chunk: PreviewChunk, index: nat) {
    && IsSafeInteger(chunk.sequence)
    && chunk.sequence == index
    && IsSafeInteger(chunk.bytes)
    && 0 < chunk.bytes <= MAX_STREAM_BYTES
  }

  predicate ManifestOk(chunks: seq<PreviewChunk>) {
    forall i :: 0 <= i < |chunks| ==> ChunkOk(chunks[i], i)
  }

  /** The bytes the first `n` chunks announce. */
  function TotalBytes(chunks: seq<PreviewChunk>, n: nat): int
    requires n <= |chunks|
  {
    if n == 0 then 0 else TotalBytes(chunks, n - 1) + chunks[n - 1].bytes
  }

  lemma {:induction false} TotalBytesBounds(chunks: seq<PreviewChunk>, m: nat, n: nat)
    requires m <= n <= |chunks| && ManifestOk(chunks)
    ensures 0 <= TotalBytes(chunks, m) <= TotalBytes(chunks, n) <= n * MAX_STREAM_BYTES
  {
    if n > 0 {
      if m < n {
        TotalBytesBounds(chunks, m, n - 1);
      } else {
        TotalBytesBounds(chunks, m - 1, n - 1);
      }
    }
  }

  /** The checks on the manifest, entry by entry, and the total they establish. */
  method CheckManifest(chunks: seq<PreviewChunk>) returns (r: Result<nat, Error>)
    requires |chunks| <= MAX_PREVIEW_CHUNKS
    ensures r == if ManifestOk(chunks) then Ok(TotalBytes(chunks, |chunks|)) else Err(BadManifest)
  {
    var totalBytes: nat := 0;
    for index := 0 to |chunks|
      invariant forall i :: 0 <= i < index ==> ChunkOk(chunks[i], i)
      invariant totalBytes == TotalBytes(chunks, index)
    {
      var chunk := chunks[index];
      if !ChunkOk(chunk, index) {
        return Err(BadManifest);
      }
      totalBytes := totalBytes + chunk.bytes;
      // The size guard cannot fire: 120 chunks of at most 512 KiB stay below 64 MiB.
      TotalBytesOfPrefix(chunks, index + 1);
      if !IsSafeInteger(totalBytes) || totalBytes > MAX_PREVIEW_BYTES {
        return Err(TooLarge);
      }
    }
    r := Ok(totalBytes);
  }

  lemma {:induction false} TotalBytesOfPrefix(chunks: seq<PreviewChunk>, n: nat)
    requires n <= |chunks| && forall i :: 0 <= i < n ==> ChunkOk(chunks[i], i)
    ensures 0 <= TotalBytes(chunks, n) <= n * MAX_STREAM_BYTES
  {
    if n > 0 {
      TotalBytesOfPrefix(chunks, n - 1);
    }
  }

  function Base64Length(bytes: nat): nat { (bytes + 2) / 3 * 4 }

  /** The segment a reply holds, if it is what the manifest promised. */
  function Segment(reply: Reply, bytes: nat): Result<seq<byte>, Error> {
    match reply
    case Rejected => Err(ReadRejected)
    case Absent => Err(Unavailable)
    case Data(base64, format) =>
      if format != "ogg" then Err(Unavailable)
      else if |base64| != Base64Length(bytes) || !Base64.IsBase64(base64) then Err(SizeMismatch)
      else
        var binary := Base64.Decode(base64);
        if |binary| != bytes then Err(SizeMismatch) else Ok(binary)
  }

  /** Link number `index` of the recording, or why there is none. */
  function ChunkLink(chunk: PreviewChunk, index: nat, reply: Reply): Result<seq<byte>, Error>
    requires ChunkOk(chunk, index) && index < MAX_PREVIEW_CHUNKS
  {
    match Segment(reply, chunk.bytes)
    case Err(e) => Err(e)
    case Ok(segment) =>
      SerialFits(index);
      if Accepts(segment) then Ok(Link(segment, index + 1)) else Err(InvalidAudio)
  }

  lemma SerialFits(index: nat)
    requires index < MAX_PREVIEW_CHUNKS
    ensures index + 1 < Pow256(4)
  {
    assert Pow256(1) == 256 && Pow256(2) == 65536;
  }

  /** The first `n` links joined, or the first error. */
  function Links(chunks: seq<PreviewChunk>, readChunk: int -> Reply, n: nat): Result<seq<byte>, Error>
    requires n <= |chunks| <= MAX_PREVIEW_CHUNKS && ManifestOk(chunks)
  {
    if n == 0 then Ok([]) else
    match Links(chunks, readChunk, n - 1)
    case Err(e) => Err(e)
    case Ok(before) =>
      match ChunkLink(chunks[n - 1], n - 1, readChunk(chunks[n - 1].sequence))
      case Err(e) => Err(e)
      case Ok(link) => Ok(before + link)
  }

  function Recording(chunks: seq<PreviewChunk>, readChunk: int -> Reply): Result<seq<byte>, Error> {
    if |chunks| == 0 then Err(NoAudio)
    else if |chunks| > MAX_PREVIEW_CHUNKS then Err(TooManyChunks)
    else if !ManifestOk(chunks) then Err(BadManifest)
    else Links(chunks, readChunk, |chunks|)
  }

  lemma {:induction false} LinksStopAtError(chunks: seq<PreviewChunk>, readChunk: int -> Reply, m: nat, n: nat)
    requires m <= n <= |chunks| <= MAX_PREVIEW_CHUNKS && ManifestOk(chunks)
    requires Links(chunks, readChunk, m).Err?
    ensures Links(chunks, readChunk, n) == Links(chunks, readChunk, m)
  {
    hide ChunkLink;
    if m < n {
      LinksStopAtError(chunks, readChunk, m, n - 1);
    }
  }

  lemma LinkLength(chunk: PreviewChunk, index: nat, reply: Reply)
    requires ChunkOk(chunk, index) && index < MAX_PREVIEW_CHUNKS
    requires ChunkLink(chunk, index, reply).Ok?
    ensures |ChunkLink(chunk, index, reply).value| == chunk.bytes
  {
    hide Link, Accepts, Pow256, Packets, Relink, Pages;
    SerialFits(index);
    var segment := Segment(reply, chunk.bytes).value;
    RemuxIsAccepted(segment, index + 1);
  }

  /** Decode one chunk into a fresh buffer, byte by byte. */
  method ReadSegment(reply: Reply, bytes: nat) returns (r: Result<seq<byte>, Error>)
    ensures r == Segment(reply, bytes)
  {
    if reply.Rejected? {
      return Err(ReadRejected);
    }
    if reply.Absent? || reply.format != "ogg" {
      return Err(Unavailable);
    }
    if |reply.base64| != Base64Length(bytes) || !Base64.IsBase64(reply.base64) {
      return Err(SizeMismatch);
    }
    var binary := Base64.Decode(reply.base64);
    if |binary| != bytes {
      return Err(SizeMismatch);
    }
    var segment := new byte[|binary|];
    for index := 0 to |binary|
      invariant segment[..index] == binary[..index]
    {
      segment[index] := binary[index];
    }
    assert segment[..|binary|] == segment[..] && binary[..|binary|] == binary;
    r := Ok(segment[..]);
  }

  /** `loadPreviewAudio`: the recording as one chained stream, read one chunk at a time. */
  method LoadPreviewAudio(table: array<bv32>, chunks: seq<PreviewChunk>, readChunk: int -> Reply)
    returns (r: Result<array<byte>, Error>)
    requires Crc.IsCrcTable(table)
    ensures r.Err? ==> Recording(chunks, readChunk) == Err(r.error)
    ensures r.Ok? ==> fresh(r.value) && Recording(chunks, readChunk) == Ok(r.value[..])
    ensures r.Err? && 0 < |chunks| <= MAX_PREVIEW_CHUNKS && ManifestOk(chunks) ==>
      r.error != TooLarge && r.error != OutputMismatch
  {
    hide ChunkLink, Accepts, Link, Segment, Pow256;
    if |chunks| == 0 {
      return Err(NoAudio);
    }
    if |chunks| > MAX_PREVIEW_CHUNKS {
      return Err(TooManyChunks);
    }
    var total := CheckManifest(chunks);
    if total.Err? {
      return Err(total.error);
    }
    SizeGuardsNeverFire(chunks, readChunk, |chunks|);
    var output := new byte[total.value](_ => 0);
    var outputOffset: nat := 0;
    for i := 0 to |chunks|
      invariant outputOffset == TotalBytes(chunks, i) <= output.Length
      invariant Links(chunks, readChunk, i) == Ok(output[..][..outputOffset])
    {
      var chunk := chunks[i];
      var reply := readChunk(chunk.sequence);
      TotalBytesBounds(chunks, i + 1, |chunks|);
      ChunkLinkIs(chunk, i, reply);
      var segment := ReadSegment(reply, chunk.bytes);
      if segment.Err? {
        LinksStopAtError(chunks, readChunk, i + 1, |chunks|);
        return Err(segment.error);
      }
      SerialFits(i);
      var appended := AppendOggOpusLink(table, output, outputOffset, segment.value, chunk.sequence + 1);
      if appended.Err? {
        LinksStopAtError(chunks, readChunk, i + 1, |chunks|);
        return Err(appended.error);
      }
      outputOffset := appended.value;
    }
    // The final length check cannot fail.
    if outputOffset != total.value {
      return Err(OutputMismatch);
    }
    assert output[..][..outputOffset] == output[..];
    r := Ok(output);
  }

  lemma ChunkLinkIs(chunk: PreviewChunk, index: nat, reply: Reply)
    requires ChunkOk(chunk, index) && index < MAX_PREVIEW_CHUNKS
    ensures index + 1 < Pow256(4)
    ensures ChunkLink(chunk, index, reply) ==
      match Segment(reply, chunk.bytes)
      case Err(e) => Err(e)
      case Ok(segment) => if Accepts(segment) then Ok(Link(segment, index + 1)) else Err(InvalidAudio)
    ensures Segment(reply, chunk.bytes).Ok? ==> |Segment(reply, chunk.bytes).value| == chunk.bytes
    ensures ChunkLink(chunk, index, reply).Ok? ==> |ChunkLink(chunk, index, reply).value| == chunk.bytes
  {
    hide Accepts, Link, Pow256;
    SerialFits(index);
    if ChunkLink(chunk, index, reply).Ok? {
      LinkLength(chunk, index, reply);
    }
  }

  /** The guards for an oversized or wrongly sized output are never the reason a recording fails. */
  lemma {:induction false} SizeGuardsNeverFire(chunks: seq<PreviewChunk>, readChunk: int -> Reply, n: nat)
    requires n <= |chunks| <= MAX_PREVIEW_CHUNKS && ManifestOk(chunks)
    ensures Links(chunks, readChunk, n) != Err(TooLarge) && Links(chunks, readChunk, n) != Err(OutputMismatch)
    ensures Links(chunks, readChunk, n).Ok? ==> |Links(chunks, readChunk, n).value| == TotalBytes(chunks, n)
  {
    hide Accepts, Link, Pow256;
    if n > 0 {
      SizeGuardsNeverFire(chunks, readChunk, n - 1);
      var reply := readChunk(chunks[n - 1].sequence);
      ChunkLinkIs(chunks[n - 1], n - 1, reply);
      SegmentErrors(reply, chunks[n - 1].bytes);
      hide ChunkLink, Segment;
    }
  }

  lemma SegmentErrors(reply: Reply, bytes: nat)
    ensures Segment(reply, bytes) != Err(TooLarge) && Segment(reply, bytes) != Err(OutputMismatch)
  {
    hide Base64.IsBase64, Base64.Decode;
  }

  function Carried(reply: Reply, bytes: nat): seq<byte> {
    match Segment(reply, bytes) case Ok(segment) => segment case Err(_) => []
  }

  /** The segments the first `n` replies hold. */
  function Segments(chunks: seq<PreviewChunk>, readChunk: int -> Reply, n: nat): (segments: seq<seq<byte>>)
    requires n <= |chunks| <= MAX_PREVIEW_CHUNKS && ManifestOk(chunks)
    ensures |segments| == n
  {
    if n == 0 then []
    else Segments(chunks, readChunk, n - 1) + [Carried(readChunk(chunks[n - 1].sequence), chunks[n - 1].bytes)]
  }

  /** Segment `i` relinked under serial `i + 1`, for every segment. */
  function ChainedPages(segments: seq<seq<byte>>): seq<Page> {
    if segments == [] then []
    else ChainedPages(segments[..|segments| - 1]) + Relink(Pages(segments[|segments| - 1]), |segments|)
  }

  /** Link `i` of a recording: accepted, of the promised size, under serial `i + 1`, with its segment's packets. */
  ghost predicate LinkFaithful(segment: seq<byte>, i: nat, bytes: int) {
    && i + 1 < Pow256(4)
    && |segment| == bytes
    && Accepts(segment)
    && var link := Link(segment, i + 1);
    && |link| == bytes
    && Accepts(link)
    && Packets(Pages(link)) == Packets(Pages(segment))
    && forall k :: 0 <= k < |Pages(link)| ==> Pages(link)[k].serial == i + 1
  }

  lemma ChunkLinkFaithful(chunk: PreviewChunk, index: nat, reply: Reply)
    requires ChunkOk(chunk, index) && index < MAX_PREVIEW_CHUNKS && ChunkLink(chunk, index, reply).Ok?
    ensures Segment(reply, chunk.bytes).Ok? && LinkFaithful(Segment(reply, chunk.bytes).value, index, chunk.bytes)
    ensures ChunkLink(chunk, index, reply).value == Link(Segment(reply, chunk.bytes).value, index + 1)
  {
    hide Accepts, Pow256, Packets, Pages, Segment;
    ChunkLinkIs(chunk, index, reply);
    var segment := Segment(reply, chunk.bytes).value;
    RemuxIsAccepted(segment, index + 1);
    RelinkedSerials(segment, index + 1);
  }

  lemma RelinkedSerials(s: seq<byte>, serial: nat)
    ensures forall k :: 0 <= k < |Pages(s)| ==> Relink(Pages(s), serial)[k].serial == serial
  {
    hide Pages;
  }

  lemma ChainOneMore(before: seq<byte>, ps: seq<Page>, segment: seq<byte>, serial: nat)
    requires AllValid(ps) && ParseAll(before) == Some(ps) && serial < Pow256(4)
    ensures var qs := ps + Relink(Pages(segment), serial);
      AllValid(qs) && ParseAll(before + Link(segment, serial)) == Some(qs)
  {
    hide Pow256, ParseAll, EncodeAll, Relink, Pages, AllValid;
    var qs := Relink(Pages(segment), serial);
    RelinkValid(Pages(segment), serial);
    EncodeAllAppend(ps, qs);
    ParseEncode(before, ps);
    ParseEncode(before + Link(segment, serial), ps + qs);
  }

  /**
   Main result: a loaded recording is a chain of links (section 4 of RFC 3533). Its pages are the pages of
   the accepted segments, in order, those of segment `i` under serial `i + 1`; link by link it is accepted
   and carries the packets of its segment.
   */
  lemma {:induction false} RecordingIsChain(chunks: seq<PreviewChunk>, readChunk: int -> Reply, n: nat)
    requires n <= |chunks| <= MAX_PREVIEW_CHUNKS && ManifestOk(chunks) && Links(chunks, readChunk, n).Ok?
    ensures var out, segments := Links(chunks, readChunk, n).value, Segments(chunks, readChunk, n);
      && AllValid(ChainedPages(segments))
      && ParseAll(out) == Some(ChainedPages(segments))
      && |out| == TotalBytes(chunks, n)
      && forall i :: 0 <= i < n ==> LinkFaithful(segments[i], i, chunks[i].bytes)
  {
    hide ChunkLink, ParseAll, Relink, Pages, AllValid, LinkFaithful, Segment, Link, Pow256;
    SizeGuardsNeverFire(chunks, readChunk, n);
    NothingParsed();
    if n > 0 {
      RecordingIsChain(chunks, readChunk, n - 1);
      var before, earlier := Links(chunks, readChunk, n - 1).value, Segments(chunks, readChunk, n - 1);
      var reply := readChunk(chunks[n - 1].sequence);
      ChunkLinkFaithful(chunks[n - 1], n - 1, reply);
      SerialFits(n - 1);
      var segment := Segment(reply, chunks[n - 1].bytes).value;
      assert Segments(chunks, readChunk, n)[..n - 1] == earlier;
      ChainOneMore(before, ChainedPages(earlier), segment, n);
    }
  }

  lemma NothingParsed()
    ensures AllValid([]) && ParseAll([]) == Some([])
  {
  }

  // ----- from the texts of the segments to their chain ----------------------------------------------

  /** A reply holds a segment exactly when its text is the segment's, but for bits that no byte has. */
  lemma SegmentIff(reply: Reply, bytes: nat, segment: seq<byte>)
    ensures Segment(reply, bytes) == Ok(segment) <==>
      && reply.Data? && reply.format == "ogg" && |segment| == bytes
      && Base64.IsBase64(reply.base64) && Base64.Trimmed(reply.base64) == Base64.Encode(segment)
  {
    hide Base64.IsBase64, Base64.Decode, Base64.Encode, Base64.Trimmed;
    Base64.DecodeEncode(segment);
    if reply.Data? && Base64.IsBase64(reply.base64) {
      Base64.EncodeDecode(reply.base64);
      Base64.DecodeEncode(Base64.Decode(reply.base64));
      Base64.TrimmedLength(reply.base64);
    }
  }

  lemma SegmentOfText(segment: seq<byte>)
    ensures Segment(Data(Base64.Encode(segment), "ogg"), |segment|) == Ok(segment)
  {
    hide Base64.IsBase64, Base64.Decode, Base64.Encode;
    Base64.DecodeEncode(segment);
  }

  /** Every chunk's reply is the text of its segment, and every segment is accepted. */
  ghost predicate Captured(chunks: seq<PreviewChunk>, readChunk: int -> Reply, segments: seq<seq<byte>>) {
    |segments| == |chunks| && forall i :: 0 <= i < |chunks| ==>
      && Accepts(segments[i]) && chunks[i].bytes == |segments[i]|
      && readChunk(chunks[i].sequence) == Data(Base64.Encode(segments[i]), "ogg")
  }

  lemma {:induction false} LinksOfTexts(chunks: seq<PreviewChunk>, readChunk: int -> Reply, segments: seq<seq<byte>>, n: nat)
    requires n <= |chunks| <= MAX_PREVIEW_CHUNKS && ManifestOk(chunks) && Captured(chunks, readChunk, segments)
    ensures Links(chunks, readChunk, n).Ok? && Segments(chunks, readChunk, n) == segments[..n]
  {
    hide Accepts, Link, Segment, Pow256, Base64.Encode, ChunkLink;
    if n > 0 {
      LinksOfTexts(chunks, readChunk, segments, n - 1);
      var reply := readChunk(chunks[n - 1].sequence);
      SegmentOfText(segments[n - 1]);
      ChunkLinkIs(chunks[n - 1], n - 1, reply);
      assert segments[..n] == segments[..n - 1] + [segments[n - 1]];
    }
  }

  /**
   Main result for the loader: when the replies are the texts of accepted segments, of the sizes the manifest
   announces, the recording is loaded, and it is the chain of exactly those segments.
   */
  lemma CapturedIsLoaded(chunks: seq<PreviewChunk>, readChunk: int -> Reply, segments: seq<seq<byte>>)
    requires 0 < |chunks| <= MAX_PREVIEW_CHUNKS && ManifestOk(chunks) && Captured(chunks, readChunk, segments)
    ensures Recording(chunks, readChunk).Ok?
    ensures AllValid(ChainedPages(segments))
      && ParseAll(Recording(chunks, readChunk).value) == Some(ChainedPages(segments))
    ensures forall i :: 0 <= i < |segments| ==> LinkFaithful(segments[i], i, |segments[i]|)
  {
    hide Links, Segments, ParseAll, ChainedPages, LinkFaithful, AllValid;
    LinksOfTexts(chunks, readChunk, segments, |chunks|);
    RecordingIsChain(chunks, readChunk, |chunks|);
    assert segments[..|chunks|] == segments;
  }
}

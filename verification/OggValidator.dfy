/**
 `validateOggOpus` of `preview-audio.ts` with its loops and counters: pages outside, lacing values
 inside, and the fragments of an open packet carried from page to page.
 */
module OggValidator {
  import opened Wrappers
  import opened Bytes
  import Crc
  import opened OggPage
  import opened OpusPacket
  import opened OggStream

  lemma FlattenNone()
    ensures Flatten([]) == []
  {
  }

  lemma FlattenStep(fragments: seq<seq<byte>>, i: nat)
    requires i < |fragments|
    ensures Flatten(fragments[..i + 1]) == Flatten(fragments[..i]) + fragments[i]
    ensures |Flatten(fragments[..i + 1])| <= |Flatten(fragments)|
  {
    assert fragments[..i + 1] == fragments[..i] + [fragments[i]];
    FlattenAppend(fragments[..i], [fragments[i]]);
    assert Flatten([fragments[i]]) == fragments[i];
    assert fragments == fragments[..i + 1] + fragments[i + 1..];
    FlattenAppend(fragments[..i + 1], fragments[i + 1..]);
  }

  /** Join the fragments of a packet in a buffer of the right size. */
  method Assemble(fragments: seq<seq<byte>>, packetBytes: nat) returns (packet: seq<byte>)
    requires packetBytes == |Flatten(fragments)|
    ensures packet == Flatten(fragments)
  {
    hide Flatten;
    var buffer := new byte[packetBytes];
    var packetOffset := 0;
    FlattenNone();
    assert fragments[..0] == [];
    for i := 0 to |fragments|
      invariant packetOffset == |Flatten(fragments[..i])| <= buffer.Length
      invariant buffer[..packetOffset] == Flatten(fragments[..i])
    {
      var fragment := fragments[i];
      FlattenStep(fragments, i);
      forall j | 0 <= j < |fragment| {
        buffer[packetOffset + j] := fragment[j];
      }
      assert buffer[..packetOffset + |fragment|] == Flatten(fragments[..i]) + fragment;
      packetOffset := packetOffset + |fragment|;
    }
    assert fragments[..|fragments|] == fragments;
    packet := buffer[..];
  }

  /** The loop over the comments of an OpusTags packet. */
  method CommentsWithin(packet: seq<byte>, start: nat, comments: nat) returns (ok: bool)
    requires start <= |packet|
    ensures ok == CommentsFit(packet[start..], comments)
  {
    var tagOffset: nat := start;
    for index := 0 to comments
      invariant tagOffset <= |packet|
      invariant CommentsFit(packet[start..], comments) == CommentsFit(packet[tagOffset..], comments - index)
    {
      if tagOffset + 4 > |packet| {
        return false;
      }
      var size := FromLe(packet[tagOffset..tagOffset + 4]);
      assert packet[tagOffset..][..4] == packet[tagOffset..tagOffset + 4];
      if tagOffset + 4 + size > |packet| {
        return false;
      }
      assert packet[tagOffset..][4 + size..] == packet[tagOffset + 4 + size..];
      tagOffset := tagOffset + 4 + size;
    }
    return true;
  }

  /** The checks on one complete packet, by its place in the stream. */
  method CheckPacket(packet: seq<byte>, packetIndex: nat, preSkip: nat, decoded: nat, lastFrames: nat)
    returns (ok: bool, preSkip': nat, decoded': nat, lastFrames': nat)
    ensures AcceptPacket(Progress(packetIndex, preSkip, decoded, lastFrames, []), packet)
      == if ok then Some(Progress(packetIndex + 1, preSkip', decoded', lastFrames', [])) else None
  {
    preSkip', decoded', lastFrames' := preSkip, decoded, lastFrames;
    ok := false;
    if packetIndex == 0 {
      if |packet| != 19 || packet[..8] != OPUS_HEAD || packet[8] != 1 || packet[9] != 1 || packet[18] != 0 {
        return;
      }
      preSkip' := FromLe(packet[10..12]);
      if preSkip' > MAX_PRE_SKIP {
        return;
      }
    } else if packetIndex == 1 {
      if |packet| < 16 || packet[..8] != OPUS_TAGS {
        return;
      }
      var vendorLength := FromLe(packet[8..12]);
      if vendorLength > MAX_VENDOR || 16 + vendorLength > |packet| {
        return;
      }
      var comments := FromLe(packet[12 + vendorLength..16 + vendorLength]);
      if comments > MAX_COMMENTS {
        return;
      }
      var fit := CommentsWithin(packet, 16 + vendorLength, comments);
      if !fit {
        return;
      }
    } else {
      var frames := PacketFrames(packet);
      if frames.None? {
        return;
      }
      lastFrames' := frames.value;
      decoded' := decoded + lastFrames';
      if decoded' > MAX_PLAYABLE + preSkip + MAX_FRAMES {
        return;
      }
    }
    ok := true;
  }

  /** The first lacing value of a page. */
  lemma TakeFirstLace(k: Progress, lacing: seq<byte>, body: seq<byte>)
    requires lacing != [] && |body| == Sum(lacing)
    ensures var size := lacing[0] as nat;
      && size <= |body| && |body| - size == Sum(lacing[1..])
      && var packet := k.pending + body[..size];
      TakeLaces(k, lacing, body) ==
        if |packet| > MAX_PACKET_BYTES then None
        else if size == 255 then TakeLaces(k.(pending := packet), lacing[1..], body[size..])
        else match AcceptPacket(k.(pending := []), packet)
          case None => None
          case Some(next) => TakeLaces(next, lacing[1..], body[size..])
  {
    hide AcceptPacket;
    PendingDoesNotMatter(k, k.(pending := []), k.pending + body[..lacing[0] as nat]);
  }

  /** One turn of the loop over the lacing values: the packet grows, and is checked when it ends. */
  lemma TakeOneLace(k: Progress, lacing: seq<byte>, body: seq<byte>, i: nat, at: nat)
    requires i < |lacing| && at <= |body| && |body| - at == Sum(lacing[i..])
    ensures var size := lacing[i] as nat;
      && at + size <= |body| && |body| - (at + size) == Sum(lacing[i + 1..])
      && var packet := k.pending + body[at..at + size];
      TakeLaces(k, lacing[i..], body[at..]) ==
        if |packet| > MAX_PACKET_BYTES then None
        else if size == 255 then TakeLaces(k.(pending := packet), lacing[i + 1..], body[at + size..])
        else match AcceptPacket(k.(pending := []), packet)
          case None => None
          case Some(next) => TakeLaces(next, lacing[i + 1..], body[at + size..])
  {
    hide AcceptPacket, TakeLaces, Sum;
    TakeFirstLace(k, lacing[i..], body[at..]);
    var size := lacing[i] as nat;
    assert lacing[i..][1..] == lacing[i + 1..] && lacing[i..][0] == lacing[i];
    assert body[at..][size..] == body[at + size..];
    assert body[at..][..size] == body[at..at + size];
  }

  lemma FlattenPush(fragments: seq<seq<byte>>, fragment: seq<byte>)
    ensures Flatten(fragments + [fragment]) == Flatten(fragments) + fragment
  {
    FlattenAppend(fragments, [fragment]);
    assert Flatten([fragment]) == fragment;
  }

  /** The loop over the lacing values of one page. */
  method ReadLaces(
    lacing: seq<byte>, body: seq<byte>, packetIndex0: nat, preSkip0: nat, decoded0: nat, lastFrames0: nat,
    fragments0: seq<seq<byte>>, packetBytes0: nat
  ) returns (
    ok: bool, packetIndex: nat, preSkip: nat, decoded: nat, lastFrames: nat,
    fragments: seq<seq<byte>>, packetBytes: nat
  )
    requires |body| == Sum(lacing) && packetBytes0 == |Flatten(fragments0)|
    ensures packetBytes == |Flatten(fragments)|
    ensures TakeLaces(Progress(packetIndex0, preSkip0, decoded0, lastFrames0, Flatten(fragments0)), lacing, body)
      == if ok then Some(Progress(packetIndex, preSkip, decoded, lastFrames, Flatten(fragments))) else None
  {
    NothingPending();
    assert lacing[0..] == lacing && body[0..] == body;
    NothingToTake();
    hide AcceptPacket, TakeLaces, Flatten;
    packetIndex, preSkip, decoded, lastFrames := packetIndex0, preSkip0, decoded0, lastFrames0;
    fragments, packetBytes := fragments0, packetBytes0;
    ghost var start := Progress(packetIndex0, preSkip0, decoded0, lastFrames0, Flatten(fragments0));
    var at: nat := 0;
    for i := 0 to |lacing|
      invariant at + Sum(lacing[i..]) == |body|
      invariant packetBytes == |Flatten(fragments)|
      invariant TakeLaces(start, lacing, body)
        == TakeLaces(Progress(packetIndex, preSkip, decoded, lastFrames, Flatten(fragments)), lacing[i..], body[at..])
    {
      var size := lacing[i] as nat;
      TakeOneLace(Progress(packetIndex, preSkip, decoded, lastFrames, Flatten(fragments)), lacing, body, i, at);
      FlattenPush(fragments, body[at..at + size]);
      fragments := fragments + [body[at..at + size]];
      at := at + size;
      packetBytes := packetBytes + size;
      if packetBytes > MAX_PACKET_BYTES {
        ok := false;
        return;
      }
      if size != 255 {
        var packet := Assemble(fragments, packetBytes);
        fragments := [];
        packetBytes := 0;
        var accepted;
        accepted, preSkip, decoded, lastFrames := CheckPacket(packet, packetIndex, preSkip, decoded, lastFrames);
        if !accepted {
          ok := false;
          return;
        }
        packetIndex := packetIndex + 1;
      }
    }
    assert lacing[|lacing|..] == [] && body[at..] == [];
    ok := true;
  }

  lemma NothingToTake()
    ensures forall k :: TakeLaces(k, [], []) == Some(k)
  {
  }

  lemma PendingDoesNotMatter(k: Progress, k': Progress, packet: seq<byte>)
    requires k' == k.(pending := k'.pending)
    ensures AcceptPacket(k, packet) == AcceptPacket(k', packet)
  {
    hide HeadOk, TagsOk, PacketFrames;
  }

  /** The fields of the page at `offset`, read in place. */
  function PageAt(bytes: seq<byte>, offset: nat, headerEnd: nat, pageEnd: nat): Page
    requires offset + 27 <= headerEnd <= pageEnd <= |bytes|
  {
    Page(bytes[offset + 5], FromLe(bytes[offset + 6..offset + 14]), FromLe(bytes[offset + 14..offset + 18]),
         FromLe(bytes[offset + 18..offset + 22]), bytes[offset + 27..headerEnd], bytes[headerEnd..pageEnd])
  }

  lemma PageParsed(bytes: seq<byte>, offset: nat, headerEnd: nat, pageEnd: nat)
    requires offset + 27 <= |bytes| && headerEnd == offset + 27 + bytes[offset + 26] as nat <= |bytes|
    requires pageEnd == headerEnd + Sum(bytes[offset + 27..headerEnd])
    ensures ParsePage(bytes[offset..])
      == if bytes[offset..offset + 4] == MAGIC && bytes[offset + 4] == 0 && pageEnd <= |bytes|
            && Crc.Checksum(bytes[offset..pageEnd]) == ReadChecksum(bytes[offset + 22..offset + 26])
         then Some(PageAt(bytes, offset, headerEnd, pageEnd)) else None
  {
    hide FromLe, Sum, Crc.Checksum, ReadChecksum;
    var t := bytes[offset..];
    assert t[..4] == bytes[offset..offset + 4];
    assert t[27..headerEnd - offset] == bytes[offset + 27..headerEnd];
    assert t[22..26] == bytes[offset + 22..offset + 26];
    assert t[6..14] == bytes[offset + 6..offset + 14];
    assert t[14..18] == bytes[offset + 14..offset + 18];
    assert t[18..22] == bytes[offset + 18..offset + 22];
    if pageEnd <= |bytes| {
      assert t[..pageEnd - offset] == bytes[offset..pageEnd];
      assert t[headerEnd - offset..pageEnd - offset] == bytes[headerEnd..pageEnd];
    }
  }

  /** The header of the page at `offset`: where its lacing and its body end, if it is structurally sound. */
  method ReadPage(table: array<bv32>, bytes: seq<byte>, offset: nat)
    returns (ok: bool, headerEnd: nat, pageEnd: nat)
    requires Crc.IsCrcTable(table)
    requires offset < |bytes|
    ensures ok <==> ParsePage(bytes[offset..]).Some?
    ensures ok ==> offset + 27 <= headerEnd <= pageEnd <= |bytes|
    ensures ok ==> ParsePage(bytes[offset..]) == Some(PageAt(bytes, offset, headerEnd, pageEnd))
  {
    headerEnd, pageEnd, ok := offset, offset, false;
    if offset + 27 > |bytes| || bytes[offset..offset + 4] != MAGIC || bytes[offset + 4] != 0 {
      assert |bytes[offset..]| >= 27 ==> bytes[offset..][..4] == bytes[offset..offset + 4];
      return;
    }
    var lacingCount := bytes[offset + 26] as nat;
    headerEnd := offset + 27 + lacingCount;
    if headerEnd > |bytes| {
      return;
    }
    pageEnd := headerEnd + Sum(bytes[offset + 27..headerEnd]);
    PageParsed(bytes, offset, headerEnd, pageEnd);
    hide ParsePage, PageAt, Sum;
    if pageEnd > |bytes| {
      return;
    }
    var checksum := Crc.PageChecksum(table, bytes[offset..pageEnd]);
    ok := checksum == ReadChecksum(bytes[offset + 22..offset + 26]);
  }

  /** `validateOggOpus`: whether the bytes are one complete, bounded mono Opus stream. */
  method ValidateOggOpus(table: array<bv32>, bytes: seq<byte>) returns (ok: bool)
    requires Crc.IsCrcTable(table)
    ensures ok <==> Accepts(bytes)
  {
    NothingPending();
    ScanNothing();
    hide TakeLaces, ParsePage, Sum, Flatten, Scan, FromLe, Step;
    if |bytes| < MIN_STREAM_BYTES || |bytes| > MAX_STREAM_BYTES {
      return false;
    }
    var offset: nat, sequence: nat := 0, 0;
    var serial: Option<nat> := None;
    var packetIndex: nat, preSkip: nat, decoded: nat, lastFrames: nat := 0, 0, 0, 0;
    var fragments: seq<seq<byte>>, packetBytes: nat := [], 0;
    var ended, previousGranule: nat, endGranule: nat := false, 0, 0;
    assert bytes[0..] == bytes;
    while offset < |bytes|
      invariant offset <= |bytes|
      invariant packetBytes == |Flatten(fragments)|
      invariant Scan(bytes, START) == Scan(bytes[offset..], State(sequence, serial,
          Progress(packetIndex, preSkip, decoded, lastFrames, Flatten(fragments)), ended, previousGranule, endGranule))
      decreases |bytes| - offset
    {
      ghost var st := State(sequence, serial,
        Progress(packetIndex, preSkip, decoded, lastFrames, Flatten(fragments)), ended, previousGranule, endGranule);
      var sound, headerEnd, pageEnd := ReadPage(table, bytes, offset);
      if ended || !sound {
        ScanStops(bytes[offset..], st);
        return false;
      }
      ghost var page := PageAt(bytes, offset, headerEnd, pageEnd);
      ScanPage(bytes[offset..], st);
      StepIs(st, page);
      var flags := bytes[offset + 5];
      if flags & 0xf8 != 0 || (flags & 1 != 0) != (packetBytes != 0) || (flags & 2 != 0) != (sequence == 0) {
        return false;
      }
      var pageSerial := FromLe(bytes[offset + 14..offset + 18]);
      if serial == None {
        serial := Some(pageSerial);
      }
      if pageSerial != serial.value || FromLe(bytes[offset + 18..offset + 22]) != sequence {
        return false;
      }
      sequence := sequence + 1;
      var granule := FromLe(bytes[offset + 6..offset + 14]);
      var before := packetIndex;
      var read;
      read, packetIndex, preSkip, decoded, lastFrames, fragments, packetBytes :=
        ReadLaces(bytes[offset + 27..headerEnd], bytes[headerEnd..pageEnd],
                  packetIndex, preSkip, decoded, lastFrames, fragments, packetBytes);
      if !read {
        return false;
      }
      var completed := packetIndex - before;
      if sequence == 1 && (completed != 1 || packetBytes != 0 || packetIndex != 1 || granule != 0) {
        return false;
      }
      if granule != NO_GRANULE {
        if granule < previousGranule || granule > decoded {
          return false;
        }
        previousGranule := granule;
      } else if completed != 0 || flags & 4 != 0 {
        return false;
      }
      if flags & 4 != 0 {
        if packetIndex < 3 || completed == 0 || packetBytes != 0 {
          return false;
        }
        ended := true;
        endGranule := granule;
      }
      ghost var next := State(sequence, serial,
        Progress(packetIndex, preSkip, decoded, lastFrames, Flatten(fragments)), ended, previousGranule, endGranule);
      assert Step(st, page) == Some(next);
      assert bytes[offset..][Length(page)..] == bytes[pageEnd..];
      if flags & 4 != 0 && pageEnd != |bytes| {
        ScanStops(bytes[pageEnd..], next);
        return false;
      }
      offset := pageEnd;
    }
    assert bytes[offset..] == [];
    ok := ended && endGranule > preSkip && endGranule >= decoded - lastFrames && endGranule - preSkip <= MAX_PLAYABLE;
  }

  lemma ScanNothing()
    ensures forall st :: Scan([], st) == Some(st)
  {
  }

  lemma ScanPage(t: seq<byte>, st: State)
    requires t != []
    ensures Scan(t, st) == match ParsePage(t)
      case None => None
      case Some(p) =>
        match Step(st, p)
        case None => None
        case Some(next) => Scan(t[Length(p)..], next)
  {
    hide ParsePage, Step;
  }

  /** Nothing may follow the last page, and what follows must parse. */
  lemma ScanStops(t: seq<byte>, st: State)
    requires t != [] && (st.ended || ParsePage(t) == None)
    ensures Scan(t, st) == None
  {
    hide ParsePage, HeaderOk, PositionOk, TakeLaces;
  }

  lemma StepIs(st: State, p: Page)
    requires Valid(p)
    ensures Step(st, p) ==
      if st.ended || !HeaderOk(st, p) then None else
      match TakeLaces(st.progress, p.lacing, p.body)
      case None => None
      case Some(k) =>
        if !PositionOk(st, p, k) then None else
        Some(State(st.sequence + 1, Some(p.serial), k, Last(p),
                   if p.granule != NO_GRANULE then p.granule else st.previousGranule,
                   if Last(p) then p.granule else st.endGranule))
  {
    hide HeaderOk, PositionOk, TakeLaces;
  }

  lemma NothingPending()
    ensures Flatten([]) == []
  {
  }
}

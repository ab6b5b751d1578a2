/**
 Giving every page of a stream a new serial number, as `appendOggOpusLink` does so that links can be
 chained (section 4 of RFC 3533). The remux theorem: the result is accepted again, has the same
 length and carries the same packets.
 */
module OggRelink {
  import opened Wrappers
  import opened Bytes
  import opened OggPage
  import opened OggStream
  import opened OggMeaning

  /** The same pages under another serial number. */
  function Relink(ps: seq<Page>, serial: nat): (qs: seq<Page>)
    ensures |qs| == |ps|
    ensures forall i :: 0 <= i < |ps| ==> qs[i] == ps[i].(serial := serial)
  {
    seq(|ps|, i requires 0 <= i < |ps| => ps[i].(serial := serial))
  }

  /** What `appendOggOpusLink` writes for a segment. */
  function Link(s: seq<byte>, serial: nat): seq<byte>
    requires serial < Pow256(4)
  {
    EncodeAll(Relink(Pages(s), serial))
  }

  lemma RelinkValid(ps: seq<Page>, serial: nat)
    requires AllValid(ps) && serial < Pow256(4)
    ensures AllValid(Relink(ps, serial))
  {
    hide Pow256;
  }

  lemma RelinkPrefix(ps: seq<Page>, serial: nat, k: nat)
    requires k <= |ps|
    ensures Relink(ps, serial)[..k] == Relink(ps[..k], serial)
  {
  }

  lemma {:induction false} RelinkKeepsBodies(ps: seq<Page>, serial: nat)
    requires AllValid(ps) && AllValid(Relink(ps, serial))
    ensures Lacing(Relink(ps, serial)) == Lacing(ps) && Bodies(Relink(ps, serial)) == Bodies(ps)
  {
    if ps != [] {
      var n := |ps| - 1;
      RelinkPrefix(ps, serial, n);
      RelinkKeepsBodies(ps[..n], serial);
    }
  }

  lemma RelinkKeepsPackets(ps: seq<Page>, serial: nat, k: nat)
    requires AllValid(ps) && AllValid(Relink(ps, serial)) && k <= |ps|
    ensures Packets(Relink(ps, serial)[..k]) == Packets(ps[..k])
    ensures Pending(Relink(ps, serial)[..k]) == Pending(ps[..k])
  {
    RelinkPrefix(ps, serial, k);
    RelinkKeepsBodies(ps[..k], serial);
    hide Cut;
  }

  lemma {:induction false} RelinkKeepsLength(ps: seq<Page>, serial: nat)
    requires AllValid(ps) && AllValid(Relink(ps, serial))
    ensures |EncodeAll(Relink(ps, serial))| == |EncodeAll(ps)|
  {
    hide Encode;
    if ps != [] {
      assert Relink(ps, serial)[1..] == Relink(ps[1..], serial);
      RelinkKeepsLength(ps[1..], serial);
    }
  }

  lemma RelinkPageOk(ps: seq<Page>, serial: nat, k: nat)
    requires AllValid(ps) && AllValid(Relink(ps, serial)) && k < |ps| && PageOk(ps, k)
    ensures PageOk(Relink(ps, serial), k)
  {
    hide Packets, Pending, TotalFrames;
    RelinkKeepsPackets(ps, serial, k);
    RelinkKeepsPackets(ps, serial, k + 1);
  }

  lemma RelinkWellFormed(ps: seq<Page>, serial: nat)
    requires AllValid(ps) && AllValid(Relink(ps, serial)) && WellFormed(ps)
    ensures WellFormed(Relink(ps, serial))
  {
    hide Packets, PageOk, PacketsOk, TotalFrames, LastFrames, StreamPreSkip;
    var qs := Relink(ps, serial);
    forall k | 0 <= k < |qs|
      ensures PageOk(qs, k)
    {
      RelinkPageOk(ps, serial, k);
    }
    RelinkKeepsPackets(ps, serial, |ps|);
    assert qs[..|ps|] == qs && ps[..|ps|] == ps;
  }

  /**
   Main result, the remux theorem: relinking an accepted segment gives a stream of the same length
   that is accepted again, whose pages differ in the serial number only and whose packets are the same.
   */
  lemma RemuxIsAccepted(s: seq<byte>, serial: nat)
    requires Accepts(s) && serial < Pow256(4)
    ensures var out := Link(s, serial);
      && |out| == |s|
      && Accepts(out)
      && Pages(out) == Relink(Pages(s), serial)
      && Packets(Pages(out)) == Packets(Pages(s))
  {
    hide Accepts, WellFormed, Packets, Pow256, EncodeAll, ParseAll, AllValid;
    var ps := Pages(s);
    AcceptsIff(s);
    RelinkValid(ps, serial);
    var qs := Relink(ps, serial);
    var out := Link(s, serial);
    RelinkKeepsLength(ps, serial);
    RelinkWellFormed(ps, serial);
    ParseEncode(out, qs);
    assert IsStream(out, qs);
    AcceptsIff(out);
    RelinkKeepsPackets(ps, serial, |ps|);
    assert ps[..|ps|] == ps && qs[..|qs|] == qs;
  }
}

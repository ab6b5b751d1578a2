/**
 The schedule of the preview player (`preview-player.ts`): which piece of which chunk plays when. Seconds are
 reals here, so rounding to frames is not part of this model.
 */
module PreviewSchedule {
  import opened Wrappers

  datatype Source = Microphone | System

  datatype Chunk = Chunk(source: Source, sequence: int, start: real, duration: real, bytes: int)

  datatype Item = Item(
    source: Source, sequence: int, timelineStart: real, sourceOffset: real, duration: real, gain: real
  )

  datatype Problem = NothingCaptured | InvalidManifest

  function End(c: Chunk): real { c.start + c.duration }

  function Max(x: real, y: real): real { if x < y then y else x }

  function Min(x: real, y: real): real { if x < y then x else y }

  // ----- manifests ----------------------------------------------------------------------

  function Count(chunks: seq<Chunk>, source: Source): nat {
    if chunks == [] then 0
    else Count(chunks[..|chunks| - 1], source) + if chunks[|chunks| - 1].source == source then 1 else 0
  }

  /** Where the last chunk of the source ends. */
  function LastEnd(chunks: seq<Chunk>, source: Source): real {
    if chunks == [] then 0.0
    else if chunks[|chunks| - 1].source == source then End(chunks[|chunks| - 1])
    else LastEnd(chunks[..|chunks| - 1], source)
  }

  /** The chunk is numbered next, and starts no more than a millisecond before its source's last one ends. */
  predicate Follows(c: Chunk, next: nat, lastEnd: real) {
    && c.sequence == next
    && 0.0 <= c.start
    && 0.0 < c.duration <= 60.001
    && 0 < c.bytes <= 512 * 1024
    && lastEnd - 0.001 <= c.start
    && End(c) <= 3600.001
  }

  predicate ChunkOk(chunks: seq<Chunk>, i: nat)
    requires i < |chunks|
  {
    Follows(chunks[i], Count(chunks[..i], chunks[i].source), LastEnd(chunks[..i], chunks[i].source))
  }

  predicate Manifest(chunks: seq<Chunk>) {
    chunks != [] && forall i :: 0 <= i < |chunks| ==> ChunkOk(chunks, i)
  }

  /** The end of the chunk that ends last. */
  predicate IsDuration(chunks: seq<Chunk>, duration: real) {
    && (forall i :: 0 <= i < |chunks| ==> End(chunks[i]) <= duration)
    && (exists i :: 0 <= i < |chunks| && End(chunks[i]) == duration)
  }

  /** `validateChunks`: one pass with a counter and an end for each source. */
  method ValidateChunks(chunks: seq<Chunk>) returns (r: Result<real, Problem>)
    ensures r.Ok? <==> Manifest(chunks)
    ensures r.Ok? ==> IsDuration(chunks, r.value)
    ensures r == Err(NothingCaptured) <==> chunks == []
  {
    if |chunks| == 0 {
      return Err(NothingCaptured);
    }
    var nextSequence := map[Microphone := 0, System := 0];
    var sourceEnds := map[Microphone := 0.0, System := 0.0];
    var duration := 0.0;
    for i := 0 to |chunks|
      invariant TracksSources(chunks[..i], nextSequence, sourceEnds)
      invariant forall j :: 0 <= j < i ==> ChunkOk(chunks, j)
      invariant i > 0 ==> IsDuration(chunks[..i], duration)
      invariant i == 0 ==> duration == 0.0
    {
      hide IsDuration, TracksSources, Follows, Count, LastEnd, Max;
      var chunk := chunks[i];
      TracksEach(chunks[..i], nextSequence, sourceEnds, chunk.source);
      if chunk.sequence != nextSequence[chunk.source] || chunk.start < 0.0
        || chunk.duration <= 0.0 || chunk.duration > 60.001 || chunk.bytes <= 0 || chunk.bytes > 512 * 1024
        || chunk.start < sourceEnds[chunk.source] - 0.001 {
        FollowsAsChecked(chunk, nextSequence[chunk.source], sourceEnds[chunk.source]);
        assert !ChunkOk(chunks, i);
        return Err(InvalidManifest);
      }
      var end := chunk.start + chunk.duration;
      if end > 3600.001 {
        FollowsAsChecked(chunk, nextSequence[chunk.source], sourceEnds[chunk.source]);
        assert !ChunkOk(chunks, i);
        return Err(InvalidManifest);
      }
      FollowsAsChecked(chunk, nextSequence[chunk.source], sourceEnds[chunk.source]);
      assert chunks[..i + 1] == chunks[..i] + [chunk];
      StillTracks(chunks[..i], nextSequence, sourceEnds, chunk);
      DurationGrows(chunks[..i], duration, chunk);
      nextSequence := nextSequence[chunk.source := nextSequence[chunk.source] + 1];
      sourceEnds := sourceEnds[chunk.source := end];
      duration := Max(duration, end);
    }
    assert chunks[..|chunks|] == chunks;
    return Ok(duration);
  }

  /** The two records of `validateChunks` after the given chunks. */
  predicate TracksSources(chunks: seq<Chunk>, nextSequence: map<Source, nat>, sourceEnds: map<Source, real>) {
    && nextSequence.Keys == {Microphone, System} && sourceEnds.Keys == {Microphone, System}
    && (forall s :: s in nextSequence ==> nextSequence[s] == Count(chunks, s))
    && (forall s :: s in sourceEnds ==> sourceEnds[s] == LastEnd(chunks, s))
  }

  lemma TracksEach(chunks: seq<Chunk>, nextSequence: map<Source, nat>, sourceEnds: map<Source, real>, source: Source)
    requires TracksSources(chunks, nextSequence, sourceEnds)
    ensures source in nextSequence && nextSequence[source] == Count(chunks, source)
    ensures source in sourceEnds && sourceEnds[source] == LastEnd(chunks, source)
  {
    assert source == Microphone || source == System;
  }

  lemma StillTracks(chunks: seq<Chunk>, nextSequence: map<Source, nat>, sourceEnds: map<Source, real>, c: Chunk)
    requires TracksSources(chunks, nextSequence, sourceEnds) && c.source in nextSequence
    ensures TracksSources(chunks + [c], nextSequence[c.source := nextSequence[c.source] + 1],
                          sourceEnds[c.source := End(c)])
  {
    assert (chunks + [c])[..|chunks|] == chunks;
    assert c.source == Microphone || c.source == System;
  }

  lemma DurationGrows(chunks: seq<Chunk>, duration: real, c: Chunk)
    requires if chunks == [] then duration == 0.0 else IsDuration(chunks, duration)
    requires 0.0 <= End(c)
    ensures IsDuration(chunks + [c], Max(duration, End(c)))
  {
    var more := chunks + [c];
    assert more[|chunks|] == c;
    assert forall i :: 0 <= i < |chunks| ==> more[i] == chunks[i];
    if chunks != [] && duration > End(c) {
      var i :| 0 <= i < |chunks| && End(chunks[i]) == duration;
      assert End(more[i]) == duration;
    }
  }

  lemma FollowsAsChecked(c: Chunk, next: nat, lastEnd: real)
    ensures Follows(c, next, lastEnd) <==>
      !(c.sequence != next || c.start < 0.0 || c.duration <= 0.0 || c.duration > 60.001 || c.bytes <= 0
        || c.bytes > 512 * 1024 || c.start < lastEnd - 0.001) && !(c.start + c.duration > 3600.001)
  {
  }

  // ----- the schedule of a window ----------------------------------------------------------

  /** The piece of a chunk between `a` and `b` on the timeline. */
  function Clip(c: Chunk, a: real, b: real, gain: real): Option<Item> {
    var timelineStart := Max(a, c.start);
    var clippedEnd := Min(b, End(c));
    if timelineStart >= clippedEnd then None
    else Some(Item(c.source, c.sequence, timelineStart, timelineStart - c.start, clippedEnd - timelineStart, gain))
  }

  function Listed(item: Option<Item>): seq<Item> {
    match item case Some(x) => [x] case None => []
  }

  function Items(chunks: seq<Chunk>, a: real, b: real, gain: real): seq<Item> {
    if chunks == [] then []
    else Items(chunks[..|chunks| - 1], a, b, gain) + Listed(Clip(chunks[|chunks| - 1], a, b, gain))
  }

  predicate Mixed(chunks: seq<Chunk>) {
    (exists i :: 0 <= i < |chunks| && chunks[i].source == Microphone)
    && (exists i :: 0 <= i < |chunks| && chunks[i].source == System)
  }

  function GainOf(chunks: seq<Chunk>): real { if Mixed(chunks) then 0.5 else 1.0 }

  /** `buildPreviewSchedule` for the manifest of a recording that lasts `duration`. */
  function Schedule(chunks: seq<Chunk>, duration: real, a: real, b: real): seq<Item> {
    Items(chunks, a, Min(b, duration), GainOf(chunks))
  }

  method BuildPreviewSchedule(chunks: seq<Chunk>, windowStart: real, windowEnd: real)
    returns (r: Result<seq<Item>, Problem>)
    ensures r.Ok? <==> 0.0 <= windowStart <= windowEnd && Manifest(chunks)
    ensures r == Err(NothingCaptured) <==> 0.0 <= windowStart <= windowEnd && chunks == []
    ensures r.Ok? ==> exists duration ::
      IsDuration(chunks, duration) && r.value == Schedule(chunks, duration, windowStart, windowEnd)
  {
    if windowStart < 0.0 || windowEnd < windowStart {
      return Err(InvalidManifest);
    }
    var duration := ValidateChunks(chunks);
    if duration.Err? {
      return Err(duration.error);
    }
    return Ok(Schedule(chunks, duration.value, windowStart, windowEnd));
  }

  // ----- windows compose ---------------------------------------------------------------------

  /** Two pieces of a chunk, either of which may be missing, are together the piece `whole`. */
  predicate Joins(left: Option<Item>, right: Option<Item>, whole: Option<Item>) {
    match (left, right)
    case (None, _) => whole == right
    case (_, None) => whole == left
    case (Some(x), Some(y)) =>
      && y.timelineStart == x.timelineStart + x.duration
      && y.sourceOffset == x.sourceOffset + x.duration
      && (y.source, y.sequence, y.gain) == (x.source, x.sequence, x.gain)
      && whole == Some(x.(duration := x.duration + y.duration))
  }

  lemma ClipJoins(c: Chunk, a: real, m: real, b: real, gain: real)
    requires a <= m <= b
    ensures Joins(Clip(c, a, m, gain), Clip(c, m, b, gain), Clip(c, a, b, gain))
  {
  }

  lemma ClipIsCapped(c: Chunk, a: real, b: real, duration: real, gain: real)
    requires End(c) <= duration
    ensures Clip(c, a, Min(b, duration), gain) == Clip(c, a, b, gain)
  {
  }

  /** The item of a chunk in a schedule. */
  function PieceOf(items: seq<Item>, c: Chunk): Option<Item> {
    if items == [] then None
    else if items[|items| - 1].source == c.source && items[|items| - 1].sequence == c.sequence
    then Some(items[|items| - 1])
    else PieceOf(items[..|items| - 1], c)
  }

  predicate Named(chunks: seq<Chunk>) {
    forall i, j :: 0 <= i < j < |chunks| ==> (chunks[i].source, chunks[i].sequence) != (chunks[j].source, chunks[j].sequence)
  }

  lemma {:induction false} CountGrows(chunks: seq<Chunk>, i: nat, j: nat, source: Source)
    requires i < j <= |chunks|
    ensures Count(chunks[..i], source) <= Count(chunks[..j], source)
    ensures chunks[i].source == source ==> Count(chunks[..i], source) < Count(chunks[..j], source)
    decreases j
  {
    assert chunks[..j][..j - 1] == chunks[..j - 1];
    if i < j - 1 {
      CountGrows(chunks, i, j - 1, source);
    }
  }

  lemma ManifestIsNamed(chunks: seq<Chunk>)
    requires Manifest(chunks)
    ensures Named(chunks)
  {
    forall i, j | 0 <= i < j < |chunks|
      ensures (chunks[i].source, chunks[i].sequence) != (chunks[j].source, chunks[j].sequence)
    {
      assert ChunkOk(chunks, i) && ChunkOk(chunks, j);
      CountGrows(chunks, i, j, chunks[i].source);
    }
  }

  /** A schedule holds the clipped piece of every chunk, once, and nothing else. */
  lemma {:induction false} PieceIsClip(chunks: seq<Chunk>, a: real, b: real, gain: real, c: Chunk)
    requires Named(chunks)
    ensures c in chunks ==> PieceOf(Items(chunks, a, b, gain), c) == Clip(c, a, b, gain)
    ensures (forall i :: 0 <= i < |chunks| ==> (chunks[i].source, chunks[i].sequence) != (c.source, c.sequence)) ==>
      PieceOf(Items(chunks, a, b, gain), c) == None
  {
    if chunks != [] {
      var front, last := chunks[..|chunks| - 1], chunks[|chunks| - 1];
      PieceIsClip(front, a, b, gain, c);
      var items := Items(front, a, b, gain);
      match Clip(last, a, b, gain)
      case None => assert items + [] == items;
      case Some(x) => assert (items + [x])[..|items|] == items;
      if c in chunks && c != last {
        assert c in front;
      }
    }
  }

  /** Two windows that meet play, chunk by chunk, exactly what the window they make up plays. */
  lemma WindowsCompose(chunks: seq<Chunk>, duration: real, a: real, m: real, b: real, c: Chunk)
    requires Manifest(chunks) && IsDuration(chunks, duration) && 0.0 <= a <= m <= b && c in chunks
    ensures Joins(PieceOf(Schedule(chunks, duration, a, m), c),
                  PieceOf(Schedule(chunks, duration, m, b), c),
                  PieceOf(Schedule(chunks, duration, a, b), c))
  {
    hide Items, PieceOf, ChunkOk, Named, Clip, Joins, Min;
    ManifestIsNamed(chunks);
    var gain := GainOf(chunks);
    ClipIsCapped(c, a, m, duration, gain);
    ClipIsCapped(c, m, b, duration, gain);
    ClipIsCapped(c, a, b, duration, gain);
    PieceIsClip(chunks, a, Min(m, duration), gain, c);
    PieceIsClip(chunks, m, Min(b, duration), gain, c);
    PieceIsClip(chunks, a, Min(b, duration), gain, c);
    assert End(c) <= duration;
    ClipJoins(c, a, m, b, gain);
  }

  function Length(item: Option<Item>): real {
    match item case Some(x) => x.duration case None => 0.0
  }

  /** How much of the chunk the windows between consecutive cuts play. */
  function Played(chunks: seq<Chunk>, duration: real, cuts: seq<real>, c: Chunk): real {
    if |cuts| < 2 then 0.0 else
    var last := Schedule(chunks, duration, cuts[|cuts| - 2], cuts[|cuts| - 1]);
    Played(chunks, duration, cuts[..|cuts| - 1], c) + Length(PieceOf(last, c))
  }

  predicate Rising(cuts: seq<real>) {
    cuts != [] && 0.0 <= cuts[0] && forall i, j :: 0 <= i <= j < |cuts| ==> cuts[i] <= cuts[j]
  }

  lemma {:induction false} PlayedIsOnePiece(chunks: seq<Chunk>, duration: real, cuts: seq<real>, c: Chunk)
    requires Manifest(chunks) && IsDuration(chunks, duration) && c in chunks && Rising(cuts)
    ensures Played(chunks, duration, cuts, c)
      == Length(PieceOf(Schedule(chunks, duration, cuts[0], cuts[|cuts| - 1]), c))
    decreases |cuts|
  {
    var n := |cuts|;
    if n == 1 {
      WindowsCompose(chunks, duration, cuts[0], cuts[0], cuts[0], c);
    } else {
      PlayedIsOnePiece(chunks, duration, cuts[..n - 1], c);
      WindowsCompose(chunks, duration, cuts[0], cuts[n - 2], cuts[n - 1], c);
    }
  }

  /** However the timeline is cut into windows, every chunk is played once, all of it. */
  lemma EveryChunkPlaysOnce(chunks: seq<Chunk>, duration: real, cuts: seq<real>, c: Chunk)
    requires Manifest(chunks) && IsDuration(chunks, duration) && c in chunks && Rising(cuts)
    requires cuts[0] == 0.0 && cuts[|cuts| - 1] >= duration
    ensures Played(chunks, duration, cuts, c) == c.duration
  {
    PlayedIsOnePiece(chunks, duration, cuts, c);
    ManifestIsNamed(chunks);
    PieceIsClip(chunks, 0.0, Min(cuts[|cuts| - 1], duration), GainOf(chunks), c);
    var i :| 0 <= i < |chunks| && chunks[i] == c;
    assert ChunkOk(chunks, i) && End(chunks[i]) <= duration;
  }

  /** A recording of one source plays at full gain, one of both at half, every piece of it. */
  lemma {:induction false} GainMeans(chunks: seq<Chunk>, duration: real, a: real, b: real)
    ensures forall k :: 0 <= k < |Schedule(chunks, duration, a, b)| ==>
      Schedule(chunks, duration, a, b)[k].gain
      == if forall i, j :: 0 <= i < |chunks| && 0 <= j < |chunks| ==> chunks[i].source == chunks[j].source then 1.0 else 0.5
  {
    GainOfItems(chunks, a, Min(b, duration), GainOf(chunks));
    if i, j :| 0 <= i < |chunks| && 0 <= j < |chunks| && chunks[i].source != chunks[j].source {
      assert chunks[i].source == Microphone || chunks[j].source == Microphone;
      assert Mixed(chunks);
    }
  }

  lemma {:induction false} GainOfItems(chunks: seq<Chunk>, a: real, b: real, gain: real)
    ensures forall k :: 0 <= k < |Items(chunks, a, b, gain)| ==> Items(chunks, a, b, gain)[k].gain == gain
  {
    if chunks != [] {
      GainOfItems(chunks[..|chunks| - 1], a, b, gain);
    }
  }

  // ----- every instant is played once -------------------------------------------------------------

  predicate Sounds(item: Item, t: real) {
    item.timelineStart <= t < item.timelineStart + item.duration
  }

  predicate Covers(c: Chunk, t: real) { c.start <= t < End(c) }

  lemma PieceSounds(c: Chunk, a: real, b: real, gain: real, t: real)
    ensures var item := Clip(c, a, b, gain);
      (item.Some? && Sounds(item.value, t) <==> a <= t < b && Covers(c, t)) && (item.Some? ==> item.value.gain == gain)
  {
  }

  /** The piece of the chunk in the window after cut `m` sounds at `t`, and what sounds is the chunk's own instant. */
  predicate PlaysAt(chunks: seq<Chunk>, duration: real, cuts: seq<real>, m: nat, c: Chunk, t: real)
    requires m + 1 < |cuts|
  {
    var piece := PieceOf(Schedule(chunks, duration, cuts[m], cuts[m + 1]), c);
    piece.Some? && Sounds(piece.value, t)
    && piece.value.sourceOffset + (t - piece.value.timelineStart) == t - c.start
  }

  predicate SoundsIn(chunks: seq<Chunk>, duration: real, cuts: seq<real>, m: nat, c: Chunk, t: real)
    requires m + 1 < |cuts|
  {
    var piece := PieceOf(Schedule(chunks, duration, cuts[m], cuts[m + 1]), c);
    piece.Some? && Sounds(piece.value, t)
  }

  /** A window sounds a chunk at exactly the instants they share, each at its own place in the chunk. */
  lemma WindowSounds(chunks: seq<Chunk>, duration: real, cuts: seq<real>, m: nat, c: Chunk, t: real)
    requires Manifest(chunks) && IsDuration(chunks, duration) && c in chunks && m + 1 < |cuts|
    ensures SoundsIn(chunks, duration, cuts, m, c, t) <==> cuts[m] <= t < cuts[m + 1] && Covers(c, t)
    ensures SoundsIn(chunks, duration, cuts, m, c, t) ==> PlaysAt(chunks, duration, cuts, m, c, t)
  {
    hide Items, PieceOf, ChunkOk, Named, Mixed;
    ManifestIsNamed(chunks);
    PieceIsClip(chunks, cuts[m], Min(cuts[m + 1], duration), GainOf(chunks), c);
    PieceSounds(c, cuts[m], Min(cuts[m + 1], duration), GainOf(chunks), t);
    assert End(c) <= duration;
  }

  /** The window an instant is in. */
  lemma {:induction false} WindowOf(cuts: seq<real>, t: real) returns (m: nat)
    requires Rising(cuts) && cuts[0] <= t < cuts[|cuts| - 1]
    ensures m + 1 < |cuts| && cuts[m] <= t < cuts[m + 1]
    decreases |cuts|
  {
    m := |cuts| - 2;
    if t < cuts[m] {
      m := WindowOf(cuts[..m + 1], t);
    }
  }

  /** The window after cut `m` plays the chunk at this instant, and no other window does. */
  predicate OnlyPlaysIn(chunks: seq<Chunk>, duration: real, cuts: seq<real>, m: nat, c: Chunk, t: real)
    requires m + 1 < |cuts|
  {
    PlaysAt(chunks, duration, cuts, m, c, t)
    && forall l :: 0 <= l < |cuts| - 1 && l != m ==> !SoundsIn(chunks, duration, cuts, l, c, t)
  }

  /**
   However the timeline is cut into windows, each instant of a chunk is sounded by exactly one of them, at the place
   that instant has in the chunk; and at no other instant does a window sound the chunk.
   */
  lemma EveryInstantPlaysOnce(chunks: seq<Chunk>, duration: real, cuts: seq<real>, c: Chunk, t: real)
    requires Manifest(chunks) && IsDuration(chunks, duration) && c in chunks && Rising(cuts)
    requires cuts[0] == 0.0 && cuts[|cuts| - 1] >= duration
    ensures Covers(c, t) ==> exists m :: 0 <= m < |cuts| - 1 && OnlyPlaysIn(chunks, duration, cuts, m, c, t)
    ensures !Covers(c, t) ==> forall l :: 0 <= l < |cuts| - 1 ==> !SoundsIn(chunks, duration, cuts, l, c, t)
  {
    hide SoundsIn, PlaysAt, Manifest, IsDuration;
    forall l | 0 <= l < |cuts| - 1 && !Covers(c, t)
      ensures !SoundsIn(chunks, duration, cuts, l, c, t)
    {
      WindowSounds(chunks, duration, cuts, l, c, t);
    }
    if Covers(c, t) {
      ChunkWithin(chunks, duration, c);
      var m := WindowOf(cuts, t);
      WindowSounds(chunks, duration, cuts, m, c, t);
      forall l | 0 <= l < |cuts| - 1 && l != m
        ensures !SoundsIn(chunks, duration, cuts, l, c, t)
      {
        WindowSounds(chunks, duration, cuts, l, c, t);
        assert if l < m then cuts[l + 1] <= cuts[m] else cuts[m + 1] <= cuts[l];
      }
      assert OnlyPlaysIn(chunks, duration, cuts, m, c, t);
    }
  }

  lemma ChunkWithin(chunks: seq<Chunk>, duration: real, c: Chunk)
    requires Manifest(chunks) && IsDuration(chunks, duration) && c in chunks
    ensures 0.0 <= c.start && End(c) <= duration
  {
    var i :| 0 <= i < |chunks| && chunks[i] == c;
    assert ChunkOk(chunks, i) && End(chunks[i]) <= duration;
  }

  // ----- loudness ------------------------------------------------------------------------------

  /** The sum of the gains of what plays at `t`. */
  function Loudness(items: seq<Item>, t: real): real {
    if items == [] then 0.0 else
    var last := items[|items| - 1];
    Loudness(items[..|items| - 1], t) + (if Sounds(last, t) then last.gain else 0.0)
  }

  function Covering(chunks: seq<Chunk>, source: Source, t: real): nat {
    if chunks == [] then 0 else
    var last := chunks[|chunks| - 1];
    Covering(chunks[..|chunks| - 1], source, t) + (if last.source == source && Covers(last, t) then 1 else 0)
  }

  /** No two chunks of one source overlap. */
  predicate Disjoint(chunks: seq<Chunk>) {
    forall i, j :: 0 <= i < j < |chunks| && chunks[i].source == chunks[j].source ==>
      !(Max(chunks[i].start, chunks[j].start) < Min(End(chunks[i]), End(chunks[j])))
  }

  function Times(gain: real, n: nat): real {
    if n == 0 then 0.0 else Times(gain, n - 1) + gain
  }

  lemma {:induction false} OneTimes(n: nat)
    ensures Times(1.0, n) == n as real
  {
    if n > 0 {
      OneTimes(n - 1);
    }
  }

  lemma LoudnessOfMore(items: seq<Item>, item: Option<Item>, t: real)
    ensures Loudness(items + Listed(item), t)
      == Loudness(items, t) + (if item.Some? && Sounds(item.value, t) then item.value.gain else 0.0)
  {
    match item
    case None => assert items + [] == items;
    case Some(x) => assert (items + [x])[..|items|] == items;
  }

  lemma {:induction false} LoudnessCounts(chunks: seq<Chunk>, a: real, b: real, gain: real, t: real)
    ensures Loudness(Items(chunks, a, b, gain), t)
      == if a <= t < b then Times(gain, Covering(chunks, Microphone, t) + Covering(chunks, System, t)) else 0.0
  {
    hide Loudness, Clip, Covers, Sounds, Listed;
    if chunks != [] {
      var front, last := chunks[..|chunks| - 1], chunks[|chunks| - 1];
      LoudnessCounts(front, a, b, gain, t);
      PieceSounds(last, a, b, gain, t);
      LoudnessOfMore(Items(front, a, b, gain), Clip(last, a, b, gain), t);
      assert last.source == Microphone || last.source == System;
      var n := Covering(front, Microphone, t) + Covering(front, System, t);
      assert Covering(chunks, Microphone, t) + Covering(chunks, System, t) == n + if Covers(last, t) then 1 else 0;
    } else {
      assert Loudness([], t) == 0.0 by { NothingSounds(t); }
    }
  }

  lemma NothingSounds(t: real)
    ensures Loudness([], t) == 0.0
  {
  }

  lemma {:induction false} AtMostOneCovers(chunks: seq<Chunk>, source: Source, t: real)
    requires Disjoint(chunks)
    ensures Covering(chunks, source, t) <= 1
    ensures Covering(chunks, source, t) == 1 <==>
      exists i :: 0 <= i < |chunks| && chunks[i].source == source && Covers(chunks[i], t)
  {
    if chunks != [] {
      var front, last := chunks[..|chunks| - 1], chunks[|chunks| - 1];
      AtMostOneCovers(front, source, t);
      if last.source == source && Covers(last, t) {
        forall i | 0 <= i < |front|
          ensures !(front[i].source == source && Covers(front[i], t))
        {
          assert chunks[i].source == last.source ==>
            !(Max(chunks[i].start, last.start) < Min(End(chunks[i]), End(last)));
        }
        assert Covers(chunks[|chunks| - 1], t);
      } else {
        assert forall i :: 0 <= i < |front| ==> front[i] == chunks[i];
      }
    }
  }

  /** The mix never exceeds full scale when the chunks of each source do not overlap. */
  lemma NeverTooLoud(chunks: seq<Chunk>, duration: real, a: real, b: real, t: real)
    requires Disjoint(chunks)
    ensures Loudness(Schedule(chunks, duration, a, b), t) <= 1.0
  {
    LoudnessCounts(chunks, a, Min(b, duration), GainOf(chunks), t);
    AtMostOneCovers(chunks, Microphone, t);
    AtMostOneCovers(chunks, System, t);
    var n := Covering(chunks, Microphone, t) + Covering(chunks, System, t);
    assert n == 1 ==> Times(GainOf(chunks), n) == GainOf(chunks);
    assert n == 2 ==> Times(GainOf(chunks), n) == Times(GainOf(chunks), 1) + GainOf(chunks);
  }

  /** A source whose chunks start where the last one ends, or later, has no overlap. */
  lemma GapsAreDisjoint(chunks: seq<Chunk>)
    requires forall i :: 0 <= i < |chunks| ==>
      0.0 < chunks[i].duration && LastEnd(chunks[..i], chunks[i].source) <= chunks[i].start
    ensures Disjoint(chunks)
  {
    forall i, j | 0 <= i < j < |chunks| && chunks[i].source == chunks[j].source
      ensures End(chunks[i]) <= chunks[j].start
    {
      EndsBelow(chunks, i, j);
    }
  }

  lemma {:induction false} EndsBelow(chunks: seq<Chunk>, i: nat, j: nat)
    requires i < j <= |chunks|
    requires forall k :: 0 <= k < |chunks| ==>
      0.0 < chunks[k].duration && LastEnd(chunks[..k], chunks[k].source) <= chunks[k].start
    ensures End(chunks[i]) <= LastEnd(chunks[..j], chunks[i].source)
    decreases j
  {
    assert chunks[..j][..j - 1] == chunks[..j - 1];
    if i < j - 1 {
      EndsBelow(chunks, i, j - 1);
    }
  }

  /** So recordings without any overlap are never too loud, in any window. */
  lemma GapsAreNeverTooLoud(chunks: seq<Chunk>, duration: real, a: real, b: real, t: real)
    requires forall i :: 0 <= i < |chunks| ==>
      0.0 < chunks[i].duration && LastEnd(chunks[..i], chunks[i].source) <= chunks[i].start
    ensures Loudness(Schedule(chunks, duration, a, b), t) <= 1.0
  {
    GapsAreDisjoint(chunks);
    NeverTooLoud(chunks, duration, a, b, t);
  }

  /**
   The millisecond `validateChunks` tolerates matters: with one source, the mix stays within full scale at
   every instant if and only if no two chunks overlap at all.
   */
  lemma OneSourceTooLoudIff(chunks: seq<Chunk>, duration: real)
    requires Manifest(chunks) && IsDuration(chunks, duration) && !Mixed(chunks)
    ensures (forall t :: Loudness(Schedule(chunks, duration, 0.0, duration), t) <= 1.0) <==> Disjoint(chunks)
  {
    if Disjoint(chunks) {
      forall t
        ensures Loudness(Schedule(chunks, duration, 0.0, duration), t) <= 1.0
      {
        NeverTooLoud(chunks, duration, 0.0, duration, t);
      }
    } else {
      hide Items, Loudness, Covering, ChunkOk;
      var i, j :| 0 <= i < j < |chunks| && chunks[i].source == chunks[j].source
        && Max(chunks[i].start, chunks[j].start) < Min(End(chunks[i]), End(chunks[j]));
      var t := Max(chunks[i].start, chunks[j].start);
      StartsLate(chunks, i);
      assert End(chunks[i]) <= duration;
      LoudnessCounts(chunks, 0.0, duration, 1.0, t);
      TwoCover(chunks, i, j, t);
      OneTimes(Covering(chunks, Microphone, t) + Covering(chunks, System, t));
      assert Loudness(Schedule(chunks, duration, 0.0, duration), t) > 1.0;
    }
  }

  lemma StartsLate(chunks: seq<Chunk>, i: nat)
    requires Manifest(chunks) && i < |chunks|
    ensures 0.0 <= chunks[i].start && 0.0 < chunks[i].duration
  {
    assert ChunkOk(chunks, i);
  }

  lemma {:induction false} TwoCover(chunks: seq<Chunk>, i: nat, j: nat, t: real)
    requires i < j < |chunks| && chunks[i].source == chunks[j].source
    requires Covers(chunks[i], t) && Covers(chunks[j], t)
    ensures Covering(chunks, chunks[i].source, t) >= 2
  {
    if j == |chunks| - 1 {
      OneCovers(chunks[..j], i, t);
    } else {
      TwoCover(chunks[..|chunks| - 1], i, j, t);
    }
  }

  lemma {:induction false} OneCovers(chunks: seq<Chunk>, i: nat, t: real)
    requires i < |chunks| && Covers(chunks[i], t)
    ensures Covering(chunks, chunks[i].source, t) >= 1
  {
    if i < |chunks| - 1 {
      OneCovers(chunks[..|chunks| - 1], i, t);
    }
  }

  /** How many chunks, of either source, cover the instant. */
  function Total(chunks: seq<Chunk>, t: real): nat {
    Covering(chunks, Microphone, t) + Covering(chunks, System, t)
  }

  /** How many chunks may sound together. */
  function Room(chunks: seq<Chunk>): nat { if Mixed(chunks) then 2 else 1 }

  lemma {:induction false} HalfTimes(n: nat)
    ensures Times(0.5, n) == n as real / 2.0
  {
    if n > 0 {
      HalfTimes(n - 1);
    }
  }

  lemma WithinRoom(chunks: seq<Chunk>, n: nat)
    ensures Times(GainOf(chunks), n) <= 1.0 <==> n <= Room(chunks)
  {
    HalfTimes(n);
    OneTimes(n);
  }

  lemma {:induction false} CoverTogether(chunks: seq<Chunk>, source: Source, t: real, u: real)
    requires forall i :: 0 <= i < |chunks| && Covers(chunks[i], t) ==> Covers(chunks[i], u)
    ensures Covering(chunks, source, t) <= Covering(chunks, source, u)
  {
    if chunks != [] {
      assert Covers(chunks[|chunks| - 1], t) ==> Covers(chunks[|chunks| - 1], u);
      CoverTogether(chunks[..|chunks| - 1], source, t, u);
    }
  }

  /** Of the chunks that cover an instant, one that starts last. */
  lemma {:induction false} LatestStart(chunks: seq<Chunk>, t: real) returns (i: nat)
    requires exists j :: 0 <= j < |chunks| && Covers(chunks[j], t)
    ensures i < |chunks| && Covers(chunks[i], t)
    ensures forall j :: 0 <= j < |chunks| && Covers(chunks[j], t) ==> chunks[j].start <= chunks[i].start
  {
    var front, last := chunks[..|chunks| - 1], chunks[|chunks| - 1];
    if exists j :: 0 <= j < |front| && Covers(front[j], t) {
      i := LatestStart(front, t);
      assert forall j :: 0 <= j < |front| ==> front[j] == chunks[j];
      if Covers(last, t) && chunks[i].start < last.start {
        i := |chunks| - 1;
      }
    } else {
      i := |chunks| - 1;
      assert forall j :: 0 <= j < |front| ==> front[j] == chunks[j];
    }
  }

  lemma {:induction false} SomeCovers(chunks: seq<Chunk>, source: Source, t: real)
    requires Covering(chunks, source, t) > 0
    ensures exists j :: 0 <= j < |chunks| && Covers(chunks[j], t)
  {
    var front, last := chunks[..|chunks| - 1], chunks[|chunks| - 1];
    if Covering(front, source, t) > 0 {
      SomeCovers(front, source, t);
      var j :| 0 <= j < |front| && Covers(front[j], t);
      assert Covers(chunks[j], t);
    } else {
      assert Covers(chunks[|chunks| - 1], t);
    }
  }

  /** No instant is covered by more chunks than the start of some chunk is. */
  lemma CrowdedAtSomeStart(chunks: seq<Chunk>, t: real)
    requires Total(chunks, t) > 0
    ensures exists i :: 0 <= i < |chunks| && Total(chunks, t) <= Total(chunks, chunks[i].start)
  {
    SomeCovers(chunks, if Covering(chunks, Microphone, t) > 0 then Microphone else System, t);
    var i := LatestStart(chunks, t);
    CoverTogether(chunks, Microphone, t, chunks[i].start);
    CoverTogether(chunks, System, t, chunks[i].start);
  }

  lemma LoudIff(chunks: seq<Chunk>, duration: real, t: real)
    ensures Loudness(Schedule(chunks, duration, 0.0, duration), t) <= 1.0
       <==> (0.0 <= t < duration ==> Total(chunks, t) <= Room(chunks))
  {
    hide Items, Loudness, Covering, Mixed, GainOf, Times, Room;
    LoudnessCounts(chunks, 0.0, duration, GainOf(chunks), t);
    WithinRoom(chunks, Total(chunks, t));
  }

  lemma StartsWithin(chunks: seq<Chunk>, duration: real, i: nat)
    requires Manifest(chunks) && IsDuration(chunks, duration) && i < |chunks|
    ensures 0.0 <= chunks[i].start < duration
  {
    StartsLate(chunks, i);
    assert End(chunks[i]) <= duration;
  }

  /**
   Every recording: the mix stays within full scale at every instant if and only if no more chunks than one, or
   two when both sources were captured, meet at the start of any chunk.
   */
  lemma TooLoudIff(chunks: seq<Chunk>, duration: real)
    requires Manifest(chunks) && IsDuration(chunks, duration)
    ensures (forall t :: Loudness(Schedule(chunks, duration, 0.0, duration), t) <= 1.0)
       <==> (forall i :: 0 <= i < |chunks| ==> Total(chunks, chunks[i].start) <= Room(chunks))
  {
    hide Loudness, Items, Total, Room, Manifest, IsDuration;
    forall i | 0 <= i < |chunks|
      ensures Loudness(Schedule(chunks, duration, 0.0, duration), chunks[i].start) <= 1.0
         <==> Total(chunks, chunks[i].start) <= Room(chunks)
    {
      LoudIff(chunks, duration, chunks[i].start);
      StartsWithin(chunks, duration, i);
    }
    forall t | Loudness(Schedule(chunks, duration, 0.0, duration), t) > 1.0
      ensures exists i :: 0 <= i < |chunks| && Total(chunks, chunks[i].start) > Room(chunks)
    {
      LoudIff(chunks, duration, t);
      CrowdedAtSomeStart(chunks, t);
    }
    if i :| 0 <= i < |chunks| && Total(chunks, chunks[i].start) > Room(chunks) {
      assert !(Loudness(Schedule(chunks, duration, 0.0, duration), chunks[i].start) <= 1.0);
      assert exists t :: !(Loudness(Schedule(chunks, duration, 0.0, duration), t) <= 1.0);
    }
  }

  lemma CoveringOfMore(chunks: seq<Chunk>, c: Chunk, source: Source, t: real)
    ensures Covering(chunks + [c], source, t)
      == Covering(chunks, source, t) + if c.source == source && Covers(c, t) then 1 else 0
  {
    assert (chunks + [c])[..|chunks|] == chunks;
  }

  /** Two chunks of the microphone that overlap by half a millisecond. */
  function Overlapping(): seq<Chunk> {
    [Chunk(Microphone, 0, 0.0, 1.0, 1)] + [Chunk(Microphone, 1, 0.9995, 1.0, 1)]
  }

  lemma OverlappingCovers()
    ensures Covering(Overlapping(), Microphone, 0.9998) == 2 && Covering(Overlapping(), System, 0.9998) == 0
  {
    var first, second := Chunk(Microphone, 0, 0.0, 1.0, 1), Chunk(Microphone, 1, 0.9995, 1.0, 1);
    CoveringOfMore([first], second, Microphone, 0.9998);
    CoveringOfMore([first], second, System, 0.9998);
    assert [first][..0] == [];
  }

  lemma OverlappingManifest()
    ensures Manifest(Overlapping()) && !Mixed(Overlapping()) && !Disjoint(Overlapping())
    ensures IsDuration(Overlapping(), 1.9995)
    ensures Count(Overlapping(), System) == 0 && LastEnd(Overlapping(), System) == 0.0
  {
    var chunks := Overlapping();
    assert chunks[..0] == [] && chunks[..1] == [chunks[0]];
    assert Max(chunks[0].start, chunks[1].start) < Min(End(chunks[0]), End(chunks[1]));
    assert End(chunks[1]) == 1.9995;
  }

  /** A manifest the player accepts, and an instant at which its mix is twice full scale. */
  lemma ToleratedOverlap()
    ensures Manifest(Overlapping()) && !Mixed(Overlapping()) && !Disjoint(Overlapping())
    ensures IsDuration(Overlapping(), 1.9995)
    ensures Loudness(Schedule(Overlapping(), 1.9995, 0.0, 1.9995), 0.9998) == 2.0
  {
    hide Items, Loudness, Covering, Overlapping, Manifest, Disjoint, IsDuration, Times, Mixed;
    OverlappingManifest();
    OverlappingCovers();
    LoudnessCounts(Overlapping(), 0.0, 1.9995, 1.0, 0.9998);
    OneTimes(2);
  }

  const SYSTEM := Chunk(System, 0, 0.0, 2.0, 1)

  lemma MixedManifest()
    ensures Manifest(Overlapping() + [SYSTEM]) && Mixed(Overlapping() + [SYSTEM])
    ensures IsDuration(Overlapping() + [SYSTEM], 2.0)
  {
    OverlappingManifest();
    MoreManifest(Overlapping(), SYSTEM);
    var chunks := Overlapping() + [SYSTEM];
    assert chunks[0].source == Microphone && chunks[2].source == System && End(chunks[2]) == 2.0;
    hide Manifest;
  }

  /** The same with the system captured too: three chunks at half gain. */
  lemma ToleratedMixedOverlap()
    ensures var chunks := Overlapping() + [SYSTEM];
      Manifest(chunks) && Mixed(chunks) && IsDuration(chunks, 2.0)
      && Loudness(Schedule(chunks, 2.0, 0.0, 2.0), 0.9998) == 1.5
  {
    hide Items, Loudness, Covering, Overlapping, Manifest, IsDuration, Times, Mixed;
    MixedManifest();
    OverlappingCovers();
    CoveringOfMore(Overlapping(), SYSTEM, Microphone, 0.9998);
    CoveringOfMore(Overlapping(), SYSTEM, System, 0.9998);
    LoudnessCounts(Overlapping() + [SYSTEM], 0.0, 2.0, 0.5, 0.9998);
    HalfTimes(3);
  }

  lemma MoreManifest(chunks: seq<Chunk>, c: Chunk)
    requires Manifest(chunks) && Follows(c, Count(chunks, c.source), LastEnd(chunks, c.source))
    ensures Manifest(chunks + [c])
  {
    var more := chunks + [c];
    forall i | 0 <= i < |more|
      ensures ChunkOk(more, i)
    {
      assert i < |chunks| ==> more[..i] == chunks[..i] && ChunkOk(chunks, i);
      assert i == |chunks| ==> more[..i] == chunks;
    }
  }
}

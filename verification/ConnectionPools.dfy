/**
 `connection-pools.ts`: leased connection pools. Each stretch of the source between two awaits runs without
 interruption, so it is one step; the runs are all interleavings of those steps. `Pool` is the state as a
 value, the class has the source's fields, and every method of the class is tied to a step on the value.
 */
module ConnectionPools {
  import opened Wrappers

  /** The promise of a resource. */
  datatype Creation = Creating | Ready | Failed

  /** How far the `closing` promise of an entry has got. */
  datatype Closing = Open | Queued | Disposing

  /** The fields of an entry; `key` and `handled` belong to the failure handler its creation registers. */
  datatype Lease = Lease(
    key: string,
    resource: Creation,
    active: nat,
    retired: bool,
    closing: Closing,
    handled: bool
  )

  /** The pools, with the entries ever made, numbered, and the disposals begun, in order. */
  datatype Pool<E> = Pool(
    entries: seq<(string, E)>,
    all: map<E, Lease>,
    stopped: bool,
    created: map<E, nat>,
    disposed: seq<E>
  )

  datatype Refusal = Stopping | Busy

  function Empty<E>(): Pool<E> { Pool([], map[], false, map[], []) }

  // ----- the steps ------------------------------------------------------------

  /** Where the map has the key, or the number of its entries. */
  function Find<E>(entries: seq<(string, E)>, key: string): (i: nat)
    ensures i <= |entries|
    ensures i < |entries| ==> entries[i].0 == key
    ensures forall j :: 0 <= j < i ==> entries[j].0 != key
  {
    if entries == [] || entries[0].0 == key then 0 else 1 + Find(entries[1..], key)
  }

  /** Mark an entry retired, and close it once nobody leases it. */
  function Retired(l: Lease): Lease {
    l.(retired := true, closing := if l.active == 0 && l.closing == Open then Queued else l.closing)
  }

  function EntryRetired<E>(p: Pool<E>, e: E): Pool<E>
    requires e in p.all
  {
    p.(all := p.all[e := Retired(p.all[e])])
  }

  /** The start of `use`: join the entry of the key, or make one, evicting the oldest when the map is full. */
  function UseBegun<E>(p: Pool<E>, limit: nat, key: string, fresh': E): Result<(Pool<E>, E), Refusal>
    requires forall i :: 0 <= i < |p.entries| ==> p.entries[i].1 in p.all
  {
    if p.stopped then Err(Stopping) else
    var at := Find(p.entries, key);
    if at < |p.entries| then
      var e := p.entries[at].1;
      Ok((p.(all := p.all[e := p.all[e].(active := p.all[e].active + 1)]), e))
    else if |p.all| >= limit * 2 then Err(Busy) else
    var q := if |p.entries| >= limit then EntryRetired(p.(entries := p.entries[1..]), p.entries[0].1) else p;
    Ok((q.(entries := q.entries + [(key, fresh')],
           all := q.all[fresh' := Lease(key, Creating, 1, false, Open, false)],
           created := q.created[fresh' := |q.created|]), fresh'))
  }

  /** The creation of a resource succeeds or fails. */
  function Settled<E>(p: Pool<E>, e: E, ok: bool): Pool<E>
    requires e in p.all
  {
    p.(all := p.all[e := p.all[e].(resource := if ok then Ready else Failed)])
  }

  /** The handler a failed creation runs: forget the entry, if the map still has it, and retire it. */
  function FailureDealtWith<E(==)>(p: Pool<E>, e: E): Pool<E>
    requires e in p.all
  {
    var at := Find(p.entries, p.all[e].key);
    var q := if at < |p.entries| && p.entries[at].1 == e
             then p.(entries := p.entries[..at] + p.entries[at + 1..]) else p;
    EntryRetired(q.(all := q.all[e := q.all[e].(handled := true)]), e)
  }

  /** The end of `use`: give the lease back. */
  function UseEnded<E>(p: Pool<E>, e: E): Pool<E>
    requires e in p.all && p.all[e].active > 0
  {
    var l := p.all[e].(active := p.all[e].active - 1);
    p.(all := p.all[e := if l.retired then Retired(l) else l])
  }

  /** The closing promise reaches the resource and calls `dispose` on it. */
  function DisposeBegun<E>(p: Pool<E>, e: E): Pool<E>
    requires e in p.all
  {
    p.(all := p.all[e := p.all[e].(closing := Disposing)], disposed := p.disposed + [e])
  }

  /** The closing promise is done and the entry is no longer tracked. */
  function Forgotten<E>(p: Pool<E>, e: E): Pool<E> {
    p.(all := p.all - {e})
  }

  function Closed<E>(p: Pool<E>): Pool<E> {
    p.(stopped := true, entries := [], all := map e | e in p.all :: Retired(p.all[e]))
  }

  /** What can happen next. A step that is not possible in a state has no outcome there. */
  datatype Event<E> =
    | UseBegins(key: string, fresh': E)
    | Settles(entry: E, ok: bool)
    | FailureHandled(entry: E)
    | UseEnds(entry: E)
    | DisposeBegins(entry: E)
    | ClosingEnds(entry: E)
    | Closes

  predicate Enabled<E(==)>(p: Pool<E>, ev: Event<E>) {
    match ev
    case UseBegins(_, fresh') => fresh' !in p.created
    case Settles(e, _) => e in p.all && p.all[e].resource == Creating
    case FailureHandled(e) => e in p.all && p.all[e].resource == Failed && !p.all[e].handled
    case UseEnds(e) => e in p.all && p.all[e].active > 0 && p.all[e].resource != Creating
    case DisposeBegins(e) => e in p.all && p.all[e].closing == Queued && p.all[e].resource == Ready
    case ClosingEnds(e) =>
      e in p.all && (p.all[e].closing == Disposing || (p.all[e].closing == Queued && p.all[e].resource == Failed))
    case Closes => true
  }

  function Apply<E(==)>(p: Pool<E>, limit: nat, ev: Event<E>): Pool<E>
    requires Inv(p, limit) && Enabled(p, ev)
  {
    match ev
    case UseBegins(key, fresh') =>
      (match UseBegun(p, limit, key, fresh') case Ok(r) => r.0 case Err(_) => p)
    case Settles(e, ok) => Settled(p, e, ok)
    case FailureHandled(e) => FailureDealtWith(p, e)
    case UseEnds(e) => UseEnded(p, e)
    case DisposeBegins(e) => DisposeBegun(p, e)
    case ClosingEnds(e) => Forgotten(p, e)
    case Closes => Closed(p)
  }

  // ----- the invariant ----------------------------------------------------------

  predicate InMap<E(==)>(p: Pool<E>, e: E) {
    exists i :: 0 <= i < |p.entries| && p.entries[i].1 == e
  }

  predicate LeaseOk(l: Lease, inMap: bool) {
    && (inMap ==> !l.retired && !(l.resource == Failed && l.handled))
    && (!inMap ==> l.retired && (l.active > 0 || l.closing != Open))
    && (l.closing != Open ==> l.retired && l.active == 0 && l.resource != Creating)
    && (l.handled ==> l.resource == Failed)
    && (l.closing == Disposing ==> l.resource == Ready)
    && (l.resource == Creating ==> l.active > 0)
  }

  /** The map keeps the order in which its entries were made. */
  predicate InOrder<E(==)>(p: Pool<E>) {
    && (forall i :: 0 <= i < |p.entries| ==> p.entries[i].1 in p.created)
    && (forall i, j :: 0 <= i < j < |p.entries| ==> p.created[p.entries[i].1] < p.created[p.entries[j].1])
    && (forall e :: e in p.created ==> p.created[e] < |p.created|)
  }

  predicate Inv<E(==)>(p: Pool<E>, limit: nat) {
    && |p.entries| <= limit
    && |p.all| <= 2 * limit
    && (p.stopped ==> p.entries == [])
    && (forall i :: 0 <= i < |p.entries| ==> p.entries[i].1 in p.all && p.all[p.entries[i].1].key == p.entries[i].0)
    && (forall i, j :: 0 <= i < j < |p.entries| ==> p.entries[i].0 != p.entries[j].0)
    && InOrder(p)
    && (forall e :: e in p.all ==> e in p.created && LeaseOk(p.all[e], InMap(p, e)))
    && (forall e :: e in p.disposed ==> e in p.created && (e in p.all ==> p.all[e].closing == Disposing))
    && (forall i, j :: 0 <= i < j < |p.disposed| ==> p.disposed[i] != p.disposed[j])
  }

  // ----- every step keeps the invariant -------------------------------------------

  lemma EmptyInv<E>(limit: nat)
    ensures Inv(Empty<E>(), limit)
  {
  }

  lemma DistinctEntries<E>(p: Pool<E>, limit: nat, at: nat)
    requires Inv(p, limit) && at < |p.entries|
    ensures forall i :: 0 <= i < |p.entries| && i != at ==> p.entries[i].1 != p.entries[at].1
  {
    forall i | 0 <= i < |p.entries| && i != at
      ensures p.entries[i].1 != p.entries[at].1
    {
      assert p.entries[i].0 != p.entries[at].0;
    }
  }

  /** Changing the fields of one entry, with the map as it was. */
  lemma UpdateInv<E>(p: Pool<E>, limit: nat, e: E, l: Lease)
    requires Inv(p, limit) && e in p.all
    requires l.key == p.all[e].key && LeaseOk(l, InMap(p, e))
    requires e in p.disposed ==> l.closing == Disposing
    ensures Inv(p.(all := p.all[e := l]), limit)
  {
    var q := p.(all := p.all[e := l]);
    assert q.all.Keys == p.all.Keys;
    forall x
      ensures InMap(q, x) == InMap(p, x)
    {
    }
    hide LeaseOk, InMap;
  }

  /** Taking one entry out of the map and changing its fields. */
  lemma UnmapInv<E>(p: Pool<E>, limit: nat, at: nat, l: Lease)
    requires Inv(p, limit) && at < |p.entries|
    requires var e := p.entries[at].1;
      l.key == p.all[e].key && LeaseOk(l, false) && (e in p.disposed ==> l.closing == Disposing)
    ensures Inv(p.(entries := p.entries[..at] + p.entries[at + 1..], all := p.all[p.entries[at].1 := l]), limit)
  {
    var e := p.entries[at].1;
    var q := p.(entries := p.entries[..at] + p.entries[at + 1..], all := p.all[e := l]);
    DistinctEntries(p, limit, at);
    StillInOrder(p, q, at);
    hide InOrder;
    assert q.all.Keys == p.all.Keys;
    forall x
      ensures InMap(q, x) == (InMap(p, x) && x != e)
    {
      RemoveAt(p, q, at, x);
    }
    hide LeaseOk, InMap;
  }

  lemma StillInOrder<E>(p: Pool<E>, q: Pool<E>, at: nat)
    requires InOrder(p) && at < |p.entries| && q.created == p.created
    requires q.entries == p.entries[..at] + p.entries[at + 1..]
    ensures InOrder(q)
  {
    assert forall i :: 0 <= i < |q.entries| ==> q.entries[i] == p.entries[if i < at then i else i + 1];
  }

  lemma RemoveAt<E>(p: Pool<E>, q: Pool<E>, at: nat, x: E)
    requires at < |p.entries| && q.entries == p.entries[..at] + p.entries[at + 1..]
    requires forall i :: 0 <= i < |p.entries| && i != at ==> p.entries[i].1 != p.entries[at].1
    ensures InMap(q, x) == (InMap(p, x) && x != p.entries[at].1)
  {
    if InMap(p, x) && x != p.entries[at].1 {
      var i :| 0 <= i < |p.entries| && p.entries[i].1 == x;
      assert q.entries[if i < at then i else i - 1].1 == x;
    }
    if InMap(q, x) {
      var i :| 0 <= i < |q.entries| && q.entries[i].1 == x;
      assert p.entries[if i < at then i else i + 1].1 == x;
    }
  }

  function Added<E>(p: Pool<E>, key: string, entry: E): Pool<E> {
    p.(entries := p.entries + [(key, entry)],
       all := p.all[entry := Lease(key, Creating, 1, false, Open, false)],
       created := p.created[entry := |p.created|])
  }

  lemma AddedLeases<E>(p: Pool<E>, limit: nat, key: string, entry: E)
    requires Inv(p, limit) && entry !in p.created
    ensures var q := Added(p, key, entry);
      forall e :: e in q.all ==> e in q.created && LeaseOk(q.all[e], InMap(q, e))
  {
    hide LeaseOk;
    var q := Added(p, key, entry);
    NewLease(key);
    forall e | e in q.all
      ensures e in q.created && LeaseOk(q.all[e], InMap(q, e))
    {
      AddLast(p, q, (key, entry), e);
      assert e != entry ==> e in p.all && q.all[e] == p.all[e];
    }
  }

  lemma AddedEntries<E>(p: Pool<E>, limit: nat, key: string, entry: E)
    requires Inv(p, limit) && entry !in p.created && Find(p.entries, key) == |p.entries|
    ensures var q := Added(p, key, entry);
      && (forall i :: 0 <= i < |q.entries| ==> q.entries[i].1 in q.all && q.all[q.entries[i].1].key == q.entries[i].0)
      && (forall i, j :: 0 <= i < j < |q.entries| ==> q.entries[i].0 != q.entries[j].0)
  {
    hide LeaseOk, InMap;
    var q := Added(p, key, entry);
    forall i | 0 <= i < |q.entries|
      ensures q.entries[i].1 in q.all && q.all[q.entries[i].1].key == q.entries[i].0
    {
      assert i < |p.entries| ==> q.entries[i] == p.entries[i] && p.entries[i].1 in p.all;
    }
  }

  lemma AddedInOrder<E>(p: Pool<E>, key: string, entry: E)
    requires InOrder(p) && entry !in p.created
    ensures InOrder(Added(p, key, entry))
  {
    var q := Added(p, key, entry);
    assert forall i :: 0 <= i < |p.entries| ==> q.entries[i].1 in p.created && q.created[q.entries[i].1] < |p.created|;
  }

  lemma AddedRest<E>(p: Pool<E>, limit: nat, key: string, entry: E)
    requires |p.entries| < limit && |p.all| < 2 * limit && entry !in p.created
    requires forall e :: e in p.disposed ==> e in p.created && (e in p.all ==> p.all[e].closing == Disposing)
    ensures var q := Added(p, key, entry);
      && |q.entries| <= limit && |q.all| <= 2 * limit && q.stopped == p.stopped && q.disposed == p.disposed
      && (forall e :: e in q.disposed ==> e in q.created && (e in q.all ==> q.all[e].closing == Disposing))
  {
    assert Added(p, key, entry).all.Keys == p.all.Keys + {entry};
  }

  /** Putting a new entry at the end of the map. */
  lemma AddInv<E>(p: Pool<E>, limit: nat, key: string, entry: E)
    requires Inv(p, limit) && !p.stopped && entry !in p.created
    requires |p.entries| < limit && |p.all| < 2 * limit && Find(p.entries, key) == |p.entries|
    ensures Inv(Added(p, key, entry), limit)
  {
    AddedLeases(p, limit, key, entry);
    AddedEntries(p, limit, key, entry);
    AddedInOrder(p, key, entry);
    AddedRest(p, limit, key, entry);
    hide LeaseOk, InMap, InOrder, Added, Find;
  }

  lemma NewLease(key: string)
    ensures LeaseOk(Lease(key, Creating, 1, false, Open, false), true)
  {
  }

  lemma AddLast<E>(p: Pool<E>, q: Pool<E>, last: (string, E), x: E)
    requires q.entries == p.entries + [last]
    ensures InMap(q, x) == (InMap(p, x) || x == last.1)
  {
    if InMap(p, x) {
      var i :| 0 <= i < |p.entries| && p.entries[i].1 == x;
      assert q.entries[i].1 == x;
    }
    assert q.entries[|p.entries|] == last;
  }

  lemma InvParts<E>(p: Pool<E>, limit: nat)
    requires Inv(p, limit)
    ensures |p.entries| <= limit && |p.all| <= 2 * limit
    ensures forall i :: 0 <= i < |p.entries| ==> p.entries[i].1 in p.all && p.all[p.entries[i].1].key == p.entries[i].0
    ensures forall e :: e in p.all ==> e in p.created && LeaseOk(p.all[e], InMap(p, e))
    ensures forall e :: e in p.disposed && e in p.all ==> p.all[e].closing == Disposing
  {
  }

  lemma UseBeginsInv<E>(p: Pool<E>, limit: nat, key: string, entry: E)
    requires Inv(p, limit) && (Find(p.entries, key) == |p.entries| ==> entry !in p.created)
    ensures var r := UseBegun(p, limit, key, entry); r.Ok? ==> Inv(r.value.0, limit)
  {
    hide InMap, Find, Inv;
    InvParts(p, limit);
    var at := Find(p.entries, key);
    if at < |p.entries| {
      var e := p.entries[at].1;
      MappedIsOpen(p, limit, at);
      UpdateInv(p, limit, e, p.all[e].(active := p.all[e].active + 1));
    } else if !p.stopped && |p.all| < limit * 2 {
      if |p.entries| >= limit {
        var oldest := p.entries[0].1;
        var m := EntryRetired(p.(entries := p.entries[1..]), oldest);
        MappedIsOpen(p, limit, 0);
        UnmapInv(p, limit, 0, Retired(p.all[oldest]));
        assert p.entries[..0] + p.entries[1..] == p.entries[1..];
        assert m.all.Keys == p.all.Keys;
        FindAfterDrop(p.entries, key);
        AddInv(m, limit, key, entry);
      } else {
        AddInv(p, limit, key, entry);
      }
    }
  }

  lemma FindAfterDrop<E>(entries: seq<(string, E)>, key: string)
    requires entries != [] && Find(entries, key) == |entries|
    ensures Find(entries[1..], key) == |entries| - 1
  {
  }

  /** An entry of the map is not retired, not closing and not disposed. */
  lemma MappedIsOpen<E>(p: Pool<E>, limit: nat, at: nat)
    requires Inv(p, limit) && at < |p.entries|
    ensures var e := p.entries[at].1;
      && e in p.all && InMap(p, e) && e !in p.disposed
      && !p.all[e].retired && p.all[e].closing == Open
  {
    var e := p.entries[at].1;
    assert InMap(p, e);
    assert LeaseOk(p.all[e], true);
  }

  lemma FailureInv<E>(p: Pool<E>, limit: nat, e: E)
    requires Inv(p, limit) && Enabled(p, FailureHandled(e))
    ensures Inv(FailureDealtWith(p, e), limit)
  {
    hide InMap, Find, Inv;
    InvParts(p, limit);
    var at := Find(p.entries, p.all[e].key);
    var l := Retired(p.all[e].(handled := true));
    assert LeaseOk(p.all[e], InMap(p, e));
    if at < |p.entries| && p.entries[at].1 == e {
      MappedIsOpen(p, limit, at);
      UnmapInv(p, limit, at, l);
      assert FailureDealtWith(p, e)
        == p.(entries := p.entries[..at] + p.entries[at + 1..], all := p.all[p.entries[at].1 := l]);
    } else {
      KeyFindsEntry(p, limit, e);
      UpdateInv(p, limit, e, l);
      assert FailureDealtWith(p, e) == p.(all := p.all[e := l]);
    }
  }

  /** The key of an entry finds it exactly when the map has it. */
  lemma KeyFindsEntry<E>(p: Pool<E>, limit: nat, e: E)
    requires Inv(p, limit) && e in p.all
    ensures InMap(p, e) <==> var at := Find(p.entries, p.all[e].key); at < |p.entries| && p.entries[at].1 == e
  {
    if InMap(p, e) {
      var i :| 0 <= i < |p.entries| && p.entries[i].1 == e;
      assert p.entries[i].0 == p.all[e].key;
      assert Find(p.entries, p.all[e].key) == i;
    }
  }

  lemma CloseInv<E>(p: Pool<E>, limit: nat)
    requires Inv(p, limit)
    ensures Inv(Closed(p), limit)
  {
    var q := Closed(p);
    assert q.all.Keys == p.all.Keys;
    forall e | e in q.all
      ensures LeaseOk(q.all[e], InMap(q, e))
    {
      assert LeaseOk(p.all[e], InMap(p, e));
    }
  }

  lemma ForgetInv<E>(p: Pool<E>, limit: nat, e: E)
    requires Inv(p, limit) && Enabled(p, ClosingEnds(e))
    ensures Inv(Forgotten(p, e), limit)
  {
    var q := Forgotten(p, e);
    assert q.all.Keys == p.all.Keys - {e};
    forall x
      ensures InMap(q, x) == InMap(p, x)
    {
    }
    assert LeaseOk(p.all[e], InMap(p, e));
    assert forall i :: 0 <= i < |p.entries| ==> InMap(p, p.entries[i].1);
  }

  lemma DisposeInv<E>(p: Pool<E>, limit: nat, e: E)
    requires Inv(p, limit) && Enabled(p, DisposeBegins(e))
    ensures Inv(DisposeBegun(p, e), limit)
  {
    assert LeaseOk(p.all[e], InMap(p, e));
    assert e !in p.disposed;
    var m := p.(disposed := p.disposed + [e]);
    var l := p.all[e].(closing := Disposing);
    UpdateInv(p, limit, e, l);
    var q := p.(all := p.all[e := l]);
    assert DisposeBegun(p, e) == q.(disposed := p.disposed + [e]);
    forall x
      ensures InMap(DisposeBegun(p, e), x) == InMap(q, x)
    {
    }
    hide LeaseOk, InMap;
  }

  lemma ApplyInv<E>(p: Pool<E>, limit: nat, ev: Event<E>)
    requires Inv(p, limit) && Enabled(p, ev)
    ensures Inv(Apply(p, limit, ev), limit)
  {
    hide InMap, Find, Inv, UseBegun, FailureDealtWith, Closed;
    InvParts(p, limit);
    match ev
    case UseBegins(key, entry) =>
      UseBeginsInv(p, limit, key, entry);
    case Settles(e, ok) =>
      assert LeaseOk(p.all[e], InMap(p, e));
      UpdateInv(p, limit, e, p.all[e].(resource := if ok then Ready else Failed));
    case FailureHandled(e) =>
      FailureInv(p, limit, e);
    case UseEnds(e) =>
      assert LeaseOk(p.all[e], InMap(p, e));
      var l := p.all[e].(active := p.all[e].active - 1);
      UpdateInv(p, limit, e, if l.retired then Retired(l) else l);
    case DisposeBegins(e) =>
      DisposeInv(p, limit, e);
    case ClosingEnds(e) =>
      ForgetInv(p, limit, e);
    case Closes =>
      CloseInv(p, limit);
  }

  // ----- all runs ----------------------------------------------------------------------

  /** The state after a run, if every event in it was possible when it came. */
  function Run<E>(p: Pool<E>, limit: nat, evs: seq<Event<E>>): (r: Option<Pool<E>>)
    requires Inv(p, limit)
    ensures r.Some? ==> Inv(r.value, limit)
    decreases |evs|
  {
    if evs == [] then Some(p)
    else if !Enabled(p, evs[0]) then None
    else
      ApplyInv(p, limit, evs[0]);
      Run(Apply(p, limit, evs[0]), limit, evs[1..])
  }

  function RunFromEmpty<E>(limit: nat, evs: seq<Event<E>>): (r: Option<Pool<E>>)
    ensures r.Some? ==> Inv(r.value, limit)
  {
    EmptyInv<E>(limit);
    Run(Empty(), limit, evs)
  }

  /**
   Main result, safety: after any run from the empty pools, no disposed resource is leased or can still be
   joined, each was disposed at most once, an entry that is tracked outside the map is retired and either
   leased or closing, and no closing is queued for one that is leased or in the map. There are at most `limit`
   entries in the map and twice as many tracked.
   */
  lemma RunsAreSafe<E>(limit: nat, evs: seq<Event<E>>)
    requires RunFromEmpty(limit, evs).Some?
    ensures var p := RunFromEmpty(limit, evs).value;
      && |p.entries| <= limit && |p.all| <= 2 * limit
      && (forall i, j :: 0 <= i < j < |p.disposed| ==> p.disposed[i] != p.disposed[j])
      && (forall e :: e in p.disposed ==> !InMap(p, e) && (e in p.all ==> p.all[e].active == 0))
      && (forall e :: e in p.all && !InMap(p, e) ==> p.all[e].retired && (p.all[e].active > 0 || p.all[e].closing != Open))
      && (forall e :: e in p.all && (p.all[e].active > 0 || InMap(p, e)) ==> p.all[e].closing == Open)
  {
    var p := RunFromEmpty(limit, evs).value;
    forall e | e in p.disposed
      ensures !InMap(p, e) && (e in p.all ==> p.all[e].active == 0)
    {
      if e in p.all {
        assert LeaseOk(p.all[e], InMap(p, e));
      }
    }
    forall e | e in p.all && !InMap(p, e)
      ensures p.all[e].retired && (p.all[e].active > 0 || p.all[e].closing != Open)
    {
      assert LeaseOk(p.all[e], false);
    }
    forall e | e in p.all && (p.all[e].active > 0 || InMap(p, e))
      ensures p.all[e].closing == Open
    {
      assert LeaseOk(p.all[e], InMap(p, e));
    }
  }

  /** Only a resource that exists, is retired and is leased by nobody is ever disposed. */
  lemma DisposeNeedsNoLease<E>(p: Pool<E>, limit: nat, e: E)
    requires Inv(p, limit) && Enabled(p, DisposeBegins(e))
    ensures p.all[e].active == 0 && p.all[e].retired && p.all[e].resource == Ready && e !in p.disposed
  {
    assert LeaseOk(p.all[e], InMap(p, e));
  }

  // ----- the uses under way -----------------------------------------------------------------------

  /** A use whose work has begun and not ended: the key it asked for, and the entry it was given. */
  datatype Using<E> = Using(key: string, entry: E)

  /** The pools with the uses under way, by name. */
  datatype Book<E> = Book(pool: Pool<E>, uses: map<nat, Using<E>>)

  datatype Act<E> = Begins(who: nat, key: string, fresh': E) | Ends(who: nat) | Happens(ev: Event<E>)

  /** A use ends when it likes, once its resource has settled: nothing else is asked of the pools. */
  predicate Possible<E(==)>(b: Book<E>, act: Act<E>) {
    match act
    case Begins(who, _, fresh') => who !in b.uses && fresh' !in b.pool.created
    case Ends(who) =>
      who in b.uses
      && (b.uses[who].entry in b.pool.all ==> b.pool.all[b.uses[who].entry].resource != Creating)
    case Happens(ev) => !ev.UseBegins? && !ev.UseEnds? && Enabled(b.pool, ev)
  }

  function UsesOf<E(==)>(uses: map<nat, Using<E>>, e: E): set<nat> {
    set who | who in uses && uses[who].entry == e
  }

  /** Every use under way has its entry tracked, for its own key, and `active` is the number of an entry's uses. */
  predicate BookInv<E(==)>(b: Book<E>, limit: nat) {
    && Inv(b.pool, limit)
    && (forall who :: who in b.uses ==>
          b.uses[who].entry in b.pool.all && b.pool.all[b.uses[who].entry].key == b.uses[who].key)
    && (forall e :: e in b.pool.all ==> b.pool.all[e].active == |UsesOf(b.uses, e)|)
  }

  lemma UseIsLease<E>(b: Book<E>, limit: nat, who: nat)
    requires BookInv(b, limit) && who in b.uses
    ensures b.uses[who].entry in b.pool.all && b.pool.all[b.uses[who].entry].active > 0
  {
    assert who in UsesOf(b.uses, b.uses[who].entry);
  }

  function Step<E(==)>(b: Book<E>, limit: nat, act: Act<E>): Book<E>
    requires BookInv(b, limit) && Possible(b, act)
  {
    match act
    case Begins(who, key, fresh') =>
      (match UseBegun(b.pool, limit, key, fresh')
       case Ok(r) => Book(r.0, b.uses[who := Using(key, r.1)])
       case Err(_) => b)
    case Ends(who) =>
      UseIsLease(b, limit, who);
      Book(UseEnded(b.pool, b.uses[who].entry), b.uses - {who})
    case Happens(ev) => b.(pool := Apply(b.pool, limit, ev))
  }

  lemma UsesGrow<E>(uses: map<nat, Using<E>>, who: nat, use: Using<E>, e: E)
    requires who !in uses
    ensures |UsesOf(uses[who := use], e)| == |UsesOf(uses, e)| + if use.entry == e then 1 else 0
  {
    assert UsesOf(uses[who := use], e) == UsesOf(uses, e) + (if use.entry == e then {who} else {});
  }

  lemma UsesShrink<E>(uses: map<nat, Using<E>>, who: nat, e: E)
    requires who in uses
    ensures |UsesOf(uses, e)| == |UsesOf(uses - {who}, e)| + if uses[who].entry == e then 1 else 0
  {
    assert UsesOf(uses, e) == UsesOf(uses - {who}, e) + (if uses[who].entry == e then {who} else {});
  }

  lemma RetiredKeeps(l: Lease)
    ensures Retired(l).active == l.active && Retired(l).key == l.key
  {
  }

  /** An entry's lease is given up by none, and keeps its key. */
  predicate LeasesKept<E(==)>(all: map<E, Lease>, next: map<E, Lease>) {
    forall x :: x in all ==> x in next && next[x].active == all[x].active && next[x].key == all[x].key
  }

  /** What the start of a use does to the other entries' leases: nothing; it takes one on the entry it gives. */
  lemma BegunLeases<E>(p: Pool<E>, limit: nat, key: string, fresh': E)
    requires Inv(p, limit) && fresh' !in p.created
    ensures var r := UseBegun(p, limit, key, fresh');
      r.Ok? ==> var (q, e) := r.value;
        && e in q.all && q.all[e].key == key && q.all.Keys == p.all.Keys + {e}
        && q.all[e].active == 1 + (if e in p.all then p.all[e].active else 0)
        && (e in p.all ==> q.all[e].key == p.all[e].key)
        && forall x :: x in p.all && x != e ==> q.all[x].active == p.all[x].active && q.all[x].key == p.all[x].key
  {
    InvParts(p, limit);
    hide Inv, InMap, LeaseOk, Retired, InOrder;
    if Find(p.entries, key) == |p.entries| && UseBegun(p, limit, key, fresh').Ok? {
      NewLeases(p, limit, key, fresh');
      hide UseBegun, Find;
    }
  }

  lemma NewLeases<E>(p: Pool<E>, limit: nat, key: string, fresh': E)
    requires forall i :: 0 <= i < |p.entries| ==> p.entries[i].1 in p.all
    requires Find(p.entries, key) == |p.entries| && UseBegun(p, limit, key, fresh').Ok? && fresh' !in p.all
    ensures var (q, e) := UseBegun(p, limit, key, fresh').value;
      && e == fresh' && e in q.all && q.all[e].key == key && q.all[e].active == 1
      && q.all.Keys == p.all.Keys + {e} && LeasesKept(p.all, q.all)
  {
    if |p.entries| >= limit {
      RetiredLeases(p.(entries := p.entries[1..]), p.entries[0].1);
    }
    hide Retired, Find, EntryRetired;
  }

  lemma RetiredLeases<E>(p: Pool<E>, e: E)
    requires e in p.all
    ensures LeasesKept(p.all, EntryRetired(p, e).all) && EntryRetired(p, e).all.Keys == p.all.Keys
  {
  }

  /** The two halves of `BookInv` that are about the uses. */
  predicate Counted<E(==)>(all: map<E, Lease>, uses: map<nat, Using<E>>) {
    && (forall who :: who in uses ==> uses[who].entry in all && all[uses[who].entry].key == uses[who].key)
    && (forall e :: e in all ==> all[e].active == |UsesOf(uses, e)|)
  }

  lemma CountedWithOneMore<E>(all: map<E, Lease>, next: map<E, Lease>, uses: map<nat, Using<E>>, who: nat, key: string, e: E)
    requires Counted(all, uses) && who !in uses
    requires e in next && next[e].key == key && next.Keys == all.Keys + {e}
    requires next[e].active == 1 + (if e in all then all[e].active else 0)
    requires forall x :: x in all && x != e ==> next[x].active == all[x].active && next[x].key == all[x].key
    requires e in all ==> next[e].key == all[e].key
    ensures Counted(next, uses[who := Using(key, e)])
  {
    forall x | x in next
      ensures next[x].active == |UsesOf(uses[who := Using(key, e)], x)|
    {
      UsesGrow(uses, who, Using(key, e), x);
      if x !in all {
        assert UsesOf(uses, x) == {};
      }
    }
  }

  lemma CountedWithOneLess<E>(all: map<E, Lease>, next: map<E, Lease>, uses: map<nat, Using<E>>, who: nat)
    requires Counted(all, uses) && who in uses && next.Keys == all.Keys
    requires next[uses[who].entry].active == all[uses[who].entry].active - 1
    requires forall x :: x in all && x != uses[who].entry ==> next[x].active == all[x].active
    requires forall x :: x in all ==> next[x].key == all[x].key
    ensures Counted(next, uses - {who})
  {
    forall x | x in next
      ensures next[x].active == |UsesOf(uses - {who}, x)|
    {
      UsesShrink(uses, who, x);
    }
  }

  lemma BeginsKeepsBook<E>(b: Book<E>, limit: nat, act: Act<E>)
    requires BookInv(b, limit) && Possible(b, act) && act.Begins?
    ensures BookInv(Step(b, limit, act), limit)
  {
    var r := UseBegun(b.pool, limit, act.key, act.fresh');
    UseBeginsInv(b.pool, limit, act.key, act.fresh');
    BegunLeases(b.pool, limit, act.key, act.fresh');
    hide Inv, UseBegun, Find, Counted;
    if r.Ok? {
      assert Counted(b.pool.all, b.uses) by { CountedIs(b, limit); }
      CountedWithOneMore(b.pool.all, r.value.0.all, b.uses, act.who, act.key, r.value.1);
      CountedIsInv(Step(b, limit, act), limit);
    }
  }

  lemma CountedIs<E>(b: Book<E>, limit: nat)
    requires BookInv(b, limit)
    ensures Inv(b.pool, limit) && Counted(b.pool.all, b.uses)
  {
    hide Inv;
  }

  lemma CountedIsInv<E>(b: Book<E>, limit: nat)
    requires Inv(b.pool, limit) && Counted(b.pool.all, b.uses)
    ensures BookInv(b, limit)
  {
    hide Inv;
  }

  lemma EndsKeepsBook<E>(b: Book<E>, limit: nat, act: Act<E>)
    requires BookInv(b, limit) && Possible(b, act) && act.Ends?
    ensures BookInv(Step(b, limit, act), limit)
  {
    hide Inv, Counted, BookInv, UseEnded, UsesOf;
    UseIsLease(b, limit, act.who);
    var e := b.uses[act.who].entry;
    CountedIs(b, limit);
    ApplyInv(b.pool, limit, UseEnds(e));
    EndedLeases(b.pool, e);
    CountedWithOneLess(b.pool.all, UseEnded(b.pool, e).all, b.uses, act.who);
    CountedIsInv(Step(b, limit, act), limit);
  }

  lemma EndedLeases<E>(p: Pool<E>, e: E)
    requires e in p.all && p.all[e].active > 0
    ensures var next := UseEnded(p, e).all;
      && next.Keys == p.all.Keys && next[e].active == p.all[e].active - 1
      && (forall x :: x in p.all && x != e ==> next[x].active == p.all[x].active)
      && (forall x :: x in p.all ==> next[x].key == p.all[x].key)
  {
    hide Retired;
    RetiredKeeps(p.all[e].(active := p.all[e].active - 1));
  }

  /** No other step touches a lease, and only an entry without any is forgotten. */
  lemma OthersKeepLeases<E>(p: Pool<E>, limit: nat, ev: Event<E>)
    requires Inv(p, limit) && Enabled(p, ev) && !ev.UseBegins? && !ev.UseEnds?
    ensures var q := Apply(p, limit, ev);
      && q.all.Keys <= p.all.Keys
      && (forall e :: e in q.all ==> q.all[e].active == p.all[e].active && q.all[e].key == p.all[e].key)
      && (forall e :: e in p.all && e !in q.all ==> p.all[e].active == 0)
  {
    InvParts(p, limit);
    assert ev.ClosingEnds? ==> LeaseOk(p.all[ev.entry], InMap(p, ev.entry));
    hide Inv, InMap, Find, Retired, FailureDealtWith, Closed;
    match ev
    case FailureHandled(e) => FailureKeepsLeases(p, e);
    case Closes => ClosedKeepsLeases(p);
    case _ =>
  }

  lemma FailureKeepsLeases<E>(p: Pool<E>, e: E)
    requires e in p.all
    ensures LeasesKept(p.all, FailureDealtWith(p, e).all) && FailureDealtWith(p, e).all.Keys == p.all.Keys
  {
    hide Find, Retired;
    RetiredKeeps(p.all[e].(handled := true));
  }

  lemma ClosedKeepsLeases<E>(p: Pool<E>)
    ensures LeasesKept(p.all, Closed(p).all) && Closed(p).all.Keys == p.all.Keys
  {
    hide Retired;
    forall e | e in p.all
      ensures e in Closed(p).all && Closed(p).all[e].active == p.all[e].active && Closed(p).all[e].key == p.all[e].key
    {
      RetiredKeeps(p.all[e]);
    }
  }

  lemma StepKeepsBook<E>(b: Book<E>, limit: nat, act: Act<E>)
    requires BookInv(b, limit) && Possible(b, act)
    ensures BookInv(Step(b, limit, act), limit)
  {
    match act
    case Begins(_, _, _) => BeginsKeepsBook(b, limit, act);
    case Ends(_) => EndsKeepsBook(b, limit, act);
    case Happens(ev) =>
      ApplyInv(b.pool, limit, ev);
      OthersKeepLeases(b.pool, limit, ev);
      forall who | who in b.uses
        ensures b.uses[who].entry in Apply(b.pool, limit, ev).all
      {
        UseIsLease(b, limit, who);
      }
      hide Inv, Apply, Enabled;
  }

  function BookRun<E>(b: Book<E>, limit: nat, acts: seq<Act<E>>): (r: Option<Book<E>>)
    requires BookInv(b, limit)
    ensures r.Some? ==> BookInv(r.value, limit)
    decreases |acts|
  {
    if acts == [] then Some(b)
    else if !Possible(b, acts[0]) then None
    else
      StepKeepsBook(b, limit, acts[0]);
      BookRun(Step(b, limit, acts[0]), limit, acts[1..])
  }

  function BookRunFromEmpty<E>(limit: nat, acts: seq<Act<E>>): (r: Option<Book<E>>)
    ensures r.Some? ==> BookInv(r.value, limit)
  {
    EmptyInv<E>(limit);
    BookRun(Book(Empty(), map[]), limit, acts)
  }

  /**
   Main result, leases: in any run, a resource whose use is under way is tracked, has the key the use asked for, is
   not disposed and has no closing queued; an entry is leased as often as uses of it are under way; and what may be
   disposed, or forgotten, next is used by nobody.
   */
  lemma UsesAreSafe<E>(limit: nat, acts: seq<Act<E>>)
    requires BookRunFromEmpty(limit, acts).Some?
    ensures var b := BookRunFromEmpty(limit, acts).value;
      && (forall who :: who in b.uses ==>
            var e := b.uses[who].entry;
            && e in b.pool.all && b.pool.all[e].key == b.uses[who].key
            && e !in b.pool.disposed && b.pool.all[e].closing == Open)
      && (forall e :: e in b.pool.all ==> b.pool.all[e].active == |UsesOf(b.uses, e)|)
      && (forall e :: Enabled(b.pool, DisposeBegins(e)) || Enabled(b.pool, ClosingEnds(e)) ==> UsesOf(b.uses, e) == {})
  {
    var b := BookRunFromEmpty(limit, acts).value;
    hide BookRunFromEmpty;
    forall who | who in b.uses
      ensures var e := b.uses[who].entry; e !in b.pool.disposed && b.pool.all[e].closing == Open
    {
      UseIsLease(b, limit, who);
      var e := b.uses[who].entry;
      assert LeaseOk(b.pool.all[e], InMap(b.pool, e));
    }
    forall e | Enabled(b.pool, DisposeBegins(e)) || Enabled(b.pool, ClosingEnds(e))
      ensures UsesOf(b.uses, e) == {}
    {
      assert LeaseOk(b.pool.all[e], InMap(b.pool, e));
    }
  }

  /**
   What a use is given: the entry the map has for its key, or a new one; and only a full map loses an entry for
   that, the one made first.
   */
  lemma UseIsGiven<E>(p: Pool<E>, limit: nat, key: string, fresh': E)
    requires Inv(p, limit) && fresh' !in p.created
    ensures var r := UseBegun(p, limit, key, fresh');
      && (r == Err(Stopping) <==> p.stopped)
      && (r == Err(Busy) <==> !p.stopped && |p.all| >= 2 * limit && forall e :: InMap(p, e) ==> p.all[e].key != key)
      && (r.Ok? ==> var (q, e) := r.value;
            && InMap(q, e) && q.all[e].key == key
            && (e != fresh' ==> InMap(p, e) && q.entries == p.entries)
            && (e == fresh' ==> forall x :: InMap(p, x) ==> p.all[x].key != key)
            && (forall x :: InMap(p, x) && !InMap(q, x) ==>
                  |p.entries| == limit && forall y :: InMap(p, y) ==> p.created[x] <= p.created[y]))
  {
    InvParts(p, limit);
    var at := Find(p.entries, key);
    var r := UseBegun(p, limit, key, fresh');
    if at < |p.entries| {
      var e := p.entries[at].1;
      assert InMap(p, e) && e in p.created;
      assert r.Ok? ==> r.value.0.entries == p.entries && r.value.0.entries[at].1 == e;
    } else {
      assert forall x :: InMap(p, x) ==> p.all[x].key != key;
      if r.Ok? {
        NewIsGiven(p, limit, key, fresh');
      }
    }
  }

  lemma NewIsGiven<E>(p: Pool<E>, limit: nat, key: string, fresh': E)
    requires Inv(p, limit) && fresh' !in p.created && Find(p.entries, key) == |p.entries|
    requires UseBegun(p, limit, key, fresh').Ok?
    ensures var (q, e) := UseBegun(p, limit, key, fresh').value;
      && e == fresh' && InMap(q, e) && q.all[e].key == key
      && (forall x :: InMap(p, x) && !InMap(q, x) ==>
            |p.entries| == limit && forall y :: InMap(p, y) ==> p.created[x] <= p.created[y])
  {
    InvParts(p, limit);
    hide LeaseOk;
    var q := UseBegun(p, limit, key, fresh').value.0;
    var kept := if |p.entries| >= limit then p.entries[1..] else p.entries;
    assert q.entries == kept + [(key, fresh')];
    assert q.entries[|kept|].1 == fresh';
    forall x | InMap(p, x)
      ensures InMap(q, x)
        || (|p.entries| == limit && forall y :: InMap(p, y) ==> p.created[x] <= p.created[y])
    {
      var i :| 0 <= i < |p.entries| && p.entries[i].1 == x;
      if |p.entries| < limit {
        assert q.entries[i].1 == x;
      } else if i > 0 {
        assert q.entries[i - 1].1 == x;
      }
    }
  }

  /** A closing that is disposing has begun its disposal. */
  predicate DisposalsBegun<E(==)>(p: Pool<E>) {
    forall e :: e in p.all && p.all[e].closing == Disposing ==> e in p.disposed
  }

  lemma ApplyBeginsDisposals<E>(p: Pool<E>, limit: nat, ev: Event<E>)
    requires Inv(p, limit) && DisposalsBegun(p) && Enabled(p, ev)
    ensures DisposalsBegun(Apply(p, limit, ev))
  {
    InvParts(p, limit);
    hide Inv, InMap, LeaseOk, Find;
  }

  lemma {:induction false} RunBeginsDisposals<E>(p: Pool<E>, limit: nat, evs: seq<Event<E>>)
    requires Inv(p, limit) && DisposalsBegun(p) && Run(p, limit, evs).Some?
    ensures DisposalsBegun(Run(p, limit, evs).value)
    decreases |evs|
  {
    hide Inv, Apply, Enabled, DisposalsBegun;
    if evs != [] {
      ApplyBeginsDisposals(p, limit, evs[0]);
      ApplyInv(p, limit, evs[0]);
      RunBeginsDisposals(Apply(p, limit, evs[0]), limit, evs[1..]);
    }
  }

  /** In any run an entry is forgotten only when its resource has been disposed, or never came to be. */
  lemma NothingLeaks<E>(limit: nat, evs: seq<Event<E>>, e: E)
    requires RunFromEmpty(limit, evs).Some? && Enabled(RunFromEmpty(limit, evs).value, ClosingEnds(e))
    ensures var p := RunFromEmpty(limit, evs).value;
      e in p.disposed || p.all[e].resource == Failed
  {
    EmptyInv<E>(limit);
    RunBeginsDisposals(Empty(), limit, evs);
  }

  // ----- draining after close ----------------------------------------------------------------

  /** Steps an entry still has ahead of it. */
  function Rank(l: Lease): nat {
    (if l.resource == Creating then 2 else if l.resource == Failed && !l.handled then 1 else 0)
    + l.active
    + (if l.closing == Disposing then 1 else 2)
  }

  ghost function TotalRank<E>(m: map<E, Lease>): nat
    decreases |m|
  {
    if m == map[] then 0 else
    var e :| e in m;
    assert |m - {e}| < |m| by {
      Shrinks(m, e);
    }
    Rank(m[e]) + TotalRank(m - {e})
  }

  lemma Shrinks<E>(m: map<E, Lease>, e: E)
    requires e in m
    ensures |m - {e}| == |m| - 1
  {
    assert (m - {e}).Keys == m.Keys - {e};
  }

  lemma {:induction false} TotalRankOf<E>(m: map<E, Lease>, e: E)
    requires e in m
    ensures TotalRank(m) == Rank(m[e]) + TotalRank(m - {e})
    decreases |m|
  {
    hide Rank;
    var x :| x in m && TotalRank(m) == Rank(m[x]) + TotalRank(m - {x});
    if x != e {
      Shrinks(m, x);
      Shrinks(m, e);
      TotalRankOf(m - {x}, e);
      TotalRankOf(m - {e}, x);
      assert m - {x} - {e} == m - {e} - {x};
    }
  }

  predicate Internal<E>(ev: Event<E>) { !ev.UseBegins? && !ev.Closes? }

  lemma UpdateLowersRank<E>(m: map<E, Lease>, e: E, l: Lease)
    requires e in m && Rank(l) < Rank(m[e])
    ensures TotalRank(m[e := l]) < TotalRank(m)
  {
    hide Rank;
    TotalRankOf(m, e);
    TotalRankOf(m[e := l], e);
    assert m[e := l] - {e} == m - {e};
  }

  /** Every internal step of stopped pools brings them closer to having nothing left. */
  lemma InternalLowersRank<E>(p: Pool<E>, limit: nat, ev: Event<E>)
    requires Inv(p, limit) && p.stopped && Enabled(p, ev) && Internal(ev)
    ensures Apply(p, limit, ev).stopped
    ensures TotalRank(Apply(p, limit, ev).all) < TotalRank(p.all)
  {
    hide Inv, Find, TotalRank, InMap, LeaseOk;
    match ev
    case Settles(e, ok) =>
      UpdateLowersRank(p.all, e, p.all[e].(resource := if ok then Ready else Failed));
    case FailureHandled(e) =>
      FailureLowersRank(p, e);
    case UseEnds(e) =>
      var l := p.all[e].(active := p.all[e].active - 1);
      UpdateLowersRank(p.all, e, if l.retired then Retired(l) else l);
    case DisposeBegins(e) =>
      UpdateLowersRank(p.all, e, p.all[e].(closing := Disposing));
    case ClosingEnds(e) =>
      TotalRankOf(p.all, e);
  }

  lemma FailureLowersRank<E>(p: Pool<E>, e: E)
    requires p.stopped && e in p.all && p.all[e].resource == Failed && !p.all[e].handled
    ensures FailureDealtWith(p, e).stopped
    ensures TotalRank(FailureDealtWith(p, e).all) < TotalRank(p.all)
  {
    hide Find, TotalRank;
    UpdateLowersRank(p.all, e, Retired(p.all[e].(handled := true)));
    assert FailureDealtWith(p, e).all == p.all[e := Retired(p.all[e].(handled := true))];
  }

  /** `close` stops the pools for good: the map stays empty, and no use begins any more. */
  lemma StoppedForGood<E>(p: Pool<E>, limit: nat, ev: Event<E>)
    requires Inv(p, limit) && Enabled(p, ev) && (p.stopped || ev.Closes?)
    ensures var q := Apply(p, limit, ev);
      q.stopped && q.entries == [] && (p.stopped && ev.UseBegins? ==> q == p)
  {
    hide LeaseOk, InMap;
    assert p.stopped ==> p.entries == [];
  }

  /** While stopped pools track an entry, a lease, a creation or a disposal is still to finish. */
  lemma SomethingRemains<E>(p: Pool<E>, limit: nat) returns (ev: Event<E>)
    requires Inv(p, limit) && p.stopped && p.all != map[]
    ensures Internal(ev) && Enabled(p, ev)
  {
    var e :| e in p.all;
    assert LeaseOk(p.all[e], InMap(p, e));
    assert !InMap(p, e);
    ev := if p.all[e].active > 0 then
            if p.all[e].resource == Creating then Settles(e, true) else UseEnds(e)
          else if p.all[e].closing == Queued && p.all[e].resource == Ready then DisposeBegins(e)
          else ClosingEnds(e);
  }

  /**
   Main result, draining: after `close`, creations, leases and disposals can only finish, the number of steps
   they take is bounded, and when nothing is left to finish no entry is tracked any more.
   */
  lemma {:induction false} ClosedPoolsDrain<E>(p: Pool<E>, limit: nat, evs: seq<Event<E>>)
    requires Inv(p, limit) && p.stopped
    requires forall i :: 0 <= i < |evs| ==> Internal(evs[i])
    requires Run(p, limit, evs).Some?
    ensures var q := Run(p, limit, evs).value;
      && q.stopped
      && |evs| + TotalRank(q.all) <= TotalRank(p.all)
      && ((forall ev :: Internal(ev) ==> !Enabled(q, ev)) ==> q.all == map[])
    decreases |evs|
  {
    if evs == [] {
      if p.all != map[] {
        var ev := SomethingRemains(p, limit);
      }
    } else {
      InternalLowersRank(p, limit, evs[0]);
      ApplyInv(p, limit, evs[0]);
      ClosedPoolsDrain(Apply(p, limit, evs[0]), limit, evs[1..]);
    }
  }

  function Given<E>(p: Pool<E>, e: E): Pool<E>
    requires e in p.all && p.all[e].active > 0
  {
    p.(all := p.all[e := p.all[e].(active := p.all[e].active - 1)])
  }

  lemma EndedIs<E>(p: Pool<E>, e: E)
    requires e in p.all && p.all[e].active > 0
    ensures UseEnded(p, e) == if p.all[e].retired then EntryRetired(Given(p, e), e) else Given(p, e)
  {
    if p.all[e].retired {
      assert EntryRetired(Given(p, e), e).all == UseEnded(p, e).all;
    }
  }

  // ----- the class ---------------------------------------------------------------------------

  class Entry {
    const key: string
    var resource: Creation
    var active: nat
    var retired: bool
    var closing: Closing
    var handled: bool

    constructor (key: string)
      ensures View() == Lease(key, Creating, 0, false, Open, false)
    {
      this.key := key;
      resource, active, retired, closing, handled := Creating, 0, false, Open, false;
    }

    ghost function View(): Lease
      reads this
    {
      Lease(key, resource, active, retired, closing, handled)
    }
  }

  class ConnectionPools {
    const limit: nat
    var entries: seq<(string, Entry)>
    var all: set<Entry>
    var stopped: bool
    ghost var created: map<Entry, nat>
    ghost var disposed: seq<Entry>

    ghost function View(): Pool<Entry>
      reads this, all
    {
      Pool(entries, map e | e in all :: e.View(), stopped, created, disposed)
    }

    ghost predicate Valid()
      reads this, all
    {
      Inv(View(), limit)
    }

    constructor (limit: nat := 20)
      ensures Valid() && View() == Empty() && this.limit == limit
    {
      this.limit := limit;
      entries, all, stopped, created, disposed := [], {}, false, map[], [];
    }

    /** `retire`, up to its await. */
    method Retire(entry: Entry)
      requires entry in all
      modifies entry`retired, entry`closing
      ensures View() == EntryRetired(old(View()), entry)
      ensures entry.View() == Retired(old(entry.View()))
    {
      entry.retired := true;
      if entry.active == 0 && entry.closing == Open {
        entry.closing := Queued;
      }
    }

    /** `use`, up to its first await: the lease is counted before anything else can run. */
    method BeginUse(key: string) returns (r: Result<Entry, Refusal>)
      requires Valid()
      modifies this, all
      ensures Valid()
      ensures r == Err(Stopping) <==> old(stopped)
      ensures r == Err(Busy) <==> !old(stopped) && Find(old(entries), key) == |old(entries)| && |old(all)| >= 2 * limit
      ensures r.Err? ==> View() == old(View())
      ensures r.Ok? ==>
        && (fresh(r.value) || r.value in old(all))
        && UseBegun(old(View()), limit, key, r.value) == Ok((View(), r.value))
    {
      hide Inv, InMap, LeaseOk, Find;
      InvParts(View(), limit);
      if stopped {
        return Err(Stopping);
      }
      ghost var before := View();
      var at := Find(entries, key);
      var entry: Entry;
      if at < |entries| {
        entry := entries[at].1;
        UseBeginsInv(before, limit, key, entry);
        entry.active := entry.active + 1;
        assert View().all == UseBegun(before, limit, key, entry).value.0.all;
      } else {
        AllOfView();
        if |all| >= limit * 2 {
          return Err(Busy);
        }
        if |entries| >= limit {
          EvictOldest();
        }
        entry := MakeEntry(key);
        UseBeginsInv(before, limit, key, entry);
      }
      r := Ok(entry);
    }

    /** The eviction in `use`: the oldest entry leaves the map and is retired. */
    method EvictOldest()
      requires entries != [] && entries[0].1 in all
      modifies this`entries, entries[0].1
      ensures View() == EntryRetired(old(View()).(entries := old(entries)[1..]), old(entries)[0].1)
    {
      var oldest := entries[0].1;
      entries := entries[1..];
      assert View() == old(View()).(entries := entries);
      Retire(oldest);
    }

    /** The creation in `use`: a tracked entry with its first lease, last in the map. */
    method MakeEntry(key: string) returns (entry: Entry)
      modifies this
      ensures fresh(entry)
      ensures View() == old(View()).(
        entries := old(entries) + [(key, entry)],
        all := old(View()).all[entry := Lease(key, Creating, 1, false, Open, false)],
        created := old(created)[entry := |old(created)|])
    {
      entry := new Entry(key);
      entry.active := 1;
      entries := entries + [(key, entry)];
      all := all + {entry};
      created := created[entry := |created|];
      assert View().all == old(View()).all[entry := Lease(key, Creating, 1, false, Open, false)];
    }

    lemma AllOfView()
      ensures View().all.Keys == all && |View().all| == |all|
    {
      assert View().all.Keys == all;
    }

    /** The end of `use`: the `finally` block, up to its await. */
    method EndUse(entry: Entry)
      requires Valid() && Enabled(View(), UseEnds(entry))
      modifies entry
      ensures Valid() && View() == UseEnded(old(View()), entry)
    {
      hide Inv, InMap, LeaseOk, Find, InOrder, UseEnded;
      ApplyInv(View(), limit, UseEnds(entry));
      ghost var before := View();
      GiveBack(entry);
      EndedIs(before, entry);
      if entry.retired {
        Retire(entry);
      }
    }

    method GiveBack(entry: Entry)
      requires entry in all && entry.active > 0
      modifies entry`active
      ensures View() == Given(old(View()), entry)
    {
      entry.active := entry.active - 1;
      assert View().all == Given(old(View()), entry).all;
    }

    /** The promise of a resource settles. */
    method SettleResource(entry: Entry, ok: bool)
      requires Valid() && Enabled(View(), Settles(entry, ok))
      modifies entry`resource
      ensures Valid() && View() == Settled(old(View()), entry, ok)
    {
      hide Inv, InMap, LeaseOk;
      ApplyInv(View(), limit, Settles(entry, ok));
      entry.resource := if ok then Ready else Failed;
      assert View().all == Settled(old(View()), entry, ok).all;
    }

    /** The handler `use` registers on the promise of a resource it creates. */
    method OnFailure(entry: Entry)
      requires Valid() && Enabled(View(), FailureHandled(entry))
      modifies this`entries, entry
      ensures Valid() && View() == FailureDealtWith(old(View()), entry)
    {
      hide Inv, InMap, LeaseOk, Find, Retired;
      ghost var before := View();
      ApplyInv(before, limit, FailureHandled(entry));
      var at := Find(entries, entry.key);
      if at < |entries| && entries[at].1 == entry {
        entries := entries[..at] + entries[at + 1..];
      }
      assert View() == before.(entries := entries);
      MarkHandled(entry);
      Retire(entry);
      assert View() == FailureDealtWith(before, entry);
    }

    method MarkHandled(entry: Entry)
      requires entry in all
      modifies entry`handled
      ensures View() == old(View()).(all := old(View()).all[entry := old(entry.View()).(handled := true)])
    {
      entry.handled := true;
      assert View().all == old(View()).all[entry := old(entry.View()).(handled := true)];
    }

    /** The closing promise calls `dispose`. */
    method BeginDispose(entry: Entry)
      requires Valid() && Enabled(View(), DisposeBegins(entry))
      modifies this`disposed, entry`closing
      ensures Valid() && View() == DisposeBegun(old(View()), entry)
    {
      hide Inv, InMap, LeaseOk;
      ApplyInv(View(), limit, DisposeBegins(entry));
      entry.closing := Disposing;
      disposed := disposed + [entry];
      assert View().all == DisposeBegun(old(View()), entry).all;
    }

    /** The closing promise is done. */
    method OnClosed(entry: Entry)
      requires Valid() && Enabled(View(), ClosingEnds(entry))
      modifies this`all
      ensures Valid() && View() == Forgotten(old(View()), entry)
    {
      hide Inv, InMap, LeaseOk;
      ApplyInv(View(), limit, ClosingEnds(entry));
      all := all - {entry};
      assert View().all == Forgotten(old(View()), entry).all;
    }

    /** `close`, up to its await: every tracked entry is retired, one after the other. */
    method Close()
      requires Valid()
      modifies this, all
      ensures Valid() && View() == Closed(old(View()))
    {
      hide Inv, InMap, LeaseOk, Retired, Find, InOrder;
      ApplyInv(View(), limit, Closes);
      ghost var before := View();
      stopped := true;
      entries := [];
      ghost var was := View();
      assert was == before.(stopped := true, entries := []);
      assert was.all.Keys == all;
      hide View, Closed;
      var rest := all;
      while rest != {}
        invariant rest <= all == old(all)
        invariant View() == was.(all := View().all) && View().all.Keys == was.all.Keys == all
        invariant forall e :: e in rest ==> View().all[e] == was.all[e]
        invariant forall e :: e in was.all && e !in rest ==> View().all[e] == Retired(was.all[e])
        decreases rest
      {
        var entry :| entry in rest;
        Retire(entry);
        rest := rest - {entry};
      }
      AllRetired(before, View());
    }
  }

  lemma AllRetired<E>(before: Pool<E>, after: Pool<E>)
    requires after == before.(stopped := true, entries := [], all := after.all)
    requires after.all.Keys == before.all.Keys
    requires forall e :: e in before.all ==> after.all[e] == Retired(before.all[e])
    ensures after == Closed(before)
  {
    assert after.all == Closed(before).all;
  }
}

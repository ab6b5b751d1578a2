/**
 The hourly mail budgets (`limitVerificationMail` in `pending-email-verification.ts`): counters that many requests
 raise at once, one key per kind of budget and hour, and a sweep that deletes expired counters.
 */
module MailBudget {
  import opened Wrappers

  const HOUR := 3_600_000

  /** A budget of a request: the tenant, the address, or the address of the network; and its maximum. */
  datatype Budget = Budget(name: nat, max: nat)

  datatype Key = Key(name: nat, window: nat)

  /** A row of `verification_mail_budget`. */
  datatype Counter = Counter(count: nat, expiresAt: nat)

  function Window(now: nat): nat { now / HOUR }

  /** The upsert: a new row expires an hour after the request read its clock; an old one keeps its time. */
  function Raised(counters: map<Key, Counter>, key: Key, now: nat): map<Key, Counter> {
    if key in counters then counters[key := counters[key].(count := counters[key].count + 1)]
    else counters[key := Counter(1, now + HOUR)]
  }

  /** The rows the sweep of a request that read `now` may delete. */
  predicate Expired(counters: map<Key, Counter>, key: Key, now: nat) {
    key in counters && counters[key].expiresAt < now
  }

  /** The loop over the budgets of one request, run without others in between. */
  function Charged(counters: map<Key, Counter>, budgets: seq<Budget>, now: nat): (map<Key, Counter>, bool) {
    if budgets == [] then (counters, true) else
    var n := |budgets| - 1;
    var (front, ok) := Charged(counters, budgets[..n], now);
    if !ok then (front, false) else
    var key := Key(budgets[n].name, Window(now));
    var next := Raised(front, key, now);
    (next, next[key].count <= budgets[n].max)
  }

  /** The table and the calls on it. */
  class Budgets {
    var counters: map<Key, Counter>

    constructor ()
      ensures counters == map[]
    {
      counters := map[];
    }

    method Limit(budgets: seq<Budget>, now: nat) returns (ok: bool)
      modifies this
      ensures (counters, ok) == Charged(old(counters), budgets, now)
    {
      for i := 0 to |budgets|
        invariant (counters, true) == Charged(old(counters), budgets[..i], now)
      {
        assert budgets[..i + 1][..i] == budgets[..i];
        var key := Key(budgets[i].name, Window(now));
        counters := Raised(counters, key, now);
        if counters[key].count > budgets[i].max {
          OverBudget(old(counters), budgets, i, now);
          return false;
        }
      }
      assert budgets[..|budgets|] == budgets;
      return true;
    }

    method Sweep(picked: set<Key>, now: nat)
      modifies this
      ensures counters == old(counters) - (set key | key in picked && Expired(old(counters), key, now))
    {
      counters := counters - (set key | key in picked && Expired(counters, key, now));
    }
  }

  lemma {:induction false} OverBudget(counters: map<Key, Counter>, budgets: seq<Budget>, i: nat, now: nat)
    requires i < |budgets| && Charged(counters, budgets[..i], now).1
    requires !Charged(counters, budgets[..i + 1], now).1
    ensures Charged(counters, budgets, now) == Charged(counters, budgets[..i + 1], now)
    decreases |budgets|
  {
    var n := |budgets| - 1;
    if i < n {
      assert budgets[..n][..i] == budgets[..i] && budgets[..n][..i + 1] == budgets[..i + 1];
      OverBudget(counters, budgets[..n], i, now);
    } else {
      assert budgets[..i + 1] == budgets;
    }
  }

  // ----- requests interleave -------------------------------------------------------------------

  /** A charge that stayed within its budget, with the time of the table when it was made. */
  datatype Pass = Pass(key: Key, at: nat)

  /** The table, the time, and the charges within budget so far. */
  datatype World = World(counters: map<Key, Counter>, now: nat, passes: seq<Pass>)

  const START := World(map[], 0, [])

  /**
   A request charges one budget with the clock it read, `read`, or sweeps with it. Its clock is not ahead of the
   table's, and the charge lands in the hour it read.
   */
  datatype Event =
    | Charges(name: nat, max: nat, read: nat)
    | Sweeps(picked: set<Key>, read: nat)
    | TimePasses(millis: nat)

  /** The maximum of each budget never changes. */
  predicate Enabled(w: World, maxOf: nat -> nat, ev: Event) {
    match ev
    case Charges(name, max, read) => read <= w.now && Window(read) == Window(w.now) && max == maxOf(name)
    case Sweeps(picked, read) => read <= w.now && forall key :: key in picked ==> Expired(w.counters, key, read)
    case TimePasses(_) => true
  }

  function Apply(w: World, ev: Event): World {
    match ev
    case Charges(name, max, read) =>
      var key := Key(name, Window(read));
      var counters := Raised(w.counters, key, read);
      w.(counters := counters,
         passes := if counters[key].count <= max then w.passes + [Pass(key, w.now)] else w.passes)
    case Sweeps(picked, _) => w.(counters := w.counters - picked)
    case TimePasses(millis) => w.(now := w.now + millis)
  }

  function Run(w: World, maxOf: nat -> nat, evs: seq<Event>): Option<World>
    decreases |evs|
  {
    if evs == [] then Some(w)
    else if !Enabled(w, maxOf, evs[0]) then None
    else Run(Apply(w, evs[0]), maxOf, evs[1..])
  }

  function Passed(passes: seq<Pass>, key: Key): nat {
    if passes == [] then 0
    else Passed(passes[..|passes| - 1], key) + (if passes[|passes| - 1].key == key then 1 else 0)
  }

  /** Passes of one budget from `from'` on, for `length` milliseconds. */
  function PassedBetween(passes: seq<Pass>, name: nat, from': nat, length: nat): nat {
    if passes == [] then 0 else
    var last := passes[|passes| - 1];
    PassedBetween(passes[..|passes| - 1], name, from', length)
      + (if last.key.name == name && from' <= last.at < from' + length then 1 else 0)
  }

  function Least(x: nat, y: nat): nat { if x <= y then x else y }

  /** A counter has counted at least the passes of its key; a key of an hour that is over may have none. */
  predicate CounterOk(w: World, maxOf: nat -> nat, key: Key) {
    && Passed(w.passes, key) <= maxOf(key.name)
    && (key in w.counters ==>
          (key.window + 1) * HOUR <= w.counters[key].expiresAt
          && Passed(w.passes, key) == Least(w.counters[key].count, maxOf(key.name)))
    && (key !in w.counters && Passed(w.passes, key) > 0 ==> (key.window + 1) * HOUR <= w.now)
    && (key !in w.counters && key.window >= Window(w.now) ==> Passed(w.passes, key) == 0)
  }

  ghost predicate Inv(w: World, maxOf: nat -> nat) {
    && (forall key :: CounterOk(w, maxOf, key))
    && (forall i :: 0 <= i < |w.passes| ==> w.passes[i].key.window == Window(w.passes[i].at))
  }

  lemma WindowBounds(now: nat)
    ensures Window(now) * HOUR <= now < (Window(now) + 1) * HOUR
  {
  }

  lemma PassedMore(passes: seq<Pass>, pass: Pass, key: Key)
    ensures Passed(passes + [pass], key) == Passed(passes, key) + (if pass.key == key then 1 else 0)
  {
    assert (passes + [pass])[..|passes|] == passes;
  }

  lemma ChargeKeeps(w: World, maxOf: nat -> nat, name: nat, max: nat, read: nat, key: Key)
    requires Inv(w, maxOf) && Enabled(w, maxOf, Charges(name, max, read))
    ensures CounterOk(Apply(w, Charges(name, max, read)), maxOf, key)
  {
    var next := Apply(w, Charges(name, max, read));
    assert CounterOk(w, maxOf, key);
    WindowBounds(read);
    WindowBounds(w.now);
    PassedMore(w.passes, Pass(Key(name, Window(read)), w.now), key);
    hide Passed, Window;
  }

  lemma SweepKeeps(w: World, maxOf: nat -> nat, picked: set<Key>, read: nat, key: Key)
    requires Inv(w, maxOf) && Enabled(w, maxOf, Sweeps(picked, read))
    ensures CounterOk(Apply(w, Sweeps(picked, read)), maxOf, key)
  {
    assert CounterOk(w, maxOf, key);
    WindowBounds(w.now);
    hide Passed, Window;
  }

  lemma TimeKeeps(w: World, maxOf: nat -> nat, millis: nat, key: Key)
    requires Inv(w, maxOf)
    ensures CounterOk(Apply(w, TimePasses(millis)), maxOf, key)
  {
    assert CounterOk(w, maxOf, key);
    hide Passed;
  }

  lemma ApplyInv(w: World, maxOf: nat -> nat, ev: Event)
    requires Inv(w, maxOf) && Enabled(w, maxOf, ev)
    ensures Inv(Apply(w, ev), maxOf)
  {
    hide CounterOk;
    forall key
      ensures CounterOk(Apply(w, ev), maxOf, key)
    {
      match ev
      case Charges(name, max, read) => ChargeKeeps(w, maxOf, name, max, read, key);
      case Sweeps(picked, read) => SweepKeeps(w, maxOf, picked, read, key);
      case TimePasses(millis) => TimeKeeps(w, maxOf, millis, key);
    }
  }

  lemma {:induction false} RunKeepsInv(w: World, maxOf: nat -> nat, evs: seq<Event>)
    requires Inv(w, maxOf) && Run(w, maxOf, evs).Some?
    ensures Inv(Run(w, maxOf, evs).value, maxOf)
    decreases |evs|
  {
    hide Inv, Apply, Enabled;
    if evs != [] {
      ApplyInv(w, maxOf, evs[0]);
      RunKeepsInv(Apply(w, evs[0]), maxOf, evs[1..]);
    }
  }

  /** The counter of the current hour is never swept. */
  lemma SweepSparesTheHour(w: World, maxOf: nat -> nat, picked: set<Key>, read: nat, key: Key)
    requires Inv(w, maxOf) && Enabled(w, maxOf, Sweeps(picked, read)) && key.window >= Window(w.now)
    ensures key !in picked
  {
    assert CounterOk(w, maxOf, key);
    WindowBounds(w.now);
    hide Window, Passed;
  }

  /** An hour from anywhere touches two windows of the clock. */
  lemma {:induction false} TwoWindows(passes: seq<Pass>, name: nat, from': nat)
    requires forall i :: 0 <= i < |passes| ==> passes[i].key.window == Window(passes[i].at)
    ensures PassedBetween(passes, name, from', HOUR)
      <= Passed(passes, Key(name, Window(from'))) + Passed(passes, Key(name, Window(from') + 1))
  {
    if passes != [] {
      TwoWindows(passes[..|passes| - 1], name, from');
      var last := passes[|passes| - 1];
      if from' <= last.at < from' + HOUR {
        assert last.key.window == Window(from') || last.key.window == Window(from') + 1;
      }
    }
  }

  /** In every run, a budget lets through at most its maximum in an hour of the clock, and twice it in any hour. */
  lemma BudgetsHold(maxOf: nat -> nat, evs: seq<Event>, name: nat, window: nat, from': nat)
    requires Run(START, maxOf, evs).Some?
    ensures var passes := Run(START, maxOf, evs).value.passes;
      && Passed(passes, Key(name, window)) <= maxOf(name)
      && PassedBetween(passes, name, from', HOUR) <= 2 * maxOf(name)
  {
    RunKeepsInv(START, maxOf, evs);
    var w := Run(START, maxOf, evs).value;
    hide Run;
    assert CounterOk(w, maxOf, Key(name, window));
    assert CounterOk(w, maxOf, Key(name, Window(from')));
    assert CounterOk(w, maxOf, Key(name, Window(from') + 1));
    TwoWindows(w.passes, name, from');
  }

  /** After every run, a charge is let through if and only if fewer than the maximum were let through this hour. */
  lemma LetThroughIff(maxOf: nat -> nat, evs: seq<Event>, name: nat, max: nat, read: nat)
    requires Run(START, maxOf, evs).Some? && Enabled(Run(START, maxOf, evs).value, maxOf, Charges(name, max, read))
    ensures var w := Run(START, maxOf, evs).value;
      var key := Key(name, Window(w.now));
      Apply(w, Charges(name, max, read)).passes
        == if Passed(w.passes, key) < maxOf(name) then w.passes + [Pass(key, w.now)] else w.passes
  {
    RunKeepsInv(START, maxOf, evs);
    var w := Run(START, maxOf, evs).value;
    hide Run, Passed, Window;
    assert CounterOk(w, maxOf, Key(name, Window(w.now)));
  }

  /** The charges a request makes before it stops. */
  function ChargesOf(counters: map<Key, Counter>, budgets: seq<Budget>, now: nat): seq<Event> {
    if budgets == [] then [] else
    var n := |budgets| - 1;
    var front := ChargesOf(counters, budgets[..n], now);
    if Charged(counters, budgets[..n], now).1 then front + [Charges(budgets[n].name, budgets[n].max, now)] else front
  }

  lemma {:induction false} RunThen(w: World, maxOf: nat -> nat, evs: seq<Event>, ev: Event)
    requires Run(w, maxOf, evs).Some? && Enabled(Run(w, maxOf, evs).value, maxOf, ev)
    ensures Run(w, maxOf, evs + [ev]) == Some(Apply(Run(w, maxOf, evs).value, ev))
    decreases |evs|
  {
    hide Apply, Enabled;
    if evs == [] {
      assert evs + [ev] == [ev];
    } else {
      assert (evs + [ev])[1..] == evs[1..] + [ev];
      RunThen(Apply(w, evs[0]), maxOf, evs[1..], ev);
    }
  }

  /** A request is a run of charges; it is let through if and only if all its budgets passed. */
  lemma {:induction false} RequestIsRun(w: World, maxOf: nat -> nat, budgets: seq<Budget>)
    requires forall i :: 0 <= i < |budgets| ==> budgets[i].max == maxOf(budgets[i].name)
    ensures var next := Run(w, maxOf, ChargesOf(w.counters, budgets, w.now));
      var (counters, ok) := Charged(w.counters, budgets, w.now);
      && next.Some? && next.value.counters == counters && next.value.now == w.now
      && |next.value.passes| <= |w.passes| + |budgets|
      && (ok <==> |next.value.passes| == |w.passes| + |budgets|)
    decreases |budgets|
  {
    if budgets != [] {
      var n := |budgets| - 1;
      var front := ChargesOf(w.counters, budgets[..n], w.now);
      RequestIsRun(w, maxOf, budgets[..n]);
      if Charged(w.counters, budgets[..n], w.now).1 {
        RunThen(w, maxOf, front, Charges(budgets[n].name, budgets[n].max, w.now));
      }
    }
  }
}

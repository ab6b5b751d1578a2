/**
 The preview player (`preview-player.ts`): an asynchronous state machine. Each stretch of the source between two
 awaits runs without interruption, so it is one step; `play`, the loads it starts and the loads a tick starts
 are tasks that wait. Clocks of audio contexts only move forward.
 */
module PreviewPlayer {
  import opened Wrappers
  import opened PreviewSchedule

  /** What the player is made for: checked chunks, how long they last, how far ahead it loads. */
  datatype Recording = Recording(chunks: seq<Chunk>, duration: real, lookahead: real)

  ghost predicate Playable(r: Recording) {
    Manifest(r.chunks) && IsDuration(r.chunks, r.duration) && 1.0 <= r.lookahead <= 60.0
  }

  /** A started buffer source: from `when` on its context's clock, `remaining` seconds from `offset` of the item. */
  datatype Node = Node(context: nat, item: Item, when: real, offset: real, remaining: real)

  /**
   Since the last play: the ends of the windows scheduled, their items with the time on the clock when each window
   was, the sources started, and those that have ended by themselves.
   */
  datatype History = History(
    cuts: seq<real>,
    placed: seq<Item>,
    placedAt: seq<real>,
    started: seq<Node>,
    ended: set<Node>
  )

  /** A window being loaded; `next` is the item whose samples it waits for. */
  datatype Load = Load(token: nat, context: nat, start: real, end: real, items: seq<Item>, next: nat, anchor: bool)

  datatype Task =
    | Resuming(token: nat, context: nat)
    | Loading(load: Load)
    | Starting(token: nat)

  /**
   The variables of the player, the timers and clocks outside it, and the waiting tasks; `past` is history.
   */
  datatype Player = Player(
    position: real,
    context: Option<nat>,
    base: real,
    playing: bool,
    disposed: bool,
    failed: bool,
    scheduledUntil: real,
    generation: nat,
    loading: bool,
    timer: Option<nat>,
    nodes: set<Node>,
    timers: set<nat>,
    clocks: map<nat, real>,
    tasks: map<nat, Task>,
    past: History
  )

  const START := Player(0.0, None, 0.0, false, false, false, 0.0, 0, false, None, {}, {}, map[], map[], History([], [], [], [], {}))

  /** How an awaited call ends: with its result, with a rejection, or with samples that do not fit their window. */
  datatype Outcome = Fine | Rejected | Misfit

  /** `fresh'` names a task and a context that the event may create; `clock` is its first time. */
  datatype Event =
    | Play(fresh': nat, clock: real)
    | Proceeds(task: nat, outcome: Outcome)
    | Tick(timer: nat, fresh': nat)
    | Pause
    | Seek(seconds: real, fresh': nat, clock: real)
    | Dispose
    | NodeEnds(node: Node)
    | ClockAdvances(context: nat, by': real)

  // ----- the variables ---------------------------------------------------------------------

  function Now(p: Player): real {
    if p.context.Some? && p.context.value in p.clocks then p.clocks[p.context.value] else 0.0
  }

  function Position(r: Recording, p: Player): real {
    if p.context.Some? && p.playing then Min(r.duration, Max(0.0, Now(p) - p.base)) else p.position
  }

  function Stop(r: Recording, p: Player, keepPosition: bool): Player {
    var position := if keepPosition then Position(r, p) else p.position;
    p.(generation := p.generation + 1, position := position, timer := None,
       timers := if p.timer.Some? then p.timers - {p.timer.value} else p.timers,
       playing := false, loading := false, scheduledUntil := position, nodes := {}, context := None)
  }

  function Fail(r: Recording, p: Player): Player {
    Stop(r, p.(failed := true), true)
  }

  function Without(p: Player, task: nat): Player {
    p.(tasks := p.tasks - {task})
  }

  // ----- windows -----------------------------------------------------------------------------

  /** Start the source of one prepared item, cut at its front when the clock has passed it. */
  function Placed(p: Player, item: Item): seq<Node> {
    var intendedStart := p.base + item.timelineStart;
    var lateBy := Max(0.0, Now(p) - intendedStart);
    if lateBy >= item.duration || p.context.None? then []
    else [Node(p.context.value, item, Max(Now(p), intendedStart), lateBy, item.duration - lateBy)]
  }

  function AllPlaced(p: Player, items: seq<Item>): seq<Node> {
    if items == [] then [] else AllPlaced(p, items[..|items| - 1]) + Placed(p, items[|items| - 1])
  }

  function Elements(nodes: seq<Node>): set<Node> { set n | n in nodes }

  /** After the last item has been read: fix the clock origin of a first window, and start its sources. */
  function Finished(p: Player, load: Load): Player {
    var q := if load.anchor then p.(base := Now(p) - p.position) else p;
    var more := AllPlaced(q, load.items);
    q.(nodes := q.nodes + Elements(more), scheduledUntil := load.end, loading := false,
       past := Scheduled(q.past, load, more, Now(p)))
  }

  function Scheduled(past: History, load: Load, more: seq<Node>, now: real): History {
    past.(cuts := past.cuts + [load.end], placed := past.placed + load.items,
          placedAt := past.placedAt + Repeated(now, |load.items|), started := past.started + more)
  }

  function Repeated(at: real, n: nat): (r: seq<real>)
    ensures |r| == n && forall i :: 0 <= i < n ==> r[i] == at
  {
    seq(n, _ => at)
  }

  /** What follows a window: the rest of `play` for its first, nothing for the window of a tick. */
  function Continued(p: Player, task: nat, load: Load): Player {
    if load.anchor then p.(tasks := p.tasks[task := Starting(load.token)]) else Without(p, task)
  }

  /** `scheduleWindow` up to its first await. */
  function WindowBegun(r: Recording, p: Player, targetEnd: real, token: nat, anchor: bool, task: nat): Player {
    var end := Min(r.duration, targetEnd);
    var load := Load(token, p.context.GetOr(0), p.scheduledUntil, end,
                     Schedule(r.chunks, r.duration, p.scheduledUntil, end), 0, anchor);
    if p.context.None? || !p.playing || p.loading || token != p.generation || end <= p.scheduledUntil
    then Continued(p, task, load)
    else if load.items == [] then Continued(Finished(p, load), task, load)
    else p.(loading := true, tasks := p.tasks[task := Loading(load)])
  }

  /** `scheduleWindow` after an item has been read. */
  function ItemRead(r: Recording, p: Player, task: nat, load: Load, outcome: Outcome): Player {
    var stale := load.token != p.generation || !p.playing || p.context != Some(load.context);
    if outcome.Rejected? then Continued(if load.token == p.generation then Fail(r, p) else p, task, load)
    else if stale then Continued(if load.token == p.generation then p.(loading := false) else p, task, load)
    else if load.next + 1 < |load.items| then p.(tasks := p.tasks[task := Loading(load.(next := load.next + 1))])
    else if outcome.Misfit? then
      Continued(Fail(r, if load.anchor then p.(base := Now(p) - p.position) else p), task, load)
    else Continued(Finished(p, load), task, load)
  }

  // ----- the calls -------------------------------------------------------------------------------

  /** `play` up to its first await. A context that cannot be created is a rejected resumption here. */
  function PlayBegun(r: Recording, p: Player, fresh': nat, clock: real): Player {
    if p.disposed || p.playing || r.duration <= 0.0 then p else
    p.(position := if p.position >= r.duration then 0.0 else p.position, failed := false,
       generation := p.generation + 1, context := Some(fresh'), clocks := p.clocks[fresh' := clock],
       tasks := p.tasks[fresh' := Resuming(p.generation + 1, fresh')])
  }

  function Resumed(r: Recording, p: Player, task: nat, token: nat, context: nat, outcome: Outcome): Player {
    if !outcome.Fine? then Without(if token == p.generation then Fail(r, p) else p, task)
    else if p.disposed || token != p.generation || p.context != Some(context) then Without(p, task)
    else
      var q := p.(playing := true, base := Now(p) - p.position, scheduledUntil := p.position,
                  past := History([p.position], [], [], [], {}));
      WindowBegun(r, q, p.position + r.lookahead, token, true, task)
  }

  function Started(p: Player, task: nat, token: nat): Player {
    if p.disposed || token != p.generation || !p.playing then Without(p, task)
    else Without(p, task).(timer := Some(task), timers := p.timers + {task})
  }

  function Ticked(r: Recording, p: Player, fresh': nat): Player {
    if !p.playing || p.context.None? then p else
    var q := p.(position := Position(r, p));
    if q.position >= r.duration then Stop(r, q.(position := r.duration), false)
    else if q.scheduledUntil < Min(r.duration, q.position + r.lookahead / 2.0)
    then WindowBegun(r, q, q.position + r.lookahead, q.generation, false, fresh')
    else q
  }

  function Sought(r: Recording, p: Player, seconds: real, fresh': nat, clock: real): Player {
    if p.disposed then p else
    var stopped := if p.playing || p.context.Some? then Stop(r, p, true) else p;
    var q := stopped.(position := Max(0.0, Min(r.duration, seconds)), failed := false);
    if p.playing && q.position < r.duration then PlayBegun(r, q, fresh', clock) else q
  }

  function NodeEnded(p: Player, node: Node): Player {
    p.(nodes := p.nodes - {node}, past := p.past.(ended := p.past.ended + {node}))
  }

  predicate Enabled(p: Player, ev: Event) {
    match ev
    case Play(fresh', _) => fresh' !in p.clocks && fresh' !in p.tasks && fresh' !in p.timers
    case Proceeds(task, _) => task in p.tasks
    case Tick(timer, fresh') => timer in p.timers && fresh' !in p.clocks && fresh' !in p.tasks && fresh' !in p.timers
    case Seek(_, fresh', _) => fresh' !in p.clocks && fresh' !in p.tasks && fresh' !in p.timers
    case NodeEnds(node) => node in p.nodes
    case ClockAdvances(context, by') => context in p.clocks && by' >= 0.0
    case _ => true
  }

  function TaskProceeds(r: Recording, p: Player, task: nat, outcome: Outcome): Player
    requires task in p.tasks
  {
    match p.tasks[task]
    case Resuming(token, context) => Resumed(r, p, task, token, context, outcome)
    case Loading(load) => ItemRead(r, p, task, load, outcome)
    case Starting(token) => Started(p, task, token)
  }

  function Apply(r: Recording, p: Player, ev: Event): Player
    requires Enabled(p, ev)
  {
    match ev
    case Play(fresh', clock) => PlayBegun(r, p, fresh', clock)
    case Proceeds(task, outcome) => TaskProceeds(r, p, task, outcome)
    case Tick(_, fresh') => Ticked(r, p, fresh')
    case Pause => if p.playing || p.context.Some? then Stop(r, p, true) else p
    case Seek(seconds, fresh', clock) => Sought(r, p, seconds, fresh', clock)
    case Dispose => if p.disposed then p else Stop(r, p, true).(disposed := true)
    case NodeEnds(node) => NodeEnded(p, node)
    case ClockAdvances(context, by') => p.(clocks := p.clocks[context := p.clocks[context] + by'])
  }

  function Run(r: Recording, p: Player, evs: seq<Event>): Option<Player>
    decreases |evs|
  {
    if evs == [] then Some(p)
    else if !Enabled(p, evs[0]) then None
    else Run(r, Apply(r, p, evs[0]), evs[1..])
  }

  // ----- what always holds --------------------------------------------------------------------------

  /** The items of the windows between consecutive cuts. */
  function Windows(r: Recording, cuts: seq<real>): seq<Item> {
    if |cuts| < 2 then [] else
    Windows(r, cuts[..|cuts| - 1]) + Schedule(r.chunks, r.duration, cuts[|cuts| - 2], cuts[|cuts| - 1])
  }

  /** Sample `t` of the timeline leaves the node at `base + t` on the clock, however late the node was started. */
  predicate InTime(p: Player, n: Node) {
    && Some(n.context) == p.context
    && n.when - n.offset == p.base + n.item.timelineStart
    && n.offset >= 0.0 && n.remaining > 0.0 && n.offset + n.remaining == n.item.duration
  }

  predicate Settled(r: Recording, p: Player) {
    && 0.0 <= p.position <= r.duration
    && p.timers == (if p.timer.Some? then {p.timer.value} else {})
    && (p.timer.Some? ==> p.playing)
    && (p.context.Some? ==> p.context.value in p.clocks)
    && (p.playing ==> p.context.Some?)
    && (p.context.Some? ==> !p.disposed)
    && (!p.playing ==> p.nodes == {} && !p.loading)
  }

  predicate Contiguous(r: Recording, p: Player) {
    p.playing ==>
      && Rising(p.past.cuts) && p.past.cuts[|p.past.cuts| - 1] == p.scheduledUntil && p.scheduledUntil <= r.duration
      && p.past.placed == Windows(r, p.past.cuts)
  }

  /** The node plays the item from the time `at` of the window on: at its time, or what is left of it, at once. */
  predicate Plays(n: Node, item: Item, base: real, at: real) {
    && n.item == item
    && (if at <= base + item.timelineStart then n.when == base + item.timelineStart && n.offset == 0.0
        else n.when == at && n.offset == at - (base + item.timelineStart))
    && n.remaining == item.duration - n.offset
  }

  /** The item is not over yet at the time `at`. */
  predicate Due(item: Item, base: real, at: real) {
    at < base + item.timelineStart + item.duration
  }

  /** The sources started, in order, are those of the items that were not over when their windows were scheduled. */
  predicate StartedAsDue(started: seq<Node>, placed: seq<Item>, placedAt: seq<real>, base: real)
    requires |placed| == |placedAt|
    decreases |placed|
  {
    if placed == [] then started == [] else
    var n := |placed| - 1;
    if !Due(placed[n], base, placedAt[n]) then StartedAsDue(started, placed[..n], placedAt[..n], base)
    else
      started != [] && Plays(started[|started| - 1], placed[n], base, placedAt[n])
      && StartedAsDue(started[..|started| - 1], placed[..n], placedAt[..n], base)
  }

  /** While playing, what has been started is live or has ended by itself. */
  predicate Sounding(p: Player) {
    && |p.past.placed| == |p.past.placedAt|
    && (p.playing ==>
          && StartedAsDue(p.past.started, p.past.placed, p.past.placedAt, p.base)
          && (forall n :: n in p.past.started ==> n in p.nodes || n in p.past.ended))
  }

  function TokenOf(task: Task): nat {
    match task
    case Resuming(token, _) => token
    case Loading(load) => load.token
    case Starting(token) => token
  }

  predicate Current(p: Player, task: nat) {
    task in p.tasks && TokenOf(p.tasks[task]) == p.generation
  }

  predicate LoadOk(r: Recording, p: Player, load: Load) {
    && p.loading && p.playing && p.context == Some(load.context)
    && load.start == p.scheduledUntil && load.start < load.end <= r.duration
    && load.items == Schedule(r.chunks, r.duration, load.start, load.end)
    && load.next < |load.items|
    && (load.anchor ==> p.timer.None? && p.nodes == {} && p.past.cuts == [p.position])
  }

  predicate TaskOk(r: Recording, p: Player, task: Task) {
    match task
    case Resuming(_, context) => !p.playing && p.context == Some(context)
    case Loading(load) => LoadOk(r, p, load)
    case Starting(_) => p.timer.None?
  }

  ghost predicate TasksOk(r: Recording, p: Player) {
    && (forall task :: task in p.tasks ==> TokenOf(p.tasks[task]) <= p.generation)
    && (forall task :: Current(p, task) ==> TaskOk(r, p, p.tasks[task]))
    && (forall task, other :: Current(p, task) && Current(p, other) ==> task == other)
  }

  predicate NodesOk(p: Player) {
    forall n :: n in p.nodes ==> InTime(p, n)
  }

  ghost predicate Inv(r: Recording, p: Player) {
    Settled(r, p) && Contiguous(r, p) && TasksOk(r, p) && NodesOk(p) && Sounding(p)
  }

  // ----- steps ------------------------------------------------------------------------------------------

  /** Stopping makes every waiting task stale. */
  lemma StopKeepsInv(r: Recording, p: Player, keepPosition: bool)
    requires r.duration >= 0.0 && Settled(r, p) && |p.past.placed| == |p.past.placedAt|
    requires forall task :: task in p.tasks ==> TokenOf(p.tasks[task]) <= p.generation
    ensures Inv(r, Stop(r, p, keepPosition))
    ensures forall task :: task in p.tasks ==> TokenOf(p.tasks[task]) < Stop(r, p, keepPosition).generation
  {
  }

  lemma PlacedInTime(p: Player, item: Item)
    requires item.duration > 0.0
    ensures forall n :: n in Placed(p, item) ==>
      InTime(p, n) && n.item == item && Now(p) <= n.when
    ensures p.context.Some? ==> (Placed(p, item) == [] <==> p.base + item.timelineStart + item.duration <= Now(p))
    ensures Placed(p, item) == [] || (|Placed(p, item)| == 1 && Plays(Placed(p, item)[0], item, p.base, Now(p)))
  {
  }

  predicate AllLast(items: seq<Item>) {
    forall i :: 0 <= i < |items| ==> items[i].duration > 0.0
  }

  lemma {:induction false} AllPlacedInTime(p: Player, items: seq<Item>)
    requires AllLast(items)
    ensures forall n :: n in AllPlaced(p, items) ==> InTime(p, n)
  {
    if items != [] {
      AllPlacedInTime(p, items[..|items| - 1]);
      PlacedInTime(p, items[|items| - 1]);
    }
  }

  /** What a window starts is what is due of its items. */
  lemma {:induction false} AllPlacedAsDue(p: Player, items: seq<Item>, started: seq<Node>, placed: seq<Item>, placedAt: seq<real>)
    requires AllLast(items) && p.context.Some?
    requires |placed| == |placedAt| && StartedAsDue(started, placed, placedAt, p.base)
    ensures StartedAsDue(started + AllPlaced(p, items), placed + items, placedAt + Repeated(Now(p), |items|), p.base)
    decreases |items|
  {
    hide Placed, Plays, Now;
    var n := |items|;
    if n == 0 {
      assert started + AllPlaced(p, items) == started && placed + items == placed;
      assert placedAt + Repeated(Now(p), 0) == placedAt;
    } else {
      var at := placedAt + Repeated(Now(p), n);
      AllPlacedAsDue(p, items[..n - 1], started, placed, placedAt);
      PlacedInTime(p, items[n - 1]);
      var all, some := started + AllPlaced(p, items), started + AllPlaced(p, items[..n - 1]);
      assert (placed + items)[..|placed| + n - 1] == placed + items[..n - 1];
      assert at[..|placed| + n - 1] == placedAt + Repeated(Now(p), n - 1);
      assert (placed + items)[|placed| + n - 1] == items[n - 1] && at[|placed| + n - 1] == Now(p);
      assert all == some + Placed(p, items[n - 1]);
      if Placed(p, items[n - 1]) != [] {
        assert all[..|all| - 1] == some && all[|all| - 1] == Placed(p, items[n - 1])[0];
      } else {
        assert all == some;
      }
    }
  }

  lemma {:induction false} ItemsLast(chunks: seq<Chunk>, a: real, b: real, gain: real)
    ensures AllLast(Items(chunks, a, b, gain))
  {
    if chunks != [] {
      var front, last := chunks[..|chunks| - 1], Clip(chunks[|chunks| - 1], a, b, gain);
      ItemsLast(front, a, b, gain);
      assert last.Some? ==> last.value.duration > 0.0;
      assert Items(chunks, a, b, gain) == Items(front, a, b, gain) + Listed(last);
    }
  }

  /** What `Finished` does to the windows. */
  lemma WindowAdded(r: Recording, p: Player, load: Load)
    requires Contiguous(r, p) && p.playing
    requires load.start == p.scheduledUntil <= load.end <= r.duration
    requires load.items == Schedule(r.chunks, r.duration, load.start, load.end)
    ensures Contiguous(r, Finished(p, load))
    ensures AllLast(load.items)
  {
    hide AllPlaced;
    ItemsLast(r.chunks, load.start, Min(load.end, r.duration), GainOf(r.chunks));
    var cuts := p.past.cuts + [load.end];
    RisingGrows(p.past.cuts, load.end);
    assert cuts[..|cuts| - 1] == p.past.cuts;
    assert Windows(r, cuts) == Windows(r, p.past.cuts) + load.items;
    var f := Finished(p, load);
    assert f.past.cuts == cuts && f.past.placed == p.past.placed + load.items;
    assert f.scheduledUntil == load.end && cuts[|cuts| - 1] == load.end;
    assert Rising(f.past.cuts);
    assert f.past.placed == Windows(r, f.past.cuts);
  }

  lemma RisingGrows(cuts: seq<real>, end: real)
    requires Rising(cuts) && cuts[|cuts| - 1] <= end
    ensures Rising(cuts + [end])
  {
  }

  lemma FinishedSounds(r: Recording, p: Player, load: Load)
    requires Settled(r, p) && Sounding(p) && p.playing && AllLast(load.items)
    requires load.anchor ==> p.past.placed == []
    ensures Sounding(Finished(p, load))
  {
    hide StartedAsDue, Now;
    var q := if load.anchor then p.(base := Now(p) - p.position) else p;
    assert Now(q) == Now(p) by { SameClock(p, q); }
    assert StartedAsDue(p.past.started, p.past.placed, p.past.placedAt, q.base) by { NothingStarted(p, q.base); }
    AllPlacedAsDue(q, load.items, p.past.started, p.past.placed, p.past.placedAt);
    var f := Finished(p, load);
    forall n | n in f.past.started
      ensures n in f.nodes || n in f.past.ended
    {
      assert n in p.past.started || n in AllPlaced(q, load.items);
    }
  }

  lemma SameClock(p: Player, q: Player)
    requires q.context == p.context && q.clocks == p.clocks
    ensures Now(q) == Now(p)
  {
  }

  /** Before anything has been placed, any origin of the clock will do. */
  lemma NothingStarted(p: Player, base: real)
    requires Sounding(p) && p.playing && (base == p.base || p.past.placed == [])
    ensures StartedAsDue(p.past.started, p.past.placed, p.past.placedAt, base)
  {
  }

  lemma FinishedInTime(r: Recording, p: Player, load: Load)
    requires NodesOk(p) && AllLast(load.items) && (load.anchor ==> p.nodes == {})
    ensures NodesOk(Finished(p, load))
  {
    hide AllPlaced, Now, AllLast;
    var q := if load.anchor then p.(base := Now(p) - p.position) else p;
    AllPlacedInTime(q, load.items);
    var f := Finished(p, load);
    forall n | n in f.nodes
      ensures InTime(f, n)
    {
      assert n in p.nodes ==> InTime(p, n);
      assert n in AllPlaced(q, load.items) ==> InTime(q, n);
    }
  }

  /** The state after a window has been placed, before its task is dealt with. */
  lemma FinishedIsOk(r: Recording, p: Player, load: Load)
    requires Settled(r, p) && Contiguous(r, p) && NodesOk(p) && Sounding(p) && p.playing
    requires load.start == p.scheduledUntil <= load.end <= r.duration
    requires load.items == Schedule(r.chunks, r.duration, load.start, load.end)
    requires load.anchor ==> p.nodes == {} && p.past.cuts == [p.position]
    ensures var q := Finished(p, load);
      Settled(r, q) && Contiguous(r, q) && NodesOk(q) && Sounding(q)
  {
    if load.anchor {
      NoWindow(r, p.position);
      assert p.past.placed == [];
    }
    hide Contiguous, Schedule, AllPlaced, Sounding, Windows, NodesOk, AllLast, Now, Elements;
    WindowAdded(r, p, load);
    FinishedSounds(r, p, load);
    FinishedInTime(r, p, load);
  }

  /** A task that has ended, or whose play goes on, leaves at most one current task, when it was the only one. */
  lemma ContinuedIsOk(r: Recording, p: Player, task: nat, load: Load)
    requires Settled(r, p) && Contiguous(r, p) && NodesOk(p) && Sounding(p)
    requires forall other :: other in p.tasks ==> TokenOf(p.tasks[other]) <= p.generation
    requires forall other :: Current(p, other) ==> other == task
    requires load.token <= p.generation
    requires load.anchor && load.token == p.generation ==> p.timer.None?
    ensures Inv(r, Continued(p, task, load))
  {
    hide Settled, Contiguous, Windows, Schedule;
    var q := Continued(p, task, load);
    assert Settled(r, q) by { SameSettled(r, p, q); }
    assert Contiguous(r, q) by { SameContiguous(r, p, q); }
    assert q.nodes == p.nodes;
    forall n | n in q.nodes
      ensures InTime(q, n)
    {
      assert InTime(p, n);
    }
    forall other | Current(q, other)
      ensures other == task
    {
      assert other != task ==> Current(p, other);
    }
  }

  lemma SameSettled(r: Recording, p: Player, q: Player)
    requires Settled(r, p) && q == p.(tasks := q.tasks)
    ensures Settled(r, q)
  {
  }

  lemma SameContiguous(r: Recording, p: Player, q: Player)
    requires Contiguous(r, p)
    requires q.playing == p.playing && q.scheduledUntil == p.scheduledUntil
    requires q.past.cuts == p.past.cuts && q.past.placed == p.past.placed
    ensures Contiguous(r, q)
  {
  }

  lemma WindowBegunIsOk(r: Recording, p: Player, targetEnd: real, token: nat, anchor: bool, task: nat)
    requires Settled(r, p) && Contiguous(r, p) && NodesOk(p) && Sounding(p) && p.playing && !p.loading
    requires forall other :: other in p.tasks ==> TokenOf(p.tasks[other]) <= p.generation
    requires forall other :: Current(p, other) ==> other == task
    requires token == p.generation
    requires anchor ==> p.timer.None? && p.nodes == {} && p.past.cuts == [p.position]
    ensures Inv(r, WindowBegun(r, p, targetEnd, token, anchor, task))
  {
    var end := Min(r.duration, targetEnd);
    var load := Load(token, p.context.GetOr(0), p.scheduledUntil, end,
                     Schedule(r.chunks, r.duration, p.scheduledUntil, end), 0, anchor);
    var q := WindowBegun(r, p, targetEnd, token, anchor, task);
    hide Schedule, Rising, Windows;
    if end <= p.scheduledUntil {
      ContinuedIsOk(r, p, task, load);
    } else if load.items == [] {
      FinishedIsOk(r, p, load);
      var f := Finished(p, load);
      assert forall other :: Current(f, other) ==> Current(p, other);
      ContinuedIsOk(r, f, task, load);
    } else {
      assert q == p.(loading := true, tasks := p.tasks[task := Loading(load)]);
      LoadingIsOk(r, p, task, load);
    }
  }

  lemma LoadingIsOk(r: Recording, p: Player, task: nat, load: Load)
    requires Settled(r, p) && Contiguous(r, p) && NodesOk(p) && Sounding(p) && p.playing && !p.loading
    requires forall other :: other in p.tasks ==> TokenOf(p.tasks[other]) <= p.generation
    requires forall other :: Current(p, other) ==> other == task
    requires load.token == p.generation && LoadOk(r, p.(loading := true), load)
    ensures Inv(r, p.(loading := true, tasks := p.tasks[task := Loading(load)]))
  {
    var q := p.(loading := true, tasks := p.tasks[task := Loading(load)]);
    hide Schedule, Rising, Windows;
    SameContiguous(r, p, q);
    hide Contiguous;
    forall n | n in q.nodes
      ensures InTime(q, n)
    {
      assert InTime(p, n);
    }
    forall other | Current(q, other)
      ensures other == task
    {
      assert other != task ==> Current(p, other);
    }
  }

  /** A task of an earlier play or stop changes nothing but that it ends, whatever it brings. */
  lemma StaleTaskChangesNothing(r: Recording, p: Player, task: nat, outcome: Outcome)
    requires task in p.tasks && TokenOf(p.tasks[task]) != p.generation
    ensures TaskProceeds(r, p, task, outcome) == p.(tasks := TaskProceeds(r, p, task, outcome).tasks)
    ensures !Current(TaskProceeds(r, p, task, outcome), task)
  {
    hide Stop, Fail, Finished, WindowBegun;
  }

  lemma StaleKeepsInv(r: Recording, p: Player, task: nat, outcome: Outcome)
    requires Inv(r, p) && task in p.tasks && TokenOf(p.tasks[task]) != p.generation
    ensures Inv(r, TaskProceeds(r, p, task, outcome))
  {
    StaleTaskChangesNothing(r, p, task, outcome);
    var q := TaskProceeds(r, p, task, outcome);
    StaleTasks(r, p, task, outcome);
    hide Schedule, Windows, Rising, TaskProceeds;
    forall n | n in q.nodes
      ensures InTime(q, n)
    {
      assert InTime(p, n);
    }
    forall other | Current(q, other)
      ensures Current(p, other) && q.tasks[other] == p.tasks[other] && other != task
    {
    }
  }

  /** A stale load ends as if its window had been refused. */
  lemma StaleLoad(r: Recording, p: Player, task: nat, load: Load, outcome: Outcome)
    requires load.token != p.generation
    ensures ItemRead(r, p, task, load, outcome) == Continued(p, task, load)
  {
    hide Fail, Finished;
  }

  lemma StaleTasks(r: Recording, p: Player, task: nat, outcome: Outcome)
    requires task in p.tasks && TokenOf(p.tasks[task]) != p.generation
    ensures var q := TaskProceeds(r, p, task, outcome);
      && (task in q.tasks ==> TokenOf(q.tasks[task]) == TokenOf(p.tasks[task]))
      && forall other :: other in q.tasks && other != task ==> other in p.tasks && q.tasks[other] == p.tasks[other]
  {
    hide Stop, Fail, Finished, WindowBegun, ItemRead;
    var q := TaskProceeds(r, p, task, outcome);
    match p.tasks[task]
    case Resuming(_, _) => assert q == Without(p, task);
    case Starting(_) => assert q == Without(p, task);
    case Loading(load) => StaleLoad(r, p, task, load, outcome);
  }

  lemma NoTaskIsCurrent(p: Player)
    requires forall task :: task in p.tasks ==> TokenOf(p.tasks[task]) < p.generation
    ensures forall task :: !Current(p, task)
  {
  }

  lemma PlayBegunIsOk(r: Recording, p: Player, fresh': nat, clock: real)
    requires Playable(r) && Inv(r, p)
    ensures Inv(r, PlayBegun(r, p, fresh', clock))
  {
    hide Schedule, Windows, Rising, Manifest, IsDuration;
    var q := PlayBegun(r, p, fresh', clock);
    if q != p {
      forall other | Current(q, other)
        ensures other == fresh'
      {
      }
    }
  }

  lemma ResumedIsOk(r: Recording, p: Player, task: nat, outcome: Outcome)
    requires Playable(r) && Inv(r, p) && Current(p, task) && p.tasks[task].Resuming?
    ensures Inv(r, TaskProceeds(r, p, task, outcome))
  {
    hide Schedule, Windows, Manifest, IsDuration, StartedAsDue, WindowBegun, Rising;
    var c := p.tasks[task];
    assert TaskOk(r, p, c);
    if !outcome.Fine? {
      StopKeepsInv(r, p.(failed := true), true);
      SameTasks(r, Fail(r, p), task);
    } else if !p.disposed {
      SetOffIsOk(r, p, task, c.token);
    } else {
      SameTasks(r, p, task);
    }
  }

  /** The context has resumed: playing begins, with nothing scheduled yet. */
  lemma SetOffIsOk(r: Recording, p: Player, task: nat, token: nat)
    requires Playable(r) && Inv(r, p) && Current(p, task) && !p.playing && p.context.Some? && !p.disposed
    requires p.timer.None? && token == p.generation
    ensures var q := p.(playing := true, base := Now(p) - p.position, scheduledUntil := p.position,
                        past := History([p.position], [], [], [], {}));
      Inv(r, WindowBegun(r, q, p.position + r.lookahead, token, true, task))
  {
    hide Schedule, Manifest, IsDuration, WindowBegun;
    var q := p.(playing := true, base := Now(p) - p.position, scheduledUntil := p.position,
                past := History([p.position], [], [], [], {}));
    assert Windows(r, [p.position]) == [] by { NoWindow(r, p.position); }
    assert Settled(r, q) && Contiguous(r, q) && NodesOk(q) && Sounding(q);
    assert forall other :: Current(q, other) ==> Current(p, other);
    WindowBegunIsOk(r, q, p.position + r.lookahead, token, true, task);
  }

  lemma NoWindow(r: Recording, cut: real)
    ensures Windows(r, [cut]) == []
  {
  }

  /** Forgetting a task keeps what holds. */
  lemma SameTasks(r: Recording, p: Player, task: nat)
    requires Inv(r, p)
    ensures Inv(r, Without(p, task))
  {
    hide Schedule, Windows, Rising;
    var q := Without(p, task);
    forall n | n in q.nodes
      ensures InTime(q, n)
    {
      assert InTime(p, n);
    }
    forall other | Current(q, other)
      ensures Current(p, other) && q.tasks[other] == p.tasks[other]
    {
    }
  }

  lemma ItemReadIsOk(r: Recording, p: Player, task: nat, outcome: Outcome)
    requires Playable(r) && Inv(r, p) && Current(p, task) && p.tasks[task].Loading?
    ensures Inv(r, TaskProceeds(r, p, task, outcome))
  {
    hide Schedule, Windows, Manifest, IsDuration, Rising, Contiguous, InTime, StartedAsDue;
    var load := p.tasks[task].load;
    assert TaskOk(r, p, p.tasks[task]);
    assert load.anchor ==> p.past.cuts == [p.position];
    if outcome.Rejected? {
      StopKeepsInv(r, p.(failed := true), true);
      var q := Fail(r, p);
      NoTaskIsCurrent(q);
      ContinuedIsOk(r, q, task, load);
    } else if load.next + 1 < |load.items| {
      LoadGoesOn(r, p, task, load);
    } else if outcome.Misfit? {
      var based := if load.anchor then p.(base := Now(p) - p.position) else p;
      StopKeepsInv(r, based.(failed := true), true);
      var q := Fail(r, based);
      NoTaskIsCurrent(q);
      ContinuedIsOk(r, q, task, load);
    } else {
      FinishedIsOk(r, p, load);
      var f := Finished(p, load);
      assert forall other :: Current(f, other) ==> Current(p, other);
      ContinuedIsOk(r, f, task, load);
    }
  }

  lemma LoadGoesOn(r: Recording, p: Player, task: nat, load: Load)
    requires Inv(r, p) && Current(p, task) && p.tasks[task] == Loading(load) && load.next + 1 < |load.items|
    ensures Inv(r, p.(tasks := p.tasks[task := Loading(load.(next := load.next + 1))]))
  {
    hide Schedule, Windows, Rising;
    var q := p.(tasks := p.tasks[task := Loading(load.(next := load.next + 1))]);
    forall n | n in q.nodes
      ensures InTime(q, n)
    {
      assert InTime(p, n);
    }
    forall other | Current(q, other)
      ensures other == task
    {
      assert other != task ==> Current(p, other);
    }
  }

  lemma StartedIsOk(r: Recording, p: Player, task: nat, outcome: Outcome)
    requires Inv(r, p) && Current(p, task) && p.tasks[task].Starting?
    ensures Inv(r, TaskProceeds(r, p, task, outcome))
  {
    hide Schedule, Windows, Rising;
    var q := TaskProceeds(r, p, task, outcome);
    assert TaskOk(r, p, p.tasks[task]);
    forall n | n in q.nodes
      ensures InTime(q, n)
    {
      assert InTime(p, n);
    }
    forall other: nat
      ensures !Current(q, other)
    {
      assert Current(q, other) ==> Current(p, other) && other != task;
    }
  }

  lemma TickedIsOk(r: Recording, p: Player, timer: nat, fresh': nat)
    requires Playable(r) && Inv(r, p) && Enabled(p, Tick(timer, fresh'))
    ensures Inv(r, Ticked(r, p, fresh'))
  {
    hide Schedule, Windows, Rising, Manifest, IsDuration;
    if p.playing {
      var q := p.(position := Position(r, p));
      Repositioned(r, p, q);
      if q.position >= r.duration {
        StopKeepsInv(r, q.(position := r.duration), false);
      } else if q.scheduledUntil < Min(r.duration, q.position + r.lookahead / 2.0) && !p.loading {
        NoneWhileTicking(r, q);
        hide Inv;
        WindowBegunIsOk(r, q, q.position + r.lookahead, q.generation, false, fresh');
      } else {
        SameTasks(r, q, fresh');
      }
    }
  }

  /** While the timer runs, the only task that can be current is a load. */
  lemma NoneWhileTicking(r: Recording, p: Player)
    requires Inv(r, p) && p.timer.Some? && !p.loading
    ensures forall task :: !Current(p, task)
  {
    forall task: nat
      ensures !Current(p, task)
    {
      assert Current(p, task) ==> TaskOk(r, p, p.tasks[task]);
    }
  }

  lemma Repositioned(r: Recording, p: Player, q: Player)
    requires Playable(r) && Inv(r, p) && p.timer.Some? && q == p.(position := q.position)
    requires 0.0 <= q.position <= r.duration
    ensures Inv(r, q)
  {
    hide Schedule, Windows, Rising;
    forall n | n in q.nodes
      ensures InTime(q, n)
    {
      assert InTime(p, n);
    }
    forall other | Current(q, other)
      ensures Current(p, other) && TaskOk(r, q, q.tasks[other])
    {
      assert TaskOk(r, p, p.tasks[other]);
    }
  }

  lemma SoughtIsOk(r: Recording, p: Player, seconds: real, fresh': nat, clock: real)
    requires Playable(r) && Inv(r, p)
    ensures Inv(r, Sought(r, p, seconds, fresh', clock))
  {
    hide Schedule, Windows, Rising, Manifest, IsDuration;
    if !p.disposed {
      var stopped := if p.playing || p.context.Some? then Stop(r, p, true) else p;
      StopKeepsInv(r, p, true);
      var q := stopped.(position := Max(0.0, Min(r.duration, seconds)), failed := false);
      assert Inv(r, q) by {
        assert forall other :: Current(q, other) ==> Current(stopped, other);
      }
      if p.playing && q.position < r.duration {
        PlayBegunIsOk(r, q, fresh', clock);
      }
    }
  }

  lemma ClocksKeepInv(r: Recording, p: Player, context: nat, by': real)
    requires Inv(r, p) && Enabled(p, ClockAdvances(context, by'))
    ensures Inv(r, Apply(r, p, ClockAdvances(context, by')))
  {
    hide Schedule, Windows, Rising;
    var q := Apply(r, p, ClockAdvances(context, by'));
    assert forall n :: n in q.nodes ==> InTime(p, n);
    assert forall other :: Current(q, other) ==> Current(p, other);
  }

  lemma NodesKeepInv(r: Recording, p: Player, node: Node)
    requires Inv(r, p)
    ensures Inv(r, NodeEnded(p, node))
  {
    hide Schedule, Windows, Rising;
    var q := NodeEnded(p, node);
    assert forall n :: n in q.nodes ==> InTime(p, n);
    assert forall other :: Current(q, other) ==> Current(p, other);
  }

  lemma ApplyInv(r: Recording, p: Player, ev: Event)
    requires Playable(r) && Inv(r, p) && Enabled(p, ev)
    ensures Inv(r, Apply(r, p, ev))
  {
    hide Schedule, Windows, Rising, Manifest, IsDuration, TaskProceeds, PlayBegun, Ticked, Sought, TaskOk, InTime,
      Contiguous;
    match ev
    case Play(fresh', clock) => PlayBegunIsOk(r, p, fresh', clock);
    case Proceeds(task, outcome) =>
      if !Current(p, task) {
        StaleKeepsInv(r, p, task, outcome);
      } else if p.tasks[task].Resuming? {
        ResumedIsOk(r, p, task, outcome);
      } else if p.tasks[task].Loading? {
        ItemReadIsOk(r, p, task, outcome);
      } else {
        StartedIsOk(r, p, task, outcome);
      }
    case Tick(timer, fresh') => TickedIsOk(r, p, timer, fresh');
    case Pause => StopKeepsInv(r, p, true);
    case Seek(seconds, fresh', clock) => SoughtIsOk(r, p, seconds, fresh', clock);
    case Dispose =>
      StopKeepsInv(r, p, true);
      DisposedIsOk(r, p);
    case NodeEnds(node) => NodesKeepInv(r, p, node);
    case ClockAdvances(context, by') => ClocksKeepInv(r, p, context, by');
  }

  lemma DisposedIsOk(r: Recording, p: Player)
    requires Inv(r, Stop(r, p, true))
    ensures Inv(r, Stop(r, p, true).(disposed := true))
  {
    var stopped := Stop(r, p, true);
    assert forall other :: Current(stopped.(disposed := true), other) ==> Current(stopped, other);
  }

  lemma {:induction false} RunKeepsInv(r: Recording, p: Player, evs: seq<Event>)
    requires Playable(r) && Inv(r, p) && Run(r, p, evs).Some?
    ensures Inv(r, Run(r, p, evs).value)
    decreases |evs|
  {
    hide Inv, Apply, Enabled, Playable;
    if evs != [] {
      ApplyInv(r, p, evs[0]);
      RunKeepsInv(r, Apply(r, p, evs[0]), evs[1..]);
    }
  }

  /** What has been scheduled of the chunk since the last play. */
  function Heard(items: seq<Item>, c: Chunk): real {
    if items == [] then 0.0 else
    var last := items[|items| - 1];
    Heard(items[..|items| - 1], c)
      + (if last.source == c.source && last.sequence == c.sequence then last.duration else 0.0)
  }

  lemma {:induction false} HeardAdds(left: seq<Item>, right: seq<Item>, c: Chunk)
    ensures Heard(left + right, c) == Heard(left, c) + Heard(right, c)
  {
    if right == [] {
      assert left + right == left;
    } else {
      HeardAdds(left, right[..|right| - 1], c);
      assert (left + right)[..|left + right| - 1] == left + right[..|right| - 1];
    }
  }

  lemma {:induction false} HeardInOneWindow(chunks: seq<Chunk>, a: real, b: real, gain: real, c: Chunk)
    requires Named(chunks)
    ensures c in chunks ==> Heard(Items(chunks, a, b, gain), c) == Length(Clip(c, a, b, gain))
    ensures (forall i :: 0 <= i < |chunks| ==> (chunks[i].source, chunks[i].sequence) != (c.source, c.sequence)) ==>
      Heard(Items(chunks, a, b, gain), c) == 0.0
  {
    if chunks != [] {
      var front, last := chunks[..|chunks| - 1], chunks[|chunks| - 1];
      HeardInOneWindow(front, a, b, gain, c);
      HeardAdds(Items(front, a, b, gain), Listed(Clip(last, a, b, gain)), c);
      assert Heard(Listed(Clip(last, a, b, gain)), c)
        == if (last.source, last.sequence) == (c.source, c.sequence) then Length(Clip(last, a, b, gain)) else 0.0;
      if c in chunks && c != last {
        assert c in front;
        var i :| 0 <= i < |front| && front[i] == c;
        assert chunks[i] == c;
      }
    }
  }

  lemma {:induction false} HeardIsPlayed(r: Recording, cuts: seq<real>, c: Chunk)
    requires Playable(r) && c in r.chunks
    ensures Heard(Windows(r, cuts), c) == Played(r.chunks, r.duration, cuts, c)
    decreases |cuts|
  {
    if |cuts| >= 2 {
      var a, b := cuts[|cuts| - 2], Min(cuts[|cuts| - 1], r.duration);
      hide Manifest, IsDuration, Clip, Heard, Items, PieceOf;
      HeardIsPlayed(r, cuts[..|cuts| - 1], c);
      ManifestIsNamed(r.chunks);
      HeardInOneWindow(r.chunks, a, b, GainOf(r.chunks), c);
      PieceIsClip(r.chunks, a, b, GainOf(r.chunks), c);
      HeardAdds(Windows(r, cuts[..|cuts| - 1]), Items(r.chunks, a, b, GainOf(r.chunks)), c);
    } else {
      NothingHeard(c);
    }
  }

  lemma NothingHeard(c: Chunk)
    ensures Heard([], c) == 0.0
  {
  }

  /**
   Every run of calls, ticks, late loads and failures: at most one timer, and only while playing; the position
   within the recording; every live node on the current context and in time; and what has been scheduled of any
   chunk since the last play is the one piece between where the play began and `scheduledUntil`.
   */
  lemma PlayerRunsAreSafe(r: Recording, evs: seq<Event>, c: Chunk)
    requires Playable(r) && Run(r, START, evs).Some? && c in r.chunks
    ensures var p := Run(r, START, evs).value;
      && |p.timers| <= 1 && (p.timers != {} ==> p.playing)
      && 0.0 <= p.position <= r.duration
      && (forall n :: n in p.nodes ==> p.playing && InTime(p, n))
      && (p.playing ==>
            && p.past.cuts != [] && 0.0 <= p.past.cuts[0] <= p.scheduledUntil <= r.duration
            && Heard(p.past.placed, c)
               == Length(PieceOf(Schedule(r.chunks, r.duration, p.past.cuts[0], p.scheduledUntil), c)))
  {
    DurationIsPositive(r);
    assert Inv(r, START);
    RunKeepsInv(r, START, evs);
    var p := Run(r, START, evs).value;
    hide Run, Schedule, PieceOf;
    assert p.timers == {} || p.timers == {p.timer.value};
    if p.playing {
      HeardIsPlayed(r, p.past.cuts, c);
      PlayedIsOnePiece(r.chunks, r.duration, p.past.cuts, c);
    }
  }

  lemma DurationIsPositive(r: Recording)
    requires Playable(r)
    ensures r.duration > 0.0
  {
    assert ChunkOk(r.chunks, 0);
    assert End(r.chunks[0]) <= r.duration;
  }

  // ----- what has been scheduled sounds -----------------------------------------------------------------------

  /** Items of windows one after the other: no two are the same. */
  predicate Different(items: seq<Item>) {
    forall i, j :: 0 <= i < j < |items| ==> items[i] != items[j]
  }

  lemma {:induction false} ItemsWithin(chunks: seq<Chunk>, a: real, b: real, gain: real)
    ensures forall i :: 0 <= i < |Items(chunks, a, b, gain)| ==>
      var x := Items(chunks, a, b, gain)[i];
      && a <= x.timelineStart < b
      && exists k :: 0 <= k < |chunks| && (chunks[k].source, chunks[k].sequence) == (x.source, x.sequence)
  {
    if chunks != [] {
      var front, last := chunks[..|chunks| - 1], chunks[|chunks| - 1];
      ItemsWithin(front, a, b, gain);
      var items := Items(front, a, b, gain);
      var all := items + Listed(Clip(last, a, b, gain));
      forall i | 0 <= i < |all|
        ensures a <= all[i].timelineStart < b
        ensures exists k :: 0 <= k < |chunks| && (chunks[k].source, chunks[k].sequence) == (all[i].source, all[i].sequence)
      {
        if i < |items| {
          var k :| 0 <= k < |front| && (front[k].source, front[k].sequence) == (items[i].source, items[i].sequence);
          assert chunks[k] == front[k];
        } else {
          assert chunks[|chunks| - 1] == last;
        }
      }
    }
  }

  lemma {:induction false} ItemsDiffer(chunks: seq<Chunk>, a: real, b: real, gain: real)
    requires Named(chunks)
    ensures Different(Items(chunks, a, b, gain))
  {
    if chunks != [] {
      var front, last := chunks[..|chunks| - 1], chunks[|chunks| - 1];
      ItemsDiffer(front, a, b, gain);
      ItemsWithin(front, a, b, gain);
      var items := Items(front, a, b, gain);
      hide Items;
      forall i | 0 <= i < |items|
        ensures (items[i].source, items[i].sequence) != (last.source, last.sequence)
      {
        var k :| 0 <= k < |front| && (front[k].source, front[k].sequence) == (items[i].source, items[i].sequence);
        assert chunks[k] == front[k];
      }
    }
  }

  lemma {:induction false} WindowsDiffer(r: Recording, cuts: seq<real>)
    requires Playable(r) && Rising(cuts) && cuts[|cuts| - 1] <= r.duration
    ensures Different(Windows(r, cuts))
    ensures forall x :: x in Windows(r, cuts) ==> x.timelineStart < cuts[|cuts| - 1]
    decreases |cuts|
  {
    if |cuts| >= 2 {
      var n := |cuts| - 1;
      var a, b := cuts[n - 1], Min(cuts[n], r.duration);
      WindowsDiffer(r, cuts[..n]);
      ManifestIsNamed(r.chunks);
      ItemsDiffer(r.chunks, a, b, GainOf(r.chunks));
      ItemsWithin(r.chunks, a, b, GainOf(r.chunks));
      hide Items, Manifest, IsDuration, Named;
      var front, last := Windows(r, cuts[..n]), Items(r.chunks, a, b, GainOf(r.chunks));
      assert Windows(r, cuts) == front + last;
      assert forall x :: x in front ==> x.timelineStart < a;
      assert forall x :: x in last ==> a <= x.timelineStart < b;
    }
  }

  /** Exactly one source was started for the item, as it should from the time `at` on. */
  predicate StartedOnce(started: seq<Node>, item: Item, base: real, at: real) {
    exists j :: 0 <= j < |started| && Plays(started[j], item, base, at)
      && forall l :: 0 <= l < |started| && l != j ==> started[l].item != item
  }

  lemma {:induction false} StartedAreItems(started: seq<Node>, placed: seq<Item>, placedAt: seq<real>, base: real)
    requires |placed| == |placedAt| && StartedAsDue(started, placed, placedAt, base)
    ensures forall j :: 0 <= j < |started| ==> started[j].item in placed
    decreases |placed|
  {
    if placed != [] {
      var n := |placed| - 1;
      hide Plays, Due;
      StartedAreItems(if Due(placed[n], base, placedAt[n]) then started[..|started| - 1] else started,
                      placed[..n], placedAt[..n], base);
      assert Due(placed[n], base, placedAt[n]) ==> started[|started| - 1].item == placed[n] by {
        PlaysIts(started, placed[n], base, placedAt[n]);
      }
    }
  }

  lemma PlaysIts(started: seq<Node>, item: Item, base: real, at: real)
    ensures forall j :: 0 <= j < |started| && Plays(started[j], item, base, at) ==> started[j].item == item
  {
  }

  lemma StillOnce(started: seq<Node>, front: seq<Node>, last: Item, item: Item, base: real, at: real)
    requires StartedOnce(front, item, base, at) && item != last
    requires started == front || (started != [] && started[..|started| - 1] == front && started[|started| - 1].item == last)
    ensures StartedOnce(started, item, base, at)
  {
    hide Plays;
    var j :| 0 <= j < |front| && Plays(front[j], item, base, at)
      && forall l :: 0 <= l < |front| && l != j ==> front[l].item != item;
    assert started[j] == front[j];
    assert forall l :: 0 <= l < |front| ==> started[l] == front[l];
  }

  lemma {:induction false} DueIsStarted(started: seq<Node>, placed: seq<Item>, placedAt: seq<real>, base: real, i: nat)
    requires |placed| == |placedAt| && StartedAsDue(started, placed, placedAt, base) && Different(placed)
    requires i < |placed|
    ensures if Due(placed[i], base, placedAt[i]) then StartedOnce(started, placed[i], base, placedAt[i])
            else forall j :: 0 <= j < |started| ==> started[j].item != placed[i]
    decreases |placed|
  {
    var n := |placed| - 1;
    hide Plays, Due;
    var due := Due(placed[n], base, placedAt[n]);
    var front := if due then started[..|started| - 1] else started;
    PlaysIts(started, placed[n], base, placedAt[n]);
    StartedAreItems(front, placed[..n], placedAt[..n], base);
    hide StartedAsDue;
    if i < n {
      DueIsStarted(front, placed[..n], placedAt[..n], base, i);
      if Due(placed[i], base, placedAt[i]) {
        StillOnce(started, front, placed[n], placed[i], base, placedAt[i]);
      }
    } else if due {
      assert forall l :: 0 <= l < |front| ==> front[l] == started[l];
    }
  }

  /**
   Every run, while the player plays: what has been scheduled is the items of the windows from where the play began
   to `scheduledUntil`; for each item that was not over on the clock when its window was scheduled, exactly one source
   has been started, at its time from its start, or at once from where the clock had got to, and for the others none;
   and each of these sources is live until it ends by itself.
   */
  lemma ScheduledSounds(r: Recording, evs: seq<Event>, i: nat)
    requires Playable(r) && Run(r, START, evs).Some?
    requires var p := Run(r, START, evs).value; p.playing && i < |p.past.placed|
    ensures var p := Run(r, START, evs).value;
      && p.past.placed == Windows(r, p.past.cuts) && |p.past.placedAt| == |p.past.placed|
      && p.past.cuts != [] && p.past.cuts[|p.past.cuts| - 1] == p.scheduledUntil
      && (if p.past.placedAt[i] < p.base + p.past.placed[i].timelineStart + p.past.placed[i].duration
          then StartedOnce(p.past.started, p.past.placed[i], p.base, p.past.placedAt[i])
          else forall j :: 0 <= j < |p.past.started| ==> p.past.started[j].item != p.past.placed[i])
      && (forall n :: n in p.past.started ==> n in p.nodes || n in p.past.ended)
  {
    DurationIsPositive(r);
    assert Inv(r, START);
    RunKeepsInv(r, START, evs);
    var p := Run(r, START, evs).value;
    hide Run, Playable, Settled, TasksOk, NodesOk;
    WindowsDiffer(r, p.past.cuts);
    DueIsStarted(p.past.started, p.past.placed, p.past.placedAt, p.base, i);
  }

  lemma WindowEndsNone(r: Recording, p: Player, targetEnd: real, token: nat, anchor: bool, task: nat)
    ensures WindowBegun(r, p, targetEnd, token, anchor, task).past.ended == p.past.ended
  {
    hide Schedule, AllPlaced, Now;
  }

  lemma StopEndsNone(r: Recording, p: Player, keepPosition: bool)
    ensures Stop(r, p, keepPosition).past == p.past
  {
  }

  lemma FailEndsNone(r: Recording, p: Player)
    ensures Fail(r, p).past == p.past
  {
  }

  lemma ReadEndsNone(r: Recording, p: Player, task: nat, load: Load, outcome: Outcome)
    ensures ItemRead(r, p, task, load, outcome).past.ended == p.past.ended
  {
    hide AllPlaced, Now, Fail, Repeated, Elements;
    FailEndsNone(r, p);
    FailEndsNone(r, p.(base := Now(p) - p.position));
  }

  lemma TaskEndsNone(r: Recording, p: Player, task: nat, outcome: Outcome)
    requires task in p.tasks
    ensures TaskProceeds(r, p, task, outcome).past.ended <= p.past.ended
  {
    hide Now, WindowBegun, Fail, ItemRead;
    match p.tasks[task]
    case Resuming(token, context) =>
      var q := p.(playing := true, base := Now(p) - p.position, scheduledUntil := p.position,
                  past := History([p.position], [], [], [], {}));
      WindowEndsNone(r, q, p.position + r.lookahead, token, true, task);
      FailEndsNone(r, p);
    case Loading(load) => ReadEndsNone(r, p, task, load, outcome);
    case Starting(_) =>
  }

  /** Sources end by themselves only: no other step of a run adds to those that have. */
  lemma EndedByThemselves(r: Recording, p: Player, ev: Event, n: Node)
    requires Enabled(p, ev) && n in Apply(r, p, ev).past.ended && n !in p.past.ended
    ensures ev == NodeEnds(n)
  {
    hide WindowBegun, Stop, Position, TaskProceeds;
    match ev
    case Proceeds(task, outcome) => TaskEndsNone(r, p, task, outcome);
    case Tick(_, fresh') =>
      var q := p.(position := Position(r, p));
      WindowEndsNone(r, q, q.position + r.lookahead, q.generation, false, fresh');
      StopEndsNone(r, q.(position := r.duration), false);
    case Pause => StopEndsNone(r, p, true);
    case Seek(_, _, _) => StopEndsNone(r, p, true);
    case Dispose => StopEndsNone(r, p, true);
    case _ =>
  }

  /** A tick of a player that plays on has scheduled half the lookahead, or is loading. */
  lemma TickKeepsAhead(r: Recording, p: Player, fresh': nat)
    requires Playable(r) && Inv(r, p) && p.playing
    ensures var q := Ticked(r, p, fresh');
      && (q.playing ==> q.loading || q.scheduledUntil >= Min(r.duration, Position(r, p) + r.lookahead / 2.0))
      && (!q.playing <==> Position(r, p) >= r.duration)
  {
    hide Schedule, AllPlaced, Manifest, IsDuration, Windows, StartedAsDue;
  }

  // ----- nothing hangs ------------------------------------------------------------------------------------------

  predicate WillTick(p: Player, task: nat) {
    Current(p, task) && (p.tasks[task].Starting? || (p.tasks[task].Loading? && p.tasks[task].load.anchor))
  }

  predicate WillLoad(p: Player, task: nat) {
    Current(p, task) && p.tasks[task].Loading?
  }

  predicate WillResume(p: Player, task: nat) {
    Current(p, task) && p.tasks[task].Resuming?
  }

  /**
   A player that plays ticks, or is about to; one that is loading has a load under way; and one that has a context
   and does not play yet is being resumed.
   */
  ghost predicate Alive(p: Player) {
    && (p.playing ==> p.timer.Some? || exists task :: WillTick(p, task))
    && (p.loading ==> exists task :: WillLoad(p, task))
    && (p.context.Some? && !p.playing ==> exists task :: WillResume(p, task))
  }

  lemma WindowStaysAlive(r: Recording, p: Player, targetEnd: real, token: nat, anchor: bool, task: nat)
    requires p.playing && p.context.Some? && token == p.generation
    requires if anchor then !p.loading else Alive(p) && p.timer.Some? && !Current(p, task)
    ensures Alive(WindowBegun(r, p, targetEnd, token, anchor, task))
  {
    hide Schedule, AllPlaced, Now, Scheduled, Elements;
    var q := WindowBegun(r, p, targetEnd, token, anchor, task);
    if task in q.tasks {
      assert anchor ==> WillTick(q, task);
      assert q.loading && !p.loading ==> WillLoad(q, task);
    }
    if p.loading {
      var other :| WillLoad(p, other);
      assert WillLoad(q, other);
    }
  }

  lemma ReadStaysAlive(r: Recording, p: Player, task: nat, outcome: Outcome)
    requires Alive(p) && Current(p, task) && p.tasks[task].Loading? && TaskOk(r, p, p.tasks[task])
    requires forall other :: Current(p, other) ==> other == task
    ensures Alive(TaskProceeds(r, p, task, outcome))
  {
    hide Schedule, AllPlaced, Now, Scheduled, Elements, Position;
    var q := TaskProceeds(r, p, task, outcome);
    if task in q.tasks {
      assert p.tasks[task].load.anchor && q.playing ==> WillTick(q, task);
      assert q.loading ==> WillLoad(q, task);
    }
  }

  lemma ResumeStaysAlive(r: Recording, p: Player, task: nat, outcome: Outcome)
    requires Inv(r, p) && Current(p, task) && p.tasks[task].Resuming?
    ensures Alive(TaskProceeds(r, p, task, outcome))
  {
    assert TaskOk(r, p, p.tasks[task]);
    hide Schedule, Now, Position, WindowBegun, Contiguous, Sounding, NodesOk, TasksOk;
    var q := p.(playing := true, base := Now(p) - p.position, scheduledUntil := p.position,
                past := History([p.position], [], [], [], {}));
    if outcome.Fine? && !p.disposed {
      WindowStaysAlive(r, q, p.position + r.lookahead, p.generation, true, task);
    }
  }

  lemma StaleStaysAlive(r: Recording, p: Player, task: nat, outcome: Outcome)
    requires Alive(p) && task in p.tasks && !Current(p, task)
    ensures Alive(TaskProceeds(r, p, task, outcome))
  {
    StaleTaskChangesNothing(r, p, task, outcome);
    hide TaskProceeds;
    var q := TaskProceeds(r, p, task, outcome);
    OthersKept(r, p, task, outcome);
    assert forall other :: WillTick(p, other) ==> WillTick(q, other);
    assert forall other :: WillLoad(p, other) ==> WillLoad(q, other);
    assert forall other :: WillResume(p, other) ==> WillResume(q, other);
  }

  lemma OthersKept(r: Recording, p: Player, task: nat, outcome: Outcome)
    requires task in p.tasks && !Current(p, task)
    ensures forall other :: other in p.tasks && other != task ==>
      other in TaskProceeds(r, p, task, outcome).tasks
      && TaskProceeds(r, p, task, outcome).tasks[other] == p.tasks[other]
  {
    hide Fail, Finished, WindowBegun, ItemRead;
    if p.tasks[task].Loading? {
      StaleLoad(r, p, task, p.tasks[task].load, outcome);
    }
  }

  lemma TaskStaysAlive(r: Recording, p: Player, task: nat, outcome: Outcome)
    requires Inv(r, p) && Alive(p) && task in p.tasks
    ensures Alive(TaskProceeds(r, p, task, outcome))
  {
    assert Current(p, task) ==> TaskOk(r, p, p.tasks[task]);
    assert forall other :: Current(p, task) && Current(p, other) ==> other == task;
    hide Inv, TaskOk, Resumed, ItemRead;
    if !Current(p, task) {
      StaleStaysAlive(r, p, task, outcome);
    } else {
      match p.tasks[task]
      case Resuming(_, _) => ResumeStaysAlive(r, p, task, outcome);
      case Loading(_) => ReadStaysAlive(r, p, task, outcome);
      case Starting(_) => assert forall other :: !WillLoad(p, other);
    }
  }

  lemma TickStaysAlive(r: Recording, p: Player, timer: nat, fresh': nat)
    requires Inv(r, p) && Alive(p) && Enabled(p, Tick(timer, fresh'))
    ensures Alive(Ticked(r, p, fresh'))
  {
    hide WindowBegun, Position, Contiguous, Sounding, NodesOk;
    if p.playing && p.context.Some? {
      var q := p.(position := Position(r, p));
      assert forall other :: WillTick(p, other) ==> WillTick(q, other);
      assert forall other :: WillLoad(p, other) ==> WillLoad(q, other);
      WindowStaysAlive(r, q, q.position + r.lookahead, q.generation, false, fresh');
    }
  }

  lemma SameAlive(p: Player, q: Player)
    requires Alive(p) && (q.loading ==> q.playing)
    requires q.playing || q.context.Some? ==>
      && q.playing == p.playing && q.context == p.context && q.timer == p.timer && q.loading == p.loading
      && q.generation == p.generation && q.tasks == p.tasks
    ensures Alive(q)
  {
    assert q.tasks == p.tasks && q.generation == p.generation ==> forall task :: Current(p, task) <==> Current(q, task);
    assert p.playing && q.playing && p.timer.None? ==> exists task :: WillTick(p, task) && WillTick(q, task);
    assert p.loading && q.loading ==> exists task :: WillLoad(p, task) && WillLoad(q, task);
    assert p.context.Some? && q.context.Some? && !q.playing ==> exists task :: WillResume(p, task) && WillResume(q, task);
  }

  lemma PlayIsAlive(r: Recording, p: Player, fresh': nat, clock: real)
    requires Alive(p) && (!p.playing ==> !p.loading)
    ensures Alive(PlayBegun(r, p, fresh', clock))
  {
    var q := PlayBegun(r, p, fresh', clock);
    assert q == p || WillResume(q, fresh');
  }

  lemma SeekStaysAlive(r: Recording, p: Player, seconds: real, fresh': nat, clock: real)
    requires Inv(r, p) && Alive(p)
    ensures Alive(Sought(r, p, seconds, fresh', clock))
  {
    IsSettled(r, p);
    hide Inv, Position, PlayBegun, Settled, Contiguous;
    if !p.disposed {
      var stopped := if p.playing || p.context.Some? then Stop(r, p, true) else p;
      var q := stopped.(position := Max(0.0, Min(r.duration, seconds)), failed := false);
      if !p.playing {
        Idle(r, p);
      }
      assert !q.playing && !q.loading && q.context.None?;
      PlayIsAlive(r, q, fresh', clock);
    }
  }

  lemma Idle(r: Recording, p: Player)
    requires Settled(r, p) && !p.playing
    ensures !p.loading
  {
  }

  lemma ApplyStaysAlive(r: Recording, p: Player, ev: Event)
    requires Playable(r) && Inv(r, p) && Alive(p) && Enabled(p, ev)
    ensures Alive(Apply(r, p, ev))
  {
    match ev {
      case Proceeds(task, outcome) => TaskStaysAlive(r, p, task, outcome);
      case Tick(timer, fresh') => TickStaysAlive(r, p, timer, fresh');
      case Play(fresh', clock) =>
        assert !p.playing ==> !p.loading by { IsSettled(r, p); }
        PlayIsAlive(r, p, fresh', clock);
      case Seek(seconds, fresh', clock) => SeekStaysAlive(r, p, seconds, fresh', clock);
      case _ =>
        hide TaskProceeds, Ticked, Position, Contiguous, Sounding, NodesOk, TasksOk, Playable;
        SameAlive(p, Apply(r, p, ev));
    }
  }

  /**
   In every run a player that plays ticks or is about to, one that is loading has a load under way, and one with a
   context that does not play yet is being resumed.
   */
  lemma {:induction false} PlayersStayAlive(r: Recording, p: Player, evs: seq<Event>)
    requires Playable(r) && Inv(r, p) && Alive(p) && Run(r, p, evs).Some?
    ensures Alive(Run(r, p, evs).value)
    decreases |evs|
  {
    hide Inv, Apply, Enabled, Playable, Alive;
    if evs != [] {
      ApplyInv(r, p, evs[0]);
      ApplyStaysAlive(r, p, evs[0]);
      PlayersStayAlive(r, Apply(r, p, evs[0]), evs[1..]);
    }
  }

  /** The step makes the player fail. */
  predicate Fails(p: Player, ev: Event) {
    && ev.Proceeds? && Current(p, ev.task)
    && match p.tasks[ev.task]
       case Resuming(_, _) => !ev.outcome.Fine?
       case Loading(load) => ev.outcome.Rejected? || (ev.outcome.Misfit? && load.next + 1 == |load.items|)
       case Starting(_) => false
  }

  /** A play or a seek that does something. */
  predicate Heeded(p: Player, ev: Event) {
    !p.disposed && (ev.Seek? || (ev.Play? && !p.playing))
  }

  /**
   An error is shown from the failure of the current play, which stops it, until the next play or seek that is
   heeded; what an earlier play fails of is never shown.
   */
  lemma ErrorIsShown(r: Recording, p: Player, ev: Event)
    requires Playable(r) && Inv(r, p) && Enabled(p, ev)
    ensures var q := Apply(r, p, ev);
      && (q.failed <==> Fails(p, ev) || (p.failed && !Heeded(p, ev)))
      && (Fails(p, ev) ==> !q.playing && q.context.None? && q.nodes == {})
  {
    DurationIsPositive(r);
    hide Playable, Inv, Position, TaskProceeds, Fails, Ticked;
    match ev {
      case Proceeds(task, outcome) => TaskError(r, p, task, outcome);
      case Tick(_, fresh') => TickShowsNone(r, p, fresh');
      case _ =>
    }
    assert !ev.Proceeds? ==> !Fails(p, ev) by { OnlyTasksFail(p, ev); }
  }

  lemma OnlyTasksFail(p: Player, ev: Event)
    ensures Fails(p, ev) ==> ev.Proceeds?
  {
  }

  lemma TickShowsNone(r: Recording, p: Player, fresh': nat)
    ensures Ticked(r, p, fresh').failed == p.failed
  {
    hide WindowBegun, Position;
    var q := p.(position := Position(r, p));
    WindowShowsNone(r, q, q.position + r.lookahead, q.generation, false, fresh');
  }

  lemma WindowShowsNone(r: Recording, p: Player, targetEnd: real, token: nat, anchor: bool, task: nat)
    ensures WindowBegun(r, p, targetEnd, token, anchor, task).failed == p.failed
  {
    hide Schedule, AllPlaced, Now, Scheduled;
  }

  lemma TaskError(r: Recording, p: Player, task: nat, outcome: Outcome)
    requires Inv(r, p) && task in p.tasks
    ensures var q, fails := TaskProceeds(r, p, task, outcome), Fails(p, Proceeds(task, outcome));
      && (q.failed <==> fails || p.failed)
      && (fails ==> !q.playing && q.context.None? && q.nodes == {})
  {
    if Current(p, task) {
      assert TaskOk(r, p, p.tasks[task]);
      assert p.context.Some? ==> !p.disposed;
      hide Inv, Finished, WindowBegun, Position, TaskOk;
      if p.tasks[task].Resuming? && outcome.Fine? {
        var q := p.(playing := true, base := Now(p) - p.position, scheduledUntil := p.position,
                    past := History([p.position], [], [], [], {}));
        WindowShowsNone(r, q, p.position + r.lookahead, p.generation, true, task);
      }
    } else {
      hide Inv, TaskProceeds;
      StaleTaskChangesNothing(r, p, task, outcome);
    }
  }

  lemma StartIsAlive(r: Recording)
    requires Playable(r)
    ensures Inv(r, START) && Alive(START)
  {
    DurationIsPositive(r);
  }

  // ----- the position ----------------------------------------------------------------------------------------

  function Clamped(r: Recording, seconds: real): real {
    if seconds < 0.0 then 0.0 else if seconds > r.duration then r.duration else seconds
  }

  lemma StopKeepsPosition(r: Recording, p: Player)
    ensures Position(r, Stop(r, p, true)) == Position(r, p)
    ensures !Stop(r, p, true).playing && Stop(r, p, true).context.None?
  {
  }

  /** Fixing the origin of the clock puts the position back to where it was left. */
  lemma Anchored(r: Recording, p: Player, base: real)
    requires 0.0 <= p.position <= r.duration && base == Now(p) - p.position
    ensures Position(r, p.(base := base)) == p.position
  {
  }

  /** The position depends on nothing else. */
  lemma SamePosition(r: Recording, p: Player, q: Player)
    requires q.position == p.position && q.context == p.context && q.playing == p.playing && q.base == p.base
    requires q.clocks == p.clocks
    ensures Position(r, q) == Position(r, p)
  {
  }

  lemma WindowKeepsPosition(r: Recording, p: Player, targetEnd: real, token: nat, anchor: bool, task: nat)
    requires 0.0 <= p.position <= r.duration && (anchor ==> p.base == Now(p) - p.position)
    ensures Position(r, WindowBegun(r, p, targetEnd, token, anchor, task)) == Position(r, p)
  {
    hide Schedule, AllPlaced, Position, Now;
    SamePosition(r, p, WindowBegun(r, p, targetEnd, token, anchor, task));
  }

  /** The last item of a first window has been read, for the current play: the clock's origin is fixed anew. */
  predicate Reanchors(p: Player, task: nat, outcome: Outcome) {
    Current(p, task) && p.tasks[task].Loading? && !outcome.Rejected?
    && p.tasks[task].load.anchor && p.tasks[task].load.next + 1 == |p.tasks[task].load.items|
  }

  lemma ReadKeepsPosition(r: Recording, p: Player, task: nat, outcome: Outcome)
    requires Settled(r, p) && task in p.tasks && p.tasks[task].Loading? && (Current(p, task) ==> TaskOk(r, p, p.tasks[task]))
    ensures Position(r, TaskProceeds(r, p, task, outcome))
      == if Reanchors(p, task, outcome) then p.position else Position(r, p)
  {
    hide Schedule, AllPlaced, Position, Now, Stop;
    var load := p.tasks[task].load;
    var q := TaskProceeds(r, p, task, outcome);
    var based := p.(base := Now(p) - p.position);
    Anchored(r, p, based.base);
    StopKeepsPosition(r, p.(failed := true));
    StopKeepsPosition(r, based.(failed := true));
    SamePosition(r, p, p.(failed := true));
    SamePosition(r, based, based.(failed := true));
    if outcome.Rejected? {
      SamePosition(r, if load.token == p.generation then Fail(r, p) else p, q);
    } else if !Current(p, task) || load.next + 1 < |load.items| {
      SamePosition(r, p, q);
    } else if outcome.Misfit? {
      SamePosition(r, Fail(r, if load.anchor then based else p), q);
    } else {
      SamePosition(r, if load.anchor then based else p, q);
    }
  }

  lemma ResumeKeepsPosition(r: Recording, p: Player, task: nat, outcome: Outcome)
    requires Settled(r, p) && task in p.tasks && p.tasks[task].Resuming? && (Current(p, task) ==> TaskOk(r, p, p.tasks[task]))
    ensures Position(r, TaskProceeds(r, p, task, outcome)) == Position(r, p)
  {
    hide Position, Now, Stop, WindowBegun, Settled;
    var c := p.tasks[task];
    var q := TaskProceeds(r, p, task, outcome);
    StopKeepsPosition(r, p.(failed := true));
    SamePosition(r, p, p.(failed := true));
    if !outcome.Fine? {
      SamePosition(r, if c.token == p.generation then Fail(r, p) else p, q);
    } else if p.disposed || !Current(p, task) || p.context != Some(c.context) {
      SamePosition(r, p, q);
    } else {
      var set' := p.(playing := true, base := Now(p) - p.position, scheduledUntil := p.position,
                     past := History([p.position], [], [], [], {}));
      assert 0.0 <= p.position <= r.duration by { Within(r, p); }
      assert Now(set') == Now(p) by { SameClock(p, set'); }
      WindowKeepsPosition(r, set', p.position + r.lookahead, c.token, true, task);
      Anchored(r, set', set'.base);
      SamePosition(r, set', set'.(base := set'.base));
      NotPlaying(r, p);
    }
  }

  lemma Within(r: Recording, p: Player)
    requires Settled(r, p)
    ensures 0.0 <= p.position <= r.duration
  {
  }

  lemma NotPlaying(r: Recording, p: Player)
    requires !p.playing
    ensures Position(r, p) == p.position
  {
  }

  lemma PositionStays(r: Recording, p: Player, task: nat, outcome: Outcome)
    requires Inv(r, p) && task in p.tasks
    ensures Position(r, TaskProceeds(r, p, task, outcome))
      == if Reanchors(p, task, outcome) then p.position else Position(r, p)
  {
    assert Current(p, task) ==> TaskOk(r, p, p.tasks[task]);
    hide Position, Resumed, ItemRead, Inv, TaskOk, Settled, TasksOk;
    assert Settled(r, p) by { IsSettled(r, p); }
    match p.tasks[task]
    case Resuming(_, _) => ResumeKeepsPosition(r, p, task, outcome);
    case Loading(_) => ReadKeepsPosition(r, p, task, outcome);
    case Starting(_) => SamePosition(r, p, TaskProceeds(r, p, task, outcome));
  }

  lemma IsSettled(r: Recording, p: Player)
    requires Inv(r, p)
    ensures Settled(r, p)
  {
  }

  lemma TickKeepsPosition(r: Recording, p: Player, fresh': nat)
    requires Settled(r, p)
    ensures Position(r, Ticked(r, p, fresh')) == Position(r, p)
  {
    hide WindowBegun, Schedule;
    if p.playing && p.context.Some? {
      var q := p.(position := Position(r, p));
      assert Position(r, q) == Position(r, p);
      WindowKeepsPosition(r, q, q.position + r.lookahead, q.generation, false, fresh');
    }
  }

  /**
   What the listener sees of the position: a pause, a failure, a tick and the end keep it; a seek ends at its target
   within the recording, and plays on unless that is the end; playing begins where it was left, at the start after
   the end, and begins there again when a slow first window has been read; and from then on it goes with the clock.
   */
  lemma PositionMoves(r: Recording, p: Player, ev: Event)
    requires Playable(r) && Inv(r, p) && Enabled(p, ev)
    ensures var q := Apply(r, p, ev);
      match ev
      case Play(_, _) =>
        Position(r, q) == if !p.disposed && !p.playing && p.position >= r.duration then 0.0 else Position(r, p)
      case Pause => Position(r, q) == Position(r, p) && !q.playing && q.context.None?
      case Dispose => Position(r, q) == Position(r, p) && q.disposed && (p.disposed || !q.playing)
      case Seek(seconds, _, _) =>
        if p.disposed then q == p
        else
          Position(r, q) == Clamped(r, seconds) && !q.playing
          && (q.context.Some? <==> p.playing && Clamped(r, seconds) < r.duration)
      case Proceeds(task, outcome) =>
        Position(r, q) == if Reanchors(p, task, outcome) then p.position else Position(r, p)
      case ClockAdvances(context, by') =>
        if p.playing && p.context == Some(context)
        then Position(r, q) == Clamped(r, p.clocks[context] + by' - p.base)
        else Position(r, q) == Position(r, p)
      case _ => Position(r, q) == Position(r, p)
  {
    DurationIsPositive(r);
    IsSettled(r, p);
    hide Playable, Inv, TaskProceeds, Ticked, Stop;
    match ev
    case Proceeds(task, outcome) => PositionStays(r, p, task, outcome);
    case Tick(_, fresh') => TickKeepsPosition(r, p, fresh');
    case Pause => StopKeepsPosition(r, p);
    case Dispose => StopKeepsPosition(r, p);
    case Seek(seconds, fresh', clock) => StopKeepsPosition(r, p);
    case _ =>
  }

  // ----- the object --------------------------------------------------------------------------------------------

  /** The closure `createPreviewPlayer` returns, with its variables as fields; every call is a step of the machine. */
  class PlayerObject {
    const recording: Recording
    var position: real
    var context: Option<nat>
    var base: real
    var playing: bool
    var disposed: bool
    var failed: bool
    var scheduledUntil: real
    var generation: nat
    var loading: bool
    var timer: Option<nat>
    var nodes: set<Node>
    var timers: set<nat>
    var clocks: map<nat, real>
    var tasks: map<nat, Task>
    ghost var past: History

    ghost function View(): Player
      reads this
    {
      Player(position, context, base, playing, disposed, failed, scheduledUntil, generation, loading, timer, nodes,
             timers, clocks, tasks, past)
    }

    constructor (recording: Recording)
      ensures this.recording == recording && View() == START
    {
      this.recording := recording;
      position, context, base, playing, disposed, failed := 0.0, None, 0.0, false, false, false;
      scheduledUntil, generation, loading, timer := 0.0, 0, false, None;
      nodes, timers, clocks, tasks := {}, {}, map[], map[];
      past := History([], [], [], [], {});
    }

    method CurrentTime() returns (now: real)
      ensures now == Now(View())
    {
      if context.Some? && context.value in clocks {
        return clocks[context.value];
      }
      return 0.0;
    }

    method GetPosition() returns (at: real)
      ensures at == Position(recording, View())
    {
      if context.Some? && playing {
        var now := CurrentTime();
        return Min(recording.duration, Max(0.0, now - base));
      }
      return position;
    }

    method ClearTimer()
      modifies this`timer, this`timers
      ensures View() == old(View()).(timer := None, timers := old(if timer.Some? then timers - {timer.value} else timers))
    {
      if timer.Some? {
        timers := timers - {timer.value};
      }
      timer := None;
    }

    method Reset()
      modifies this`playing, this`loading, this`scheduledUntil, this`nodes, this`context
      ensures View() == old(View()).(
        playing := false, loading := false, scheduledUntil := old(position), nodes := {}, context := None)
    {
      playing, loading, scheduledUntil, nodes, context := false, false, position, {}, None;
    }

    method Halt(keepPosition: bool)
      modifies this
      ensures View() == Stop(recording, old(View()), keepPosition)
    {
      hide Position;
      var at := GetPosition();
      generation := generation + 1;
      if keepPosition {
        position := at;
      }
      ClearTimer();
      Reset();
    }

    method GiveUp()
      modifies this
      ensures View() == Fail(recording, old(View()))
    {
      failed := true;
      Halt(true);
    }

    /** Start what has been prepared. */
    method StartNodes(items: seq<Item>) returns (ghost more: seq<Node>)
      modifies this`nodes
      ensures more == AllPlaced(old(View()), items)
      ensures nodes == old(nodes) + Elements(more)
    {
      var now := CurrentTime();
      ghost var was := View();
      more := [];
      for i := 0 to |items|
        invariant more == AllPlaced(was, items[..i])
        invariant nodes == old(nodes) + Elements(more)
      {
        var item := items[i];
        assert items[..i + 1][..i] == items[..i];
        var intendedStart := base + item.timelineStart;
        var lateBy := Max(0.0, now - intendedStart);
        if lateBy < item.duration && context.Some? {
          var node := Node(context.value, item, Max(now, intendedStart), lateBy, item.duration - lateBy);
          nodes := nodes + {node};
          more := more + [node];
        }
      }
      assert items[..|items|] == items;
    }

    method FinishWindow(load: Load)
      modifies this
      ensures View() == Finished(old(View()), load)
    {
      hide AllPlaced, Now, Elements, Repeated;
      ghost var at := Now(View());
      if load.anchor {
        var now := CurrentTime();
        base := now - position;
      }
      ghost var more := StartNodes(load.items);
      scheduledUntil, loading, past := load.end, false, Scheduled(past, load, more, at);
    }

    /** The `onended` of a source. */
    method OnEnded(node: Node)
      requires node in nodes
      modifies this`nodes, this`past
      ensures View() == NodeEnded(old(View()), node)
    {
      nodes := nodes - {node};
      past := past.(ended := past.ended + {node});
    }

    method GoOn(task: nat, load: Load)
      modifies this`tasks
      ensures View() == Continued(old(View()), task, load)
    {
      tasks := if load.anchor then tasks[task := Starting(load.token)] else tasks - {task};
    }

    method BeginWindow(targetEnd: real, token: nat, anchor: bool, task: nat)
      modifies this
      ensures View() == WindowBegun(recording, old(View()), targetEnd, token, anchor, task)
    {
      var end := Min(recording.duration, targetEnd);
      var items := Schedule(recording.chunks, recording.duration, scheduledUntil, end);
      var load := Load(token, context.GetOr(0), scheduledUntil, end, items, 0, anchor);
      if context.None? || !playing || loading || token != generation || end <= scheduledUntil {
        GoOn(task, load);
      } else if items == [] {
        FinishWindow(load);
        GoOn(task, load);
      } else {
        loading := true;
        tasks := tasks[task := Loading(load)];
      }
    }

    method ReadItem(task: nat, load: Load, outcome: Outcome)
      modifies this
      ensures View() == ItemRead(recording, old(View()), task, load, outcome)
    {
      hide Finished, Fail, Now;
      if outcome.Rejected? {
        if load.token == generation {
          GiveUp();
        }
        GoOn(task, load);
      } else if load.token != generation || !playing || context != Some(load.context) {
        if load.token == generation {
          loading := false;
        }
        GoOn(task, load);
      } else if load.next + 1 < |load.items| {
        tasks := tasks[task := Loading(load.(next := load.next + 1))];
      } else if outcome.Misfit? {
        if load.anchor {
          var now := CurrentTime();
          base := now - position;
        }
        GiveUp();
        GoOn(task, load);
      } else {
        FinishWindow(load);
        GoOn(task, load);
      }
    }

    method BeginPlay(fresh': nat, clock: real)
      modifies this
      ensures View() == PlayBegun(recording, old(View()), fresh', clock)
    {
      if disposed || playing || recording.duration <= 0.0 {
        return;
      }
      if position >= recording.duration {
        position := 0.0;
      }
      hide Max, Min;
      failed, generation, context := false, generation + 1, Some(fresh');
      clocks, tasks := clocks[fresh' := clock], tasks[fresh' := Resuming(generation, fresh')];
    }

    method SetOff(now: real)
      modifies this`playing, this`base, this`scheduledUntil, this`past
      ensures View() == old(View()).(
        playing := true, base := now - position, scheduledUntil := position, past := History([position], [], [], [], {}))
    {
      playing, base, scheduledUntil := true, now - position, position;
      past := History([position], [], [], [], {});
    }

    method Resume(task: nat, token: nat, ctx: nat, outcome: Outcome)
      modifies this
      ensures View() == Resumed(recording, old(View()), task, token, ctx, outcome)
    {
      hide WindowBegun, Fail, Now;
      if !outcome.Fine? {
        if token == generation {
          GiveUp();
        }
        tasks := tasks - {task};
      } else if disposed || token != generation || context != Some(ctx) {
        tasks := tasks - {task};
      } else {
        var now := CurrentTime();
        SetOff(now);
        BeginWindow(position + recording.lookahead, token, true, task);
      }
    }

    method StartTimer(task: nat, token: nat)
      modifies this
      ensures View() == Started(old(View()), task, token)
    {
      if !disposed && token == generation && playing {
        timer := Some(task);
        timers := timers + {task};
      }
      tasks := tasks - {task};
    }

    method OnTick(fresh': nat)
      modifies this
      ensures View() == Ticked(recording, old(View()), fresh')
    {
      if !playing || context.None? {
        return;
      }
      position := GetPosition();
      if position >= recording.duration {
        position := recording.duration;
        Halt(false);
        return;
      }
      if scheduledUntil < Min(recording.duration, position + recording.lookahead / 2.0) {
        BeginWindow(position + recording.lookahead, generation, false, fresh');
      }
    }

    method OnPause()
      modifies this
      ensures View() == (if old(playing || context.Some?) then Stop(recording, old(View()), true) else old(View()))
    {
      if playing || context.Some? {
        Halt(true);
      }
    }

    method OnSeek(seconds: real, fresh': nat, clock: real)
      modifies this
      ensures View() == Sought(recording, old(View()), seconds, fresh', clock)
    {
      if disposed {
        return;
      }
      var wasPlaying := playing;
      if wasPlaying || context.Some? {
        Halt(true);
      }
      position := Max(0.0, Min(recording.duration, seconds));
      failed := false;
      if wasPlaying && position < recording.duration {
        BeginPlay(fresh', clock);
      }
    }

    method OnDispose()
      modifies this
      ensures View() == (if old(disposed) then old(View()) else Stop(recording, old(View()), true).(disposed := true))
    {
      if disposed {
        return;
      }
      Halt(true);
      disposed := true;
    }
  }
}

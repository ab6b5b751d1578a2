/**
 Registration by email (`email-registration.ts`) with the revision rule of its settings
 (`tenant-registration-settings.ts`), for one tenant. A row per attempt guards the user the attempt makes: no
 session until registration has been completed. Statements of handlers, of the cleanup, of sign-ins and of
 settings requests interleave, and any of them may stop for ever.
 */
module EmailRegistration {
  import opened Wrappers

  // ----- settings -------------------------------------------------------------------------------

  /** A row of `tenant_registration_settings`; no row is a disabled registration without a revision. */
  datatype Settings = Settings(allow: bool, revision: nat)

  datatype SettingsRequest = Put(allow: bool) | Delete

  /** The revision rule: kept while the switch stays where it is, fresh otherwise. */
  function Written(read: Option<Settings>, request: SettingsRequest, fresh': nat): Option<Settings> {
    match request
    case Delete => None
    case Put(allow) =>
      Some(Settings(allow, if read.Some? && read.value.allow == allow then read.value.revision else fresh'))
  }

  /** `policy`: registration is enabled, under this revision. */
  predicate Allows(settings: Option<Settings>, revision: nat) {
    settings == Some(Settings(true, revision))
  }

  // ----- attempts -----------------------------------------------------------------------------------

  datatype Status = Creating | Sent | Failed | Existing | Completed | Expired | VerifiedPending

  /** A row of `pending_password_registration`. Its user has the name of the attempt. */
  datatype Row = Row(revision: nat, fingerprint: nat, status: Status, expiresAt: nat)

  datatype User = User(verified: bool)

  datatype Phase =
    | CheckPolicy | ReadRow | InsertRow | ClaimRow
    | FindUser | MarkExisting | CreateUser | SendMail | MarkSent
    | RemoveOwned | MarkFailed
    | Ended

  /** A start request: `fingerprint` stands for all its input; `expiresAt` is that of the row it owns. */
  datatype Handler = Handler(id: nat, revision: nat, fingerprint: nat, phase: Phase, expiresAt: nat)

  datatype CleanPhase = RemoveUser | ReadUser | Mark(verified: bool) | DeleteRow | Cleaned
  datatype Cleaner = Cleaner(id: nat, row: Row, phase: CleanPhase)

  datatype SignInPhase = Found | Pending(row: Row) | Proven(row: Row) | Admitted | Open | Issued | Refused
  datatype SignIn = SignIn(id: nat, phase: SignInPhase)

  /**
   The tables, the requests under way, and history: the revisions used, the attempts with a revision their start
   request found in force, the users edited so that they no longer match their row, and the attempts completed
   with the revision checked then.
   */
  datatype World = World(
    settings: Option<Settings>,
    writers: map<nat, Option<Settings>>,
    rows: map<nat, Row>,
    users: map<nat, User>,
    sessions: set<nat>,
    handlers: map<nat, Handler>,
    cleaners: map<nat, Cleaner>,
    signIns: map<nat, SignIn>,
    now: nat,
    used: set<nat>,
    checked: set<(nat, nat)>,
    edited: set<nat>,
    admitted: map<nat, nat>
  )

  const START := World(None, map[], map[], map[], {}, map[], map[], map[], 0, {}, {}, {}, map[])

  const DAY: nat := 24 * 60 * 60 * 1000

  /** Whose the address is when `FindUser` looks for it. */
  datatype Holder = Nobody | Own | Another

  /** `ok` is the answer of anything outside the tables; `holder` is the answer of `FindUser`. */
  datatype Event =
    | SettingsRead(who: nat)
    | SettingsWritten(who: nat, request: SettingsRequest, fresh': nat)
    | Starts(who: nat, id: nat, revision: nat, fingerprint: nat)
    | HandlerSteps(who: nat, ok: bool, holder: Holder)
    | CleanupReads(who: nat, id: nat)
    | CleanupSteps(who: nat)
    | SignInFinds(who: nat, id: nat)
    | SignInSteps(who: nat, ok: bool)
    | UserVerifies(id: nat)
    | UserEdited(id: nat)
    | UserRemoved(id: nat)
    | TimePasses(millis: nat)

  /** A user that nobody has edited has the address of its attempt. */
  predicate Finds(w: World, id: nat, holder: Holder) {
    (holder.Own? ==> id in w.users) && (id in w.users && id !in w.edited ==> holder.Own?)
  }

  predicate Enabled(w: World, ev: Event) {
    match ev
    case SettingsRead(who) => who !in w.writers
    case SettingsWritten(who, _, fresh') => who in w.writers && fresh' !in w.used
    case Starts(who, _, _, _) => who !in w.handlers
    case HandlerSteps(who, _, holder) =>
      who in w.handlers && !w.handlers[who].phase.Ended?
      && (w.handlers[who].phase.FindUser? ==> Finds(w, w.handlers[who].id, holder))
    case CleanupReads(who, id) =>
      who !in w.cleaners && id in w.rows && w.rows[id].expiresAt < w.now
      && !w.rows[id].status.Expired? && !w.rows[id].status.VerifiedPending?
    case CleanupSteps(who) => who in w.cleaners
    case SignInFinds(who, id) => who !in w.signIns && id in w.users
    case SignInSteps(who, _) => who in w.signIns
    case UserVerifies(id) => id in w.users
    case UserEdited(id) => id in w.users
    case UserRemoved(_) => true
    case TimePasses(_) => true
  }

  // ----- the start request --------------------------------------------------------------------------------

  predicate Owns(phase: Phase) {
    phase.FindUser? || phase.MarkExisting? || phase.CreateUser? ||
     phase.SendMail? || phase.MarkSent? || phase.RemoveOwned? || phase.MarkFailed?
  }

  /** Whether the atomic delete of `removeOwnedUnverified` removes the user of the attempt. */
  predicate Removable(w: World, id: nat) {
    id in w.users && !w.users[id].verified && id !in w.edited && id !in w.sessions
  }

  predicate Answered(status: Status) {
    status.Sent? || status.VerifiedPending? || status.Existing? || status.Completed?
  }

  /** Where a step leads; a failure of an owner leads to `RemoveOwned`. */
  function NextHandler(w: World, h: Handler, ok: bool, holder: Holder): Handler {
    match h.phase
    case CheckPolicy => h.(phase := if ok && Allows(w.settings, h.revision) then ReadRow else Ended)
    case ReadRow =>
      if h.id !in w.rows then h.(phase := InsertRow)
      else
        var row := w.rows[h.id];
        h.(phase := if row.fingerprint != h.fingerprint || Answered(row.status) || row.status.Creating?
                       || row.expiresAt <= w.now
                    then Ended else ClaimRow)
    case InsertRow =>
      if h.id in w.rows then h.(phase := Ended) else h.(phase := FindUser, expiresAt := w.now + DAY)
    case ClaimRow =>
      if h.id in w.rows && w.rows[h.id].status.Failed?
      then h.(phase := FindUser, expiresAt := w.rows[h.id].expiresAt) else h.(phase := Ended)
    case FindUser =>
      h.(phase := if !ok then RemoveOwned
                  else match holder case Nobody => CreateUser case Own => Ended case Another => MarkExisting)
    case MarkExisting => h.(phase := if ok then Ended else RemoveOwned)
    case CreateUser => h.(phase := if ok && h.id !in w.users then SendMail else RemoveOwned)
    case SendMail => h.(phase := if ok then MarkSent else RemoveOwned)
    case MarkSent => h.(phase := if ok then Ended else RemoveOwned)
    case RemoveOwned => h.(phase := MarkFailed)
    case MarkFailed => h.(phase := Ended)
    case Ended => h
  }

  /** The row after a step that writes it; a write that fails leaves it. */
  function NextRow(w: World, h: Handler, ok: bool): Option<Row> {
    var row := if h.id in w.rows then Some(w.rows[h.id]) else None;
    match h.phase
    case InsertRow => if row.Some? then row else Some(Row(h.revision, h.fingerprint, Creating, w.now + DAY))
    case ClaimRow => if row.Some? && row.value.status.Failed? then Some(row.value.(status := Creating)) else row
    case MarkExisting => if row.Some? && ok then Some(row.value.(status := Existing)) else row
    case MarkSent => if row.Some? && row.value.status.Creating? && ok then Some(row.value.(status := Sent)) else row
    case MarkFailed => if row.Some? && row.value.status.Creating? then Some(row.value.(status := Failed)) else row
    case _ => row
  }

  function NextUsers(w: World, h: Handler, ok: bool): map<nat, User> {
    match h.phase
    case CreateUser => if ok && h.id !in w.users then w.users[h.id := User(false)] else w.users
    case RemoveOwned => if Removable(w, h.id) then w.users - {h.id} else w.users
    case _ => w.users
  }

  /** The start request finds registration enabled under its revision. */
  predicate Passes(w: World, h: Handler, ok: bool) {
    h.phase.CheckPolicy? && ok && Allows(w.settings, h.revision)
  }

  function HandlerStep(w: World, who: nat, ok: bool, holder: Holder): World
    requires who in w.handlers
  {
    var h := w.handlers[who];
    var row := NextRow(w, h, ok);
    w.(handlers := w.handlers[who := NextHandler(w, h, ok, holder)],
       rows := if row.Some? then w.rows[h.id := row.value] else w.rows,
       users := NextUsers(w, h, ok),
       checked := if Passes(w, h, ok) then w.checked + {(h.id, h.revision)} else w.checked)
  }

  // ----- the cleanup -----------------------------------------------------------------------------------------

  function NextCleaner(w: World, c: Cleaner): Cleaner {
    match c.phase
    case RemoveUser => c.(phase := ReadUser)
    case ReadUser =>
      c.(phase := if c.id !in w.users || c.row.status.Completed? || c.row.status.Existing? then DeleteRow
                  else if w.users[c.id].verified && c.id !in w.edited && c.row.status.Sent? then Mark(true)
                  else Mark(false))
    case _ => c.(phase := Cleaned)
  }

  /** One of the rows the cleanup has read: its user goes if nobody has used it, then the row is marked or deleted. */
  function CleanStep(w: World, who: nat): World
    requires who in w.cleaners
  {
    var c := w.cleaners[who];
    w.(cleaners := w.cleaners[who := NextCleaner(w, c)],
       users := if c.phase.RemoveUser? && !c.row.status.Completed? && !c.row.status.Existing? && Removable(w, c.id)
                then w.users - {c.id} else w.users,
       rows := if c.phase.Mark? && c.id in w.rows
               then w.rows[c.id := w.rows[c.id].(status := if c.phase.verified then VerifiedPending else Expired)]
               else if c.phase.DeleteRow? then w.rows - {c.id} else w.rows)
  }

  // ----- the session hook --------------------------------------------------------------------------------------

  function NextSignIn(w: World, s: SignIn, ok: bool): SignIn {
    match s.phase
    case Found =>
      s.(phase := if s.id !in w.rows || w.rows[s.id].status.Completed? || w.rows[s.id].status.Existing? then Open
                  else if w.rows[s.id].status.Sent? || w.rows[s.id].status.VerifiedPending? then Pending(w.rows[s.id])
                  else Refused)
    case Pending(row) =>
      s.(phase := if s.id in w.users && w.users[s.id].verified && s.id !in w.edited then Proven(row) else Refused)
    case Proven(row) => s.(phase := if ok && Allows(w.settings, row.revision) then Admitted else Refused)
    case Admitted => s.(phase := Open)
    case Open => s.(phase := if s.id in w.users && ok then Issued else Refused)
    case Issued => s
    case Refused => s
  }

  /** The hook's reads, the completion of the row once the policy and the identity service agree, the insert. */
  function SignInStep(w: World, who: nat, ok: bool): World
    requires who in w.signIns
  {
    var s := w.signIns[who];
    var next := NextSignIn(w, s, ok);
    w.(signIns := w.signIns[who := next],
       admitted := if s.phase.Proven? && next.phase.Admitted? then w.admitted[s.id := s.phase.row.revision]
                   else w.admitted,
       rows := if s.phase.Admitted? && s.id in w.rows
                 && (w.rows[s.id].status.Sent? || w.rows[s.id].status.VerifiedPending?)
               then w.rows[s.id := w.rows[s.id].(status := Completed)] else w.rows,
       sessions := if s.phase.Open? && next.phase.Issued? then w.sessions + {s.id} else w.sessions)
  }

  function Apply(w: World, ev: Event): World
    requires Enabled(w, ev)
  {
    match ev
    case SettingsRead(who) => w.(writers := w.writers[who := w.settings])
    case SettingsWritten(who, request, fresh') =>
      w.(settings := Written(w.writers[who], request, fresh'), writers := w.writers - {who}, used := w.used + {fresh'})
    case Starts(who, id, revision, fingerprint) =>
      w.(handlers := w.handlers[who := Handler(id, revision, fingerprint, CheckPolicy, 0)])
    case HandlerSteps(who, ok, holder) => HandlerStep(w, who, ok, holder)
    case CleanupReads(who, id) => w.(cleaners := w.cleaners[who := Cleaner(id, w.rows[id], RemoveUser)])
    case CleanupSteps(who) => CleanStep(w, who)
    case SignInFinds(who, id) => w.(signIns := w.signIns[who := SignIn(id, Found)])
    case SignInSteps(who, ok) => SignInStep(w, who, ok)
    case UserVerifies(id) => w.(users := w.users[id := User(true)])
    case UserEdited(id) => w.(edited := w.edited + {id})
    case UserRemoved(id) => w.(users := w.users - {id})
    case TimePasses(millis) => w.(now := w.now + millis)
  }

  function Run(w: World, evs: seq<Event>): Option<World>
    decreases |evs|
  {
    if evs == [] then Some(w)
    else if !Enabled(w, evs[0]) then None
    else Run(Apply(w, evs[0]), evs[1..])
  }

  // ----- moments of a run ---------------------------------------------------------------------------------------

  lemma {:induction false} RunPrefix(w: World, evs: seq<Event>, k: nat)
    requires k <= |evs| && Run(w, evs).Some?
    ensures Run(w, evs[..k]).Some? && Run(w, evs) == Run(Run(w, evs[..k]).value, evs[k..])
    decreases k
  {
    hide Apply, Enabled;
    if k == 0 {
      assert evs[k..] == evs;
    } else {
      assert evs[..k][1..] == evs[1..][..k - 1] && evs[k..] == evs[1..][k - 1..];
      RunPrefix(Apply(w, evs[0]), evs[1..], k - 1);
    }
  }

  lemma {:induction false} RunThen(w: World, evs: seq<Event>, ev: Event)
    requires Run(w, evs).Some? && Enabled(Run(w, evs).value, ev)
    ensures Run(w, evs + [ev]) == Some(Apply(Run(w, evs).value, ev))
    decreases |evs|
  {
    hide Apply, Enabled;
    if evs == [] {
      assert evs + [ev] == [ev];
    } else {
      assert (evs + [ev])[1..] == evs[1..] + [ev];
      RunThen(Apply(w, evs[0]), evs[1..], ev);
    }
  }

  ghost predicate IsRun(evs: seq<Event>) {
    Run(START, evs).Some?
  }

  /** The world after the first `k` events of a run. */
  ghost function At(evs: seq<Event>, k: nat): World
    requires IsRun(evs) && k <= |evs|
  {
    RunPrefix(START, evs, k);
    Run(START, evs[..k]).value
  }

  lemma AtEnds(evs: seq<Event>)
    requires IsRun(evs)
    ensures At(evs, 0) == START && At(evs, |evs|) == Run(START, evs).value
  {
    assert evs[..|evs|] == evs;
  }

  lemma AtNext(evs: seq<Event>, k: nat)
    requires IsRun(evs) && k < |evs|
    ensures Enabled(At(evs, k), evs[k]) && At(evs, k + 1) == Apply(At(evs, k), evs[k])
  {
    hide Apply, Enabled;
    RunPrefix(START, evs, k);
    RunPrefix(START, evs, k + 1);
    assert evs[k..][0] == evs[k];
    RunThen(START, evs[..k], evs[k]);
    assert evs[..k] + [evs[k]] == evs[..k + 1];
  }

  // ----- a revision that was interrupted comes back only by an overlapping write ---------------------------------

  predicate RevisionsUsed(w: World) {
    && (w.settings.Some? ==> w.settings.value.revision in w.used)
    && (forall who :: who in w.writers && w.writers[who].Some? ==> w.writers[who].value.revision in w.used)
  }

  /** A request that read the revision in force writes it again, though it is not in force any more. */
  predicate Revives(w: World, ev: Event, revision: nat) {
    && !Allows(w.settings, revision)
    && ev.SettingsWritten? && ev.request == Put(true)
    && ev.who in w.writers && w.writers[ev.who] == Some(Settings(true, revision))
  }

  lemma HandlerAlone(w: World, who: nat, ok: bool, holder: Holder)
    requires who in w.handlers
    ensures var next := HandlerStep(w, who, ok, holder);
      next == w.(handlers := next.handlers, rows := next.rows, users := next.users, checked := next.checked)
  {
    hide NextHandler, NextRow, NextUsers, Passes;
  }

  lemma CleanAlone(w: World, who: nat)
    requires who in w.cleaners
    ensures var next := CleanStep(w, who);
      next == w.(cleaners := next.cleaners, rows := next.rows, users := next.users)
  {
    hide Removable, NextCleaner;
  }

  lemma SignInAlone(w: World, who: nat, ok: bool)
    requires who in w.signIns
    ensures var next := SignInStep(w, who, ok);
      next == w.(signIns := next.signIns, rows := next.rows, sessions := next.sessions, admitted := next.admitted)
  {
    hide NextSignIn;
  }

  lemma SettingsAlone(w: World, ev: Event)
    requires Enabled(w, ev) && !ev.SettingsWritten?
    ensures Apply(w, ev).settings == w.settings && Apply(w, ev).used == w.used
    ensures Apply(w, ev).writers == w.writers
      || (ev.SettingsRead? && Apply(w, ev).writers == w.writers[ev.who := w.settings])
  {
    hide HandlerStep, CleanStep, SignInStep;
    match ev
    case HandlerSteps(who, ok, holder) => HandlerAlone(w, who, ok, holder);
    case CleanupSteps(who) => CleanAlone(w, who);
    case SignInSteps(who, ok) => SignInAlone(w, who, ok);
    case _ =>
  }

  /** Any step: a revision that has been used and is not in force comes into force only by such a write. */
  lemma RevivedIff(w: World, ev: Event, revision: nat)
    requires RevisionsUsed(w) && Enabled(w, ev) && revision in w.used && !Allows(w.settings, revision)
    ensures Allows(Apply(w, ev).settings, revision) <==> Revives(w, ev, revision)
  {
    hide HandlerStep, CleanStep, SignInStep;
    if !ev.SettingsWritten? {
      SettingsAlone(w, ev);
    }
  }

  lemma ApplyUses(w: World, ev: Event)
    requires RevisionsUsed(w) && Enabled(w, ev)
    ensures RevisionsUsed(Apply(w, ev)) && w.used <= Apply(w, ev).used
  {
    hide HandlerStep, CleanStep, SignInStep;
    if !ev.SettingsWritten? {
      SettingsAlone(w, ev);
    }
  }

  lemma StartUses()
    ensures RevisionsUsed(START)
  {
  }

  lemma {:induction false} UsesKept(evs: seq<Event>, i: nat, k: nat)
    requires IsRun(evs) && i <= k <= |evs|
    ensures RevisionsUsed(At(evs, k)) && At(evs, i).used <= At(evs, k).used
    decreases k, i
  {
    hide At, Apply, Enabled, RevisionsUsed;
    if i < k {
      UsesKept(evs, i, k - 1);
      AtNext(evs, k - 1);
      ApplyUses(At(evs, k - 1), evs[k - 1]);
    } else if k > 0 {
      UsesKept(evs, 0, k);
    } else {
      AtEnds(evs);
      StartUses();
    }
  }

  ghost predicate AllowedAt(evs: seq<Event>, k: nat, revision: nat)
    requires IsRun(evs) && k <= |evs|
  {
    Allows(At(evs, k).settings, revision)
  }

  ghost predicate RevivedAt(evs: seq<Event>, k: nat, revision: nat)
    requires IsRun(evs) && k < |evs|
  {
    Revives(At(evs, k), evs[k], revision)
  }

  /**
   Every run, with settings requests overlapping as they like: a revision that was used, and is not in force at
   moment `i`, is in force at some later moment if and only if an overlapping request writes it again.
   */
  lemma {:induction false} ComesBackIff(evs: seq<Event>, i: nat, k: nat, revision: nat)
    requires IsRun(evs) && i <= k <= |evs|
    requires revision in At(evs, i).used && !AllowedAt(evs, i, revision)
    ensures (exists j :: i <= j <= k && AllowedAt(evs, j, revision))
       <==> (exists j :: i <= j < k && RevivedAt(evs, j, revision))
    decreases k
  {
    hide At, Apply, Enabled;
    if i < k {
      ComesBackIff(evs, i, k - 1, revision);
      if !AllowedAt(evs, k - 1, revision) {
        UsesKept(evs, i, k - 1);
        AtNext(evs, k - 1);
        RevivedIff(At(evs, k - 1), evs[k - 1], revision);
        assert AllowedAt(evs, k, revision) <==> RevivedAt(evs, k - 1, revision);
      }
    }
  }

  /**
   Every run: a revision in force at two moments was in force at every moment between them if and only if no
   overlapping request brought it back in between.
   */
  lemma UninterruptedIff(evs: seq<Event>, i: nat, k: nat, revision: nat)
    requires IsRun(evs) && i <= k <= |evs|
    requires AllowedAt(evs, i, revision) && AllowedAt(evs, k, revision)
    ensures (forall j :: i <= j <= k ==> AllowedAt(evs, j, revision))
       <==> (forall j :: i <= j < k ==> !RevivedAt(evs, j, revision))
  {
    hide At, Apply, Enabled;
    UsesKept(evs, i, i);
    forall j | i <= j < k && RevivedAt(evs, j, revision)
      ensures !AllowedAt(evs, j, revision)
    {
    }
    forall j | i <= j <= k && !AllowedAt(evs, j, revision)
      ensures exists m :: j <= m < k && RevivedAt(evs, m, revision)
    {
      UsesKept(evs, i, j);
      ComesBackIff(evs, j, k, revision);
    }
  }

  /** A write that follows its own read: no other write came in between. */
  predicate Unhurried(w: World, ev: Event) {
    ev.SettingsWritten? && ev.who in w.writers ==> w.writers[ev.who] == w.settings
  }

  ghost predicate UnhurriedRun(evs: seq<Event>)
    requires IsRun(evs)
  {
    forall k :: 0 <= k < |evs| ==> Unhurried(At(evs, k), evs[k])
  }

  /**
   Settings requests taken one at a time: registration that is enabled under one revision at two moments of a
   run was enabled, under that revision, at every moment in between.
   */
  lemma EnabledWithoutInterruption(evs: seq<Event>, i: nat, k: nat, revision: nat)
    requires IsRun(evs) && UnhurriedRun(evs) && i <= k <= |evs|
    requires AllowedAt(evs, i, revision) && AllowedAt(evs, k, revision)
    ensures forall j :: i <= j <= k ==> AllowedAt(evs, j, revision)
  {
    hide At, Apply, Enabled, IsRun;
    UninterruptedIff(evs, i, k, revision);
    forall j | i <= j < k
      ensures !RevivedAt(evs, j, revision)
    {
      assert Unhurried(At(evs, j), evs[j]);
    }
  }

  /** Two requests that overlap: both read, the second switches registration off, the first writes what it read. */
  function SwitchedOff(one: nat, two: nat, fresh': nat): seq<Event> {
    [SettingsRead(one), SettingsRead(two), SettingsWritten(two, Put(false), fresh')]
  }

  /** So wherever registration is enabled, a revision can be interrupted and come back. */
  lemma OverlapBringsItBack(w: World, one: nat, two: nat, fresh': nat, other: nat, revision: nat)
    requires Allows(w.settings, revision) && one != two && one !in w.writers && two !in w.writers
    requires fresh' !in w.used && other !in w.used && fresh' != other
    ensures var off := Run(w, SwitchedOff(one, two, fresh'));
      off.Some? && Revives(off.value, SettingsWritten(one, Put(true), other), revision)
    ensures var back := Run(w, SwitchedOff(one, two, fresh') + [SettingsWritten(one, Put(true), other)]);
      back.Some? && Allows(back.value.settings, revision)
  {
    hide HandlerStep, CleanStep, SignInStep;
    var evs := SwitchedOff(one, two, fresh');
    var a := Apply(w, SettingsRead(one));
    var b := Apply(a, SettingsRead(two));
    var c := Apply(b, SettingsWritten(two, Put(false), fresh'));
    assert Run(c, []) == Some(c);
    assert Run(b, [SettingsWritten(two, Put(false), fresh')]) == Some(c);
    assert evs[1..][1..] == [SettingsWritten(two, Put(false), fresh')];
    assert Run(a, evs[1..]) == Some(c);
    RunThen(w, evs, SettingsWritten(one, Put(true), other));
  }

  // ----- exactly when the guard holds -----------------------------------------------------------------------------

  /** Registration of the attempt has been completed, or the user was changed by someone else. */
  predicate Excused(w: World, id: nat) {
    id in w.edited || id in w.admitted
  }

  predicate Guards(status: Status) {
    !status.Completed? && !status.Existing?
  }

  /** Some sign-in of the user has passed the session hook, and its session is not yet written. */
  ghost predicate HookPassed(w: World, id: nat) {
    exists who :: who in w.signIns && w.signIns[who].id == id && w.signIns[who].phase.Open?
  }

  /** An unfinished user: made by an attempt, and not completed. */
  predicate Unfinished(w: World, id: nat) {
    id in w.users && !Excused(w, id)
  }

  ghost predicate Guarded(w: World, id: nat) {
    id in w.rows && Guards(w.rows[id].status) && !HookPassed(w, id)
  }

  predicate SignInEarned(w: World, who: nat)
    requires who in w.signIns
  {
    && (w.signIns[who].phase.Issued? ==> Excused(w, w.signIns[who].id))
    && (w.signIns[who].phase.Admitted? ==> w.signIns[who].id in w.admitted)
  }

  /** Every unfinished user is guarded, and every session is of a user whose registration is done with. */
  ghost predicate Safe(w: World) {
    && (forall id :: Unfinished(w, id) ==> Guarded(w, id))
    && (forall who :: who in w.signIns ==> SignInEarned(w, who))
  }

  /** The handler makes its user now. */
  predicate Makes(w: World, ev: Event) {
    && ev.HandlerSteps? && ev.who in w.handlers && ev.ok
    && w.handlers[ev.who].phase.CreateUser? && w.handlers[ev.who].id !in w.users
  }

  /** The steps that take the guard from an unfinished user, or make one without. */
  ghost predicate Unguards(w: World, ev: Event) {
    || (Makes(w, ev) && !Excused(w, w.handlers[ev.who].id) && !Guarded(w, w.handlers[ev.who].id))
    || (ev.CleanupSteps? && ev.who in w.cleaners && w.cleaners[ev.who].phase.DeleteRow?
        && Unfinished(w, w.cleaners[ev.who].id))
    || (ev.HandlerSteps? && ev.who in w.handlers && ev.ok && w.handlers[ev.who].phase.MarkExisting?
        && Unfinished(w, w.handlers[ev.who].id))
  }

  /** What a step of a handler does to the attempt of one id. */
  lemma HandlerOnUser(w: World, ev: Event, id: nat)
    requires Enabled(w, ev) && ev.HandlerSteps?
    ensures var next := Apply(w, ev); var h := w.handlers[ev.who];
      && (Excused(next, id) <==> Excused(w, id))
      && (id in next.users && id !in w.users ==> h.id == id && Makes(w, ev))
      && (Makes(w, ev) ==> h.id in next.users && next.rows == w.rows)
      && (id in w.rows && Guards(w.rows[id].status) ==>
            id in next.rows
            && (Guards(next.rows[id].status) <==> !(h.id == id && ev.ok && h.phase.MarkExisting?)))
      && next.signIns == w.signIns
      && (h.phase.MarkExisting? ==> next.users == w.users)
  {
    hide NextHandler;
  }

  lemma HandlerSafeIff(w: World, ev: Event)
    requires Safe(w) && Enabled(w, ev) && ev.HandlerSteps?
    ensures Safe(Apply(w, ev)) <==> !Unguards(w, ev)
  {
    var next := Apply(w, ev);
    var id := w.handlers[ev.who].id;
    HandlerOnUser(w, ev, id);
    HandlerAlone(w, ev.who, ev.ok, ev.holder);
    assert forall who :: who in next.signIns ==> SignInEarned(w, who) && SignInEarned(next, who);
    hide Apply, Enabled, Excused, Guards;
    assert HookPassed(w, id) <==> HookPassed(next, id);
    if !Unguards(w, ev) {
      forall other | Unfinished(next, other)
        ensures Guarded(next, other)
      {
        HandlerOnUser(w, ev, other);
        assert Unfinished(w, other) ==> Guarded(w, other);
        assert HookPassed(w, other) <==> HookPassed(next, other);
      }
    } else {
      assert Unfinished(next, id) && !Guarded(next, id);
    }
  }

  lemma CleanSafeIff(w: World, ev: Event)
    requires Safe(w) && Enabled(w, ev) && ev.CleanupSteps?
    ensures Safe(Apply(w, ev)) <==> !Unguards(w, ev)
  {
    hide Removable, NextCleaner;
    var next := Apply(w, ev);
    var c := w.cleaners[ev.who];
    assert forall id :: HookPassed(w, id) <==> HookPassed(next, id);
    if Unguards(w, ev) {
      assert Unfinished(next, c.id) && c.id !in next.rows;
    } else {
      assert forall who :: who in w.signIns ==> SignInEarned(w, who);
      assert forall id :: Unfinished(next, id) ==> Unfinished(w, id);
    }
  }

  lemma SignInKeepsGuard(w: World, ev: Event, id: nat)
    requires Safe(w) && Enabled(w, ev) && ev.SignInSteps? && Unfinished(Apply(w, ev), id)
    ensures Guarded(Apply(w, ev), id)
  {
    var next := Apply(w, ev);
    var s := w.signIns[ev.who];
    assert Unfinished(w, id) && Guarded(w, id);
    assert SignInEarned(w, ev.who);
    assert s.id == id ==> next.rows == w.rows && !next.signIns[ev.who].phase.Open?;
    hide NextSignIn, Safe;
    assert id in next.rows && next.rows[id] == w.rows[id];
    assert HookPassed(next, id) ==> HookPassed(w, id);
  }

  lemma SignInSafe(w: World, ev: Event)
    requires Safe(w) && Enabled(w, ev) && ev.SignInSteps?
    ensures Safe(Apply(w, ev))
  {
    var next := Apply(w, ev);
    assert forall id :: Excused(w, id) ==> Excused(next, id);
    forall who | who in next.signIns
      ensures SignInEarned(next, who)
    {
      assert SignInEarned(w, who) && SignInEarned(w, ev.who);
      assert w.signIns[ev.who].phase.Open? ==> HookPassed(w, w.signIns[ev.who].id);
      assert Unfinished(w, w.signIns[ev.who].id) ==> Guarded(w, w.signIns[ev.who].id);
    }
    hide Apply, Enabled, Unfinished, Guarded;
    forall id | Unfinished(next, id)
      ensures Guarded(next, id)
    {
      SignInKeepsGuard(w, ev, id);
    }
  }

  lemma OthersSafe(w: World, ev: Event)
    requires Safe(w) && Enabled(w, ev) && !ev.HandlerSteps? && !ev.CleanupSteps? && !ev.SignInSteps?
    ensures Safe(Apply(w, ev))
  {
    var next := Apply(w, ev);
    forall id | Unfinished(next, id)
      ensures Guarded(next, id)
    {
      assert Unfinished(w, id) && Guarded(w, id);
      assert HookPassed(next, id) ==> HookPassed(w, id);
    }
    forall who | who in next.signIns
      ensures SignInEarned(next, who)
    {
      assert who in w.signIns ==> SignInEarned(w, who);
    }
  }

  /** From a safe world a step leads to a safe world exactly when it is none of those. */
  lemma SafeStepIff(w: World, ev: Event)
    requires Safe(w) && Enabled(w, ev)
    ensures Safe(Apply(w, ev)) <==> !Unguards(w, ev)
  {
    hide Apply, Enabled, Safe;
    match ev
    case HandlerSteps(_, _, _) => HandlerSafeIff(w, ev);
    case CleanupSteps(_) => CleanSafeIff(w, ev);
    case SignInSteps(_, _) => SignInSafe(w, ev);
    case _ => OthersSafe(w, ev);
  }

  ghost predicate UnguardsAt(evs: seq<Event>, k: nat)
    requires IsRun(evs) && k < |evs|
  {
    Unguards(At(evs, k), evs[k])
  }

  ghost predicate SafeAt(evs: seq<Event>, k: nat)
    requires IsRun(evs) && k <= |evs|
  {
    Safe(At(evs, k))
  }

  /**
   Every run: all unfinished users are guarded all the time if and only if no step makes one without its guard or
   takes the guard from one.
   */
  lemma {:induction false} GuardedRunIff(evs: seq<Event>, n: nat)
    requires IsRun(evs) && n <= |evs|
    ensures (forall k :: 0 <= k <= n ==> SafeAt(evs, k)) <==> (forall k :: 0 <= k < n ==> !UnguardsAt(evs, k))
    decreases n
  {
    hide At, Apply, Enabled, Safe, Unguards;
    if n == 0 {
      AtEnds(evs);
      StartSafe();
      assert SafeAt(evs, 0);
    } else {
      GuardedRunIff(evs, n - 1);
      AtNext(evs, n - 1);
      if SafeAt(evs, n - 1) {
        SafeStepIff(At(evs, n - 1), evs[n - 1]);
        assert SafeAt(evs, n) <==> !UnguardsAt(evs, n - 1);
      }
    }
  }

  lemma StartSafe()
    ensures Safe(START)
  {
  }

  /** A session of a user whose registration is not done with. */
  ghost predicate Breached(w: World) {
    exists who :: who in w.signIns && w.signIns[who].phase.Issued? && !Excused(w, w.signIns[who].id)
  }

  /** A sign-in that reads the tables without anyone else in between. */
  function SignInAtOnce(id: nat, who: nat): seq<Event> {
    [SignInFinds(who, id), SignInSteps(who, true), SignInSteps(who, true)]
  }

  lemma FreeSignIn(w: World, id: nat, who: nat)
    requires Unfinished(w, id) && who !in w.signIns && (id in w.rows ==> !Guards(w.rows[id].status))
    ensures Run(w, SignInAtOnce(id, who)).Some? && Breached(Run(w, SignInAtOnce(id, who)).value)
  {
    var b := Apply(w, SignInFinds(who, id));
    var c := SignInStep(b, who, true);
    var d := SignInStep(c, who, true);
    assert c.signIns[who].phase.Open? && d.signIns[who] == SignIn(id, Issued) && !Excused(d, id);
    hide SignInStep;
    assert Run(d, []) == Some(d);
    assert Run(c, [SignInSteps(who, true)]) == Some(d);
    assert SignInAtOnce(id, who)[1..][1..] == [SignInSteps(who, true)];
    assert Run(b, SignInAtOnce(id, who)[1..]) == Some(d);
  }

  lemma OpenSignIn(w: World, id: nat, who: nat)
    requires Unfinished(w, id) && who in w.signIns && w.signIns[who] == SignIn(id, Open)
    ensures Run(w, [SignInSteps(who, true)]).Some? && Breached(Run(w, [SignInSteps(who, true)]).value)
  {
    var d := SignInStep(w, who, true);
    assert d.signIns[who] == SignIn(id, Issued) && !Excused(d, id);
    hide SignInStep;
    assert Run(d, []) == Some(d);
  }

  /** An unfinished user without its guard can get a session in at most three steps, whatever else is under way. */
  lemma UnguardedGetsSession(w: World, id: nat, who: nat) returns (evs: seq<Event>)
    requires Unfinished(w, id) && !Guarded(w, id) && who !in w.signIns
    ensures |evs| <= 3 && Run(w, evs).Some? && Breached(Run(w, evs).value)
  {
    if HookPassed(w, id) {
      var open :| open in w.signIns && w.signIns[open].id == id && w.signIns[open].phase.Open?;
      evs := [SignInSteps(open, true)];
      OpenSignIn(w, id, open);
    } else {
      evs := SignInAtOnce(id, who);
      FreeSignIn(w, id, who);
    }
  }

  /** So each of those steps is a breach: a session of an unfinished user is three steps away. */
  lemma UnguardsGetsSession(w: World, ev: Event, who: nat) returns (evs: seq<Event>)
    requires Safe(w) && Enabled(w, ev) && Unguards(w, ev) && who !in w.signIns
    ensures |evs| <= 3 && Run(Apply(w, ev), evs).Some? && Breached(Run(Apply(w, ev), evs).value)
  {
    var next := Apply(w, ev);
    SafeStepIff(w, ev);
    assert next.signIns == w.signIns by {
      if ev.HandlerSteps? { HandlerAlone(w, ev.who, ev.ok, ev.holder); } else { CleanAlone(w, ev.who); }
    }
    hide Apply, Enabled, Unguards, Run;
    assert forall s :: s in next.signIns ==> SignInEarned(w, s) && SignInEarned(next, s);
    var id :| Unfinished(next, id) && !Guarded(next, id);
    evs := UnguardedGetsSession(next, id, who);
  }

  // ----- what keeps the guard: owners in time, and no restart under an unfinished cleanup -------------------------

  /** An owner acts before its row expires. */
  predicate InTime(w: World, ev: Event) {
    ev.HandlerSteps? && ev.who in w.handlers && Owns(w.handlers[ev.who].phase) ==>
      w.now <= w.handlers[ev.who].expiresAt
  }

  /** A cleanup that has read a row of this attempt is not done with it. */
  ghost predicate BeingCleaned(w: World, id: nat) {
    exists who :: who in w.cleaners && w.cleaners[who].id == id && !w.cleaners[who].phase.Cleaned?
  }

  /**
   An attempt is inserted only when no cleanup of an earlier row of it is under way, and its user is made only when
   no sign-in of an earlier user has passed the hook.
   */
  ghost predicate Restarts(w: World, ev: Event) {
    ev.HandlerSteps? && ev.who in w.handlers ==>
      && (w.handlers[ev.who].phase.InsertRow? ==> !BeingCleaned(w, w.handlers[ev.who].id))
      && (w.handlers[ev.who].phase.CreateUser? ==> !HookPassed(w, w.handlers[ev.who].id))
  }

  ghost predicate Tame(w: World, ev: Event) {
    InTime(w, ev) && Restarts(w, ev)
  }

  ghost predicate TameRun(evs: seq<Event>)
    requires IsRun(evs)
  {
    forall k :: 0 <= k < |evs| ==> Tame(At(evs, k), evs[k])
  }

  /** The handler owns its attempt, and the row is not past its time. */
  predicate Live(w: World, who: nat)
    requires who in w.handlers
  {
    Owns(w.handlers[who].phase) && w.now <= w.handlers[who].expiresAt
  }

  predicate RowOk(w: World, id: nat)
    requires id in w.rows
  {
    && (w.rows[id].status.Completed? ==> id in w.admitted)
    && (w.rows[id].status.Existing? ==> !Unfinished(w, id))
  }

  predicate UserOk(w: World, id: nat) {
    Unfinished(w, id) ==> id in w.rows
  }

  predicate HandlerOk(w: World, who: nat)
    requires who in w.handlers
  {
    var h := w.handlers[who];
    && (Live(w, who) ==> StillCreating(w, h))
    && (h.phase.MarkExisting? && Live(w, who) ==> !Unfinished(w, h.id))
  }

  predicate StillCreating(w: World, h: Handler) {
    h.id in w.rows && w.rows[h.id].status.Creating? && w.rows[h.id].expiresAt == h.expiresAt
  }

  ghost predicate OneOwner(w: World) {
    forall who, other :: who in w.handlers && other in w.handlers && who != other ==>
      !(Live(w, who) && Live(w, other) && w.handlers[who].id == w.handlers[other].id)
  }

  predicate CleanerOk(w: World, who: nat)
    requires who in w.cleaners
  {
    var c := w.cleaners[who];
    !c.phase.Cleaned? ==>
      && c.row.expiresAt < w.now
      && (c.id in w.rows ==> w.rows[c.id].expiresAt == c.row.expiresAt)
      && (c.row.status.Completed? ==> c.id in w.admitted)
      && (c.row.status.Existing? ==> !Unfinished(w, c.id))
      && (c.phase.DeleteRow? ==> !Unfinished(w, c.id))
  }

  predicate SignInOk(w: World, who: nat)
    requires who in w.signIns
  {
    var s := w.signIns[who];
    SignInEarned(w, who) && (s.phase.Open? ==> !Unfinished(w, s.id))
  }

  ghost predicate Inv(w: World) {
    && (forall id :: id in w.rows ==> RowOk(w, id))
    && (forall id :: UserOk(w, id))
    && (forall who :: who in w.handlers ==> HandlerOk(w, who))
    && OneOwner(w)
    && (forall who :: who in w.cleaners ==> CleanerOk(w, who))
    && (forall who :: who in w.signIns ==> SignInOk(w, who))
  }

  lemma InvIsSafe(w: World)
    requires Inv(w)
    ensures Safe(w)
  {
    forall id | Unfinished(w, id)
      ensures Guarded(w, id)
    {
      assert UserOk(w, id) && RowOk(w, id);
      assert forall who :: who in w.signIns ==> SignInOk(w, who);
    }
    assert forall who :: who in w.signIns ==> SignInOk(w, who) && SignInEarned(w, who);
  }

  // ----- steps of a handler ------------------------------------------------------------------------------------

  lemma OwnerIs(w: World, ev: Event)
    requires Inv(w) && Enabled(w, ev) && Tame(w, ev) && ev.HandlerSteps?
    ensures var h := w.handlers[ev.who];
      && (Owns(h.phase) ==> StillCreating(w, h) && w.now <= h.expiresAt)
      && (h.phase.MarkExisting? ==> !Unfinished(w, h.id))
      && (h.id in w.rows ==> RowOk(w, h.id))
      && (h.phase.InsertRow? ==> !BeingCleaned(w, h.id))
      && (h.phase.CreateUser? ==> !HookPassed(w, h.id))
  {
    assert HandlerOk(w, ev.who);
    var h := w.handlers[ev.who];
    assert Owns(h.phase) ==> Live(w, ev.who);
  }

  lemma HandlerKeepsRow(w: World, ev: Event, id: nat)
    requires Inv(w) && Enabled(w, ev) && Tame(w, ev) && ev.HandlerSteps? && id in Apply(w, ev).rows
    ensures RowOk(Apply(w, ev), id)
  {
    OwnerIs(w, ev);
    if id in w.rows {
      assert RowOk(w, id);
    }
    assert UserOk(w, id);
    hide Inv, NextHandler;
  }

  lemma HandlerKeepsUser(w: World, ev: Event, id: nat)
    requires Inv(w) && Enabled(w, ev) && Tame(w, ev) && ev.HandlerSteps?
    ensures UserOk(Apply(w, ev), id)
  {
    OwnerIs(w, ev);
    assert UserOk(w, id);
    hide Inv, NextHandler;
  }

  lemma HandlerKeepsSelf(w: World, ev: Event)
    requires Inv(w) && Enabled(w, ev) && Tame(w, ev) && ev.HandlerSteps?
    ensures HandlerOk(Apply(w, ev), ev.who)
  {
    OwnerIs(w, ev);
    hide Inv;
  }

  /** Another attempt's handler: its row and user are not touched. */
  lemma HandlerSparesOthers(w: World, ev: Event, who: nat)
    requires Inv(w) && Enabled(w, ev) && ev.HandlerSteps? && who in w.handlers
    requires w.handlers[who].id != w.handlers[ev.who].id
    ensures HandlerOk(Apply(w, ev), who)
  {
    assert HandlerOk(w, who);
    hide Inv, NextHandler, Owns;
  }

  /** Another handler of the same attempt: when it owns the attempt, this one does not, and cannot come to. */
  lemma HandlerYieldsToOwner(w: World, ev: Event, who: nat)
    requires Inv(w) && Enabled(w, ev) && Tame(w, ev) && ev.HandlerSteps? && who in w.handlers && who != ev.who
    requires w.handlers[who].id == w.handlers[ev.who].id
    ensures HandlerOk(Apply(w, ev), who)
    ensures !(Live(Apply(w, ev), who) && Live(Apply(w, ev), ev.who))
  {
    var h := w.handlers[ev.who];
    var next := Apply(w, ev);
    assert HandlerOk(w, who);
    if Live(w, who) {
      assert !Live(w, ev.who);
      assert !Owns(h.phase);
      hide Inv, OneOwner;
      NoOwnerChange(w, h, ev.ok, ev.holder);
      hide NextHandler, Owns, NextRow, NextUsers;
      assert next.handlers[who] == w.handlers[who];
    } else {
      assert next.handlers[who] == w.handlers[who] && next.now == w.now;
    }
  }

  lemma NoOwnerChange(w: World, h: Handler, ok: bool, holder: Holder)
    requires !Owns(h.phase) && h.id in w.rows && w.rows[h.id].status.Creating?
    ensures !Owns(NextHandler(w, h, ok, holder).phase)
    ensures NextRow(w, h, ok) == Some(w.rows[h.id]) && NextUsers(w, h, ok) == w.users
  {
  }

  lemma HandlerKeepsCleaner(w: World, ev: Event, who: nat)
    requires Inv(w) && Enabled(w, ev) && Tame(w, ev) && ev.HandlerSteps? && who in w.cleaners
    ensures CleanerOk(Apply(w, ev), who)
  {
    var c := w.cleaners[who];
    assert CleanerOk(w, who);
    assert !c.phase.Cleaned? ==> BeingCleaned(w, c.id);
    OwnerIs(w, ev);
    hide Inv, NextHandler;
  }

  lemma HandlerKeepsSignIn(w: World, ev: Event, who: nat)
    requires Inv(w) && Enabled(w, ev) && Tame(w, ev) && ev.HandlerSteps? && who in w.signIns
    ensures SignInOk(Apply(w, ev), who)
  {
    var s := w.signIns[who];
    assert SignInOk(w, who);
    assert s.phase.Open? ==> HookPassed(w, s.id);
    OwnerIs(w, ev);
    hide Inv, NextHandler;
    HandlerOnUser(w, ev, s.id);
    HandlerAlone(w, ev.who, ev.ok, ev.holder);
    hide HandlerStep;
  }

  lemma HandlerNames(w: World, ev: Event)
    requires Enabled(w, ev) && ev.HandlerSteps?
    ensures Apply(w, ev).handlers.Keys == w.handlers.Keys
    ensures forall who :: who in w.handlers && who != ev.who ==> Apply(w, ev).handlers[who] == w.handlers[who]
    ensures Apply(w, ev).handlers[ev.who].id == w.handlers[ev.who].id
  {
    hide NextRow, NextUsers;
  }

  lemma HandlerKeepsInv(w: World, ev: Event)
    requires Inv(w) && Enabled(w, ev) && Tame(w, ev) && ev.HandlerSteps?
    ensures Inv(Apply(w, ev))
  {
    hide RowOk, UserOk, HandlerOk, CleanerOk, SignInOk, Live, HandlerStep;
    var next := Apply(w, ev);
    HandlerAlone(w, ev.who, ev.ok, ev.holder);
    HandlerNames(w, ev);
    forall id | id in next.rows
      ensures RowOk(next, id)
    {
      HandlerKeepsRow(w, ev, id);
    }
    forall id
      ensures UserOk(next, id)
    {
      HandlerKeepsUser(w, ev, id);
    }
    forall who | who in next.handlers
      ensures HandlerOk(next, who)
    {
      HandlerKeepsHandlers(w, ev, who);
    }
    HandlerKeepsOneOwner(w, ev);
    forall who | who in next.cleaners
      ensures CleanerOk(next, who)
    {
      HandlerKeepsCleaner(w, ev, who);
    }
    forall who | who in next.signIns
      ensures SignInOk(next, who)
    {
      HandlerKeepsSignIn(w, ev, who);
    }
  }

  lemma HandlerKeepsHandlers(w: World, ev: Event, who: nat)
    requires Inv(w) && Enabled(w, ev) && Tame(w, ev) && ev.HandlerSteps? && who in w.handlers
    ensures HandlerOk(Apply(w, ev), who)
  {
    if who == ev.who {
      HandlerKeepsSelf(w, ev);
    } else if w.handlers[who].id == w.handlers[ev.who].id {
      HandlerYieldsToOwner(w, ev, who);
    } else {
      HandlerSparesOthers(w, ev, who);
    }
  }

  lemma HandlerKeepsOneOwner(w: World, ev: Event)
    requires Inv(w) && Enabled(w, ev) && Tame(w, ev) && ev.HandlerSteps?
    ensures OneOwner(Apply(w, ev))
  {
    var next := Apply(w, ev);
    HandlerNames(w, ev);
    HandlerAlone(w, ev.who, ev.ok, ev.holder);
    hide HandlerStep, RowOk, UserOk, HandlerOk, CleanerOk, SignInOk, Owns;
    forall who, other | who in next.handlers && other in next.handlers && who != other
      ensures !(Live(next, who) && Live(next, other) && next.handlers[who].id == next.handlers[other].id)
    {
      if next.handlers[who].id == next.handlers[other].id {
        if who == ev.who {
          HandlerYieldsToOwner(w, ev, other);
        } else if other == ev.who {
          HandlerYieldsToOwner(w, ev, who);
        } else {
          OneOwnerAt(w, who, other);
        }
      }
    }
  }

  lemma OneOwnerAt(w: World, who: nat, other: nat)
    requires OneOwner(w) && who in w.handlers && other in w.handlers && who != other
    ensures !(Live(w, who) && Live(w, other) && w.handlers[who].id == w.handlers[other].id)
  {
  }

  // ----- steps of the cleanup, of sign-ins, and of everyone else ------------------------------------------------------

  /** Only handlers make unfinished users. */
  lemma RestMakesNone(w: World, ev: Event, id: nat)
    requires Inv(w) && Enabled(w, ev) && !ev.HandlerSteps?
    ensures Unfinished(Apply(w, ev), id) ==> Unfinished(w, id)
    ensures w.admitted.Keys <= Apply(w, ev).admitted.Keys && w.now <= Apply(w, ev).now
  {
    hide Inv, NextCleaner, NextSignIn;
  }

  lemma RestKeepsRow(w: World, ev: Event, id: nat)
    requires Inv(w) && Enabled(w, ev) && !ev.HandlerSteps? && id in Apply(w, ev).rows
    ensures RowOk(Apply(w, ev), id)
  {
    assert id in w.rows && RowOk(w, id);
    assert ev.SignInSteps? ==> SignInOk(w, ev.who);
    RestMakesNone(w, ev, id);
    hide Inv, NextCleaner, NextSignIn;
  }

  lemma RestKeepsUser(w: World, ev: Event, id: nat)
    requires Inv(w) && Enabled(w, ev) && !ev.HandlerSteps?
    ensures UserOk(Apply(w, ev), id)
  {
    assert UserOk(w, id);
    assert ev.CleanupSteps? ==> CleanerOk(w, ev.who);
    hide Inv, NextCleaner, NextSignIn;
  }

  lemma RestKeepsHandler(w: World, ev: Event, who: nat)
    requires Inv(w) && Enabled(w, ev) && !ev.HandlerSteps? && who in Apply(w, ev).handlers
    ensures HandlerOk(Apply(w, ev), who)
    ensures Live(Apply(w, ev), who) ==> who in w.handlers && Live(w, who)
  {
    assert who in w.handlers ==> HandlerOk(w, who);
    assert ev.CleanupSteps? ==> CleanerOk(w, ev.who);
    hide Inv, NextCleaner, NextSignIn;
  }

  lemma RestKeepsCleaner(w: World, ev: Event, who: nat)
    requires Inv(w) && Enabled(w, ev) && !ev.HandlerSteps? && who in Apply(w, ev).cleaners
    ensures CleanerOk(Apply(w, ev), who)
  {
    var next := Apply(w, ev);
    if who in w.cleaners {
      assert CleanerOk(w, who);
      assert UserOk(w, w.cleaners[who].id);
    } else {
      assert RowOk(w, ev.id);
    }
    RestMakesNone(w, ev, next.cleaners[who].id);
    hide Inv, NextSignIn;
  }

  lemma RestKeepsSignIn(w: World, ev: Event, who: nat)
    requires Inv(w) && Enabled(w, ev) && !ev.HandlerSteps? && who in Apply(w, ev).signIns
    ensures SignInOk(Apply(w, ev), who)
  {
    var next := Apply(w, ev);
    var id := next.signIns[who].id;
    assert UserOk(w, id);
    assert id in w.rows ==> RowOk(w, id);
    if who in w.signIns {
      assert SignInOk(w, who);
    }
    RestMakesNone(w, ev, id);
    hide Inv, NextCleaner;
  }

  lemma RestKeepsInv(w: World, ev: Event)
    requires Inv(w) && Enabled(w, ev) && !ev.HandlerSteps?
    ensures Inv(Apply(w, ev))
  {
    hide RowOk, UserOk, HandlerOk, CleanerOk, SignInOk, Live, Apply, Enabled;
    var next := Apply(w, ev);
    forall id | id in next.rows
      ensures RowOk(next, id)
    {
      RestKeepsRow(w, ev, id);
    }
    forall id
      ensures UserOk(next, id)
    {
      RestKeepsUser(w, ev, id);
    }
    forall who | who in next.handlers
      ensures HandlerOk(next, who)
    {
      RestKeepsHandler(w, ev, who);
    }
    assert OneOwner(next) by { RestKeepsOneOwner(w, ev); }
    forall who | who in next.cleaners
      ensures CleanerOk(next, who)
    {
      RestKeepsCleaner(w, ev, who);
    }
    forall who | who in next.signIns
      ensures SignInOk(next, who)
    {
      RestKeepsSignIn(w, ev, who);
    }
  }

  lemma RestKeepsOneOwner(w: World, ev: Event)
    requires Inv(w) && Enabled(w, ev) && !ev.HandlerSteps?
    ensures OneOwner(Apply(w, ev))
  {
    hide RowOk, UserOk, HandlerOk, CleanerOk, SignInOk, Owns, NextCleaner, NextSignIn;
    var next := Apply(w, ev);
    forall who, other | who in next.handlers && other in next.handlers && who != other
      ensures !(Live(next, who) && Live(next, other) && next.handlers[who].id == next.handlers[other].id)
    {
      RestKeepsHandler(w, ev, who);
      RestKeepsHandler(w, ev, other);
      if who in w.handlers && other in w.handlers {
        OneOwnerAt(w, who, other);
      }
    }
  }

  lemma StartInv()
    ensures Inv(START)
  {
  }

  lemma {:induction false} RunKeepsInv(evs: seq<Event>, k: nat)
    requires IsRun(evs) && TameRun(evs) && k <= |evs|
    ensures Inv(At(evs, k))
    decreases k
  {
    hide IsRun, At, Inv, Apply, Enabled, Tame;
    if k == 0 {
      AtEnds(evs);
      StartInv();
    } else {
      RunKeepsInv(evs, k - 1);
      AtNext(evs, k - 1);
      if evs[k - 1].HandlerSteps? {
        HandlerKeepsInv(At(evs, k - 1), evs[k - 1]);
      } else {
        RestKeepsInv(At(evs, k - 1), evs[k - 1]);
      }
    }
  }

  /**
   After any interleaving and any crashes: an attempt has at most one handler that owns it; its user is guarded by
   its row until it is completed; and every session of a user made by an attempt was issued after registration of
   that attempt had been completed, unless someone else had changed the user.
   */
  lemma RegistrationIsGuarded(evs: seq<Event>, k: nat)
    requires IsRun(evs) && TameRun(evs) && k <= |evs|
    ensures OneOwner(At(evs, k))
    ensures Safe(At(evs, k)) && (k < |evs| ==> !Unguards(At(evs, k), evs[k]))
  {
    hide IsRun, TameRun, At, Apply, Enabled, Unguards, Safe;
    RunKeepsInv(evs, k);
    InvIsSafe(At(evs, k));
    if k < |evs| {
      RunKeepsInv(evs, k + 1);
      InvIsSafe(At(evs, k + 1));
      AtNext(evs, k);
      SafeStepIff(At(evs, k), evs[k]);
    }
  }

  // ----- the policy of an attempt -------------------------------------------------------------------------------------

  /** A start request of the attempt finds registration enabled under the revision. */
  predicate Checks(w: World, ev: Event, id: nat, revision: nat) {
    && ev.HandlerSteps? && ev.who in w.handlers
    && w.handlers[ev.who].id == id && w.handlers[ev.who].revision == revision && Passes(w, w.handlers[ev.who], ev.ok)
  }

  /** A sign-in of the attempt's user is admitted with the policy found in force under the revision of its row. */
  predicate Admits(w: World, ev: Event, id: nat, revision: nat) {
    && ev.SignInSteps? && ev.who in w.signIns && ev.ok
    && w.signIns[ev.who].id == id && w.signIns[ev.who].phase.Proven? && w.signIns[ev.who].phase.row.revision == revision
    && Allows(w.settings, revision)
  }

  /** The completions recorded are those of such sign-ins, with the revision they checked. */
  lemma AdmissionUnderPolicy(w: World, ev: Event, id: nat)
    requires Enabled(w, ev)
    ensures var next := Apply(w, ev);
      && (id in next.admitted && (id !in w.admitted || next.admitted[id] != w.admitted[id]) ==>
            Admits(w, ev, id, next.admitted[id]))
      && (ev.SignInSteps? && w.signIns[ev.who].phase.Proven? && Admits(w, ev, id, w.signIns[ev.who].phase.row.revision) ==>
            id in next.admitted && next.admitted[id] == w.signIns[ev.who].phase.row.revision)
  {
    hide HandlerStep, CleanStep;
    match ev
    case HandlerSteps(who, ok, holder) => HandlerAlone(w, who, ok, holder);
    case CleanupSteps(who) => CleanAlone(w, who);
    case _ =>
  }

  lemma ChecksRecorded(w: World, ev: Event, id: nat, revision: nat)
    requires Enabled(w, ev)
    ensures (id, revision) in Apply(w, ev).checked <==> (id, revision) in w.checked || Checks(w, ev, id, revision)
  {
    hide CleanStep, SignInStep, NextHandler, NextRow, NextUsers;
    match ev
    case CleanupSteps(who) => CleanAlone(w, who);
    case SignInSteps(who, ok) => SignInAlone(w, who, ok);
    case _ =>
  }

  predicate RowChecked(w: World, id: nat)
    requires id in w.rows
  {
    (id, w.rows[id].revision) in w.checked
  }

  predicate HandlerChecked(w: World, who: nat)
    requires who in w.handlers
  {
    !w.handlers[who].phase.CheckPolicy? && !w.handlers[who].phase.Ended? ==>
      (w.handlers[who].id, w.handlers[who].revision) in w.checked
  }

  predicate SignInChecked(w: World, who: nat)
    requires who in w.signIns
  {
    var s := w.signIns[who];
    s.phase.Pending? || s.phase.Proven? ==> (s.id, s.phase.row.revision) in w.checked
  }

  /** Rows, and sign-ins that go by them, carry a revision that a start request of their attempt found in force. */
  ghost predicate AllChecked(w: World) {
    && (forall id :: id in w.rows ==> RowChecked(w, id))
    && (forall who :: who in w.handlers ==> HandlerChecked(w, who))
    && (forall who :: who in w.signIns ==> SignInChecked(w, who))
  }

  lemma CheckedGrows(w: World, ev: Event)
    requires Enabled(w, ev)
    ensures w.checked <= Apply(w, ev).checked
  {
    hide Apply, Enabled, Checks;
    forall pair | pair in w.checked
      ensures pair in Apply(w, ev).checked
    {
      ChecksRecorded(w, ev, pair.0, pair.1);
    }
  }

  lemma HandlerKeepsChecked(w: World, ev: Event)
    requires AllChecked(w) && Enabled(w, ev) && ev.HandlerSteps?
    ensures AllChecked(Apply(w, ev))
  {
    CheckedGrows(w, ev);
    HandlerAlone(w, ev.who, ev.ok, ev.holder);
    HandlerNames(w, ev);
    var next := Apply(w, ev);
    assert HandlerChecked(w, ev.who);
    assert HandlerChecked(next, ev.who) by { hide AllChecked, NextRow, NextUsers; }
    hide NextUsers;
    forall id | id in next.rows
      ensures RowChecked(next, id)
    {
      assert id in w.rows ==> RowChecked(w, id);
      hide AllChecked, NextHandler;
    }
    hide HandlerStep;
    forall who | who in next.handlers
      ensures HandlerChecked(next, who)
    {
      assert HandlerChecked(w, who);
    }
    forall who | who in next.signIns
      ensures SignInChecked(next, who)
    {
      assert SignInChecked(w, who);
    }
  }

  lemma RestKeepsChecked(w: World, ev: Event)
    requires AllChecked(w) && Enabled(w, ev) && !ev.HandlerSteps?
    ensures AllChecked(Apply(w, ev))
  {
    CheckedGrows(w, ev);
    var next := Apply(w, ev);
    forall id | id in next.rows
      ensures RowChecked(next, id)
    {
      assert id in w.rows && RowChecked(w, id);
    }
    forall who | who in next.handlers
      ensures HandlerChecked(next, who)
    {
      assert who in w.handlers ==> HandlerChecked(w, who);
    }
    forall who | who in next.signIns
      ensures SignInChecked(next, who)
    {
      assert who in w.signIns ==> SignInChecked(w, who);
      var id := next.signIns[who].id;
      assert id in w.rows ==> RowChecked(w, id);
    }
  }

  lemma StartChecked()
    ensures AllChecked(START)
  {
  }

  lemma {:induction false} RunKeepsChecked(evs: seq<Event>, k: nat)
    requires IsRun(evs) && k <= |evs|
    ensures AllChecked(At(evs, k))
    decreases k
  {
    hide IsRun, At, AllChecked, Apply, Enabled;
    if k == 0 {
      AtEnds(evs);
      StartChecked();
    } else {
      RunKeepsChecked(evs, k - 1);
      AtNext(evs, k - 1);
      if evs[k - 1].HandlerSteps? {
        HandlerKeepsChecked(At(evs, k - 1), evs[k - 1]);
      } else {
        RestKeepsChecked(At(evs, k - 1), evs[k - 1]);
      }
    }
  }

  ghost predicate ChecksAt(evs: seq<Event>, k: nat, id: nat, revision: nat)
    requires IsRun(evs) && k < |evs|
  {
    Checks(At(evs, k), evs[k], id, revision)
  }

  ghost predicate AdmitsAt(evs: seq<Event>, k: nat, id: nat, revision: nat)
    requires IsRun(evs) && k < |evs|
  {
    Admits(At(evs, k), evs[k], id, revision)
  }

  lemma {:induction false} CheckedIff(evs: seq<Event>, k: nat, id: nat, revision: nat)
    requires IsRun(evs) && k <= |evs|
    ensures (id, revision) in At(evs, k).checked <==> exists i :: 0 <= i < k && ChecksAt(evs, i, id, revision)
    decreases k
  {
    hide IsRun, At, Apply, Enabled, Checks;
    if k == 0 {
      AtEnds(evs);
    } else {
      CheckedIff(evs, k - 1, id, revision);
      AtNext(evs, k - 1);
      ChecksRecorded(At(evs, k - 1), evs[k - 1], id, revision);
      assert ChecksAt(evs, k - 1, id, revision) <==> Checks(At(evs, k - 1), evs[k - 1], id, revision);
    }
  }

  lemma {:induction false} AdmittedBy(evs: seq<Event>, k: nat, id: nat)
    requires IsRun(evs) && k <= |evs| && id in At(evs, k).admitted
    ensures exists i :: 0 <= i < k && AdmitsAt(evs, i, id, At(evs, k).admitted[id])
    decreases k
  {
    hide IsRun, At, Apply, Enabled, Admits;
    if k == 0 {
      AtEnds(evs);
      assert false;
    } else {
      AtNext(evs, k - 1);
      var before := At(evs, k - 1);
      AdmissionUnderPolicy(before, evs[k - 1], id);
      if id in before.admitted && before.admitted[id] == At(evs, k).admitted[id] {
        AdmittedBy(evs, k - 1, id);
      } else {
        assert AdmitsAt(evs, k - 1, id, At(evs, k).admitted[id]);
      }
    }
  }

  lemma AdmitsWhatWasChecked(evs: seq<Event>, k: nat, id: nat, revision: nat)
    requires IsRun(evs) && k < |evs| && AdmitsAt(evs, k, id, revision)
    ensures exists i :: 0 <= i < k && ChecksAt(evs, i, id, revision)
  {
    RunKeepsChecked(evs, k);
    assert SignInChecked(At(evs, k), evs[k].who);
    CheckedIff(evs, k, id, revision);
  }

  /**
   At moment `k` a sign-in of the attempt's user is admitted; some start request of the attempt has passed its policy
   check under the same revision before, and registration has been enabled under it ever since the first that has.
   */
  ghost predicate Uninterrupted(evs: seq<Event>, k: nat, id: nat, revision: nat)
    requires IsRun(evs)
  {
    && k < |evs| && AdmitsAt(evs, k, id, revision)
    && (exists i :: 0 <= i < k && ChecksAt(evs, i, id, revision))
    && (forall i, j :: 0 <= i < k && ChecksAt(evs, i, id, revision) && i <= j <= k ==> AllowedAt(evs, j, revision))
  }

  lemma AdmittedUninterrupted(evs: seq<Event>, n: nat, id: nat)
    requires IsRun(evs) && UnhurriedRun(evs) && n <= |evs| && id in At(evs, n).admitted
    ensures exists k: nat, revision: nat :: k < n && Uninterrupted(evs, k, id, revision)
  {
    var revision := At(evs, n).admitted[id];
    AdmittedBy(evs, n, id);
    var k :| 0 <= k < n && AdmitsAt(evs, k, id, revision);
    AdmitsWhatWasChecked(evs, k, id, revision);
    assert AllowedAt(evs, k, revision);
    forall i, j | 0 <= i < k && ChecksAt(evs, i, id, revision) && i <= j <= k
      ensures AllowedAt(evs, j, revision)
    {
      assert AllowedAt(evs, i, revision);
      hide IsRun, UnhurriedRun, At, ChecksAt, AllowedAt;
      EnabledWithoutInterruption(evs, i, k, revision);
    }
    hide IsRun, UnhurriedRun, At, ChecksAt, AdmitsAt, AllowedAt;
    assert Uninterrupted(evs, k, id, revision);
  }

  /**
   Whenever a user that nobody else has edited has a session, a sign-in of that user was admitted before, and
   registration had been enabled, under the revision of the attempt, without interruption since the attempt began:
   since every start request of it that had passed its check under that revision.
   */
  lemma AttemptNeverInterrupted(evs: seq<Event>, n: nat, who: nat)
    requires IsRun(evs) && UnhurriedRun(evs) && TameRun(evs) && n <= |evs|
    requires var w := At(evs, n);
      who in w.signIns && w.signIns[who].phase.Issued? && w.signIns[who].id !in w.edited
    ensures exists k: nat, revision: nat :: k < n && Uninterrupted(evs, k, At(evs, n).signIns[who].id, revision)
  {
    hide IsRun, UnhurriedRun, TameRun, At, Uninterrupted, Unguards;
    RegistrationIsGuarded(evs, n);
    assert SignInEarned(At(evs, n), who);
    AdmittedUninterrupted(evs, n, At(evs, n).signIns[who].id);
  }

  // ----- who comes to own an attempt, and whom the hook admits ------------------------------------------------------

  /** At moment `i` the handler takes a step in this phase. */
  ghost predicate HandlerAt(evs: seq<Event>, i: nat, who: nat, phase: Phase)
    requires IsRun(evs) && i < |evs|
  {
    evs[i].HandlerSteps? && evs[i].who == who && who in At(evs, i).handlers && At(evs, i).handlers[who].phase == phase
  }

  /** At moment `i` the handler inserts the row of its attempt, which had none. */
  ghost predicate InsertsAt(evs: seq<Event>, i: nat, who: nat, id: nat)
    requires IsRun(evs) && i < |evs|
  {
    HandlerAt(evs, i, who, InsertRow) && id !in At(evs, i).rows
  }

  /** At moment `i` the handler finds a row made by the same input, failed or expired, before its time is over. */
  ghost predicate FindsOwnAt(evs: seq<Event>, i: nat, who: nat, h: Handler)
    requires IsRun(evs) && i < |evs|
  {
    HandlerAt(evs, i, who, ReadRow) && h.id in At(evs, i).rows &&
    var row := At(evs, i).rows[h.id];
    row.fingerprint == h.fingerprint && At(evs, i).now < row.expiresAt && (row.status.Failed? || row.status.Expired?)
  }

  /** At moment `i` the handler claims the row of its attempt, which has failed. */
  ghost predicate ClaimsAt(evs: seq<Event>, i: nat, who: nat, id: nat)
    requires IsRun(evs) && i < |evs|
  {
    HandlerAt(evs, i, who, ClaimRow) && id in At(evs, i).rows && At(evs, i).rows[id].status.Failed?
  }

  ghost predicate OwnerTrail(evs: seq<Event>, k: nat, who: nat)
    requires IsRun(evs) && k <= |evs| && who in At(evs, k).handlers
  {
    var h := At(evs, k).handlers[who];
    && (h.phase.ClaimRow? ==> exists i :: 0 <= i < k && FindsOwnAt(evs, i, who, h))
    && (Owns(h.phase) ==>
          || (exists i :: 0 <= i < k && InsertsAt(evs, i, who, h.id))
          || exists i, j :: 0 <= i < j < k && FindsOwnAt(evs, i, who, h) && ClaimsAt(evs, j, who, h.id))
  }

  /** What one step does to the phase of its handler, told by the row. */
  lemma HandlerMoves(w: World, ev: Event)
    requires Enabled(w, ev) && ev.HandlerSteps?
    ensures var h, next := w.handlers[ev.who], Apply(w, ev);
      var g := next.handlers[ev.who];
      && g.id == h.id && g.fingerprint == h.fingerprint && g.revision == h.revision
      && (g.phase.ClaimRow? ==>
            h.phase.ReadRow? && h.id in w.rows && w.rows[h.id].fingerprint == h.fingerprint
            && w.now < w.rows[h.id].expiresAt && (w.rows[h.id].status.Failed? || w.rows[h.id].status.Expired?))
      && (Owns(g.phase) && !Owns(h.phase) ==>
            || (h.phase.InsertRow? && h.id !in w.rows)
            || (h.phase.ClaimRow? && h.id in w.rows && w.rows[h.id].status.Failed?))
  {
    hide NextRow, NextUsers;
  }

  lemma OtherHandlersStand(w: World, ev: Event, who: nat)
    requires Enabled(w, ev) && who in Apply(w, ev).handlers && !(ev.HandlerSteps? && ev.who == who)
    ensures if who in w.handlers then Apply(w, ev).handlers[who] == w.handlers[who]
            else Apply(w, ev).handlers[who].phase.CheckPolicy?
  {
    hide NextHandler, NextRow, NextUsers, CleanStep, SignInStep;
    match ev
    case CleanupSteps(c) => CleanAlone(w, c);
    case SignInSteps(s, ok) => SignInAlone(w, s, ok);
    case _ =>
  }

  lemma OwnerTrailStays(evs: seq<Event>, k: nat, who: nat)
    requires IsRun(evs) && 0 < k <= |evs| && who in At(evs, k - 1).handlers && OwnerTrail(evs, k - 1, who)
    requires who in At(evs, k).handlers && At(evs, k).handlers[who] == At(evs, k - 1).handlers[who]
    ensures OwnerTrail(evs, k, who)
  {
    hide IsRun, At, FindsOwnAt, InsertsAt, ClaimsAt, Owns;
  }

  lemma OwnerTrailGoesOn(evs: seq<Event>, k: nat, who: nat)
    requires IsRun(evs) && 0 < k <= |evs| && who in At(evs, k - 1).handlers && OwnerTrail(evs, k - 1, who)
    requires evs[k - 1].HandlerSteps? && evs[k - 1].who == who
    requires Enabled(At(evs, k - 1), evs[k - 1]) && At(evs, k) == Apply(At(evs, k - 1), evs[k - 1])
    requires who in At(evs, k).handlers
    ensures OwnerTrail(evs, k, who)
  {
    HandlerMoves(At(evs, k - 1), evs[k - 1]);
    hide IsRun, At, Apply, Enabled, Owns;
    var h, g := At(evs, k - 1).handlers[who], At(evs, k).handlers[who];
    assert HandlerAt(evs, k - 1, who, h.phase);
    assert forall i :: 0 <= i < k - 1 ==> (FindsOwnAt(evs, i, who, h) <==> FindsOwnAt(evs, i, who, g));
    if g.phase.ClaimRow? {
      assert FindsOwnAt(evs, k - 1, who, g);
    }
    if Owns(g.phase) && !Owns(h.phase) {
      if h.phase.InsertRow? {
        assert InsertsAt(evs, k - 1, who, g.id);
      } else {
        assert ClaimsAt(evs, k - 1, who, g.id);
        var i :| 0 <= i < k - 1 && FindsOwnAt(evs, i, who, h);
        assert FindsOwnAt(evs, i, who, g);
      }
    }
  }

  /**
   Every run: a handler owns its attempt only after it has inserted the row of an attempt without one, or has found a
   row of the very same input, failed or expired but not past its time, and has then claimed it failed.
   */
  lemma {:induction false} OwnersHaveClaimed(evs: seq<Event>, k: nat, who: nat)
    requires IsRun(evs) && k <= |evs| && who in At(evs, k).handlers
    ensures OwnerTrail(evs, k, who)
    decreases k
  {
    hide IsRun, At, Apply, Enabled;
    if k == 0 {
      AtEnds(evs);
      assert false;
    } else {
      AtNext(evs, k - 1);
      var ev := evs[k - 1];
      if ev.HandlerSteps? && ev.who == who {
        HandlerKnown(At(evs, k - 1), ev);
        OwnersHaveClaimed(evs, k - 1, who);
        OwnerTrailGoesOn(evs, k, who);
      } else {
        OtherHandlersStand(At(evs, k - 1), ev, who);
        if who in At(evs, k - 1).handlers {
          OwnersHaveClaimed(evs, k - 1, who);
          OwnerTrailStays(evs, k, who);
        }
      }
    }
  }

  lemma HandlerKnown(w: World, ev: Event)
    requires Enabled(w, ev) && ev.HandlerSteps?
    ensures ev.who in w.handlers
  {
  }

  /** At moment `i` the sign-in finds this row, sent or verified while pending. */
  ghost predicate FindsRowAt(evs: seq<Event>, i: nat, who: nat, id: nat, row: Row)
    requires IsRun(evs) && i < |evs|
  {
    && evs[i].SignInSteps? && evs[i].who == who && who in At(evs, i).signIns && At(evs, i).signIns[who] == SignIn(id, Found)
    && id in At(evs, i).rows && At(evs, i).rows[id] == row && (row.status.Sent? || row.status.VerifiedPending?)
  }

  /** At moment `i` the sign-in finds its user verified, as the attempt made it. */
  ghost predicate FindsVerifiedAt(evs: seq<Event>, i: nat, who: nat, id: nat)
    requires IsRun(evs) && i < |evs|
  {
    && evs[i].SignInSteps? && evs[i].who == who
    && id in At(evs, i).users && At(evs, i).users[id].verified && id !in At(evs, i).edited
  }

  ghost predicate SignInTrail(evs: seq<Event>, k: nat, who: nat)
    requires IsRun(evs) && k <= |evs| && who in At(evs, k).signIns
  {
    var s := At(evs, k).signIns[who];
    && (s.phase.Pending? || s.phase.Proven? ==> exists i :: 0 <= i < k && FindsRowAt(evs, i, who, s.id, s.phase.row))
    && (s.phase.Proven? ==> exists i :: 0 <= i < k && FindsVerifiedAt(evs, i, who, s.id))
  }

  lemma SignInMoves(w: World, ev: Event)
    requires Enabled(w, ev) && ev.SignInSteps?
    ensures var s, t := w.signIns[ev.who], Apply(w, ev).signIns[ev.who];
      && t.id == s.id
      && (t.phase.Pending? ==>
            s.phase.Found? && s.id in w.rows && t.phase.row == w.rows[s.id]
            && (w.rows[s.id].status.Sent? || w.rows[s.id].status.VerifiedPending?))
      && (t.phase.Proven? ==>
            s.phase == Pending(t.phase.row) && s.id in w.users && w.users[s.id].verified && s.id !in w.edited)
  {
  }

  lemma OtherSignInsStand(w: World, ev: Event, who: nat)
    requires Enabled(w, ev) && who in Apply(w, ev).signIns && !(ev.SignInSteps? && ev.who == who)
    ensures if who in w.signIns then Apply(w, ev).signIns[who] == w.signIns[who]
            else Apply(w, ev).signIns[who].phase.Found?
  {
    hide NextSignIn, HandlerStep, CleanStep;
    match ev
    case CleanupSteps(c) => CleanAlone(w, c);
    case HandlerSteps(h, ok, holder) => HandlerAlone(w, h, ok, holder);
    case _ =>
  }

  lemma SignInKnown(w: World, ev: Event)
    requires Enabled(w, ev) && ev.SignInSteps?
    ensures ev.who in w.signIns
  {
  }

  lemma {:induction false} HasSignInTrail(evs: seq<Event>, k: nat, who: nat)
    requires IsRun(evs) && k <= |evs| && who in At(evs, k).signIns
    ensures SignInTrail(evs, k, who)
    decreases k
  {
    hide IsRun, At, Apply, Enabled;
    if k == 0 {
      AtEnds(evs);
      assert false;
    } else {
      AtNext(evs, k - 1);
      var ev := evs[k - 1];
      if ev.SignInSteps? && ev.who == who {
        SignInKnown(At(evs, k - 1), ev);
        HasSignInTrail(evs, k - 1, who);
        SignInTrailGoesOn(evs, k, who);
      } else {
        OtherSignInsStand(At(evs, k - 1), ev, who);
        if who in At(evs, k - 1).signIns {
          HasSignInTrail(evs, k - 1, who);
          hide FindsRowAt, FindsVerifiedAt;
        }
      }
    }
  }

  lemma SignInTrailGoesOn(evs: seq<Event>, k: nat, who: nat)
    requires IsRun(evs) && 0 < k <= |evs| && who in At(evs, k - 1).signIns && SignInTrail(evs, k - 1, who)
    requires evs[k - 1].SignInSteps? && evs[k - 1].who == who
    requires Enabled(At(evs, k - 1), evs[k - 1]) && At(evs, k) == Apply(At(evs, k - 1), evs[k - 1])
    requires who in At(evs, k).signIns
    ensures SignInTrail(evs, k, who)
  {
    SignInMoves(At(evs, k - 1), evs[k - 1]);
    hide IsRun, At, Apply, Enabled;
    var s, t := At(evs, k - 1).signIns[who], At(evs, k).signIns[who];
    if t.phase.Pending? {
      assert s == SignIn(s.id, Found);
      assert FindsRowAt(evs, k - 1, who, t.id, t.phase.row);
    }
    if t.phase.Proven? {
      assert FindsVerifiedAt(evs, k - 1, who, t.id);
      var i :| 0 <= i < k - 1 && FindsRowAt(evs, i, who, s.id, s.phase.row);
      assert FindsRowAt(evs, i, who, t.id, t.phase.row);
    }
  }

  /**
   Every run: a sign-in is admitted only after it has found the row of its user sent, or verified while pending, with
   the revision it then checks, and the user verified and as the attempt made it. An expired, failed or half-made
   attempt admits nobody.
   */
  lemma AdmittedIsVerified(evs: seq<Event>, k: nat, id: nat, revision: nat)
    requires IsRun(evs) && k < |evs| && AdmitsAt(evs, k, id, revision)
    ensures exists i, row :: 0 <= i < k && FindsRowAt(evs, i, evs[k].who, id, row) && row.revision == revision
    ensures exists i :: 0 <= i < k && FindsVerifiedAt(evs, i, evs[k].who, id)
  {
    HasSignInTrail(evs, k, evs[k].who);
    hide IsRun, At, FindsRowAt, FindsVerifiedAt;
  }

  // ----- what the service never takes back, and that it does its work -----------------------------------------

  /**
   The service removes a user only by the two deletes of an attempt's own user, and then one that is not verified, that
   nobody has edited, and that has never had a session.
   */
  lemma OnlyOwnUsersGo(w: World, ev: Event, id: nat)
    requires Enabled(w, ev) && id in w.users && id !in Apply(w, ev).users && !ev.UserRemoved?
    ensures !w.users[id].verified && id !in w.edited && id !in w.sessions
    ensures
      || (ev.HandlerSteps? && w.handlers[ev.who].phase.RemoveOwned? && w.handlers[ev.who].id == id)
      || (ev.CleanupSteps? && w.cleaners[ev.who].phase.RemoveUser? && w.cleaners[ev.who].id == id
          && !w.cleaners[ev.who].row.status.Completed? && !w.cleaners[ev.who].row.status.Existing?)
  {
    hide NextHandler, NextRow, NextCleaner, SignInStep;
    match ev
    case SignInSteps(who, ok) => SignInAlone(w, who, ok);
    case _ =>
  }

  /** Which step has this handler, of this attempt, in this phase. */
  predicate StepOf(w: World, ev: Event, id: nat, phase: Phase) {
    ev.HandlerSteps? && ev.who in w.handlers && w.handlers[ev.who].id == id && w.handlers[ev.who].phase == phase
  }

  predicate CleansAt(w: World, ev: Event, id: nat, phase: CleanPhase) {
    ev.CleanupSteps? && ev.who in w.cleaners && w.cleaners[ev.who].id == id && w.cleaners[ev.who].phase == phase
  }

  predicate FinishesAt(w: World, ev: Event, id: nat) {
    ev.SignInSteps? && ev.who in w.signIns && w.signIns[ev.who] == SignIn(id, Admitted)
  }

  /**
   The life of a row. It is inserted as being created; it becomes sent, or failed, only from there, and is created
   again only from failed; it is completed by an admitted sign-in from sent or from verified while pending, and from
   nowhere else; the other marks and the delete are the cleanup's and the handler's that finds the address taken.
   Nothing but its status ever changes.
   */
  lemma RowMoves(w: World, ev: Event, id: nat)
    requires Enabled(w, ev)
    ensures var next := Apply(w, ev);
      && (id !in w.rows ==>
            (id in next.rows <==> StepOf(w, ev, id, InsertRow))
            && (id in next.rows ==>
                  next.rows[id]
                  == Row(w.handlers[ev.who].revision, w.handlers[ev.who].fingerprint, Creating, w.now + DAY)))
      && (id in w.rows ==>
            var row := w.rows[id];
            && (id !in next.rows <==> CleansAt(w, ev, id, DeleteRow))
            && (id in next.rows ==>
                  next.rows[id] == row.(status :=
                    if StepOf(w, ev, id, ClaimRow) && row.status.Failed? then Creating
                    else if StepOf(w, ev, id, MarkSent) && ev.ok && row.status.Creating? then Sent
                    else if StepOf(w, ev, id, MarkFailed) && row.status.Creating? then Failed
                    else if StepOf(w, ev, id, MarkExisting) && ev.ok then Existing
                    else if FinishesAt(w, ev, id) && (row.status.Sent? || row.status.VerifiedPending?) then Completed
                    else if CleansAt(w, ev, id, Mark(true)) then VerifiedPending
                    else if CleansAt(w, ev, id, Mark(false)) then Expired
                    else row.status)))
  {
    hide NextHandler, NextUsers, NextCleaner, NextSignIn;
  }

  /** The three steps of a cleanup over one row, without anyone else in between. */
  function CleanAtOnce(w: World, who: nat): World
    requires who in w.cleaners
  {
    CleanStep(CleanStep(CleanStep(w, who), who), who)
  }

  /**
   What a cleanup makes of a row it has read, undisturbed: a finished one goes; the user of another goes if it is still
   as it was made and unused, and the row with it; and what is left is kept as a guard, open to its user only if that
   has been verified after the mail was sent and is still as the attempt made it.
   */
  lemma CleanupDecides(w: World, who: nat)
    requires who in w.cleaners && w.cleaners[who].phase.RemoveUser?
    requires var c := w.cleaners[who]; c.id in w.rows && w.rows[c.id] == c.row
    ensures var c, next := w.cleaners[who], CleanAtOnce(w, who);
      var finished := c.row.status.Completed? || c.row.status.Existing?;
      var unused := c.id in w.users && !w.users[c.id].verified && c.id !in w.edited && c.id !in w.sessions;
      && (c.id in next.rows <==> !finished && c.id in w.users && !unused)
      && (c.id in next.users <==> c.id in w.users && (finished || !unused))
      && (c.id in next.rows ==>
            next.rows[c.id] == c.row.(
              status := if w.users[c.id].verified && c.id !in w.edited && c.row.status.Sent? then VerifiedPending
                        else Expired))
  {
    var a := CleanStep(w, who);
    var b := CleanStep(a, who);
    assert a.cleaners[who].id == w.cleaners[who].id && a.cleaners[who].row == w.cleaners[who].row;
    assert b.cleaners[who].id == w.cleaners[who].id && b.users == a.users && b.rows == w.rows;
  }

  /** The attempt `h`, worked on by the request `who`, with its row and its user, while all else is as in `w`. */
  ghost predicate Attempt(at: World, w: World, who: nat, h: Handler, row: Option<Row>, user: Option<User>) {
    && at.settings == w.settings && at.edited == w.edited && at.sessions == w.sessions && at.signIns == w.signIns
    && at.now == w.now
    && who in at.handlers && at.handlers[who] == h
    && (if row.Some? then h.id in at.rows && at.rows[h.id] == row.value else h.id !in at.rows)
    && (if user.Some? then h.id in at.users && at.users[h.id] == user.value else h.id !in at.users)
  }

  /** One step of the undisturbed request. */
  lemma Advances(evs: seq<Event>, from: World, at: World, w: World, who: nat, h: Handler, row: Option<Row>, user: Option<User>)
      returns (next: World)
    requires Run(from, evs) == Some(at) && Attempt(at, w, who, h, row, user) && h.id !in w.edited
    requires !h.phase.Ended? && !h.phase.RemoveOwned? && !h.phase.MarkExisting? && !h.phase.MarkFailed? && !h.phase.ClaimRow?
    requires h.phase.CheckPolicy? ==> Allows(w.settings, h.revision)
    requires h.phase.FindUser? || h.phase.CreateUser? ==> user.None?
    requires h.phase.ReadRow? || h.phase.InsertRow? ==> row.None?
    requires h.phase.MarkSent? ==> row.Some? && row.value.status.Creating?
    ensures Run(from, evs + [HandlerSteps(who, true, Nobody)]) == Some(next)
    ensures Attempt(next, w, who,
      match h.phase
      case CheckPolicy => h.(phase := ReadRow)
      case ReadRow => h.(phase := InsertRow)
      case InsertRow => h.(phase := FindUser, expiresAt := w.now + DAY)
      case FindUser => h.(phase := CreateUser)
      case CreateUser => h.(phase := SendMail)
      case SendMail => h.(phase := MarkSent)
      case _ => h.(phase := Ended),
      if h.phase.InsertRow? then Some(Row(h.revision, h.fingerprint, Creating, w.now + DAY))
      else if h.phase.MarkSent? then Some(row.value.(status := Sent)) else row,
      if h.phase.CreateUser? then Some(User(false)) else user)
  {
    hide Run;
    next := Apply(at, HandlerSteps(who, true, Nobody));
    RunThen(from, evs, HandlerSteps(who, true, Nobody));
  }

  /** A start request that nobody disturbs comes to own its attempt, */
  lemma StartInserts(w: World, who: nat, id: nat, revision: nat, fingerprint: nat) returns (evs: seq<Event>, next: World)
    requires Allows(w.settings, revision) && id !in w.rows && id !in w.users && id !in w.edited && who !in w.handlers
    ensures Run(w, evs) == Some(next)
    ensures Attempt(next, w, who, Handler(id, revision, fingerprint, FindUser, w.now + DAY),
                    Some(Row(revision, fingerprint, Creating, w.now + DAY)), None)
  {
    var h := Handler(id, revision, fingerprint, CheckPolicy, 0);
    var step := HandlerSteps(who, true, Nobody);
    assert Run(w, []) == Some(w);
    RunThen(w, [], Starts(who, id, revision, fingerprint));
    evs := [] + [Starts(who, id, revision, fingerprint)];
    next := Apply(w, Starts(who, id, revision, fingerprint));
    assert Attempt(next, w, who, h, None, None);
    hide Run, Attempt, Apply, Enabled;
    next := Advances(evs, w, next, w, who, h, None, None);
    evs := evs + [step];
    next := Advances(evs, w, next, w, who, h.(phase := ReadRow), None, None);
    evs := evs + [step];
    next := Advances(evs, w, next, w, who, h.(phase := InsertRow), None, None);
    evs := evs + [step];
  }

  /** and makes an unverified user behind a row that waits for its sign-in. */
  lemma StartCompletes(w: World, who: nat, id: nat, revision: nat, fingerprint: nat) returns (evs: seq<Event>, next: World)
    requires Allows(w.settings, revision) && id !in w.rows && id !in w.users && id !in w.edited && who !in w.handlers
    ensures Run(w, evs) == Some(next)
    ensures Attempt(next, w, who, Handler(id, revision, fingerprint, Ended, w.now + DAY),
                    Some(Row(revision, fingerprint, Sent, w.now + DAY)), Some(User(false)))
  {
    var owner := Handler(id, revision, fingerprint, FindUser, w.now + DAY);
    var row := Row(revision, fingerprint, Creating, w.now + DAY);
    var step := HandlerSteps(who, true, Nobody);
    hide Run, Attempt, Apply, Enabled, Allows;
    evs, next := StartInserts(w, who, id, revision, fingerprint);
    next := Advances(evs, w, next, w, who, owner, Some(row), None);
    evs := evs + [step];
    next := Advances(evs, w, next, w, who, owner.(phase := CreateUser), Some(row), None);
    evs := evs + [step];
    next := Advances(evs, w, next, w, who, owner.(phase := SendMail), Some(row), Some(User(false)));
    evs := evs + [step];
    next := Advances(evs, w, next, w, who, owner.(phase := MarkSent), Some(row), Some(User(false)));
    evs := evs + [step];
  }

  /** The hook admits a verified user behind its sent row. */
  lemma AdmissionStarts(w: World, evs: seq<Event>, from: World, who: nat, id: nat, row: Row)
    requires Run(from, evs) == Some(w)
    requires id in w.rows && w.rows[id] == row && row.status.Sent? && Allows(w.settings, row.revision)
    requires id in w.users && w.users[id].verified && id !in w.edited && who !in w.signIns
    ensures var step := SignInSteps(who, true);
      Run(from, evs + [SignInFinds(who, id)] + [step] + [step] + [step])
      == Some(w.(signIns := w.signIns[who := SignIn(id, Admitted)], admitted := w.admitted[id := row.revision]))
  {
    var a := w.(signIns := w.signIns[who := SignIn(id, Found)]);
    var b := w.(signIns := w.signIns[who := SignIn(id, Pending(row))]);
    var c := w.(signIns := w.signIns[who := SignIn(id, Proven(row))]);
    var step := SignInSteps(who, true);
    hide Run;
    RunThen(from, evs, SignInFinds(who, id));
    SignInGoes(a, who, b);
    RunThen(from, evs + [SignInFinds(who, id)], step);
    SignInGoes(b, who, c);
    RunThen(from, evs + [SignInFinds(who, id)] + [step], step);
    var d := w.(signIns := w.signIns[who := SignIn(id, Admitted)], admitted := w.admitted[id := row.revision]);
    assert SignInStep(c, who, true).signIns == d.signIns;
    RunThen(from, evs + [SignInFinds(who, id)] + [step] + [step], step);
  }

  lemma SignInGoes(w: World, who: nat, next: World)
    requires who in w.signIns && (w.signIns[who].phase.Found? || w.signIns[who].phase.Pending?)
    requires next == w.(signIns := next.signIns)
    requires next.signIns == w.signIns[who := NextSignIn(w, w.signIns[who], true)]
    ensures SignInStep(w, who, true) == next
  {
  }

  lemma AdmissionEnds(w: World, who: nat, id: nat, evs: seq<Event>, from: World)
    requires Run(from, evs) == Some(w) && who in w.signIns && w.signIns[who] == SignIn(id, Admitted)
    requires id in w.rows && w.rows[id].status.Sent? && id in w.users
    ensures var next := Run(from, evs + [SignInSteps(who, true)] + [SignInSteps(who, true)]);
      && next.Some? && who in next.value.signIns && next.value.signIns[who] == SignIn(id, Issued)
      && id in next.value.sessions && id in next.value.rows && next.value.rows[id].status.Completed?
      && next.value.admitted == w.admitted
  {
    hide Run;
    var step := SignInSteps(who, true);
    RunThen(from, evs, step);
    RunThen(from, evs + [step], step);
  }

  /**
   Registration works: wherever it is enabled, a new attempt that nobody disturbs can be started, its mail sent, its
   user verified and signed in, and ends completed under its revision, with a session.
   */
  lemma RegistrationCompletes(w: World, who: nat, id: nat, revision: nat, fingerprint: nat) returns (evs: seq<Event>)
    requires Allows(w.settings, revision) && id !in w.rows && id !in w.users && id !in w.edited
    requires who !in w.handlers && who !in w.signIns
    ensures Run(w, evs).Some? && var next := Run(w, evs).value;
      && who in next.signIns && next.signIns[who] == SignIn(id, Issued) && id in next.sessions
      && id in next.rows && next.rows[id].status.Completed? && id in next.admitted && next.admitted[id] == revision
  {
    var made: World;
    evs, made := StartCompletes(w, who, id, revision, fingerprint);
    var row := Row(revision, fingerprint, Sent, w.now + DAY);
    RunThen(w, evs, UserVerifies(id));
    evs := evs + [UserVerifies(id)];
    var verified := Apply(made, UserVerifies(id));
    hide Run;
    var step := SignInSteps(who, true);
    AdmissionStarts(verified, evs, w, who, id, row);
    evs := evs + [SignInFinds(who, id)] + [step] + [step] + [step];
    var at := verified.(signIns := verified.signIns[who := SignIn(id, Admitted)],
                        admitted := verified.admitted[id := row.revision]);
    AdmissionEnds(at, who, id, evs, w);
    evs := evs + [step] + [step];
  }

  // ----- an owner in time whose guard is deleted all the same ----------------------------------------------------

  ghost predicate InTimeRun(evs: seq<Event>)
    requires IsRun(evs)
  {
    forall k :: 0 <= k < |evs| ==> InTime(At(evs, k), evs[k])
  }

  /** The run `evs` ends in `w`, and every owner has been in time. */
  ghost predicate Reaches(evs: seq<Event>, w: World) {
    IsRun(evs) && InTimeRun(evs) && Run(START, evs) == Some(w)
  }

  lemma ReachesNext(evs: seq<Event>, w: World, ev: Event)
    requires Reaches(evs, w) && Enabled(w, ev) && InTime(w, ev)
    ensures Reaches(evs + [ev], Apply(w, ev))
  {
    hide Apply, Enabled, InTime, Run;
    var more := evs + [ev];
    RunThen(START, evs, ev);
    AtEnds(evs);
    forall k | 0 <= k < |more|
      ensures InTime(At(more, k), more[k])
    {
      assert more[..k] == evs[..k] && (k < |evs| ==> more[k] == evs[k]);
    }
  }

  /** Registration enabled under revision 7; the attempts' rows, users and sign-ins are of number 5. */
  function Enabled7(rows: map<nat, Row>, users: map<nat, User>, handlers: map<nat, Handler>, cleaners: map<nat, Cleaner>,
                    now: nat, checked: set<(nat, nat)>): World {
    World(Some(Settings(true, 7)), map[], rows, users, {}, handlers, cleaners, map[], now, {7}, checked, {}, map[])
  }

  const FIRST := Row(7, 9, Creating, DAY)
  const SECOND := Row(7, 9, Creating, 2 * DAY + 1)

  /** A start request inserts its row and stops there. */
  lemma FirstStops() returns (evs: seq<Event>)
    ensures Reaches(evs, Enabled7(map[5 := FIRST], map[], map[1 := Handler(5, 7, 9, FindUser, DAY)], map[], 0, {(5, 7)}))
  {
    var a := START.(writers := map[0 := None]);
    var b := Enabled7(map[], map[], map[], map[], 0, {});
    var c := Enabled7(map[], map[], map[1 := Handler(5, 7, 9, CheckPolicy, 0)], map[], 0, {});
    var d := Enabled7(map[], map[], map[1 := Handler(5, 7, 9, ReadRow, 0)], map[], 0, {(5, 7)});
    var e := Enabled7(map[], map[], map[1 := Handler(5, 7, 9, InsertRow, 0)], map[], 0, {(5, 7)});
    var f := Enabled7(map[5 := FIRST], map[], map[1 := Handler(5, 7, 9, FindUser, DAY)], map[], 0, {(5, 7)});
    assert Apply(START, SettingsRead(0)) == a;
    assert Apply(a, SettingsWritten(0, Put(true), 7)) == b;
    assert Apply(b, Starts(1, 5, 7, 9)) == c;
    var step := HandlerSteps(1, true, Nobody);
    assert Apply(c, step) == d;
    assert Apply(d, step) == e;
    assert Apply(e, step) == f;
    assert Reaches([], START);
    hide Reaches, Apply;
    ReachesNext([], START, SettingsRead(0));
    ReachesNext([] + [SettingsRead(0)], a, SettingsWritten(0, Put(true), 7));
    evs := [] + [SettingsRead(0)] + [SettingsWritten(0, Put(true), 7)];
    ReachesNext(evs, b, Starts(1, 5, 7, 9));
    evs := evs + [Starts(1, 5, 7, 9)];
    ReachesNext(evs, c, step);
    ReachesNext(evs + [step], d, step);
    ReachesNext(evs + [step] + [step], e, step);
    evs := evs + [step] + [step] + [step];
  }

  const STOPPED: Handler := Handler(5, 7, 9, FindUser, DAY)

  function CleanersAt(one: CleanPhase, two: CleanPhase): map<nat, Cleaner> {
    map[1 := Cleaner(5, FIRST, one), 2 := Cleaner(5, FIRST, two)]
  }

  /** A day later two cleanups read the row; one stops before its delete, the other deletes the row. */
  lemma TwoCleanups(before: seq<Event>) returns (evs: seq<Event>)
    requires Reaches(before, Enabled7(map[5 := FIRST], map[], map[1 := STOPPED], map[], 0, {(5, 7)}))
    ensures Reaches(evs, Enabled7(map[], map[], map[1 := STOPPED], CleanersAt(DeleteRow, Cleaned), DAY + 1, {(5, 7)}))
  {
    hide Reaches, HandlerStep, SignInStep;
    var row := map[5 := FIRST];
    var f := Enabled7(row, map[], map[1 := STOPPED], map[], 0, {(5, 7)});
    var g := f.(now := DAY + 1);
    var h := g.(cleaners := map[1 := Cleaner(5, FIRST, RemoveUser)]);
    var i := g.(cleaners := CleanersAt(RemoveUser, RemoveUser));
    var j := g.(cleaners := CleanersAt(ReadUser, RemoveUser));
    var k := g.(cleaners := CleanersAt(DeleteRow, RemoveUser));
    var l := g.(cleaners := CleanersAt(DeleteRow, ReadUser));
    var m := g.(cleaners := CleanersAt(DeleteRow, DeleteRow));
    var n := g.(cleaners := CleanersAt(DeleteRow, Cleaned), rows := map[]);
    assert Apply(f, TimePasses(DAY + 1)) == g;
    assert Apply(g, CleanupReads(1, 5)) == h;
    assert Apply(h, CleanupReads(2, 5)) == i;
    assert Apply(i, CleanupSteps(1)) == j;
    assert Apply(j, CleanupSteps(1)) == k;
    assert Apply(k, CleanupSteps(2)) == l;
    assert Apply(l, CleanupSteps(2)) == m;
    assert Apply(m, CleanupSteps(2)) == n;
    hide Apply, Enabled7, CleanersAt;
    ReachesNext(before, f, TimePasses(DAY + 1));
    evs := before + [TimePasses(DAY + 1)];
    ReachesNext(evs, g, CleanupReads(1, 5));
    evs := evs + [CleanupReads(1, 5)];
    ReachesNext(evs, h, CleanupReads(2, 5));
    evs := evs + [CleanupReads(2, 5)];
    ReachesNext(evs, i, CleanupSteps(1));
    ReachesNext(evs + [CleanupSteps(1)], j, CleanupSteps(1));
    evs := evs + [CleanupSteps(1)] + [CleanupSteps(1)];
    ReachesNext(evs, k, CleanupSteps(2));
    ReachesNext(evs + [CleanupSteps(2)], l, CleanupSteps(2));
    ReachesNext(evs + [CleanupSteps(2)] + [CleanupSteps(2)], m, CleanupSteps(2));
    evs := evs + [CleanupSteps(2)] + [CleanupSteps(2)] + [CleanupSteps(2)];
  }

  /** One cleanup has deleted the row, the other is about to delete it again. */
  const CLEANED: World := Enabled7(map[], map[], map[1 := STOPPED], CleanersAt(DeleteRow, Cleaned), DAY + 1, {(5, 7)})

  function With(handler: Handler): World {
    CLEANED.(handlers := map[1 := STOPPED, 2 := handler])
  }

  const AGAIN: Handler := Handler(5, 7, 9, CheckPolicy, 0)
  const OWNER: Handler := Handler(5, 7, 9, FindUser, 2 * DAY + 1)

  /** A step that an owner takes in time. */
  ghost predicate Leads(w: World, ev: Event, next: World) {
    Enabled(w, ev) && InTime(w, ev) && Apply(w, ev) == next
  }

  lemma AgainStarts()
    ensures Leads(CLEANED, Starts(2, 5, 7, 9), With(AGAIN))
  {
  }

  lemma AgainChecked()
    ensures Leads(With(AGAIN), HandlerSteps(2, true, Nobody), With(AGAIN.(phase := ReadRow)))
  {
  }

  lemma AgainRead()
    ensures Leads(With(AGAIN.(phase := ReadRow)), HandlerSteps(2, true, Nobody), With(AGAIN.(phase := InsertRow)))
  {
  }

  lemma AgainInserted()
    ensures Leads(With(AGAIN.(phase := InsertRow)), HandlerSteps(2, true, Nobody), With(OWNER).(rows := map[5 := SECOND]))
  {
  }

  lemma AgainInserts(before: seq<Event>) returns (evs: seq<Event>)
    requires Reaches(before, CLEANED)
    ensures Reaches(evs, With(OWNER).(rows := map[5 := SECOND]))
  {
    hide Reaches, Apply, Enabled, InTime, With;
    var step := HandlerSteps(2, true, Nobody);
    AgainStarts();
    ReachesNext(before, CLEANED, Starts(2, 5, 7, 9));
    evs := before + [Starts(2, 5, 7, 9)];
    AgainChecked();
    ReachesNext(evs, With(AGAIN), step);
    AgainRead();
    ReachesNext(evs + [step], With(AGAIN.(phase := ReadRow)), step);
    evs := evs + [step] + [step];
    AgainInserted();
    ReachesNext(evs, With(AGAIN.(phase := InsertRow)), step);
    evs := evs + [step];
  }

  /** The attempt, its row and its user after it has been started again. */
  const MADE: World := With(OWNER.(phase := SendMail)).(rows := map[5 := SECOND], users := map[5 := User(false)])

  lemma AgainMakes(before: seq<Event>) returns (evs: seq<Event>)
    requires Reaches(before, With(OWNER).(rows := map[5 := SECOND]))
    ensures Reaches(evs, MADE)
  {
    hide Reaches, CleanStep, SignInStep;
    var step := HandlerSteps(2, true, Nobody);
    var found := With(OWNER.(phase := CreateUser)).(rows := map[5 := SECOND]);
    assert Apply(With(OWNER).(rows := map[5 := SECOND]), step) == found;
    assert Apply(found, step) == MADE;
    hide Apply, With;
    ReachesNext(before, With(OWNER).(rows := map[5 := SECOND]), step);
    ReachesNext(before + [step], found, step);
    evs := before + [step] + [step];
  }

  /** The user gets a session, unverified, once the first cleanup goes on: its delete goes by the id alone. */
  lemma DeletedUnder(before: seq<Event>) returns (evs: seq<Event>)
    requires Reaches(before, MADE)
    ensures IsRun(evs) && InTimeRun(evs) && Breached(At(evs, |evs|))
  {
    hide HandlerStep;
    var gone := MADE.(rows := map[], cleaners := CleanersAt(Cleaned, Cleaned));
    var t := gone.(signIns := map[1 := SignIn(5, Found)]);
    var u := gone.(signIns := map[1 := SignIn(5, Open)]);
    var v := gone.(signIns := map[1 := SignIn(5, Issued)], sessions := {5});
    assert Apply(MADE, CleanupSteps(1)) == gone;
    assert Apply(gone, SignInFinds(1, 5)) == t;
    assert Apply(t, SignInSteps(1, true)) == u;
    assert Apply(u, SignInSteps(1, true)) == v;
    assert !Excused(v, 5);
    hide Apply, With;
    ReachesNext(before, MADE, CleanupSteps(1));
    ReachesNext(before + [CleanupSteps(1)], gone, SignInFinds(1, 5));
    evs := before + [CleanupSteps(1)] + [SignInFinds(1, 5)];
    ReachesNext(evs, t, SignInSteps(1, true));
    ReachesNext(evs + [SignInSteps(1, true)], u, SignInSteps(1, true));
    evs := evs + [SignInSteps(1, true)] + [SignInSteps(1, true)];
    AtEnds(evs);
  }

  /** A run in which every owner is in time, and an unfinished user gets a session. */
  lemma RestartUnderCleanup() returns (evs: seq<Event>)
    ensures IsRun(evs) && InTimeRun(evs) && Breached(At(evs, |evs|))
  {
    hide Reaches, Breached, With, Enabled7;
    evs := FirstStops();
    evs := TwoCleanups(evs);
    evs := AgainInserts(evs);
    evs := AgainMakes(evs);
    evs := DeletedUnder(evs);
  }
}

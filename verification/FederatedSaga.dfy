/**
 The federated registration saga (`microsoft-email-verification.ts`): what a verified mailbox proof turns into
 a user and a binding, over tables shared by any number of handlers. Every SQL statement is one step and a
 handler may stop for ever after any of them, so a crash is a handler that takes no more steps.
 */
module FederatedSaga {
  import opened Wrappers

  datatype Provider = Microsoft | ChatGpt

  /** A user made by the saga is named after the verification it was made for. */
  datatype UserId = Owned(provider: Provider, proof: nat) | Other(n: nat)

  datatype Role = Plain | Admin | Elevated

  /** A row of `user`; addresses and tenants are numbers. */
  datatype User = User(email: nat, tenant: Option<nat>, verified: bool, banned: bool, role: Role)

  /** A consumed `PendingVerification`. For ChatGPT the subject stands for the pair with the client id. */
  datatype Pending = Pending(provider: Provider, subject: nat, tenant: nat, email: nat)

  /** A row of the recovery table of `provider`. */
  datatype Slot = Slot(provider: Provider, user: UserId)
  datatype Recovery = Recovery(proof: nat, subject: nat, tenant: nat, email: nat, createdAt: nat)

  /** A row of the binding table of `provider`. */
  datatype Key = Key(provider: Provider, subject: nat)
  datatype Binding = Binding(user: UserId, tenant: nat, email: nat)

  datatype Phase =
    | ReadPolicy
    | ReadBinding
    | ReadUser
    | Sweep
    | ReadRecovery
    | WriteRecovery
    | CreateUser
    | Provision
    | ReadLatest
    | VerifyUser
    | InsertBinding
    | ReadBack
    | DeleteRecovery
    | Denied
    | Completed

  /** A call of `completeFederatedVerification` with its local variables. */
  datatype Handler = Handler(
    pending: Pending,
    phase: Phase,
    allowRegistration: bool,
    bound: Option<UserId>,
    user: Option<UserId>,
    seen: Option<User>,
    wroteAt: nat
  )

  /** A sign-in on its way through the session hook. */
  datatype SignInPhase = Found | PastMicrosoft | PastBoth | Checked | Refused | Issued
  datatype SignIn = SignIn(user: UserId, phase: SignInPhase)

  datatype World = World(
    users: map<UserId, User>,
    recovery: map<Slot, Recovery>,
    bindings: map<Key, Binding>,
    handlers: map<nat, Handler>,
    signIns: map<nat, SignIn>,
    now: nat
  )

  const START := World(map[], map[], map[], map[], map[], 0)

  /** The age at which a recovery row without a user may be swept, in milliseconds. */
  const RECOVERY_AGE: nat := 20 * 60 * 1000

  /**
   `ok` is the answer of the policy or of the identity service, `allow` whether the tenant allows
   registration, `swept` the rows the sweep picks: at most a hundred of those it may, in no promised order.
   */
  datatype Event =
    | Verified(proof: nat, pending: Pending)
    | Steps(proof: nat, ok: bool, allow: bool, swept: set<Slot>)
    | SignInFinds(who: nat, user: UserId)
    | SignInSteps(who: nat)
    | UserSaved(id: UserId, row: User)
    | UserRemoved(id: UserId)
    | TimePasses(millis: nat)

  predicate EmailFree(users: map<UserId, User>, id: UserId, email: nat) {
    forall other :: other in users && users[other].email == email ==> other == id
  }

  predicate Sweepable(w: World, provider: Provider, slot: Slot) {
    slot in w.recovery && slot.provider == provider && slot.user !in w.users
    && w.recovery[slot].createdAt + RECOVERY_AGE < w.now
  }

  predicate Enabled(w: World, ev: Event) {
    match ev
    case Verified(proof, _) => proof !in w.handlers
    case Steps(proof, _, _, swept) =>
      && proof in w.handlers && !w.handlers[proof].phase.Denied? && !w.handlers[proof].phase.Completed?
      && forall slot :: slot in swept ==> Sweepable(w, w.handlers[proof].pending.provider, slot)
    case SignInFinds(who, user) => who !in w.signIns && user in w.users
    case SignInSteps(who) => who in w.signIns
    case UserSaved(id, row) => (id in w.users || id.Other?) && EmailFree(w.users, id, row.email)
    case UserRemoved(_) => true
    case TimePasses(_) => true
  }

  // ----- the handler --------------------------------------------------------------------------

  ghost function ByEmail(users: map<UserId, User>, email: nat): (id: Option<UserId>)
    ensures id.Some? ==> id.value in users && users[id.value].email == email
    ensures id.None? ==> forall other :: other in users ==> users[other].email != email
  {
    if (exists id :: id in users && users[id].email == email) then
      var id :| id in users && users[id].email == email;
      Some(id)
    else None
  }

  /** The account may be linked: not banned, no administrator, of the tenant. */
  predicate Linkable(user: User, tenant: nat) {
    !user.banned && user.tenant == Some(tenant) && user.role != Admin
  }

  predicate RecoveryFits(row: Recovery, pending: Pending) {
    row.subject == pending.subject && row.tenant == pending.tenant && row.email == pending.email
  }

  function Begun(pending: Pending): Handler {
    Handler(pending, ReadPolicy, false, None, None, None, 0)
  }

  function KeyOf(pending: Pending): Key { Key(pending.provider, pending.subject) }

  /** The user the handler of `proof` makes. */
  function Own(h: Handler, proof: nat): UserId { Owned(h.pending.provider, proof) }

  /** The row of the handler's user, when there is one. */
  function RowOf(w: World, h: Handler): Option<User> {
    if h.user.Some? && h.user.value in w.users then Some(w.users[h.user.value]) else None
  }

  predicate CanCreate(w: World, h: Handler, proof: nat) {
    Own(h, proof) !in w.users && EmailFree(w.users, Own(h, proof), h.pending.email)
  }

  predicate CanVerify(w: World, h: Handler) {
    RowOf(w, h).Some? &&
    var row := RowOf(w, h).value;
    row.email == h.pending.email && row.tenant == Some(h.pending.tenant) && row.role == Plain && !row.banned
  }

  predicate MayRecover(h: Handler, row: Recovery) {
    h.allowRegistration && h.seen.Some? && h.seen.value.role == Plain && h.seen.value.verified
    && RecoveryFits(row, h.pending)
  }

  function Go(h: Handler, phase: Phase): Handler { h.(phase := phase) }

  /** Where the step of a handler leads, and what it reads. A denial is the exception the source throws. */
  ghost function NextHandler(w: World, h: Handler, proof: nat, ok: bool, allow: bool): Handler {
    var key := KeyOf(h.pending);
    match h.phase
    case ReadPolicy => if ok then h.(phase := ReadBinding, allowRegistration := allow) else Go(h, Denied)
    case ReadBinding =>
      h.(phase := ReadUser, bound := if key in w.bindings then Some(w.bindings[key].user) else None)
    case ReadUser => UserRead(w, h)
    case Sweep =>
      if h.user.None? then Go(h, if h.allowRegistration then WriteRecovery else Denied)
      else Go(h, if h.bound.None? then ReadRecovery else Provision)
    case ReadRecovery =>
      if h.user.None? then h else
      var slot := Slot(h.pending.provider, h.user.value);
      Go(h, if slot in w.recovery && !MayRecover(h, w.recovery[slot]) then Denied else Provision)
    case WriteRecovery => h.(phase := CreateUser, wroteAt := w.now)
    case CreateUser =>
      if CanCreate(w, h, proof) then h.(phase := Provision, user := Some(Own(h, proof))) else Go(h, Denied)
    case Provision => Go(h, if ok then ReadLatest else Denied)
    case ReadLatest =>
      var row := RowOf(w, h);
      Go(h, if row.None? || row.value.email != h.pending.email || !Linkable(row.value, h.pending.tenant) then Denied
            else if row.value.verified then InsertBinding else VerifyUser)
    case VerifyUser => Go(h, if CanVerify(w, h) then InsertBinding else Denied)
    case InsertBinding => Go(h, ReadBack)
    case ReadBack =>
      Go(h, if h.user.Some? && key in w.bindings
              && w.bindings[key] == Binding(h.user.value, h.pending.tenant, h.pending.email)
            then DeleteRecovery else Denied)
    case DeleteRecovery => Go(h, Completed)
    case Denied => h
    case Completed => h
  }

  ghost function UserRead(w: World, h: Handler): Handler {
    var user := ByEmail(w.users, h.pending.email);
    if h.bound.Some? && h.bound != user then Go(h, Denied)
    else if user.Some? && !Linkable(w.users[user.value], h.pending.tenant) then Go(h, Denied)
    else h.(phase := Sweep, user := user, seen := if user.Some? then Some(w.users[user.value]) else None)
  }

  /** What the step writes to `user`: the insert, and the conditional update. */
  function NextUsers(w: World, h: Handler, proof: nat): map<UserId, User> {
    match h.phase
    case CreateUser =>
      if !CanCreate(w, h, proof) then w.users
      else w.users[Own(h, proof) := User(h.pending.email, Some(h.pending.tenant), true, false, Plain)]
    case VerifyUser =>
      if !CanVerify(w, h) then w.users
      else w.users[h.user.value := w.users[h.user.value].(verified := true)]
    case _ => w.users
  }

  /** What it writes to the recovery table: the sweep, the insert that leaves an older row, the last delete. */
  function NextRecovery(w: World, h: Handler, proof: nat, swept: set<Slot>): map<Slot, Recovery> {
    match h.phase
    case Sweep => w.recovery - swept
    case WriteRecovery =>
      var slot := Slot(h.pending.provider, Own(h, proof));
      if slot in w.recovery then w.recovery
      else w.recovery[slot := Recovery(proof, h.pending.subject, h.pending.tenant, h.pending.email, w.now)]
    case DeleteRecovery =>
      if h.user.None? then w.recovery else w.recovery - {Slot(h.pending.provider, h.user.value)}
    case _ => w.recovery
  }

  /** What it writes to the binding table: the insert that leaves an older row. */
  function NextBindings(w: World, h: Handler): map<Key, Binding> {
    if h.phase.InsertBinding? && h.user.Some? && KeyOf(h.pending) !in w.bindings
    then w.bindings[KeyOf(h.pending) := Binding(h.user.value, h.pending.tenant, h.pending.email)]
    else w.bindings
  }

  ghost function HandlerStep(w: World, proof: nat, ok: bool, allow: bool, swept: set<Slot>): World
    requires proof in w.handlers
  {
    var h := w.handlers[proof];
    w.(users := NextUsers(w, h, proof),
       recovery := NextRecovery(w, h, proof, swept),
       bindings := NextBindings(w, h),
       handlers := w.handlers[proof := NextHandler(w, h, proof, ok, allow)])
  }

  /** The hook of a session: both recovery tables, then the user's row, then the insert. */
  function SignInStep(w: World, who: nat): World
    requires who in w.signIns
  {
    var s := w.signIns[who];
    var next := match s.phase
      case Found => if Slot(Microsoft, s.user) in w.recovery then Refused else PastMicrosoft
      case PastMicrosoft => if Slot(ChatGpt, s.user) in w.recovery then Refused else PastBoth
      case PastBoth => if s.user in w.users && !w.users[s.user].banned then Checked else Refused
      case Checked => Issued
      case Refused => Refused
      case Issued => Issued;
    w.(signIns := w.signIns[who := s.(phase := next)])
  }

  ghost function Apply(w: World, ev: Event): World
    requires Enabled(w, ev)
  {
    match ev
    case Verified(proof, pending) => w.(handlers := w.handlers[proof := Begun(pending)])
    case Steps(proof, ok, allow, swept) => HandlerStep(w, proof, ok, allow, swept)
    case SignInFinds(who, user) => w.(signIns := w.signIns[who := SignIn(user, Found)])
    case SignInSteps(who) => SignInStep(w, who)
    case UserSaved(id, row) => w.(users := w.users[id := row])
    case UserRemoved(id) => w.(users := w.users - {id})
    case TimePasses(millis) => w.(now := w.now + millis)
  }

  ghost function Run(w: World, evs: seq<Event>): Option<World>
    decreases |evs|
  {
    if evs == [] then Some(w)
    else if !Enabled(w, evs[0]) then None
    else Run(Apply(w, evs[0]), evs[1..])
  }

  // ----- what holds in every state ------------------------------------------------------------------

  /** The handler of the verification `u` is named after has made that user. */
  predicate Made(w: World, u: UserId) {
    u.Owned? && u.proof in w.handlers && w.handlers[u.proof].pending.provider == u.provider
    && w.handlers[u.proof].user == Some(u)
  }

  /** The verified identity `u` was made for is bound to it, with the tenant and the address that were proven. */
  predicate BoundAsProven(w: World, u: UserId) {
    u.Owned? && u.proof in w.handlers &&
    var pending := w.handlers[u.proof].pending;
    var key := KeyOf(pending);
    key in w.bindings && w.bindings[key] == Binding(u, pending.tenant, pending.email)
  }

  predicate UserOk(w: World, u: UserId) {
    u.Owned? ==> Made(w, u) && (Slot(u.provider, u) in w.recovery || BoundAsProven(w, u))
  }

  predicate SlotOk(w: World, slot: Slot)
    requires slot in w.recovery
  {
    var row := w.recovery[slot];
    && slot.user == Owned(slot.provider, row.proof)
    && row.proof in w.handlers
    && w.handlers[row.proof].pending.provider == slot.provider
    && RecoveryFits(row, w.handlers[row.proof].pending)
    && row.createdAt == w.handlers[row.proof].wroteAt
    && !Early(w.handlers[row.proof].phase)
  }

  predicate KeyOk(w: World, key: Key)
    requires key in w.bindings
  {
    var u := w.bindings[key].user;
    u.Owned? && u.provider == key.provider ==> Made(w, u) && BoundAsProven(w, u)
  }

  /** Before the recovery row may have been written. */
  predicate Early(phase: Phase) {
    phase.ReadPolicy? || phase.ReadBinding? || phase.ReadUser? || phase.Sweep? || phase.ReadRecovery?
    || phase.WriteRecovery?
  }

  /** The handler has no user yet. */
  predicate Userless(phase: Phase) {
    phase.ReadPolicy? || phase.ReadBinding? || phase.ReadUser? || phase.WriteRecovery? || phase.CreateUser?
  }

  /** The handler goes on with a user. */
  predicate Late(phase: Phase) {
    phase.Provision? || phase.ReadLatest? || phase.VerifyUser? || phase.InsertBinding? || phase.ReadBack?
    || phase.DeleteRecovery?
  }

  /** The handler may bind the user `u` of its provider: it made it, or proves the same identity, or it is bound. */
  predicate MayBind(w: World, proof: nat, u: UserId)
    requires proof in w.handlers
  {
    u.Owned? && u.provider == w.handlers[proof].pending.provider ==>
      || u.proof == proof
      || (u.proof in w.handlers && w.handlers[u.proof].pending == w.handlers[proof].pending)
      || BoundAsProven(w, u)
  }

  predicate HandlerOk(w: World, proof: nat)
    requires proof in w.handlers
  {
    var h := w.handlers[proof];
    var key := KeyOf(h.pending);
    && (h.user.Some? && h.user.value.Owned? ==> Made(w, h.user.value))
    && (Userless(h.phase) ==> h.user.None?)
    && ((h.phase.ReadUser? || h.phase.Sweep?) && h.bound.Some? ==>
          key in w.bindings && w.bindings[key].user == h.bound.value)
    && (h.phase.Sweep? && h.bound.Some? ==> h.user == h.bound)
    && (h.phase.ReadRecovery? ==> h.user.Some? && h.seen.Some?)
    && (h.phase.Sweep? && h.user.Some? ==> h.seen.Some?)
    && (h.phase.CreateUser? ==>
          || Slot(h.pending.provider, Owned(h.pending.provider, proof)) in w.recovery
          || h.wroteAt + RECOVERY_AGE < w.now)
    && (Late(h.phase) ==>
          h.user.Some? && (MayBind(w, proof, h.user.value)
                           || (h.user.value !in w.users && (h.phase.Provision? || h.phase.ReadLatest?))))
    && (h.phase.DeleteRecovery? && h.user.value.Owned? && h.user.value.provider == h.pending.provider ==>
          BoundAsProven(w, h.user.value))
  }

  /** Whom the hook has let past the table of `provider`. */
  predicate Past(phase: SignInPhase, provider: Provider) {
    phase.PastBoth? || phase.Checked? || phase.Issued? || (phase.PastMicrosoft? && provider.Microsoft?)
  }

  predicate SignInOk(w: World, who: nat)
    requires who in w.signIns
  {
    var s := w.signIns[who];
    s.user.Owned? ==>
      && Made(w, s.user)
      && (Past(s.phase, s.user.provider) ==> BoundAsProven(w, s.user) || s.user !in w.users)
      && (s.phase.Checked? || s.phase.Issued? ==> BoundAsProven(w, s.user))
  }

  predicate Inv(w: World) {
    && (forall u :: u in w.users ==> UserOk(w, u))
    && (forall slot :: slot in w.recovery ==> SlotOk(w, slot))
    && (forall key :: key in w.bindings ==> KeyOk(w, key))
    && (forall proof :: proof in w.handlers ==> HandlerOk(w, proof))
    && (forall who :: who in w.signIns ==> SignInOk(w, who))
  }

  /** A user is created while its recovery row is too young to be swept. */
  predicate Prompt(w: World, ev: Event) {
    ev.Steps? && ev.proof in w.handlers && w.handlers[ev.proof].phase.CreateUser? ==>
      w.now <= w.handlers[ev.proof].wroteAt + RECOVERY_AGE
  }

  /** A user is created only while its recovery row is there. */
  predicate Sheltered(w: World, ev: Event) {
    ev.Steps? && ev.proof in w.handlers && w.handlers[ev.proof].phase.CreateUser?
    && CanCreate(w, w.handlers[ev.proof], ev.proof) ==>
      var u := Own(w.handlers[ev.proof], ev.proof);
      Slot(u.provider, u) in w.recovery
  }

  /** No recovery row is swept before its time, so a prompt creation is sheltered. */
  lemma PromptIsSheltered(w: World, ev: Event)
    requires Inv(w) && Prompt(w, ev)
    ensures Sheltered(w, ev)
  {
    if ev.Steps? && ev.proof in w.handlers {
      assert HandlerOk(w, ev.proof);
    }
  }

  // ----- steps ----------------------------------------------------------------------------------------

  /** What no step takes back. */
  predicate Extends(w: World, next: World) {
    && (forall key :: key in w.bindings ==> key in next.bindings && next.bindings[key] == w.bindings[key])
    && (forall proof :: proof in w.handlers ==>
          && proof in next.handlers
          && next.handlers[proof].pending == w.handlers[proof].pending
          && (w.handlers[proof].user.Some? ==> next.handlers[proof].user == w.handlers[proof].user))
    && (forall who :: who in w.signIns ==> who in next.signIns && next.signIns[who].user == w.signIns[who].user)
  }

  lemma FactsPersist(w: World, next: World, u: UserId)
    requires Extends(w, next)
    ensures Made(w, u) ==> Made(next, u)
    ensures BoundAsProven(w, u) ==> BoundAsProven(next, u)
  {
  }

  lemma LocalsPersist(w: World, h: Handler, proof: nat, ok: bool, allow: bool)
    requires Userless(h.phase) ==> h.user.None?
    ensures var next := NextHandler(w, h, proof, ok, allow);
      && next.pending == h.pending && (h.user.Some? ==> next.user == h.user)
      && (!Early(h.phase) ==> !Early(next.phase) && next.wroteAt == h.wroteAt)
      && (h.phase.WriteRecovery? ==> !Early(next.phase) && next.wroteAt == w.now)
  {
  }

  lemma HandlerExtends(w: World, proof: nat, ok: bool, allow: bool, swept: set<Slot>)
    requires proof in w.handlers && (Userless(w.handlers[proof].phase) ==> w.handlers[proof].user.None?)
    ensures Extends(w, HandlerStep(w, proof, ok, allow, swept))
  {
    hide NextHandler, NextUsers, NextRecovery;
    LocalsPersist(w, w.handlers[proof], proof, ok, allow);
  }

  lemma ApplyExtends(w: World, ev: Event)
    requires Inv(w) && Enabled(w, ev)
    ensures Extends(w, Apply(w, ev))
  {
    hide HandlerStep, UserOk, SlotOk, KeyOk, HandlerOk, SignInOk;
    if ev.Steps? {
      UserlessIs(w, ev.proof);
      HandlerExtends(w, ev.proof, ev.ok, ev.allow, ev.swept);
    }
  }

  lemma UserlessIs(w: World, proof: nat)
    requires Inv(w) && proof in w.handlers
    ensures HandlerOk(w, proof)
    ensures Userless(w.handlers[proof].phase) ==> w.handlers[proof].user.None?
  {
  }

  lemma StepKeepsUser(w: World, ev: Event, u: UserId)
    requires Inv(w) && Enabled(w, ev) && Sheltered(w, ev) && ev.Steps?
    requires Extends(w, Apply(w, ev)) && u in Apply(w, ev).users
    ensures UserOk(Apply(w, ev), u)
  {
    var h := w.handlers[ev.proof];
    var next := Apply(w, ev);
    UserlessIs(w, ev.proof);
    FactsPersist(w, next, u);
    if u in w.users {
      assert UserOk(w, u);
      hide Inv;
    }
  }

  lemma StepKeepsSlot(w: World, ev: Event, slot: Slot)
    requires Inv(w) && Enabled(w, ev) && ev.Steps? && slot in Apply(w, ev).recovery
    ensures SlotOk(Apply(w, ev), slot)
  {
    UserlessIs(w, ev.proof);
    LocalsPersist(w, w.handlers[ev.proof], ev.proof, ev.ok, ev.allow);
    if slot in w.recovery {
      assert SlotOk(w, slot);
    }
    hide Inv, HandlerOk, NextHandler, NextUsers, NextBindings, Early;
  }

  lemma StepKeepsKey(w: World, ev: Event, key: Key)
    requires Inv(w) && Enabled(w, ev) && ev.Steps?
    requires Extends(w, Apply(w, ev)) && key in Apply(w, ev).bindings
    ensures KeyOk(Apply(w, ev), key)
  {
    var next := Apply(w, ev);
    UserlessIs(w, ev.proof);
    if key in w.bindings {
      assert KeyOk(w, key);
    }
    hide Inv, NextHandler;
    FactsPersist(w, next, next.bindings[key].user);
  }

  lemma StepKeepsSignIn(w: World, ev: Event, who: nat)
    requires Inv(w) && Enabled(w, ev) && ev.Steps?
    requires Extends(w, Apply(w, ev)) && who in w.signIns
    ensures SignInOk(Apply(w, ev), who)
  {
    var next := Apply(w, ev);
    UserlessIs(w, ev.proof);
    assert SignInOk(w, who);
    hide Inv, NextHandler;
    FactsPersist(w, next, w.signIns[who].user);
  }

  lemma StepKeepsOther(w: World, ev: Event, proof: nat)
    requires Inv(w) && Enabled(w, ev) && ev.Steps?
    requires Extends(w, Apply(w, ev)) && proof in w.handlers && proof != ev.proof
    ensures HandlerOk(Apply(w, ev), proof)
  {
    var next := Apply(w, ev);
    var h := w.handlers[proof];
    UserlessIs(w, ev.proof);
    UserlessIs(w, proof);
    var slot := Slot(h.pending.provider, Own(h, proof));
    if slot in w.recovery {
      assert SlotOk(w, slot);
    }
    hide Inv, NextHandler;
    if h.user.Some? {
      FactsPersist(w, next, h.user.value);
    }
  }

  /** The recovery row of a user of the saga, if any, is the one written for it. */
  lemma RecoveryAllowsBinding(w: World, proof: nat, ok: bool, allow: bool)
    requires Inv(w) && proof in w.handlers && w.handlers[proof].phase.ReadRecovery?
    ensures var h := w.handlers[proof];
      && h.user.Some?
      && (NextHandler(w, h, proof, ok, allow).phase.Denied?
          || MayBind(w, proof, h.user.value) || h.user.value !in w.users)
  {
    var h := w.handlers[proof];
    assert HandlerOk(w, proof);
    var u := h.user.value;
    if u in w.users {
      assert UserOk(w, u);
      var slot := Slot(h.pending.provider, u);
      if slot in w.recovery {
        assert SlotOk(w, slot);
      }
    }
  }

  /** What holds of a bound user that a handler reads. */
  lemma UserReadOk(w: World, proof: nat)
    requires Inv(w) && proof in w.handlers && w.handlers[proof].phase.ReadUser?
    ensures var h := UserRead(w, w.handlers[proof]);
      && (h.phase.Sweep? || h.phase.Denied?)
      && (h.user.Some? && h.user.value.Owned? ==> Made(w, h.user.value))
      && (h.phase.Sweep? && h.bound.Some? ==> h.user == h.bound)
      && (h.phase.Sweep? && h.user.Some? ==> h.seen.Some?)
  {
    var h := UserRead(w, w.handlers[proof]);
    assert HandlerOk(w, proof);
    if h.user.Some? {
      assert UserOk(w, h.user.value);
    }
  }

  lemma BoundIsProven(w: World, proof: nat)
    requires Inv(w) && proof in w.handlers
    requires var h := w.handlers[proof];
      && h.user.Some? && KeyOf(h.pending) in w.bindings && w.bindings[KeyOf(h.pending)].user == h.user.value
    ensures MayBind(w, proof, w.handlers[proof].user.value)
    ensures var h := w.handlers[proof];
      h.user.value.Owned? && h.user.value.provider == h.pending.provider ==> BoundAsProven(w, h.user.value)
  {
    assert KeyOk(w, KeyOf(w.handlers[proof].pending));
  }

  lemma ReadingKeepsSelf(w: World, ev: Event)
    requires Inv(w) && Enabled(w, ev) && ev.Steps?
    requires w.handlers[ev.proof].phase.ReadPolicy? || w.handlers[ev.proof].phase.ReadBinding?
    ensures HandlerOk(Apply(w, ev), ev.proof)
  {
    UserlessIs(w, ev.proof);
    hide Inv, Made, BoundAsProven, MayBind, EmailFree, Sweepable, CanCreate, CanVerify, MayRecover;
  }

  lemma UserReadKeepsSelf(w: World, ev: Event)
    requires Inv(w) && Enabled(w, ev) && ev.Steps? && Extends(w, Apply(w, ev))
    requires w.handlers[ev.proof].phase.ReadUser?
    ensures HandlerOk(Apply(w, ev), ev.proof)
  {
    var next := Apply(w, ev);
    var h := UserRead(w, w.handlers[ev.proof]);
    UserlessIs(w, ev.proof);
    UserReadOk(w, ev.proof);
    assert next.handlers[ev.proof] == h && next.bindings == w.bindings;
    assert h.bound == w.handlers[ev.proof].bound && h.pending == w.handlers[ev.proof].pending;
    if h.user.Some? {
      FactsPersist(w, next, h.user.value);
    }
    hide Inv, Apply, Enabled, Extends, UserRead, Made, BoundAsProven, MayBind;
  }

  lemma SweepKeepsSelf(w: World, ev: Event)
    requires Inv(w) && Enabled(w, ev) && ev.Steps? && Extends(w, Apply(w, ev))
    requires w.handlers[ev.proof].phase.Sweep?
    ensures HandlerOk(Apply(w, ev), ev.proof)
  {
    var next := Apply(w, ev);
    var h := w.handlers[ev.proof];
    UserlessIs(w, ev.proof);
    if h.user.Some? {
      FactsPersist(w, next, h.user.value);
    }
    if h.bound.Some? {
      BoundIsProven(w, ev.proof);
    }
    hide Inv, Made, BoundAsProven, Linkable, RecoveryFits, CanVerify, MayRecover, EmailFree, Sweepable,
      UserRead, CanCreate;
  }

  lemma RecoveryKeepsSelf(w: World, ev: Event)
    requires Inv(w) && Enabled(w, ev) && ev.Steps? && Extends(w, Apply(w, ev))
    requires w.handlers[ev.proof].phase.ReadRecovery? || w.handlers[ev.proof].phase.WriteRecovery?
    ensures HandlerOk(Apply(w, ev), ev.proof)
  {
    var next := Apply(w, ev);
    var h := w.handlers[ev.proof];
    UserlessIs(w, ev.proof);
    if h.user.Some? {
      FactsPersist(w, next, h.user.value);
    }
    if h.phase.ReadRecovery? {
      RecoveryAllowsBinding(w, ev.proof, ev.ok, ev.allow);
    }
    hide Inv, Made, BoundAsProven, Linkable, RecoveryFits, CanVerify, MayRecover, EmailFree, Sweepable,
      UserRead, CanCreate;
  }

  lemma CreationKeepsSelf(w: World, ev: Event)
    requires Inv(w) && Enabled(w, ev) && ev.Steps? && Extends(w, Apply(w, ev))
    requires w.handlers[ev.proof].phase.CreateUser?
    ensures HandlerOk(Apply(w, ev), ev.proof)
  {
    var next := Apply(w, ev);
    var h := w.handlers[ev.proof];
    UserlessIs(w, ev.proof);
    hide Inv, Made, BoundAsProven, Linkable, RecoveryFits, CanVerify, MayRecover, EmailFree, Sweepable,
      UserRead, NextRecovery;
  }

  lemma ProvisionKeepsSelf(w: World, ev: Event)
    requires Inv(w) && Enabled(w, ev) && ev.Steps? && Extends(w, Apply(w, ev))
    requires w.handlers[ev.proof].phase.Provision? || w.handlers[ev.proof].phase.ReadLatest?
    ensures HandlerOk(Apply(w, ev), ev.proof)
  {
    var next := Apply(w, ev);
    var h := w.handlers[ev.proof];
    UserlessIs(w, ev.proof);
    if h.user.Some? {
      FactsPersist(w, next, h.user.value);
    }
    hide Inv, Made, NextUsers, BoundAsProven, Linkable, RecoveryFits, CanVerify, MayRecover, EmailFree, Sweepable,
      UserRead, NextRecovery;
  }

  lemma BindingKeepsSelf(w: World, ev: Event)
    requires Inv(w) && Enabled(w, ev) && ev.Steps? && Extends(w, Apply(w, ev))
    requires w.handlers[ev.proof].phase.VerifyUser? || w.handlers[ev.proof].phase.InsertBinding?
    ensures HandlerOk(Apply(w, ev), ev.proof)
  {
    var next := Apply(w, ev);
    var h := w.handlers[ev.proof];
    UserlessIs(w, ev.proof);
    if h.user.Some? {
      FactsPersist(w, next, h.user.value);
    }
    hide Inv, Made, BoundAsProven, Linkable, RecoveryFits, CanVerify, MayRecover, EmailFree, Sweepable,
      UserRead, CanCreate, NextRecovery;
  }

  lemma CompletionKeepsSelf(w: World, ev: Event)
    requires Inv(w) && Enabled(w, ev) && ev.Steps? && Extends(w, Apply(w, ev))
    requires w.handlers[ev.proof].phase.ReadBack? || w.handlers[ev.proof].phase.DeleteRecovery?
      || w.handlers[ev.proof].phase.Denied? || w.handlers[ev.proof].phase.Completed?
    ensures HandlerOk(Apply(w, ev), ev.proof)
  {
    var next := Apply(w, ev);
    var h := w.handlers[ev.proof];
    UserlessIs(w, ev.proof);
    if h.user.Some? {
      FactsPersist(w, next, h.user.value);
    }
    if h.phase.ReadBack? && KeyOf(h.pending) in w.bindings && w.bindings[KeyOf(h.pending)].user == h.user.value {
      BoundIsProven(w, ev.proof);
    }
    hide Inv, Made, BoundAsProven, Linkable, RecoveryFits, CanVerify, MayRecover, EmailFree, Sweepable,
      UserRead, CanCreate, NextRecovery;
  }

  lemma HandlerKeepsInv(w: World, ev: Event)
    requires Inv(w) && Enabled(w, ev) && Sheltered(w, ev) && ev.Steps?
    ensures Inv(Apply(w, ev))
  {
    var next := Apply(w, ev);
    ApplyExtends(w, ev);
    match w.handlers[ev.proof].phase {
      case ReadPolicy | ReadBinding => ReadingKeepsSelf(w, ev);
      case ReadUser => UserReadKeepsSelf(w, ev);
      case Sweep => SweepKeepsSelf(w, ev);
      case ReadRecovery | WriteRecovery => RecoveryKeepsSelf(w, ev);
      case CreateUser => CreationKeepsSelf(w, ev);
      case Provision | ReadLatest => ProvisionKeepsSelf(w, ev);
      case VerifyUser | InsertBinding => BindingKeepsSelf(w, ev);
      case _ => CompletionKeepsSelf(w, ev);
    }
    hide Apply, UserOk, SlotOk, KeyOk, HandlerOk, SignInOk;
    HandlerNames(w, ev);
    forall u | u in next.users
      ensures UserOk(next, u)
    {
      StepKeepsUser(w, ev, u);
    }
    forall slot | slot in next.recovery
      ensures SlotOk(next, slot)
    {
      StepKeepsSlot(w, ev, slot);
    }
    forall key | key in next.bindings
      ensures KeyOk(next, key)
    {
      StepKeepsKey(w, ev, key);
    }
    forall proof | proof in next.handlers
      ensures HandlerOk(next, proof)
    {
      if proof != ev.proof {
        StepKeepsOther(w, ev, proof);
      }
    }
    forall who | who in next.signIns
      ensures SignInOk(next, who)
    {
      StepKeepsSignIn(w, ev, who);
    }
  }

  lemma HandlerNames(w: World, ev: Event)
    requires Enabled(w, ev) && ev.Steps?
    ensures Apply(w, ev).handlers.Keys == w.handlers.Keys
    ensures Apply(w, ev).signIns == w.signIns
  {
    hide NextHandler, NextUsers, NextRecovery, NextBindings;
  }

  /** The steps of everyone else: handlers already there keep everything. */
  lemma OthersKeepHandler(w: World, ev: Event, proof: nat)
    requires Inv(w) && Enabled(w, ev) && !ev.Steps? && proof in Apply(w, ev).handlers
    requires Extends(w, Apply(w, ev))
    ensures HandlerOk(Apply(w, ev), proof)
  {
    var next := Apply(w, ev);
    if proof in w.handlers {
      assert HandlerOk(w, proof);
      var h := w.handlers[proof];
      hide Inv, SignInStep;
      if h.user.Some? {
        FactsPersist(w, next, h.user.value);
      }
    } else {
      hide Inv;
    }
  }

  lemma OthersKeepSignIn(w: World, ev: Event, who: nat)
    requires Inv(w) && Enabled(w, ev) && !ev.Steps? && who in Apply(w, ev).signIns
    requires Extends(w, Apply(w, ev))
    ensures SignInOk(Apply(w, ev), who)
  {
    var next := Apply(w, ev);
    if who in w.signIns {
      assert SignInOk(w, who);
    }
    var u := next.signIns[who].user;
    if u in w.users {
      assert UserOk(w, u);
    }
    hide Inv;
    FactsPersist(w, next, u);
  }

  lemma OthersKeepInv(w: World, ev: Event)
    requires Inv(w) && Enabled(w, ev) && !ev.Steps?
    ensures Inv(Apply(w, ev))
  {
    var next := Apply(w, ev);
    ApplyExtends(w, ev);
    assert next.recovery == w.recovery && next.bindings == w.bindings;
    assert forall u :: u in next.users && u.Owned? ==> u in w.users;
    hide Apply, Enabled, HandlerOk, SignInOk;
    forall u | u in next.users
      ensures UserOk(next, u)
    {
      FactsPersist(w, next, u);
    }
    forall slot | slot in next.recovery
      ensures SlotOk(next, slot)
    {
      assert SlotOk(w, slot);
      OthersLeaveHandlers(w, ev, w.recovery[slot].proof);
    }
    forall key | key in next.bindings
      ensures KeyOk(next, key)
    {
      assert KeyOk(w, key);
      FactsPersist(w, next, next.bindings[key].user);
    }
    hide UserOk, SlotOk, KeyOk;
    forall proof | proof in next.handlers
      ensures HandlerOk(next, proof)
    {
      OthersKeepHandler(w, ev, proof);
    }
    forall who | who in next.signIns
      ensures SignInOk(next, who)
    {
      OthersKeepSignIn(w, ev, who);
    }
  }

  lemma OthersLeaveHandlers(w: World, ev: Event, proof: nat)
    requires Enabled(w, ev) && !ev.Steps? && proof in w.handlers
    ensures proof in Apply(w, ev).handlers && Apply(w, ev).handlers[proof] == w.handlers[proof]
  {
  }

  lemma ApplyInv(w: World, ev: Event)
    requires Inv(w) && Enabled(w, ev) && Sheltered(w, ev)
    ensures Inv(Apply(w, ev))
  {
    hide Inv, Apply, Enabled, Sheltered;
    if ev.Steps? {
      HandlerKeepsInv(w, ev);
    } else {
      OthersKeepInv(w, ev);
    }
  }

  lemma {:induction false} RunKeepsInv(w: World, evs: seq<Event>)
    requires Inv(w) && Run(w, evs).Some? && PromptRun(w, evs)
    ensures Inv(Run(w, evs).value)
    decreases |evs|
  {
    hide Inv, Apply, Enabled, Prompt, Sheltered;
    if evs != [] {
      PromptIsSheltered(w, evs[0]);
      ApplyInv(w, evs[0]);
      RunKeepsInv(Apply(w, evs[0]), evs[1..]);
    }
  }

  ghost predicate PromptRun(w: World, evs: seq<Event>)
    decreases |evs|
  {
    evs == [] || (Enabled(w, evs[0]) ==> Prompt(w, evs[0]) && PromptRun(Apply(w, evs[0]), evs[1..]))
  }

  /** The hook lets nobody in while a recovery row names the user. */
  predicate HookRefuses(w: World, u: UserId) {
    Slot(Microsoft, u) in w.recovery || Slot(ChatGpt, u) in w.recovery
  }

  /**
   After any interleaving and any crashes: a user the saga made whose verified identity is not bound to it is
   refused by the session hook; every user it made has the name of one verification, which made it; and every
   session ever issued to such a user was issued after the binding was there.
   */
  lemma UnfinishedUsersAreRefused(evs: seq<Event>)
    requires Run(START, evs).Some? && PromptRun(START, evs)
    ensures var w := Run(START, evs).value;
      && (forall u :: u in w.users && u.Owned? && !BoundAsProven(w, u) ==> HookRefuses(w, u))
      && (forall who :: who in w.signIns && w.signIns[who].phase.Issued? && w.signIns[who].user.Owned? ==>
            BoundAsProven(w, w.signIns[who].user))
  {
    RunKeepsInv(START, evs);
    var w := Run(START, evs).value;
    forall u | u in w.users && u.Owned? && !BoundAsProven(w, u)
      ensures HookRefuses(w, u)
    {
      assert UserOk(w, u);
    }
    forall who | who in w.signIns && w.signIns[who].phase.Issued? && w.signIns[who].user.Owned?
      ensures BoundAsProven(w, w.signIns[who].user)
    {
      assert SignInOk(w, who);
    }
  }

  // ----- exactly when they are ------------------------------------------------------------------------------

  /** Every user of the saga has its verified identity bound to it, or is refused by the hook. */
  predicate Guarded(w: World) {
    forall u :: u in w.users && u.Owned? ==> BoundAsProven(w, u) || HookRefuses(w, u)
  }

  ghost predicate GuardedAlong(w: World, evs: seq<Event>)
    decreases |evs|
  {
    Guarded(w) && (evs == [] || (Enabled(w, evs[0]) ==> GuardedAlong(Apply(w, evs[0]), evs[1..])))
  }

  ghost predicate ShelteredRun(w: World, evs: seq<Event>)
    decreases |evs|
  {
    evs == [] || (Enabled(w, evs[0]) ==> Sheltered(w, evs[0]) && ShelteredRun(Apply(w, evs[0]), evs[1..]))
  }

  lemma InvIsGuarded(w: World)
    requires Inv(w)
    ensures Guarded(w)
  {
    forall u | u in w.users && u.Owned?
      ensures BoundAsProven(w, u) || HookRefuses(w, u)
    {
      assert UserOk(w, u);
    }
  }

  /** A user made after its row was swept is neither bound nor refused. */
  lemma UnshelteredIsOpen(w: World, ev: Event)
    requires Inv(w) && Enabled(w, ev) && !Sheltered(w, ev)
    ensures !Guarded(Apply(w, ev))
  {
    var u := Own(w.handlers[ev.proof], ev.proof);
    UserlessIs(w, ev.proof);
    assert KeyOf(w.handlers[ev.proof].pending) in w.bindings ==> KeyOk(w, KeyOf(w.handlers[ev.proof].pending));
    assert !BoundAsProven(w, u);
    assert forall slot :: slot in w.recovery && slot.user == u ==> SlotOk(w, slot);
    hide Inv, NextHandler;
    var next := Apply(w, ev);
    assert u in next.users && next.recovery == w.recovery && next.bindings == w.bindings;
    LocalsPersist(w, w.handlers[ev.proof], ev.proof, ev.ok, ev.allow);
    assert !BoundAsProven(next, u) && !HookRefuses(next, u);
  }

  lemma {:induction false} GuardedFrom(w: World, evs: seq<Event>)
    requires Inv(w) && Run(w, evs).Some?
    ensures GuardedAlong(w, evs) <==> ShelteredRun(w, evs)
    decreases |evs|
  {
    InvIsGuarded(w);
    if evs != [] {
      hide Inv, Apply, Enabled, Sheltered, Guarded;
      if Sheltered(w, evs[0]) {
        ApplyInv(w, evs[0]);
        GuardedFrom(Apply(w, evs[0]), evs[1..]);
      } else {
        UnshelteredIsOpen(w, evs[0]);
      }
    }
  }

  /**
   Every run: all users of the saga are bound or refused all the time if and only if each is made while its row is
   there.
   */
  lemma GuardedRunIff(evs: seq<Event>)
    requires Run(START, evs).Some?
    ensures GuardedAlong(START, evs) <==> ShelteredRun(START, evs)
  {
    assert Inv(START);
    GuardedFrom(START, evs);
  }

  // ----- bindings --------------------------------------------------------------------------------------

  lemma {:induction false} BindingsNeverChange(w: World, evs: seq<Event>)
    requires Run(w, evs).Some?
    ensures forall key :: key in w.bindings ==>
      key in Run(w, evs).value.bindings && Run(w, evs).value.bindings[key] == w.bindings[key]
    decreases |evs|
  {
    if evs != [] {
      BindingsNeverChange(Apply(w, evs[0]), evs[1..]);
    }
  }

  /** `provenMicrosoftIdentity` and `provenChatgptIdentity`, once the tenant's policy allows the provider. */
  function Proven(w: World, key: Key, tenant: Option<nat>): Option<(UserId, User)> {
    if key !in w.bindings then None else
    var b := w.bindings[key];
    if tenant.Some? && tenant.value != b.tenant then None
    else if b.user !in w.users then None
    else
      var row := w.users[b.user];
      if row.verified && Linkable(row, b.tenant) && row.email == b.email then Some((b.user, row)) else None
  }

  /** A subject is the same account, in the same tenant, with the same address, at any two moments of a run. */
  lemma ProvenIdentityIsStable(w: World, evs: seq<Event>, key: Key, early: Option<nat>, late: Option<nat>)
    requires Run(w, evs).Some?
    requires Proven(w, key, early).Some? && Proven(Run(w, evs).value, key, late).Some?
    ensures var (u, row) := Proven(w, key, early).value;
      var (v, seen) := Proven(Run(w, evs).value, key, late).value;
      u == v && row.tenant == seen.tenant && row.email == seen.email
  {
    BindingsNeverChange(w, evs);
  }

  // ----- a retry completes what a crash left -------------------------------------------------------------

  predicate UniqueEmails(users: map<UserId, User>) {
    forall u, v :: u in users && v in users && users[u].email == users[v].email ==> u == v
  }

  lemma InsertKeepsEmailsUnique(users: map<UserId, User>, id: UserId, row: User)
    requires UniqueEmails(users) && EmailFree(users, id, row.email)
    ensures UniqueEmails(users[id := row])
  {
    var next := users[id := row];
    forall u, v | u in next && v in next && next[u].email == next[v].email
      ensures u == v
    {
      assert (u != id ==> u in users) && (v != id ==> v in users);
    }
  }

  lemma ApplyKeepsEmailsUnique(w: World, ev: Event)
    requires UniqueEmails(w.users) && Enabled(w, ev)
    ensures UniqueEmails(Apply(w, ev).users)
  {
    hide NextHandler, NextRecovery, NextBindings, UniqueEmails, EmailFree;
    match ev
    case Steps(proof, _, _, _) =>
      var h := w.handlers[proof];
      if h.phase.CreateUser? && CanCreate(w, h, proof) {
        InsertKeepsEmailsUnique(w.users, Own(h, proof), Apply(w, ev).users[Own(h, proof)]);
      } else if h.phase.VerifyUser? && CanVerify(w, h) {
        OwnEmailFree(w.users, h.user.value);
        InsertKeepsEmailsUnique(w.users, h.user.value, Apply(w, ev).users[h.user.value]);
      }
    case UserSaved(id, row) => InsertKeepsEmailsUnique(w.users, id, row);
    case UserRemoved(id) => RemoveKeepsEmailsUnique(w.users, id);
    case _ =>
  }

  lemma OwnEmailFree(users: map<UserId, User>, id: UserId)
    requires UniqueEmails(users) && id in users
    ensures EmailFree(users, id, users[id].email)
  {
  }

  lemma RemoveKeepsEmailsUnique(users: map<UserId, User>, id: UserId)
    requires UniqueEmails(users)
    ensures UniqueEmails(users - {id})
  {
  }

  lemma {:induction false} EmailsStayUnique(w: World, evs: seq<Event>)
    requires UniqueEmails(w.users) && Run(w, evs).Some?
    ensures UniqueEmails(Run(w, evs).value.users)
    decreases |evs|
  {
    hide UniqueEmails, Apply, Enabled;
    if evs != [] {
      ApplyKeepsEmailsUnique(w, evs[0]);
      EmailsStayUnique(Apply(w, evs[0]), evs[1..]);
    }
  }

  lemma {:induction false} RunThen(w: World, evs: seq<Event>, at: World, ev: Event, next: World)
    requires Run(w, evs) == Some(at) && Enabled(at, ev) && Apply(at, ev) == next
    ensures Run(w, evs + [ev]) == Some(next)
    decreases |evs|
  {
    hide Apply, Enabled;
    if evs == [] {
      assert evs + [ev] == [ev];
      assert Run(next, []) == Some(next);
    } else {
      assert (evs + [ev])[1..] == evs[1..] + [ev];
      RunThen(Apply(w, evs[0]), evs[1..], at, ev, next);
    }
  }

  /** The tables after a step of the handler, which leaves it as `h`. */
  function Left(w: World, proof: nat, h: Handler): World {
    w.(handlers := w.handlers[proof := h])
  }

  /** A step that writes no table but only moves the handler on. */
  lemma Reads(w: World, evs: seq<Event>, proof: nat, h: Handler, next: Handler)
    requires Run(w, evs) == Some(Left(w, proof, h))
    requires h.phase.ReadPolicy? || h.phase.ReadBinding? || h.phase.ReadUser? || h.phase.Sweep?
      || h.phase.ReadRecovery? || h.phase.Provision? || h.phase.ReadLatest?
    requires NextHandler(Left(w, proof, h), h, proof, true, true) == next
    ensures Run(w, evs + [Steps(proof, true, true, {})]) == Some(Left(w, proof, next))
  {
    var at := Left(w, proof, h);
    assert at.handlers[proof := next] == w.handlers[proof := next];
    assert w.recovery - {} == w.recovery;
    hide NextHandler, Run;
    RunThen(w, evs, at, Steps(proof, true, true, {}), Left(w, proof, next));
  }

  /** A user of the saga is as it was made, and not bound: some handler stopped before its binding. */
  predicate Unfinished(w: World, u: UserId) {
    u.Owned? && u in w.users && u.proof in w.handlers && Slot(u.provider, u) in w.recovery &&
    var pending := w.handlers[u.proof].pending;
    && pending.provider == u.provider
    && w.users[u] == User(pending.email, Some(pending.tenant), true, false, Plain)
    && KeyOf(pending) !in w.bindings
    && RecoveryFits(w.recovery[Slot(u.provider, u)], pending)
  }

  /** Up to the binding, the retry only reads. */
  lemma RetryReads(w: World, u: UserId, proof: nat) returns (evs: seq<Event>, h: Handler)
    requires Unfinished(w, u) && UniqueEmails(w.users) && proof !in w.handlers
    ensures h.pending == w.handlers[u.proof].pending && h.user == Some(u) && h.phase == InsertBinding
    ensures Run(w, evs) == Some(Left(w, proof, h))
  {
    var pending := w.handlers[u.proof].pending;
    var h0 := Begun(pending);
    evs := [Verified(proof, pending)];
    assert Run(w, evs) == Some(Left(w, proof, h0)) by {
      assert Run(w, []) == Some(w);
      RunThen(w, [], w, Verified(proof, pending), Left(w, proof, h0));
      assert [] + evs == evs;
    }
    assert ByEmail(w.users, pending.email) == Some(u);
    hide Run, Linkable, ByEmail;
    assert Linkable(w.users[u], pending.tenant);
    var h1 := h0.(phase := ReadBinding, allowRegistration := true);
    Reads(w, evs, proof, h0, h1);
    evs := evs + [Steps(proof, true, true, {})];
    var h2 := h1.(phase := ReadUser);
    Reads(w, evs, proof, h1, h2);
    evs := evs + [Steps(proof, true, true, {})];
    var h3 := h2.(phase := Sweep, user := Some(u), seen := Some(w.users[u]));
    Reads(w, evs, proof, h2, h3);
    evs := evs + [Steps(proof, true, true, {})];
    Reads(w, evs, proof, h3, Go(h3, ReadRecovery));
    evs := evs + [Steps(proof, true, true, {})];
    Reads(w, evs, proof, Go(h3, ReadRecovery), Go(h3, Provision));
    evs := evs + [Steps(proof, true, true, {})];
    Reads(w, evs, proof, Go(h3, Provision), Go(h3, ReadLatest));
    evs := evs + [Steps(proof, true, true, {})];
    Reads(w, evs, proof, Go(h3, ReadLatest), Go(h3, InsertBinding));
    evs := evs + [Steps(proof, true, true, {})];
    h := Go(h3, InsertBinding);
  }

  lemma BindStep(at: World, proof: nat, h: Handler)
    requires proof in at.handlers && at.handlers[proof] == h && h.user.Some?
    requires h.phase.InsertBinding? && KeyOf(h.pending) !in at.bindings
    ensures Enabled(at, Steps(proof, true, true, {}))
    ensures Apply(at, Steps(proof, true, true, {})) ==
      at.(handlers := at.handlers[proof := Go(h, ReadBack)],
          bindings := at.bindings[KeyOf(h.pending) := Binding(h.user.value, h.pending.tenant, h.pending.email)])
  {
    hide UserRead, CanCreate, CanVerify, MayRecover, Linkable, EmailFree;
  }

  lemma ReadBackStep(at: World, proof: nat, h: Handler)
    requires proof in at.handlers && at.handlers[proof] == h && h.user.Some? && h.phase.ReadBack?
    requires KeyOf(h.pending) in at.bindings
    requires at.bindings[KeyOf(h.pending)] == Binding(h.user.value, h.pending.tenant, h.pending.email)
    ensures Enabled(at, Steps(proof, true, true, {}))
    ensures Apply(at, Steps(proof, true, true, {})) == Left(at, proof, Go(h, DeleteRecovery))
  {
    hide UserRead, CanCreate, CanVerify, MayRecover, Linkable, EmailFree;
  }

  lemma DeleteStep(at: World, proof: nat, h: Handler)
    requires proof in at.handlers && at.handlers[proof] == h && h.user.Some? && h.phase.DeleteRecovery?
    ensures Enabled(at, Steps(proof, true, true, {}))
    ensures Apply(at, Steps(proof, true, true, {})) ==
      Left(at, proof, Go(h, Completed)).(recovery := at.recovery - {Slot(h.pending.provider, h.user.value)})
  {
    hide UserRead, CanCreate, CanVerify, MayRecover, Linkable, EmailFree;
  }

  /** A handler at its binding step binds its user and lifts the guard. */
  lemma Finishes(w: World, evs: seq<Event>, proof: nat, h: Handler)
    requires Run(w, evs) == Some(Left(w, proof, h))
    requires h.phase.InsertBinding? && h.user.Some? && KeyOf(h.pending) !in w.bindings
    ensures var step := Steps(proof, true, true, {});
      Run(w, evs + [step] + [step] + [step]) ==
      Some(World(w.users, w.recovery - {Slot(h.pending.provider, h.user.value)},
                 w.bindings[KeyOf(h.pending) := Binding(h.user.value, h.pending.tenant, h.pending.email)],
                 w.handlers[proof := Go(h, Completed)], w.signIns, w.now))
  {
    hide Run, Apply, Enabled, NextHandler;
    var step := Steps(proof, true, true, {});
    var bound := w.bindings[KeyOf(h.pending) := Binding(h.user.value, h.pending.tenant, h.pending.email)];
    var a := Left(w, proof, Go(h, ReadBack)).(bindings := bound);
    var b := Left(w, proof, Go(h, DeleteRecovery)).(bindings := bound);
    var c := Left(w, proof, Go(h, Completed)).(
      bindings := bound, recovery := w.recovery - {Slot(h.pending.provider, h.user.value)});
    BindStep(Left(w, proof, h), proof, h);
    ReadBackStep(a, proof, Go(h, ReadBack));
    DeleteStep(b, proof, Go(h, DeleteRecovery));
    assert Left(w, proof, h).handlers[proof := Go(h, ReadBack)] == a.handlers;
    assert a.handlers[proof := Go(h, DeleteRecovery)] == b.handlers;
    assert b.handlers[proof := Go(h, Completed)] == c.handlers;
    RunThen(w, evs, Left(w, proof, h), step, a);
    RunThen(w, evs + [step], a, step, b);
    RunThen(w, evs + [step] + [step], b, step, c);
  }

  /**
   Whatever crash left the user unfinished, one more verification of the same identity, undisturbed and with
   the tenant's consent, binds it as proven and lifts the guard.
   */
  lemma RetryCompletes(w: World, u: UserId, proof: nat) returns (evs: seq<Event>)
    requires Unfinished(w, u) && UniqueEmails(w.users) && proof !in w.handlers
    ensures Run(w, evs).Some?
    ensures var next := Run(w, evs).value;
      && BoundAsProven(next, u)
      && next.users == w.users
      && next.recovery == w.recovery - {Slot(u.provider, u)}
      && proof in next.handlers && next.handlers[proof].phase.Completed?
  {
    var h: Handler;
    evs, h := RetryReads(w, u, proof);
    hide Run, UniqueEmails;
    Finishes(w, evs, proof, h);
    var step := Steps(proof, true, true, {});
    evs := evs + [step] + [step] + [step];
  }

  /** So a crash anywhere in any run is repaired: unless the user's row or its identity has changed since. */
  lemma CrashedRegistrationCompletes(evs: seq<Event>, u: UserId, proof: nat) returns (more: seq<Event>)
    requires Run(START, evs).Some? && PromptRun(START, evs)
    requires var w := Run(START, evs).value;
      && u.Owned? && u in w.users && proof !in w.handlers && u.proof in w.handlers
      && var pending := w.handlers[u.proof].pending;
      && w.users[u] == User(pending.email, Some(pending.tenant), true, false, Plain)
      && KeyOf(pending) !in w.bindings
    ensures var w := Run(START, evs).value;
      && HookRefuses(w, u)
      && Run(w, more).Some?
      && BoundAsProven(Run(w, more).value, u)
      && !HookRefuses(Run(w, more).value, u)
  {
    RunKeepsInv(START, evs);
    EmailsStayUnique(START, evs);
    var w := Run(START, evs).value;
    assert UserOk(w, u);
    assert SlotOk(w, Slot(u.provider, u));
    assert forall slot :: slot in w.recovery && slot.user == u ==> SlotOk(w, slot);
    hide Inv;
    more := RetryCompletes(w, u, proof);
  }

  // ----- why the sweep waits ---------------------------------------------------------------------------------

  /** A user is about to be made, and the address is free. */
  predicate AtCreation(w: World, proof: nat) {
    proof in w.handlers && w.handlers[proof].phase.CreateUser? && CanCreate(w, w.handlers[proof], proof)
    && KeyOf(w.handlers[proof].pending) !in w.bindings
  }

  /** Create the user, and sign in as that user at once. */
  function CreateAndSignIn(w: World, proof: nat, who: nat): seq<Event>
    requires proof in w.handlers
  {
    var u := Own(w.handlers[proof], proof);
    [Steps(proof, true, true, {}), SignInFinds(who, u), SignInSteps(who), SignInSteps(who), SignInSteps(who),
     SignInSteps(who)]
  }

  /**
   The guard holds if and only if the recovery row is still there when the user is made: a session of the new
   user is issued, without a binding, exactly when the row was swept before. Reachable states keep the row for
   twenty minutes, so a prompt handler is safe.
   */
  lemma GuardedIffRowPresent(w: World, proof: nat, who: nat)
    requires AtCreation(w, proof) && who !in w.signIns
    requires forall slot :: slot in w.recovery ==> slot.user == Owned(slot.provider, w.recovery[slot].proof)
    ensures var u := Own(w.handlers[proof], proof);
      var next := Run(w, CreateAndSignIn(w, proof, who));
      && next.Some? && who in next.value.signIns && next.value.signIns[who].user == u && !BoundAsProven(next.value, u)
      && (next.value.signIns[who].phase.Issued? <==> Slot(u.provider, u) !in w.recovery)
  {
    var h := w.handlers[proof];
    var u := Own(h, proof);
    assert CreateAndSignIn(w, proof, who)[1..] == SignInAs(u, who);
    var a := Apply(w, CreateAndSignIn(w, proof, who)[0]);
    assert a.recovery == w.recovery && a.bindings == w.bindings && a.signIns == w.signIns;
    assert u in a.users && !a.users[u].banned && a.handlers[proof].pending == h.pending;
    hide HandlerStep, CanCreate;
    SignInEnds(a, u, who);
    assert forall p :: Slot(p, u) in w.recovery ==> p == u.provider;
  }

  function SignInAs(u: UserId, who: nat): seq<Event> {
    [SignInFinds(who, u), SignInSteps(who), SignInSteps(who), SignInSteps(who), SignInSteps(who)]
  }

  /** An undisturbed sign-in ends with a session unless the hook refuses. */
  lemma SignInEnds(w: World, u: UserId, who: nat)
    requires u in w.users && !w.users[u].banned && who !in w.signIns
    ensures var next := Run(w, SignInAs(u, who));
      && next.Some? && who in next.value.signIns && next.value.signIns[who].user == u
      && next.value.bindings == w.bindings && next.value.handlers == w.handlers
      && (next.value.signIns[who].phase.Issued? <==> !HookRefuses(w, u))
  {
    var step := SignInSteps(who);
    var b := Apply(w, SignInFinds(who, u));
    var c := SignInStep(b, who);
    var d := SignInStep(c, who);
    var f := SignInStep(d, who);
    var g := SignInStep(f, who);
    assert g.signIns[who].phase.Issued? <==> !HookRefuses(w, u);
    hide SignInStep;
    assert Run(g, []) == Some(g);
    assert Run(f, [step]) == Some(g);
    assert [step, step][1..] == [step];
    assert Run(d, [step, step]) == Some(g);
    assert [step, step, step][1..] == [step, step];
    assert Run(c, [step, step, step]) == Some(g);
    assert [step, step, step, step][1..] == [step, step, step];
    assert Run(b, [step, step, step, step]) == Some(g);
    assert SignInAs(u, who)[1..] == [step, step, step, step];
  }

  // ----- and the sweep does come first

  /** A session was issued to a user of the saga whose identity is not bound. */
  ghost predicate Breached(w: World) {
    exists who :: who in w.signIns && w.signIns[who].phase.Issued? && w.signIns[who].user.Owned?
      && !BoundAsProven(w, w.signIns[who].user)
  }

  lemma {:induction false} RunAppends(w: World, evs: seq<Event>, more: seq<Event>)
    requires Run(w, evs).Some?
    ensures Run(w, evs + more) == Run(Run(w, evs).value, more)
    decreases |evs|
  {
    hide Apply, Enabled;
    if evs == [] {
      assert evs + more == more;
    } else {
      assert (evs + more)[1..] == evs[1..] + more;
      RunAppends(Apply(w, evs[0]), evs[1..], more);
    }
  }

  /** A newcomer's verification, up to the sweep. */
  function Reading(pending: Pending): Handler {
    Begun(pending).(phase := Sweep, allowRegistration := true)
  }

  lemma NewcomerReads(w: World, before: seq<Event>, proof: nat, pending: Pending) returns (evs: seq<Event>)
    requires Run(START, before) == Some(w)
    requires w.users == map[] && w.bindings == map[] && proof !in w.handlers
    ensures Run(START, evs) == Some(Left(w, proof, Reading(pending)))
  {
    var step := Steps(proof, true, true, {});
    var h0 := Begun(pending);
    var h1 := h0.(phase := ReadBinding, allowRegistration := true);
    var h2 := h1.(phase := ReadUser);
    assert Run(w, []) == Some(w);
    assert ByEmail(w.users, pending.email) == None;
    hide Run, ByEmail;
    RunThen(w, [], w, Verified(proof, pending), Left(w, proof, h0));
    evs := [] + [Verified(proof, pending)];
    Reads(w, evs, proof, h0, h1);
    evs := evs + [step];
    Reads(w, evs, proof, h1, h2);
    evs := evs + [step];
    Reads(w, evs, proof, h2, Reading(pending));
    evs := evs + [step];
    RunAppends(START, before, evs);
    evs := before + evs;
  }

  const FIRST := Pending(Microsoft, 10, 20, 30)
  const SECOND := Pending(Microsoft, 11, 20, 31)
  const CREATING := Handler(FIRST, CreateUser, true, None, None, None, 0)

  /** The first handler writes its recovery row and stops there. */
  lemma FirstStops() returns (evs: seq<Event>)
    ensures Run(START, evs)
      == Some(World(map[], map[Slot(Microsoft, Owned(Microsoft, 1)) := Recovery(1, 10, 20, 30, 0)], map[],
                    map[1 := CREATING], map[], 0))
  {
    var step := Steps(1, true, true, {});
    assert Run(START, []) == Some(START);
    hide Run;
    evs := NewcomerReads(START, [], 1, FIRST);
    var a := Left(START, 1, Reading(FIRST));
    var b := Left(START, 1, Go(Reading(FIRST), WriteRecovery));
    assert START.recovery - {} == START.recovery;
    RunThen(START, evs, a, step, b);
    evs := evs + [step];
    RunThen(START, evs, b, step,
            World(map[], map[Slot(Microsoft, Owned(Microsoft, 1)) := Recovery(1, 10, 20, 30, 0)], map[],
                  map[1 := CREATING], map[], 0));
    evs := evs + [step];
  }

  const SWEPT := World(map[], map[], map[],
                       map[1 := CREATING, 2 := Reading(SECOND).(phase := WriteRecovery)], map[], RECOVERY_AGE + 1)

  /** More than twenty minutes later another verification sweeps the row. */
  lemma SecondSweeps(before: seq<Event>) returns (evs: seq<Event>)
    requires Run(START, before)
      == Some(World(map[], map[Slot(Microsoft, Owned(Microsoft, 1)) := Recovery(1, 10, 20, 30, 0)], map[],
                    map[1 := CREATING], map[], 0))
    ensures Run(START, evs) == Some(SWEPT)
  {
    var slot := Slot(Microsoft, Owned(Microsoft, 1));
    var a := World(map[], map[slot := Recovery(1, 10, 20, 30, 0)], map[], map[1 := CREATING], map[], 0);
    var b := a.(now := RECOVERY_AGE + 1);
    hide Run;
    RunThen(START, before, a, TimePasses(RECOVERY_AGE + 1), b);
    evs := before + [TimePasses(RECOVERY_AGE + 1)];
    evs := NewcomerReads(b, evs, 2, SECOND);
    var c := Left(b, 2, Reading(SECOND));
    var sweep := Steps(2, true, true, {slot});
    assert c.recovery - {slot} == map[];
    assert Apply(c, sweep) == SWEPT;
    RunThen(START, evs, c, sweep, SWEPT);
    evs := evs + [sweep];
  }

  /** The first handler goes on, makes its user, and the user gets a session without a binding. */
  lemma SweptBeforeCreation() returns (evs: seq<Event>)
    ensures Run(START, evs).Some? && Breached(Run(START, evs).value)
  {
    hide Run;
    evs := FirstStops();
    evs := SecondSweeps(evs);
    assert AtCreation(SWEPT, 1);
    GuardedIffRowPresent(SWEPT, 1, 0);
    RunAppends(START, evs, CreateAndSignIn(SWEPT, 1, 0));
    evs := evs + CreateAndSignIn(SWEPT, 1, 0);
  }

  // ----- whom a verification links, and whom it refuses ---------------------------------------------------

  /** What the row of an account must be, told by its fields, for this proof to lead to it. */
  predicate OwnAccount(row: User, pending: Pending) {
    row.email == pending.email && row.tenant == Some(pending.tenant) && !row.banned && row.role != Admin
  }

  /**
   Exactly when a step of a handler refuses: by the policy; by the account that has the address, or by the lack of
   one; by an unfinished registration that is another's or is not allowed; by what the account has become since; by
   a binding that is not as proven. A step that refuses writes neither users nor bindings.
   */
  lemma RefusedIff(w: World, ev: Event, u: UserId)
    requires Enabled(w, ev) && ev.Steps? && UniqueEmails(w.users)
    requires var h := w.handlers[ev.proof]; Userless(h.phase) ==> h.user.None?
    requires var h := w.handlers[ev.proof]; h.phase.ReadRecovery? || Late(h.phase) ==> h.user == Some(u)
    requires var h := w.handlers[ev.proof];
      h.phase.ReadUser? && (exists v :: v in w.users && w.users[v].email == h.pending.email) ==>
        u in w.users && w.users[u].email == h.pending.email
    ensures var h, next := w.handlers[ev.proof], Apply(w, ev);
      var pending, key := h.pending, KeyOf(h.pending);
      next.handlers[ev.proof].phase.Denied? <==>
        match h.phase
        case ReadPolicy => !ev.ok
        case ReadUser =>
          if exists v :: v in w.users && w.users[v].email == pending.email
          then (h.bound.Some? && h.bound != Some(u)) || !OwnAccount(w.users[u], pending)
          else h.bound.Some?
        case Sweep => h.user.None? && !h.allowRegistration
        case ReadRecovery =>
          Slot(pending.provider, u) in w.recovery &&
          var row := w.recovery[Slot(pending.provider, u)];
          !(h.allowRegistration && h.seen.Some? && h.seen.value.role == Plain && h.seen.value.verified
            && row.subject == pending.subject && row.tenant == pending.tenant && row.email == pending.email)
        case CreateUser =>
          Own(h, ev.proof) in w.users || exists v :: v in w.users && w.users[v].email == pending.email
        case Provision => !ev.ok
        case ReadLatest => u !in w.users || !OwnAccount(w.users[u], pending)
        case VerifyUser => u !in w.users || !OwnAccount(w.users[u], pending) || w.users[u].role != Plain
        case ReadBack => key !in w.bindings || w.bindings[key] != Binding(u, pending.tenant, pending.email)
        case _ => false
    ensures var next := Apply(w, ev);
      next.handlers[ev.proof].phase.Denied? ==> next.users == w.users && next.bindings == w.bindings
  {
    hide NextRecovery;
    var h := w.handlers[ev.proof];
    if h.phase.ReadUser? {
      var found := ByEmail(w.users, h.pending.email);
      assert found.Some? ==> found.value == u;
    }
    if h.phase.CreateUser? {
      assert CanCreate(w, h, ev.proof) <==>
        Own(h, ev.proof) !in w.users && forall v :: v in w.users ==> w.users[v].email != h.pending.email;
    }
  }

  /**
   A step of a handler leaves the tables of the other provider alone, and of the recovery rows it sweeps only those
   that are past their time and have no user.
   */
  lemma OwnTablesOnly(w: World, ev: Event)
    requires Enabled(w, ev) && ev.Steps?
    ensures var h, next := w.handlers[ev.proof], Apply(w, ev);
      && (forall slot: Slot :: slot.provider != h.pending.provider ==>
            (slot in w.recovery <==> slot in next.recovery)
            && (slot in w.recovery ==> next.recovery[slot] == w.recovery[slot]))
      && (forall key: Key :: key.provider != h.pending.provider ==>
            (key in w.bindings <==> key in next.bindings)
            && (key in w.bindings ==> next.bindings[key] == w.bindings[key]))
      && (forall slot :: slot in w.recovery && slot !in next.recovery ==>
            || (h.phase.DeleteRecovery? && h.user == Some(slot.user))
            || (h.phase.Sweep? && slot.user !in w.users && w.recovery[slot].createdAt + 20 * 60 * 1000 < w.now))
  {
    hide NextHandler, NextUsers;
  }

  /** A handler that has refused takes no more steps. */
  lemma RefusedForGood(w: World, ev: Event, proof: nat)
    requires Enabled(w, ev) && proof in w.handlers && w.handlers[proof].phase.Denied?
    ensures proof in Apply(w, ev).handlers && Apply(w, ev).handlers[proof] == w.handlers[proof]
    ensures ev.Steps? ==> ev.proof != proof
  {
    hide NextHandler, NextUsers, NextRecovery, NextBindings;
  }

  ghost predicate IsRun(evs: seq<Event>) {
    Run(START, evs).Some?
  }

  /** The world after the first `k` events of a run. */
  ghost function At(evs: seq<Event>, k: nat): World
    requires IsRun(evs) && k <= |evs|
  {
    assert evs[..k] + evs[k..] == evs;
    RunSplits(START, evs[..k], evs[k..]);
    Run(START, evs[..k]).value
  }

  lemma {:induction false} RunSplits(w: World, evs: seq<Event>, more: seq<Event>)
    requires Run(w, evs + more).Some?
    ensures Run(w, evs).Some? && Run(w, evs + more) == Run(Run(w, evs).value, more)
    decreases |evs|
  {
    hide Apply, Enabled;
    if evs == [] {
      assert evs + more == more;
    } else {
      assert (evs + more)[1..] == evs[1..] + more;
      RunSplits(Apply(w, evs[0]), evs[1..], more);
    }
  }

  lemma AtNext(evs: seq<Event>, k: nat)
    requires IsRun(evs) && k < |evs|
    ensures Enabled(At(evs, k), evs[k]) && At(evs, k + 1) == Apply(At(evs, k), evs[k])
  {
    hide Apply, Enabled;
    assert evs[..k] + evs[k..] == evs;
    RunSplits(START, evs[..k], evs[k..]);
    assert evs[k..][0] == evs[k];
    RunThen(START, evs[..k], At(evs, k), evs[k], Apply(At(evs, k), evs[k]));
    assert evs[..k] + [evs[k]] == evs[..k + 1];
  }

  lemma AtStart(evs: seq<Event>)
    requires IsRun(evs)
    ensures At(evs, 0) == START
  {
  }

  /** The step of this handler at moment `i`, in this phase. */
  ghost predicate StepAt(evs: seq<Event>, i: nat, proof: nat, phase: Phase)
    requires IsRun(evs) && i < |evs|
  {
    evs[i].Steps? && evs[i].proof == proof && proof in At(evs, i).handlers && At(evs, i).handlers[proof].phase == phase
  }

  /** At moment `i` the tenant's policy allowed the provider, and registration as it says. */
  ghost predicate PolicyAt(evs: seq<Event>, i: nat, proof: nat, allow: bool)
    requires IsRun(evs) && i < |evs|
  {
    StepAt(evs, i, proof, ReadPolicy) && evs[i].ok && evs[i].allow == allow
  }

  /** At moment `i` the handler looked once more at this account, and it was the one of the proof. */
  ghost predicate LookedAt(evs: seq<Event>, i: nat, proof: nat, pending: Pending, u: UserId)
    requires IsRun(evs) && i < |evs|
  {
    StepAt(evs, i, proof, ReadLatest) && u in At(evs, i).users && OwnAccount(At(evs, i).users[u], pending)
  }

  /** At moment `i` the handler found the address of this account verified, or verified it. */
  ghost predicate VerifiedAt(evs: seq<Event>, i: nat, proof: nat, u: UserId)
    requires IsRun(evs) && i < |evs|
  {
    (StepAt(evs, i, proof, ReadLatest) || StepAt(evs, i, proof, VerifyUser))
    && u in At(evs, i + 1).users && At(evs, i + 1).users[u].verified
  }

  /** What a handler has behind it at moment `k`. */
  ghost predicate Trail(evs: seq<Event>, k: nat, proof: nat)
    requires IsRun(evs) && k <= |evs| && proof in At(evs, k).handlers
  {
    var h := At(evs, k).handlers[proof];
    && (!h.phase.ReadPolicy? && !h.phase.Denied? ==>
          exists i :: 0 <= i < k && PolicyAt(evs, i, proof, h.allowRegistration))
    && (h.phase.WriteRecovery? || h.phase.CreateUser? ==> h.allowRegistration)
    && (h.phase.VerifyUser? || h.phase.InsertBinding? ==>
          h.user.Some? && exists i :: 0 <= i < k && LookedAt(evs, i, proof, h.pending, h.user.value))
    && (h.phase.InsertBinding? ==>
          h.user.Some? && exists i :: 0 <= i < k && VerifiedAt(evs, i, proof, h.user.value))
  }

  /** The same, without the run: what one step adds. */
  lemma StepTrails(w: World, ev: Event)
    requires Enabled(w, ev) && ev.Steps?
    ensures var h, next := w.handlers[ev.proof], Apply(w, ev);
      var g := next.handlers[ev.proof];
      && g.pending == h.pending
      && (!g.phase.ReadPolicy? && !g.phase.Denied? ==>
            !h.phase.Denied? && if h.phase.ReadPolicy? then ev.ok && ev.allow == g.allowRegistration
                                else h.allowRegistration == g.allowRegistration)
      && (g.phase.WriteRecovery? ==> h.phase.Sweep? && g.allowRegistration)
      && (g.phase.CreateUser? ==> h.phase.WriteRecovery?)
      && (g.phase.VerifyUser? || g.phase.InsertBinding? ==>
            g.user == h.user &&
            (h.phase.VerifyUser?
             || (h.phase.ReadLatest? && h.user.Some? && h.user.value in w.users
                 && OwnAccount(w.users[h.user.value], h.pending))))
      && (g.phase.VerifyUser? ==> h.phase.ReadLatest?)
      && (g.phase.InsertBinding? ==>
            h.user.Some? && h.user.value in next.users && next.users[h.user.value].verified)
  {
    hide NextRecovery;
  }

  lemma OthersStand(w: World, ev: Event, proof: nat)
    requires Enabled(w, ev) && proof in Apply(w, ev).handlers && !(ev.Steps? && ev.proof == proof)
    ensures if proof in w.handlers then Apply(w, ev).handlers[proof] == w.handlers[proof]
            else Apply(w, ev).handlers[proof].phase.ReadPolicy?
  {
    hide NextHandler, NextUsers, NextRecovery, NextBindings;
  }

  lemma {:induction false} HasTrail(evs: seq<Event>, k: nat, proof: nat)
    requires IsRun(evs) && k <= |evs| && proof in At(evs, k).handlers
    ensures Trail(evs, k, proof)
    decreases k
  {
    hide IsRun, At, Apply, Enabled;
    if k == 0 {
      AtStart(evs);
      assert false;
    } else {
      AtNext(evs, k - 1);
      var ev := evs[k - 1];
      if ev.Steps? && ev.proof == proof {
        assert proof in At(evs, k - 1).handlers by { StepsKnown(At(evs, k - 1), ev); }
        HasTrail(evs, k - 1, proof);
        StepTrails(At(evs, k - 1), ev);
        TrailGoesOn(evs, k, proof);
      } else {
        OthersStand(At(evs, k - 1), ev, proof);
        if proof in At(evs, k - 1).handlers {
          HasTrail(evs, k - 1, proof);
          TrailStays(evs, k, proof);
        }
      }
    }
  }

  lemma StepsKnown(w: World, ev: Event)
    requires Enabled(w, ev) && ev.Steps?
    ensures ev.proof in w.handlers
  {
  }

  lemma TrailStays(evs: seq<Event>, k: nat, proof: nat)
    requires IsRun(evs) && 0 < k <= |evs| && proof in At(evs, k - 1).handlers && Trail(evs, k - 1, proof)
    requires proof in At(evs, k).handlers && At(evs, k).handlers[proof] == At(evs, k - 1).handlers[proof]
    ensures Trail(evs, k, proof)
  {
    hide IsRun, At, PolicyAt, LookedAt, VerifiedAt;
  }

  lemma TrailGoesOn(evs: seq<Event>, k: nat, proof: nat)
    requires IsRun(evs) && 0 < k <= |evs| && proof in At(evs, k - 1).handlers && Trail(evs, k - 1, proof)
    requires evs[k - 1].Steps? && evs[k - 1].proof == proof
    requires Enabled(At(evs, k - 1), evs[k - 1]) && At(evs, k) == Apply(At(evs, k - 1), evs[k - 1])
    requires proof in At(evs, k).handlers
    ensures Trail(evs, k, proof)
  {
    StepTrails(At(evs, k - 1), evs[k - 1]);
    hide IsRun, At, Apply, Enabled, OwnAccount;
    var h, g := At(evs, k - 1).handlers[proof], At(evs, k).handlers[proof];
    assert StepAt(evs, k - 1, proof, h.phase);
    if !g.phase.ReadPolicy? && !g.phase.Denied? {
      if h.phase.ReadPolicy? {
        assert PolicyAt(evs, k - 1, proof, g.allowRegistration);
      } else {
        var i :| 0 <= i < k - 1 && PolicyAt(evs, i, proof, h.allowRegistration);
        assert PolicyAt(evs, i, proof, g.allowRegistration);
      }
    }
    if g.phase.VerifyUser? || g.phase.InsertBinding? {
      if h.phase.ReadLatest? {
        assert LookedAt(evs, k - 1, proof, g.pending, g.user.value);
      } else {
        var i :| 0 <= i < k - 1 && LookedAt(evs, i, proof, h.pending, h.user.value);
        assert LookedAt(evs, i, proof, g.pending, g.user.value);
      }
    }
    if g.phase.InsertBinding? {
      assert VerifiedAt(evs, k - 1, proof, g.user.value);
    }
  }

  /**
   Over every run: a binding is added only for an account that its handler, on its last look, saw to have the proven
   address and to be of the proven tenant, not banned and no administrator's; with its address verified; and after
   the tenant's policy had allowed the provider.
   */
  lemma BindingsAreOwnAccounts(evs: seq<Event>, k: nat, key: Key)
    requires IsRun(evs) && k < |evs| && key !in At(evs, k).bindings && key in At(evs, k + 1).bindings
    ensures evs[k].Steps? && evs[k].proof in At(evs, k).handlers
    ensures var proof := evs[k].proof; var pending := At(evs, k).handlers[proof].pending;
      var b := At(evs, k + 1).bindings[key];
      && key == Key(pending.provider, pending.subject) && b.tenant == pending.tenant && b.email == pending.email
      && (exists i :: 0 <= i < k && LookedAt(evs, i, proof, pending, b.user))
      && (exists i :: 0 <= i < k && VerifiedAt(evs, i, proof, b.user))
      && (exists i, allow :: 0 <= i < k && PolicyAt(evs, i, proof, allow))
  {
    AtNext(evs, k);
    BindingStep(At(evs, k), evs[k], key);
    HasTrail(evs, k, evs[k].proof);
    hide IsRun, At, Apply, Enabled, LookedAt, VerifiedAt, PolicyAt;
  }

  /** A binding is added only by a handler at its insert, as its proof says. */
  lemma BindingStep(w: World, ev: Event, key: Key)
    requires Enabled(w, ev) && key !in w.bindings && key in Apply(w, ev).bindings
    ensures ev.Steps? && ev.proof in w.handlers && var h := w.handlers[ev.proof];
      && h.phase.InsertBinding? && key == KeyOf(h.pending) && h.user.Some?
      && Apply(w, ev).bindings[key] == Binding(h.user.value, h.pending.tenant, h.pending.email)
  {
    hide NextHandler, NextUsers, NextRecovery;
  }

  /**
   Over every run: a user of the saga is made only after the tenant's policy had allowed registration, with the proven
   address and tenant, verified, not banned and without any elevated role.
   */
  lemma UsersAreRegistered(evs: seq<Event>, k: nat, u: UserId)
    requires IsRun(evs) && k < |evs| && u.Owned? && u !in At(evs, k).users && u in At(evs, k + 1).users
    ensures evs[k].Steps? && evs[k].proof == u.proof && u.proof in At(evs, k).handlers
    ensures var pending := At(evs, k).handlers[u.proof].pending;
      && At(evs, k + 1).users[u] == User(pending.email, Some(pending.tenant), true, false, Plain)
      && exists i :: 0 <= i < k && PolicyAt(evs, i, u.proof, true)
  {
    AtNext(evs, k);
    UserStep(At(evs, k), evs[k], u);
    HasTrail(evs, k, u.proof);
    hide IsRun, At, Apply, Enabled, LookedAt, VerifiedAt, PolicyAt;
  }

  lemma UserStep(w: World, ev: Event, u: UserId)
    requires Enabled(w, ev) && u.Owned? && u !in w.users && u in Apply(w, ev).users
    ensures ev.Steps? && ev.proof == u.proof && u.proof in w.handlers && var h := w.handlers[u.proof];
      && h.phase.CreateUser?
      && Apply(w, ev).users[u] == User(h.pending.email, Some(h.pending.tenant), true, false, Plain)
  {
    hide NextHandler, NextRecovery, NextBindings, EmailFree;
  }

  /** Whom a bound subject is: the account it is bound to, while that is still the verified account of the proof. */
  lemma ProvenIsOwnAccount(w: World, key: Key, tenant: Option<nat>)
    ensures Proven(w, key, tenant).Some? <==>
      key in w.bindings &&
      var b := w.bindings[key];
      && (tenant.Some? ==> tenant.value == b.tenant)
      && b.user in w.users
      && w.users[b.user].email == b.email && w.users[b.user].tenant == Some(b.tenant)
      && w.users[b.user].verified && !w.users[b.user].banned && w.users[b.user].role != Admin
    ensures Proven(w, key, tenant).Some? ==>
      Proven(w, key, tenant).value == (w.bindings[key].user, w.users[w.bindings[key].user])
  {
  }
}

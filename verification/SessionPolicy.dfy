/**
 Session creation against policy changes (`tenant-sso.ts`, `social-sign-in.ts`), for one tenant. There is no
 transaction: a sign-in checks, inserts its session, checks again and deletes it when the second check fails;
 a settings request writes the policy and then revokes every session of the tenant. Each read and each write
 is one step here, and any number of sign-ins and settings requests interleave.
 */
module SessionPolicy {
  import opened Wrappers

  // ----- the tables ---------------------------------------------------------------

  /** The tenant's row of `ssoProvider`. */
  datatype SsoRow = SsoRow(
    id: nat, providerId: nat, enabled: bool, ssoOnly: bool, tenantActive: bool, revision: nat
  )

  datatype SocialProvider = Google | Microsoft | ChatGpt

  /** The tenant's row of `tenantSocialSettings`. */
  datatype SocialRow = SocialRow(id: nat, active: bool, allowed: set<SocialProvider>, revision: nat)

  /** The policy of the tenant; `state` is its row of `tenantAuthState`. */
  datatype Policy = Policy(sso: Option<SsoRow>, social: Option<SocialRow>, state: Option<bool>)

  // ----- what a sign-in checks --------------------------------------------------------

  /**
   How a session is authorised: by the connection or settings at a revision, or by password. The revision is
   the one the sign-in's first read finds, or the one its multi-factor marker recorded earlier.
   */
  datatype Proof =
    | Saml(providerId: nat, revision: nat)
    | Social(provider: SocialProvider, revision: nat)
    | Password

  /** One read of the policy and the condition on it. */
  datatype Check =
    | ConnectionStands(providerId: nat, revision: nat)
    | TenantActive
    | NotSsoOnly
    | SettingsStand(provider: SocialProvider, revision: nat)

  /** `assertSAMLUser` and the revision test; `assertAllowed` in order; `assertPasswordAllowed`. */
  function Checks(proof: Proof): seq<Check> {
    match proof
    case Saml(id, revision) => [ConnectionStands(id, revision), TenantActive]
    case Social(provider, revision) => [NotSsoOnly, TenantActive, SettingsStand(provider, revision)]
    case Password => [NotSsoOnly]
  }

  predicate Holds(p: Policy, c: Check) {
    match c
    case ConnectionStands(id, revision) =>
      p.sso.Some? && p.sso.value.providerId == id && p.sso.value.revision == revision
      && p.sso.value.enabled && p.sso.value.tenantActive
    case TenantActive => p.state != Some(false)
    case NotSsoOnly => p.sso.Some? ==> !p.sso.value.ssoOnly
    case SettingsStand(provider, revision) =>
      p.social.Some? && p.social.value.active && provider in p.social.value.allowed
      && p.social.value.revision == revision
  }

  /** The session would be issued under the policy as it stands. */
  predicate Conforms(p: Policy, proof: Proof) {
    forall i :: 0 <= i < |Checks(proof)| ==> Holds(p, Checks(proof)[i])
  }

  /** A sign-in: `n` checks done before the insert, or after it. A crash is a sign-in that takes no more steps. */
  datatype SignInPhase = Before(n: nat) | After(n: nat) | Refusing | Refused | Accepted

  datatype SignIn = SignIn(proof: Proof, phase: SignInPhase)

  // ----- settings requests --------------------------------------------------------------

  datatype Request =
    | SsoPut(enabled: bool, ssoOnly: bool, rotate: bool)
    | SsoDelete
    | SocialPut(allowed: set<SocialProvider>)
    | SocialDelete
    | SocialActivity(active: bool)

  datatype ChangePhase = Reading | Disabling | Writing | Revoking | Removing

  /** A settings request under way; `row` is the row its first read found, and a PUT keeps its `providerId`. */
  datatype Change = Change(request: Request, phase: ChangePhase, row: Option<nat>, providerId: nat)

  /** The connection, or the social settings. */
  datatype Kind = Connection | SocialSettings

  /**
   The whole state. The session of a sign-in has the sign-in's name. The last three fields are history: names
   used so far, the requests whose writes no revocation has followed yet, and what has been made stricter since the
   last revocation by a request that is not going to revoke.
   */
  datatype World = World(
    policy: Policy,
    sessions: set<nat>,
    signIns: map<nat, SignIn>,
    changes: map<nat, Change>,
    fresh': nat,
    owing: set<nat>,
    lost: set<Kind>
  )

  const START := World(Policy(None, None, None), {}, map[], map[], 0, {}, {})

  datatype Event =
    | SignInBegins(who: nat, proof: Proof)
    | SignInSteps(who: nat)
    | ChangeBegins(who: nat, request: Request)
    | ChangeSteps(who: nat)
    | TenantActivity(active: bool)

  predicate Enabled(w: World, ev: Event) {
    match ev
    case SignInBegins(who, _) => who !in w.signIns
    case SignInSteps(who) => who in w.signIns && !w.signIns[who].phase.Refused? && !w.signIns[who].phase.Accepted?
    case ChangeBegins(who, request) =>
      who !in w.changes && (request.SsoPut? && request.ssoOnly ==> request.enabled)
    case ChangeSteps(who) => who in w.changes
    case TenantActivity(_) => true
  }

  // ----- sign-in steps ---------------------------------------------------------------------

  function SignInStep(w: World, who: nat): World
    requires who in w.signIns
  {
    var s := w.signIns[who];
    var checks := Checks(s.proof);
    match s.phase
    case Before(n) =>
      if n < |checks| then
        w.(signIns := w.signIns[who := s.(phase := if Holds(w.policy, checks[n]) then Before(n + 1) else Refused)])
      else
        w.(signIns := w.signIns[who := s.(phase := After(0))], sessions := w.sessions + {who})
    case After(n) =>
      var next :=
        if n >= |checks| then Accepted
        else if Holds(w.policy, checks[n]) then After(n + 1) else Refusing;
      w.(signIns := w.signIns[who := s.(phase := next)])
    case Refusing =>
      w.(signIns := w.signIns[who := s.(phase := Refused)], sessions := w.sessions - {who})
    case Refused => w
    case Accepted => w
  }

  // ----- settings steps --------------------------------------------------------------------

  function Revoke(w: World): World {
    w.(sessions := {}, owing := {}, lost := {})
  }

  /** A write by a request that goes on to revoke. */
  function Wrote(w: World, who: nat, policy: Policy, next: ChangePhase): World
    requires who in w.changes
  {
    w.(policy := policy, changes := w.changes[who := w.changes[who].(phase := next)],
       fresh' := w.fresh' + 1, owing := w.owing + {who})
  }

  /** The revocation of a write of this kind is lost. */
  function Losing(w: World, yes: bool, kind: Kind): set<Kind> {
    if yes then w.lost + {kind} else w.lost
  }

  /** The request ends here. The one write it can still owe a revocation for is the first of a PUT. */
  function Ended(w: World, who: nat): World {
    w.(changes := w.changes - {who}, owing := w.owing - {who}, lost := Losing(w, who in w.owing, Connection))
  }

  function HasSsoRow(p: Policy, row: Option<nat>): bool {
    p.sso.Some? && row == Some(p.sso.value.id)
  }

  function HasSocialRow(p: Policy, row: Option<nat>): bool {
    p.social.Some? && row == Some(p.social.value.id)
  }

  function SsoPutStep(w: World, who: nat): World
    requires who in w.changes && w.changes[who].request.SsoPut?
  {
    var c := w.changes[who];
    var p := w.policy;
    match c.phase
    case Reading =>
      var next := if p.sso.None? then c.(phase := Writing, row := None)
                  else c.(phase := Disabling, row := Some(p.sso.value.id), providerId := p.sso.value.providerId);
      w.(changes := w.changes[who := next])
    case Disabling =>
      var next := w.(changes := w.changes[who := c.(phase := Writing)]);
      if !HasSsoRow(p, c.row) || !p.sso.value.enabled then next
      else next.(policy := p.(sso := Some(p.sso.value.(enabled := false))), owing := w.owing + {who})
    case Writing =>
      if c.row.Some? then
        if !HasSsoRow(p, c.row) then Ended(w, who) else
        var row := p.sso.value.(
          providerId := if c.request.rotate then w.fresh' else c.providerId,
          enabled := c.request.enabled, ssoOnly := c.request.ssoOnly, revision := w.fresh');
        Wrote(w, who, p.(sso := Some(row)), Revoking)
      else if p.sso.Some? then Ended(w, who)
      else
        var row := SsoRow(w.fresh', w.fresh', c.request.enabled, c.request.ssoOnly, true, w.fresh');
        Wrote(w, who, p.(sso := Some(row)), Revoking)
    case Revoking => Ended(Revoke(w), who)
    case Removing => w
  }

  function SsoDeleteStep(w: World, who: nat): World
    requires who in w.changes && w.changes[who].request.SsoDelete?
  {
    var c := w.changes[who];
    var p := w.policy;
    match c.phase
    case Reading =>
      if p.sso.None? then Ended(w, who)
      else w.(changes := w.changes[who := c.(phase := Disabling, row := Some(p.sso.value.id))])
    case Disabling =>
      var policy := if HasSsoRow(p, c.row) then p.(sso := Some(p.sso.value.(enabled := false))) else p;
      Wrote(w, who, policy, Revoking)
    case Revoking =>
      var r := Revoke(w);
      r.(changes := r.changes[who := c.(phase := Removing)])
    case Removing =>
      if !HasSsoRow(p, c.row) then Ended(w, who) else
      var on := p.sso.value.enabled && p.sso.value.tenantActive;
      Ended(w.(policy := p.(sso := None), lost := Losing(w, on, Connection)), who)
    case Writing => w
  }

  function SocialStep(w: World, who: nat): World
    requires who in w.changes && !w.changes[who].request.SsoPut? && !w.changes[who].request.SsoDelete?
  {
    var c := w.changes[who];
    var p := w.policy;
    match c.phase
    case Reading =>
      if p.social.None? then
        if c.request.SocialPut? then w.(changes := w.changes[who := c.(phase := Writing)]) else Ended(w, who)
      else w.(changes := w.changes[who := c.(phase := Writing, row := Some(p.social.value.id))])
    case Writing =>
      if c.row.None? && p.social.Some? then Ended(w, who) else
      var policy :=
        if c.row.None? then p.(social := Some(SocialRow(w.fresh', true, AllowedBy(c.request), w.fresh')))
        else if !HasSocialRow(p, c.row) then p
        else
          var row := p.social.value.(revision := w.fresh');
          p.(social := Some(
            match c.request
            case SocialPut(allowed) => row.(allowed := allowed)
            case SocialActivity(active) => row.(active := active)
            case _ => row.(active := false)));
      Wrote(w, who, policy, Revoking)
    case Revoking =>
      if c.request.SocialDelete? then
        var r := Revoke(w);
        r.(changes := r.changes[who := c.(phase := Removing)])
      else Ended(Revoke(w), who)
    case Removing =>
      if !HasSocialRow(p, c.row) then Ended(w, who)
      else Ended(w.(policy := p.(social := None), lost := Losing(w, p.social.value.active, SocialSettings)), who)
    case Disabling => w
  }

  function AllowedBy(request: Request): set<SocialProvider> {
    if request.SocialPut? then request.allowed else {}
  }

  /** The batch of the tenant activity request: one transaction. */
  function SetActivity(w: World, active: bool): World {
    var p := w.policy;
    var sso := if p.sso.None? then None
               else Some(p.sso.value.(tenantActive := active, revision := w.fresh'));
    var social := if p.social.None? then None
                  else Some(p.social.value.(active := active, revision := w.fresh'));
    Revoke(w.(policy := Policy(sso, social, Some(active)), fresh' := w.fresh' + 1))
  }

  function Apply(w: World, ev: Event): World
    requires Enabled(w, ev)
  {
    match ev
    case SignInBegins(who, proof) => w.(signIns := w.signIns[who := SignIn(proof, Before(0))])
    case SignInSteps(who) => SignInStep(w, who)
    case ChangeBegins(who, request) => w.(changes := w.changes[who := Change(request, Reading, None, 0)])
    case ChangeSteps(who) =>
      if w.changes[who].request.SsoPut? then SsoPutStep(w, who)
      else if w.changes[who].request.SsoDelete? then SsoDeleteStep(w, who)
      else SocialStep(w, who)
    case TenantActivity(active) => SetActivity(w, active)
  }

  function Run(w: World, evs: seq<Event>): Option<World>
    decreases |evs|
  {
    if evs == [] then Some(w)
    else if !Enabled(w, evs[0]) then None
    else Run(Apply(w, evs[0]), evs[1..])
  }

  // ----- what always holds -----------------------------------------------------------------

  /** Checks a sign-in has passed since its session was inserted. */
  function Passed(s: SignIn): nat {
    match s.phase
    case After(n) => n
    case Accepted => |Checks(s.proof)|
    case _ => 0
  }

  predicate SessionOk(w: World, who: nat) {
    && who in w.signIns
    && Passed(w.signIns[who]) <= |Checks(w.signIns[who].proof)|
    && forall i :: 0 <= i < Passed(w.signIns[who]) ==> Holds(w.policy, Checks(w.signIns[who].proof)[i])
  }

  /** A request has made its last write and is about to revoke. */
  ghost predicate RevocationDue(w: World) {
    exists who :: who in w.owing && who in w.changes && w.changes[who].phase.Revoking?
  }

  /** No write that a session of this proof depends on waits for a revocation, or has lost it. */
  ghost predicate Settled(w: World, proof: Proof) {
    match proof
    case Saml(_, _) => w.owing == {} && Connection !in w.lost
    case Social(_, _) => !RevocationDue(w) && SocialSettings !in w.lost
    case Password => !RevocationDue(w)
  }

  /** While its proof is settled, every session stands by the checks it has passed. */
  ghost predicate Inv(w: World) {
    && (forall who :: who in w.sessions && who in w.signIns && Settled(w, w.signIns[who].proof) ==> SessionOk(w, who))
    && (forall who :: who in w.signIns && w.signIns[who].phase.After? ==>
          w.signIns[who].phase.n <= |Checks(w.signIns[who].proof)|)
    && (forall who :: who in w.sessions ==> who in w.signIns && !w.signIns[who].phase.Before?)
  }

  lemma AllSettled(w: World)
    requires Inv(w) && w.owing == {} && w.lost == {}
    ensures forall who :: who in w.sessions ==> SessionOk(w, who)
  {
    assert forall who :: who in w.sessions ==> Settled(w, w.signIns[who].proof);
  }

  lemma SignInInv(w: World, who: nat)
    requires Inv(w) && Enabled(w, SignInSteps(who))
    ensures Inv(SignInStep(w, who))
  {
    var next := SignInStep(w, who);
    assert next.policy == w.policy;
    forall other | other in next.sessions && other in next.signIns && Settled(next, next.signIns[other].proof)
      ensures SessionOk(next, other)
    {
      assert next.signIns[other].proof == w.signIns[other].proof;
      assert Settled(w, w.signIns[other].proof);
      if other in w.sessions {
        assert SessionOk(w, other);
      }
    }
  }

  /** Whatever a check of this proof accepts under `p` it accepts under `q`. */
  ghost predicate NoStricter(p: Policy, q: Policy, proof: Proof) {
    forall i :: 0 <= i < |Checks(proof)| && Holds(p, Checks(proof)[i]) ==> Holds(q, Checks(proof)[i])
  }

  /** A step of a settings request revokes, or leaves the sessions alone and marks a write that is stricter. */
  ghost predicate Marked(w: World, next: World) {
    && next.signIns == w.signIns
    && (next.sessions == {}
        || (next.sessions == w.sessions
            && (forall proof :: Settled(next, proof) ==> Settled(w, proof) && NoStricter(w.policy, next.policy, proof))))
  }

  /** What is due stays due while its request does not move. */
  lemma StaysDue(w: World, next: World, who: nat)
    requires who in w.changes ==> !w.changes[who].phase.Revoking?
    requires forall other :: other != who && other in w.owing && other in w.changes ==>
      other in next.owing && other in next.changes && next.changes[other] == w.changes[other]
    ensures RevocationDue(w) ==> RevocationDue(next)
  {
  }

  lemma SsoPutMarks(w: World, who: nat)
    requires who in w.changes && w.changes[who].request.SsoPut?
    ensures Marked(w, SsoPutStep(w, who))
  {
    var next := SsoPutStep(w, who);
    if !w.changes[who].phase.Revoking? {
      StaysDue(w, next, who);
      forall proof | Settled(next, proof)
        ensures Settled(w, proof) && NoStricter(w.policy, next.policy, proof)
      {
        StepSettles(w, next, who, proof);
      }
    }
  }

  lemma SsoDeleteMarks(w: World, who: nat)
    requires who in w.changes && w.changes[who].request.SsoDelete?
    ensures Marked(w, SsoDeleteStep(w, who))
  {
    var next := SsoDeleteStep(w, who);
    if !w.changes[who].phase.Revoking? {
      StaysDue(w, next, who);
      forall proof | Settled(next, proof)
        ensures Settled(w, proof) && NoStricter(w.policy, next.policy, proof)
      {
        StepSettles(w, next, who, proof);
      }
    }
  }

  lemma SocialMarks(w: World, who: nat)
    requires who in w.changes && !w.changes[who].request.SsoPut? && !w.changes[who].request.SsoDelete?
    ensures Marked(w, SocialStep(w, who))
  {
    var next := SocialStep(w, who);
    if !w.changes[who].phase.Revoking? {
      StaysDue(w, next, who);
      forall proof | Settled(next, proof)
        ensures Settled(w, proof) && NoStricter(w.policy, next.policy, proof)
      {
        StepSettles(w, next, who, proof);
      }
    }
  }

  /** Before its revocation a request takes back no mark, and a step that is stricter leaves one. */
  lemma StepSettles(w: World, next: World, who: nat, proof: Proof)
    requires RevocationDue(w) ==> RevocationDue(next)
    requires w.lost <= next.lost
    requires w.owing <= next.owing + {who}
    requires who in w.owing ==> who in next.owing || Connection in next.lost
    requires next.owing == {} && Connection !in next.lost ==>
      forall c: Check :: c.ConnectionStands? && Holds(w.policy, c) ==> Holds(next.policy, c)
    requires !RevocationDue(next) ==> forall c: Check :: c.NotSsoOnly? && Holds(w.policy, c) ==> Holds(next.policy, c)
    requires !RevocationDue(next) && SocialSettings !in next.lost ==>
      forall c: Check :: c.SettingsStand? && Holds(w.policy, c) ==> Holds(next.policy, c)
    requires next.policy.state == w.policy.state
    requires Settled(next, proof)
    ensures Settled(w, proof) && NoStricter(w.policy, next.policy, proof)
  {
    if proof.Saml? {
      assert w.owing == {};
      assert !RevocationDue(next);
    }
  }

  lemma MarkedKeepsInv(w: World, next: World)
    requires Inv(w) && Marked(w, next)
    ensures Inv(next)
  {
    hide Holds, Settled;
    forall who | who in next.sessions && who in next.signIns && Settled(next, next.signIns[who].proof)
      ensures SessionOk(next, who)
    {
      assert SessionOk(w, who);
    }
  }

  lemma BeginsKeepInv(w: World, who: nat, proof: Proof)
    requires Inv(w) && Enabled(w, SignInBegins(who, proof))
    ensures Inv(Apply(w, SignInBegins(who, proof)))
  {
    var next := Apply(w, SignInBegins(who, proof));
    forall other | other in next.sessions && other in next.signIns && Settled(next, next.signIns[other].proof)
      ensures SessionOk(next, other)
    {
      assert Settled(w, w.signIns[other].proof);
      assert SessionOk(w, other);
    }
  }

  lemma ApplyInv(w: World, ev: Event)
    requires Inv(w) && Enabled(w, ev)
    ensures Inv(Apply(w, ev))
  {
    hide Inv, SsoPutStep, SsoDeleteStep, SocialStep, SignInStep, Holds;
    match ev
    case SignInBegins(who, proof) => BeginsKeepInv(w, who, proof);
    case SignInSteps(who) => SignInInv(w, who);
    case ChangeBegins(_, _) => MarkedKeepsInv(w, Apply(w, ev));
    case ChangeSteps(who) =>
      if w.changes[who].request.SsoPut? {
        SsoPutMarks(w, who);
      } else if w.changes[who].request.SsoDelete? {
        SsoDeleteMarks(w, who);
      } else {
        SocialMarks(w, who);
      }
      MarkedKeepsInv(w, Apply(w, ev));
    case TenantActivity(_) => MarkedKeepsInv(w, Apply(w, ev));
  }

  /** A refused sign-in has no session. */
  predicate RefusedHaveNone(w: World) {
    forall who :: who in w.sessions ==> who in w.signIns && !w.signIns[who].phase.Refused? && !w.signIns[who].phase.Before?
  }

  lemma ApplyRefuses(w: World, ev: Event)
    requires RefusedHaveNone(w) && Enabled(w, ev)
    ensures RefusedHaveNone(Apply(w, ev))
  {
    hide Holds;
  }

  /** Every run: a sign-in that has been refused, or not yet inserted, has no session. */
  lemma {:induction false} RefusedHaveNoSession(w: World, evs: seq<Event>)
    requires RefusedHaveNone(w) && Run(w, evs).Some?
    ensures RefusedHaveNone(Run(w, evs).value)
    decreases |evs|
  {
    hide RefusedHaveNone, Apply, Enabled;
    if evs != [] {
      ApplyRefuses(w, evs[0]);
      RefusedHaveNoSession(Apply(w, evs[0]), evs[1..]);
    }
  }

  /**
   The second look decides: a sign-in whose check fails after the insert deletes its session with its next step and is
   refused; one that passes them all is accepted with its session; and no step of another sign-in touches either.
   */
  lemma SecondLookDecides(w: World, who: nat)
    requires who in w.signIns && w.signIns[who].phase.After? && who in w.sessions
    ensures var s, next := w.signIns[who], SignInStep(w, who);
      var n, checks := s.phase.n, Checks(s.proof);
      && (n >= |checks| ==> next.signIns[who] == s.(phase := Accepted) && next.sessions == w.sessions)
      && (n < |checks| && Holds(w.policy, checks[n]) ==>
            next.signIns[who] == s.(phase := After(n + 1)) && next.sessions == w.sessions)
      && (n < |checks| && !Holds(w.policy, checks[n]) ==>
            var last := SignInStep(next, who);
            last.signIns[who] == s.(phase := Refused) && last.sessions == w.sessions - {who})
  {
  }

  // ----- when no change overlaps a removal ----------------------------------------------------

  /** A DELETE past its disabling write, with its row still there. */
  predicate RemovingSso(w: World, who: nat) {
    who in w.changes && w.changes[who].request.SsoDelete?
    && (w.changes[who].phase.Revoking? || w.changes[who].phase.Removing?)
    && HasSsoRow(w.policy, w.changes[who].row)
  }

  predicate RemovingSocial(w: World, who: nat) {
    who in w.changes && w.changes[who].request.SocialDelete?
    && (w.changes[who].phase.Revoking? || w.changes[who].phase.Removing?)
    && HasSocialRow(w.policy, w.changes[who].row)
  }

  /** The step would switch the connection, or the social settings, on. */
  predicate EnablesSso(w: World, ev: Event) {
    ev.ChangeSteps? && ev.who in w.changes && w.changes[ev.who].phase == Writing
    && w.changes[ev.who].request.SsoPut? && w.changes[ev.who].request.enabled
    && HasSsoRow(w.policy, w.changes[ev.who].row)
  }

  predicate EnablesSocial(w: World, ev: Event) {
    || (ev.TenantActivity? && ev.active)
    || (ev.ChangeSteps? && ev.who in w.changes && w.changes[ev.who].phase == Writing
        && w.changes[ev.who].request.SocialActivity? && w.changes[ev.who].request.active)
  }

  /** No step switches on what a DELETE has switched off and not yet removed. */
  predicate Serial(w: World, ev: Event) {
    && (EnablesSso(w, ev) ==> forall who :: who in w.changes ==> !RemovingSso(w, who))
    && (EnablesSocial(w, ev) ==> forall who :: who in w.changes ==> !RemovingSocial(w, who))
  }

  predicate SerialRun(w: World, evs: seq<Event>)
    decreases |evs|
  {
    evs == [] || (Enabled(w, evs[0]) ==> Serial(w, evs[0]) && SerialRun(Apply(w, evs[0]), evs[1..]))
  }

  predicate NamesFresh(w: World) {
    && (w.policy.sso.Some? ==> w.policy.sso.value.id < w.fresh')
    && (w.policy.social.Some? ==> w.policy.social.value.id < w.fresh')
    && forall who :: who in w.changes && w.changes[who].row.Some? ==> w.changes[who].row.value < w.fresh'
  }

  /** A request that owes a revocation will get to it. */
  predicate WillRevoke(w: World, who: nat) {
    who in w.changes
    && (w.changes[who].phase == Revoking
        || (w.changes[who].request.SsoPut? && w.changes[who].phase == Writing
            && HasSsoRow(w.policy, w.changes[who].row)))
  }

  predicate OwingWillRevoke(w: World) {
    w.lost == {} && forall who :: who in w.owing ==> WillRevoke(w, who)
  }

  predicate SsoOff(w: World) {
    forall who :: who in w.changes && RemovingSso(w, who) ==> !w.policy.sso.value.enabled
  }

  /** As `SsoOff`; and only a DELETE removes. */
  predicate SocialOff(w: World) {
    forall who :: who in w.changes ==>
      && (RemovingSocial(w, who) ==> !w.policy.social.value.active)
      && (w.changes[who].phase.Removing? ==> w.changes[who].request.SsoDelete? || w.changes[who].request.SocialDelete?)
  }

  /** No request still has to write over a row that is about to be removed, and owes a revocation. */
  predicate NoneLate(w: World) {
    forall who, other :: who in w.changes && other in w.owing && other in w.changes ==>
      !(RemovingSso(w, who) && w.changes[who].phase == Removing && w.changes[other].phase == Writing)
  }

  predicate Orderly(w: World) {
    NamesFresh(w) && OwingWillRevoke(w) && SsoOff(w) && SocialOff(w) && NoneLate(w)
  }

  lemma SsoPutKeepsOwing(w: World, who: nat)
    requires Orderly(w) && Enabled(w, ChangeSteps(who)) && Serial(w, ChangeSteps(who)) && w.changes[who].request.SsoPut?
    ensures OwingWillRevoke(SsoPutStep(w, who)) && NoneLate(SsoPutStep(w, who))
  {
    hide SocialOff, NamesFresh, Serial;
  }

  lemma SsoPutKeepsOff(w: World, who: nat)
    requires Orderly(w) && Enabled(w, ChangeSteps(who)) && Serial(w, ChangeSteps(who)) && w.changes[who].request.SsoPut?
    ensures SsoOff(SsoPutStep(w, who)) && NamesFresh(SsoPutStep(w, who))
  {
    hide SocialOff, OwingWillRevoke, NoneLate;
  }

  lemma SsoPutKeepsOrder(w: World, who: nat)
    requires Orderly(w) && Enabled(w, ChangeSteps(who)) && Serial(w, ChangeSteps(who)) && w.changes[who].request.SsoPut?
    ensures Orderly(SsoPutStep(w, who))
  {
    SsoPutKeepsOwing(w, who);
    SsoPutKeepsOff(w, who);
    hide Serial, NamesFresh, OwingWillRevoke, NoneLate, SsoOff;
  }

  lemma SsoDeleteKeepsOwing(w: World, who: nat)
    requires Orderly(w) && who in w.changes && w.changes[who].request.SsoDelete?
    ensures OwingWillRevoke(SsoDeleteStep(w, who)) && NoneLate(SsoDeleteStep(w, who))
  {
    hide SocialOff, NamesFresh;
  }

  lemma SsoDeleteKeepsOff(w: World, who: nat)
    requires Orderly(w) && who in w.changes && w.changes[who].request.SsoDelete?
    ensures SsoOff(SsoDeleteStep(w, who)) && NamesFresh(SsoDeleteStep(w, who))
  {
    hide SocialOff, OwingWillRevoke, NoneLate;
  }

  lemma SsoDeleteKeepsOrder(w: World, who: nat)
    requires Orderly(w) && who in w.changes && w.changes[who].request.SsoDelete?
    ensures Orderly(SsoDeleteStep(w, who))
  {
    SsoDeleteKeepsOwing(w, who);
    SsoDeleteKeepsOff(w, who);
    hide Serial, NamesFresh, OwingWillRevoke, NoneLate, SsoOff;
  }

  lemma SocialKeepsOrder(w: World, who: nat)
    requires Orderly(w) && Enabled(w, ChangeSteps(who)) && Serial(w, ChangeSteps(who))
    requires !w.changes[who].request.SsoPut? && !w.changes[who].request.SsoDelete?
    ensures Orderly(SocialStep(w, who))
  {
    SocialKeepsSsoOrder(w, who);
    SocialKeepsSocialOrder(w, who);
  }

  /** What a step of a social settings request leaves alone. */
  lemma SocialFrame(w: World, who: nat)
    requires Orderly(w) && Enabled(w, ChangeSteps(who))
    requires !w.changes[who].request.SsoPut? && !w.changes[who].request.SsoDelete?
    ensures var next := SocialStep(w, who);
      && next.policy.sso == w.policy.sso
      && (forall other :: other != who && other in next.changes ==>
            other in w.changes && next.changes[other] == w.changes[other])
      && (forall other :: other != who && other in w.changes ==> other in next.changes)
      && (who in next.changes ==> next.changes[who].request == w.changes[who].request)
      && next.owing <= w.owing + {who}
      && (who in next.owing ==> who in next.changes && next.changes[who].phase == Revoking)
      && next.lost == {}
  {
    hide NamesFresh, SsoOff, NoneLate, Serial;
    assert RemovingSocial(w, who) ==> !w.policy.social.value.active;
    assert who in w.owing ==> WillRevoke(w, who);
  }

  lemma SocialKeepsSsoOrder(w: World, who: nat)
    requires Orderly(w) && Enabled(w, ChangeSteps(who))
    requires !w.changes[who].request.SsoPut? && !w.changes[who].request.SsoDelete?
    ensures var next := SocialStep(w, who); OwingWillRevoke(next) && SsoOff(next) && NoneLate(next)
  {
    hide NamesFresh, SocialOff, SocialStep;
    var next := SocialStep(w, who);
    SocialFrame(w, who);
    assert OwingWillRevoke(next);
    assert SsoOff(next);
    assert NoneLate(next);
  }

  lemma SocialKeepsSocialOrder(w: World, who: nat)
    requires Orderly(w) && Enabled(w, ChangeSteps(who)) && Serial(w, ChangeSteps(who))
    requires !w.changes[who].request.SsoPut? && !w.changes[who].request.SsoDelete?
    ensures var next := SocialStep(w, who); SocialOff(next) && NamesFresh(next)
  {
    hide SsoOff, NoneLate, OwingWillRevoke;
  }

  lemma ApplyOrderly(w: World, ev: Event)
    requires Orderly(w) && Enabled(w, ev) && Serial(w, ev)
    ensures Orderly(Apply(w, ev))
  {
    hide SsoPutStep, SsoDeleteStep, SocialStep;
    if ev.ChangeSteps? {
      hide Orderly;
      if w.changes[ev.who].request.SsoPut? {
        SsoPutKeepsOrder(w, ev.who);
      } else if w.changes[ev.who].request.SsoDelete? {
        SsoDeleteKeepsOrder(w, ev.who);
      } else {
        SocialKeepsOrder(w, ev.who);
      }
    }
  }

  lemma {:induction false} SerialRunsAreOrderly(w: World, evs: seq<Event>)
    requires Inv(w) && Orderly(w) && Run(w, evs).Some? && SerialRun(w, evs)
    ensures Inv(Run(w, evs).value) && Orderly(Run(w, evs).value)
    decreases |evs|
  {
    hide Inv, Orderly, Apply, Serial;
    if evs != [] {
      ApplyInv(w, evs[0]);
      ApplyOrderly(w, evs[0]);
      SerialRunsAreOrderly(Apply(w, evs[0]), evs[1..]);
    }
  }

  /**
   Once every settings request has finished, a session whose sign-in was accepted would be issued under the
   policy as it now stands, whatever the sign-ins and the requests did in between. Sign-ins that crashed or are
   still checking are the only other owners of sessions.
   */
  lemma NoStaleSession(evs: seq<Event>)
    requires Run(START, evs).Some? && SerialRun(START, evs)
    ensures var w := Run(START, evs).value;
      w.changes == map[] ==>
        forall who :: who in w.sessions ==>
          && who in w.signIns
          && (w.signIns[who].phase == Accepted ==> Conforms(w.policy, w.signIns[who].proof))
  {
    SerialRunsAreOrderly(START, evs);
    var w := Run(START, evs).value;
    if w.changes == map[] {
      assert w.owing == {};
      AllSettled(w);
      forall who | who in w.sessions
        ensures who in w.signIns && (w.signIns[who].phase == Accepted ==> Conforms(w.policy, w.signIns[who].proof))
      {
        assert SessionOk(w, who);
      }
    }
  }

  // ----- when one does -------------------------------------------------------------------------

  lemma {:induction false} RunThen(w: World, evs: seq<Event>, ev: Event)
    requires Run(w, evs).Some? && Enabled(Run(w, evs).value, ev)
    ensures Run(w, evs + [ev]) == Some(Apply(Run(w, evs).value, ev))
    decreases |evs|
  {
    hide Apply, Enabled;
    if evs == [] {
      assert evs + [ev] == [ev];
    } else {
      assert (evs + [ev])[1..] == evs[1..] + [ev];
      RunThen(Apply(w, evs[0]), evs[1..], ev);
    }
  }

  predicate AcceptedSession(w: World, who: nat) {
    who in w.sessions && who in w.signIns && w.signIns[who].phase == Accepted
  }

  /** No request owes a revocation, and an accepted session remains that the policy would not issue. */
  ghost predicate Stale(w: World) {
    w.owing == {} && exists who :: AcceptedSession(w, who) && !Conforms(w.policy, w.signIns[who].proof)
  }

  /** The DELETE `d` has revoked and is about to remove the row; nobody owes a revocation. */
  ghost predicate AtRemoval(w: World, d: nat) {
    && Inv(w) && w.owing == {} && w.lost == {}
    && d in w.changes && w.changes[d].request.SsoDelete? && w.changes[d].phase.Removing?
    && HasSsoRow(w.policy, w.changes[d].row)
  }

  predicate SignInsAnd(evs: seq<Event>, d: nat) {
    forall i :: 0 <= i < |evs| ==> evs[i].SignInBegins? || evs[i].SignInSteps? || evs[i] == ChangeSteps(d)
  }

  /** A sign-in over the connection could be accepted now. */
  predicate Live(p: Policy) {
    p.sso.Some? && p.sso.value.enabled && p.sso.value.tenantActive && p.state != Some(false)
  }

  lemma UnusedName(names: set<nat>) returns (n: nat)
    ensures forall m :: m in names ==> m < n
  {
    n := 0;
    if x :| x in names {
      var below := UnusedName(names - {x});
      n := if x < below then below else x + 1;
      assert forall m :: m in names ==> m == x || m in names - {x};
    }
  }

  /** What a sign-in that passes every check leaves. */
  function SignedIn(w: World, who: nat, proof: Proof, phase: SignInPhase): World {
    w.(signIns := w.signIns[who := SignIn(proof, phase)],
       sessions := if phase.Before? then w.sessions else w.sessions + {who})
  }

  /** The phase after the next check has passed, or after the insert. */
  function Advanced(phase: SignInPhase, checks: nat): SignInPhase
    requires phase.Before? || phase.After?
  {
    if phase.n < checks then phase.(n := phase.n + 1) else if phase.Before? then After(0) else Accepted
  }

  lemma SignInAdvances(w: World, evs: seq<Event>, who: nat, proof: Proof, phase: SignInPhase)
    requires Conforms(w.policy, proof) && who !in w.sessions
    requires phase.Before? || phase.After?
    requires phase.n <= |Checks(proof)|
    requires Run(w, evs) == Some(SignedIn(w, who, proof, phase))
    ensures Run(w, evs + [SignInSteps(who)]) == Some(SignedIn(w, who, proof, Advanced(phase, |Checks(proof)|)))
  {
    hide Run;
    RunThen(w, evs, SignInSteps(who));
    var at := SignedIn(w, who, proof, phase);
    assert at.signIns[who] == SignIn(proof, phase);
    var next := SignIn(proof, Advanced(phase, |Checks(proof)|));
    assert phase.n < |Checks(proof)| ==> Holds(at.policy, Checks(proof)[phase.n]) by {
      assert Conforms(w.policy, proof);
    }
    assert SignInStep(at, who).signIns == at.signIns[who := next] == w.signIns[who := next];
  }

  lemma {:induction false} SignInGoesOn(w: World, evs: seq<Event>, who: nat, proof: Proof, phase: SignInPhase)
      returns (all: seq<Event>)
    requires Conforms(w.policy, proof) && who !in w.sessions
    requires phase.Before? || phase.After?
    requires phase.n <= |Checks(proof)|
    requires Run(w, evs) == Some(SignedIn(w, who, proof, phase))
    requires forall i :: 0 <= i < |evs| ==> evs[i].SignInBegins? || evs[i].SignInSteps?
    ensures Run(w, all) == Some(SignedIn(w, who, proof, Accepted))
    ensures forall i :: 0 <= i < |all| ==> all[i].SignInBegins? || all[i].SignInSteps?
    decreases phase.Before?, |Checks(proof)| - phase.n
  {
    hide Run, Conforms, SignedIn;
    SignInAdvances(w, evs, who, proof, phase);
    all := evs + [SignInSteps(who)];
    var next := Advanced(phase, |Checks(proof)|);
    if !next.Accepted? {
      all := SignInGoesOn(w, all, who, proof, next);
    }
  }

  /** A sign-in the policy accepts, from its first check to the end. */
  lemma SignInSlips(w: World, who: nat, proof: Proof) returns (evs: seq<Event>)
    requires Conforms(w.policy, proof) && who !in w.sessions && who !in w.signIns
    ensures forall i :: 0 <= i < |evs| ==> evs[i].SignInBegins? || evs[i].SignInSteps?
    ensures Run(w, evs) == Some(SignedIn(w, who, proof, Accepted))
  {
    hide Conforms;
    RunThen(w, [], SignInBegins(who, proof));
    evs := [] + [SignInBegins(who, proof)];
    assert Run(w, evs) == Some(SignedIn(w, who, proof, Before(0)));
    evs := SignInGoesOn(w, evs, who, proof, Before(0));
  }

  /** A sign-in that slips in before the removal keeps its session after it. */
  lemma LiveRemovalStrands(w: World, d: nat) returns (evs: seq<Event>)
    requires AtRemoval(w, d) && Live(w.policy)
    ensures SignInsAnd(evs, d) && Run(w, evs).Some? && Stale(Run(w, evs).value)
    ensures Run(w, evs).value.changes == w.changes - {d}
  {
    var who := UnusedName(w.signIns.Keys);
    assert who !in w.signIns && who !in w.sessions;
    var proof := Saml(w.policy.sso.value.providerId, w.policy.sso.value.revision);
    evs := SignInSlips(w, who, proof);
    var at := SignedIn(w, who, proof, Accepted);
    RunThen(w, evs, ChangeSteps(d));
    var last := Apply(at, ChangeSteps(d));
    assert last.policy.sso == None;
    assert !Holds(last.policy, Checks(proof)[0]);
    assert AcceptedSession(last, who);
    evs := evs + [ChangeSteps(d)];
  }

  // ----- and only then

  /** As `SessionOk`, but a SAML sign-in of an inactive tenant may have passed its first check: it fails the next. */
  predicate SessionSafe(w: World, who: nat) {
    && who in w.signIns && !w.signIns[who].phase.Before?
    && (w.signIns[who].phase.After? ==> w.signIns[who].phase.n <= |Checks(w.signIns[who].proof)|)
    && (SessionOk(w, who)
        || (w.signIns[who].proof.Saml? && w.policy.state == Some(false) && Passed(w.signIns[who]) <= 1))
  }

  predicate RemovalSafe(w: World, d: nat) {
    && !Live(w.policy)
    && (d in w.changes ==> w.changes[d].request.SsoDelete? && w.changes[d].phase.Removing?)
    && forall who :: who in w.sessions ==> SessionSafe(w, who)
  }

  lemma RemovalSafeSignIn(w: World, d: nat, who: nat)
    requires RemovalSafe(w, d) && Enabled(w, SignInSteps(who))
    requires w.signIns[who].phase.After? ==> w.signIns[who].phase.n <= |Checks(w.signIns[who].proof)|
    ensures RemovalSafe(SignInStep(w, who), d)
  {
    var next := SignInStep(w, who);
    forall other | other in next.sessions
      ensures SessionSafe(next, other)
    {
      if other in w.sessions {
        assert SessionSafe(w, other);
      }
    }
  }

  lemma RemovalSafeRemoval(w: World, d: nat)
    requires RemovalSafe(w, d) && Enabled(w, ChangeSteps(d))
    ensures RemovalSafe(SsoDeleteStep(w, d), d)
  {
    var next := SsoDeleteStep(w, d);
    forall who | who in next.sessions
      ensures SessionSafe(next, who)
    {
      assert SessionSafe(w, who);
      var s := w.signIns[who];
      assert SessionOk(w, who) && Passed(s) >= 1 ==> Holds(w.policy, Checks(s.proof)[0]);
      assert SessionOk(w, who) && Passed(s) >= 2 ==> Holds(w.policy, Checks(s.proof)[1]);
    }
  }

  lemma {:induction false} RemovalSafeRuns(w: World, d: nat, evs: seq<Event>)
    requires RemovalSafe(w, d) && Inv(w) && SignInsAnd(evs, d) && Run(w, evs).Some?
    ensures !Stale(Run(w, evs).value)
    decreases |evs|
  {
    if evs == [] {
      assert forall who :: who in w.sessions ==> SessionSafe(w, who);
    } else {
      ApplyInv(w, evs[0]);
      hide Stale;
      match evs[0] {
        case SignInSteps(who) => RemovalSafeSignIn(w, d, who);
        case SignInBegins(who, proof) =>
          forall other | other in w.sessions
            ensures SessionSafe(Apply(w, evs[0]), other)
          {
            assert SessionSafe(w, other);
          }
        case _ => RemovalSafeRemoval(w, d);
      }
      hide Inv, RemovalSafe;
      RemovalSafeRuns(Apply(w, evs[0]), d, evs[1..]);
    }
  }

  /**
   Sign-ins and the removal of a connection, while the other requests stand still, can strand a session if and only
   if the connection would accept a sign-in by then: that is, if another request has switched it on again after the
   DELETE had switched it off.
   */
  lemma RemovalStrandsIff(w: World, d: nat)
    requires AtRemoval(w, d)
    ensures (exists evs :: SignInsAnd(evs, d) && Run(w, evs).Some? && Stale(Run(w, evs).value)) <==> Live(w.policy)
  {
    if Live(w.policy) {
      var evs := LiveRemovalStrands(w, d);
    } else {
      forall evs | SignInsAnd(evs, d) && Run(w, evs).Some?
        ensures !Stale(Run(w, evs).value)
      {
        forall who | who in w.sessions
          ensures SessionSafe(w, who)
        {
          assert SessionOk(w, who);
        }
        RemovalSafeRuns(w, d, evs);
      }
    }
  }

  // ----- the same for social settings

  /** Social sign-ins by some provider could be accepted now. */
  predicate SocialLive(p: Policy) {
    p.social.Some? && p.social.value.active && p.social.value.allowed != {}
    && p.state != Some(false) && (p.sso.Some? ==> !p.sso.value.ssoOnly)
  }

  ghost predicate AtSocialRemoval(w: World, d: nat) {
    && Inv(w) && w.owing == {} && w.lost == {}
    && d in w.changes && w.changes[d].request.SocialDelete? && w.changes[d].phase.Removing?
    && HasSocialRow(w.policy, w.changes[d].row)
  }

  lemma SocialRemovalStrands(w: World, d: nat) returns (evs: seq<Event>)
    requires AtSocialRemoval(w, d) && SocialLive(w.policy)
    ensures SignInsAnd(evs, d) && Run(w, evs).Some? && Stale(Run(w, evs).value)
    ensures Run(w, evs).value.changes == w.changes - {d}
  {
    var who := UnusedName(w.signIns.Keys);
    assert who !in w.signIns && who !in w.sessions;
    var provider :| provider in w.policy.social.value.allowed;
    var proof := Social(provider, w.policy.social.value.revision);
    evs := SignInSlips(w, who, proof);
    var at := SignedIn(w, who, proof, Accepted);
    RunThen(w, evs, ChangeSteps(d));
    var last := Apply(at, ChangeSteps(d));
    assert !Holds(last.policy, Checks(proof)[2]);
    assert AcceptedSession(last, who);
    evs := evs + [ChangeSteps(d)];
  }

  predicate SocialSafe(w: World, d: nat) {
    && !SocialLive(w.policy)
    && (d in w.changes ==> w.changes[d].request.SocialDelete? && w.changes[d].phase.Removing?)
    && forall who :: who in w.sessions ==> SessionOk(w, who)
  }

  lemma SocialSafeSignIn(w: World, d: nat, who: nat)
    requires SocialSafe(w, d) && Inv(w) && Enabled(w, SignInSteps(who))
    ensures SocialSafe(SignInStep(w, who), d)
  {
    var next := SignInStep(w, who);
    forall other | other in next.sessions
      ensures SessionOk(next, other)
    {
      if other in w.sessions {
        assert SessionOk(w, other);
      }
    }
  }

  /** A social session among them has not passed its last check, and the others do not look at the settings. */
  lemma SocialSafeRemoval(w: World, d: nat)
    requires SocialSafe(w, d) && Enabled(w, ChangeSteps(d))
    requires d in w.changes
    ensures SocialSafe(SocialStep(w, d), d)
  {
    var next := SocialStep(w, d);
    forall who | who in next.sessions
      ensures SessionOk(next, who)
    {
      assert SessionOk(w, who);
      var s := w.signIns[who];
      assert forall i :: 0 <= i < Passed(s) ==> Holds(w.policy, Checks(s.proof)[i]);
      ConformsMeans(w.policy, s.proof);
      assert s.proof.Social? ==> Passed(s) < 3;
    }
  }

  lemma {:induction false} SocialSafeRuns(w: World, d: nat, evs: seq<Event>)
    requires SocialSafe(w, d) && Inv(w) && SignInsAnd(evs, d) && Run(w, evs).Some?
    ensures !Stale(Run(w, evs).value)
    decreases |evs|
  {
    if evs == [] {
      assert forall who :: who in w.sessions ==> SessionOk(w, who);
    } else {
      ApplyInv(w, evs[0]);
      hide Stale;
      match evs[0] {
        case SignInSteps(who) => SocialSafeSignIn(w, d, who);
        case SignInBegins(who, proof) =>
          forall other | other in w.sessions
            ensures SessionOk(Apply(w, evs[0]), other)
          {
            assert SessionOk(w, other);
          }
        case _ => SocialSafeRemoval(w, d);
      }
      hide Inv, SocialSafe;
      SocialSafeRuns(Apply(w, evs[0]), d, evs[1..]);
    }
  }

  /** The removal of social settings can strand a session if and only if they would accept a sign-in by then. */
  lemma SocialRemovalStrandsIff(w: World, d: nat)
    requires AtSocialRemoval(w, d)
    ensures (exists evs :: SignInsAnd(evs, d) && Run(w, evs).Some? && Stale(Run(w, evs).value)) <==> SocialLive(w.policy)
  {
    if SocialLive(w.policy) {
      var evs := SocialRemovalStrands(w, d);
    } else {
      forall evs | SignInsAnd(evs, d) && Run(w, evs).Some?
        ensures !Stale(Run(w, evs).value)
      {
        SocialSafeRuns(w, d, evs);
      }
    }
  }

  // ----- the removal step itself, in any state

  /** The session is there, and its sign-in has passed this check since the insert. */
  predicate PastCheck(w: World, who: nat, i: nat) {
    who in w.sessions && who in w.signIns
    && (w.signIns[who].phase.Accepted? || (w.signIns[who].phase.After? && i < w.signIns[who].phase.n))
  }

  /** The session is there, and its sign-in is accepted, or will be if the policy stays. */
  predicate Heading(w: World, who: nat) {
    who in w.sessions && who in w.signIns &&
    var s := w.signIns[who];
    match s.phase
    case Accepted => true
    case After(n) => forall i :: n <= i < |Checks(s.proof)| ==> Holds(w.policy, Checks(s.proof)[i])
    case _ => false
  }

  /** The step leaves a session that the policy has ceased to issue, and whose sign-in is or will be accepted. */
  ghost predicate Strands(w: World, ev: Event)
    requires Enabled(w, ev)
  {
    exists who :: who in w.signIns && Conforms(w.policy, w.signIns[who].proof)
      && Heading(Apply(w, ev), who) && !Conforms(Apply(w, ev).policy, Apply(w, ev).signIns[who].proof)
  }

  lemma ConformsMeans(p: Policy, proof: Proof)
    ensures Conforms(p, proof) <==>
      match proof
      case Saml(id, revision) => Live(p) && p.sso.value.providerId == id && p.sso.value.revision == revision
      case Social(provider, revision) =>
        SocialLive(p) && provider in p.social.value.allowed && p.social.value.revision == revision
      case Password => p.sso.Some? ==> !p.sso.value.ssoOnly
  {
    var checks := Checks(proof);
    match proof
    case Saml(_, _) => assert Conforms(p, proof) <==> Holds(p, checks[0]) && Holds(p, checks[1]);
    case Social(_, _) =>
      assert Conforms(p, proof) <==> Holds(p, checks[0]) && Holds(p, checks[1]) && Holds(p, checks[2]);
    case Password => assert Conforms(p, proof) <==> Holds(p, checks[0]);
  }

  /**
   The removal of a row strands a session if and only if the row is still there, switched on, and a session stands
   on it whose sign-in has passed the check of the row: for a connection, and for social settings.
   */
  lemma RemovalStepStrandsIff(w: World, d: nat)
    requires d in w.changes && w.changes[d].phase.Removing?
    requires w.changes[d].request.SsoDelete? || w.changes[d].request.SocialDelete?
    ensures Strands(w, ChangeSteps(d)) <==>
      if w.changes[d].request.SsoDelete? then
        HasSsoRow(w.policy, w.changes[d].row) && Live(w.policy)
        && exists who :: PastCheck(w, who, 0)
             && w.signIns[who].proof == Saml(w.policy.sso.value.providerId, w.policy.sso.value.revision)
      else
        HasSocialRow(w.policy, w.changes[d].row) && SocialLive(w.policy)
        && exists who :: PastCheck(w, who, 2) && w.signIns[who].proof.Social?
             && w.signIns[who].proof.provider in w.policy.social.value.allowed
             && w.signIns[who].proof.revision == w.policy.social.value.revision
  {
    var next := Apply(w, ChangeSteps(d));
    assert next.signIns == w.signIns && next.sessions == w.sessions && next.policy.state == w.policy.state;
    forall who | who in w.signIns
      ensures Conforms(w.policy, w.signIns[who].proof) && Heading(next, who) && !Conforms(next.policy, w.signIns[who].proof)
        <==>
        if w.changes[d].request.SsoDelete? then
          HasSsoRow(w.policy, w.changes[d].row) && Live(w.policy) && PastCheck(w, who, 0)
          && w.signIns[who].proof == Saml(w.policy.sso.value.providerId, w.policy.sso.value.revision)
        else
          HasSocialRow(w.policy, w.changes[d].row) && SocialLive(w.policy)
          && PastCheck(w, who, 2) && w.signIns[who].proof.Social?
          && w.signIns[who].proof.provider in w.policy.social.value.allowed
          && w.signIns[who].proof.revision == w.policy.social.value.revision
    {
      hide Conforms;
      ConformsMeans(w.policy, w.signIns[who].proof);
      ConformsMeans(next.policy, w.signIns[who].proof);
    }
  }

  /** A sign-in that is heading for acceptance comes to it by its own steps. */
  lemma {:induction false} HeadingIsAccepted(w: World, who: nat) returns (evs: seq<Event>)
    requires Heading(w, who)
    ensures Run(w, evs).Some? && var next := Run(w, evs).value;
      && AcceptedSession(next, who) && next.signIns[who].proof == w.signIns[who].proof
      && next.policy == w.policy && next.owing == w.owing
    decreases if w.signIns[who].phase.Accepted? then 0
              else if w.signIns[who].phase.n >= |Checks(w.signIns[who].proof)| then 1
              else 1 + |Checks(w.signIns[who].proof)| - w.signIns[who].phase.n
  {
    evs := [];
    if !w.signIns[who].phase.Accepted? {
      var next := SignInStep(w, who);
      evs := HeadingIsAccepted(next, who);
      assert ([SignInSteps(who)] + evs)[1..] == evs;
      evs := [SignInSteps(who)] + evs;
      assert Run(w, evs) == Run(next, evs[1..]);
    }
  }

  /** So a session stranded while nobody owes a revocation is stale by the steps of its own sign-in. */
  lemma StrandedBecomesStale(w: World, ev: Event) returns (evs: seq<Event>)
    requires Enabled(w, ev) && Strands(w, ev) && Apply(w, ev).owing == {}
    ensures Run(Apply(w, ev), evs).Some? && Stale(Run(Apply(w, ev), evs).value)
  {
    hide Apply, Run, Conforms;
    var next := Apply(w, ev);
    var who :| who in w.signIns && Conforms(w.policy, w.signIns[who].proof)
      && Heading(next, who) && !Conforms(next.policy, next.signIns[who].proof);
    evs := HeadingIsAccepted(next, who);
  }

  // ----- every run: exactly when a session is stale

  /** The step makes the policy stricter, or ends a request that has, and no revocation is to follow. */
  predicate Loses(w: World, ev: Event, kind: Kind) {
    ev.ChangeSteps? && ev.who in w.changes &&
    var c := w.changes[ev.who];
    match kind
    case Connection =>
      || (c.phase.Removing? && c.request.SsoDelete? && HasSsoRow(w.policy, c.row)
          && w.policy.sso.value.enabled && w.policy.sso.value.tenantActive)
      || (c.phase.Writing? && c.request.SsoPut? && ev.who in w.owing && !HasSsoRow(w.policy, c.row))
    case SocialSettings =>
      c.phase.Removing? && c.request.SocialDelete? && HasSocialRow(w.policy, c.row) && w.policy.social.value.active
  }

  predicate Revokes(w: World, ev: Event) {
    ev.TenantActivity? || (ev.ChangeSteps? && ev.who in w.changes && w.changes[ev.who].phase.Revoking?)
  }

  predicate Owes(w: World, who: nat) {
    who in w.changes
    && (w.changes[who].phase.Revoking?
        || (w.changes[who].phase.Writing? && w.changes[who].request.SsoPut? && w.changes[who].row.Some?))
  }

  /** Who owes a revocation is about to revoke, or is a PUT between its two writes; and each request keeps to its phases. */
  predicate InPhase(w: World) {
    && (forall who :: who in w.owing ==> Owes(w, who))
    && (forall who :: who in w.changes ==>
          && (w.changes[who].phase.Removing? ==> w.changes[who].request.SsoDelete? || w.changes[who].request.SocialDelete?)
          && (w.changes[who].phase.Disabling? ==> w.changes[who].request.SsoPut? || w.changes[who].request.SsoDelete?)
          && (w.changes[who].phase.Writing? ==> !w.changes[who].request.SsoDelete?))
  }

  /** What has been lost is gone: a row made since would have a revocation due. */
  ghost predicate Rowless(w: World) {
    && (Connection in w.lost ==> w.policy.sso.None? || RevocationDue(w))
    && (SocialSettings in w.lost ==> w.policy.social.None? || RevocationDue(w))
    && (forall who :: who in w.owing && who in w.changes && w.changes[who].phase.Writing? ==>
          HasSsoRow(w.policy, w.changes[who].row) || w.policy.sso.None? || RevocationDue(w))
  }

  /** What a settings request still owes, and what is lost. */
  ghost predicate Accounted(w: World, ev: Event, next: World) {
    InPhase(next) && Rowless(next)
    && forall kind :: kind in next.lost <==> (kind in w.lost && !Revokes(w, ev)) || Loses(w, ev, kind)
  }

  lemma SsoPutStaysRowless(w: World, who: nat)
    requires InPhase(w) && Rowless(w) && who in w.changes && w.changes[who].request.SsoPut?
    ensures Rowless(SsoPutStep(w, who))
  {
    assert who in w.owing ==> Owes(w, who);
    if !w.changes[who].phase.Revoking? {
      StaysDue(w, SsoPutStep(w, who), who);
    }
    DueAtOnce(SsoPutStep(w, who), who);
    hide RevocationDue, InPhase;
  }

  lemma SsoPutAccounts(w: World, who: nat)
    requires InPhase(w) && Rowless(w) && who in w.changes && w.changes[who].request.SsoPut?
    ensures Accounted(w, ChangeSteps(who), SsoPutStep(w, who))
  {
    SsoPutStaysRowless(w, who);
    hide Rowless;
    assert who in w.owing ==> Owes(w, who);
  }

  lemma SsoDeleteAccounts(w: World, who: nat)
    requires InPhase(w) && Rowless(w) && who in w.changes && w.changes[who].request.SsoDelete?
    ensures Accounted(w, ChangeSteps(who), SsoDeleteStep(w, who))
  {
    assert who in w.owing ==> Owes(w, who);
    if !w.changes[who].phase.Revoking? {
      StaysDue(w, SsoDeleteStep(w, who), who);
    }
    DueAtOnce(SsoDeleteStep(w, who), who);
  }

  lemma SocialAccounts(w: World, who: nat)
    requires InPhase(w) && Rowless(w)
    requires who in w.changes && !w.changes[who].request.SsoPut? && !w.changes[who].request.SsoDelete?
    ensures Accounted(w, ChangeSteps(who), SocialStep(w, who))
  {
    assert who in w.owing ==> Owes(w, who);
    if !w.changes[who].phase.Revoking? {
      StaysDue(w, SocialStep(w, who), who);
    }
    DueAtOnce(SocialStep(w, who), who);
  }

  lemma DueAtOnce(next: World, who: nat)
    ensures who in next.owing && who in next.changes && next.changes[who].phase.Revoking? ==> RevocationDue(next)
  {
  }

  lemma SignInAccounts(w: World, who: nat)
    requires InPhase(w) && Rowless(w) && who in w.signIns
    ensures Accounted(w, SignInSteps(who), SignInStep(w, who))
  {
    hide Holds;
    assert RevocationDue(w) <==> RevocationDue(SignInStep(w, who));
  }

  lemma ApplyAccounts(w: World, ev: Event)
    requires InPhase(w) && Rowless(w) && Enabled(w, ev)
    ensures Accounted(w, ev, Apply(w, ev))
  {
    hide SsoPutStep, SsoDeleteStep, SocialStep, SignInStep;
    match ev
    case SignInSteps(who) => SignInAccounts(w, who);
    case ChangeSteps(who) =>
      hide Accounted;
      if w.changes[who].request.SsoPut? {
        SsoPutAccounts(w, who);
      } else if w.changes[who].request.SsoDelete? {
        SsoDeleteAccounts(w, who);
      } else {
        SocialAccounts(w, who);
      }
    case ChangeBegins(who, _) =>
      assert who in w.owing ==> Owes(w, who);
      StaysDue(w, Apply(w, ev), who);
    case SignInBegins(_, _) => assert RevocationDue(w) <==> RevocationDue(Apply(w, ev));
    case _ =>
  }

  ghost predicate IsRun(evs: seq<Event>) {
    Run(START, evs).Some?
  }

  /** The world after the first `k` events of a run. */
  ghost function At(evs: seq<Event>, k: nat): World
    requires IsRun(evs) && k <= |evs|
  {
    assert evs[..k] + evs[k..] == evs;
    RunSplits(START, evs[..k], evs[k..]);
    Run(START, evs[..k]).value
  }

  lemma {:induction false} RunSplits(w: World, evs: seq<Event>, more: seq<Event>)
    requires Run(w, evs + more).Some?
    ensures Run(w, evs).Some? && Run(w, evs + more) == Run(Run(w, evs).value, more)
    decreases |evs|
  {
    hide Apply, Enabled;
    if evs == [] {
      assert evs + more == more;
    } else {
      assert (evs + more)[1..] == evs[1..] + more;
      RunSplits(Apply(w, evs[0]), evs[1..], more);
    }
  }

  lemma AtNext(evs: seq<Event>, k: nat)
    requires IsRun(evs) && k < |evs|
    ensures Enabled(At(evs, k), evs[k]) && At(evs, k + 1) == Apply(At(evs, k), evs[k])
  {
    hide Apply, Enabled;
    assert evs[..k] + evs[k..] == evs;
    RunSplits(START, evs[..k], evs[k..]);
    assert evs[k..][0] == evs[k];
    RunThen(START, evs[..k], evs[k]);
    assert evs[..k] + [evs[k]] == evs[..k + 1];
  }

  lemma AtEnds(evs: seq<Event>)
    requires IsRun(evs)
    ensures At(evs, 0) == START && At(evs, |evs|) == Run(START, evs).value
  {
    assert evs[..|evs|] == evs;
  }

  ghost predicate RevokesAt(evs: seq<Event>, k: nat)
    requires IsRun(evs) && k < |evs|
  {
    Revokes(At(evs, k), evs[k])
  }

  /** The step at `j` loses a revocation, and nothing has revoked since. */
  ghost predicate LostSince(evs: seq<Event>, j: nat, k: nat, kind: Kind)
    requires IsRun(evs) && j < k <= |evs|
  {
    Loses(At(evs, j), evs[j], kind) && forall m :: j < m < k ==> !RevokesAt(evs, m)
  }

  /** A revocation of this kind has been lost, and nothing has revoked since. */
  ghost predicate Lost(evs: seq<Event>, k: nat, kind: Kind)
    requires IsRun(evs) && k <= |evs|
  {
    exists j :: 0 <= j < k && LostSince(evs, j, k, kind)
  }

  lemma StartInPhase()
    ensures InPhase(START) && Rowless(START) && Inv(START)
  {
  }

  lemma LostNext(evs: seq<Event>, k: nat, kind: Kind)
    requires IsRun(evs) && k < |evs|
    ensures Lost(evs, k + 1, kind) <==> (Lost(evs, k, kind) && !RevokesAt(evs, k)) || Loses(At(evs, k), evs[k], kind)
  {
    hide IsRun, At, Loses, Revokes;
    assert LostSince(evs, k, k + 1, kind) <==> Loses(At(evs, k), evs[k], kind);
    forall j | 0 <= j < k
      ensures LostSince(evs, j, k + 1, kind) <==> LostSince(evs, j, k, kind) && !RevokesAt(evs, k)
    {
    }
    if Lost(evs, k, kind) && !RevokesAt(evs, k) {
      var j :| 0 <= j < k && LostSince(evs, j, k, kind);
      assert LostSince(evs, j, k + 1, kind);
    }
    if Lost(evs, k + 1, kind) {
      var j :| 0 <= j < k + 1 && LostSince(evs, j, k + 1, kind);
      assert j < k ==> LostSince(evs, j, k, kind);
    }
  }

  lemma {:induction false} LostIff(evs: seq<Event>, k: nat)
    requires IsRun(evs) && k <= |evs|
    ensures InPhase(At(evs, k)) && Rowless(At(evs, k)) && Inv(At(evs, k))
    ensures forall kind :: kind in At(evs, k).lost <==> Lost(evs, k, kind)
    decreases k
  {
    hide IsRun, At, Apply, Enabled, InPhase, Rowless, Inv, Loses, Revokes;
    if k == 0 {
      AtEnds(evs);
      StartInPhase();
    } else {
      LostIff(evs, k - 1);
      AtNext(evs, k - 1);
      ApplyAccounts(At(evs, k - 1), evs[k - 1]);
      ApplyInv(At(evs, k - 1), evs[k - 1]);
      assert RevokesAt(evs, k - 1) <==> Revokes(At(evs, k - 1), evs[k - 1]);
      forall kind
        ensures kind in At(evs, k).lost <==> Lost(evs, k, kind)
      {
        hide Lost;
        LostNext(evs, k - 1, kind);
      }
    }
  }

  /** The row the session stands on. */
  function Stands(proof: Proof): Option<Kind> {
    match proof
    case Saml(_, _) => Some(Connection)
    case Social(_, _) => Some(SocialSettings)
    case Password => None
  }

  /**
   Every run, whatever overtakes whatever: while nobody owes a revocation, an accepted session is there that the
   policy would no longer issue if and only if an accepted session stands on the connection, or on the social
   settings, whose revocation has been lost: a DELETE has removed the row while it was switched on, or a PUT that had
   switched the connection off has found the row gone, and nothing has revoked since.
   */
  lemma StaleIff(evs: seq<Event>, k: nat)
    requires IsRun(evs) && k <= |evs| && At(evs, k).owing == {}
    ensures var w := At(evs, k);
      Stale(w) <==> exists who, kind ::
        AcceptedSession(w, who) && Stands(w.signIns[who].proof) == Some(kind) && Lost(evs, k, kind)
  {
    LostIff(evs, k);
    var w := At(evs, k);
    hide Lost, At, IsRun;
    forall who | AcceptedSession(w, who)
      ensures !Conforms(w.policy, w.signIns[who].proof) <==>
        exists kind :: Stands(w.signIns[who].proof) == Some(kind) && Lost(evs, k, kind)
    {
      StaleSessionIff(w, who);
      assert Stands(w.signIns[who].proof).Some? ==>
        var kind := Stands(w.signIns[who].proof).value; kind in w.lost <==> Lost(evs, k, kind);
    }
  }

  lemma StaleSessionIff(w: World, who: nat)
    requires Inv(w) && Rowless(w) && w.owing == {} && AcceptedSession(w, who)
    ensures !Conforms(w.policy, w.signIns[who].proof) <==>
      Stands(w.signIns[who].proof).Some? && Stands(w.signIns[who].proof).value in w.lost
  {
    var proof := w.signIns[who].proof;
    ConformsMeans(w.policy, proof);
    assert Settled(w, proof) ==> SessionOk(w, who);
  }

  /** When all requests have finished, nobody owes a revocation. */
  lemma DoneOwesNothing(evs: seq<Event>, k: nat)
    requires IsRun(evs) && k <= |evs| && At(evs, k).changes == map[]
    ensures At(evs, k).owing == {}
  {
    LostIff(evs, k);
    assert forall who :: who in At(evs, k).owing ==> Owes(At(evs, k), who);
  }

  // ----- what a request puts in force -------------------------------------------------------------------

  /** The step writes to one of the tables of the policy. */
  predicate Writes(w: World, ev: Event) {
    ev.TenantActivity?
    || (ev.ChangeSteps? && ev.who in w.changes && !w.changes[ev.who].phase.Reading? && !w.changes[ev.who].phase.Revoking?)
  }

  /** The step at `j` is the last before moment `k` that writes. */
  ghost predicate LastWrite(evs: seq<Event>, j: nat, k: nat)
    requires IsRun(evs)
  {
    j < k <= |evs| && forall m :: j < m < k ==> !WritesAt(evs, m)
  }

  ghost predicate WritesAt(evs: seq<Event>, m: nat)
    requires IsRun(evs) && m < |evs|
  {
    Writes(At(evs, m), evs[m])
  }

  lemma QuietStep(w: World, ev: Event)
    requires Enabled(w, ev) && !Writes(w, ev)
    ensures Apply(w, ev).policy == w.policy
  {
  }

  lemma {:induction false} StaysWritten(evs: seq<Event>, j: nat, k: nat)
    requires IsRun(evs) && LastWrite(evs, j, k)
    ensures At(evs, k).policy == At(evs, j + 1).policy
    decreases k
  {
    hide IsRun, At, Apply, Enabled, Writes;
    if j + 1 < k {
      assert LastWrite(evs, j, k - 1) && !WritesAt(evs, k - 1);
      StaysWritten(evs, j, k - 1);
      AtNext(evs, k - 1);
      QuietStep(At(evs, k - 1), evs[k - 1]);
    }
  }

  /** Revisions are below the names still to be used. */
  predicate RevisionsUsed(w: World) {
    && (w.policy.sso.Some? ==> w.policy.sso.value.revision < w.fresh')
    && (w.policy.social.Some? ==> w.policy.social.value.revision < w.fresh')
  }

  lemma ApplyUses(w: World, ev: Event)
    requires RevisionsUsed(w) && Enabled(w, ev)
    ensures RevisionsUsed(Apply(w, ev))
  {
    hide Holds;
  }

  /** The request reads, at this step, the row and the provider it has. */
  predicate ReadsSso(w: World, ev: Event, c: Change) {
    && ev.ChangeSteps? && ev.who in w.changes && w.changes[ev.who].phase.Reading?
    && w.changes[ev.who].request == c.request
    && if w.policy.sso.None? then c.row.None?
       else c.row == Some(w.policy.sso.value.id) && c.providerId == w.policy.sso.value.providerId
  }

  /** A PUT past its read, at moment `k`, has what it read then. */
  ghost predicate HasRead(evs: seq<Event>, k: nat, who: nat)
    requires IsRun(evs) && k <= |evs| && who in At(evs, k).changes
  {
    exists i :: 0 <= i < k && evs[i] == ChangeSteps(who) && ReadsSso(At(evs, i), evs[i], At(evs, k).changes[who])
  }

  /** A step of a PUT keeps what it has read; the others leave it alone. */
  lemma KeepsRead(w: World, ev: Event, who: nat)
    requires Enabled(w, ev) && who in Apply(w, ev).changes
    requires Apply(w, ev).changes[who].request.SsoPut? && !Apply(w, ev).changes[who].phase.Reading?
    ensures
      || (ReadsSso(w, ev, Apply(w, ev).changes[who]) && ev == ChangeSteps(who))
      || (who in w.changes && !w.changes[who].phase.Reading?
          && w.changes[who].request == Apply(w, ev).changes[who].request
          && w.changes[who].row == Apply(w, ev).changes[who].row
          && w.changes[who].providerId == Apply(w, ev).changes[who].providerId)
  {
    hide Holds;
    assert !(ev.ChangeSteps? && ev.who != who) || Apply(w, ev).changes[who] == w.changes[who];
  }

  lemma {:induction false} PutHasRead(evs: seq<Event>, k: nat, who: nat)
    requires IsRun(evs) && k <= |evs| && who in At(evs, k).changes
    requires At(evs, k).changes[who].request.SsoPut? && !At(evs, k).changes[who].phase.Reading?
    ensures HasRead(evs, k, who)
    decreases k
  {
    hide IsRun, At, Apply, Enabled;
    if k == 0 {
      AtEnds(evs);
      assert false;
    } else {
      AtNext(evs, k - 1);
      KeepsRead(At(evs, k - 1), evs[k - 1], who);
      if !(ReadsSso(At(evs, k - 1), evs[k - 1], At(evs, k).changes[who]) && evs[k - 1] == ChangeSteps(who)) {
        PutHasRead(evs, k - 1, who);
        var i :| 0 <= i < k - 1 && evs[i] == ChangeSteps(who)
          && ReadsSso(At(evs, i), evs[i], At(evs, k - 1).changes[who]);
        assert ReadsSso(At(evs, i), evs[i], At(evs, k).changes[who]);
      }
    }
  }

  lemma {:induction false} RunUses(evs: seq<Event>, k: nat)
    requires IsRun(evs) && k <= |evs|
    ensures RevisionsUsed(At(evs, k))
    decreases k
  {
    hide IsRun, At, Apply, Enabled, RevisionsUsed;
    if k == 0 {
      AtEnds(evs);
      StartUses();
    } else {
      RunUses(evs, k - 1);
      AtNext(evs, k - 1);
      ApplyUses(At(evs, k - 1), evs[k - 1]);
    }
  }

  lemma StartUses()
    ensures RevisionsUsed(START)
  {
  }

  /** The request finds what it is to write over: the row it read, or still none. */
  predicate FindsSso(w: World, who: nat)
    requires who in w.changes
  {
    if w.changes[who].row.Some? then HasSsoRow(w.policy, w.changes[who].row) else w.policy.sso.None?
  }

  predicate FindsSocial(w: World, who: nat)
    requires who in w.changes
  {
    if w.changes[who].row.Some? then HasSocialRow(w.policy, w.changes[who].row) else w.policy.social.None?
  }

  /** Whether a tenant that is not inactive has its flag on the connection; a new connection has it. */
  predicate TenantOn(p: Policy) {
    p.state != Some(false) && (p.sso.Some? ==> p.sso.value.tenantActive)
  }

  /**
   After the write of a SAML PUT, until another write: passwords are accepted if and only if single sign-on is not
   required, social sign-ins as before but never when it is required, and SAML sign-ins if and only if the connection
   was asked to be enabled, under a new revision, over the provider that was read, or a new one.
   */
  lemma SsoPutInForce(evs: seq<Event>, j: nat, k: nat, who: nat)
    requires IsRun(evs) && LastWrite(evs, j, k) && evs[j] == ChangeSteps(who)
    requires var w := At(evs, j);
      who in w.changes && w.changes[who].request.SsoPut? && w.changes[who].phase.Writing? && FindsSso(w, who)
    ensures var w, p := At(evs, j), At(evs, k).policy;
      var c := w.changes[who];
      && (Conforms(p, Password) <==> !c.request.ssoOnly)
      && (forall provider, revision: nat :: Conforms(p, Social(provider, revision)) <==>
            !c.request.ssoOnly && w.policy.state != Some(false) && w.policy.social.Some? && w.policy.social.value.active
            && provider in w.policy.social.value.allowed && revision == w.policy.social.value.revision)
      && (forall id: nat, revision: nat :: Conforms(p, Saml(id, revision)) <==>
            c.request.enabled && TenantOn(w.policy) && revision == w.fresh'
            && id == if c.request.rotate || c.row.None? then w.fresh' else c.providerId)
    ensures HasRead(evs, j, who)
    ensures forall id: nat, revision: nat :: Conforms(At(evs, j).policy, Saml(id, revision)) ==>
      !Conforms(At(evs, k).policy, Saml(id, revision))
  {
    StaysWritten(evs, j, k);
    AtNext(evs, j);
    PutHasRead(evs, j, who);
    RunUses(evs, j);
    hide IsRun, At, Conforms, HasRead;
    SsoPutWrites(At(evs, j), who);
    forall id: nat, revision: nat | Conforms(At(evs, j).policy, Saml(id, revision))
      ensures revision < At(evs, j).fresh'
    {
      ConformsMeans(At(evs, j).policy, Saml(id, revision));
    }
  }

  lemma SsoPutWrites(w: World, who: nat)
    requires who in w.changes && w.changes[who].request.SsoPut? && w.changes[who].phase.Writing? && FindsSso(w, who)
    ensures var p := SsoPutStep(w, who).policy;
      var c := w.changes[who];
      && (Conforms(p, Password) <==> !c.request.ssoOnly)
      && (forall provider, revision: nat :: Conforms(p, Social(provider, revision)) <==>
            !c.request.ssoOnly && w.policy.state != Some(false) && w.policy.social.Some? && w.policy.social.value.active
            && provider in w.policy.social.value.allowed && revision == w.policy.social.value.revision)
      && (forall id: nat, revision: nat :: Conforms(p, Saml(id, revision)) <==>
            c.request.enabled && TenantOn(w.policy) && revision == w.fresh'
            && id == if c.request.rotate || c.row.None? then w.fresh' else c.providerId)
  {
    hide Conforms;
    var p := SsoPutStep(w, who).policy;
    ConformsMeans(p, Password);
    forall provider, revision: nat
      ensures Conforms(p, Social(provider, revision)) <==>
        !w.changes[who].request.ssoOnly && w.policy.state != Some(false) && w.policy.social.Some?
        && w.policy.social.value.active && provider in w.policy.social.value.allowed
        && revision == w.policy.social.value.revision
    {
      ConformsMeans(p, Social(provider, revision));
    }
    forall id: nat, revision: nat
      ensures Conforms(p, Saml(id, revision)) <==>
        w.changes[who].request.enabled && TenantOn(w.policy) && revision == w.fresh'
        && id == if w.changes[who].request.rotate || w.changes[who].row.None? then w.fresh' else w.changes[who].providerId
    {
      ConformsMeans(p, Saml(id, revision));
    }
  }

  /** The providers a request of the social settings leaves accepted, given the row as it was. */
  function AskedProviders(request: Request, before: Option<SocialRow>): set<SocialProvider> {
    match request
    case SocialPut(allowed) => if before.None? || before.value.active then allowed else {}
    case SocialActivity(active) => if active && before.Some? then before.value.allowed else {}
    case _ => {}
  }

  /**
   After the write of a request of the social settings, until another write: social sign-ins are accepted by exactly
   the providers asked for, under a new revision, unless the tenant is inactive or must sign on over SAML; passwords
   and SAML sign-ins are accepted as before.
   */
  lemma SocialInForce(evs: seq<Event>, j: nat, k: nat, who: nat)
    requires IsRun(evs) && LastWrite(evs, j, k) && evs[j] == ChangeSteps(who)
    requires var w := At(evs, j);
      && who in w.changes && w.changes[who].phase.Writing? && FindsSocial(w, who)
      && (w.changes[who].request.SocialPut?
          || (w.changes[who].row.Some?
              && (w.changes[who].request.SocialActivity? || w.changes[who].request.SocialDelete?)))
    ensures var w, p := At(evs, j), At(evs, k).policy;
      && (forall provider, revision: nat :: Conforms(p, Social(provider, revision)) <==>
            provider in AskedProviders(w.changes[who].request, w.policy.social) && revision == w.fresh'
            && w.policy.state != Some(false) && (w.policy.sso.Some? ==> !w.policy.sso.value.ssoOnly))
      && (Conforms(p, Password) <==> Conforms(w.policy, Password))
      && (forall id: nat, revision: nat :: Conforms(p, Saml(id, revision)) <==> Conforms(w.policy, Saml(id, revision)))
    ensures forall provider, revision: nat :: Conforms(At(evs, j).policy, Social(provider, revision)) ==>
      !Conforms(At(evs, k).policy, Social(provider, revision))
  {
    StaysWritten(evs, j, k);
    AtNext(evs, j);
    RunUses(evs, j);
    hide IsRun, At, Conforms;
    var w, p := At(evs, j), At(evs, k).policy;
    ConformsMeans(p, Password);
    ConformsMeans(w.policy, Password);
    forall id: nat, revision: nat
      ensures Conforms(p, Saml(id, revision)) <==> Conforms(w.policy, Saml(id, revision))
    {
      ConformsMeans(p, Saml(id, revision));
      ConformsMeans(w.policy, Saml(id, revision));
    }
    forall provider, revision: nat
      ensures Conforms(p, Social(provider, revision)) <==>
        provider in AskedProviders(w.changes[who].request, w.policy.social) && revision == w.fresh'
        && w.policy.state != Some(false) && (w.policy.sso.Some? ==> !w.policy.sso.value.ssoOnly)
      ensures Conforms(w.policy, Social(provider, revision)) ==> revision < w.fresh'
    {
      ConformsMeans(p, Social(provider, revision));
      ConformsMeans(w.policy, Social(provider, revision));
    }
  }

  /**
   After the first write of a SAML PUT or DELETE over a connection, and after its removal, until another write, no
   SAML sign-in is accepted.
   */
  lemma SsoOffInForce(evs: seq<Event>, j: nat, k: nat, who: nat)
    requires IsRun(evs) && LastWrite(evs, j, k) && evs[j] == ChangeSteps(who)
    requires var w := At(evs, j);
      && who in w.changes && HasSsoRow(w.policy, w.changes[who].row)
      && ((w.changes[who].phase.Disabling? && (w.changes[who].request.SsoPut? || w.changes[who].request.SsoDelete?))
          || (w.changes[who].phase.Removing? && w.changes[who].request.SsoDelete?))
    ensures var w, p := At(evs, j), At(evs, k).policy;
      && (forall id: nat, revision: nat :: !Conforms(p, Saml(id, revision)))
      && (w.changes[who].phase.Removing? ==> Conforms(p, Password))
      && (w.changes[who].phase.Disabling? ==> (Conforms(p, Password) <==> Conforms(w.policy, Password)))
  {
    StaysWritten(evs, j, k);
    AtNext(evs, j);
    hide IsRun, At, Conforms;
    var w, p := At(evs, j), At(evs, k).policy;
    ConformsMeans(p, Password);
    ConformsMeans(w.policy, Password);
    forall id: nat, revision: nat
      ensures !Conforms(p, Saml(id, revision))
    {
      ConformsMeans(p, Saml(id, revision));
    }
  }

  /**
   After the tenant has been switched off, until another write, no SAML and no social sign-in is accepted; after it
   has been switched on, those of an enabled connection and of the allowed providers, under new revisions.
   */
  lemma ActivityInForce(evs: seq<Event>, j: nat, k: nat)
    requires IsRun(evs) && LastWrite(evs, j, k) && evs[j].TenantActivity?
    ensures var w, p, active := At(evs, j), At(evs, k).policy, evs[j].active;
      && (Conforms(p, Password) <==> Conforms(w.policy, Password))
      && (forall id: nat, revision: nat :: Conforms(p, Saml(id, revision)) <==>
            active && w.policy.sso.Some? && w.policy.sso.value.enabled && id == w.policy.sso.value.providerId
            && revision == w.fresh')
      && (forall provider, revision: nat :: Conforms(p, Social(provider, revision)) <==>
            active && w.policy.social.Some? && provider in w.policy.social.value.allowed && revision == w.fresh'
            && (w.policy.sso.Some? ==> !w.policy.sso.value.ssoOnly))
  {
    StaysWritten(evs, j, k);
    AtNext(evs, j);
    hide IsRun, At, Conforms;
    var w, p, active := At(evs, j), At(evs, k).policy, evs[j].active;
    ConformsMeans(p, Password);
    ConformsMeans(w.policy, Password);
    forall id: nat, revision: nat
      ensures Conforms(p, Saml(id, revision)) <==>
        active && w.policy.sso.Some? && w.policy.sso.value.enabled && id == w.policy.sso.value.providerId
        && revision == w.fresh'
    {
      ConformsMeans(p, Saml(id, revision));
    }
    forall provider, revision: nat
      ensures Conforms(p, Social(provider, revision)) <==>
        active && w.policy.social.Some? && provider in w.policy.social.value.allowed && revision == w.fresh'
        && (w.policy.sso.Some? ==> !w.policy.sso.value.ssoOnly)
    {
      ConformsMeans(p, Social(provider, revision));
    }
  }

  // ----- and it happens

  lemma RunTo(evs: seq<Event>, at: World, ev: Event, next: World)
    requires Run(START, evs) == Some(at) && Enabled(at, ev) && Apply(at, ev) == next
    ensures Run(START, evs + [ev]) == Some(next)
  {
    hide Run;
    RunThen(START, evs, ev);
  }

  function Settings(row: SsoRow, changes: map<nat, Change>, used: nat, owing: set<nat>): World {
    World(Policy(Some(row), None, None), {}, map[], changes, used, owing, {})
  }

  /** A connection is set up. */
  lemma SetUp() returns (evs: seq<Event>)
    ensures Run(START, evs) == Some(Settings(SsoRow(0, 0, true, false, true, 0), map[], 1, {}))
  {
    var put := SsoPut(true, false, false);
    var a := START.(changes := map[0 := Change(put, Reading, None, 0)]);
    var b := START.(changes := map[0 := Change(put, Writing, None, 0)]);
    var c := Settings(SsoRow(0, 0, true, false, true, 0), map[0 := Change(put, Revoking, None, 0)], 1, {0});
    assert Run(START, []) == Some(START);
    hide Run;
    RunTo([], START, ChangeBegins(0, put), a);
    evs := [] + [ChangeBegins(0, put)];
    RunTo(evs, a, ChangeSteps(0), b);
    evs := evs + [ChangeSteps(0)];
    RunTo(evs, b, ChangeSteps(0), c);
    evs := evs + [ChangeSteps(0)];
    assert c.changes - {0} == map[];
    RunTo(evs, c, ChangeSteps(0), Settings(SsoRow(0, 0, true, false, true, 0), map[], 1, {}));
    evs := evs + [ChangeSteps(0)];
  }

  /** A DELETE switches it off. */
  lemma SwitchOff() returns (evs: seq<Event>)
    ensures Run(START, evs) == Some(Settings(SsoRow(0, 0, false, false, true, 0),
                                             map[1 := Change(SsoDelete, Revoking, Some(0), 0)], 2, {1}))
  {
    evs := SetUp();
    var on := SsoRow(0, 0, true, false, true, 0);
    var a := Settings(on, map[1 := Change(SsoDelete, Reading, None, 0)], 1, {});
    var b := Settings(on, map[1 := Change(SsoDelete, Disabling, Some(0), 0)], 1, {});
    hide Run;
    RunTo(evs, Settings(on, map[], 1, {}), ChangeBegins(1, SsoDelete), a);
    evs := evs + [ChangeBegins(1, SsoDelete)];
    RunTo(evs, a, ChangeSteps(1), b);
    evs := evs + [ChangeSteps(1)];
    RunTo(evs, b, ChangeSteps(1),
          Settings(on.(enabled := false), map[1 := Change(SsoDelete, Revoking, Some(0), 0)], 2, {1}));
    evs := evs + [ChangeSteps(1)];
  }

  /** A PUT switches it on again. */
  lemma Overtake() returns (evs: seq<Event>)
    ensures Run(START, evs) == Some(Settings(SsoRow(0, 0, true, false, true, 2),
                                             map[1 := Change(SsoDelete, Revoking, Some(0), 0)], 3, {}))
  {
    evs := SwitchOff();
    var put := SsoPut(true, false, false);
    var off := SsoRow(0, 0, false, false, true, 0);
    var on := off.(enabled := true, revision := 2);
    var d := Change(SsoDelete, Revoking, Some(0), 0);
    var a := Settings(off, map[1 := d, 2 := Change(put, Reading, None, 0)], 2, {1});
    var b := Settings(off, map[1 := d, 2 := Change(put, Disabling, Some(0), 0)], 2, {1});
    var c := Settings(off, map[1 := d, 2 := Change(put, Writing, Some(0), 0)], 2, {1});
    var e := Settings(on, map[1 := d, 2 := Change(put, Revoking, Some(0), 0)], 3, {1, 2});
    hide Run;
    RunTo(evs, Settings(off, map[1 := d], 2, {1}), ChangeBegins(2, put), a);
    evs := evs + [ChangeBegins(2, put)];
    RunTo(evs, a, ChangeSteps(2), b);
    evs := evs + [ChangeSteps(2)];
    RunTo(evs, b, ChangeSteps(2), c);
    evs := evs + [ChangeSteps(2)];
    RunTo(evs, c, ChangeSteps(2), e);
    evs := evs + [ChangeSteps(2)];
    assert e.changes - {2} == map[1 := d];
    RunTo(evs, e, ChangeSteps(2), Settings(on, map[1 := d], 3, {}));
    evs := evs + [ChangeSteps(2)];
  }

  /** So the window opens on a run from the start, and a run of ordinary requests ends with a stale session. */
  lemma StaleSessionHappens() returns (evs: seq<Event>)
    ensures Run(START, evs).Some? && Run(START, evs).value.changes == map[] && Stale(Run(START, evs).value)
  {
    evs := Overtake();
    var on := SsoRow(0, 0, true, false, true, 2);
    var at := Settings(on, map[1 := Change(SsoDelete, Removing, Some(0), 0)], 3, {});
    RunTo(evs, Settings(on, map[1 := Change(SsoDelete, Revoking, Some(0), 0)], 3, {}), ChangeSteps(1), at);
    evs := evs + [ChangeSteps(1)];
    var rest := LiveRemovalStrands(at, 1);
    RunAppends(START, evs, rest);
    evs := evs + rest;
    assert at.changes - {1} == map[];
  }

  /** At moment `k` the DELETE is at its removal and the connection off; at the end all is done, and a session stale. */
  ghost predicate OvertakenAfter(evs: seq<Event>, k: nat) {
    && IsRun(evs) && k <= |evs|
    && AtRemoval(At(evs, k), 1) && !Live(At(evs, k).policy)
    && At(evs, |evs|).changes == map[] && Stale(At(evs, |evs|))
  }

  /** A PUT that is between its writes when the DELETE comes to its removal overtakes it all the same. */
  lemma LateOvertaking()
    ensures exists evs, k: nat :: OvertakenAfter(evs, k)
  {
    var evs := PutWaits();
    var put := SsoPut(true, false, false);
    var off := SsoRow(0, 0, false, false, true, 0);
    var on := off.(enabled := true, revision := 2);
    var d := Change(SsoDelete, Removing, Some(0), 0);
    var b := Settings(off, map[1 := d, 2 := Change(put, Writing, Some(0), 0)], 2, {});
    var c := Settings(on, map[1 := d, 2 := Change(put, Revoking, Some(0), 0)], 3, {2});
    var at := Settings(on, map[1 := d], 3, {});
    var waiting := evs;
    RunTo(evs, b, ChangeSteps(2), c);
    evs := evs + [ChangeSteps(2)];
    assert c.changes - {2} == map[1 := d];
    RunTo(evs, c, ChangeSteps(2), at);
    evs := evs + [ChangeSteps(2)];
    var rest := LiveRemovalStrands(at, 1);
    RunAppends(START, evs, rest);
    evs := evs + rest;
    assert at.changes - {1} == map[];
    AtEnds(evs);
    assert evs[..|waiting|] == waiting;
    assert At(evs, |waiting|) == b;
    assert OvertakenAfter(evs, |waiting|);
  }

  lemma PutWaits() returns (evs: seq<Event>)
    ensures var put := SsoPut(true, false, false);
      Run(START, evs)
      == Some(Settings(SsoRow(0, 0, false, false, true, 0),
                       map[1 := Change(SsoDelete, Removing, Some(0), 0), 2 := Change(put, Writing, Some(0), 0)], 2, {}))
  {
    evs := SwitchOff();
    var put := SsoPut(true, false, false);
    var off := SsoRow(0, 0, false, false, true, 0);
    var d := Change(SsoDelete, Revoking, Some(0), 0);
    var a := Settings(off, map[1 := d, 2 := Change(put, Reading, None, 0)], 2, {1});
    var b := Settings(off, map[1 := d, 2 := Change(put, Disabling, Some(0), 0)], 2, {1});
    var c := Settings(off, map[1 := d, 2 := Change(put, Writing, Some(0), 0)], 2, {1});
    hide Run;
    RunTo(evs, Settings(off, map[1 := d], 2, {1}), ChangeBegins(2, put), a);
    evs := evs + [ChangeBegins(2, put)];
    RunTo(evs, a, ChangeSteps(2), b);
    evs := evs + [ChangeSteps(2)];
    RunTo(evs, b, ChangeSteps(2), c);
    evs := evs + [ChangeSteps(2)];
    RunTo(evs, c, ChangeSteps(1),
          Settings(off, map[1 := d.(phase := Removing), 2 := Change(put, Writing, Some(0), 0)], 2, {}));
    evs := evs + [ChangeSteps(1)];
  }

  function SocialState(active: bool, revision: nat, state: Option<bool>, changes: map<nat, Change>, used: nat,
                          owing: set<nat>): World {
    World(Policy(None, Some(SocialRow(0, active, {Google}, revision)), state), {}, map[], changes, used, owing, {})
  }

  /** Social settings are made, and a DELETE has switched them off and revoked. */
  lemma SocialSwitchedOff() returns (evs: seq<Event>)
    ensures Run(START, evs)
      == Some(SocialState(false, 1, None, map[1 := Change(SocialDelete, Removing, Some(0), 0)], 2, {}))
  {
    var put := SocialPut({Google});
    var a := START.(changes := map[0 := Change(put, Reading, None, 0)]);
    var b := START.(changes := map[0 := Change(put, Writing, None, 0)]);
    var c := SocialState(true, 0, None, map[0 := Change(put, Revoking, None, 0)], 1, {0});
    var d := SocialState(true, 0, None, map[], 1, {});
    assert Run(START, []) == Some(START);
    hide Run;
    RunTo([], START, ChangeBegins(0, put), a);
    evs := [] + [ChangeBegins(0, put)];
    RunTo(evs, a, ChangeSteps(0), b);
    evs := evs + [ChangeSteps(0)];
    RunTo(evs, b, ChangeSteps(0), c);
    evs := evs + [ChangeSteps(0)];
    assert c.changes - {0} == map[];
    RunTo(evs, c, ChangeSteps(0), d);
    evs := evs + [ChangeSteps(0)];
    evs := SocialDeleteComes(evs);
  }

  lemma SocialDeleteComes(before: seq<Event>) returns (evs: seq<Event>)
    requires Run(START, before) == Some(SocialState(true, 0, None, map[], 1, {}))
    ensures Run(START, evs)
      == Some(SocialState(false, 1, None, map[1 := Change(SocialDelete, Removing, Some(0), 0)], 2, {}))
  {
    var d := Change(SocialDelete, Reading, None, 0);
    var a := SocialState(true, 0, None, map[1 := d], 1, {});
    var b := SocialState(true, 0, None, map[1 := d.(phase := Writing, row := Some(0))], 1, {});
    var c := SocialState(false, 1, None, map[1 := d.(phase := Revoking, row := Some(0))], 2, {1});
    hide Run;
    RunTo(before, SocialState(true, 0, None, map[], 1, {}), ChangeBegins(1, SocialDelete), a);
    evs := before + [ChangeBegins(1, SocialDelete)];
    RunTo(evs, a, ChangeSteps(1), b);
    evs := evs + [ChangeSteps(1)];
    RunTo(evs, b, ChangeSteps(1), c);
    evs := evs + [ChangeSteps(1)];
    RunTo(evs, c, ChangeSteps(1),
          SocialState(false, 1, None, map[1 := d.(phase := Removing, row := Some(0))], 2, {}));
    evs := evs + [ChangeSteps(1)];
  }

  /** The tenant is activated again before the removal, and a social sign-in slips in. */
  lemma StaleSocialSessionHappens() returns (evs: seq<Event>)
    ensures Run(START, evs).Some? && Run(START, evs).value.changes == map[] && Stale(Run(START, evs).value)
  {
    evs := SocialSwitchedOff();
    var d := map[1 := Change(SocialDelete, Removing, Some(0), 0)];
    var at := SocialState(true, 2, Some(true), d, 3, {});
    RunTo(evs, SocialState(false, 1, None, d, 2, {}), TenantActivity(true), at);
    evs := evs + [TenantActivity(true)];
    var rest := SocialRemovalStrands(at, 1);
    RunAppends(START, evs, rest);
    evs := evs + rest;
    assert at.changes - {1} == map[];
  }

  /** A PUT finds its row gone: the session accepted before it switched the connection off stays. */
  lemma StaleSessionByLostPut() returns (evs: seq<Event>)
    ensures Run(START, evs).Some? && Run(START, evs).value.changes == map[] && Stale(Run(START, evs).value)
  {
    evs := Overtake();
    var on := SsoRow(0, 0, true, false, true, 2);
    var d := Change(SsoDelete, Removing, Some(0), 0);
    var at := Settings(on, map[1 := d], 3, {});
    RunTo(evs, Settings(on, map[1 := d.(phase := Revoking)], 3, {}), ChangeSteps(1), at);
    evs := evs + [ChangeSteps(1)];
    var more := SignInSlips(at, 7, Saml(0, 2));
    RunAppends(START, evs, more);
    evs := evs + more;
    evs := PutSwitchesOff(evs);
    evs := PutLosesItsRow(evs);
  }

  /** Session 7 was accepted on the connection that is being removed. */
  function Accepted7(policy: Policy, changes: map<nat, Change>, owing: set<nat>, lost: set<Kind>): World {
    World(policy, {7}, map[7 := SignIn(Saml(0, 2), Accepted)], changes, 3, owing, lost)
  }

  const ABOUT: Change := Change(SsoDelete, Removing, Some(0), 0)
  const LATE: Change := Change(SsoPut(true, false, false), Writing, Some(0), 0)

  /** The PUT has switched the connection off, and owes a revocation. */
  const SWITCHED: World := Accepted7(Policy(Some(SsoRow(0, 0, false, false, true, 2)), None, None),
                                     map[1 := ABOUT, 2 := LATE], {2}, {})

  lemma PutSwitchesOff(before: seq<Event>) returns (evs: seq<Event>)
    requires Run(START, before)
      == Some(SignedIn(Settings(SsoRow(0, 0, true, false, true, 2), map[1 := ABOUT], 3, {}), 7, Saml(0, 2), Accepted))
    ensures Run(START, evs) == Some(SWITCHED)
  {
    var on := SsoRow(0, 0, true, false, true, 2);
    var a := Accepted7(Policy(Some(on), None, None), map[1 := ABOUT], {}, {});
    var b := a.(changes := map[1 := ABOUT, 2 := LATE.(phase := Reading, row := None)]);
    var c := a.(changes := map[1 := ABOUT, 2 := LATE.(phase := Disabling)]);
    assert SignedIn(Settings(on, map[1 := ABOUT], 3, {}), 7, Saml(0, 2), Accepted) == a by {
      assert {} + {7} == {7};
      assert map[][7 := SignIn(Saml(0, 2), Accepted)] == map[7 := SignIn(Saml(0, 2), Accepted)];
    }
    hide Run, SignedIn;
    RunTo(before, a, ChangeBegins(2, LATE.request), b);
    evs := before + [ChangeBegins(2, LATE.request)];
    RunTo(evs, b, ChangeSteps(2), c);
    evs := evs + [ChangeSteps(2)];
    RunTo(evs, c, ChangeSteps(2), SWITCHED);
    evs := evs + [ChangeSteps(2)];
  }

  lemma PutLosesItsRow(before: seq<Event>) returns (evs: seq<Event>)
    requires Run(START, before) == Some(SWITCHED)
    ensures Run(START, evs).Some? && Run(START, evs).value.changes == map[] && Stale(Run(START, evs).value)
  {
    var f := Accepted7(Policy(None, None, None), map[2 := LATE], {2}, {});
    var g := Accepted7(Policy(None, None, None), map[], {}, {Connection});
    hide Run;
    assert SWITCHED.changes - {1} == f.changes && SWITCHED.owing - {1} == {2};
    RunTo(before, SWITCHED, ChangeSteps(1), f);
    evs := before + [ChangeSteps(1)];
    assert f.changes - {2} == map[] && f.owing - {2} == {};
    RunTo(evs, f, ChangeSteps(2), g);
    evs := evs + [ChangeSteps(2)];
    ConformsMeans(g.policy, Saml(0, 2));
    assert AcceptedSession(g, 7);
  }

  lemma {:induction false} RunAppends(w: World, evs: seq<Event>, more: seq<Event>)
    requires Run(w, evs).Some?
    ensures Run(w, evs + more) == Run(Run(w, evs).value, more)
    decreases |evs|
  {
    hide Apply, Enabled;
    if evs == [] {
      assert evs + more == more;
    } else {
      assert (evs + more)[1..] == evs[1..] + more;
      RunAppends(Apply(w, evs[0]), evs[1..], more);
    }
  }
}

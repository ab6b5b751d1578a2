/**
 The plugin rollout (`scripts/plugin-preview-deployment/worker.ts`): preflight, publish and rollback over the
 tenants of a database. The installer behind it is assumed to keep its contract, or to refuse and change nothing.
 */
module Rollout {
  import opened Wrappers
  import opened CanonicalJson

  /** An extension in a tenant. */
  datatype Place = Place(tenant: string, id: string)

  /** Versions are numbers here, in their order. */
  datatype Slot = Slot(place: Place, version: nat)

  datatype Installation = Installation(version: nat, enabled: bool, manifest: Json)

  datatype Artifact = Artifact(manifest: Json, entry: string, store: Option<Json>, sha: nat)

  datatype Db = Db(installs: map<Place, Installation>, artifacts: map<Slot, Artifact>)

  /** A plugin of the plan, with what its archive holds; the digest identifies the archive. */
  datatype Plugin = Plugin(
    id: string, version: nat, previousVersion: nat, manifest: Json, entry: string, store: Option<Json>, sha: nat
  )

  datatype Status = Update | Skip | SkipDisabled | SkipMissing

  datatype Target = Target(tenant: string, status: Status, installation: Option<Installation>, artifact: Option<Artifact>)

  datatype Planned = Planned(id: string, version: nat, sha: nat, targets: seq<Target>)

  datatype Refusal =
    | InvalidPlan | ArtifactMissing | UnexpectedVersion | ManifestChanges | StoreChanges
    | NotEnabled | DifferentDigest | UploadRefused | InstallRefused | NotVerified

  /** The comparison of keys the canonical printer sorts by. */
  type KeyOrder = (string, string) -> bool

  function Text(v: Option<Json>, before: KeyOrder): Option<string> {
    match v case Some(x) => Some(Canonical(x, before)) case None => None
  }

  // ----- the installer ------------------------------------------------------------------------

  /** Storing an archive: a new version must be the newest; an old one must have the same content. */
  ghost function Uploaded(db: Db, place: Place, p: Plugin): Option<Db> {
    var slot := Slot(place, p.version);
    if slot in db.artifacts then
      var a := db.artifacts[slot];
      if a.manifest == p.manifest && a.entry == p.entry && a.store == p.store then Some(db) else None
    else if exists other :: other in db.artifacts && other.place == place && p.version <= other.version then None
    else Some(db.(artifacts := db.artifacts[slot := Artifact(p.manifest, p.entry, p.store, p.sha)]))
  }

  /** Installing a stored version over an enabled installation; an older one only when that is asked for. */
  function Installed(db: Db, place: Place, version: nat, allowDowngrade: bool, before: KeyOrder): Option<Db> {
    var slot := Slot(place, version);
    if slot !in db.artifacts || place !in db.installs || !db.installs[place].enabled then None else
    var current := db.installs[place];
    var manifest := db.artifacts[slot].manifest;
    if version < current.version && !allowDowngrade then None
    else if version == current.version then
      if Canonical(current.manifest, before) == Canonical(manifest, before) then Some(db) else None
    else Some(db.(installs := db.installs[place := Installation(version, true, manifest)]))
  }

  // ----- preflight ------------------------------------------------------------------------------

  predicate IsCurrent(i: Installation, a: Artifact, p: Plugin, before: KeyOrder) {
    && i.version == p.version
    && a.sha == p.sha
    && Canonical(i.manifest, before) == Canonical(p.manifest, before)
    && Canonical(a.manifest, before) == Canonical(p.manifest, before)
    && Text(a.store, before) == Text(p.store, before)
  }

  predicate OnlyVersionChanges(v: Json, w: Json, before: KeyOrder) {
    Canonical(WithoutVersion(v), before) == Canonical(WithoutVersion(w), before)
  }

  /** What `preflight` records of one tenant. */
  function Examined(db: Db, tenant: string, p: Plugin, before: KeyOrder): Result<Target, Refusal> {
    var place := Place(tenant, p.id);
    if place !in db.installs then Ok(Target(tenant, SkipMissing, None, None)) else
    var i := db.installs[place];
    if !i.enabled then Ok(Target(tenant, SkipDisabled, None, None))
    else if Slot(place, i.version) !in db.artifacts then Err(ArtifactMissing)
    else
      var a := db.artifacts[Slot(place, i.version)];
      if IsCurrent(i, a, p, before) then Ok(Target(tenant, Skip, Some(i), Some(a)))
      else if i.version != p.previousVersion then Err(UnexpectedVersion)
      else if !OnlyVersionChanges(a.manifest, p.manifest, before)
        || !OnlyVersionChanges(i.manifest, p.manifest, before) then Err(ManifestChanges)
      else if Text(a.store, before) != Text(p.store, before) then Err(StoreChanges)
      else Ok(Target(tenant, Update, Some(i), Some(a)))
  }

  function ExaminedAll(db: Db, tenants: seq<string>, p: Plugin, before: KeyOrder): Result<seq<Target>, Refusal> {
    if tenants == [] then Ok([]) else
    var n := |tenants| - 1;
    match ExaminedAll(db, tenants[..n], p, before)
    case Err(e) => Err(e)
    case Ok(front) =>
      match Examined(db, tenants[n], p, before)
      case Err(e) => Err(e)
      case Ok(t) => Ok(front + [t])
  }

  function PlannedFrom(db: Db, tenants: seq<string>, plugins: seq<Plugin>, before: KeyOrder): Result<seq<Planned>, Refusal> {
    if plugins == [] then Ok([]) else
    var n := |plugins| - 1;
    match PlannedFrom(db, tenants, plugins[..n], before)
    case Err(e) => Err(e)
    case Ok(front) =>
      match ExaminedAll(db, tenants, plugins[n], before)
      case Err(e) => Err(e)
      case Ok(ts) => Ok(front + [Planned(plugins[n].id, plugins[n].version, plugins[n].sha, ts)])
  }

  predicate NoIdTwice(plugins: seq<Plugin>) {
    forall k, l :: 0 <= k < l < |plugins| ==> plugins[k].id != plugins[l].id
  }

  /** `preflight`: no plan for an empty one, or for one that repeats an id. */
  function Preflight(db: Db, tenants: seq<string>, plugins: seq<Plugin>, before: KeyOrder): Result<seq<Planned>, Refusal> {
    if plugins == [] || !NoIdTwice(plugins) then Err(InvalidPlan) else PlannedFrom(db, tenants, plugins, before)
  }

  // ----- publishing ---------------------------------------------------------------------------------

  datatype Outcome = Skipped | Updated

  /** Which calls to the installer it refuses, beyond its contract. */
  datatype Answers = Answers(upload: bool, install: bool)

  /** `publishOne` for a place of the plan, and what it leaves in the database even when it throws. */
  ghost function Published(db: Db, place: Place, p: Plugin, answers: Answers, before: KeyOrder)
    : (Db, Result<Outcome, Refusal>)
  {
    if place !in db.installs || !db.installs[place].enabled then (db, Err(NotEnabled)) else
    var i := db.installs[place];
    if i.version == p.version then
      var slot := Slot(place, p.version);
      (db, if slot in db.artifacts && db.artifacts[slot].sha == p.sha then Ok(Skipped) else Err(DifferentDigest))
    else if i.version != p.previousVersion then (db, Err(UnexpectedVersion))
    else
      match if answers.upload then Uploaded(db, place, p) else None
      case None => (db, Err(UploadRefused))
      case Some(stored) =>
        match if answers.install then Installed(stored, place, p.version, false, before) else None
        case None => (stored, Err(InstallRefused))
        case Some(after) =>
          (after, if after.artifacts[Slot(place, p.version)].sha == p.sha then Ok(Updated) else Err(NotVerified))
  }

  // ----- rollback -------------------------------------------------------------------------------------

  datatype Report = Report(restored: seq<Place>, untouched: seq<Place>, skipped: seq<Place>, failures: seq<Place>)

  predicate StillAsRecorded(db: Db, place: Place, t: Target, before: KeyOrder)
    requires t.installation.Some?
  {
    place in db.installs &&
    var i := db.installs[place];
    var slot := Slot(place, t.installation.value.version);
    && i.enabled && i.version == t.installation.value.version
    && slot in db.artifacts && t.artifact == Some(db.artifacts[slot])
    && Canonical(i.manifest, before) == Canonical(t.installation.value.manifest, before)
  }

  /** The published version is there, as it was published. */
  predicate AsPublished(db: Db, place: Place, p: Planned) {
    && place in db.installs && db.installs[place].enabled && db.installs[place].version == p.version
    && Slot(place, p.version) in db.artifacts && db.artifacts[Slot(place, p.version)].sha == p.sha
  }

  datatype Verdict = Unplanned | Untouched | Left | Failed | Restored

  /** What `rollback` decides on a target; `refuses` are the places where the installer refuses. */
  function VerdictOn(db: Db, p: Planned, t: Target, refuses: set<Place>, before: KeyOrder): Verdict {
    var place := Place(t.tenant, p.id);
    if t.status != Update then Unplanned
    else if t.installation.None? then Failed
    else if StillAsRecorded(db, place, t, before) then Untouched
    else if !AsPublished(db, place, p) then Left
    else if place in refuses || Installed(db, place, t.installation.value.version, true, before).None? then Failed
    else Restored
  }

  function Reported(report: Report, place: Place, verdict: Verdict): Report {
    match verdict
    case Unplanned => report
    case Untouched => report.(untouched := report.untouched + [place])
    case Left => report.(skipped := report.skipped + [place])
    case Failed => report.(failures := report.failures + [place])
    case Restored => report.(restored := report.restored + [place])
  }

  /** One target of `rollback`. */
  function RolledBack(db: Db, report: Report, p: Planned, t: Target, refuses: set<Place>, before: KeyOrder): (Db, Report) {
    var verdict := VerdictOn(db, p, t, refuses, before);
    (if verdict.Restored?
     then Installed(db, Place(t.tenant, p.id), t.installation.value.version, true, before).value else db,
     Reported(report, Place(t.tenant, p.id), verdict))
  }

  function RolledBackTargets(db: Db, report: Report, p: Planned, targets: seq<Target>, refuses: set<Place>, before: KeyOrder)
    : (Db, Report)
  {
    if targets == [] then (db, report) else
    var (d, r) := RolledBackTargets(db, report, p, targets[..|targets| - 1], refuses, before);
    RolledBack(d, r, p, targets[|targets| - 1], refuses, before)
  }

  function RolledBackPlan(db: Db, report: Report, plan: seq<Planned>, refuses: set<Place>, before: KeyOrder): (Db, Report) {
    if plan == [] then (db, report) else
    var (d, r) := RolledBackPlan(db, report, plan[..|plan| - 1], refuses, before);
    RolledBackTargets(d, r, plan[|plan| - 1], plan[|plan| - 1].targets, refuses, before)
  }

  // ----- every target is dealt with on its own ------------------------------------------------------------

  function AtPlace(db: Db, place: Place): Option<Installation> {
    if place in db.installs then Some(db.installs[place]) else None
  }

  predicate SameAtPlace(db: Db, d: Db, place: Place) {
    AtPlace(db, place) == AtPlace(d, place) && db.artifacts == d.artifacts
  }

  function Single(db: Db, p: Planned, t: Target, refuses: set<Place>, before: KeyOrder): Db {
    RolledBack(db, Report([], [], [], []), p, t, refuses, before).0
  }

  lemma RollbackIsLocal(db: Db, d: Db, report: Report, p: Planned, t: Target, refuses: set<Place>, before: KeyOrder)
    requires SameAtPlace(db, d, Place(t.tenant, p.id))
    ensures var (after, r) := RolledBack(d, report, p, t, refuses, before);
      && VerdictOn(d, p, t, refuses, before) == VerdictOn(db, p, t, refuses, before)
      && SameAtPlace(after, Single(db, p, t, refuses, before), Place(t.tenant, p.id))
      && after.artifacts == d.artifacts && after.installs.Keys == d.installs.Keys
      && forall other :: other != Place(t.tenant, p.id) ==> AtPlace(after, other) == AtPlace(d, other)
  {
  }

  predicate Distinct(targets: seq<Target>) {
    forall i, j :: 0 <= i < j < |targets| ==> targets[i].tenant != targets[j].tenant
  }

  function Listed(report: Report, verdict: Verdict): seq<Place> {
    match verdict
    case Unplanned => []
    case Untouched => report.untouched
    case Left => report.skipped
    case Failed => report.failures
    case Restored => report.restored
  }

  function Everything(report: Report): multiset<Place> {
    multiset(report.restored) + multiset(report.untouched) + multiset(report.skipped) + multiset(report.failures)
  }

  lemma ReportGrows(report: Report, place: Place, verdict: Verdict)
    ensures var r := Reported(report, place, verdict);
      && Everything(r) == Everything(report) + (if verdict.Unplanned? then multiset{} else multiset{place})
      && (!verdict.Unplanned? ==> place in Listed(r, verdict))
      && forall v, q :: q in Listed(report, v) ==> q in Listed(r, v)
  {
    var r := Reported(report, place, verdict);
    forall v, q | q in Listed(report, v)
      ensures q in Listed(r, v)
    {
      ListsGrow(report, place, verdict, v, q);
    }
    if !verdict.Unplanned? {
      ListGrows(Listed(report, verdict), place);
      assert Listed(r, verdict) == Listed(report, verdict) + [place];
    }
    hide Listed;
    var a, b, c, d := multiset(report.restored), multiset(report.untouched), multiset(report.skipped),
      multiset(report.failures);
    match verdict
    case Unplanned =>
    case Untouched => assert Everything(r) == a + (b + multiset{place}) + c + d;
    case Left => assert Everything(r) == a + b + (c + multiset{place}) + d;
    case Failed => assert Everything(r) == a + b + c + (d + multiset{place});
    case Restored => assert Everything(r) == (a + multiset{place}) + b + c + d;
  }

  lemma ListsGrow(report: Report, place: Place, verdict: Verdict, v: Verdict, q: Place)
    requires q in Listed(report, v)
    ensures q in Listed(Reported(report, place, verdict), v)
  {
    ListGrows(Listed(report, v), place);
  }

  lemma ListGrows(places: seq<Place>, place: Place)
    ensures multiset(places + [place]) == multiset(places) + multiset{place}
    ensures forall q :: q in places + [place] <==> q in places || q == place
  {
  }

  /** The places of the targets to be rolled back, once each. */
  function UpdatePlaces(p: Planned, targets: seq<Target>): multiset<Place> {
    if targets == [] then multiset{} else
    var t := targets[|targets| - 1];
    UpdatePlaces(p, targets[..|targets| - 1]) + (if t.status == Update then multiset{Place(t.tenant, p.id)} else multiset{})
  }

  predicate Elsewhere(p: Planned, targets: seq<Target>, place: Place) {
    forall i :: 0 <= i < |targets| ==> place != Place(targets[i].tenant, p.id)
  }

  /** Each target ends as if it had been the only one. */
  lemma {:induction false} TargetsAreIndependent(db: Db, report: Report, p: Planned, targets: seq<Target>,
                                                 refuses: set<Place>, before: KeyOrder)
    requires Distinct(targets)
    ensures var d := RolledBackTargets(db, report, p, targets, refuses, before).0;
      && d.artifacts == db.artifacts && d.installs.Keys == db.installs.Keys
      && (forall place :: Elsewhere(p, targets, place) ==> AtPlace(d, place) == AtPlace(db, place))
      && (forall i :: 0 <= i < |targets| ==>
            SameAtPlace(d, Single(db, p, targets[i], refuses, before), Place(targets[i].tenant, p.id)))
  {
    hide Single, VerdictOn, RolledBack, AtPlace;
    if targets != [] {
      var n := |targets| - 1;
      TargetsAreIndependent(db, report, p, targets[..n], refuses, before);
      var (d, r) := RolledBackTargets(db, report, p, targets[..n], refuses, before);
      assert Elsewhere(p, targets[..n], Place(targets[n].tenant, p.id));
      RollbackIsLocal(db, d, r, p, targets[n], refuses, before);
      var after := RolledBackTargets(db, report, p, targets, refuses, before).0;
      assert after == RolledBack(d, r, p, targets[n], refuses, before).0;
      forall place | Elsewhere(p, targets, place)
        ensures AtPlace(after, place) == AtPlace(db, place)
      {
        assert Elsewhere(p, targets[..n], place) && place != Place(targets[n].tenant, p.id);
      }
      forall i | 0 <= i < n
        ensures SameAtPlace(after, Single(db, p, targets[i], refuses, before), Place(targets[i].tenant, p.id))
      {
        assert targets[..n][i] == targets[i];
      }
    }
  }

  /** A report holds the place of every target to be rolled back once, in the list of its verdict. */
  ghost predicate Accounts(r: Report, report: Report, db: Db, p: Planned, targets: seq<Target>, refuses: set<Place>,
                           before: KeyOrder) {
    && Everything(r) == Everything(report) + UpdatePlaces(p, targets)
    && (forall v, place :: place in Listed(report, v) ==> place in Listed(r, v))
    && (forall i :: 0 <= i < |targets| && targets[i].status == Update ==>
          Place(targets[i].tenant, p.id) in Listed(r, VerdictOn(db, p, targets[i], refuses, before)))
  }

  lemma {:induction false} TargetsAreReported(db: Db, report: Report, p: Planned, targets: seq<Target>,
                                              refuses: set<Place>, before: KeyOrder)
    requires Distinct(targets)
    ensures Accounts(RolledBackTargets(db, report, p, targets, refuses, before).1, report, db, p, targets, refuses, before)
  {
    hide Single, VerdictOn, RolledBack, Listed, Everything, Reported, AtPlace;
    if targets != [] {
      var n := |targets| - 1;
      TargetsAreReported(db, report, p, targets[..n], refuses, before);
      TargetsAreIndependent(db, report, p, targets[..n], refuses, before);
      var (d, r) := RolledBackTargets(db, report, p, targets[..n], refuses, before);
      var place := Place(targets[n].tenant, p.id);
      assert Elsewhere(p, targets[..n], place);
      RollbackIsLocal(db, d, r, p, targets[n], refuses, before);
      VerdictIsReported(d, r, p, targets[n], refuses, before);
      OneMoreReported(r, report, db, p, targets, refuses, before);
    }
  }

  lemma OneMoreReported(r: Report, report: Report, db: Db, p: Planned, targets: seq<Target>, refuses: set<Place>,
                        before: KeyOrder)
    requires targets != [] && Accounts(r, report, db, p, targets[..|targets| - 1], refuses, before)
    ensures var t := targets[|targets| - 1];
      Accounts(Reported(r, Place(t.tenant, p.id), VerdictOn(db, p, t, refuses, before)), report, db, p, targets, refuses,
               before)
  {
    hide VerdictOn, Listed, Everything, Reported;
    var n := |targets| - 1;
    var place, verdict := Place(targets[n].tenant, p.id), VerdictOn(db, p, targets[n], refuses, before);
    VerdictIsReported(db, r, p, targets[n], refuses, before);
    ReportGrows(r, place, verdict);
    forall i | 0 <= i < n && targets[i].status == Update
      ensures Place(targets[i].tenant, p.id) in Listed(r, VerdictOn(db, p, targets[i], refuses, before))
    {
      assert targets[..n][i] == targets[i];
    }
  }

  lemma VerdictIsReported(db: Db, report: Report, p: Planned, t: Target, refuses: set<Place>, before: KeyOrder)
    ensures var verdict := VerdictOn(db, p, t, refuses, before);
      && RolledBack(db, report, p, t, refuses, before).1 == Reported(report, Place(t.tenant, p.id), verdict)
      && (verdict.Unplanned? <==> t.status != Update)
  {
  }

  predicate DistinctPlan(plan: seq<Planned>) {
    && (forall k, l :: 0 <= k < l < |plan| ==> plan[k].id != plan[l].id)
    && (forall k :: 0 <= k < |plan| ==> Distinct(plan[k].targets))
  }

  predicate OffPlan(plan: seq<Planned>, place: Place) {
    forall k :: 0 <= k < |plan| ==> Elsewhere(plan[k], plan[k].targets, place)
  }

  function PlanPlaces(plan: seq<Planned>): multiset<Place> {
    if plan == [] then multiset{}
    else PlanPlaces(plan[..|plan| - 1]) + UpdatePlaces(plan[|plan| - 1], plan[|plan| - 1].targets)
  }

  /** The whole rollback, target by target: where each one ends, and where the report has it. */
  ghost predicate EachOnItsOwn(db: Db, d: Db, r: Report, plan: seq<Planned>, refuses: set<Place>, before: KeyOrder) {
    forall k, i :: 0 <= k < |plan| && 0 <= i < |plan[k].targets| ==>
      OnItsOwn(db, d, r, plan[k], plan[k].targets[i], refuses, before)
  }

  ghost predicate OnItsOwn(db: Db, d: Db, r: Report, p: Planned, t: Target, refuses: set<Place>, before: KeyOrder) {
    && SameAtPlace(d, Single(db, p, t, refuses, before), Place(t.tenant, p.id))
    && (t.status == Update ==> Place(t.tenant, p.id) in Listed(r, VerdictOn(db, p, t, refuses, before)))
  }

  lemma {:induction false} PlanIsIndependent(db: Db, report: Report, plan: seq<Planned>, refuses: set<Place>,
                                             before: KeyOrder)
    requires DistinctPlan(plan)
    ensures var (d, r) := RolledBackPlan(db, report, plan, refuses, before);
      && d.artifacts == db.artifacts && d.installs.Keys == db.installs.Keys
      && (forall place :: OffPlan(plan, place) ==> AtPlace(d, place) == AtPlace(db, place))
      && EachOnItsOwn(db, d, r, plan, refuses, before)
      && Everything(r) == Everything(report) + PlanPlaces(plan)
  {
    hide Single, VerdictOn, RolledBack, Listed, Everything, Reported, AtPlace, RolledBackTargets, UpdatePlaces, Elsewhere,
      OnItsOwn;
    if plan != [] {
      var n := |plan| - 1;
      var p := plan[n];
      PlanIsIndependent(db, report, plan[..n], refuses, before);
      var (m, mr) := RolledBackPlan(db, report, plan[..n], refuses, before);
      TargetsAreIndependent(m, mr, p, p.targets, refuses, before);
      TargetsAreReported(m, mr, p, p.targets, refuses, before);
      var (d, r) := RolledBackTargets(m, mr, p, p.targets, refuses, before);
      assert RolledBackPlan(db, report, plan, refuses, before) == (d, r);
      forall place | OffPlan(plan, place)
        ensures AtPlace(d, place) == AtPlace(db, place)
      {
        assert forall k :: 0 <= k < n ==> Elsewhere(plan[k], plan[k].targets, place);
        assert OffPlan(plan[..n], place) && Elsewhere(plan[n], plan[n].targets, place);
      }
      forall k, i | 0 <= k < |plan| && 0 <= i < |plan[k].targets|
        ensures OnItsOwn(db, d, r, plan[k], plan[k].targets[i], refuses, before)
      {
        if k < n {
          assert OnItsOwn(db, m, mr, plan[..n][k], plan[..n][k].targets[i], refuses, before);
          StaysOnItsOwn(db, m, mr, d, r, plan, k, i, refuses, before);
        } else {
          LastOnItsOwn(db, m, mr, d, r, plan, i, refuses, before);
        }
      }
    }
  }

  lemma StaysOnItsOwn(db: Db, m: Db, mr: Report, d: Db, r: Report, plan: seq<Planned>, k: nat, i: nat,
                      refuses: set<Place>, before: KeyOrder)
    requires DistinctPlan(plan) && k < |plan| - 1 && i < |plan[k].targets|
    requires OnItsOwn(db, m, mr, plan[k], plan[k].targets[i], refuses, before)
    requires var p := plan[|plan| - 1];
      && d.artifacts == m.artifacts
      && (forall place :: Elsewhere(p, p.targets, place) ==> AtPlace(d, place) == AtPlace(m, place))
    requires forall v, place :: place in Listed(mr, v) ==> place in Listed(r, v)
    ensures OnItsOwn(db, d, r, plan[k], plan[k].targets[i], refuses, before)
  {
    hide Single, VerdictOn, Listed, AtPlace;
    var place := Place(plan[k].targets[i].tenant, plan[k].id);
    assert Elsewhere(plan[|plan| - 1], plan[|plan| - 1].targets, place);
  }

  lemma LastOnItsOwn(db: Db, m: Db, mr: Report, d: Db, r: Report, plan: seq<Planned>, i: nat,
                     refuses: set<Place>, before: KeyOrder)
    requires DistinctPlan(plan) && plan != [] && i < |plan[|plan| - 1].targets|
    requires m.artifacts == db.artifacts
    requires forall place :: OffPlan(plan[..|plan| - 1], place) ==> AtPlace(m, place) == AtPlace(db, place)
    requires var p := plan[|plan| - 1];
      && SameAtPlace(d, Single(m, p, p.targets[i], refuses, before), Place(p.targets[i].tenant, p.id))
      && Accounts(r, mr, m, p, p.targets, refuses, before)
    ensures OnItsOwn(db, d, r, plan[|plan| - 1], plan[|plan| - 1].targets[i], refuses, before)
  {
    hide Single, VerdictOn, Listed, AtPlace, Everything, RolledBack;
    var p := plan[|plan| - 1];
    var place := Place(p.targets[i].tenant, p.id);
    assert OffPlan(plan[..|plan| - 1], place);
    RollbackIsLocal(db, m, Report([], [], [], []), p, p.targets[i], refuses, before);
    SingleIs(m, p, p.targets[i], refuses, before);
  }

  lemma SingleIs(db: Db, p: Planned, t: Target, refuses: set<Place>, before: KeyOrder)
    ensures Single(db, p, t, refuses, before) == RolledBack(db, Report([], [], [], []), p, t, refuses, before).0
  {
  }

  // ----- what preflight accepts and what rollback leaves, told by the values ----------------------------------

  predicate IsManifest(v: Json) {
    v.Obj? && Valid(v)
  }

  /** Two manifests agree on every key but the version, up to the order of keys below them. */
  ghost predicate AgreeElsewhere(v: Json, w: Json) {
    v.Obj? && w.Obj?
    && Keys(v.members) - {"version"} == Keys(w.members) - {"version"}
    && forall k :: k in Keys(v.members) && k != "version" ==> SameAt(v.members, w.members, k)
  }

  predicate SameStore(a: Option<Json>, b: Option<Json>) {
    match (a, b)
    case (Some(x), Some(y)) => Same(x, y)
    case (None, None) => true
    case _ => false
  }

  predicate StoreOk(store: Option<Json>) {
    store.Some? ==> Valid(store.value)
  }

  lemma TextIffSame(a: Option<Json>, b: Option<Json>, before: KeyOrder)
    requires TotalOrder(before) && StoreOk(a) && StoreOk(b)
    ensures Text(a, before) == Text(b, before) <==> SameStore(a, b)
  {
    hide Canonical;
    if a.Some? && b.Some? {
      CanonicalIffSame(a.value, b.value, before);
    }
  }

  lemma OnlyVersionIff(v: Json, w: Json, before: KeyOrder)
    requires TotalOrder(before) && IsManifest(v) && IsManifest(w)
    ensures OnlyVersionChanges(v, w, before) <==> AgreeElsewhere(v, w)
  {
    AgreeButForVersion(v.members, w.members, before);
    assert v == Obj(v.members) && w == Obj(w.members);
  }

  /**
   Exactly what preflight says of a tenant: nothing to do for the very archive with the same manifests and store; an
   update only from the expected version, when neither the manifest installed nor the one stored differs from the new
   one in anything but its version, and the store not at all; and otherwise the first of these that is amiss.
   */
  lemma ExaminedIff(db: Db, tenant: string, p: Plugin, before: KeyOrder)
    requires TotalOrder(before) && IsManifest(p.manifest) && StoreOk(p.store)
    requires forall place :: place in db.installs ==> IsManifest(db.installs[place].manifest)
    requires forall slot :: slot in db.artifacts ==> IsManifest(db.artifacts[slot].manifest) && StoreOk(db.artifacts[slot].store)
    ensures var place := Place(tenant, p.id);
      Examined(db, tenant, p, before) ==
      if place !in db.installs then Ok(Target(tenant, SkipMissing, None, None)) else
      var i := db.installs[place];
      if !i.enabled then Ok(Target(tenant, SkipDisabled, None, None)) else
      if Slot(place, i.version) !in db.artifacts then Err(ArtifactMissing) else
      var a := db.artifacts[Slot(place, i.version)];
      if i.version == p.version && a.sha == p.sha && Same(i.manifest, p.manifest) && Same(a.manifest, p.manifest)
        && SameStore(a.store, p.store)
      then Ok(Target(tenant, Skip, Some(i), Some(a)))
      else if i.version != p.previousVersion then Err(UnexpectedVersion)
      else if !AgreeElsewhere(a.manifest, p.manifest) || !AgreeElsewhere(i.manifest, p.manifest) then Err(ManifestChanges)
      else if !SameStore(a.store, p.store) then Err(StoreChanges)
      else Ok(Target(tenant, Update, Some(i), Some(a)))
  {
    hide Canonical, OnlyVersionChanges, Text, AgreeElsewhere;
    var place := Place(tenant, p.id);
    if place in db.installs && Slot(place, db.installs[place].version) in db.artifacts {
      var i, a := db.installs[place], db.artifacts[Slot(place, db.installs[place].version)];
      CanonicalIffSame(i.manifest, p.manifest, before);
      CanonicalIffSame(a.manifest, p.manifest, before);
      TextIffSame(a.store, p.store, before);
      OnlyVersionIff(a.manifest, p.manifest, before);
      OnlyVersionIff(i.manifest, p.manifest, before);
    }
  }

  /**
   Exactly what rollback does with a target to be updated: it leaves alone one that is as it was recorded, and one that
   somebody has changed since, or whose archive is not the published one; it fails where nothing is recorded, the
   installer refuses or the recorded version is not stored; and it restores the others.
   */
  lemma VerdictIff(db: Db, p: Planned, t: Target, refuses: set<Place>, before: KeyOrder)
    requires TotalOrder(before) && t.status == Update && t.installation.Some? && IsManifest(t.installation.value.manifest)
    requires t.installation.value.version != p.version
    requires forall place :: place in db.installs ==> IsManifest(db.installs[place].manifest)
    ensures var place, was := Place(t.tenant, p.id), t.installation.value;
      var verdict := VerdictOn(db, p, t, refuses, before);
      && (verdict == Untouched <==>
            place in db.installs && db.installs[place].enabled && db.installs[place].version == was.version
            && Slot(place, was.version) in db.artifacts && t.artifact == Some(db.artifacts[Slot(place, was.version)])
            && Same(db.installs[place].manifest, was.manifest))
      && (verdict == Left <==>
            verdict != Untouched
            && (place !in db.installs || !db.installs[place].enabled || db.installs[place].version != p.version
                || Slot(place, p.version) !in db.artifacts || db.artifacts[Slot(place, p.version)].sha != p.sha))
      && (verdict == Failed <==>
            verdict != Untouched && verdict != Left && (place in refuses || Slot(place, was.version) !in db.artifacts))
      && (verdict == Restored <==> verdict != Untouched && verdict != Left && verdict != Failed)
  {
    hide Canonical;
    var place := Place(t.tenant, p.id);
    if place in db.installs {
      CanonicalIffSame(db.installs[place].manifest, t.installation.value.manifest, before);
    }
  }

  // ----- what a plan records -------------------------------------------------------------------------------

  lemma {:induction false} ExaminedAllIs(db: Db, tenants: seq<string>, p: Plugin, before: KeyOrder)
    requires ExaminedAll(db, tenants, p, before).Ok?
    ensures var ts := ExaminedAll(db, tenants, p, before).value;
      |ts| == |tenants| && forall i :: 0 <= i < |ts| ==> Examined(db, tenants[i], p, before) == Ok(ts[i])
  {
    hide Examined;
    if tenants != [] {
      ExaminedAllIs(db, tenants[..|tenants| - 1], p, before);
    }
  }

  predicate PlansFor(db: Db, tenants: seq<string>, p: Plugin, planned: Planned, before: KeyOrder) {
    && planned.id == p.id && planned.version == p.version && planned.sha == p.sha
    && |planned.targets| == |tenants|
    && forall i :: 0 <= i < |tenants| ==> Examined(db, tenants[i], p, before) == Ok(planned.targets[i])
  }

  lemma {:induction false} PlannedFromIs(db: Db, tenants: seq<string>, plugins: seq<Plugin>, before: KeyOrder)
    requires PlannedFrom(db, tenants, plugins, before).Ok?
    ensures var plan := PlannedFrom(db, tenants, plugins, before).value;
      |plan| == |plugins| && forall k :: 0 <= k < |plan| ==> PlansFor(db, tenants, plugins[k], plan[k], before)
  {
    hide Examined;
    if plugins != [] {
      var n := |plugins| - 1;
      PlannedFromIs(db, tenants, plugins[..n], before);
      ExaminedAllIs(db, tenants, plugins[n], before);
    }
  }

  predicate NoTenantTwice(tenants: seq<string>) {
    forall i, j :: 0 <= i < j < |tenants| ==> tenants[i] != tenants[j]
  }

  lemma PlanIsDistinct(db: Db, tenants: seq<string>, plugins: seq<Plugin>, before: KeyOrder)
    requires Preflight(db, tenants, plugins, before).Ok? && NoTenantTwice(tenants)
    ensures var plan := Preflight(db, tenants, plugins, before).value;
      && |plan| == |plugins| && DistinctPlan(plan) && NoIdTwice(plugins)
      && forall k :: 0 <= k < |plan| ==> PlansFor(db, tenants, plugins[k], plan[k], before)
  {
    hide Examined;
    PlannedFromIs(db, tenants, plugins, before);
    var plan := Preflight(db, tenants, plugins, before).value;
    forall k | 0 <= k < |plan|
      ensures Distinct(plan[k].targets)
    {
      assert PlansFor(db, tenants, plugins[k], plan[k], before);
      forall i | 0 <= i < |tenants|
        ensures plan[k].targets[i].tenant == tenants[i]
      {
        ExaminedNames(db, tenants[i], plugins[k], before);
      }
    }
  }

  lemma ExaminedNames(db: Db, tenant: string, p: Plugin, before: KeyOrder)
    ensures Examined(db, tenant, p, before).Ok? ==> Examined(db, tenant, p, before).value.tenant == tenant
  {
  }

  /** A place a plan marks for update holds the expected version, enabled, and the plan has what it holds. */
  lemma UpdateMeans(db: Db, tenant: string, p: Plugin, t: Target, before: KeyOrder)
    requires Examined(db, tenant, p, before) == Ok(t)
    ensures t.tenant == tenant
    ensures t.status == Update ==>
      var place := Place(tenant, p.id);
      && place in db.installs && t.installation == Some(db.installs[place])
      && db.installs[place].enabled && db.installs[place].version == p.previousVersion
      && Slot(place, p.previousVersion) in db.artifacts
      && t.artifact == Some(db.artifacts[Slot(place, p.previousVersion)])
  {
  }

  // ----- publishing any part of a plan, in any order -----------------------------------------------------

  datatype Call = Call(tenant: string, k: nat, answers: Answers)

  ghost function PublishRun(db: Db, plugins: seq<Plugin>, calls: seq<Call>, before: KeyOrder): Db
    requires forall c :: c in calls ==> c.k < |plugins|
  {
    if calls == [] then db else
    var c := calls[|calls| - 1];
    var p := plugins[c.k];
    Published(PublishRun(db, plugins, calls[..|calls| - 1], before), Place(c.tenant, p.id), p, c.answers, before).0
  }

  predicate SameContent(a: Artifact, p: Plugin) {
    a.manifest == p.manifest && a.entry == p.entry && a.store == p.store
  }

  /** The place has been moved from the version it was expected at to the one of the plan. */
  predicate Moved(db0: Db, db: Db, place: Place, p: Plugin) {
    var slot := Slot(place, p.version);
    && place.id == p.id
    && place in db0.installs && db0.installs[place].enabled && db0.installs[place].version == p.previousVersion
    && p.previousVersion < p.version
    && slot in db.artifacts && SameContent(db.artifacts[slot], p)
    && place in db.installs && db.installs[place] == Installation(p.version, true, p.manifest)
  }

  /** What publishing for `plugins` may have changed since `db0`. */
  ghost predicate Kept(db0: Db, db: Db, plugins: seq<Plugin>) {
    && db.installs.Keys == db0.installs.Keys
    && (forall slot :: slot in db0.artifacts ==> slot in db.artifacts && db.artifacts[slot] == db0.artifacts[slot])
    && (forall k, slot :: 0 <= k < |plugins| && slot in db.artifacts && slot !in db0.artifacts ==>
          slot.place.id == plugins[k].id && slot.version == plugins[k].version ==>
            db.artifacts[slot].sha == plugins[k].sha)
    && (forall place :: place in db.installs ==> PlaceKept(db0, db, place, plugins))
  }

  ghost predicate PlaceKept(db0: Db, db: Db, place: Place, plugins: seq<Plugin>) {
    AtPlace(db, place) == AtPlace(db0, place)
    || exists k :: 0 <= k < |plugins| && Moved(db0, db, place, plugins[k])
  }

  lemma UploadIs(db: Db, place: Place, p: Plugin)
    requires Uploaded(db, place, p).Some?
    ensures var after := Uploaded(db, place, p).value;
      var slot := Slot(place, p.version);
      && after.installs == db.installs
      && slot in after.artifacts && SameContent(after.artifacts[slot], p)
      && (if slot in db.artifacts then after == db
          else after.artifacts == db.artifacts[slot := after.artifacts[slot]] && after.artifacts[slot].sha == p.sha)
  {
  }

  /** What one call leaves: the same, or the archive stored, or the place moved as well. */
  lemma PublishedIs(db: Db, place: Place, p: Plugin, answers: Answers, before: KeyOrder)
    ensures var after := Published(db, place, p, answers, before).0;
      || after == db
      || (Uploaded(db, place, p).Some? && after == Uploaded(db, place, p).value)
      || (Uploaded(db, place, p).Some?
          && place in db.installs && db.installs[place].enabled && db.installs[place].version == p.previousVersion
          && p.previousVersion < p.version
          && after == Uploaded(db, place, p).value.(
               installs := db.installs[place := Installation(p.version, true, p.manifest)]))
  {
    if Uploaded(db, place, p).Some? {
      UploadIs(db, place, p);
    }
    hide Uploaded;
  }

  lemma StoreKeeps(db0: Db, db: Db, plugins: seq<Plugin>, k: nat, place: Place)
    requires Kept(db0, db, plugins) && NoIdTwice(plugins) && k < |plugins| && place.id == plugins[k].id
    requires Uploaded(db, place, plugins[k]).Some?
    ensures Kept(db0, Uploaded(db, place, plugins[k]).value, plugins)
  {
    UploadIs(db, place, plugins[k]);
    hide Uploaded;
    var after := Uploaded(db, place, plugins[k]).value;
    forall q | q in after.installs
      ensures PlaceKept(db0, after, q, plugins)
    {
      assert PlaceKept(db0, db, q, plugins);
      if l :| 0 <= l < |plugins| && Moved(db0, db, q, plugins[l]) {
        assert Moved(db0, after, q, plugins[l]);
      }
    }
  }

  lemma MoveKeeps(db0: Db, db: Db, plugins: seq<Plugin>, k: nat, place: Place)
    requires Kept(db0, db, plugins) && NoIdTwice(plugins) && k < |plugins| && place.id == plugins[k].id
    requires var p := plugins[k];
      && place in db.installs && db.installs[place].enabled && db.installs[place].version == p.previousVersion
      && p.previousVersion < p.version
      && Slot(place, p.version) in db.artifacts && SameContent(db.artifacts[Slot(place, p.version)], p)
    ensures Kept(db0, db.(installs := db.installs[place := Installation(plugins[k].version, true, plugins[k].manifest)]),
                 plugins)
  {
    var p := plugins[k];
    var after := db.(installs := db.installs[place := Installation(p.version, true, p.manifest)]);
    forall q | q in after.installs
      ensures PlaceKept(db0, after, q, plugins)
    {
      assert PlaceKept(db0, db, q, plugins);
      if l :| 0 <= l < |plugins| && Moved(db0, db, q, plugins[l]) {
        assert q == place ==> l == k;
        assert q != place ==> Moved(db0, after, q, plugins[l]);
      }
      assert q == place && AtPlace(db, q) == AtPlace(db0, q) ==> Moved(db0, after, q, p);
    }
  }

  lemma {:induction false} RunKeeps(db0: Db, plugins: seq<Plugin>, calls: seq<Call>, before: KeyOrder)
    requires NoIdTwice(plugins) && forall c :: c in calls ==> c.k < |plugins|
    ensures Kept(db0, PublishRun(db0, plugins, calls, before), plugins)
  {
    hide Published, Uploaded;
    if calls != [] {
      hide Kept;
      RunKeeps(db0, plugins, calls[..|calls| - 1], before);
      var db := PublishRun(db0, plugins, calls[..|calls| - 1], before);
      var c := calls[|calls| - 1];
      assert c in calls;
      var p, place := plugins[c.k], Place(c.tenant, plugins[c.k].id);
      PublishedIs(db, place, p, c.answers, before);
      if Uploaded(db, place, p).Some? {
        StoreKeeps(db0, db, plugins, c.k, place);
        UploadIs(db, place, p);
        var stored := Uploaded(db, place, p).value;
        if Published(db, place, p, c.answers, before).0 != db && Published(db, place, p, c.answers, before).0 != stored {
          MoveKeeps(db0, stored, plugins, c.k, place);
        }
      }
    }
  }

  // ----- rollback undoes it --------------------------------------------------------------------------------

  /** Before publishing, the tenant already has the newer version, with the same content from another archive. */
  predicate Twin(db: Db, place: Place, p: Plugin) {
    var slot := Slot(place, p.version);
    p.previousVersion < p.version
    && slot in db.artifacts && SameContent(db.artifacts[slot], p) && db.artifacts[slot].sha != p.sha
  }

  /** The place has its installation of before, or that version installed again from its artifact of before. */
  predicate BackAt(db0: Db, d: Db, place: Place) {
    (place in d.installs <==> place in db0.installs)
    && (place in d.installs ==> d.installs[place] == db0.installs[place] || Reinstalled(db0, d, place))
  }

  predicate Reinstalled(db0: Db, d: Db, place: Place)
    requires place in db0.installs && place in d.installs
  {
    var slot := Slot(place, db0.installs[place].version);
    slot in db0.artifacts && db0.installs[place].enabled
    && d.installs[place] == Installation(slot.version, true, db0.artifacts[slot].manifest)
  }

  /** Rolling back one target after any publishing. */
  lemma TargetComesBack(db0: Db, db: Db, plugins: seq<Plugin>, k: nat, planned: Planned, t: Target, refuses: set<Place>,
                        before: KeyOrder)
    requires k < |plugins| && NoIdTwice(plugins) && Kept(db0, db, plugins)
    requires planned.id == plugins[k].id && planned.version == plugins[k].version && planned.sha == plugins[k].sha
    requires Examined(db0, t.tenant, plugins[k], before) == Ok(t) && t.status == Update
    requires !Twin(db0, Place(t.tenant, planned.id), plugins[k])
    ensures var place := Place(t.tenant, planned.id);
      var verdict := VerdictOn(db, planned, t, refuses, before);
      && (verdict.Untouched? || verdict.Restored? || (verdict.Failed? && place in refuses))
      && (!verdict.Failed? ==> BackAt(db0, Single(db, planned, t, refuses, before), place))
  {
    var p := plugins[k];
    var place := Place(t.tenant, p.id);
    UpdateMeans(db0, t.tenant, p, t, before);
    hide Examined;
    assert PlaceKept(db0, db, place, plugins);
    if AtPlace(db, place) != AtPlace(db0, place) {
      var l :| 0 <= l < |plugins| && Moved(db0, db, place, plugins[l]);
      assert l == k;
      assert AsPublished(db, place, planned);
    }
  }

  /** Only a target marked for update is ever moved. */
  lemma OnlyUpdatesMove(db0: Db, db: Db, place: Place, p: Plugin, t: Target, before: KeyOrder)
    requires Examined(db0, place.tenant, p, before) == Ok(t)
    ensures Moved(db0, db, place, p) ==> t.status == Update
  {
  }

  predicate UpdateTarget(plan: seq<Planned>, place: Place) {
    exists k, i :: 0 <= k < |plan| && 0 <= i < |plan[k].targets|
      && plan[k].targets[i].status == Update && place == Place(plan[k].targets[i].tenant, plan[k].id)
  }

  lemma OthersStay(db0: Db, db: Db, tenants: seq<string>, plugins: seq<Plugin>, plan: seq<Planned>, place: Place,
                   before: KeyOrder)
    requires Kept(db0, db, plugins) && |plan| == |plugins|
    requires forall k :: 0 <= k < |plan| ==> PlansFor(db0, tenants, plugins[k], plan[k], before)
    requires place in db.installs && place.tenant in tenants && !UpdateTarget(plan, place)
    ensures AtPlace(db, place) == AtPlace(db0, place)
  {
    assert PlaceKept(db0, db, place, plugins);
    var i :| 0 <= i < |tenants| && tenants[i] == place.tenant;
    forall k | 0 <= k < |plugins|
      ensures !Moved(db0, db, place, plugins[k])
    {
      assert PlansFor(db0, tenants, plugins[k], plan[k], before);
      var t := plan[k].targets[i];
      OnlyUpdatesMove(db0, db, place, plugins[k], t, before);
      ExaminedNames(db0, tenants[i], plugins[k], before);
      assert t.tenant == place.tenant;
      assert t.status == Update && place == Place(t.tenant, plan[k].id) ==> UpdateTarget(plan, place);
    }
  }

  /** No target marked for update has a twin of its new version. */
  ghost predicate NoTwins(db0: Db, plugins: seq<Plugin>, plan: seq<Planned>) {
    forall k, i :: 0 <= k < |plan| && k < |plugins| && 0 <= i < |plan[k].targets| ==>
      plan[k].targets[i].status == Update ==>
        !Twin(db0, Place(plan[k].targets[i].tenant, plan[k].id), plugins[k])
  }

  const NOTHING := Report([], [], [], [])

  /**
   After any calls that publish any part of the plan, in any order, failing or not, rollback brings every place
   of the known tenants back to the version it had, unless the installer refuses there; each update target is in
   the report once; nothing is skipped; and what fails is what the installer refused.
   */
  lemma RollbackRestores(db0: Db, tenants: seq<string>, plugins: seq<Plugin>, calls: seq<Call>, refuses: set<Place>,
                         before: KeyOrder)
    requires Preflight(db0, tenants, plugins, before).Ok? && NoTenantTwice(tenants)
    requires forall c :: c in calls ==> c.k < |plugins|
    requires NoTwins(db0, plugins, Preflight(db0, tenants, plugins, before).value)
    ensures var plan := Preflight(db0, tenants, plugins, before).value;
      var db := PublishRun(db0, plugins, calls, before);
      var (d, r) := RolledBackPlan(db, NOTHING, plan, refuses, before);
      && (forall place :: place in db0.installs && place.tenant in tenants && place !in refuses ==> BackAt(db0, d, place))
      && Everything(r) == PlanPlaces(plan)
      && (forall k, i :: 0 <= k < |plan| && 0 <= i < |plan[k].targets| && plan[k].targets[i].status == Update ==>
            var place := Place(plan[k].targets[i].tenant, plan[k].id);
            place in r.untouched || place in r.restored || (place in r.failures && place in refuses))
  {
    var plan := Preflight(db0, tenants, plugins, before).value;
    var db := PublishRun(db0, plugins, calls, before);
    var (d, r) := RolledBackPlan(db, NOTHING, plan, refuses, before);
    PlanIsDistinct(db0, tenants, plugins, before);
    RunKeeps(db0, plugins, calls, before);
    PlanIsIndependent(db, NOTHING, plan, refuses, before);
    hide Preflight, PublishRun, RolledBackPlan, VerdictOn, Single, Twin, Examined, Kept, Everything, PlanPlaces;
    assert Everything(NOTHING) == multiset{} by { NothingReported(); }
    forall k, i | 0 <= k < |plan| && 0 <= i < |plan[k].targets| && plan[k].targets[i].status == Update
      ensures var place := Place(plan[k].targets[i].tenant, plan[k].id);
        && (place in r.untouched || place in r.restored || (place in r.failures && place in refuses))
        && (place !in refuses ==> BackAt(db0, d, place))
    {
      UpdateComesBack(db0, db, d, r, tenants, plugins, plan, k, i, refuses, before);
    }
    forall place | place in db0.installs && place.tenant in tenants && place !in refuses
      ensures BackAt(db0, d, place)
    {
      if !UpdateTarget(plan, place) {
        StaysBack(db0, db, d, r, tenants, plugins, plan, place, refuses, before);
      }
    }
  }

  lemma NothingReported()
    ensures Everything(NOTHING) == multiset{}
  {
  }

  lemma UpdateComesBack(db0: Db, db: Db, d: Db, r: Report, tenants: seq<string>, plugins: seq<Plugin>, plan: seq<Planned>,
                        k: nat, i: nat, refuses: set<Place>, before: KeyOrder)
    requires |plan| == |plugins| && NoIdTwice(plugins) && Kept(db0, db, plugins) && NoTwins(db0, plugins, plan)
    requires forall k :: 0 <= k < |plan| ==> PlansFor(db0, tenants, plugins[k], plan[k], before)
    requires EachOnItsOwn(db, d, r, plan, refuses, before)
    requires k < |plan| && i < |plan[k].targets| && plan[k].targets[i].status == Update
    ensures var place := Place(plan[k].targets[i].tenant, plan[k].id);
      && (place in r.untouched || place in r.restored || (place in r.failures && place in refuses))
      && (place !in refuses ==> BackAt(db0, d, place))
  {
    hide VerdictOn, Single, Twin, Examined, Kept;
    var t := plan[k].targets[i];
    assert PlansFor(db0, tenants, plugins[k], plan[k], before);
    ExaminedNames(db0, tenants[i], plugins[k], before);
    TargetComesBack(db0, db, plugins, k, plan[k], t, refuses, before);
    assert OnItsOwn(db, d, r, plan[k], t, refuses, before);
  }

  lemma StaysBack(db0: Db, db: Db, d: Db, r: Report, tenants: seq<string>, plugins: seq<Plugin>, plan: seq<Planned>,
                  place: Place, refuses: set<Place>, before: KeyOrder)
    requires |plan| == |plugins| && Kept(db0, db, plugins) && d.installs.Keys == db.installs.Keys
    requires forall k :: 0 <= k < |plan| ==> PlansFor(db0, tenants, plugins[k], plan[k], before)
    requires EachOnItsOwn(db, d, r, plan, refuses, before)
    requires forall q :: OffPlan(plan, q) ==> AtPlace(d, q) == AtPlace(db, q)
    requires place in db0.installs && place.tenant in tenants && !UpdateTarget(plan, place)
    ensures BackAt(db0, d, place)
  {
    OthersStay(db0, db, tenants, plugins, plan, place, before);
    if !OffPlan(plan, place) {
      var k :| 0 <= k < |plan| && !Elsewhere(plan[k], plan[k].targets, place);
      var i :| 0 <= i < |plan[k].targets| && place == Place(plan[k].targets[i].tenant, plan[k].id);
      var t := plan[k].targets[i];
      assert t.status != Update;
      assert OnItsOwn(db, d, r, plan[k], t, refuses, before);
      UnplannedStays(db, plan[k], t, refuses, before);
    }
  }

  lemma UnplannedStays(db: Db, p: Planned, t: Target, refuses: set<Place>, before: KeyOrder)
    requires t.status != Update
    ensures Single(db, p, t, refuses, before) == db
  {
  }

  /** Publishing over a twin installs it, fails its own check, and rollback then leaves it where it is. */
  lemma TwinStrands(db0: Db, tenants: seq<string>, plugins: seq<Plugin>, k: nat, i: nat, before: KeyOrder)
    returns (calls: seq<Call>)
    requires Preflight(db0, tenants, plugins, before).Ok? && NoTenantTwice(tenants) && k < |plugins| && i < |tenants|
    requires var plan := Preflight(db0, tenants, plugins, before).value;
      |plan| == |plugins| && |plan[k].targets| == |tenants| && plan[k].targets[i].status == Update
      && Twin(db0, Place(plan[k].targets[i].tenant, plan[k].id), plugins[k])
    ensures forall c :: c in calls ==> c.k < |plugins|
    ensures var plan := Preflight(db0, tenants, plugins, before).value;
      var place := Place(plan[k].targets[i].tenant, plan[k].id);
      var (d, r) := RolledBackPlan(PublishRun(db0, plugins, calls, before), NOTHING, plan, {}, before);
      place.tenant in tenants && place in db0.installs && !BackAt(db0, d, place) && place in r.skipped
  {
    hide Preflight, PublishRun, Published, Examined, Twin, VerdictOn, Single, Everything, PlanPlaces;
    var plan := Preflight(db0, tenants, plugins, before).value;
    var p, t := plugins[k], plan[k].targets[i];
    var place := Place(t.tenant, p.id);
    PlanIsDistinct(db0, tenants, plugins, before);
    assert PlansFor(db0, tenants, p, plan[k], before);
    ExaminedNames(db0, tenants[i], p, before);
    UpdateMeans(db0, tenants[i], p, t, before);
    calls := [Call(t.tenant, k, Answers(true, true))];
    OneCall(db0, plugins, calls[0], before);
    var db := PublishRun(db0, plugins, calls, before);
    TwinIsInstalled(db0, place, p, Answers(true, true), before);
    TwinIsLeft(db, plan[k], t, before);
    PlanIsIndependent(db, NOTHING, plan, {}, before);
    var (d, r) := RolledBackPlan(db, NOTHING, plan, {}, before);
    assert OnItsOwn(db, d, r, plan[k], t, {}, before);
  }

  lemma OneCall(db: Db, plugins: seq<Plugin>, c: Call, before: KeyOrder)
    requires c.k < |plugins|
    ensures PublishRun(db, plugins, [c], before)
      == Published(db, Place(c.tenant, plugins[c.k].id), plugins[c.k], c.answers, before).0
  {
    assert [c][..0] == [];
    assert PublishRun(db, plugins, [], before) == db;
  }

  lemma TwinIsInstalled(db: Db, place: Place, p: Plugin, answers: Answers, before: KeyOrder)
    requires place in db.installs && db.installs[place].enabled && db.installs[place].version == p.previousVersion
    requires Twin(db, place, p) && answers == Answers(true, true)
    ensures Slot(place, p.version) in db.artifacts && db.artifacts[Slot(place, p.version)].sha != p.sha
    ensures p.version != p.previousVersion
    ensures var (after, r) := Published(db, place, p, answers, before);
      && r == Err(NotVerified) && after.artifacts == db.artifacts
      && place in after.installs && after.installs[place] == Installation(p.version, true, p.manifest)
  {
  }

  lemma TwinIsLeft(db: Db, p: Planned, t: Target, before: KeyOrder)
    requires var place := Place(t.tenant, p.id);
      && t.status == Update && t.installation.Some? && t.installation.value.version != p.version
      && place in db.installs && db.installs[place].version == p.version
      && Slot(place, p.version) in db.artifacts && db.artifacts[Slot(place, p.version)].sha != p.sha
    ensures VerdictOn(db, p, t, {}, before) == Left && Single(db, p, t, {}, before) == db
  {
  }

  predicate AllBack(db0: Db, d: Db, tenants: seq<string>) {
    forall place :: place in db0.installs && place.tenant in tenants ==> BackAt(db0, d, place)
  }

  /**
   With a willing installer, a plan can always be undone, whatever part of it was published, if and only if no
   tenant had a twin of a version it was to be updated to.
   */
  lemma RollbackRestoresIff(db0: Db, tenants: seq<string>, plugins: seq<Plugin>, before: KeyOrder)
    requires Preflight(db0, tenants, plugins, before).Ok? && NoTenantTwice(tenants)
    ensures var plan := Preflight(db0, tenants, plugins, before).value;
      (forall calls: seq<Call> :: (forall c :: c in calls ==> c.k < |plugins|) ==>
         AllBack(db0, RolledBackPlan(PublishRun(db0, plugins, calls, before), NOTHING, plan, {}, before).0, tenants))
      <==> NoTwins(db0, plugins, plan)
  {
    var plan := Preflight(db0, tenants, plugins, before).value;
    PlanIsDistinct(db0, tenants, plugins, before);
    hide Preflight, PublishRun, RolledBackPlan, Twin;
    if NoTwins(db0, plugins, plan) {
      forall calls: seq<Call> | forall c :: c in calls ==> c.k < |plugins|
        ensures AllBack(db0, RolledBackPlan(PublishRun(db0, plugins, calls, before), NOTHING, plan, {}, before).0, tenants)
      {
        RollbackRestores(db0, tenants, plugins, calls, {}, before);
      }
    } else {
      var k, i :| 0 <= k < |plan| && k < |plugins| && 0 <= i < |plan[k].targets|
        && plan[k].targets[i].status == Update
        && Twin(db0, Place(plan[k].targets[i].tenant, plan[k].id), plugins[k]);
      assert PlansFor(db0, tenants, plugins[k], plan[k], before);
      var calls := TwinStrands(db0, tenants, plugins, k, i, before);
    }
  }

  /** The verdict of a second rollback on a target, given that of the first. */
  function SecondVerdict(first: Verdict, t: Target, before: KeyOrder): Verdict {
    match first
    case Restored =>
      if t.installation.Some? && t.artifact.Some?
        && Canonical(t.artifact.value.manifest, before) == Canonical(t.installation.value.manifest, before)
      then Untouched else Left
    case _ => first
  }

  /** The target ends where it ended, and is reported again. */
  ghost predicate OnceMore(db: Db, d: Db, e: Db, er: Report, p: Planned, t: Target, refuses: set<Place>, before: KeyOrder) {
    var place := Place(t.tenant, p.id);
    && AtPlace(e, place) == AtPlace(d, place)
    && (t.status == Update ==> place in Listed(er, SecondVerdict(VerdictOn(db, p, t, refuses, before), t, before)))
  }

  /**
   Rolling back again changes nothing, whatever the installer refuses. Each target is reported as the first time,
   but for a restored one: it is untouched if its artifact has the manifest that was recorded as installed, and
   skipped if it has another.
   */
  lemma RollbackTwiceIsOnce(db0: Db, tenants: seq<string>, plugins: seq<Plugin>, calls: seq<Call>, refuses: set<Place>,
                            before: KeyOrder)
    requires Preflight(db0, tenants, plugins, before).Ok? && NoTenantTwice(tenants)
    requires forall c :: c in calls ==> c.k < |plugins|
    ensures var plan := Preflight(db0, tenants, plugins, before).value;
      var db := PublishRun(db0, plugins, calls, before);
      var d := RolledBackPlan(db, NOTHING, plan, refuses, before).0;
      var (e, er) := RolledBackPlan(d, NOTHING, plan, refuses, before);
      && e == d
      && Everything(er) == PlanPlaces(plan)
      && (forall k, i :: 0 <= k < |plan| && 0 <= i < |plan[k].targets| ==>
            OnceMore(db, d, e, er, plan[k], plan[k].targets[i], refuses, before))
  {
    hide Preflight, PublishRun, RolledBackPlan, VerdictOn, Single, Examined, Kept, Everything, PlanPlaces, EachOnItsOwn,
      DistinctPlan, OnceMore, NoIdTwice, PlansFor;
    var plan := Preflight(db0, tenants, plugins, before).value;
    var db := PublishRun(db0, plugins, calls, before);
    var (d, r) := RolledBackPlan(db, NOTHING, plan, refuses, before);
    PlanIsDistinct(db0, tenants, plugins, before);
    RunKeeps(db0, plugins, calls, before);
    PlanIsIndependent(db, NOTHING, plan, refuses, before);
    PlanIsIndependent(d, NOTHING, plan, refuses, before);
    assert Everything(NOTHING) == multiset{} by { NothingReported(); }
    var (e, er) := RolledBackPlan(d, NOTHING, plan, refuses, before);
    forall k, i | 0 <= k < |plan| && 0 <= i < |plan[k].targets|
      ensures OnceMore(db, d, e, er, plan[k], plan[k].targets[i], refuses, before)
    {
      TargetAgain(db0, db, d, r, e, er, tenants, plugins, plan, k, i, refuses, before);
    }
    forall place | place in d.installs
      ensures e.installs[place] == d.installs[place]
    {
      PlaceAgain(db, d, e, er, plan, place, refuses, before);
    }
    assert e.installs == d.installs;
  }

  lemma PlaceAgain(db: Db, d: Db, e: Db, er: Report, plan: seq<Planned>, place: Place, refuses: set<Place>,
                   before: KeyOrder)
    requires forall k, i :: 0 <= k < |plan| && 0 <= i < |plan[k].targets| ==>
      OnceMore(db, d, e, er, plan[k], plan[k].targets[i], refuses, before)
    requires forall q :: OffPlan(plan, q) ==> AtPlace(e, q) == AtPlace(d, q)
    ensures AtPlace(e, place) == AtPlace(d, place)
  {
    hide AtPlace, VerdictOn, Listed, SecondVerdict;
    if !OffPlan(plan, place) {
      var k :| 0 <= k < |plan| && !Elsewhere(plan[k], plan[k].targets, place);
      var i :| 0 <= i < |plan[k].targets| && place == Place(plan[k].targets[i].tenant, plan[k].id);
      assert OnceMore(db, d, e, er, plan[k], plan[k].targets[i], refuses, before);
    }
  }

  lemma TargetAgain(db0: Db, db: Db, d: Db, r: Report, e: Db, er: Report, tenants: seq<string>, plugins: seq<Plugin>,
                    plan: seq<Planned>, k: nat, i: nat, refuses: set<Place>, before: KeyOrder)
    requires |plan| == |plugins| && NoIdTwice(plugins) && Kept(db0, db, plugins)
    requires forall k :: 0 <= k < |plan| ==> PlansFor(db0, tenants, plugins[k], plan[k], before)
    requires EachOnItsOwn(db, d, r, plan, refuses, before) && EachOnItsOwn(d, e, er, plan, refuses, before)
    requires k < |plan| && i < |plan[k].targets|
    ensures OnceMore(db, d, e, er, plan[k], plan[k].targets[i], refuses, before)
  {
    hide VerdictOn, Single, Examined, Kept, AtPlace, Listed, SecondVerdict;
    assert PlansFor(db0, tenants, plugins[k], plan[k], before);
    ExaminedNames(db0, tenants[i], plugins[k], before);
    assert OnItsOwn(db, d, r, plan[k], plan[k].targets[i], refuses, before);
    assert OnItsOwn(d, e, er, plan[k], plan[k].targets[i], refuses, before);
    AgainIsOnce(db0, db, d, plugins, k, plan[k], plan[k].targets[i], refuses, before);
  }

  lemma AgainIsOnce(db0: Db, db: Db, d: Db, plugins: seq<Plugin>, k: nat, planned: Planned, t: Target,
                    refuses: set<Place>, before: KeyOrder)
    requires k < |plugins| && NoIdTwice(plugins) && Kept(db0, db, plugins)
    requires planned.id == plugins[k].id && planned.version == plugins[k].version && planned.sha == plugins[k].sha
    requires Examined(db0, t.tenant, plugins[k], before) == Ok(t)
    requires SameAtPlace(d, Single(db, planned, t, refuses, before), Place(t.tenant, planned.id))
    ensures var place := Place(t.tenant, planned.id);
      && AtPlace(Single(d, planned, t, refuses, before), place) == AtPlace(d, place)
      && VerdictOn(d, planned, t, refuses, before)
        == SecondVerdict(VerdictOn(db, planned, t, refuses, before), t, before)
  {
    var p := plugins[k];
    var place := Place(t.tenant, p.id);
    UpdateMeans(db0, t.tenant, p, t, before);
    hide Examined;
    if t.status == Update {
      assert PlaceKept(db0, db, place, plugins);
      if AtPlace(db, place) != AtPlace(db0, place) {
        var l :| 0 <= l < |plugins| && Moved(db0, db, place, plugins[l]);
        assert l == k;
      }
    }
  }

  // ----- what can be published --------------------------------------------------------------------------------

  /** The new version is newer than all the tenant has; or the tenant has this very archive. */
  ghost predicate Publishable(db: Db, place: Place, p: Plugin) {
    var slot := Slot(place, p.version);
    if slot in db.artifacts then
      db.artifacts[slot].sha == p.sha
      && (p.version == p.previousVersion || (p.previousVersion < p.version && SameContent(db.artifacts[slot], p)))
    else forall other :: other in db.artifacts && other.place == place ==> other.version < p.version
  }

  /**
   What a call has done when it answers: `updated` means that the tenant now has the plugin's version and manifest,
   enabled, from this very archive, and `skipped` that it had this archive already; a refusal leaves the installation
   alone, unless the check that follows it fails.
   */
  lemma AnswerIsTrue(db: Db, place: Place, p: Plugin, answers: Answers, before: KeyOrder)
    ensures var (after, r) := Published(db, place, p, answers, before);
      var slot := Slot(place, p.version);
      && (r == Ok(Updated) ==>
            place in after.installs && after.installs[place] == Installation(p.version, true, p.manifest)
            && slot in after.artifacts && after.artifacts[slot].sha == p.sha && SameContent(after.artifacts[slot], p)
            && place in db.installs && db.installs[place].version == p.previousVersion != p.version)
      && (r == Ok(Skipped) ==>
            after == db && place in db.installs && db.installs[place].enabled && db.installs[place].version == p.version
            && slot in db.artifacts && db.artifacts[slot].sha == p.sha)
      && (r.Err? && r.error != NotVerified ==> after.installs == db.installs)
      && (r == Err(NotVerified) ==> slot in db.artifacts && db.artifacts[slot].sha != p.sha)
  {
    if Uploaded(db, place, p).Some? {
      UploadIs(db, place, p);
    }
    hide Uploaded, Canonical;
  }

  /** Two databases hold the same for a place. */
  ghost predicate Alike(db: Db, d: Db, place: Place) {
    && AtPlace(db, place) == AtPlace(d, place)
    && (forall slot: Slot :: slot.place == place ==> (slot in db.artifacts <==> slot in d.artifacts))
    && (forall slot: Slot :: slot.place == place && slot in db.artifacts ==> db.artifacts[slot] == d.artifacts[slot])
  }

  lemma PublishSparesOthers(db: Db, other: Place, p: Plugin, answers: Answers, before: KeyOrder, place: Place)
    requires other != place
    ensures Alike(db, Published(db, other, p, answers, before).0, place)
  {
    PublishedIs(db, other, p, answers, before);
    if Uploaded(db, other, p).Some? {
      UploadIs(db, other, p);
    }
    hide Published, Uploaded;
  }

  /** Calls for other places leave a place alone. */
  lemma {:induction false} CallsSpareOthers(db: Db, plugins: seq<Plugin>, calls: seq<Call>, before: KeyOrder, place: Place)
    requires forall c :: c in calls ==> c.k < |plugins| && place != Place(c.tenant, plugins[c.k].id)
    ensures Alike(db, PublishRun(db, plugins, calls, before), place)
  {
    hide Published;
    if calls != [] {
      var c := calls[|calls| - 1];
      assert c in calls;
      CallsSpareOthers(db, plugins, calls[..|calls| - 1], before, place);
      PublishSparesOthers(PublishRun(db, plugins, calls[..|calls| - 1], before), Place(c.tenant, plugins[c.k].id),
                          plugins[c.k], c.answers, before, place);
    }
  }

  lemma ExaminedPublishes(db: Db, d: Db, tenant: string, p: Plugin, t: Target, before: KeyOrder)
    requires Examined(db, tenant, p, before) == Ok(t) && Alike(db, d, Place(tenant, p.id))
    ensures var (after, r) := Published(d, Place(tenant, p.id), p, Answers(true, true), before);
      && (t.status == Skip ==> r == Ok(Skipped) && after == d)
      && (t.status == Update ==> (r.Ok? <==> Publishable(db, Place(tenant, p.id), p)))
      && (t.status == SkipDisabled || t.status == SkipMissing ==> r == Err(NotEnabled) && after == d)
  {
    var place := Place(tenant, p.id);
    var slot := Slot(place, p.version);
    assert slot.place == place;
    assert (exists other :: other in d.artifacts && other.place == place && p.version <= other.version)
      <==> (exists other :: other in db.artifacts && other.place == place && p.version <= other.version);
  }

  /**
   After any publishing of other targets: a target marked `skip` is skipped; one marked `update` is published if
   and only if it was publishable at the preflight.
   */
  lemma PlannedPublishes(db: Db, plugins: seq<Plugin>, calls: seq<Call>, tenant: string, p: Plugin, t: Target,
                         before: KeyOrder)
    requires Examined(db, tenant, p, before) == Ok(t)
    requires forall c :: c in calls ==> c.k < |plugins| && Place(tenant, p.id) != Place(c.tenant, plugins[c.k].id)
    ensures var d := PublishRun(db, plugins, calls, before);
      var (after, r) := Published(d, Place(tenant, p.id), p, Answers(true, true), before);
      && (t.status == Skip ==> r == Ok(Skipped) && after == d)
      && (t.status == Update ==> (r.Ok? <==> Publishable(db, Place(tenant, p.id), p)))
      && (t.status == SkipDisabled || t.status == SkipMissing ==> r == Err(NotEnabled) && after == d)
  {
    hide Examined, Published, Publishable;
    CallsSpareOthers(db, plugins, calls, before, Place(tenant, p.id));
    ExaminedPublishes(db, PublishRun(db, plugins, calls, before), tenant, p, t, before);
  }

  // ----- plans that preflight accepts and publishing refuses -------------------------------------------------

  function Versioned(version: string): Json { Obj(Member("version", Str(version), NoMembers)) }

  const ONE := Installation(1, true, Versioned("1"))
  const HOME := Place("t", "x")

  /** Version 1 is installed, from archive 5; `also` are further artifacts. */
  function Having(also: map<Slot, Artifact>): Db {
    Db(map[HOME := ONE], also[Slot(HOME, 1) := Artifact(Versioned("1"), "e", None, 5)])
  }

  /** Version 2 is stored already, from archive 7. */
  const STORED := Having(map[Slot(HOME, 2) := Artifact(Versioned("2"), "e", None, 7)])

  function Release(version: nat, text: string, sha: nat): Plugin {
    Plugin("x", version, 1, Versioned(text), "e", None, sha)
  }

  lemma NothingElse(v: string)
    ensures WithoutVersion(Versioned(v)) == Obj(NoMembers)
  {
    assert Removed(NoMembers, "version") == NoMembers;
    assert Removed(Member("version", Str(v), NoMembers), "version") == NoMembers;
  }

  lemma VersionsAgree(v: string, w: string, before: KeyOrder)
    ensures OnlyVersionChanges(Versioned(v), Versioned(w), before)
  {
    NothingElse(v);
    NothingElse(w);
  }

  lemma OneTarget(db: Db, p: Plugin, before: KeyOrder)
    requires Examined(db, "t", p, before).Ok?
    ensures Preflight(db, ["t"], [p], before) == Ok([Planned(p.id, p.version, p.sha, [Examined(db, "t", p, before).value])])
  {
    hide Examined;
    var target := Examined(db, "t", p, before).value;
    assert ["t"][..0] == [];
    assert ExaminedAll(db, [], p, before) == Ok([]);
    assert [] + [target] == [target];
    assert ExaminedAll(db, ["t"], p, before) == Ok([target]);
    assert [p][..0] == [];
    assert PlannedFrom(db, ["t"], [], before) == Ok([]);
    hide ExaminedAll;
    var planned := Planned(p.id, p.version, p.sha, [target]);
    assert [] + [planned] == [planned];
    assert PlannedFrom(db, ["t"], [p], before) == Ok([planned]);
  }

  /**
   The version has not changed but the archive has: preflight marks the target for update, and publishing refuses.
   */
  lemma PlannedYetRefused(before: KeyOrder)
    ensures var plan := Preflight(Having(map[]), ["t"], [Release(1, "1", 6)], before);
      plan.Ok? && |plan.value| == 1 && |plan.value[0].targets| == 1 && plan.value[0].targets[0].status == Update
      && Published(Having(map[]), HOME, Release(1, "1", 6), Answers(true, true), before).1 == Err(DifferentDigest)
  {
    VersionsAgree("1", "1", before);
    hide Canonical, WithoutVersion, OnlyVersionChanges;
    OneTarget(Having(map[]), Release(1, "1", 6), before);
  }

  /** A plan for a tenant that has the new version, with the same content, from another archive. */
  lemma TwinHappens(before: KeyOrder)
    ensures var plan := Preflight(STORED, ["t"], [Release(2, "2", 8)], before);
      plan.Ok? && |plan.value| == 1 && |plan.value[0].targets| == 1 && plan.value[0].targets[0].status == Update
      && plan.value[0].id == "x" && plan.value[0].targets[0].tenant == "t"
      && Twin(STORED, HOME, Release(2, "2", 8)) && !NoTwins(STORED, [Release(2, "2", 8)], plan.value)
  {
    VersionsAgree("1", "2", before);
    hide Canonical, WithoutVersion, OnlyVersionChanges;
    OneTarget(STORED, Release(2, "2", 8), before);
    ExaminedNames(STORED, "t", Release(2, "2", 8), before);
    hide Examined, Preflight;
    assert Twin(STORED, HOME, Release(2, "2", 8));
  }

  /** Publishing that plan and rolling it back leaves the tenant at the new version. */
  lemma TwinIsStranded(before: KeyOrder) returns (calls: seq<Call>)
    ensures (forall c :: c in calls ==> c.k < 1)
      && var plugins := [Release(2, "2", 8)];
      var plan := Preflight(STORED, ["t"], plugins, before);
      plan.Ok?
      && !BackAt(STORED, RolledBackPlan(PublishRun(STORED, plugins, calls, before), NOTHING, plan.value, {}, before).0, HOME)
  {
    TwinHappens(before);
    OneTarget(STORED, Release(2, "2", 8), before);
    hide Preflight, PublishRun, RolledBackPlan, Examined, BackAt, Twin;
    calls := TwinStrands(STORED, ["t"], [Release(2, "2", 8)], 0, 0, before);
  }

  // ----- the worker ------------------------------------------------------------------------------------------------

  /** The two tables, and the calls of the worker on them. */
  class Database {
    var installs: map<Place, Installation>
    var artifacts: map<Slot, Artifact>

    ghost function View(): Db
      reads this
    {
      Db(installs, artifacts)
    }

    method Examine(tenant: string, p: Plugin, before: KeyOrder) returns (r: Result<Target, Refusal>)
      ensures r == Examined(View(), tenant, p, before)
    {
      hide Canonical, WithoutVersion;
      var place := Place(tenant, p.id);
      if place !in installs {
        return Ok(Target(tenant, SkipMissing, None, None));
      }
      var installation := installs[place];
      if !installation.enabled {
        return Ok(Target(tenant, SkipDisabled, None, None));
      }
      var slot := Slot(place, installation.version);
      if slot !in artifacts {
        return Err(ArtifactMissing);
      }
      var artifact := artifacts[slot];
      var candidate := Canonical(p.manifest, before);
      if installation.version == p.version && artifact.sha == p.sha
        && Canonical(installation.manifest, before) == candidate
        && Canonical(artifact.manifest, before) == candidate
        && Text(artifact.store, before) == Text(p.store, before) {
        return Ok(Target(tenant, Skip, Some(installation), Some(artifact)));
      }
      if installation.version != p.previousVersion {
        return Err(UnexpectedVersion);
      }
      var expected := Canonical(WithoutVersion(p.manifest), before);
      if Canonical(WithoutVersion(artifact.manifest), before) != expected
        || Canonical(WithoutVersion(installation.manifest), before) != expected {
        return Err(ManifestChanges);
      }
      if Text(artifact.store, before) != Text(p.store, before) {
        return Err(StoreChanges);
      }
      return Ok(Target(tenant, Update, Some(installation), Some(artifact)));
    }

    method PreflightPlan(tenants: seq<string>, plugins: seq<Plugin>, before: KeyOrder)
      returns (r: Result<seq<Planned>, Refusal>)
      ensures r == Preflight(View(), tenants, plugins, before)
    {
      hide Examined;
      if plugins == [] || !NoIdTwice(plugins) {
        return Err(InvalidPlan);
      }
      var plan: seq<Planned> := [];
      for k := 0 to |plugins|
        invariant PlannedFrom(View(), tenants, plugins[..k], before) == Ok(plan)
      {
        assert plugins[..k + 1][..k] == plugins[..k];
        var rows: seq<Target> := [];
        for i := 0 to |tenants|
          invariant ExaminedAll(View(), tenants[..i], plugins[k], before) == Ok(rows)
        {
          assert tenants[..i + 1][..i] == tenants[..i];
          var row := Examine(tenants[i], plugins[k], before);
          if row.Err? {
            FirstErrorWins(View(), tenants, i, plugins[k], before);
            assert tenants[..|tenants|] == tenants;
            PlanErrorWins(View(), tenants, plugins, k, before);
            return Err(row.error);
          }
          rows := rows + [row.value];
        }
        assert tenants[..|tenants|] == tenants;
        plan := plan + [Planned(plugins[k].id, plugins[k].version, plugins[k].sha, rows)];
      }
      assert plugins[..|plugins|] == plugins;
      return Ok(plan);
    }

    method Store(place: Place, p: Plugin) returns (ok: bool)
      modifies this`artifacts
      ensures ok == Uploaded(old(View()), place, p).Some?
      ensures View() == (if ok then Uploaded(old(View()), place, p).value else old(View()))
    {
      var slot := Slot(place, p.version);
      if slot in artifacts {
        var a := artifacts[slot];
        return a.manifest == p.manifest && a.entry == p.entry && a.store == p.store;
      }
      if exists other :: other in artifacts && other.place == place && p.version <= other.version {
        return false;
      }
      artifacts := artifacts[slot := Artifact(p.manifest, p.entry, p.store, p.sha)];
      return true;
    }

    method Install(place: Place, version: nat, allowDowngrade: bool, before: KeyOrder) returns (ok: bool)
      modifies this`installs
      ensures ok == Installed(old(View()), place, version, allowDowngrade, before).Some?
      ensures View() == (if ok then Installed(old(View()), place, version, allowDowngrade, before).value else old(View()))
    {
      var slot := Slot(place, version);
      if slot !in artifacts || place !in installs || !installs[place].enabled {
        return false;
      }
      var current := installs[place];
      var manifest := artifacts[slot].manifest;
      if version < current.version && !allowDowngrade {
        return false;
      }
      if version == current.version {
        return Canonical(current.manifest, before) == Canonical(manifest, before);
      }
      installs := installs[place := Installation(version, true, manifest)];
      return true;
    }

    method PublishOne(place: Place, p: Plugin, answers: Answers, before: KeyOrder) returns (r: Result<Outcome, Refusal>)
      modifies this
      ensures (View(), r) == Published(old(View()), place, p, answers, before)
    {
      hide Canonical;
      if place !in installs || !installs[place].enabled {
        return Err(NotEnabled);
      }
      var installation := installs[place];
      var slot := Slot(place, p.version);
      if installation.version == p.version {
        if slot in artifacts && artifacts[slot].sha == p.sha {
          return Ok(Skipped);
        }
        return Err(DifferentDigest);
      }
      if installation.version != p.previousVersion {
        return Err(UnexpectedVersion);
      }
      if !answers.upload {
        return Err(UploadRefused);
      }
      var uploaded := Store(place, p);
      if !uploaded {
        return Err(UploadRefused);
      }
      if !answers.install {
        return Err(InstallRefused);
      }
      var installed := Install(place, p.version, false, before);
      if !installed {
        return Err(InstallRefused);
      }
      if artifacts[slot].sha != p.sha {
        return Err(NotVerified);
      }
      return Ok(Updated);
    }

    method RollbackOne(report: Report, p: Planned, t: Target, refuses: set<Place>, before: KeyOrder) returns (r: Report)
      modifies this`installs
      ensures (View(), r) == RolledBack(old(View()), report, p, t, refuses, before)
    {
      hide Canonical;
      if t.status != Update {
        return report;
      }
      var place := Place(t.tenant, p.id);
      if t.installation.None? {
        return report.(failures := report.failures + [place]);
      }
      var recorded := t.installation.value;
      var slot := Slot(place, recorded.version);
      if place in installs && installs[place].enabled && installs[place].version == recorded.version
        && slot in artifacts && t.artifact == Some(artifacts[slot])
        && Canonical(installs[place].manifest, before) == Canonical(recorded.manifest, before) {
        return report.(untouched := report.untouched + [place]);
      }
      if place !in installs || !installs[place].enabled || installs[place].version != p.version {
        return report.(skipped := report.skipped + [place]);
      }
      if Slot(place, p.version) !in artifacts || artifacts[Slot(place, p.version)].sha != p.sha {
        return report.(skipped := report.skipped + [place]);
      }
      var ok := false;
      if place !in refuses {
        ok := Install(place, recorded.version, true, before);
      }
      if !ok {
        return report.(failures := report.failures + [place]);
      }
      return report.(restored := report.restored + [place]);
    }

    method Rollback(plan: seq<Planned>, refuses: set<Place>, before: KeyOrder) returns (r: Report)
      modifies this`installs
      ensures (View(), r) == RolledBackPlan(old(View()), NOTHING, plan, refuses, before)
    {
      hide RolledBack;
      r := NOTHING;
      for k := 0 to |plan|
        invariant (View(), r) == RolledBackPlan(old(View()), NOTHING, plan[..k], refuses, before)
        invariant artifacts == old(artifacts)
      {
        assert plan[..k + 1][..k] == plan[..k];
        var targets := plan[k].targets;
        ghost var was, reported := View(), r;
        for i := 0 to |targets|
          invariant (View(), r) == RolledBackTargets(was, reported, plan[k], targets[..i], refuses, before)
          invariant artifacts == old(artifacts)
        {
          assert targets[..i + 1][..i] == targets[..i];
          r := RollbackOne(r, plan[k], targets[i], refuses, before);
        }
        assert targets[..|targets|] == targets;
      }
      assert plan[..|plan|] == plan;
    }
  }

  lemma {:induction false} FirstErrorWins(db: Db, tenants: seq<string>, i: nat, p: Plugin, before: KeyOrder)
    requires i < |tenants| && ExaminedAll(db, tenants[..i], p, before).Ok? && Examined(db, tenants[i], p, before).Err?
    ensures ExaminedAll(db, tenants, p, before) == Err(Examined(db, tenants[i], p, before).error)
    decreases |tenants|
  {
    hide Examined;
    var n := |tenants| - 1;
    if i < n {
      assert tenants[..n][..i] == tenants[..i];
      FirstErrorWins(db, tenants[..n], i, p, before);
    }
  }

  lemma {:induction false} PlanErrorWins(db: Db, tenants: seq<string>, plugins: seq<Plugin>, k: nat, before: KeyOrder)
    requires k < |plugins| && PlannedFrom(db, tenants, plugins[..k], before).Ok?
    requires ExaminedAll(db, tenants, plugins[k], before).Err?
    ensures PlannedFrom(db, tenants, plugins, before) == Err(ExaminedAll(db, tenants, plugins[k], before).error)
    decreases |plugins|
  {
    hide ExaminedAll;
    var n := |plugins| - 1;
    if k < n {
      assert plugins[..n][..k] == plugins[..k];
      PlanErrorWins(db, tenants, plugins[..n], k, before);
    }
  }
}

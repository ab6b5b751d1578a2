/**
 The names of tenants (`tenant-slug-assignment.ts`, `tenant-slugs.ts`): a canonical slug and aliases that keep
 resolving after a rename. A rename reads first and then commits one batch; renames, creations and removals of
 tenants interleave between the two.
 */
module TenantSlugs {
  import opened Wrappers

  datatype Tenant = Tenant(slug: string, active: bool, commercial: bool)

  /** A rename that has passed its checks: the slug it found, the one it writes, and whether it must reserve it. */
  datatype Rename = Rename(tenant: nat, current: string, next: string, reserves: bool)

  /** The tables, the renames under way, and every slug a tenant has had. */
  datatype World = World(
    tenants: map<nat, Tenant>,
    aliases: map<string, nat>,
    renames: map<nat, Rename>,
    held: set<(string, nat)>
  )

  datatype Event =
    | Creates(id: nat, slug: string, active: bool)
    | RenameReads(who: nat, id: nat, next: string)
    | RenameCommits(who: nat)
    | Toggles(id: nat, active: bool)
    | Removes(id: nat)

  /** `tenantSlugExists`. */
  predicate Exists(w: World, slug: string) {
    slug in w.aliases || exists id :: id in w.tenants && w.tenants[id].slug == slug
  }

  predicate Enabled(w: World, ev: Event) {
    match ev
    case Creates(id, _, _) => id !in w.tenants && forall pair :: pair in w.held ==> pair.1 != id
    case RenameReads(who, id, _) => who !in w.renames && id in w.tenants
    case RenameCommits(who) => who in w.renames
    case Toggles(id, _) => id in w.tenants
    case Removes(_) => true
  }

  /** `tenantSlugChangeStatements`: nothing to do, a conflict, or the batch to run. */
  function Planned(w: World, id: nat, next: string): Result<Option<Rename>, string>
    requires id in w.tenants
  {
    var current := w.tenants[id].slug;
    if current == next then Ok(None)
    else if next in w.aliases && w.aliases[next] != id then Err("Tenant URL is already reserved")
    else if next !in w.aliases && Exists(w, next) then Err("Tenant URL is already reserved")
    else Ok(Some(Rename(id, current, next, next !in w.aliases)))
  }

  /** Whether the batch keeps the keys of both tables; otherwise none of it happens. */
  predicate Commits(w: World, r: Rename) {
    && r.tenant in w.tenants
    && (r.reserves ==> r.next !in w.aliases && r.next != r.current)
    && forall id :: id in w.tenants && id != r.tenant ==> w.tenants[id].slug != r.next
  }

  function Reserved(aliases: map<string, nat>, slug: string, id: nat): map<string, nat> {
    if slug in aliases then aliases else aliases[slug := id]
  }

  function Committed(w: World, r: Rename): World
    requires r.tenant in w.tenants
  {
    var aliases := Reserved(w.aliases, r.current, r.tenant);
    w.(aliases := if r.reserves then aliases[r.next := r.tenant] else aliases,
       tenants := w.tenants[r.tenant := w.tenants[r.tenant].(slug := r.next)],
       held := w.held + {(r.next, r.tenant)})
  }

  function Apply(w: World, ev: Event): World
    requires Enabled(w, ev)
  {
    match ev
    case Creates(id, slug, active) =>
      if Exists(w, slug) then w
      else w.(tenants := w.tenants[id := Tenant(slug, active, true)], aliases := w.aliases[slug := id],
              held := w.held + {(slug, id)})
    case RenameReads(who, id, next) =>
      (match Planned(w, id, next)
       case Ok(Some(r)) => w.(renames := w.renames[who := r])
       case _ => w)
    case RenameCommits(who) =>
      var r := w.renames[who];
      var done := w.(renames := w.renames - {who});
      if Commits(w, r) then Committed(done, r) else done
    case Toggles(id, active) => w.(tenants := w.tenants[id := w.tenants[id].(active := active)])
    case Removes(id) =>
      w.(tenants := w.tenants - {id}, aliases := map s | s in w.aliases && w.aliases[s] != id :: w.aliases[s])
  }

  function Run(w: World, evs: seq<Event>): Option<World>
    decreases |evs|
  {
    if evs == [] then Some(w)
    else if !Enabled(w, evs[0]) then None
    else Run(Apply(w, evs[0]), evs[1..])
  }

  // ----- the namespace ------------------------------------------------------------------------------

  /** The tenant has the slug, as its own or as an alias. */
  predicate Has(w: World, id: nat, slug: string) {
    (id in w.tenants && w.tenants[id].slug == slug) || (slug in w.aliases && w.aliases[slug] == id)
  }

  /** No slug has two tenants. Canonical slugs of old rows need not be registered as aliases. */
  predicate Separate(w: World) {
    && (forall id, other :: id in w.tenants && other in w.tenants && w.tenants[id].slug == w.tenants[other].slug ==>
          id == other)
    && (forall id :: id in w.tenants && w.tenants[id].slug in w.aliases ==> w.aliases[w.tenants[id].slug] == id)
    && (forall slug :: slug in w.aliases ==> w.aliases[slug] in w.tenants)
  }

  /** A rename found its slug free or its own, and its tenant still has the slug it found. */
  predicate RenameOk(w: World, r: Rename) {
    && r.current != r.next
    && (r.tenant in w.tenants ==>
          && Has(w, r.tenant, r.current)
          && (!r.reserves ==> r.next in w.aliases && w.aliases[r.next] == r.tenant)
          && (w.tenants[r.tenant].slug !in w.aliases ==> r.current == w.tenants[r.tenant].slug))
    && (r.current, r.tenant) in w.held
  }

  predicate Inv(w: World) {
    && Separate(w)
    && (forall pair :: pair in w.held && pair.1 in w.tenants ==> Has(w, pair.1, pair.0))
    && (forall id :: id in w.tenants ==> (w.tenants[id].slug, id) in w.held)
    && (forall who :: who in w.renames ==> RenameOk(w, w.renames[who]))
  }

  /** A database to start from: the canonical slugs are unique, and the aliases do not contradict them. */
  ghost predicate Initial(w: World) {
    && Separate(w) && w.renames == map[]
    && forall slug, id :: (slug, id) in w.held <==> Has(w, id, slug) && id in w.tenants
  }

  lemma CommitKeepsSeparate(w: World, r: Rename)
    requires Separate(w) && RenameOk(w, r) && Commits(w, r)
    ensures Separate(Committed(w, r))
  {
  }

  lemma CommitKeepsHeld(w: World, r: Rename, pair: (string, nat))
    requires Separate(w) && RenameOk(w, r) && Commits(w, r)
    requires pair in Committed(w, r).held && pair.1 in w.tenants && (pair in w.held ==> Has(w, pair.1, pair.0))
    ensures Has(Committed(w, r), pair.1, pair.0)
  {
  }

  lemma CommitKeepsRename(w: World, r: Rename, other: Rename)
    requires Separate(w) && RenameOk(w, r) && Commits(w, r) && RenameOk(w, other)
    ensures RenameOk(Committed(w, r), other)
  {
    if other.tenant in w.tenants {
      CommitKeepsHeld(w, r, (other.current, other.tenant));
    }
  }

  lemma CommitKeepsInv(w: World, who: nat)
    requires Inv(w) && who in w.renames && Commits(w, w.renames[who])
    ensures Inv(Committed(w.(renames := w.renames - {who}), w.renames[who]))
  {
    hide Separate, Has, RenameOk;
    var r := w.renames[who];
    var done := w.(renames := w.renames - {who});
    var next := Committed(done, r);
    SameTables(w, done, r);
    CommitKeepsSeparate(done, r);
    forall pair | pair in next.held && pair.1 in next.tenants
      ensures Has(next, pair.1, pair.0)
    {
      SameHas(w, done, pair);
      CommitKeepsHeld(done, r, pair);
    }
    forall other | other in next.renames
      ensures RenameOk(next, next.renames[other])
    {
      SameTables(w, done, w.renames[other]);
      CommitKeepsRename(done, r, w.renames[other]);
    }
  }

  lemma SameTables(w: World, done: World, r: Rename)
    requires done == w.(renames := done.renames) && Separate(w) && RenameOk(w, r)
    ensures Separate(done) && RenameOk(done, r)
  {
  }

  lemma SameHas(w: World, done: World, pair: (string, nat))
    requires done == w.(renames := done.renames)
    ensures Has(w, pair.1, pair.0) <==> Has(done, pair.1, pair.0)
  {
  }

  lemma CreateKeepsRename(w: World, id: nat, slug: string, active: bool, r: Rename)
    requires Inv(w) && Enabled(w, Creates(id, slug, active)) && RenameOk(w, r)
    ensures RenameOk(Apply(w, Creates(id, slug, active)), r)
  {
    assert r.tenant != id;
    hide Inv;
  }

  lemma CreateKeepsSeparate(w: World, id: nat, slug: string, active: bool)
    requires Separate(w) && Enabled(w, Creates(id, slug, active))
    ensures Separate(Apply(w, Creates(id, slug, active)))
  {
  }

  lemma CreateKeepsInv(w: World, id: nat, slug: string, active: bool)
    requires Inv(w) && Enabled(w, Creates(id, slug, active))
    ensures Inv(Apply(w, Creates(id, slug, active)))
  {
    hide RenameOk;
    var next := Apply(w, Creates(id, slug, active));
    assert Separate(next) by { CreateKeepsSeparate(w, id, slug, active); }
    hide Separate;
    forall pair | pair in next.held && pair.1 in next.tenants
      ensures Has(next, pair.1, pair.0)
    {
      assert pair in w.held && pair.1 in w.tenants ==> Has(w, pair.1, pair.0);
    }
    forall who | who in next.renames
      ensures RenameOk(next, next.renames[who])
    {
      CreateKeepsRename(w, id, slug, active, w.renames[who]);
    }
  }

  lemma RemoveKeepsInv(w: World, id: nat)
    requires Inv(w)
    ensures Inv(Apply(w, Removes(id)))
  {
    var next := Apply(w, Removes(id));
    forall pair | pair in next.held && pair.1 in next.tenants
      ensures Has(next, pair.1, pair.0)
    {
      assert Has(w, pair.1, pair.0);
    }
    forall who | who in next.renames
      ensures RenameOk(next, next.renames[who])
    {
      assert RenameOk(w, w.renames[who]);
    }
  }

  lemma ReadKeepsInv(w: World, who: nat, id: nat, slug: string)
    requires Inv(w) && Enabled(w, RenameReads(who, id, slug))
    ensures Inv(Apply(w, RenameReads(who, id, slug)))
  {
    var next := Apply(w, RenameReads(who, id, slug));
    forall pair | pair in next.held && pair.1 in next.tenants
      ensures Has(next, pair.1, pair.0)
    {
      assert Has(w, pair.1, pair.0);
    }
    forall other | other in next.renames
      ensures RenameOk(next, next.renames[other])
    {
      assert other in w.renames ==> RenameOk(w, w.renames[other]);
    }
  }

  lemma ToggleKeepsInv(w: World, id: nat, active: bool)
    requires Inv(w) && id in w.tenants
    ensures Inv(Apply(w, Toggles(id, active)))
  {
    var next := Apply(w, Toggles(id, active));
    forall pair | pair in next.held && pair.1 in next.tenants
      ensures Has(next, pair.1, pair.0)
    {
      assert Has(w, pair.1, pair.0);
    }
    forall who | who in next.renames
      ensures RenameOk(next, next.renames[who])
    {
      assert RenameOk(w, w.renames[who]);
    }
  }

  lemma AbandonKeepsInv(w: World, who: nat)
    requires Inv(w)
    ensures Inv(w.(renames := w.renames - {who}))
  {
    hide RenameOk, Separate, Has;
    var done := w.(renames := w.renames - {who});
    assert Separate(done) by { SameSeparate(w, done); }
    forall pair | pair in done.held && pair.1 in done.tenants
      ensures Has(done, pair.1, pair.0)
    {
      SameHas(w, done, pair);
    }
    forall other | other in done.renames
      ensures RenameOk(done, done.renames[other])
    {
      assert other in w.renames && done.renames[other] == w.renames[other];
      SameRename(w, done, w.renames[other]);
    }
  }

  lemma SameSeparate(w: World, done: World)
    requires done == w.(renames := done.renames) && Separate(w)
    ensures Separate(done)
  {
  }

  lemma SameRename(w: World, done: World, r: Rename)
    requires done == w.(renames := done.renames) && RenameOk(w, r)
    ensures RenameOk(done, r)
  {
  }

  lemma ApplyInv(w: World, ev: Event)
    requires Inv(w) && Enabled(w, ev)
    ensures Inv(Apply(w, ev))
  {
    hide Inv, Committed, Commits, Planned;
    match ev
    case Creates(id, slug, active) => CreateKeepsInv(w, id, slug, active);
    case RenameReads(who, id, slug) => ReadKeepsInv(w, who, id, slug);
    case RenameCommits(who) =>
      if Commits(w, w.renames[who]) {
        CommitKeepsInv(w, who);
      } else {
        AbandonKeepsInv(w, who);
      }
    case Toggles(id, active) => ToggleKeepsInv(w, id, active);
    case Removes(id) => RemoveKeepsInv(w, id);
  }

  lemma {:induction false} RunKeepsInv(w: World, evs: seq<Event>)
    requires Inv(w) && Run(w, evs).Some?
    ensures Inv(Run(w, evs).value)
    decreases |evs|
  {
    hide Inv, Apply, Enabled;
    if evs != [] {
      ApplyInv(w, evs[0]);
      RunKeepsInv(Apply(w, evs[0]), evs[1..]);
    }
  }

  /** What the query of `resolveTenantSlug` can return. */
  predicate Resolves(w: World, slug: string, id: nat) {
    && id in w.tenants && w.tenants[id].active && w.tenants[id].commercial
    && Has(w, id, slug)
  }

  /**
   Over any interleaving of renames, creations and removals: no slug belongs to two tenants, as its own or as an
   alias; and a slug a tenant has ever had resolves to that tenant and no other while it is active and commercial.
   */
  lemma SlugsAreKept(w: World, evs: seq<Event>, slug: string, id: nat)
    requires Initial(w) && Run(w, evs).Some?
    ensures var next := Run(w, evs).value;
      && (forall one, other :: one in next.tenants && other in next.tenants && one != other ==>
            !(Has(next, one, slug) && Has(next, other, slug)))
      && ((slug, id) in next.held && id in next.tenants && next.tenants[id].active && next.tenants[id].commercial ==>
            Resolves(next, slug, id) && forall other :: Resolves(next, slug, other) ==> other == id)
  {
    assert Inv(w);
    RunKeepsInv(w, evs);
    hide Run;
  }

  // ----- what a request achieves -----------------------------------------------------------------------

  /** A rename is planned if and only if no other tenant has the name; and it is reserved unless the tenant has it. */
  lemma RenamePlannedIff(w: World, id: nat, next: string)
    requires Inv(w) && id in w.tenants
    ensures Planned(w, id, next).Ok? <==> forall other :: other != id ==> !Has(w, other, next)
    ensures Planned(w, id, next).Ok? ==>
      Planned(w, id, next).value == if w.tenants[id].slug == next then None
                                    else Some(Rename(id, w.tenants[id].slug, next, next !in w.aliases))
  {
    assert Separate(w);
    if w.tenants[id].slug != next && next !in w.aliases && Exists(w, next) {
      var other :| other in w.tenants && w.tenants[other].slug == next;
      assert Has(w, other, next) && other != id;
    }
    if next in w.aliases {
      assert Has(w, w.aliases[next], next);
    }
  }

  /**
   A batch goes through if and only if its tenant is still there, nobody else has taken the name as its own, and the
   name is still free where the batch was to reserve it; and then the tenant has the new name, and keeps the old one
   beside it.
   */
  lemma RenameCommittedIff(w: World, who: nat)
    requires Inv(w) && who in w.renames
    ensures var r, after := w.renames[who], Apply(w, RenameCommits(who));
      && (Commits(w, r) <==>
            r.tenant in w.tenants && (r.reserves ==> r.next !in w.aliases)
            && forall other :: other in w.tenants && other != r.tenant ==> w.tenants[other].slug != r.next)
      && (Commits(w, r) ==>
            r.tenant in after.tenants && after.tenants[r.tenant] == w.tenants[r.tenant].(slug := r.next)
            && Has(after, r.tenant, r.next) && Has(after, r.tenant, r.current)
            && Has(after, r.tenant, w.tenants[r.tenant].slug))
      && (!Commits(w, r) ==> after.tenants == w.tenants && after.aliases == w.aliases)
      && (forall id :: id in w.tenants && id != r.tenant ==> id in after.tenants && after.tenants[id] == w.tenants[id])
  {
    var r := w.renames[who];
    assert RenameOk(w, r);
    assert r.tenant in w.tenants ==> (w.tenants[r.tenant].slug, r.tenant) in w.held;
    if Commits(w, r) {
      CommitKeepsInv(w, who);
      var after := Apply(w, RenameCommits(who));
      assert (w.tenants[r.tenant].slug, r.tenant) in after.held && (r.current, r.tenant) in after.held;
    }
  }

  /** A tenant is made if and only if nobody has the name; then it has it, and the name is reserved for it. */
  lemma CreatedIff(w: World, id: nat, slug: string, active: bool)
    requires Enabled(w, Creates(id, slug, active))
    ensures var after := Apply(w, Creates(id, slug, active));
      if exists other :: Has(w, other, slug) then after == w
      else
        id in after.tenants && after.tenants[id] == Tenant(slug, active, true) && after.tenants - {id} == w.tenants - {id}
        && slug in after.aliases && after.aliases[slug] == id
  {
    if Exists(w, slug) {
      if slug in w.aliases {
        assert Has(w, w.aliases[slug], slug);
      } else {
        var other :| other in w.tenants && w.tenants[other].slug == slug;
        assert Has(w, other, slug);
      }
    }
  }

  // ----- candidates ---------------------------------------------------------------------------------

  function Decimal(n: nat): (s: string)
    ensures s != "" && forall i :: 0 <= i < |s| ==> s[i] != '-'
  {
    if n < 10 then ["0123456789"[n]] else Decimal(n / 10) + ["0123456789"[n % 10]]
  }

  lemma {:induction false} DecimalIsInjective(m: nat, n: nat)
    requires Decimal(m) == Decimal(n)
    ensures m == n
  {
    var s, t := Decimal(m), Decimal(n);
    assert s[|s| - 1] == "0123456789"[m % 10] && t[|t| - 1] == "0123456789"[n % 10];
    assert m % 10 == n % 10;
    assert if m >= 10 then |s| == |Decimal(m / 10)| + 1 && |s| >= 2 else |s| == 1;
    assert if n >= 10 then |t| == |Decimal(n / 10)| + 1 && |t| >= 2 else |t| == 1;
    if m >= 10 && n >= 10 {
      assert s[..|s| - 1] == Decimal(m / 10) && t[..|t| - 1] == Decimal(n / 10);
      DecimalIsInjective(m / 10, n / 10);
    }
  }

  function Suffix(index: nat): string {
    if index == 0 then "" else "-" + Decimal(index + 1)
  }

  /** `replace(/-+$/, "")`. */
  function WithoutDashes(s: string): (r: string)
    ensures |r| <= |s| && (r != "" ==> r[|r| - 1] != '-')
  {
    if s != "" && s[|s| - 1] == '-' then WithoutDashes(s[..|s| - 1]) else s
  }

  function Front(base: string, index: nat): (r: string)
    requires |Suffix(index)| <= 63
    ensures |r| + |Suffix(index)| <= 63
  {
    var room := 63 - |Suffix(index)|;
    WithoutDashes(if |base| <= room then base else base[..room])
  }

  /** `tenantSlugCandidate`, from the slug its name gives. */
  function Candidate(base: string, index: nat): string
    requires |Suffix(index)| <= 63
  {
    Front(base, index) + Suffix(index)
  }

  /** What follows the last dash. */
  lemma LastDash(front: string, digits: string, other: string, more: string)
    requires front + "-" + digits == other + "-" + more
    requires forall i :: 0 <= i < |digits| ==> digits[i] != '-'
    requires forall i :: 0 <= i < |more| ==> more[i] != '-'
    ensures digits == more
  {
    var s, t := front + "-" + digits, other + "-" + more;
    assert s[|front|] == '-' && t[|other|] == '-';
    assert forall k :: |front| < k < |s| ==> s[k] == digits[k - |front| - 1];
    assert forall k :: |other| < k < |t| ==> t[k] == more[k - |other| - 1];
    assert |front| == |other|;
    assert digits == s[|front| + 1..] && more == t[|other| + 1..];
  }

  /** The candidates tried for one name are short enough, and never the same twice. */
  lemma CandidatesDiffer(base: string, i: nat, j: nat)
    requires 1 <= i && 1 <= j && i != j && |Suffix(i)| <= 63 && |Suffix(j)| <= 63
    ensures |Candidate(base, i)| <= 63 && Candidate(base, i) != Candidate(base, j)
  {
    InTwoParts(base, i);
    InTwoParts(base, j);
    hide Decimal, Front, Suffix, Candidate;
    if Candidate(base, i) == Candidate(base, j) {
      LastDash(Front(base, i), Decimal(i + 1), Front(base, j), Decimal(j + 1));
      DecimalIsInjective(i + 1, j + 1);
    }
  }

  lemma InTwoParts(base: string, i: nat)
    requires 1 <= i && |Suffix(i)| <= 63
    ensures Candidate(base, i) == Front(base, i) + "-" + Decimal(i + 1)
    ensures |Candidate(base, i)| <= 63
  {
    hide Decimal, Front;
    Joined(Front(base, i), "-", Decimal(i + 1));
  }

  lemma Joined(a: string, b: string, c: string)
    ensures a + (b + c) == a + b + c
  {
  }

  // ----- what a candidate looks like ---------------------------------------------------------------------

  predicate Lower(c: char) { 'a' <= c <= 'z' || '0' <= c <= '9' }

  /** What the slug of a name is: letters and digits with single dashes between them, at most 63. */
  predicate IsSlug(s: string) {
    && 0 < |s| <= 63
    && (forall i :: 0 <= i < |s| ==> Lower(s[i]) || s[i] == '-')
    && s[0] != '-' && s[|s| - 1] != '-'
    && (forall i :: 0 <= i < |s| - 1 ==> !(s[i] == '-' && s[i + 1] == '-'))
  }

  /** How much of the slug goes in front: what there is room for, but not a dash at its end. */
  function Kept(base: string, room: nat): nat
    requires 0 < room
  {
    if |base| <= room then |base| else if base[room - 1] == '-' then room - 1 else room
  }

  lemma FrontIs(base: string, index: nat)
    requires IsSlug(base) && |Suffix(index)| < 63
    ensures Kept(base, 63 - |Suffix(index)|) <= |base|
    ensures Front(base, index) == base[..Kept(base, 63 - |Suffix(index)|)]
  {
    var room := 63 - |Suffix(index)|;
    if |base| <= room {
      NoDashes(base);
      assert base[..|base|] == base;
    } else if base[room - 1] == '-' {
      assert room > 1 && base[room - 2] != '-';
      assert base[..room][..room - 1] == base[..room - 1];
      NoDashes(base[..room - 1]);
      OneDash(base[..room]);
    } else {
      NoDashes(base[..room]);
    }
  }

  lemma NoDashes(s: string)
    requires s == "" || s[|s| - 1] != '-'
    ensures WithoutDashes(s) == s
  {
  }

  lemma OneDash(s: string)
    requires |s| > 1 && s[|s| - 1] == '-' && s[|s| - 2] != '-'
    ensures WithoutDashes(s) == s[..|s| - 1]
  {
    NoDashes(s[..|s| - 1]);
  }

  lemma {:induction false} DecimalIsLower(n: nat)
    ensures forall i :: 0 <= i < |Decimal(n)| ==> Lower(Decimal(n)[i])
  {
    if n >= 10 {
      DecimalIsLower(n / 10);
    }
  }

  lemma PrefixIsSlug(base: string, k: nat)
    requires IsSlug(base) && 0 < k <= |base| && base[k - 1] != '-'
    ensures IsSlug(base[..k])
  {
  }

  lemma NumberedIsSlug(front: string, digits: string)
    requires IsSlug(front) && digits != "" && |front| + 1 + |digits| <= 63
    requires forall i :: 0 <= i < |digits| ==> Lower(digits[i])
    ensures IsSlug(front + ("-" + digits))
  {
    var c := front + ("-" + digits);
    assert forall i :: 0 <= i < |front| ==> c[i] == front[i];
    assert c[|front|] == '-';
    assert forall i :: |front| < i < |c| ==> c[i] == digits[i - |front| - 1];
  }

  lemma KeptIs(base: string, room: nat)
    requires IsSlug(base) && 1 < room
    ensures 0 < Kept(base, room) <= |base| && Kept(base, room) <= room && base[Kept(base, room) - 1] != '-'
  {
  }

  /** A candidate is a slug: as much of the name as fits, and, but for the first, a dash and a number from 2. */
  lemma CandidateIsSlug(base: string, index: nat)
    requires IsSlug(base) && |Suffix(index)| < 62
    ensures IsSlug(Candidate(base, index))
    ensures Candidate(base, index)
      == base[..Kept(base, 63 - |Suffix(index)|)] + (if index == 0 then "" else "-" + Decimal(index + 1))
    ensures index == 0 ==> Candidate(base, index) == base
  {
    hide WithoutDashes, Decimal, IsSlug, Kept, Front;
    var k := Kept(base, 63 - |Suffix(index)|);
    KeptIs(base, 63 - |Suffix(index)|);
    FrontIs(base, index);
    if index > 0 {
      DecimalIsLower(index + 1);
      PrefixIsSlug(base, k);
      NumberedIsSlug(base[..k], Decimal(index + 1));
    } else {
      AllKept(base);
      assert base[..|base|] == base && base + "" == base;
    }
  }

  lemma AllKept(base: string)
    requires IsSlug(base)
    ensures Kept(base, 63) == |base|
  {
  }

  /** When putting the suffix behind what is kept gives the name back. */
  lemma GivesBackIff(base: string, suffix: string)
    requires IsSlug(base) && 1 < |suffix| < 62 && suffix[0] == '-'
    requires forall i :: 1 <= i < |suffix| ==> suffix[i] != '-'
    ensures base == base[..Kept(base, 63 - |suffix|)] + suffix <==>
      |base| >= 62 && base[|base| - |suffix|..] == suffix
  {
    var room := 63 - |suffix|;
    var k := Kept(base, room);
    if |base| >= 62 && base[|base| - |suffix|..] == suffix {
      var n := |base| - |suffix|;
      assert base == base[..n] + suffix;
      assert base[n] == suffix[0] == '-';
      assert base[n - 1] != '-';
      assert k == n;
    }
    if base == base[..k] + suffix {
      assert k == |base| - |suffix| && base[k..] == suffix;
      assert k < room ==> |base| > room && base[room - 1] == '-' && k == room - 1;
    }
  }

  lemma SuffixIs(index: nat)
    requires 1 <= index
    ensures |Suffix(index)| > 1 && Suffix(index)[0] == '-'
    ensures forall i :: 1 <= i < |Suffix(index)| ==> Suffix(index)[i] != '-'
  {
    hide Decimal;
  }

  /** The slug is its own candidate, and no later one, unless it fills the room and ends like it already. */
  lemma FirstCandidateDiffersIff(base: string, index: nat)
    requires IsSlug(base) && 1 <= index && |Suffix(index)| < 62
    ensures Candidate(base, 0) != Candidate(base, index) <==>
      !(|base| >= 62 && base[|base| - |Suffix(index)|..] == Suffix(index))
  {
    hide WithoutDashes, Decimal, IsSlug, Kept, Candidate;
    CandidateIsSlug(base, 0);
    CandidateIsSlug(base, index);
    SuffixIs(index);
    GivesBackIff(base, Suffix(index));
  }

  /** A long name whose second candidate is its first again. */
  lemma LongNameRepeats()
    ensures var base := seq(61, _ => 'a') + "-2";
      IsSlug(base) && |Suffix(1)| == 2 && Candidate(base, 0) == Candidate(base, 1)
  {
    var base := seq(61, _ => 'a') + "-2";
    assert Decimal(2) == "2";
    assert Suffix(1) == "-2";
    assert base[61..] == "-2";
    FirstCandidateDiffersIff(base, 1);
  }
}

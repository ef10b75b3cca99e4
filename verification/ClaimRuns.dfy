/**
 What a claim moves, what it may delete, and what every run of mints, sign-ups,
 ingests and claims keeps.
 */
module ClaimRuns {
  import opened Outcomes
  import opened Claims

  /** Ids are never reused, and a row of a stored project belongs to that project's tenant. */
  predicate WellFormed(s: State) {
    (forall t :: t in s.tenants ==> t < s.nextTenant)
    && (forall p :: p in s.projects ==> p < s.nextProject && s.projects[p].tenant in s.tenants)
    && (forall r :: r in s.rows ==> r < s.nextRow && RowFits(s, s.rows[r]))
  }

  predicate RowFits(s: State, row: Row) {
    (row.project.Some? && row.project.value in s.projects ==> row.tenant == s.projects[row.project.value].tenant)
    && (row.project.Some? ==> row.project.value < s.nextProject)
  }

  predicate CanClaim(s: State, own: nat, anon: nat) {
    own in s.tenants && anon != own && anon in s.tenants && s.tenants[anon]
  }

  /** The claimer's own placeholder, if the claim deletes one. */
  predicate IsAbsorbed(s: State, own: nat, p: nat) {
    p in s.projects && IsPlaceholder(s, own, p)
  }

  /** Either nothing was absorbed, or the claimer's lone placeholder was. */
  lemma AbsorbedIs(s: State, own: nat)
    ensures (Absorbed(s, own) == s && forall p :: !IsAbsorbed(s, own, p))
            || exists p :: IsAbsorbed(s, own, p) && Absorbed(s, own) == WithoutProject(s, p)
  {
    if p :| p in s.projects && IsPlaceholder(s, own, p) {
      assert p in ProjectsOf(s, own);
      LonePlaceholder(s, own, p);
      assert IsAbsorbed(s, own, p);
    } else {
      forall p ensures !(p in ProjectsOf(s, own) && IsPlaceholder(s, own, p)) {
      }
    }
  }

  // ----- seeding touches only new channels -----

  lemma {:induction false} SeedingAdds(s: State, own: nat, adopted: seq<nat>, email: Option<string>)
    requires forall r :: r in s.rows ==> r < s.nextRow
    ensures var s' := SeededAll(s, own, adopted, email);
            s'.tenants == s.tenants && s'.projects == s.projects
            && s'.nextTenant == s.nextTenant && s'.nextProject == s.nextProject && s'.nextRow >= s.nextRow
            && (forall r :: r in s.rows ==> r in s'.rows && s'.rows[r] == s.rows[r])
            && (forall r :: r in s'.rows ==> r < s'.nextRow)
            && (forall r :: r in s'.rows && r !in s.rows ==>
                  s'.rows[r].table == AlertChannel && s'.rows[r].tenant == own
                  && s'.rows[r].project.Some? && s'.rows[r].project.value in adopted)
    decreases |adopted|
  {
    if adopted != [] {
      SeedingAdds(s, own, adopted[..|adopted| - 1], email);
    }
  }

  lemma {:induction false} SeedingReachesAll(s: State, own: nat, adopted: seq<nat>, email: Option<string>, p: nat)
    requires forall r :: r in s.rows ==> r < s.nextRow
    requires email.Some? && p in adopted
    ensures HasEmailChannel(SeededAll(s, own, adopted, email), p, email.value)
    decreases |adopted|
  {
    var rest, last := adopted[..|adopted| - 1], adopted[|adopted| - 1];
    var before := SeededAll(s, own, rest, email);
    SeedingAdds(s, own, rest, email);
    if p != last {
      SeedingReachesAll(s, own, rest, email, p);
      var r :| r in before.rows && before.rows[r].table == AlertChannel
               && before.rows[r].project == Some(p) && before.rows[r].what == email.value;
      assert SeededAll(s, own, adopted, email).rows[r] == before.rows[r];
    } else if !HasEmailChannel(before, p, email.value) {
      assert SeededAll(s, own, adopted, email).rows[before.nextRow].what == email.value;
    }
  }

  // ----- one claim -----

  /** What happened to one row: moved, kept, or gone with the placeholder or with the anonymous tenant. */
  ghost predicate RowFate(s: State, s': State, own: nat, anon: nat, r: nat)
    requires r in s.rows
  {
    var row := s.rows[r];
    if row.tenant == anon && row.table !in LISTED then r !in s'.rows
    else if row.project.Some? && IsAbsorbed(s, own, row.project.value) && DiesWithProject(row.table) then r !in s'.rows
    else r in s'.rows && s'.rows[r] == (if row.tenant == anon then row.(tenant := own) else row)
  }

  lemma BurnChangesNoFate(s: State, anon: nat, own: nat)
    ensures var burned := s.(tenants := s.tenants[anon := false]);
            forall p :: IsAbsorbed(burned, own, p) <==> IsAbsorbed(s, own, p)
  {
    var burned := s.(tenants := s.tenants[anon := false]);
    assert ProjectsOf(burned, own) == ProjectsOf(s, own);
  }

  lemma ClaimMovesProjects(s: State, own: nat, anon: nat, limit: Option<nat>, email: Option<string>)
    requires WellFormed(s) && CanClaim(s, own, anon) && Claim(s, own, anon, limit, email).1 == Claimed
    ensures var s' := Claim(s, own, anon, limit, email).0;
            s'.tenants.Keys == s.tenants.Keys - {anon}
            && (forall p :: p in s.projects ==>
                  if IsAbsorbed(s, own, p) then p !in s'.projects
                  else p in s'.projects && s'.projects[p] ==
                       (if s.projects[p].tenant == anon then s.projects[p].(tenant := own) else s.projects[p]))
            && (forall p :: p in s'.projects ==> p in s.projects)
  {
    hide LISTED, SeededAll;
    var burned := s.(tenants := s.tenants[anon := false]);
    BurnChangesNoFate(s, anon, own);
    AbsorbedIs(burned, own);
    var freed := Absorbed(burned, own);
    var adopted := IdsBelow(freed, anon, freed.nextProject);
    SeedingAdds(WithoutTenant(Reparented(freed, own, anon), anon), own, adopted, email);
  }

  lemma ClaimMovesRows(s: State, own: nat, anon: nat, limit: Option<nat>, email: Option<string>)
    requires WellFormed(s) && CanClaim(s, own, anon) && Claim(s, own, anon, limit, email).1 == Claimed
    ensures var s' := Claim(s, own, anon, limit, email).0;
            (forall r :: r in s.rows ==> RowFate(s, s', own, anon, r))
            && (forall r :: r in s'.rows && r !in s.rows ==>
                  s'.rows[r].table == AlertChannel && s'.rows[r].tenant == own
                  && s'.rows[r].project.Some? && s'.rows[r].project.value in ProjectsOf(s, anon))
  {
    hide LISTED, SeededAll;
    var burned := s.(tenants := s.tenants[anon := false]);
    BurnChangesNoFate(s, anon, own);
    AbsorbedIs(burned, own);
    var freed := Absorbed(burned, own);
    var gone := WithoutTenant(Reparented(freed, own, anon), anon);
    SeedingAdds(gone, own, IdsBelow(freed, anon, freed.nextProject), email);
    var s' := Claim(s, own, anon, limit, email).0;
    forall r | r in s.rows ensures RowFate(s, s', own, anon, r) {
      var row := s.rows[r];
      FateOf(s, burned, freed, own, anon, r);
      assert r in gone.rows ==> s'.rows[r] == gone.rows[r];
      if r !in gone.rows {
        SeedingKeepsOldIdsOut(gone, own, IdsBelow(freed, anon, freed.nextProject), email, r);
      }
    }
    forall r | r in s'.rows && r !in s.rows
      ensures s'.rows[r].table == AlertChannel && s'.rows[r].tenant == own
              && s'.rows[r].project.Some? && s'.rows[r].project.value in ProjectsOf(s, anon)
    {
      assert r !in gone.rows;
    }
  }

  /**
   A successful claim moves every project and every listed row of the page, unchanged but for
   the tenant; it deletes only a placeholder project of the claimer, with the rows that hang on
   it, and the rows the anonymous tenant deliberately does not hand over.
   */
  lemma ClaimMovesEverything(s: State, own: nat, anon: nat, limit: Option<nat>, email: Option<string>)
    requires WellFormed(s) && CanClaim(s, own, anon) && Claim(s, own, anon, limit, email).1 == Claimed
    ensures var s' := Claim(s, own, anon, limit, email).0;
            s'.tenants.Keys == s.tenants.Keys - {anon}
            && (forall p :: p in s.projects ==>
                  if IsAbsorbed(s, own, p) then p !in s'.projects
                  else p in s'.projects && s'.projects[p] ==
                       (if s.projects[p].tenant == anon then s.projects[p].(tenant := own) else s.projects[p]))
            && (forall p :: p in s'.projects ==> p in s.projects)
            && (forall r :: r in s.rows ==> RowFate(s, s', own, anon, r))
            && (forall r :: r in s'.rows && r !in s.rows ==>
                  s'.rows[r].table == AlertChannel && s'.rows[r].tenant == own
                  && s'.rows[r].project.Some? && s'.rows[r].project.value in ProjectsOf(s, anon))
  {
    ClaimMovesProjects(s, own, anon, limit, email);
    ClaimMovesRows(s, own, anon, limit, email);
  }

  lemma {:induction false} SeedingKeepsOldIdsOut(s: State, own: nat, adopted: seq<nat>, email: Option<string>, r: nat)
    requires (forall k :: k in s.rows ==> k < s.nextRow) && r < s.nextRow && r !in s.rows
    ensures r !in SeededAll(s, own, adopted, email).rows
    decreases |adopted|
  {
    if adopted != [] {
      SeedingKeepsOldIdsOut(s, own, adopted[..|adopted| - 1], email, r);
      SeedingAdds(s, own, adopted[..|adopted| - 1], email);
    }
  }

  /** A row before the seeding: where the absorb, the reparent and the tenant's deletion leave it. */
  lemma FateOf(s: State, burned: State, freed: State, own: nat, anon: nat, r: nat)
    requires WellFormed(s) && CanClaim(s, own, anon) && r in s.rows
    requires burned == s.(tenants := s.tenants[anon := false]) && freed == Absorbed(burned, own)
    ensures var gone := WithoutTenant(Reparented(freed, own, anon), anon); var row := s.rows[r];
            if row.tenant == anon && row.table !in LISTED then r !in gone.rows
            else if row.project.Some? && IsAbsorbed(s, own, row.project.value) && DiesWithProject(row.table)
            then r !in gone.rows
            else r in gone.rows && gone.rows[r] == (if row.tenant == anon then row.(tenant := own) else row)
  {
    hide LISTED;
    BurnChangesNoFate(s, anon, own);
    AbsorbedIs(burned, own);
    var row := s.rows[r];
    assert row.project.Some? && IsAbsorbed(s, own, row.project.value) ==> row.tenant == own by {
      if row.project.Some? && IsAbsorbed(s, own, row.project.value) {
        assert row.project.value in ProjectsOf(s, own);
      }
    }
    assert forall p: nat, q: nat :: IsAbsorbed(burned, own, p) && IsAbsorbed(burned, own, q) ==> p == q by {
      forall p: nat, q: nat | IsAbsorbed(burned, own, p) && IsAbsorbed(burned, own, q) ensures p == q {
        assert q in ProjectsOf(burned, own) && ProjectsOf(burned, own) == {p};
      }
    }
  }

  /** The claimer's projects that survive the absorb. */
  function Kept(s: State, own: nat, anon: nat): set<nat>
    requires anon in s.tenants
  {
    ProjectsOf(Absorbed(s.(tenants := s.tenants[anon := false]), own), own)
  }

  lemma KeptIs(s: State, own: nat, anon: nat, p: nat)
    requires anon in s.tenants
    ensures p in Kept(s, own, anon) <==> p in ProjectsOf(s, own) && !IsAbsorbed(s, own, p)
  {
    var burned := s.(tenants := s.tenants[anon := false]);
    BurnChangesNoFate(s, anon, own);
    AbsorbedIs(burned, own);
    if IsAbsorbed(burned, own, p) {
      OneIsAbsorbed(burned, own, p);
    }
  }

  lemma HeldAfter(s: State, own: nat, anon: nat, limit: Option<nat>, email: Option<string>, p: nat)
    requires WellFormed(s) && CanClaim(s, own, anon) && Claim(s, own, anon, limit, email).1 == Claimed
    ensures p in ProjectsOf(Claim(s, own, anon, limit, email).0, own)
            <==> p in Kept(s, own, anon) || p in ProjectsOf(s, anon)
  {
    hide Claim, Kept;
    ClaimMovesEverything(s, own, anon, limit, email);
    KeptIs(s, own, anon, p);
    if p in s.projects && IsAbsorbed(s, own, p) {
      assert p in ProjectsOf(s, own);
    }
  }

  /** What the claimer holds afterwards: their own projects but a placeholder, and all of the page's. */
  lemma ClaimAddsUp(s: State, own: nat, anon: nat, limit: Option<nat>, email: Option<string>)
    requires WellFormed(s) && CanClaim(s, own, anon) && Claim(s, own, anon, limit, email).1 == Claimed
    ensures var held := ProjectsOf(Claim(s, own, anon, limit, email).0, own);
            held == Kept(s, own, anon) + ProjectsOf(s, anon)
            && |held| == |Kept(s, own, anon)| + |ProjectsOf(s, anon)|
    ensures limit.Some? ==> |Kept(s, own, anon)| < limit.value
  {
    var held := ProjectsOf(Claim(s, own, anon, limit, email).0, own);
    var kept, come := Kept(s, own, anon), ProjectsOf(s, anon);
    forall p ensures (p in held <==> p in kept + come) && !(p in kept && p in come) {
      HeldAfter(s, own, anon, limit, email, p);
      KeptIs(s, own, anon, p);
    }
    DisjointUnion(held, kept, come);
  }

  lemma DisjointUnion(whole: set<nat>, a: set<nat>, b: set<nat>)
    requires forall p :: (p in whole <==> p in a + b) && !(p in a && p in b)
    ensures whole == a + b && |whole| == |a| + |b|
  {
    assert a !! b;
  }

  lemma OneIsAbsorbed(s: State, own: nat, p: nat)
    requires IsAbsorbed(s, own, p)
    ensures Absorbed(s, own) == WithoutProject(s, p)
  {
    assert p in ProjectsOf(s, own);
    LonePlaceholder(s, own, p);
  }

  /** Every page that comes in arrives with the claimer's address on it. */
  lemma ClaimedPagesReachTheClaimer(s: State, own: nat, anon: nat, limit: Option<nat>, email: string, p: nat)
    requires WellFormed(s) && CanClaim(s, own, anon) && Claim(s, own, anon, limit, Some(email)).1 == Claimed
    requires p in ProjectsOf(s, anon)
    ensures HasEmailChannel(Claim(s, own, anon, limit, Some(email)).0, p, email)
  {
    var burned := s.(tenants := s.tenants[anon := false]);
    AbsorbedIs(burned, own);
    var freed := Absorbed(burned, own);
    var gone := WithoutTenant(Reparented(freed, own, anon), anon);
    assert p in freed.projects by {
      forall q | IsAbsorbed(burned, own, q) ensures q != p {
        assert q in ProjectsOf(burned, own);
      }
    }
    SeedingReachesAll(gone, own, IdsBelow(freed, anon, freed.nextProject), Some(email), p);
  }

  lemma ClaimKeepsWellFormed(s: State, own: nat, anon: nat, limit: Option<nat>, email: Option<string>)
    requires WellFormed(s) && own in s.tenants
    ensures WellFormed(Claim(s, own, anon, limit, email).0)
  {
    var (s', a) := Claim(s, own, anon, limit, email);
    if a == Claimed {
      ClaimMovesEverything(s, own, anon, limit, email);
      ClaimKeepsCounters(s, own, anon, limit, email);
      forall r | r in s'.rows ensures RowFits(s', s'.rows[r]) {
        if r in s.rows {
          assert RowFate(s, s', own, anon, r);
        }
      }
    }
  }

  lemma ClaimKeepsCounters(s: State, own: nat, anon: nat, limit: Option<nat>, email: Option<string>)
    requires WellFormed(s) && CanClaim(s, own, anon) && Claim(s, own, anon, limit, email).1 == Claimed
    ensures var s' := Claim(s, own, anon, limit, email).0;
            s'.nextTenant == s.nextTenant && s'.nextProject == s.nextProject
            && forall r :: r in s'.rows ==> r < s'.nextRow
  {
    var burned := s.(tenants := s.tenants[anon := false]);
    AbsorbedIs(burned, own);
    var freed := Absorbed(burned, own);
    var adopted := IdsBelow(freed, anon, freed.nextProject);
    SeedingAdds(WithoutTenant(Reparented(freed, own, anon), anon), own, adopted, email);
  }

  // ----- runs -----

  datatype Event =
    | Mint                                       // an anonymous workspace with its one project
    | SignUp                                     // a person's own workspace
    | AddProject(tenant: nat)
    | Ingest(row: Row)
    | Lease(project: nat)
    | ClaimPage(own: nat, anon: nat, limit: Option<nat>, email: Option<string>)

  predicate Enabled(s: State, e: Event) {
    match e
    case AddProject(t) => t in s.tenants && !s.tenants[t]
    case Ingest(row) => row.tenant in s.tenants && RowFits(s, row)
    case Lease(p) => p in s.projects
    case ClaimPage(own, _, _, _) => own in s.tenants && !s.tenants[own]
    case _ => true
  }

  function NewTenant(s: State, claimable: bool): State {
    s.(tenants := s.tenants[s.nextTenant := claimable], nextTenant := s.nextTenant + 1)
  }

  function NewProject(s: State, tenant: nat): State {
    s.(projects := s.projects[s.nextProject := Project(tenant, false)], nextProject := s.nextProject + 1)
  }

  function Next(s: State, e: Event): State
    requires Enabled(s, e)
  {
    match e
    case Mint => NewProject(NewTenant(s, true), s.nextTenant)
    case SignUp => NewProject(NewTenant(s, false), s.nextTenant)
    case AddProject(t) => NewProject(s, t)
    case Ingest(row) => s.(rows := s.rows[s.nextRow := row], nextRow := s.nextRow + 1)
    case Lease(p) => s.(projects := s.projects[p := s.projects[p].(leased := true)])
    case ClaimPage(own, anon, limit, email) => Claim(s, own, anon, limit, email).0
  }

  predicate IsRun(states: seq<State>, events: seq<Event>) {
    |states| == |events| + 1
    && forall i :: 0 <= i < |events| ==> Enabled(states[i], events[i]) && states[i + 1] == Next(states[i], events[i])
  }

  /** An unclaimed workspace holds the one project it was minted with. */
  predicate OnePageEach(s: State) {
    forall t :: t in s.tenants && s.tenants[t] ==> |ProjectsOf(s, t)| == 1
  }

  lemma NewProjectOf(s: State, tenant: nat, t: nat)
    requires forall p :: p in s.projects ==> p < s.nextProject
    ensures ProjectsOf(NewProject(s, tenant), t) ==
            if t == tenant then ProjectsOf(s, t) + {s.nextProject} else ProjectsOf(s, t)
  {
  }

  lemma SameProjects(s: State, s': State, t: nat)
    requires s'.projects.Keys == s.projects.Keys
    requires forall p :: p in s.projects ==> s'.projects[p].tenant == s.projects[p].tenant
    ensures ProjectsOf(s', t) == ProjectsOf(s, t)
  {
  }

  lemma NewWorkspaceProjects(s: State, claimable: bool, t: nat)
    requires WellFormed(s)
    ensures ProjectsOf(NewProject(NewTenant(s, claimable), s.nextTenant), t)
            == if t == s.nextTenant then {s.nextProject} else ProjectsOf(s, t)
  {
    var grown := NewTenant(s, claimable);
    NewProjectOf(grown, s.nextTenant, t);
    SameProjects(s, grown, t);
    assert ProjectsOf(s, s.nextTenant) == {};
  }

  lemma NextKeepsOnePage(s: State, e: Event)
    requires WellFormed(s) && OnePageEach(s) && Enabled(s, e)
    ensures OnePageEach(Next(s, e))
  {
    hide ProjectsOf, Claim;
    var s' := Next(s, e);
    forall t | t in s'.tenants && s'.tenants[t] ensures |ProjectsOf(s', t)| == 1 {
      match e
      case Mint => NewWorkspaceProjects(s, true, t);
      case SignUp => NewWorkspaceProjects(s, false, t);
      case AddProject(u) => NewProjectOf(s, u, t);
      case ClaimPage(own, anon, limit, email) =>
        if Claim(s, own, anon, limit, email).1 == Claimed {
          ClaimedMeansCould(s, own, anon, limit, email);
          ClaimLeavesOthers(s, own, anon, limit, email, t);
        } else {
          RefusedClaimChangesNothing(s, own, anon, limit, email);
        }
      case _ => SameProjects(s, s', t);
    }
  }

  lemma ClaimedMeansCould(s: State, own: nat, anon: nat, limit: Option<nat>, email: Option<string>)
    requires own in s.tenants && Claim(s, own, anon, limit, email).1 == Claimed
    ensures CanClaim(s, own, anon)
  {
  }

  /** A refused claim leaves everything as it was: the page is still there to be claimed. */
  lemma RefusedClaimChangesNothing(s: State, own: nat, anon: nat, limit: Option<nat>, email: Option<string>)
    requires Claim(s, own, anon, limit, email).1 != Claimed
    ensures Claim(s, own, anon, limit, email).0 == s
  {
  }

  lemma ClaimLeavesOthers(s: State, own: nat, anon: nat, limit: Option<nat>, email: Option<string>, t: nat)
    requires WellFormed(s) && CanClaim(s, own, anon) && !s.tenants[own]
    requires Claim(s, own, anon, limit, email).1 == Claimed
    requires t in Claim(s, own, anon, limit, email).0.tenants && Claim(s, own, anon, limit, email).0.tenants[t]
    ensures t in s.tenants && s.tenants[t] && t != anon && t != own
    ensures ProjectsOf(Claim(s, own, anon, limit, email).0, t) == ProjectsOf(s, t)
  {
    var s' := Claim(s, own, anon, limit, email).0;
    ClaimMovesEverything(s, own, anon, limit, email);
    ClaimKeepsTokens(s, own, anon, limit, email);
    forall p ensures p in ProjectsOf(s', t) <==> p in ProjectsOf(s, t) {
      if p in s.projects && IsAbsorbed(s, own, p) {
        assert p in ProjectsOf(s, own);
      }
    }
  }

  lemma ClaimKeepsTokens(s: State, own: nat, anon: nat, limit: Option<nat>, email: Option<string>)
    requires WellFormed(s) && CanClaim(s, own, anon) && Claim(s, own, anon, limit, email).1 == Claimed
    ensures Claim(s, own, anon, limit, email).0.tenants == s.tenants - {anon}
  {
    var burned := s.(tenants := s.tenants[anon := false]);
    AbsorbedIs(burned, own);
    var freed := Absorbed(burned, own);
    var adopted := IdsBelow(freed, anon, freed.nextProject);
    SeedingAdds(WithoutTenant(Reparented(freed, own, anon), anon), own, adopted, email);
    assert burned.tenants - {anon} == s.tenants - {anon};
  }

  lemma NextKeepsWellFormed(s: State, e: Event)
    requires WellFormed(s) && Enabled(s, e)
    ensures WellFormed(Next(s, e))
  {
    match e
    case ClaimPage(own, anon, limit, email) => ClaimKeepsWellFormed(s, own, anon, limit, email);
    case Mint => NewWorkspaceKeepsWellFormed(s, true);
    case SignUp => NewWorkspaceKeepsWellFormed(s, false);
    case AddProject(t) => NewProjectKeepsWellFormed(s, t);
    case _ =>
      var s' := Next(s, e);
      forall r | r in s'.rows ensures r < s'.nextRow && RowFits(s', s'.rows[r]) {
        assert r in s.rows ==> RowFits(s, s.rows[r]);
      }
  }

  lemma NewProjectKeepsWellFormed(s: State, t: nat)
    requires WellFormed(s) && t in s.tenants
    ensures WellFormed(NewProject(s, t))
  {
    var s' := NewProject(s, t);
    forall r | r in s'.rows ensures RowFits(s', s'.rows[r]) {
      assert RowFits(s, s.rows[r]);
    }
  }

  lemma NewWorkspaceKeepsWellFormed(s: State, claimable: bool)
    requires WellFormed(s)
    ensures WellFormed(NewProject(NewTenant(s, claimable), s.nextTenant))
  {
    var grown := NewTenant(s, claimable);
    forall r | r in grown.rows ensures RowFits(grown, grown.rows[r]) {
      assert RowFits(s, s.rows[r]);
    }
    NewProjectKeepsWellFormed(grown, s.nextTenant);
  }

  lemma {:induction false} RunsKeepOnePage(states: seq<State>, events: seq<Event>, i: nat)
    requires IsRun(states, events) && i < |states|
    requires WellFormed(states[0]) && OnePageEach(states[0])
    ensures WellFormed(states[i]) && OnePageEach(states[i])
    decreases i
  {
    if i > 0 {
      RunsKeepOnePage(states, events, i - 1);
      NextKeepsWellFormed(states[i - 1], events[i - 1]);
      NextKeepsOnePage(states[i - 1], events[i - 1]);
    }
  }

  predicate Succeeds(s: State, e: Event, anon: nat) {
    e.ClaimPage? && e.anon == anon && Claim(s, e.own, e.anon, e.limit, e.email).1 == Claimed
  }

  /** Nothing brings a tenant back once it is gone. */
  lemma {:induction false} GoneForGood(states: seq<State>, events: seq<Event>, i: nat, j: nat, t: nat)
    requires IsRun(states, events) && i <= j < |states|
    requires WellFormed(states[0]) && OnePageEach(states[0])
    requires t !in states[i].tenants && t < states[i].nextTenant
    ensures t !in states[j].tenants && t < states[j].nextTenant
    decreases j
  {
    if i < j {
      GoneForGood(states, events, i, j - 1, t);
      RunsKeepOnePage(states, events, j - 1);
      var s, e := states[j - 1], events[j - 1];
      if e.ClaimPage? && Succeeds(s, e, e.anon) {
        ClaimMovesEverything(s, e.own, e.anon, e.limit, e.email);
        ClaimKeepsCounters(s, e.own, e.anon, e.limit, e.email);
      }
    }
  }

  /** Each anonymous workspace is adopted at most once. */
  lemma AdoptedAtMostOnce(states: seq<State>, events: seq<Event>, i: nat, j: nat, anon: nat)
    requires IsRun(states, events) && i < j < |events|
    requires WellFormed(states[0]) && OnePageEach(states[0])
    requires Succeeds(states[i], events[i], anon)
    ensures !Succeeds(states[j], events[j], anon)
  {
    RunsKeepOnePage(states, events, i);
    var s, e := states[i], events[i];
    ClaimMovesEverything(s, e.own, e.anon, e.limit, e.email);
    ClaimKeepsCounters(s, e.own, e.anon, e.limit, e.email);
    GoneForGood(states, events, i + 1, j, anon);
  }

  /** Over every run a claim ends within the plan: the wall is passed with room for the one page that comes in. */
  lemma ClaimsStayWithinThePlan(states: seq<State>, events: seq<Event>, i: nat, anon: nat)
    requires IsRun(states, events) && i < |events|
    requires WellFormed(states[0]) && OnePageEach(states[0])
    requires Succeeds(states[i], events[i], anon)
    ensures events[i].limit.Some? ==> |ProjectsOf(states[i + 1], events[i].own)| <= events[i].limit.value
  {
    RunsKeepOnePage(states, events, i);
    var e := events[i];
    ClaimAddsUp(states[i], e.own, e.anon, e.limit, e.email);
  }
}

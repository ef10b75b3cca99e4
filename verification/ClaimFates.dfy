/**
 When a claim goes through, which project it may delete and what becomes of each row, said
 of the stored projects and rows alone (back/internal/api/install.go:229-260, 349-518).
 */
module ClaimFates {
  import opened Outcomes
  import opened Claims
  import opened ClaimRuns

  predicate OnlyProject(s: State, own: nat, p: nat) {
    p in s.projects && forall q :: q in s.projects ==> (s.projects[q].tenant == own <==> q == p)
  }

  /** A key ingested into the project, a monitor watches it, or the claimer saw events or page views of it. */
  predicate Used(s: State, own: nat, p: nat)
    requires p in s.projects
  {
    s.projects[p].leased
    || exists r :: r in s.rows && CountsAsUse(s.rows[r], own, p)
  }

  predicate CountsAsUse(row: Row, own: nat, p: nat) {
    (row.table == Monitor && row.project == Some(p))
    || (row.table == Events && row.project == Some(p) && row.tenant == own)
    || (row.table == WebUsage && row.tenant == own)
  }

  lemma AbsorbedIff(s: State, own: nat, p: nat)
    ensures IsAbsorbed(s, own, p) <==> OnlyProject(s, own, p) && !Used(s, own, p)
  {
    if IsAbsorbed(s, own, p) {
      forall q | q in s.projects ensures s.projects[q].tenant == own <==> q == p {
        assert q in ProjectsOf(s, own) <==> q in {p};
      }
    }
    if OnlyProject(s, own, p) {
      assert ProjectsOf(s, own) == {p};
      assert !Used(s, own, p) ==> forall r :: r in s.rows ==> !CountsAsUse(s.rows[r], own, p);
    }
  }

  /** A claim deletes a project exactly if it is the claimer's only one and was never used. */
  lemma DeletesIff(s: State, own: nat, anon: nat, limit: Option<nat>, email: Option<string>, p: nat)
    requires WellFormed(s) && CanClaim(s, own, anon) && Claim(s, own, anon, limit, email).1 == Claimed
    requires p in s.projects
    ensures p !in Claim(s, own, anon, limit, email).0.projects <==> OnlyProject(s, own, p) && !Used(s, own, p)
  {
    hide Claim;
    ClaimMovesEverything(s, own, anon, limit, email);
    AbsorbedIff(s, own, p);
  }

  /** The claimer's projects but for a lone unused one. */
  function Surviving(s: State, own: nat): set<nat> {
    set p | p in s.projects && s.projects[p].tenant == own && (OnlyProject(s, own, p) ==> Used(s, own, p))
  }

  /** When a claim goes through, meets the plan's wall, or finds no page to claim; only the first changes anything. */
  lemma ClaimAnswers(s: State, own: nat, anon: nat, limit: Option<nat>, email: Option<string>)
    ensures var (s', a) := Claim(s, own, anon, limit, email);
            var claimable := anon != own && anon in s.tenants && s.tenants[anon];
            var full := limit.Some? && |Surviving(s, own)| >= limit.value;
            (a == NotClaimable <==> !claimable)
            && (a == Wall <==> claimable && full)
            && (a == Claimed <==> claimable && !full)
            && (a != Claimed ==> s' == s)
  {
    if anon != own && anon in s.tenants && s.tenants[anon] {
      forall p ensures p in Kept(s, own, anon) <==> p in Surviving(s, own) {
        KeptIs(s, own, anon, p);
        AbsorbedIff(s, own, p);
      }
      assert Kept(s, own, anon) == Surviving(s, own);
    }
  }

  /** A claimed page's rows come along but for five tables; a deleted project takes what hangs on it. */
  lemma RowsMove(s: State, own: nat, anon: nat, limit: Option<nat>, email: Option<string>, r: nat)
    requires WellFormed(s) && CanClaim(s, own, anon) && Claim(s, own, anon, limit, email).1 == Claimed
    requires r in s.rows
    ensures var s', row := Claim(s, own, anon, limit, email).0, s.rows[r];
            var orphaned := row.project.Some? && row.project.value in s.projects && row.project.value !in s'.projects;
            if row.tenant == anon then
              if row.table in {AlertChannel, DeliveryQueue, ErrorAlertState, WebUsage, OtherTenantTable}
              then r !in s'.rows else r in s'.rows && s'.rows[r] == row.(tenant := own)
            else if orphaned && row.table !in {Logs, Events, Metrics, Series1m, Series1h, WebHeat, WebEngage, WebUsage}
            then r !in s'.rows else r in s'.rows && s'.rows[r] == row
  {
    var s', row := Claim(s, own, anon, limit, email).0, s.rows[r];
    hide Claim, WellFormed;
    ClaimMovesEverything(s, own, anon, limit, email);
    ListedIs(row.table);
    assert RowFate(s, s', own, anon, r);
    if row.tenant == anon && row.project.Some? && IsAbsorbed(s, own, row.project.value) {
      TheirsIsNotOurs(s, row, own);
    }
  }

  lemma ListedIs(t: Table)
    ensures t in LISTED <==> t !in {AlertChannel, DeliveryQueue, ErrorAlertState, WebUsage, OtherTenantTable}
  {
    assert LISTED[0] == Monitor && LISTED[1] == Incident && LISTED[2] == StatusPage && LISTED[3] == SourceConnection;
    assert LISTED[4] == ApiKey && LISTED[5] == InstallToken && LISTED[6] == Dashboard && LISTED[7] == Logs;
    assert LISTED[8] == Events && LISTED[9] == Metrics && LISTED[10] == Series1m && LISTED[11] == Series1h;
    assert LISTED[12] == WebHeat && LISTED[13] == WebEngage;
  }

  lemma TheirsIsNotOurs(s: State, row: Row, own: nat)
    requires RowFits(s, row) && row.project.Some? && IsAbsorbed(s, own, row.project.value)
    ensures row.tenant == own
  {
    assert row.project.value in ProjectsOf(s, own);
  }

  // ----- what was used once -----

  lemma ClaimKeepsUsed(s: State, own: nat, anon: nat, limit: Option<nat>, email: Option<string>, p: nat, r: nat)
    requires WellFormed(s) && own in s.tenants && p in s.projects
    ensures var s' := Claim(s, own, anon, limit, email).0;
            (s.projects[p].leased ==> p in s'.projects && s'.projects[p].leased)
            && (Watches(s, r, p) ==> p in s'.projects && Watches(s', r, p))
  {
    if Claim(s, own, anon, limit, email).1 == Claimed {
      ClaimedMeansCould(s, own, anon, limit, email);
      hide Claim, WellFormed;
      ClaimMovesEverything(s, own, anon, limit, email);
      DeletesIff(s, own, anon, limit, email, p);
      if Watches(s, r, p) {
        assert CountsAsUse(s.rows[r], own, p);
        RowsMove(s, own, anon, limit, email, r);
      }
    } else {
      RefusedClaimChangesNothing(s, own, anon, limit, email);
    }
  }

  /** Row `r` is a monitor of the project. */
  predicate Watches(s: State, r: nat, p: nat) {
    r in s.rows && s.rows[r].table == Monitor && s.rows[r].project == Some(p)
  }

  lemma StepKeepsUsed(s: State, e: Event, p: nat, r: nat)
    requires WellFormed(s) && Enabled(s, e) && p in s.projects
    ensures s.projects[p].leased ==> p in Next(s, e).projects && Next(s, e).projects[p].leased
    ensures Watches(s, r, p) ==> p in Next(s, e).projects && Watches(Next(s, e), r, p)
  {
    if e.ClaimPage? {
      ClaimKeepsUsed(s, e.own, e.anon, e.limit, e.email, p, r);
    }
  }

  /** Over every run: once a key has ingested into a project, or a monitor watches it, no claim ever deletes it. */
  lemma {:induction false} UsedProjectsSurvive(states: seq<State>, events: seq<Event>, i: nat, j: nat, p: nat, r: nat)
    requires IsRun(states, events) && i < j < |states|
    requires WellFormed(states[0]) && OnePageEach(states[0])
    requires events[i] == Lease(p) || (p in states[i].projects && Watches(states[i], r, p))
    ensures p in states[j].projects
    ensures events[i] == Lease(p) ==> states[j].projects[p].leased
    ensures p in states[i].projects && Watches(states[i], r, p) ==> Watches(states[j], r, p)
    decreases j
  {
    assert Enabled(states[i], events[i]) && states[i + 1] == Next(states[i], events[i]);
    RunsKeepOnePage(states, events, j - 1);
    if i + 1 < j {
      UsedProjectsSurvive(states, events, i, j - 1, p, r);
      assert Enabled(states[j - 1], events[j - 1]) && states[j] == Next(states[j - 1], events[j - 1]);
      StepKeepsUsed(states[j - 1], events[j - 1], p, r);
    } else {
      StepKeepsUsed(states[i], events[i], p, r);
    }
  }

  // ----- the seeded channels -----

  /** The rows that were not there before carry this address, one at most for each project. */
  predicate OneEach(before: set<nat>, rows: map<nat, Row>, email: Option<string>) {
    (forall r :: r in rows && r !in before ==> email.Some? && rows[r].what == email.value)
    && forall q, r :: q in rows && r in rows && q !in before && r !in before && q != r ==>
         rows[q].project != rows[r].project
  }

  lemma {:induction false} SeedingIs(s: State, own: nat, adopted: seq<nat>, email: Option<string>)
    requires forall r :: r in s.rows ==> r < s.nextRow
    ensures OneEach(s.rows.Keys, SeededAll(s, own, adopted, email).rows, email)
    decreases |adopted|
  {
    if adopted != [] {
      SeedingIs(s, own, adopted[..|adopted| - 1], email);
      SeedingAdds(s, own, adopted[..|adopted| - 1], email);
    }
  }

  lemma OneEachOf(before: set<nat>, fewer: set<nat>, rows: map<nat, Row>, email: Option<string>)
    requires fewer <= before && OneEach(fewer, rows, email)
    ensures OneEach(before, rows, email)
  {
  }

  lemma SeededRows(s: State, own: nat, anon: nat, limit: Option<nat>, email: Option<string>)
    requires WellFormed(s) && CanClaim(s, own, anon) && Claim(s, own, anon, limit, email).1 == Claimed
    ensures OneEach(s.rows.Keys, Claim(s, own, anon, limit, email).0.rows, email)
  {
    hide LISTED, OneEach, SeededAll;
    var burned := s.(tenants := s.tenants[anon := false]);
    AbsorbedIs(burned, own);
    var freed := Absorbed(burned, own);
    var gone := WithoutTenant(Reparented(freed, own, anon), anon);
    SeedingIs(gone, own, IdsBelow(freed, anon, freed.nextProject), email);
    OneEachOf(s.rows.Keys, gone.rows.Keys, Claim(s, own, anon, limit, email).0.rows, email);
  }

  /** A claim adds one channel at most to each page it moves, with the claimer's address, and no other row. */
  lemma ChannelsAdded(s: State, own: nat, anon: nat, limit: Option<nat>, email: Option<string>)
    requires WellFormed(s) && CanClaim(s, own, anon) && Claim(s, own, anon, limit, email).1 == Claimed
    ensures var s' := Claim(s, own, anon, limit, email).0;
            OneEach(s.rows.Keys, s'.rows, email)
            && forall r :: r in s'.rows && r !in s.rows ==>
                 s'.rows[r].project.Some? && s'.rows[r].project.value in ProjectsOf(s, anon)
                 && s'.rows[r] == Row(AlertChannel, own, s'.rows[r].project, s'.rows[r].what)
  {
    hide Claim, OneEach, RowFate;
    ClaimMovesEverything(s, own, anon, limit, email);
    SeededRows(s, own, anon, limit, email);
  }
}

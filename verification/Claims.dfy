/**
 Claiming an anonymous workspace (back/internal/api/install.go:229-260, 349-518,
 back/internal/api/projects.go:158-178).

 A row is any record of one of the tables the transaction touches, with the tenant
 and project columns it is found by; `what` stands for the rest of it.
 */
module Claims {
  import opened Outcomes

  datatype Table =
    // reparented by name
    | Monitor | Incident | StatusPage | SourceConnection | ApiKey | InstallToken | Dashboard
    | Logs | Events | Metrics | Series1m | Series1h | WebHeat | WebEngage
    // left to die with the anonymous tenant
    | AlertChannel | DeliveryQueue | ErrorAlertState | WebUsage | OtherTenantTable

  /** The fixed list in the transaction, without `project` itself. */
  const LISTED: seq<Table> := [
    Monitor, Incident, StatusPage, SourceConnection, ApiKey, InstallToken, Dashboard,
    Logs, Events, Metrics, Series1m, Series1h, WebHeat, WebEngage]

  predicate IsData(t: Table) {
    t in {Logs, Events, Metrics, Series1m, Series1h, WebHeat, WebEngage}
  }

  /** Tables whose project column cascades; the data tables reference nothing. */
  predicate DiesWithProject(t: Table) {
    !IsData(t) && t != WebUsage
  }

  datatype Row = Row(table: Table, tenant: nat, project: Option<nat>, what: string)

  /** `leased` is project_seq.next > 1: something was ingested with a key. */
  datatype Project = Project(tenant: nat, leased: bool)

  /** A tenant maps to whether its claim token is still unburned. */
  datatype State = State(
    tenants: map<nat, bool>, projects: map<nat, Project>, rows: map<nat, Row>,
    nextTenant: nat, nextProject: nat, nextRow: nat)

  datatype Answer = Claimed | NotClaimable | Wall

  function ProjectsOf(s: State, tenant: nat): set<nat> {
    set p | p in s.projects && s.projects[p].tenant == tenant
  }

  /** The claimer's lone project, when nothing was ever watched, ingested or viewed through it. */
  predicate IsPlaceholder(s: State, own: nat, p: nat) {
    ProjectsOf(s, own) == {p}
    && !s.projects[p].leased
    && (forall r :: r in s.rows && s.rows[r].project == Some(p) ==> s.rows[r].table != Monitor)
    && (forall r :: r in s.rows && s.rows[r].project == Some(p) && s.rows[r].tenant == own ==>
          s.rows[r].table != Events)
    && (forall r :: r in s.rows && s.rows[r].tenant == own ==> s.rows[r].table != WebUsage)
  }

  function WithoutProject(s: State, p: nat): State {
    s.(projects := s.projects - {p},
       rows := map r | r in s.rows && !(s.rows[r].project == Some(p) && DiesWithProject(s.rows[r].table)) :: s.rows[r])
  }

  /** The DELETE that frees the plan's slot: at most one project, and only a placeholder. */
  function Absorbed(s: State, own: nat): State {
    var held := ProjectsOf(s, own);
    if p :| p in held && IsPlaceholder(s, own, p) then WithoutProject(s, p) else s
  }

  predicate AtTheWall(s: State, own: nat, limit: Option<nat>) {
    limit.Some? && |ProjectsOf(s, own)| >= limit.value
  }

  function MovedRow(r: Row, own: nat, anon: nat): Row {
    if r.tenant == anon && r.table in LISTED then r.(tenant := own) else r
  }

  function Reparented(s: State, own: nat, anon: nat): State {
    s.(projects := map p | p in s.projects ::
         if s.projects[p].tenant == anon then s.projects[p].(tenant := own) else s.projects[p],
       rows := map r | r in s.rows :: MovedRow(s.rows[r], own, anon))
  }

  function WithoutTenant(s: State, anon: nat): State {
    s.(tenants := s.tenants - {anon},
       rows := map r | r in s.rows && !(s.rows[r].tenant == anon && s.rows[r].table !in LISTED) :: s.rows[r])
  }

  predicate HasEmailChannel(s: State, p: nat, email: string) {
    exists r :: r in s.rows
      && s.rows[r].table == AlertChannel && s.rows[r].project == Some(p) && s.rows[r].what == email
  }

  /** One seeded channel for one adopted project. */
  function Seeded(s: State, own: nat, p: nat, email: Option<string>): State {
    if email.None? || HasEmailChannel(s, p, email.value) then s
    else s.(rows := s.rows[s.nextRow := Row(AlertChannel, own, Some(p), email.value)], nextRow := s.nextRow + 1)
  }

  function SeededAll(s: State, own: nat, adopted: seq<nat>, email: Option<string>): State
    decreases |adopted|
  {
    if adopted == [] then s
    else Seeded(SeededAll(s, own, adopted[..|adopted| - 1], email), own, adopted[|adopted| - 1], email)
  }

  /** A tenant's project ids below `n`, in order: SELECT id ... ORDER BY id. */
  function IdsBelow(s: State, tenant: nat, n: nat): (ids: seq<nat>)
    ensures forall p :: p in ids <==> p < n && p in s.projects && s.projects[p].tenant == tenant
    ensures forall i, j :: 0 <= i < j < |ids| ==> ids[i] < ids[j]
  {
    if n == 0 then []
    else
      var rest := IdsBelow(s, tenant, n - 1);
      assert forall i :: 0 <= i < |rest| ==> rest[i] in rest;
      if n - 1 in s.projects && s.projects[n - 1].tenant == tenant then rest + [n - 1] else rest
  }

  function Adopted(s: State, own: nat, anon: nat, email: Option<string>): State {
    SeededAll(WithoutTenant(Reparented(s, own, anon), anon), own, IdsBelow(s, anon, s.nextProject), email)
  }

  function Claim(s: State, own: nat, anon: nat, limit: Option<nat>, email: Option<string>): (State, Answer) {
    if anon == own || anon !in s.tenants || !s.tenants[anon] then (s, NotClaimable)
    else
      var freed := Absorbed(s.(tenants := s.tenants[anon := false]), own);
      if AtTheWall(freed, own, limit) then (s, Wall) else (Adopted(freed, own, anon, email), Claimed)
  }

  // ----- the transaction -----

  class Store {
    var tenants: map<nat, bool>
    var projects: map<nat, Project>
    var rows: map<nat, Row>
    var nextTenant: nat
    var nextProject: nat
    var nextRow: nat

    function Now(): State
      reads this
    {
      State(tenants, projects, rows, nextTenant, nextProject, nextRow)
    }

    constructor ()
      ensures Now() == State(map[], map[], map[], 0, 0, 0)
    {
      tenants, projects, rows, nextTenant, nextProject, nextRow := map[], map[], map[], 0, 0, 0;
    }

    method Rollback(s: State)
      modifies this
      ensures Now() == s
    {
      tenants, projects, rows := s.tenants, s.projects, s.rows;
      nextTenant, nextProject, nextRow := s.nextTenant, s.nextProject, s.nextRow;
    }

    /** UPDATE one table's tenant column. */
    method ReparentTable(table: Table, own: nat, anon: nat)
      modifies this`rows
      ensures rows.Keys == old(rows).Keys
      ensures forall r :: r in rows ==>
                rows[r] == if old(rows)[r].tenant == anon && old(rows)[r].table == table
                           then old(rows)[r].(tenant := own) else old(rows)[r]
    {
      rows := map r | r in rows ::
        if rows[r].tenant == anon && rows[r].table == table then rows[r].(tenant := own) else rows[r];
    }

    method ReparentTables(tables: seq<Table>, own: nat, anon: nat)
      requires own != anon
      modifies this`rows
      ensures rows.Keys == old(rows).Keys
      ensures forall r :: r in rows ==>
                rows[r] == if old(rows)[r].tenant == anon && old(rows)[r].table in tables
                           then old(rows)[r].(tenant := own) else old(rows)[r]
    {
      var i := 0;
      while i < |tables|
        invariant 0 <= i <= |tables|
        invariant rows.Keys == old(rows).Keys
        invariant forall r :: r in rows ==>
                    rows[r] == if old(rows)[r].tenant == anon && old(rows)[r].table in tables[..i]
                               then old(rows)[r].(tenant := own) else old(rows)[r]
      {
        assert tables[..i + 1] == tables[..i] + [tables[i]];
        ReparentTable(tables[i], own, anon);
        i := i + 1;
      }
      assert tables[..i] == tables;
    }

    method Reparent(own: nat, anon: nat)
      requires own != anon
      modifies this`rows, this`projects
      ensures Now() == Reparented(old(Now()), own, anon)
    {
      projects := map p | p in projects ::
        if projects[p].tenant == anon then projects[p].(tenant := own) else projects[p];
      ReparentTables(LISTED, own, anon);
      assert rows == Reparented(old(Now()), own, anon).rows;
    }

    method SeedChannels(own: nat, adopted: seq<nat>, email: Option<string>)
      modifies this`rows, this`nextRow
      ensures Now() == SeededAll(old(Now()), own, adopted, email)
    {
      var i := 0;
      while i < |adopted|
        invariant 0 <= i <= |adopted|
        invariant Now() == SeededAll(old(Now()), own, adopted[..i], email)
      {
        assert adopted[..i + 1][..i] == adopted[..i];
        if email.Some? && !HasEmailChannel(Now(), adopted[i], email.value) {
          rows := rows[nextRow := Row(AlertChannel, own, Some(adopted[i]), email.value)];
          nextRow := nextRow + 1;
        }
        i := i + 1;
      }
      assert adopted[..i] == adopted;
    }

    method AdoptTenant(own: nat, anon: nat, limit: Option<nat>, email: Option<string>) returns (a: Answer)
      modifies this
      ensures (Now(), a) == Claim(old(Now()), own, anon, limit, email)
      ensures a != Claimed ==> Now() == old(Now())
    {
      hide LISTED, HasEmailChannel, SeededAll, IdsBelow, IsPlaceholder, Reparented;
      if anon == own {
        return NotClaimable;
      }
      var begin := Now();
      if anon !in tenants || !tenants[anon] {
        return NotClaimable;
      }
      tenants := tenants[anon := false];
      ghost var burned := Now();
      var held := ProjectsOf(Now(), own);
      if p :| p in held && IsPlaceholder(Now(), own, p) {
        LonePlaceholder(burned, own, p);
        projects := projects - {p};
        rows := map r | r in rows && !(rows[r].project == Some(p) && DiesWithProject(rows[r].table)) :: rows[r];
      }
      assert Now() == Absorbed(burned, own);
      if limit.Some? && |ProjectsOf(Now(), own)| >= limit.value {
        Rollback(begin);
        return Wall;
      }
      var adopted := IdsBelow(Now(), anon, nextProject);
      Reparent(own, anon);
      tenants := tenants - {anon};
      rows := map r | r in rows && !(rows[r].tenant == anon && rows[r].table !in LISTED) :: rows[r];
      SeedChannels(own, adopted, email);
      return Claimed;
    }
  }

  lemma LonePlaceholder(s: State, own: nat, p: nat)
    requires p in ProjectsOf(s, own) && IsPlaceholder(s, own, p)
    ensures Absorbed(s, own) == WithoutProject(s, p)
  {
    var q :| q in ProjectsOf(s, own) && IsPlaceholder(s, own, q) && Absorbed(s, own) == WithoutProject(s, q);
    assert q in {p};
  }
}

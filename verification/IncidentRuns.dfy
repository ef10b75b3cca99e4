/**
 The incident lifecycle statement by statement (back/internal/incident/incident.go:91-154,
 191-278, 340-376, 411-524): an opener first looks for an open incident and only then
 inserts, and a notification reads the freeze once and then enqueues one destination after
 the other.  Nothing locks these together, so any number of requests may be in between, in
 any order; one that nobody disturbs is the one step of `Incidents.Next`.
 */
module IncidentRuns {
  import opened Outcomes
  import Seats
  import opened Incidents
  import opened Thaws

  /** What an opener is called for. */
  datatype Ask =
    | Outage(monitor: nat)
    | Detection(tenant: nat, project: nat, on: Option<nat>, key: nat)

  /** What a request still has to do. */
  datatype Task =
    | Clear(inc: Incident)                                              // found none open: insert this one
    | Notify(rows: seq<nat>)                                            // notify these incidents
    | Paging(incident: nat, aud: Audience, next: nat, rest: seq<nat>)  // not frozen when read: enqueue

  datatype System = System(s: State, tasks: map<nat, Task>)

  datatype Step =
    | Look(task: nat, ask: Ask)
    | Insert(task: nat)
    | ThawLook(task: nat, project: nat)
    | ReadFreeze(task: nat, aud: Audience)
    | EnqueueNext(task: nat)
    | Mark(task: nat)
    | End(task: nat)
    | CloseMonitor(monitor: nat)
    | CloseKey(tenant: nat, shape: Shape)
    | FreezeProject(project: nat)
    | ThawProject(project: nat)

  /** The incident the opener will insert, or none if it finds one open or no monitor. */
  function Asked(s: State, ask: Ask): Option<Incident> {
    match ask
    case Outage(m) =>
      if HasOpen(s, m) || m !in s.monitors then None
      else Some(Incident(s.monitors[m].tenant, s.monitors[m].project, Some(m), Availability(m), true, false))
    case Detection(tenant, project, on, key) =>
      if HasOpenShape(s, tenant, Detected(key)) then None
      else Some(Incident(tenant, project, on, Detected(key), true, false))
  }

  /** The rows a thaw reads: the undelivered ones among the first `n`, oldest first. */
  function UndeliveredRows(s: State, project: nat, n: nat): (rows: seq<nat>)
    requires n <= |s.incidents|
    ensures forall i :: 0 <= i < |rows| ==> rows[i] < n
  {
    if n == 0 then []
    else
      var rows := UndeliveredRows(s, project, n - 1);
      if Undelivered(s, s.incidents[n - 1], project) then rows + [n - 1] else rows
  }

  predicate Enabled(y: System, e: Step) {
    match e
    case Look(o, _) => o !in y.tasks
    case ThawLook(o, _) => o !in y.tasks
    case Insert(o) => o in y.tasks && y.tasks[o].Clear?
    case ReadFreeze(o, _) =>
      o in y.tasks && y.tasks[o].Notify? && y.tasks[o].rows != [] && y.tasks[o].rows[0] < |y.s.incidents|
    case EnqueueNext(o) =>
      o in y.tasks && y.tasks[o].Paging? && y.tasks[o].next < |y.tasks[o].aud.chans|
      && y.tasks[o].incident < |y.s.incidents|
    case Mark(o) =>
      o in y.tasks && y.tasks[o].Paging? && y.tasks[o].next == |y.tasks[o].aud.chans|
      && y.tasks[o].incident < |y.s.incidents|
    case End(o) => o in y.tasks && y.tasks[o].Notify? && y.tasks[o].rows == []
    case _ => true
  }

  function Next(y: System, e: Step): System
    requires Enabled(y, e)
  {
    var s := y.s;
    match e
    case Look(o, ask) =>
      var inc := Asked(s, ask);
      if inc.None? then y else System(s, y.tasks[o := Clear(inc.value)])
    case Insert(o) =>
      System(s.(incidents := s.incidents + [y.tasks[o].inc]), y.tasks[o := Notify([|s.incidents|])])
    case ThawLook(o, p) => System(s, y.tasks[o := Notify(UndeliveredRows(s, p, |s.incidents|))])
    case ReadFreeze(o, aud) =>
      var rows := y.tasks[o].rows;
      System(s, y.tasks[o := if s.incidents[rows[0]].project in s.frozen then Notify(rows[1..])
                             else Paging(rows[0], aud, 0, rows[1..])])
    case EnqueueNext(o) =>
      var t := y.tasks[o];
      System(s.(queue := EnqueueFor(s.queue, t.incident, s.incidents[t.incident].shape, t.aud, t.aud.chans[t.next])),
             y.tasks[o := t.(next := t.next + 1)])
    case Mark(o) =>
      var t := y.tasks[o];
      var inc := s.incidents[t.incident];
      System(if AnyoneHears(t.aud, inc.shape, |t.aud.chans|)
             then s.(incidents := s.incidents[t.incident := inc.(notified := true)]) else s,
             y.tasks[o := Notify(t.rest)])
    case End(o) => System(s, y.tasks - {o})
    case CloseMonitor(m) => y.(s := Incidents.Next(s, Close(m)))
    case CloseKey(tenant, shape) => y.(s := Incidents.Next(s, CloseByFingerprint(tenant, shape)))
    case FreezeProject(p) => y.(s := Incidents.Next(s, Freeze(p)))
    case ThawProject(p) => y.(s := Incidents.Next(s, Thaw(p)))
  }

  predicate IsRun(states: seq<System>, steps: seq<Step>) {
    |states| == |steps| + 1
    && forall i :: 0 <= i < |steps| ==> Enabled(states[i], steps[i]) && states[i + 1] == Next(states[i], steps[i])
  }

  predicate IsStart(y: System) {
    y.s.incidents == [] && y.s.queue == [] && y.tasks == map[]
  }

  // ----- one open incident per monitor and per detector key -----

  predicate OneOpenPerMonitor(s: State) {
    forall i, j :: 0 <= i < j < |s.incidents| && s.incidents[i].open && s.incidents[i].monitor.Some?
      ==> !IsOpenFor(s.incidents[j], s.incidents[i].monitor.value)
  }

  predicate OneOpenPerKey(s: State) {
    forall i, j :: 0 <= i < j < |s.incidents| && s.incidents[i].open && s.incidents[i].shape.Detected?
      ==> !IsOpenShape(s.incidents[j], s.incidents[i].tenant, s.incidents[i].shape)
  }

  /** An insert while the incident's monitor already has one open. */
  predicate LandsOnOpenMonitor(y: System, e: Step) {
    e.Insert? && e.task in y.tasks && y.tasks[e.task].Clear?
    && var inc := y.tasks[e.task].inc; inc.open && inc.monitor.Some? && HasOpen(y.s, inc.monitor.value)
  }

  predicate LandsOnOpenKey(y: System, e: Step) {
    e.Insert? && e.task in y.tasks && y.tasks[e.task].Clear?
    && var inc := y.tasks[e.task].inc; inc.open && inc.shape.Detected? && HasOpenShape(y.s, inc.tenant, inc.shape)
  }

  lemma GrownBreaksIff(s: State, inc: Incident)
    ensures var grown := s.(incidents := s.incidents + [inc]);
            OneOpenPerMonitor(s) ==>
              (OneOpenPerMonitor(grown) <==> !(inc.open && inc.monitor.Some? && HasOpen(s, inc.monitor.value)))
  {
    var grown, n := s.(incidents := s.incidents + [inc]), |s.incidents|;
    assert grown.incidents[n] == inc && forall i :: 0 <= i < n ==> grown.incidents[i] == s.incidents[i];
    if inc.open && inc.monitor.Some? && HasOpen(s, inc.monitor.value) {
      var i :| 0 <= i < n && IsOpenFor(s.incidents[i], inc.monitor.value);
      assert grown.incidents[i].monitor == inc.monitor;
      assert IsOpenFor(grown.incidents[n], grown.incidents[i].monitor.value);
    }
  }

  lemma GrownBreaksKeyIff(s: State, inc: Incident)
    ensures var grown := s.(incidents := s.incidents + [inc]);
            OneOpenPerKey(s) ==>
              (OneOpenPerKey(grown) <==> !(inc.open && inc.shape.Detected? && HasOpenShape(s, inc.tenant, inc.shape)))
  {
    var grown, n := s.(incidents := s.incidents + [inc]), |s.incidents|;
    assert grown.incidents[n] == inc && forall i :: 0 <= i < n ==> grown.incidents[i] == s.incidents[i];
    if inc.open && inc.shape.Detected? && HasOpenShape(s, inc.tenant, inc.shape) {
      var i :| 0 <= i < n && IsOpenShape(s.incidents[i], inc.tenant, inc.shape);
      assert IsOpenShape(grown.incidents[n], grown.incidents[i].tenant, grown.incidents[i].shape);
    }
  }

  lemma MarkingKeepsOneOpen(s: State, s': State)
    requires OnlyMarked(s.incidents, s'.incidents)
    ensures OneOpenPerMonitor(s) ==> OneOpenPerMonitor(s')
    ensures OneOpenPerKey(s) ==> OneOpenPerKey(s')
  {
  }

  lemma OtherStepsOnlyMark(y: System, e: Step)
    requires Enabled(y, e) && !e.Insert?
    ensures OnlyMarked(y.s.incidents, Next(y, e).s.incidents)
  {
  }

  /** The laws are broken by exactly one kind of step: an insert onto an open incident. */
  lemma StepKeepsOneOpen(y: System, e: Step)
    requires Enabled(y, e)
    ensures OneOpenPerMonitor(y.s) ==> (OneOpenPerMonitor(Next(y, e).s) <==> !LandsOnOpenMonitor(y, e))
    ensures OneOpenPerKey(y.s) ==> (OneOpenPerKey(Next(y, e).s) <==> !LandsOnOpenKey(y, e))
  {
    hide OneOpenPerMonitor, OneOpenPerKey, HasOpen, HasOpenShape, OnlyMarked;
    if e.Insert? {
      GrownBreaksIff(y.s, y.tasks[e.task].inc);
      GrownBreaksKeyIff(y.s, y.tasks[e.task].inc);
    } else {
      OtherStepsOnlyMark(y, e);
      MarkingKeepsOneOpen(y.s, Next(y, e).s);
    }
  }

  /** Over every run: at most one open incident per monitor all along, exactly if no insert landed on an open one. */
  lemma {:induction false} OneOpenPerMonitorIff(states: seq<System>, steps: seq<Step>, n: nat)
    requires IsRun(states, steps) && IsStart(states[0]) && n < |states|
    ensures (forall i :: 0 <= i <= n ==> OneOpenPerMonitor(states[i].s))
            <==> (forall k :: 0 <= k < n ==> !LandsOnOpenMonitor(states[k], steps[k]))
    decreases n
  {
    if n > 0 {
      hide LandsOnOpenMonitor, OneOpenPerMonitor;
      OneOpenPerMonitorIff(states, steps, n - 1);
      StepKeepsOneOpen(states[n - 1], steps[n - 1]);
      assert OneOpenPerMonitor(states[n - 1].s) ==>
          (OneOpenPerMonitor(states[n].s) <==> !LandsOnOpenMonitor(states[n - 1], steps[n - 1]));
    }
  }

  /** And at most one per detector key. */
  lemma {:induction false} OneOpenPerKeyIff(states: seq<System>, steps: seq<Step>, n: nat)
    requires IsRun(states, steps) && IsStart(states[0]) && n < |states|
    ensures (forall i :: 0 <= i <= n ==> OneOpenPerKey(states[i].s))
            <==> (forall k :: 0 <= k < n ==> !LandsOnOpenKey(states[k], steps[k]))
    decreases n
  {
    if n > 0 {
      hide LandsOnOpenKey, OneOpenPerKey;
      OneOpenPerKeyIff(states, steps, n - 1);
      StepKeepsOneOpen(states[n - 1], steps[n - 1]);
      assert OneOpenPerKey(states[n - 1].s) ==>
          (OneOpenPerKey(states[n].s) <==> !LandsOnOpenKey(states[n - 1], steps[n - 1]));
    }
  }

  // ----- opens that do not overlap -----

  /** Two incidents of which only one may be open. */
  predicate Rivals(a: Incident, b: Incident) {
    (a.monitor.Some? && a.monitor == b.monitor)
    || (a.shape.Detected? && a.tenant == b.tenant && a.shape == b.shape)
  }

  /** An opener looks while another has looked and not yet inserted. */
  predicate Overlaps(y: System, e: Step) {
    e.Look? && Asked(y.s, e.ask).Some?
    && exists o :: o in y.tasks && y.tasks[o].Clear? && Rivals(y.tasks[o].inc, Asked(y.s, e.ask).value)
  }

  /** The only detector there is opens without a monitor (back/internal/detect/detect.go:182). */
  predicate DetectsWithoutMonitor(e: Step) {
    e.Look? && e.ask.Detection? ==> e.ask.on.None?
  }

  /** No open incident rivals this one. */
  predicate Unrivalled(s: State, inc: Incident) {
    forall i :: 0 <= i < |s.incidents| && s.incidents[i].open ==> !Rivals(s.incidents[i], inc)
  }

  ghost predicate WellAsked(y: System) {
    (forall o :: o in y.tasks && y.tasks[o].Clear? ==> WellShaped(y.tasks[o].inc))
    && forall i :: 0 <= i < |y.s.incidents| ==> WellShaped(y.s.incidents[i])
  }

  /** An outage carries its monitor, a detection none. */
  predicate WellShaped(inc: Incident) {
    inc.monitor == if inc.shape.Availability? then Some(inc.shape.monitor) else None
  }

  lemma StepKeepsWellAsked(y: System, e: Step)
    requires Enabled(y, e) && WellAsked(y) && DetectsWithoutMonitor(e)
    ensures WellAsked(Next(y, e))
  {
    if !e.Insert? {
      OtherStepsOnlyMark(y, e);
    }
  }

  lemma AskedIsUnrivalled(y: System, ask: Ask)
    requires WellAsked(y) && Asked(y.s, ask).Some? && (ask.Detection? ==> ask.on.None?)
    ensures WellShaped(Asked(y.s, ask).value) && Unrivalled(y.s, Asked(y.s, ask).value)
  {
    var inc := Asked(y.s, ask).value;
    forall i | 0 <= i < |y.s.incidents| && y.s.incidents[i].open ensures !Rivals(y.s.incidents[i], inc) {
      assert WellShaped(y.s.incidents[i]);
      if ask.Outage? {
        assert !IsOpenFor(y.s.incidents[i], ask.monitor);
      } else {
        assert !IsOpenShape(y.s.incidents[i], ask.tenant, Detected(ask.key));
      }
    }
  }

  predicate NobodyElse(y: System) {
    forall o, p :: o in y.tasks && p in y.tasks && o != p && y.tasks[o].Clear? && y.tasks[p].Clear? ==>
      !Rivals(y.tasks[o].inc, y.tasks[p].inc)
  }

  predicate AllUnrivalled(y: System) {
    forall o :: o in y.tasks && y.tasks[o].Clear? ==> Unrivalled(y.s, y.tasks[o].inc)
  }

  lemma StepKeepsClear(y: System, e: Step)
    requires Enabled(y, e) && WellAsked(y) && DetectsWithoutMonitor(e) && !Overlaps(y, e)
    requires AllUnrivalled(y) && NobodyElse(y)
    ensures AllUnrivalled(Next(y, e)) && NobodyElse(Next(y, e))
  {
    var y' := Next(y, e);
    if e.Insert? {
      InsertKeepsClear(y, e);
    } else if e.Look? {
      if Asked(y.s, e.ask).Some? {
        AskedIsUnrivalled(y, e.ask);
        forall o | o in y.tasks && y.tasks[o].Clear?
          ensures !Rivals(y.tasks[o].inc, Asked(y.s, e.ask).value) && !Rivals(Asked(y.s, e.ask).value, y.tasks[o].inc)
        {
        }
      }
    } else {
      OtherStepsOnlyMark(y, e);
      forall o | o in y'.tasks && y'.tasks[o].Clear? ensures Unrivalled(y'.s, y'.tasks[o].inc) {
        assert Unrivalled(y.s, y.tasks[o].inc);
      }
    }
  }

  lemma InsertKeepsClear(y: System, e: Step)
    requires Enabled(y, e) && e.Insert? && AllUnrivalled(y) && NobodyElse(y)
    ensures AllUnrivalled(Next(y, e)) && NobodyElse(Next(y, e))
  {
    var y' := Next(y, e);
    var inc := y.tasks[e.task].inc;
    forall o | o in y'.tasks && y'.tasks[o].Clear? ensures Unrivalled(y'.s, y'.tasks[o].inc) {
      assert o != e.task && y'.tasks[o] == y.tasks[o];
      assert Unrivalled(y.s, y.tasks[o].inc) && !Rivals(inc, y.tasks[o].inc);
    }
  }

  lemma ClearLandsOnNothing(y: System, e: Step)
    requires AllUnrivalled(y)
    ensures !LandsOnOpenMonitor(y, e) && !LandsOnOpenKey(y, e)
  {
    if e.Insert? && e.task in y.tasks && y.tasks[e.task].Clear? {
      var inc := y.tasks[e.task].inc;
      assert Unrivalled(y.s, inc);
      assert inc.monitor.Some? ==> !HasOpen(y.s, inc.monitor.value);
      assert inc.shape.Detected? ==> !HasOpenShape(y.s, inc.tenant, inc.shape);
    }
  }

  lemma {:induction false} UnoverlappedStaysClear(states: seq<System>, steps: seq<Step>, n: nat)
    requires IsRun(states, steps) && IsStart(states[0]) && n < |states|
    requires forall k :: 0 <= k < n ==> DetectsWithoutMonitor(steps[k]) && !Overlaps(states[k], steps[k])
    ensures WellAsked(states[n]) && AllUnrivalled(states[n]) && NobodyElse(states[n])
    decreases n
  {
    if n > 0 {
      UnoverlappedStaysClear(states, steps, n - 1);
      StepKeepsWellAsked(states[n - 1], steps[n - 1]);
      StepKeepsClear(states[n - 1], steps[n - 1]);
    }
  }

  /** Where no opener looks while a rival has looked and not yet inserted, both laws hold all along. */
  lemma UnoverlappedOpensKeepTheLaws(states: seq<System>, steps: seq<Step>, n: nat)
    requires IsRun(states, steps) && IsStart(states[0]) && n < |states|
    requires forall k :: 0 <= k < n ==> DetectsWithoutMonitor(steps[k]) && !Overlaps(states[k], steps[k])
    ensures OneOpenPerMonitor(states[n].s) && OneOpenPerKey(states[n].s)
  {
    forall k | 0 <= k < n ensures !LandsOnOpenMonitor(states[k], steps[k]) && !LandsOnOpenKey(states[k], steps[k]) {
      UnoverlappedStaysClear(states, steps, k);
      ClearLandsOnNothing(states[k], steps[k]);
    }
    OneOpenPerMonitorIff(states, steps, n);
    OneOpenPerKeyIff(states, steps, n);
  }

  // ----- the queue -----

  /** Whatever the interleaving, no row is ever doubled and none is lost. */
  lemma StepKeepsRowsDistinct(y: System, e: Step)
    requires Enabled(y, e)
    ensures y.s.queue <= Next(y, e).s.queue
    ensures DistinctRows(y.s.queue) ==> DistinctRows(Next(y, e).s.queue)
  {
  }

  lemma {:induction false} RunsKeepRowsDistinct(states: seq<System>, steps: seq<Step>, n: nat)
    requires IsRun(states, steps) && IsStart(states[0]) && n < |states|
    ensures DistinctRows(states[n].s.queue)
    decreases n
  {
    if n > 0 {
      RunsKeepRowsDistinct(states, steps, n - 1);
      StepKeepsRowsDistinct(states[n - 1], steps[n - 1]);
    }
  }

  /** A row is only ever added by an enqueue, for the incident and the audience its task read. */
  lemma StepEnqueuesRightly(y: System, e: Step, row: Delivery)
    requires Enabled(y, e) && row in Next(y, e).s.queue && row !in y.s.queue
    ensures e.EnqueueNext? && row.incident == y.tasks[e.task].incident
    ensures HeardBy(y.tasks[e.task].aud, y.s.incidents[row.incident].shape, row.channel)
  {
    if e.EnqueueNext? {
      var t := y.tasks[e.task];
      var d := t.aud.chans[t.next];
      assert Hears(t.aud, y.s.incidents[t.incident].shape, d);
    }
  }

  /** Where a task that is paging read the freeze, and did nothing else since but page. */
  ghost predicate ReadAt(states: seq<System>, steps: seq<Step>, n: nat, o: nat, r: nat)
    requires IsRun(states, steps) && n < |states| && o in states[n].tasks && states[n].tasks[o].Paging?
  {
    var t := states[n].tasks[o];
    r < n && steps[r] == ReadFreeze(o, t.aud) && t.incident < |states[r].s.incidents| <= |states[n].s.incidents|
    && states[r].s.incidents[t.incident].project == states[n].s.incidents[t.incident].project
    && states[r].s.incidents[t.incident].project !in states[r].s.frozen
  }

  lemma ProjectsStay(y: System, e: Step)
    requires Enabled(y, e)
    ensures |y.s.incidents| <= |Next(y, e).s.incidents|
    ensures forall i :: 0 <= i < |y.s.incidents| ==> Next(y, e).s.incidents[i].project == y.s.incidents[i].project
  {
  }

  /** A task that is paging has just read the freeze as lifted, or was paging the same incident before. */
  lemma PagingComesFrom(y: System, e: Step, o: nat)
    requires Enabled(y, e) && o in Next(y, e).tasks && Next(y, e).tasks[o].Paging?
    ensures var t := Next(y, e).tasks[o];
            if e.ReadFreeze? && e.task == o
            then e.aud == t.aud && t.incident < |y.s.incidents| && y.s.incidents[t.incident].project !in y.s.frozen
            else o in y.tasks && y.tasks[o].Paging? && y.tasks[o].incident == t.incident && y.tasks[o].aud == t.aud
  {
  }

  lemma {:induction false} PagingHasRead(states: seq<System>, steps: seq<Step>, n: nat, o: nat) returns (r: nat)
    requires IsRun(states, steps) && IsStart(states[0]) && n < |states|
    requires o in states[n].tasks && states[n].tasks[o].Paging?
    ensures ReadAt(states, steps, n, o, r)
    decreases n
  {
    assert n > 0;
    assert Enabled(states[n - 1], steps[n - 1]) && states[n] == Next(states[n - 1], steps[n - 1]);
    hide Next, Enabled;
    ProjectsStay(states[n - 1], steps[n - 1]);
    PagingComesFrom(states[n - 1], steps[n - 1], o);
    if steps[n - 1].ReadFreeze? && steps[n - 1].task == o {
      r := n - 1;
    } else {
      r := PagingHasRead(states, steps, n - 1, o);
    }
  }

  lemma {:induction false} FreezeBetween(states: seq<System>, steps: seq<Step>, r: nat, n: nat, p: nat) returns (j: nat)
    requires IsRun(states, steps) && r <= n < |states|
    requires p !in states[r].s.frozen && p in states[n].s.frozen
    ensures r <= j < n && steps[j] == FreezeProject(p)
    decreases n
  {
    if p in states[n - 1].s.frozen {
      j := FreezeBetween(states, steps, r, n - 1, p);
    } else {
      j := n - 1;
    }
  }

  /** A page is added for a frozen project only if the freeze fell between its task's one read of it and the page. */
  lemma PageWhileFrozenMeansAFreezeBetween(states: seq<System>, steps: seq<Step>, n: nat, row: Delivery)
    returns (r: nat, j: nat)
    requires IsRun(states, steps) && IsStart(states[0]) && n < |steps|
    requires row in states[n + 1].s.queue && row !in states[n].s.queue
    requires row.incident < |states[n].s.incidents| && states[n].s.incidents[row.incident].project in states[n].s.frozen
    ensures r < j < n && steps[j] == FreezeProject(states[n].s.incidents[row.incident].project)
    ensures steps[n].EnqueueNext? && steps[r].ReadFreeze? && steps[r].task == steps[n].task
  {
    StepEnqueuesRightly(states[n], steps[n], row);
    r := PagingHasRead(states, steps, n, steps[n].task);
    j := FreezeBetween(states, steps, r, n, states[n].s.incidents[row.incident].project);
    assert states[r + 1] == Next(states[r], steps[r]);
  }
}

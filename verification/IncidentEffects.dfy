/**
 What each event of the lifecycle leaves, field by field, and who is paged, said of the
 destinations' settings (back/internal/incident/incident.go:91-278, 340-376, 411-524,
 back/gen/pg/incident.sql.go:55-90).
 */
module IncidentEffects {
  import opened Outcomes
  import Seats
  import opened Incidents
  import opened Thaws
  import opened IncidentRuns

  // ----- who is paged -----

  /** A destination hears of what its own setting asks for, unless the plan has no seat for its Telegram. */
  lemma HearsIs(aud: Audience, shape: Shape, d: Destination)
    ensures Hears(aud, shape, d) <==>
              (shape.Availability? ==> d.websiteDown) && (shape.Detected? ==> d.errors)
              && (d.seat.telegram && aud.seats.Some? ==>
                    Seats.Delivered(SeatRows(aud), aud.seats.value.0, aud.seats.value.1, d.seat))
  {
  }

  /** The page goes to those who hear, the follow-up to those of a paying project who asked for it, for outages. */
  predicate IsDue(aud: Audience, shape: Shape, d: Destination, topic: Topic) {
    Hears(aud, shape, d) && (topic == FollowUp ==> shape.Availability? && d.followUp && aud.paid)
  }

  predicate DueAmong(aud: Audience, shape: Shape, n: nat, channel: int, topic: Topic)
    requires n <= |aud.chans|
  {
    exists i :: 0 <= i < n && aud.chans[i].seat.id == channel && IsDue(aud, shape, aud.chans[i], topic)
  }

  predicate Due(aud: Audience, shape: Shape, channel: int, topic: Topic) {
    DueAmong(aud, shape, |aud.chans|, channel, topic)
  }

  lemma EnqueueForIs(queue: seq<Delivery>, incident: nat, shape: Shape, aud: Audience, d: Destination, row: Delivery)
    ensures row in EnqueueFor(queue, incident, shape, aud, d) <==>
              row in queue
              || (row.incident == incident && row.channel == d.seat.id && IsDue(aud, shape, d, row.topic))
  {
  }

  lemma {:induction false} EnqueueAllIs(queue: seq<Delivery>, incident: nat, shape: Shape, aud: Audience, n: nat,
                                        row: Delivery)
    requires n <= |aud.chans|
    ensures row in EnqueueAll(queue, incident, shape, aud, n) <==>
              row in queue || (row.incident == incident && DueAmong(aud, shape, n, row.channel, row.topic))
    decreases n
  {
    if n > 0 {
      hide EnqueueFor;
      var before := EnqueueAll(queue, incident, shape, aud, n - 1);
      EnqueueAllIs(queue, incident, shape, aud, n - 1, row);
      EnqueueForIs(before, incident, shape, aud, aud.chans[n - 1], row);
      assert DueAmong(aud, shape, n, row.channel, row.topic) <==>
          DueAmong(aud, shape, n - 1, row.channel, row.topic)
          || (aud.chans[n - 1].seat.id == row.channel && IsDue(aud, shape, aud.chans[n - 1], row.topic));
    }
  }

  /** Nothing but whether some incidents count as notified. */
  predicate OnlyNotified(s: State, s': State) {
    s'.monitors == s.monitors && s'.frozen == s.frozen && |s'.incidents| == |s.incidents|
    && forall i :: 0 <= i < |s.incidents| ==> s'.incidents[i].(notified := s.incidents[i].notified) == s.incidents[i]
  }

  predicate SomeoneHears(aud: Audience, shape: Shape) {
    exists i :: 0 <= i < |aud.chans| && Hears(aud, shape, aud.chans[i])
  }

  /** One notification adds exactly the rows that are due, and none for a frozen project. */
  lemma NotifiedIs(s: State, incident: nat, aud: Audience, row: Delivery)
    requires incident < |s.incidents|
    ensures var s', inc := Notified(s, incident, aud), s.incidents[incident];
            var live := inc.project !in s.frozen;
            OnlyNotified(s, s')
            && (row in s'.queue <==>
                  row in s.queue || (live && row.incident == incident && Due(aud, inc.shape, row.channel, row.topic)))
            && forall i :: 0 <= i < |s.incidents| ==>
                 (s'.incidents[i].notified <==>
                    s.incidents[i].notified || (live && i == incident && SomeoneHears(aud, inc.shape)))
  {
    EnqueueAllIs(s.queue, incident, s.incidents[incident].shape, aud, |aud.chans|, row);
  }

  // ----- a thaw -----

  /** Recorded and never told of: an open outage of the project, of a monitor that is still there. */
  predicate Awaits(s: State, i: nat, project: nat) {
    i < |s.incidents| && var inc := s.incidents[i];
    inc.project == project && inc.open && !inc.notified && inc.shape.Availability?
    && inc.monitor.Some? && inc.monitor.value in s.monitors
  }

  lemma {:induction false} ThawedUpToIs(s: State, project: nat, aud: Audience, n: nat, row: Delivery)
    requires n <= |s.incidents|
    ensures var s', live := ThawedUpTo(s, project, aud, n), project !in s.frozen;
            OnlyNotified(s, s')
            && (row in s'.queue <==>
                  row in s.queue
                  || (live && row.incident < n && Awaits(s, row.incident, project)
                      && Due(aud, s.incidents[row.incident].shape, row.channel, row.topic)))
            && forall i :: 0 <= i < |s.incidents| ==>
                 (s'.incidents[i].notified <==>
                    s.incidents[i].notified
                    || (live && i < n && Awaits(s, i, project) && SomeoneHears(aud, s.incidents[i].shape)))
    decreases n
  {
    if n > 0 {
      hide Notified, Due, SomeoneHears;
      ThawedUpToIs(s, project, aud, n - 1, row);
      var before := ThawedUpTo(s, project, aud, n - 1);
      assert Undelivered(s, s.incidents[n - 1], project) <==> Awaits(s, n - 1, project);
      NotifiedIs(before, n - 1, aud, row);
    }
  }

  /** A thaw pages exactly those due for each outage that awaits it, and marks exactly those someone hears of. */
  lemma ThawIs(s: State, project: nat, aud: Audience, row: Delivery)
    ensures var s', live := Incidents.Next(s, NotifyThawed(project, aud)), project !in s.frozen;
            OnlyNotified(s, s')
            && (row in s'.queue <==>
                  row in s.queue
                  || (live && Awaits(s, row.incident, project)
                      && Due(aud, s.incidents[row.incident].shape, row.channel, row.topic)))
            && forall i :: 0 <= i < |s.incidents| ==>
                 (s'.incidents[i].notified <==>
                    s.incidents[i].notified
                    || (live && Awaits(s, i, project) && SomeoneHears(aud, s.incidents[i].shape)))
  {
    ThawedUpToIs(s, project, aud, |s.incidents|, row);
  }

  // ----- opening and closing -----

  /** One incident more, at the end, and pages for no other. */
  predicate Opened(s: State, s': State, inc: Incident, aud: Audience) {
    s'.monitors == s.monitors && s'.frozen == s.frozen && |s'.incidents| == |s.incidents| + 1
    && s'.incidents[..|s.incidents|] == s.incidents
    && s'.incidents[|s.incidents|] == inc.(notified := inc.project !in s.frozen && SomeoneHears(aud, inc.shape))
  }

  lemma OpenedIs(s: State, inc: Incident, aud: Audience, row: Delivery)
    requires !inc.notified
    ensures var s' := Notified(s.(incidents := s.incidents + [inc]), |s.incidents|, aud);
            Opened(s, s', inc, aud)
            && (row in s'.queue <==>
                  row in s.queue || (inc.project !in s.frozen && row.incident == |s.incidents|
                                     && Due(aud, inc.shape, row.channel, row.topic)))
  {
    hide Due, SomeoneHears;
    var grown := s.(incidents := s.incidents + [inc]);
    var s' := Notified(grown, |s.incidents|, aud);
    NotifiedIs(grown, |s.incidents|, aud, row);
    forall i | 0 <= i < |s.incidents| ensures s'.incidents[i] == s.incidents[i] {
      assert grown.incidents[i] == s.incidents[i];
    }
  }

  /** An outage is opened unless its monitor is gone or has one open, and everyone due is paged for it. */
  lemma OpenIs(s: State, m: nat, aud: Audience, row: Delivery)
    ensures var s' := Incidents.Next(s, Event.Open(m, aud));
            if m !in s.monitors || exists i :: 0 <= i < |s.incidents| && s.incidents[i].open
                                               && s.incidents[i].monitor == Some(m)
            then s' == s
            else
              var inc := Incident(s.monitors[m].tenant, s.monitors[m].project, Some(m), Availability(m), true, false);
              Opened(s, s', inc, aud)
              && (row in s'.queue <==>
                    row in s.queue || (inc.project !in s.frozen && row.incident == |s.incidents|
                                       && Due(aud, inc.shape, row.channel, row.topic)))
  {
    hide Opened, Notified, Due;
    if m in s.monitors {
      var inc := Incident(s.monitors[m].tenant, s.monitors[m].project, Some(m), Availability(m), true, false);
      OpenedIs(s, inc, aud, row);
    }
  }

  /** A detection opens once for its tenant's key. */
  lemma DetectIs(s: State, tenant: nat, project: nat, on: Option<nat>, key: nat, aud: Audience, row: Delivery)
    ensures var s' := Incidents.Next(s, Event.OpenDetect(tenant, project, on, key, aud));
            if exists i :: 0 <= i < |s.incidents| && s.incidents[i].open && s.incidents[i].tenant == tenant
                           && s.incidents[i].shape == Detected(key)
            then s' == s
            else
              var inc := Incident(tenant, project, on, Detected(key), true, false);
              Opened(s, s', inc, aud)
              && (row in s'.queue <==>
                    row in s.queue || (project !in s.frozen && row.incident == |s.incidents|
                                       && Due(aud, Detected(key), row.channel, row.topic)))
  {
    hide Opened, Notified, Due;
    OpenedIs(s, Incident(tenant, project, on, Detected(key), true, false), aud, row);
  }

  /** Every incident of the monitor is closed and no other is touched. */
  predicate ClosedOf(s: State, s': State, m: nat) {
    s'.monitors == s.monitors && s'.frozen == s.frozen && s'.queue == s.queue && |s'.incidents| == |s.incidents|
    && forall i :: 0 <= i < |s.incidents| ==>
         s'.incidents[i] == if s.incidents[i].monitor == Some(m) then s.incidents[i].(open := false)
                            else s.incidents[i]
  }

  predicate ClosedKey(s: State, s': State, tenant: nat, shape: Shape) {
    s'.monitors == s.monitors && s'.frozen == s.frozen && s'.queue == s.queue && |s'.incidents| == |s.incidents|
    && forall i :: 0 <= i < |s.incidents| ==>
         s'.incidents[i] == if s.incidents[i].tenant == tenant && s.incidents[i].shape == shape
                            then s.incidents[i].(open := false) else s.incidents[i]
  }

  /** After a close none of the monitor's incidents is open, so the next outage opens a new one. */
  lemma CloseIs(s: State, m: nat)
    ensures ClosedOf(s, Incidents.Next(s, Close(m)), m) && !HasOpen(Incidents.Next(s, Close(m)), m)
  {
  }

  lemma CloseKeyIs(s: State, tenant: nat, shape: Shape)
    ensures var s' := Incidents.Next(s, CloseByFingerprint(tenant, shape));
            ClosedKey(s, s', tenant, shape) && !HasOpenShape(s', tenant, shape)
  {
  }

  lemma FreezeIs(s: State, project: nat, other: nat)
    ensures other in Incidents.Next(s, Freeze(project)).frozen <==> other in s.frozen || other == project
    ensures other in Incidents.Next(s, Thaw(project)).frozen <==> other in s.frozen && other != project
    ensures Incidents.Next(s, Freeze(project)).(frozen := s.frozen) == s
    ensures Incidents.Next(s, Thaw(project)).(frozen := s.frozen) == s
  {
  }

  /** In any interleaving a project is frozen from its freeze to its thaw. */
  lemma StepsFreezeAndThaw(y: System, e: Step, project: nat)
    requires Enabled(y, e)
    ensures project in IncidentRuns.Next(y, e).s.frozen <==>
              e == FreezeProject(project) || (project in y.s.frozen && e != ThawProject(project))
  {
  }

  /**
   In any interleaving an incident is closed only by a close of its own monitor or key, opened
   only by its insert, and the close leaves none of that monitor or key open.
   */
  lemma StepsOpenAndClose(y: System, e: Step, i: nat)
    requires Enabled(y, e) && i < |IncidentRuns.Next(y, e).s.incidents|
    ensures var s, s' := y.s, IncidentRuns.Next(y, e).s;
            (e.CloseMonitor? ==> ClosedOf(s, s', e.monitor) && !HasOpen(s', e.monitor))
            && (e.CloseKey? ==> ClosedKey(s, s', e.tenant, e.shape) && !HasOpenShape(s', e.tenant, e.shape))
            && (i < |s.incidents| && s.incidents[i].open && !s'.incidents[i].open ==>
                  (e.CloseMonitor? && s.incidents[i].monitor == Some(e.monitor))
                  || (e.CloseKey? && s.incidents[i].tenant == e.tenant && s.incidents[i].shape == e.shape))
            && (s'.incidents[i].open && (i < |s.incidents| ==> !s.incidents[i].open) ==>
                  e.Insert? && i == |s.incidents| && s'.incidents[i] == y.tasks[e.task].inc)
  {
    if e.CloseMonitor? {
      CloseIs(y.s, e.monitor);
    } else if e.CloseKey? {
      CloseKeyIs(y.s, e.tenant, e.shape);
    }
  }
}

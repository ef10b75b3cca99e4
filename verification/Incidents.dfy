/**
 The incident lifecycle and the pages it enqueues (back/internal/incident/incident.go,
 back/gen/pg/incident.sql.go, back/gen/pg/detect.sql.go, and the idempotent insert in
 back/gen/pg/delivery.sql.go:14-30).
 */
module Incidents {
  import opened Outcomes
  import Seats

  /** What an incident is keyed by.  The two hashes are taken as injective. */
  datatype Shape = Availability(monitor: nat) | Detected(key: nat)

  datatype Incident = Incident(
    tenant: nat, project: nat, monitor: Option<nat>, shape: Shape, open: bool, notified: bool)

  datatype Monitor = Monitor(tenant: nat, project: nat)

  datatype Topic = Page | FollowUp

  /** The idempotency key: incident, channel, and which of the two messages. */
  datatype Delivery = Delivery(incident: nat, channel: int, topic: Topic)

  /** A destination of the project with its resolved settings. */
  datatype Destination = Destination(seat: Seats.Channel, websiteDown: bool, errors: bool, followUp: bool)

  /** Who hears of a project's incidents at one moment: channels, the plan's seats (None when unread), paid or not. */
  datatype Audience = Audience(chans: seq<Destination>, seats: Option<(int, bool)>, paid: bool)

  /** Incidents are numbered by insertion, so an incident's id is its index. */
  datatype State = State(
    monitors: map<nat, Monitor>, frozen: set<nat>, incidents: seq<Incident>, queue: seq<Delivery>)

  // ----- notifying -----

  function SeatRows(aud: Audience): seq<Seats.Channel> {
    seq(|aud.chans|, i requires 0 <= i < |aud.chans| => aud.chans[i].seat)
  }

  /** The plan silences this destination. */
  predicate MutedByPlan(aud: Audience, d: Destination) {
    aud.seats.Some? && d.seat.telegram
    && !Seats.Delivered(SeatRows(aud), aud.seats.value.0, aud.seats.value.1, d.seat)
  }

  /** Availability incidents ask one setting, detections another. */
  predicate Wants(shape: Shape, d: Destination) {
    if shape.Availability? then d.websiteDown else d.errors
  }

  predicate Hears(aud: Audience, shape: Shape, d: Destination) {
    !MutedByPlan(aud, d) && Wants(shape, d)
  }

  /** ON CONFLICT (idem_key) DO NOTHING. */
  function Enqueue(queue: seq<Delivery>, row: Delivery): seq<Delivery> {
    if row in queue then queue else queue + [row]
  }

  function EnqueueFor(queue: seq<Delivery>, incident: nat, shape: Shape, aud: Audience, d: Destination): seq<Delivery> {
    if !Hears(aud, shape, d) then queue
    else
      var paged := Enqueue(queue, Delivery(incident, d.seat.id, Page));
      if shape.Availability? && d.followUp && aud.paid then Enqueue(paged, Delivery(incident, d.seat.id, FollowUp))
      else paged
  }

  function EnqueueAll(queue: seq<Delivery>, incident: nat, shape: Shape, aud: Audience, n: nat): seq<Delivery>
    requires n <= |aud.chans|
  {
    if n == 0 then queue
    else EnqueueFor(EnqueueAll(queue, incident, shape, aud, n - 1), incident, shape, aud, aud.chans[n - 1])
  }

  predicate AnyoneHears(aud: Audience, shape: Shape, n: nat)
    requires n <= |aud.chans|
  {
    exists i :: 0 <= i < n && Hears(aud, shape, aud.chans[i])
  }

  function Notified(s: State, incident: nat, aud: Audience): State
    requires incident < |s.incidents|
  {
    var inc := s.incidents[incident];
    if inc.project in s.frozen then s
    else
      s.(queue := EnqueueAll(s.queue, incident, inc.shape, aud, |aud.chans|),
         incidents := if AnyoneHears(aud, inc.shape, |aud.chans|)
                      then s.incidents[incident := inc.(notified := true)] else s.incidents)
  }

  // ----- the events -----

  predicate IsOpenFor(inc: Incident, monitor: nat) {
    inc.open && inc.monitor == Some(monitor)
  }

  predicate HasOpen(s: State, monitor: nat) {
    exists i :: 0 <= i < |s.incidents| && IsOpenFor(s.incidents[i], monitor)
  }

  predicate IsOpenShape(inc: Incident, tenant: nat, shape: Shape) {
    inc.open && inc.tenant == tenant && inc.shape == shape
  }

  predicate HasOpenShape(s: State, tenant: nat, shape: Shape) {
    exists i :: 0 <= i < |s.incidents| && IsOpenShape(s.incidents[i], tenant, shape)
  }

  datatype Event =
    | Open(monitor: nat, aud: Audience)
    | OpenDetect(tenant: nat, project: nat, on: Option<nat>, key: nat, aud: Audience)
    | Close(monitor: nat)
    | CloseByFingerprint(tenant: nat, shape: Shape)
    | Freeze(project: nat)
    | Thaw(project: nat)
    | NotifyThawed(project: nat, aud: Audience)

  /** What ListUndeliveredOpenIncidents returns for a project. */
  predicate Undelivered(s: State, inc: Incident, project: nat) {
    inc.project == project && inc.open && !inc.notified && inc.shape.Availability?
    && inc.monitor.Some? && inc.monitor.value in s.monitors
  }

  /** The undelivered incidents among the first `n`, notified one after the other. */
  function ThawedUpTo(s: State, project: nat, aud: Audience, n: nat): (s': State)
    requires n <= |s.incidents|
    ensures |s'.incidents| == |s.incidents|
  {
    if n == 0 then s
    else
      var before := ThawedUpTo(s, project, aud, n - 1);
      if Undelivered(s, s.incidents[n - 1], project) then Notified(before, n - 1, aud) else before
  }

  function Closed(inc: Incident): Incident {
    inc.(open := false)
  }

  function Next(s: State, e: Event): State {
    match e
    case Open(m, aud) =>
      if HasOpen(s, m) || m !in s.monitors then s
      else
        var inc := Incident(s.monitors[m].tenant, s.monitors[m].project, Some(m), Availability(m), true, false);
        Notified(s.(incidents := s.incidents + [inc]), |s.incidents|, aud)
    case OpenDetect(tenant, project, on, key, aud) =>
      if HasOpenShape(s, tenant, Detected(key)) then s
      else
        var inc := Incident(tenant, project, on, Detected(key), true, false);
        Notified(s.(incidents := s.incidents + [inc]), |s.incidents|, aud)
    case Close(m) =>
      s.(incidents := seq(|s.incidents|, i requires 0 <= i < |s.incidents| =>
           if IsOpenFor(s.incidents[i], m) then Closed(s.incidents[i]) else s.incidents[i]))
    case CloseByFingerprint(tenant, shape) =>
      s.(incidents := seq(|s.incidents|, i requires 0 <= i < |s.incidents| =>
           if IsOpenShape(s.incidents[i], tenant, shape) then Closed(s.incidents[i]) else s.incidents[i]))
    case Freeze(p) => s.(frozen := s.frozen + {p})
    case Thaw(p) => s.(frozen := s.frozen - {p})
    case NotifyThawed(p, aud) => ThawedUpTo(s, p, aud, |s.incidents|)
  }

  // ----- the code that works step by step -----

  class Lifecycle {
    var monitors: map<nat, Monitor>
    var frozen: set<nat>
    var incidents: seq<Incident>
    var queue: seq<Delivery>

    ghost function Now(): State
      reads this
    {
      State(monitors, frozen, incidents, queue)
    }

    constructor (monitors: map<nat, Monitor>)
      ensures Now() == State(monitors, {}, [], [])
    {
      this.monitors, frozen, incidents, queue := monitors, {}, [], [];
    }

    method NotifyChannels(incident: nat, aud: Audience)
      requires incident < |incidents|
      modifies this`queue, this`incidents
      ensures Now() == Notified(old(Now()), incident, aud)
    {
      var inc := incidents[incident];
      if inc.project in frozen {
        return;
      }
      var sent := 0;
      var n := 0;
      while n < |aud.chans|
        invariant 0 <= n <= |aud.chans|
        invariant queue == EnqueueAll(old(queue), incident, inc.shape, aud, n)
        invariant sent > 0 <==> AnyoneHears(aud, inc.shape, n)
        invariant incidents == old(incidents)
      {
        var d := aud.chans[n];
        if !MutedByPlan(aud, d) && Wants(inc.shape, d) {
          var page := Delivery(incident, d.seat.id, Page);
          if page !in queue {
            queue := queue + [page];
          }
          sent := sent + 1;
          if inc.shape.Availability? && d.followUp && aud.paid {
            var followUp := Delivery(incident, d.seat.id, FollowUp);
            if followUp !in queue {
              queue := queue + [followUp];
            }
          }
        }
        n := n + 1;
      }
      if sent > 0 {
        incidents := incidents[incident := inc.(notified := true)];
      }
    }

    method Open(monitor: nat, aud: Audience) returns (created: bool)
      modifies this
      ensures Now() == Next(old(Now()), Event.Open(monitor, aud))
      ensures created <==> |incidents| == |old(incidents)| + 1
    {
      if HasOpen(State(monitors, frozen, incidents, queue), monitor) || monitor !in monitors {
        return false;
      }
      var m := monitors[monitor];
      incidents := incidents + [Incident(m.tenant, m.project, Some(monitor), Availability(monitor), true, false)];
      NotifyChannels(|incidents| - 1, aud);
      return true;
    }

    method OpenDetect(tenant: nat, project: nat, on: Option<nat>, key: nat, aud: Audience) returns (created: bool)
      modifies this
      ensures Now() == Next(old(Now()), Event.OpenDetect(tenant, project, on, key, aud))
      ensures created <==> |incidents| == |old(incidents)| + 1
    {
      if HasOpenShape(State(monitors, frozen, incidents, queue), tenant, Detected(key)) {
        return false;
      }
      incidents := incidents + [Incident(tenant, project, on, Detected(key), true, false)];
      NotifyChannels(|incidents| - 1, aud);
      return true;
    }

    method Close(monitor: nat)
      modifies this`incidents
      ensures Now() == Next(old(Now()), Event.Close(monitor))
    {
      var i := 0;
      while i < |incidents|
        invariant 0 <= i <= |incidents| == |old(incidents)|
        invariant forall k :: 0 <= k < i ==>
                    var inc := old(incidents)[k];
                    incidents[k] == if IsOpenFor(inc, monitor) then Closed(inc) else inc
        invariant forall k :: i <= k < |incidents| ==> incidents[k] == old(incidents)[k]
      {
        if IsOpenFor(incidents[i], monitor) {
          incidents := incidents[i := Closed(incidents[i])];
        }
        i := i + 1;
      }
    }

    method CloseByFingerprint(tenant: nat, shape: Shape)
      modifies this`incidents
      ensures Now() == Next(old(Now()), Event.CloseByFingerprint(tenant, shape))
    {
      var i := 0;
      while i < |incidents|
        invariant 0 <= i <= |incidents| == |old(incidents)|
        invariant forall k :: 0 <= k < i ==>
                    var inc := old(incidents)[k];
                    incidents[k] == if IsOpenShape(inc, tenant, shape) then Closed(inc) else inc
        invariant forall k :: i <= k < |incidents| ==> incidents[k] == old(incidents)[k]
      {
        if IsOpenShape(incidents[i], tenant, shape) {
          incidents := incidents[i := Closed(incidents[i])];
        }
        i := i + 1;
      }
    }

    method NotifyThawed(project: nat, aud: Audience)
      modifies this`queue, this`incidents
      ensures Now() == Next(old(Now()), Event.NotifyThawed(project, aud))
    {
      var rows := incidents;
      var n := 0;
      while n < |rows|
        invariant 0 <= n <= |rows| == |incidents|
        invariant Now() == ThawedUpTo(old(Now()), project, aud, n)
        invariant rows == old(incidents) && monitors == old(monitors)
      {
        var r := rows[n];
        if r.project == project && r.open && !r.notified && r.shape.Availability?
           && r.monitor.Some? && r.monitor.value in monitors {
          NotifyChannels(n, aud);
        }
        n := n + 1;
      }
    }
  }

  // ----- one notification -----

  predicate HasPage(queue: seq<Delivery>, incident: nat, channel: int) {
    Delivery(incident, channel, Page) in queue
  }

  predicate DistinctRows(queue: seq<Delivery>) {
    forall i, j :: 0 <= i < j < |queue| ==> queue[i] != queue[j]
  }

  /** Every new row is for this incident, to a destination that hears of it; old rows stay first. */
  lemma {:induction false} EnqueueAllAdds(queue: seq<Delivery>, incident: nat, shape: Shape, aud: Audience, n: nat)
    requires n <= |aud.chans|
    ensures var q := EnqueueAll(queue, incident, shape, aud, n);
            queue <= q
            && (DistinctRows(queue) ==> DistinctRows(q))
            && (forall k :: |queue| <= k < |q| ==> q[k].incident == incident && HeardBy(aud, shape, q[k].channel))
            && (forall i :: 0 <= i < n && Hears(aud, shape, aud.chans[i]) ==>
                  HasPage(q, incident, aud.chans[i].seat.id))
    decreases n
  {
    if n > 0 {
      EnqueueAllAdds(queue, incident, shape, aud, n - 1);
      var before := EnqueueAll(queue, incident, shape, aud, n - 1);
      var d := aud.chans[n - 1];
      if Hears(aud, shape, d) {
        assert HeardBy(aud, shape, d.seat.id);
      }
      assert before <= EnqueueAll(queue, incident, shape, aud, n);
    }
  }

  predicate HeardBy(aud: Audience, shape: Shape, channel: int) {
    exists i :: 0 <= i < |aud.chans| && aud.chans[i].seat.id == channel && Hears(aud, shape, aud.chans[i])
  }

  /** Everyone who hears already has their rows: enqueueing again adds nothing. */
  predicate Complete(queue: seq<Delivery>, incident: nat, shape: Shape, aud: Audience) {
    forall i :: 0 <= i < |aud.chans| ==> EnqueueFor(queue, incident, shape, aud, aud.chans[i]) == queue
  }

  lemma {:induction false} CompleteStays(queue: seq<Delivery>, incident: nat, shape: Shape, aud: Audience, n: nat)
    requires Complete(queue, incident, shape, aud) && n <= |aud.chans|
    ensures EnqueueAll(queue, incident, shape, aud, n) == queue
    decreases n
  {
    if n > 0 {
      CompleteStays(queue, incident, shape, aud, n - 1);
    }
  }

  lemma {:induction false} EnqueueAllCompletes(queue: seq<Delivery>, incident: nat, shape: Shape, aud: Audience, n: nat)
    requires n <= |aud.chans|
    ensures var q := EnqueueAll(queue, incident, shape, aud, n);
            forall i :: 0 <= i < n ==> EnqueueFor(q, incident, shape, aud, aud.chans[i]) == q
    decreases n
  {
    if n > 0 {
      EnqueueAllCompletes(queue, incident, shape, aud, n - 1);
    }
  }

  /** Replaying a notification changes nothing. */
  lemma NotifyIsIdempotent(s: State, incident: nat, aud: Audience)
    requires incident < |s.incidents|
    ensures Notified(Notified(s, incident, aud), incident, aud) == Notified(s, incident, aud)
  {
    var shape := s.incidents[incident].shape;
    if s.incidents[incident].project !in s.frozen {
      EnqueueAllCompletes(s.queue, incident, shape, aud, |aud.chans|);
      CompleteStays(EnqueueAll(s.queue, incident, shape, aud, |aud.chans|), incident, shape, aud, |aud.chans|);
    }
  }
}

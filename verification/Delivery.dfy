/**
 The alert delivery queue: leases, sends, retries and the per-channel breaker
 (back/internal/deliver/worker.go, deliver.go, back/gen/pg/delivery.sql.go).

 Times are nanoseconds.  A row's `trail` is the model's own record of what was done
 with it, one mark for every lease that was worked off; the code keeps only its
 length, in `attempts`.
 */
module Delivery {
  import opened Outcomes

  const SECOND := 1_000_000_000
  const MAX_ATTEMPTS := 5
  const LEASE_LIMIT := 20
  const BREAKER_TIMEOUT := 5 * 60 * SECOND

  datatype Kind = Telegram | Email | Discord | Slack

  datatype Topic = Page | FollowUp | Test | Other

  datatype Outcome = Delivered | Retryable | Fatal

  datatype State = Pending | Sent | Dead

  datatype Mark =
    | Attempted(outcome: Outcome, wait: int)  // a send, and how far the next try was put off
    | Deferred                                // a mute put the row off
    | Dropped                                 // dead without a send

  datatype Row = Row(
    channel: nat, topic: Topic, incident: Option<nat>,
    state: State, attempts: nat, nextTry: int, leasedBy: Option<nat>,
    trail: seq<Mark>)

  // ----- deliver.go -----

  function Power2(n: nat): (p: nat)
    ensures p >= 1
  {
    if n == 0 then 1 else 2 * Power2(n - 1)
  }

  function BackoffBase(attempt: int): nat {
    Power2(if attempt < 0 then 0 else if attempt > 4 then 4 else attempt) * SECOND
  }

  /** The jitter is drawn below half the base. */
  predicate IsJitter(attempt: int, jitter: int) {
    0 <= jitter < BackoffBase(attempt) / 2
  }

  /** `None` is a transport error. */
  function Classify(status: Option<int>): Outcome {
    if status.None? || status.value == 0 || status.value == 429 || status.value >= 500 then Retryable
    else if status.value >= 400 then Fatal
    else Delivered
  }

  /** `None` is the dead letter queue. */
  function NextTryAt(attempt: int, outcome: Outcome, now: int, jitter: int): Option<int> {
    if outcome == Fatal || attempt >= MAX_ATTEMPTS || outcome == Delivered then None
    else Some(now + BackoffBase(attempt) + jitter)
  }

  /** What a breaker was told, oldest first: when, and whether the send succeeded. */
  datatype Told = Told(at: int, success: bool)

  /** When the failures since the last success began. */
  function StreakStart(log: seq<Told>): Option<int> {
    if log == [] || log[|log| - 1].success then None
    else
      var before := StreakStart(log[..|log| - 1]);
      if before.Some? then before else Some(log[|log| - 1].at)
  }

  class Breaker {
    var failuresSince: Option<int>
    ghost var log: seq<Told>

    ghost predicate Valid()
      reads this
    {
      failuresSince == StreakStart(log)
    }

    constructor ()
      ensures Valid() && log == []
    {
      failuresSince := None;
      log := [];
    }

    method IsOpen(now: int) returns (open: bool)
      requires Valid()
      ensures open <==> BreakerOpen(StreakStart(log), now)
    {
      open := failuresSince.Some? && now - failuresSince.value >= BREAKER_TIMEOUT;
    }

    method RecordSuccess(ghost now: int)
      requires Valid()
      modifies this
      ensures Valid() && log == old(log) + [Told(now, true)]
    {
      failuresSince := None;
      log := log + [Told(now, true)];
    }

    method RecordFailure(now: int)
      requires Valid()
      modifies this
      ensures Valid() && log == old(log) + [Told(now, false)]
    {
      if failuresSince.None? {
        failuresSince := Some(now);
      }
      log := log + [Told(now, false)];
      assert log[..|log| - 1] == old(log);
    }
  }

  predicate BreakerOpen(since: Option<int>, now: int) {
    since.Some? && now - since.value >= BREAKER_TIMEOUT
  }

  /** A run of failures that began long enough ago and that no success has ended. */
  ghost predicate FailingSince(log: seq<Told>, start: nat, now: int) {
    start < |log|
    && (forall k :: start <= k < |log| ==> !log[k].success)
    && now - log[start].at >= BREAKER_TIMEOUT
  }

  predicate InOrder(log: seq<Told>) {
    forall i, j :: 0 <= i < j < |log| ==> log[i].at <= log[j].at
  }

  /** The breaker is open exactly when nothing but failures has been seen for five minutes. */
  lemma BreakerMeaning(log: seq<Told>, now: int)
    requires InOrder(log)
    ensures BreakerOpen(StreakStart(log), now) <==> exists start: nat :: FailingSince(log, start, now)
  {
    if log != [] && !log[|log| - 1].success {
      var start := StreakIndex(log);
      if BreakerOpen(StreakStart(log), now) {
        assert FailingSince(log, start, now);
      }
      if exists k: nat :: FailingSince(log, k, now) {
        var k: nat :| FailingSince(log, k, now);
        assert start <= k by {
          assert start > 0 ==> log[start - 1].success;
        }
        assert log[start].at <= log[k].at;
      }
    } else {
      forall k: nat ensures !FailingSince(log, k, now) {
        if k < |log| {
          assert log[|log| - 1].success;
        }
      }
    }
  }

  lemma {:induction false} StreakIndex(log: seq<Told>) returns (start: nat)
    requires log != [] && !log[|log| - 1].success
    ensures start < |log| && StreakStart(log) == Some(log[start].at)
    ensures forall k :: start <= k < |log| ==> !log[k].success
    ensures start > 0 ==> log[start - 1].success
  {
    var rest := log[..|log| - 1];
    if rest == [] || rest[|rest| - 1].success {
      start := |log| - 1;
    } else {
      start := StreakIndex(rest);
    }
  }

  // ----- what one item calls for -----

  datatype Channel = Channel(
    kind: Kind, target: string, project: nat, frozen: bool, mutedUntil: Option<int>, person: Option<nat>)

  datatype Incident = Incident(ok: bool, planPaused: bool)

  /** What the worker finds when it takes an item up. */
  datatype Look = Look(
    now: int, channel: Option<Channel>, email: string, senders: set<Kind>, incident: Option<Incident>)

  datatype Reason =
    NoChannel | ProjectFrozen | NoEmailChannel | NoSender | NoIncident | ClosedUnmeasured | Rejected | Exhausted

  datatype Message = Message(kind: Kind, target: string, buttons: bool, group: bool, recovered: Option<bool>)

  datatype Decision = Drop(reason: Reason) | Defer(until: int) | Send(message: Message)

  function Route(look: Look, channel: Channel, breaker: Option<int>): Result<(Kind, string), Reason> {
    if BreakerOpen(breaker, look.now) && channel.kind != Email then
      if look.email == "" then Err(NoEmailChannel) else Ok((Email, look.email))
    else Ok((channel.kind, channel.target))
  }

  function Decide(row: Row, look: Look, breaker: Option<int>): Decision {
    if look.channel.None? then Drop(NoChannel)
    else
      var channel := look.channel.value;
      if channel.frozen && row.topic != Test then Drop(ProjectFrozen)
      else
        var route := Route(look, channel, breaker);
        if route.Err? then Drop(route.error)
        else if route.value.0 !in look.senders then Drop(NoSender)
        else if channel.mutedUntil.Some? && channel.mutedUntil.value > look.now then Defer(channel.mutedUntil.value)
        else
          var telegram := route.value.0 == Telegram;
          var group := telegram && channel.person.None?;
          if row.topic != FollowUp then Send(Message(route.value.0, route.value.1, telegram, group, None))
          else if row.incident.None? || look.incident.None? then Drop(NoIncident)
          else if look.incident.value.planPaused then Drop(ClosedUnmeasured)
          else
            var ok := look.incident.value.ok;
            Send(Message(route.value.0, route.value.1, telegram && !ok, group, Some(ok)))
  }

  // ----- the queue's statements, on one row -----

  function Unlease(row: Row, mark: Mark): Row {
    row.(leasedBy := None, attempts := row.attempts + 1, trail := row.trail + [mark])
  }

  function DeadRow(row: Row, mark: Mark): Row {
    Unlease(row, mark).(state := Dead)
  }

  function DeliveredRow(row: Row): Row {
    Unlease(row, Attempted(Delivered, 0)).(state := Sent)
  }

  function RescheduledRow(row: Row, mark: Mark, nextTry: int): Row {
    Unlease(row, mark).(nextTry := nextTry)
  }

  /** A drop or a deferral. */
  function SetAside(row: Row, decision: Decision): Row
    requires !decision.Send?
  {
    match decision
    case Drop(_) => DeadRow(row, Dropped)
    case Defer(until) => RescheduledRow(row, Deferred, until)
  }

  /** A send's outcome, recorded against the attempts the item was leased with. */
  function Settle(row: Row, leasedAttempts: nat, outcome: Outcome, now: int, jitter: int): Row {
    match outcome
    case Delivered => DeliveredRow(row)
    case Fatal => DeadRow(row, Attempted(Fatal, 0))
    case Retryable =>
      var next := NextTryAt(leasedAttempts + 1, Retryable, now, jitter);
      if next.None? then DeadRow(row, Attempted(Retryable, 0))
      else RescheduledRow(row, Attempted(Retryable, next.value - now), next.value)
  }

  /** Everything from outside that decides one item: what is found, and what the send comes to. */
  datatype Chance = Chance(look: Look, status: Option<int>, sentAt: int, jitter: int)

  function Processed(row: Row, chance: Chance, breaker: Option<int>): Row {
    var decision := Decide(row, chance.look, breaker);
    if decision.Send? then Settle(row, row.attempts, Classify(chance.status), chance.sentAt, chance.jitter)
    else SetAside(row, decision)
  }

  /** What each channel's breaker was told by one worker; a channel it never sent through has no entry. */
  type Logs = map<nat, seq<Told>>

  function LogOf(logs: Logs, channel: nat): seq<Told> {
    if channel in logs then logs[channel] else []
  }

  function Since(logs: Logs, channel: nat): Option<int> {
    StreakStart(LogOf(logs, channel))
  }

  function Noted(logs: Logs, channel: nat, told: Told): Logs {
    logs[channel := LogOf(logs, channel) + [told]]
  }

  /** The queue and one worker's breakers. */
  datatype Desk = Desk(rows: map<nat, Row>, logs: Logs)

  /** One item worked off: a breaker hears only of sends. */
  function Handle(d: Desk, id: nat, chance: Chance): Desk
    requires id in d.rows
  {
    var row := d.rows[id];
    var breaker := Since(d.logs, row.channel);
    Desk(d.rows[id := Processed(row, chance, breaker)],
         if Decide(row, chance.look, breaker).Send?
         then Noted(d.logs, row.channel, Told(chance.sentAt, Classify(chance.status) == Delivered))
         else d.logs)
  }

  /** A batch worked off in order. */
  function HandleAll(d: Desk, batch: seq<nat>, chances: seq<Chance>): (d': Desk)
    requires |chances| == |batch| && forall i :: 0 <= i < |batch| ==> batch[i] in d.rows
    ensures d'.rows.Keys == d.rows.Keys
  {
    if batch == [] then d
    else
      var n := |batch| - 1;
      Handle(HandleAll(d, batch[..n], chances[..n]), batch[n], chances[n])
  }

  predicate Leasable(row: Row, now: int) {
    row.state == Pending && row.leasedBy.None? && row.nextTry <= now
  }

  predicate Distinct(ids: seq<nat>) {
    forall i, j :: 0 <= i < j < |ids| ==> ids[i] != ids[j]
  }

  /**
   What LeasePendingDeliveries picks: the earliest twenty of the due rows nobody holds,
   passing over those another statement has locked just then.
   */
  predicate CanPick(rows: map<nat, Row>, locked: set<nat>, picked: seq<nat>, now: int) {
    |picked| <= LEASE_LIMIT && Distinct(picked)
    && (forall i :: 0 <= i < |picked| ==>
          picked[i] in rows && picked[i] !in locked && Leasable(rows[picked[i]], now))
    && forall id :: id in rows && id !in locked && id !in picked && Leasable(rows[id], now) ==>
         |picked| == LEASE_LIMIT && forall i :: 0 <= i < |picked| ==> rows[picked[i]].nextTry <= rows[id].nextTry
  }

  function LeasedRows(rows: map<nat, Row>, picked: seq<nat>, worker: nat): map<nat, Row> {
    map id | id in rows :: if id in picked then rows[id].(leasedBy := Some(worker)) else rows[id]
  }

  class Queue {
    var rows: map<nat, Row>

    constructor ()
      ensures rows == map[]
    {
      rows := map[];
    }

    method Lease(worker: nat, picked: seq<nat>, ghost locked: set<nat>, ghost now: int)
      requires CanPick(rows, locked, picked, now)
      modifies this
      ensures rows == LeasedRows(old(rows), picked, worker)
    {
      var i := 0;
      while i < |picked|
        invariant 0 <= i <= |picked|
        invariant rows == LeasedRows(old(rows), picked[..i], worker)
      {
        assert picked[..i + 1] == picked[..i] + [picked[i]];
        rows := rows[picked[i] := rows[picked[i]].(leasedBy := Some(worker))];
        i := i + 1;
      }
      assert picked[..i] == picked;
    }

    method MarkDead(id: nat, mark: Mark)
      requires id in rows
      modifies this
      ensures rows == old(rows)[id := DeadRow(old(rows)[id], mark)]
    {
      var row := rows[id];
      rows := rows[id := row.(state := Dead, leasedBy := None, attempts := row.attempts + 1,
                              trail := row.trail + [mark])];
    }

    method MarkDelivered(id: nat)
      requires id in rows
      modifies this
      ensures rows == old(rows)[id := DeliveredRow(old(rows)[id])]
    {
      var row := rows[id];
      rows := rows[id := row.(state := Sent, leasedBy := None, attempts := row.attempts + 1,
                              trail := row.trail + [Attempted(Delivered, 0)])];
    }

    method Reschedule(id: nat, mark: Mark, nextTry: int)
      requires id in rows
      modifies this
      ensures rows == old(rows)[id := RescheduledRow(old(rows)[id], mark, nextTry)]
    {
      var row := rows[id];
      rows := rows[id := row.(leasedBy := None, attempts := row.attempts + 1, nextTry := nextTry,
                              trail := row.trail + [mark])];
    }
  }

  class Worker {
    const queue: Queue
    var breakers: map<nat, Breaker>

    /** Each channel has a breaker of its own. */
    ghost predicate Valid()
      reads this, breakers.Values
    {
      (forall c :: c in breakers ==> breakers[c].Valid())
      && forall c, d :: c in breakers && d in breakers && c != d ==> breakers[c] != breakers[d]
    }

    ghost function Logs(): Logs
      reads this, breakers.Values
    {
      map c | c in breakers && breakers[c].log != [] :: breakers[c].log
    }

    ghost function Now(): Desk
      reads this, queue, breakers.Values
    {
      Desk(queue.rows, Logs())
    }

    constructor (queue: Queue)
      ensures this.queue == queue && Valid() && Logs() == map[] && breakers == map[]
    {
      this.queue := queue;
      breakers := map[];
    }

    method GetBreaker(channel: nat) returns (b: Breaker)
      requires Valid()
      modifies this`breakers
      ensures Valid() && channel in breakers && breakers[channel] == b
      ensures Logs() == old(Logs()) && b.log == LogOf(Logs(), channel)
      ensures fresh(breakers.Values - old(breakers.Values))
    {
      if channel !in breakers {
        b := new Breaker();
        breakers := breakers[channel := b];
      }
      b := breakers[channel];
    }

    method Dead(id: nat, reason: Reason)
      requires Valid() && id in queue.rows
      modifies queue
      ensures Valid() && Now() == Desk(old(queue.rows)[id := SetAside(old(queue.rows)[id], Drop(reason))], old(Logs()))
    {
      queue.MarkDead(id, Dropped);
    }

    method Defer(id: nat, until: int)
      requires Valid() && id in queue.rows
      modifies queue
      ensures Valid()
      ensures Now() == Desk(old(queue.rows)[id := SetAside(old(queue.rows)[id], Decision.Defer(until))], old(Logs()))
    {
      queue.Reschedule(id, Deferred, until);
    }

    method ProcessItem(id: nat, chance: Chance)
      requires Valid() && id in queue.rows
      modifies this, queue, breakers.Values
      ensures Valid() && fresh(breakers.Values - old(breakers.Values))
      ensures Now() == Handle(old(Now()), id, chance)
    {
      hide Valid, Logs, StreakStart, Classify, Settle, SetAside, LogOf, Noted;
      var item := queue.rows[id];
      var look := chance.look;
      if look.channel.None? {
        Dead(id, NoChannel);
        return;
      }
      var channel := look.channel.value;
      if channel.frozen && item.topic != Test {
        Dead(id, ProjectFrozen);
        return;
      }
      var breaker := GetBreaker(item.channel);
      var kind, target := channel.kind, channel.target;
      var open := breaker.IsOpen(look.now);
      if open && kind != Email {
        kind := Email;
        if look.email != "" {
          target := look.email;
        } else {
          Dead(id, NoEmailChannel);
          return;
        }
      }
      if kind !in look.senders {
        Dead(id, NoSender);
        return;
      }
      if channel.mutedUntil.Some? && channel.mutedUntil.value > look.now {
        Defer(id, channel.mutedUntil.value);
        return;
      }
      if item.topic == FollowUp {
        if item.incident.None? || look.incident.None? {
          Dead(id, NoIncident);
          return;
        }
        if look.incident.value.planPaused {
          Dead(id, ClosedUnmeasured);
          return;
        }
      }
      RecordSend(id, item.channel, item.attempts, breaker, chance);
    }

    method Tell(channel: nat, breaker: Breaker, at: int, success: bool)
      requires Valid() && channel in breakers && breakers[channel] == breaker
      modifies breaker
      ensures Valid() && Logs() == Noted(old(Logs()), channel, Told(at, success))
    {
      hide StreakStart;
      if success {
        breaker.RecordSuccess(at);
      } else {
        breaker.RecordFailure(at);
      }
    }

    /** The end of ProcessItem: what the send came to, for the queue and for the breaker. */
    method RecordSend(id: nat, channel: nat, leasedAttempts: nat, breaker: Breaker, chance: Chance)
      requires Valid() && id in queue.rows && channel in breakers && breakers[channel] == breaker
      modifies queue, breaker
      ensures Valid()
      ensures queue.rows == old(queue.rows)[id := Settle(old(queue.rows)[id], leasedAttempts, Classify(chance.status),
                                                         chance.sentAt, chance.jitter)]
      ensures Logs() == Noted(old(Logs()), channel, Told(chance.sentAt, Classify(chance.status) == Delivered))
    {
      hide Valid, Logs, StreakStart, Classify, NextTryAt, Unlease;
      var outcome := Classify(chance.status);
      var attempt := leasedAttempts + 1;
      match outcome {
        case Delivered =>
          queue.MarkDelivered(id);
          Tell(channel, breaker, chance.sentAt, true);
        case Fatal =>
          queue.MarkDead(id, Attempted(Fatal, 0));
          Tell(channel, breaker, chance.sentAt, false);
        case Retryable =>
          Tell(channel, breaker, chance.sentAt, false);
          var next := NextTryAt(attempt, outcome, chance.sentAt, chance.jitter);
          if next.None? {
            queue.MarkDead(id, Attempted(Retryable, 0));
          } else {
            queue.Reschedule(id, Attempted(Retryable, next.value - chance.sentAt), next.value);
          }
      }
    }

    /** One round: lease a batch and work it off, row after row. */
    method Tick(node: nat, picked: seq<nat>, chances: seq<Chance>, ghost locked: set<nat>, ghost now: int)
      requires Valid() && CanPick(queue.rows, locked, picked, now) && |chances| == |picked|
      modifies this, queue, breakers.Values
      ensures Valid() && fresh(breakers.Values - old(breakers.Values))
      ensures Now() == HandleAll(Desk(LeasedRows(old(queue.rows), picked, node), old(Logs())), picked, chances)
    {
      hide Valid, Logs, Handle, CanPick;
      CanPickIn(queue.rows, locked, picked, now);
      queue.Lease(node, picked, locked, now);
      ghost var leased := Now();
      assert picked[..0] == [] && chances[..0] == [];
      var i := 0;
      while i < |picked|
        invariant 0 <= i <= |picked|
        invariant Valid() && fresh(breakers.Values - old(breakers.Values))
        invariant Now() == HandleAll(leased, picked[..i], chances[..i])
      {
        assert picked[..i + 1][..i] == picked[..i] && chances[..i + 1][..i] == chances[..i];
        ProcessItem(picked[i], chances[i]);
        i := i + 1;
      }
      assert picked[..i] == picked && chances[..i] == chances;
    }
  }

  lemma CanPickIn(rows: map<nat, Row>, locked: set<nat>, picked: seq<nat>, now: int)
    requires CanPick(rows, locked, picked, now)
    ensures forall i :: 0 <= i < |picked| ==> picked[i] in rows
  {
  }

  /** A row outside the batch is left alone. */
  lemma {:induction false} OutsideTheBatch(d: Desk, batch: seq<nat>, chances: seq<Chance>, id: nat)
    requires |chances| == |batch| && forall i :: 0 <= i < |batch| ==> batch[i] in d.rows
    requires id in d.rows && id !in batch
    ensures HandleAll(d, batch, chances).rows[id] == d.rows[id]
    decreases |batch|
  {
    hide Handle;
    if batch != [] {
      var n := |batch| - 1;
      OutsideTheBatch(d, batch[..n], chances[..n], id);
      HandleTouches(HandleAll(d, batch[..n], chances[..n]), batch[n], chances[n]);
    }
  }

  /** A row of the batch becomes what its own handling makes of it, and is unleased by it. */
  lemma {:induction false} BatchIsWorkedOff(d: Desk, batch: seq<nat>, chances: seq<Chance>, i: nat)
    requires |chances| == |batch| && Distinct(batch) && i < |batch|
    requires forall i :: 0 <= i < |batch| ==> batch[i] in d.rows
    ensures var row, after := d.rows[batch[i]], HandleAll(d, batch, chances).rows[batch[i]];
            var before := HandleAll(d, batch[..i], chances[..i]);
            after == Processed(row, chances[i], Since(before.logs, row.channel)) && WorkedOff(row, after)
    decreases |batch|
  {
    hide Handle, Processed, WorkedOff, Since;
    var n := |batch| - 1;
    var most, some := batch[..n], chances[..n];
    var d' := HandleAll(d, most, some);
    HandleTouches(d', batch[n], chances[n]);
    if i < n {
      assert most[i] == batch[i] && some[i] == chances[i] && most[..i] == batch[..i] && some[..i] == chances[..i];
      BatchIsWorkedOff(d, most, some, i);
      assert batch[i] != batch[n];
    } else {
      OutsideTheBatch(d, most, some, batch[n]);
      ProcessedIsWorkedOff(d.rows[batch[n]], chances[n], Since(d'.logs, d.rows[batch[n]].channel));
    }
  }

  lemma HandleTouches(d: Desk, id: nat, chance: Chance)
    requires id in d.rows
    ensures var row := d.rows[id];
            Handle(d, id, chance).rows == d.rows[id := Processed(row, chance, Since(d.logs, row.channel))]
  {
  }

  lemma ProcessedIsWorkedOff(row: Row, chance: Chance, breaker: Option<int>)
    ensures WorkedOff(row, Processed(row, chance, breaker))
  {
  }

  /** Unleased again, with one more mark on its trail. */
  predicate WorkedOff(before: Row, after: Row) {
    after.leasedBy.None? && before.trail < after.trail && |after.trail| == |before.trail| + 1
  }
}

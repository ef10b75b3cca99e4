/**
 What a send's outcome makes of its row and when the row may be tried again, said of the
 status that came back and of the times of the run
 (back/internal/deliver/deliver.go:15-64, worker.go:61-214, back/gen/pg/delivery.sql.go:163-281).
 */
module DeliveryTimes {
  import opened Outcomes
  import opened Delivery
  import opened DeliveryRuns
  import opened DeliveryHistory

  // ----- one decision -----

  predicate Delivers(status: Option<int>) {
    status.Some? && status.value != 0 && status.value < 400
  }

  /** The channel's own fault: another try would fail the same way. */
  predicate Rejects(status: Option<int>) {
    status.Some? && 400 <= status.value < 500 && status.value != 429
  }

  lemma ClassifyIs(status: Option<int>)
    ensures Classify(status) == (if Delivers(status) then Delivered else if Rejects(status) then Fatal else Retryable)
  {
  }

  /** 2, 4, 8 and 16 seconds after the first four failures. */
  lemma BackoffIs()
    ensures BackoffBase(1) == 2 * SECOND && BackoffBase(2) == 4 * SECOND
    ensures BackoffBase(3) == 8 * SECOND && BackoffBase(4) == 16 * SECOND
  {
    assert Power2(1) == 2 && Power2(2) == 4 && Power2(3) == 8 && Power2(4) == 16;
  }

  /** The breaker sends the channel's pages to email instead. */
  predicate Rerouted(look: Look, since: Option<int>) {
    look.channel.Some? && look.channel.value.kind != Email && BreakerOpen(since, look.now)
  }

  /** Where the page goes: the kind of sender it needs. */
  function KindFor(look: Look, since: Option<int>): Kind {
    if look.channel.None? || Rerouted(look, since) then Email else look.channel.value.kind
  }

  /** The row may be sent, if its channel is not muted. */
  predicate Sendable(row: Row, look: Look, since: Option<int>) {
    look.channel.Some?
    && (look.channel.value.frozen ==> row.topic == Test)
    && (Rerouted(look, since) ==> look.email != "")
    && KindFor(look, since) in look.senders
  }

  /** Of a follow-up, that its incident is there and was not closed by the plan. */
  predicate FollowUpStands(row: Row, look: Look) {
    row.topic == FollowUp ==> row.incident.Some? && look.incident.Some? && !look.incident.value.planPaused
  }

  /** A page is sent exactly when nothing stands in its way; a mute puts it off, and all else drops it. */
  lemma SendsIff(row: Row, look: Look, since: Option<int>)
    ensures Decide(row, look, since).Send?
            <==> Sendable(row, look, since) && !MutedThen(look) && FollowUpStands(row, look)
    ensures Decide(row, look, since).Defer? <==> Sendable(row, look, since) && MutedThen(look)
    ensures Decide(row, look, since).Defer? ==> Some(Decide(row, look, since).until) == look.channel.value.mutedUntil
  {
  }

  /** Only a page on Telegram has buttons, and a follow-up only while the site is down. */
  lemma MessageIs(row: Row, look: Look, since: Option<int>)
    requires Decide(row, look, since).Send?
    ensures var m, channel := Decide(row, look, since).message, look.channel.value;
            m.kind == KindFor(look, since)
            && m.target == (if Rerouted(look, since) then look.email else channel.target)
            && (m.group <==> m.kind == Telegram && channel.person.None?)
            && (m.buttons <==> m.kind == Telegram && m.recovered != Some(true))
            && m.recovered == (if row.topic == FollowUp then Some(look.incident.value.ok) else None)
  {
  }

  /** Why a page was dropped. */
  lemma DropsFor(row: Row, look: Look, since: Option<int>)
    ensures var d := Decide(row, look, since);
            (d == Drop(NoChannel) <==> look.channel.None?)
            && (d == Drop(ProjectFrozen) <==> look.channel.Some? && look.channel.value.frozen && row.topic != Test)
            && (d == Drop(NoEmailChannel) <==>
                  Rerouted(look, since) && look.email == "" && (look.channel.value.frozen ==> row.topic == Test))
            && (d == Drop(NoIncident) <==> Sendable(row, look, since) && !MutedThen(look) && row.topic == FollowUp
                                           && (row.incident.None? || look.incident.None?))
            && (d == Drop(ClosedUnmeasured) <==> Sendable(row, look, since) && !MutedThen(look)
                                                 && row.topic == FollowUp && row.incident.Some?
                                                 && look.incident.Some? && look.incident.value.planPaused)
            && d != Drop(Rejected) && d != Drop(Exhausted)
  {
  }

  // ----- one step -----

  /** Nothing of the row but what the queue keeps about its delivery. */
  predicate SameMessage(before: Row, after: Row) {
    after.channel == before.channel && after.topic == before.topic && after.incident == before.incident
  }

  /**
   What a send leaves: delivered or rejected for good, out of retries with the fifth lease,
   or pending until a backoff and a jitter below half of it have passed.
   */
  lemma FinishLeaves(s: System, e: Event, id: nat)
    requires Inv(s) && Enabled(s, e) && Finishes(s, e, id)
    ensures var row, row' := s.rows[id], Next(s, e).rows[id];
            SameMessage(row, row') && row'.leasedBy.None? && row'.attempts == row.attempts + 1
            && (row'.state == Sent <==> Delivers(e.status))
            && (row'.state == Dead <==> Rejects(e.status) || (!Delivers(e.status) && row'.attempts >= 5))
            && (if row'.state == Pending then IsWait(row'.attempts, row'.nextTry - e.at)
                else row'.nextTry == row.nextTry)
    ensures forall other :: other in s.rows && other != id ==> Next(s, e).rows[other] == s.rows[other]
  {
    ClassifyIs(e.status);
    assert BatchFits(s, e.worker);
  }

  /** A mute puts the row off to its own end. */
  lemma TakeUpLeaves(s: System, e: Event, id: nat)
    requires Inv(s) && Enabled(s, e) && TakesUp(s, e, id)
    ensures var row, row', decision := s.rows[id], Next(s, e).rows[id], Decided(s, e, id);
            SameMessage(row, row')
            && (decision.Send? ==> row' == row)
            && (decision.Drop? ==> row'.state == Dead && row'.leasedBy.None? && row'.nextTry == row.nextTry)
            && (decision.Defer? ==> row'.state == Pending && row'.leasedBy.None? && MutedThen(e.look)
                                    && Some(row'.nextTry) == e.look.channel.value.mutedUntil)
    ensures forall other :: other in s.rows && other != id ==> Next(s, e).rows[other] == s.rows[other]
  {
    SendsIff(s.rows[id], e.look, Since(s.workers[e.worker].logs, s.rows[id].channel));
    assert BatchFits(s, e.worker);
  }

  /** A lease changes the holder of the rows it picks, a release the time of its row, and nothing else. */
  lemma OthersLeave(s: System, e: Event, id: nat)
    requires Inv(s) && Enabled(s, e) && id in s.rows && !TakesUp(s, e, id) && !Finishes(s, e, id)
    ensures id in Next(s, e).rows
    ensures var row, row' := s.rows[id], Next(s, e).rows[id];
            if e.Lease? && id in e.picked then row' == row.(leasedBy := Some(e.worker)) && row.nextTry <= e.now
            else if e.Release? && e.id == id then row' == row.(nextTry := e.nextTry)
            else row' == row
  {
    if e.TakeUp? || e.Finish? {
      assert BatchFits(s, e.worker);
    }
  }

  /** The rows a step leased. */
  function LeasedBy(s: System, s': System): set<nat> {
    set id | id in s.rows && id in s'.rows && s.rows[id].leasedBy.None? && s'.rows[id].leasedBy.Some?
  }

  /** A lease leaves a due row behind only if it is locked elsewhere or twenty that were due earlier went first. */
  lemma LeaseServesTheEarliest(s: System, e: Event, id: nat)
    requires Inv(s) && Enabled(s, e) && e.Lease? && id in s.rows
    requires s.rows[id].state == Pending && s.rows[id].leasedBy.None? && s.rows[id].nextTry <= e.now
    ensures var went := LeasedBy(s, Next(s, e));
            |went| <= 20
            && (id in went
                || id in e.locked
                || (|went| == 20 && forall other :: other in went ==> s.rows[other].nextTry <= s.rows[id].nextTry))
  {
    var went := LeasedBy(s, Next(s, e));
    assert went == Picked(e.picked);
    PickedCount(e.picked);
  }

  function Picked(ids: seq<nat>): set<nat> {
    set id | id in ids
  }

  lemma {:induction false} PickedCount(ids: seq<nat>)
    requires Distinct(ids)
    ensures |Picked(ids)| == |ids|
  {
    if ids != [] {
      var n := |ids| - 1;
      PickedCount(ids[..n]);
      assert Picked(ids) == Picked(ids[..n]) + {ids[n]};
    }
  }

  // ----- over runs -----

  lemma StepIs(states: seq<System>, events: seq<Event>, i: nat)
    requires IsRun(states, events) && IsStart(states[0]) && i + 1 < |states|
    ensures i < |events|
    ensures Inv(states[i]) && Enabled(states[i], events[i]) && states[i + 1] == Next(states[i], events[i])
  {
    RunsKeepInv(states, events, i);
  }

  /** Nothing brought the row's next try forward or leased it in between. */
  predicate LeftAlone(events: seq<Event>, i: nat, j: nat, id: nat)
    requires i <= j <= |events|
  {
    forall k :: i <= k < j ==>
      !(events[k].Release? && events[k].id == id) && !(events[k].Lease? && id in events[k].picked)
  }

  lemma NotTaken(s: System, e: Event, id: nat)
    requires Inv(s) && Enabled(s, e) && id in s.rows && s.rows[id].leasedBy.None?
    ensures !TakesUp(s, e, id) && !Finishes(s, e, id)
  {
    if e.TakeUp? || e.Finish? {
      HeldElsewhere(s, e.worker, id);
    }
  }

  lemma {:induction false} WaitingRowsStay(states: seq<System>, events: seq<Event>, i: nat, j: nat, id: nat)
    requires IsRun(states, events) && IsStart(states[0]) && i <= j < |states| && LeftAlone(events, i, j, id)
    requires id in states[i].rows && states[i].rows[id].leasedBy.None?
    ensures id in states[j].rows && states[j].rows[id] == states[i].rows[id]
    decreases j
  {
    if i < j {
      WaitingRowsStay(states, events, i, j - 1, id);
      StepIs(states, events, j - 1);
      hide IsRun, IsStart, Inv, Enabled, Next, TakesUp, Finishes;
      NotTaken(states[j - 1], events[j - 1], id);
      OthersLeave(states[j - 1], events[j - 1], id);
    }
  }

  /** A row is leased again no sooner than its next try, unless a lifted mute released it. */
  lemma LeasedOnlyWhenDue(states: seq<System>, events: seq<Event>, i: nat, j: nat, id: nat)
    requires IsRun(states, events) && IsStart(states[0]) && i <= j < |events| && LeftAlone(events, i, j, id)
    requires id in states[i].rows && states[i].rows[id].leasedBy.None?
    requires events[j].Lease? && id in events[j].picked
    ensures events[j].now >= states[i].rows[id].nextTry
  {
    WaitingRowsStay(states, events, i, j, id);
    StepIs(states, events, j);
  }

  /** After a failed send the next lease comes a whole backoff later; after a mute, once it has ended. */
  lemma RetriesWait(states: seq<System>, events: seq<Event>, i: nat, j: nat, id: nat)
    requires IsRun(states, events) && IsStart(states[0]) && i < j < |events| && LeftAlone(events, i + 1, j, id)
    requires events[j].Lease? && id in events[j].picked
    ensures Finishes(states[i], events[i], id) ==>
              events[j].now >= events[i].at + BackoffBase(states[i].rows[id].attempts + 1)
    ensures TakesUp(states[i], events[i], id) && !Decided(states[i], events[i], id).Send? ==>
              MutedThen(events[i].look) && events[j].now >= events[i].look.channel.value.mutedUntil.value
  {
    StepIs(states, events, i);
    StepIs(states, events, j);
    var s, e := states[i], events[i];
    if Finishes(s, e, id) {
      FinishLeaves(s, e, id);
      WaitingRowsStay(states, events, i + 1, j, id);
    } else if TakesUp(s, e, id) && !Decided(s, e, id).Send? {
      TakeUpLeaves(s, e, id);
      WaitingRowsStay(states, events, i + 1, j, id);
    }
  }

  lemma StepKeepsMessage(s: System, e: Event, id: nat)
    requires Inv(s) && Enabled(s, e) && id in s.rows
    ensures id in Next(s, e).rows && SameMessage(s.rows[id], Next(s, e).rows[id])
  {
    hide Inv, Enabled, Next, TakesUp, Finishes, Decided;
    if TakesUp(s, e, id) {
      TakeUpLeaves(s, e, id);
      TakeUpOf(s, e, id);
    } else if Finishes(s, e, id) {
      FinishLeaves(s, e, id);
      FinishOf(s, e, id);
    } else {
      OthersLeave(s, e, id);
    }
  }

  /** What a page says and where it goes never changes on its way through the queue. */
  lemma {:induction false} MessagesStay(states: seq<System>, events: seq<Event>, i: nat, j: nat, id: nat)
    requires IsRun(states, events) && IsStart(states[0]) && i <= j < |states| && id in states[i].rows
    ensures id in states[j].rows && SameMessage(states[i].rows[id], states[j].rows[id])
    decreases j
  {
    hide IsRun, IsStart;
    if i < j {
      MessagesStay(states, events, i, j - 1, id);
      StepIs(states, events, j - 1);
      StepKeepsMessage(states[j - 1], events[j - 1], id);
    }
  }

  // ----- the retries of one row -----

  /** How far the sends that failed put the row off, all together: from each send to the next try it gave. */
  function PutOff(states: seq<System>, events: seq<Event>, i: nat, id: nat): int
    requires IsRun(states, events) && i < |states|
  {
    if i == 0 then 0
    else
      PutOff(states, events, i - 1, id)
      + (if Finishes(states[i - 1], events[i - 1], id) && id in states[i].rows && states[i].rows[id].state == Pending
         then states[i].rows[id].nextTry - events[i - 1].at else 0)
  }

  function TotalWait(trail: seq<Mark>): int {
    if trail == [] then 0 else TotalWait(AllBut(trail)) + WaitOf(Last(trail))
  }

  function WaitOf(mark: Mark): int {
    if mark.Attempted? then mark.wait else 0
  }

  lemma TotalWaitOneMore(trail: seq<Mark>, mark: Mark)
    ensures TotalWait(trail + [mark]) == TotalWait(trail) + WaitOf(mark)
  {
    assert AllBut(trail + [mark]) == trail;
  }

  /** The wait in a mark is what the finish put its row off. */
  lemma FinishWaits(s: System, e: Event, id: nat)
    requires Inv(s) && Enabled(s, e) && Finishes(s, e, id)
    ensures id in Next(s, e).rows && Next(s, e).rows[id].trail != []
    ensures var row := Next(s, e).rows[id];
            WaitOf(Last(row.trail)) == (if row.state == Pending then row.nextTry - e.at else 0)
  {
    assert BatchFits(s, e.worker);
  }

  lemma StepWaits(s: System, e: Event, id: nat)
    requires Inv(s) && Enabled(s, e) && id in s.rows
    ensures id in Next(s, e).rows
    ensures var row' := Next(s, e).rows[id];
            TotalWait(row'.trail) == TotalWait(s.rows[id].trail)
            + (if Finishes(s, e, id) && row'.state == Pending then row'.nextTry - e.at else 0)
  {
    hide Inv, Enabled, Next, TakesUp, Finishes, Decided, InFlight, TotalWait;
    if TakesUp(s, e, id) {
      TakeUpOf(s, e, id);
      NotBoth(s, e, id);
      TotalWaitOneMore(s.rows[id].trail, if Decided(s, e, id).Defer? then Deferred else Dropped);
    } else if Finishes(s, e, id) {
      FinishOf(s, e, id);
      FinishWaits(s, e, id);
      TotalWaitOneMore(s.rows[id].trail, Last(Next(s, e).rows[id].trail));
    } else {
      OtherStep(s, e, id);
    }
  }

  lemma PutOffOneMore(states: seq<System>, events: seq<Event>, i: nat, id: nat)
    requires IsRun(states, events) && 0 < i < |states|
    ensures PutOff(states, events, i, id) ==
            PutOff(states, events, i - 1, id)
            + (if Finishes(states[i - 1], events[i - 1], id) && id in states[i].rows
                  && states[i].rows[id].state == Pending
               then states[i].rows[id].nextTry - events[i - 1].at else 0)
  {
  }

  lemma {:induction false} PutOffIsTheWaits(states: seq<System>, events: seq<Event>, i: nat, id: nat)
    requires IsRun(states, events) && IsStart(states[0]) && i < |states|
    ensures PutOff(states, events, i, id) == if id in states[i].rows then TotalWait(states[i].rows[id].trail) else 0
    decreases i
  {
    if i > 0 {
      PutOffIsTheWaits(states, events, i - 1, id);
      PutOffOneMore(states, events, i, id);
      StepIs(states, events, i - 1);
      hide IsRun, IsStart, PutOff, Inv, Enabled, Next, Finishes;
      if id in states[i - 1].rows {
        StepWaits(states[i - 1], events[i - 1], id);
      } else {
        NewRow(states[i - 1], events[i - 1], id);
      }
    }
  }

  /** Never muted and out of retries: sent five times, the four retries put off by 30 to 45 seconds in all. */
  lemma RetryWindow(states: seq<System>, events: seq<Event>, i: nat, id: nat)
    requires IsRun(states, events) && IsStart(states[0]) && i < |states|
    requires id in states[i].rows && IsExhausted(states[i].rows[id]) && NeverMuted(states, events, i, id)
    ensures |SendsOf(states, events, i, id)| == MAX_ATTEMPTS
    ensures 30 * SECOND <= PutOff(states, events, i, id) < 45 * SECOND
  {
    RunsKeepInv(states, events, i);
    TrailIsWhatHappened(states, events, i, id);
    NeverMutedNeverDeferred(states, events, i, id);
    PutOffIsTheWaits(states, events, i, id);
    ExhaustedTrail(states[i].rows[id].trail);
    WaitsAddUp(states[i].rows[id]);
  }

  lemma WaitsAddUp(row: Row)
    requires TrailFits(row) && IsExhausted(row) && NeverDeferred(row.trail)
    ensures 30 * SECOND <= TotalWait(row.trail) < 45 * SECOND
  {
    var live := AllBut(row.trail);
    assert forall p :: 0 <= p < |live| ==> live[p] == row.trail[p];
    UndeferredIsShort(live);
    assert |live| == 4;
    var a, b, c := live[..3], live[..2], live[..1];
    assert AllBut(live) == a && AllBut(a) == b && AllBut(b) == c && AllBut(c) == [];
    BackoffIs();
    assert IsWait(1, live[0].wait) && IsWait(2, live[1].wait) && IsWait(3, live[2].wait) && IsWait(4, live[3].wait);
    assert TotalWait(b) == live[0].wait + live[1].wait by {
      assert TotalWait(c) == live[0].wait;
    }
    assert TotalWait(live) == live[0].wait + live[1].wait + live[2].wait + live[3].wait;
  }
}

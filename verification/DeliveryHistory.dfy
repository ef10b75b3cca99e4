/**
 What the runs of the delivery queue come to, said of what the workers found and did: the
 mutes a row met, its leases and its sends, and the sends a breaker was told of
 (back/internal/deliver/worker.go:46-214, deliver.go, back/gen/pg/delivery.sql.go:163-281).
 */
module DeliveryHistory {
  import opened Outcomes
  import opened Delivery
  import opened DeliveryRuns

  // ----- one row's history, read off the events -----

  /** The row at the head of the worker's batch. */
  function Head(s: System, w: nat): Option<nat> {
    if w in s.workers && s.workers[w].batch != [] then Some(s.workers[w].batch[0].id) else None
  }

  predicate TakesUp(s: System, e: Event, id: nat) {
    e.TakeUp? && Head(s, e.worker) == Some(id) && id in s.rows
  }

  predicate Finishes(s: System, e: Event, id: nat) {
    e.Finish? && Head(s, e.worker) == Some(id) && id in s.rows
  }

  /** The channel is muted at the moment the worker looks. */
  predicate MutedThen(look: Look) {
    look.channel.Some? && look.channel.value.mutedUntil.Some? && look.channel.value.mutedUntil.value > look.now
  }

  /** What the worker decides on the row it takes up. */
  function Decided(s: System, e: Event, id: nat): Decision
    requires TakesUp(s, e, id)
  {
    Decide(s.rows[id], e.look, Since(s.workers[e.worker].logs, s.rows[id].channel))
  }

  /** Each time the row was taken up, in order: did the worker find its channel muted? */
  function Mutes(states: seq<System>, events: seq<Event>, i: nat, id: nat): seq<bool>
    requires IsRun(states, events) && i < |states|
  {
    if i == 0 then []
    else
      Mutes(states, events, i - 1, id)
      + (if TakesUp(states[i - 1], events[i - 1], id) then [MutedThen(events[i - 1].look)] else [])
  }

  /** What each send of the row came to, in order. */
  function SendsOf(states: seq<System>, events: seq<Event>, i: nat, id: nat): seq<Outcome>
    requires IsRun(states, events) && i < |states|
  {
    if i == 0 then []
    else
      SendsOf(states, events, i - 1, id)
      + (if Finishes(states[i - 1], events[i - 1], id) then [Classify(events[i - 1].status)] else [])
  }

  /** How often the row was leased. */
  function Leases(events: seq<Event>, i: nat, id: nat): nat
    requires i <= |events|
  {
    if i == 0 then 0
    else Leases(events, i - 1, id) + (if events[i - 1].Lease? && id in events[i - 1].picked then 1 else 0)
  }

  /** No worker that took the row up found its channel muted. */
  predicate NeverMuted(states: seq<System>, events: seq<Event>, i: nat, id: nat)
    requires IsRun(states, events) && i < |states|
  {
    forall k :: 0 <= k < i && TakesUp(states[k], events[k], id) ==> !MutedThen(events[k].look)
  }

  // ----- the trail is that history -----

  function Attempts(trail: seq<Mark>): seq<Outcome> {
    if trail == [] then []
    else Attempts(AllBut(trail)) + (if Last(trail).Attempted? then [Last(trail).outcome] else [])
  }

  /** The row is being sent: its holder took it up and has not finished. */
  predicate InFlight(s: System, id: nat) {
    id in s.rows && s.rows[id].leasedBy.Some?
    && var w := s.rows[id].leasedBy.value; Head(s, w) == Some(id) && s.workers[w].sending
  }

  /** A take-up that drops nothing defers the row exactly when the worker found its channel muted. */
  lemma DefersIffMuted(s: System, e: Event, id: nat)
    requires TakesUp(s, e, id)
    ensures Decided(s, e, id).Defer? ==> MutedThen(e.look)
    ensures Decided(s, e, id).Send? ==> !MutedThen(e.look)
  {
  }

  /**
   The marks of the trail are the take-ups worked off: a deferral for each mute that dropped
   nothing, an attempt for each send.
   */
  ghost predicate Recorded(s: System, id: nat, mutes: seq<bool>, sends: seq<Outcome>, leases: nat) {
    if id !in s.rows then mutes == [] && sends == [] && leases == 0
    else
      var row := s.rows[id];
      |mutes| == |row.trail| + (if InFlight(s, id) then 1 else 0)
      && (InFlight(s, id) ==> !mutes[|row.trail|])
      && (forall p :: 0 <= p < |row.trail| && row.trail[p] != Dropped ==> (mutes[p] <==> row.trail[p] == Deferred))
      && sends == Attempts(row.trail)
      && leases == |row.trail| + (if row.leasedBy.Some? then 1 else 0)
  }

  lemma AttemptsOneMore(trail: seq<Mark>, mark: Mark)
    ensures Attempts(trail + [mark]) == Attempts(trail) + (if mark.Attempted? then [mark.outcome] else [])
  {
    assert AllBut(trail + [mark]) == trail;
  }

  /** A take-up leaves the row in flight, or marks and frees it. */
  lemma TakeUpOf(s: System, e: Event, id: nat)
    requires Inv(s) && Enabled(s, e) && TakesUp(s, e, id)
    ensures var s', row, decision := Next(s, e), s.rows[id], Decided(s, e, id);
            !InFlight(s, id) && row.leasedBy.Some? && id in s'.rows
            && if decision.Send? then s'.rows[id] == row && InFlight(s', id)
               else s'.rows[id].leasedBy.None?
                    && s'.rows[id].trail == row.trail + [if decision.Defer? then Deferred else Dropped]
  {
    assert BatchFits(s, e.worker);
  }

  lemma FinishOf(s: System, e: Event, id: nat)
    requires Inv(s) && Enabled(s, e) && Finishes(s, e, id)
    ensures var s', row := Next(s, e), s.rows[id];
            InFlight(s, id) && id in s'.rows && s'.rows[id].leasedBy.None?
            && s'.rows[id].trail != [] && s'.rows[id].trail == row.trail + [Last(s'.rows[id].trail)]
            && Last(s'.rows[id].trail).Attempted? && Last(s'.rows[id].trail).outcome == Classify(e.status)
  {
    hide Settle, Classify;
    assert BatchFits(s, e.worker);
    SettledOnce(s.rows[id], s.workers[e.worker].batch[0].attempts, Classify(e.status), e.at, e.jitter);
  }

  lemma SettledOnce(row: Row, leasedAttempts: nat, outcome: Outcome, at: int, jitter: int)
    ensures var row' := Settle(row, leasedAttempts, outcome, at, jitter);
            row'.leasedBy.None? && row'.trail != [] && row'.trail == row.trail + [Last(row'.trail)]
            && Last(row'.trail).Attempted? && Last(row'.trail).outcome == outcome
  {
  }

  /** Any other step leaves the row's trail, and whether it is in flight; a lease of it lends it out. */
  lemma OtherStep(s: System, e: Event, id: nat)
    requires Inv(s) && Enabled(s, e) && id in s.rows && !TakesUp(s, e, id) && !Finishes(s, e, id)
    ensures var s', row := Next(s, e), s.rows[id];
            id in s'.rows && s'.rows[id].trail == row.trail && (InFlight(s', id) <==> InFlight(s, id))
            && (if e.Lease? && id in e.picked then row.leasedBy.None? && s'.rows[id].leasedBy.Some?
                else s'.rows[id].leasedBy == row.leasedBy)
  {
    match e
    case Enqueue(_, _) =>
    case Release(_, _) =>
    case Lease(w, picked, locked, now) => LeaseOf(s, e, id);
    case TakeUp(w, look) => assert BatchFits(s, w); HeldElsewhere(s, w, id);
    case Finish(w, status, at, jitter) => assert BatchFits(s, w); HeldElsewhere(s, w, id);
  }

  lemma LeaseOf(s: System, e: Event, id: nat)
    requires Inv(s) && Enabled(s, e) && e.Lease? && id in s.rows
    ensures var s', row := Next(s, e), s.rows[id];
            id in s'.rows && s'.rows[id].trail == row.trail && (InFlight(s', id) <==> InFlight(s, id))
            && (if id in e.picked then row.leasedBy.None? && s'.rows[id].leasedBy.Some?
                else s'.rows[id].leasedBy == row.leasedBy)
  {
    assert BatchFits(s, e.worker);
  }

  /** Nobody but its holder has a row at the head of a batch. */
  lemma HeldElsewhere(s: System, w: nat, id: nat)
    requires Inv(s) && w in s.workers && id in s.rows
    ensures Head(s, w) == Some(id) ==> s.rows[id].leasedBy == Some(w)
  {
    assert BatchFits(s, w);
  }

  lemma StepIsRecorded(s: System, e: Event, id: nat, mutes: seq<bool>, sends: seq<Outcome>, leases: nat)
    requires Inv(s) && Enabled(s, e) && Recorded(s, id, mutes, sends, leases)
    ensures Recorded(Next(s, e), id,
                     mutes + (if TakesUp(s, e, id) then [MutedThen(e.look)] else []),
                     sends + (if Finishes(s, e, id) then [Classify(e.status)] else []),
                     leases + (if e.Lease? && id in e.picked then 1 else 0))
  {
    hide Inv, Enabled, Next, TakesUp, Finishes, InFlight, Decided, MutedThen;
    if id !in s.rows {
      NewRow(s, e, id);
    } else if TakesUp(s, e, id) {
      TakeUpIsRecorded(s, e, id, mutes, sends, leases);
    } else if Finishes(s, e, id) {
      FinishIsRecorded(s, e, id, mutes, sends, leases);
    } else {
      OtherStep(s, e, id);
      assert mutes + [] == mutes && sends + [] == sends;
    }
  }

  lemma TakeUpIsRecorded(s: System, e: Event, id: nat, mutes: seq<bool>, sends: seq<Outcome>, leases: nat)
    requires Inv(s) && Enabled(s, e) && Recorded(s, id, mutes, sends, leases) && TakesUp(s, e, id)
    ensures e.TakeUp? && !Finishes(s, e, id)
    ensures Recorded(Next(s, e), id, mutes + [MutedThen(e.look)], sends + [], leases + 0)
  {
    hide Inv, Enabled, Next, InFlight, Decided, MutedThen;
    TakeUpOf(s, e, id);
    DefersIffMuted(s, e, id);
    NotBoth(s, e, id);
    AttemptsOneMore(s.rows[id].trail, if Decided(s, e, id).Defer? then Deferred else Dropped);
    assert sends + [] == sends;
    FreeRowsDoNotFly(Next(s, e), id);
  }

  lemma FinishIsRecorded(s: System, e: Event, id: nat, mutes: seq<bool>, sends: seq<Outcome>, leases: nat)
    requires Inv(s) && Enabled(s, e) && Recorded(s, id, mutes, sends, leases) && Finishes(s, e, id)
    ensures e.Finish? && !TakesUp(s, e, id)
    ensures Recorded(Next(s, e), id, mutes + [], sends + [Classify(e.status)], leases + 0)
  {
    hide Inv, Enabled, Next, TakesUp, Finishes, InFlight, Decided, MutedThen, Classify;
    FinishOf(s, e, id);
    FreeRowsDoNotFly(s, id);
    NotBoth(s, e, id);
    var before, trail := s.rows[id].trail, Next(s, e).rows[id].trail;
    AttemptsOneMore(before, Last(trail));
    assert trail[|before|] == Last(trail);
    assert forall p :: 0 <= p < |before| ==> trail[p] == before[p];
    assert mutes + [] == mutes;
    FreeRowsDoNotFly(Next(s, e), id);
  }

  lemma FreeRowsDoNotFly(s: System, id: nat)
    ensures InFlight(s, id) ==> id in s.rows && s.rows[id].leasedBy.Some?
  {
  }

  lemma NotBoth(s: System, e: Event, id: nat)
    ensures TakesUp(s, e, id) ==> e.TakeUp? && !Finishes(s, e, id)
    ensures Finishes(s, e, id) ==> e.Finish?
  {
  }

  lemma NewRow(s: System, e: Event, id: nat)
    requires Inv(s) && Enabled(s, e) && id !in s.rows
    ensures !TakesUp(s, e, id) && !Finishes(s, e, id) && !(e.Lease? && id in e.picked)
    ensures id in Next(s, e).rows ==>
              Next(s, e).rows[id].trail == [] && Next(s, e).rows[id].leasedBy.None? && !InFlight(Next(s, e), id)
  {
  }

  /** Over every run a row's marks are its take-ups, its mutes and its sends. */
  lemma {:induction false} TrailIsWhatHappened(states: seq<System>, events: seq<Event>, i: nat, id: nat)
    requires IsRun(states, events) && IsStart(states[0]) && i < |states|
    ensures Recorded(states[i], id, Mutes(states, events, i, id), SendsOf(states, events, i, id), Leases(events, i, id))
    decreases i
  {
    if i > 0 {
      TrailIsWhatHappened(states, events, i - 1, id);
      RunsKeepInv(states, events, i - 1);
      StepIsRecorded(states[i - 1], events[i - 1], id,
                     Mutes(states, events, i - 1, id), SendsOf(states, events, i - 1, id), Leases(events, i - 1, id));
    }
  }

  /** Of a row that was not dropped, the deferrals are exactly the take-ups that found its channel muted. */
  lemma DeferralsAreMutes(states: seq<System>, events: seq<Event>, i: nat, id: nat)
    requires IsRun(states, events) && IsStart(states[0]) && i < |states| && id in states[i].rows
    ensures var trail, mutes := states[i].rows[id].trail, Mutes(states, events, i, id);
            |trail| <= |mutes|
            && (forall p :: 0 <= p < |trail| && trail[p] != Dropped ==> (trail[p] == Deferred <==> mutes[p]))
            && (forall p :: 0 <= p < |trail| - 1 ==> trail[p] != Dropped)
  {
    RunsKeepInv(states, events, i);
    TrailIsWhatHappened(states, events, i, id);
    var row := states[i].rows[id];
    if row.trail != [] {
      var live := AllBut(row.trail);
      assert forall p :: 0 <= p < |live| ==> live[p] == row.trail[p];
    }
  }

  /** There is none where the channel is never found muted. */
  lemma {:induction false} NeverMutedMeetsNoMute(states: seq<System>, events: seq<Event>, i: nat, id: nat)
    requires IsRun(states, events) && i < |states| && NeverMuted(states, events, i, id)
    ensures true !in Mutes(states, events, i, id)
    decreases i
  {
    if i > 0 {
      NeverMutedMeetsNoMute(states, events, i - 1, id);
      assert TakesUp(states[i - 1], events[i - 1], id) ==> !MutedThen(events[i - 1].look);
    }
  }

  lemma NeverMutedNeverDeferred(states: seq<System>, events: seq<Event>, i: nat, id: nat)
    requires IsRun(states, events) && IsStart(states[0]) && i < |states| && id in states[i].rows
    requires NeverMuted(states, events, i, id)
    ensures NeverDeferred(states[i].rows[id].trail)
  {
    DeferralsAreMutes(states, events, i, id);
    NeverMutedMeetsNoMute(states, events, i, id);
    var trail, mutes := states[i].rows[id].trail, Mutes(states, events, i, id);
    assert forall p :: 0 <= p < |mutes| ==> mutes[p] in mutes;
  }

  // ----- sends and leases -----

  predicate NeverDeferred(trail: seq<Mark>) {
    forall p :: 0 <= p < |trail| ==> trail[p] != Deferred
  }

  function Successes(sends: seq<Outcome>): nat {
    if sends == [] then 0
    else Successes(sends[..|sends| - 1]) + (if sends[|sends| - 1] == Delivered then 1 else 0)
  }

  lemma {:induction false} LiveAttempts(trail: seq<Mark>)
    requires LiveTrail(trail)
    ensures |Attempts(trail)| <= |trail| && |Attempts(trail)| < MAX_ATTEMPTS && Successes(Attempts(trail)) == 0
    decreases |trail|
  {
    if trail != [] {
      LiveAttempts(AllBut(trail));
      SuccessesOneMore(Attempts(AllBut(trail)), Last(trail));
      if |trail| >= MAX_ATTEMPTS {
        assert trail[|trail| - 1] == Deferred;
      }
    }
  }

  lemma SuccessesOneMore(sends: seq<Outcome>, mark: Mark)
    ensures mark.Attempted? ==>
              Successes(sends + [mark.outcome]) == Successes(sends) + (if mark.outcome == Delivered then 1 else 0)
    ensures sends + [] == sends
  {
    if mark.Attempted? {
      assert (sends + [mark.outcome])[..|sends|] == sends;
    }
  }

  /** At most five sends, at most one of them successful, and that one exactly when the row is sent. */
  lemma AtMostFiveSends(states: seq<System>, events: seq<Event>, i: nat, id: nat)
    requires IsRun(states, events) && IsStart(states[0]) && i < |states| && id in states[i].rows
    ensures var row, sends := states[i].rows[id], SendsOf(states, events, i, id);
            |sends| <= MAX_ATTEMPTS && |sends| <= row.attempts
            && Successes(sends) == (if row.state == Sent then 1 else 0)
  {
    RunsKeepInv(states, events, i);
    TrailIsWhatHappened(states, events, i, id);
    var row := states[i].rows[id];
    if row.state == Pending {
      LiveAttempts(row.trail);
    } else {
      LiveAttempts(AllBut(row.trail));
      SuccessesOneMore(Attempts(AllBut(row.trail)), Last(row.trail));
    }
  }

  /** Dead because its retries ran out. */
  predicate IsExhausted(row: Row) {
    row.state == Dead && row.trail != [] && Last(row.trail) == Attempted(Retryable, 0)
  }

  /**
   A mute uses up an attempt: a row that ran out was sent five times exactly if its first
   four take-ups found its channel not muted.
   */
  lemma ExhaustedAfterFiveSendsIff(states: seq<System>, events: seq<Event>, i: nat, id: nat)
    requires IsRun(states, events) && IsStart(states[0]) && i < |states|
    requires id in states[i].rows && IsExhausted(states[i].rows[id])
    ensures var mutes := Mutes(states, events, i, id);
            |mutes| >= MAX_ATTEMPTS
            && (|SendsOf(states, events, i, id)| == MAX_ATTEMPTS <==> true !in mutes[..MAX_ATTEMPTS - 1])
  {
    hide *;
    ExhaustedRow(states, events, i, id);
    DeferralsAreMutes(states, events, i, id);
    var trail, mutes := states[i].rows[id].trail, Mutes(states, events, i, id);
    ExhaustedTrail(trail);
    MutesAmongFour(trail, mutes);
  }

  lemma ExhaustedRow(states: seq<System>, events: seq<Event>, i: nat, id: nat)
    requires IsRun(states, events) && IsStart(states[0]) && i < |states|
    requires id in states[i].rows && IsExhausted(states[i].rows[id])
    ensures var trail := states[i].rows[id].trail;
            |trail| >= MAX_ATTEMPTS && LiveTrail(AllBut(trail)) && Last(trail).Attempted?
            && SendsOf(states, events, i, id) == Attempts(trail)
  {
    RunsKeepInv(states, events, i);
    TrailIsWhatHappened(states, events, i, id);
    hide IsRun, IsStart;
  }

  lemma MutesAmongFour(trail: seq<Mark>, mutes: seq<bool>)
    requires MAX_ATTEMPTS <= |trail| <= |mutes|
    requires forall p :: 0 <= p < |trail| && trail[p] != Dropped ==> (trail[p] == Deferred <==> mutes[p])
    requires forall p :: 0 <= p < |trail| - 1 ==> trail[p] != Dropped
    ensures true !in mutes[..MAX_ATTEMPTS - 1] <==> forall p :: 0 <= p < MAX_ATTEMPTS - 1 ==> trail[p] != Deferred
  {
    var four := mutes[..MAX_ATTEMPTS - 1];
    assert forall p :: 0 <= p < MAX_ATTEMPTS - 1 ==> (four[p] <==> trail[p] == Deferred);
    if p :| 0 <= p < MAX_ATTEMPTS - 1 && trail[p] == Deferred {
      assert four[p] in four;
    }
  }

  lemma ExhaustedTrail(trail: seq<Mark>)
    requires |trail| >= MAX_ATTEMPTS && LiveTrail(AllBut(trail)) && Last(trail).Attempted?
    ensures |Attempts(trail)| == MAX_ATTEMPTS <==> forall p :: 0 <= p < MAX_ATTEMPTS - 1 ==> trail[p] != Deferred
  {
    var live := AllBut(trail);
    AttemptsAreTheFirstFour(live);
    assert forall p :: 0 <= p < |live| ==> live[p] == trail[p];
  }

  lemma {:induction false} AttemptsAreTheFirstFour(live: seq<Mark>)
    requires LiveTrail(live)
    ensures |Attempts(live)| <= |live|
    ensures |Attempts(live)| == (if |live| < MAX_ATTEMPTS - 1 then |live| else MAX_ATTEMPTS - 1)
            <==> forall p :: 0 <= p < |live| && p < MAX_ATTEMPTS - 1 ==> live[p] != Deferred
    ensures |Attempts(live)| <= MAX_ATTEMPTS - 1
    decreases |live|
  {
    if live != [] {
      var rest := AllBut(live);
      AttemptsAreTheFirstFour(rest);
      assert forall p :: 0 <= p < |rest| ==> rest[p] == live[p];
      var n := |live| - 1;
      assert live[n] == Deferred || n + 1 < MAX_ATTEMPTS;
    }
  }

  lemma UndeferredIsShort(live: seq<Mark>)
    requires LiveTrail(live) && NeverDeferred(live)
    ensures |live| < MAX_ATTEMPTS
  {
    if live != [] {
      assert live[|live| - 1].Attempted?;
    }
  }

  /** Never muted: at most five leases, and final once the fifth is worked off. */
  lemma UnmutedEndsWithinFiveLeases(states: seq<System>, events: seq<Event>, i: nat, id: nat)
    requires IsRun(states, events) && IsStart(states[0]) && i < |states| && id in states[i].rows
    requires NeverMuted(states, events, i, id)
    ensures var row, leases := states[i].rows[id], Leases(events, i, id);
            leases <= MAX_ATTEMPTS && (leases == MAX_ATTEMPTS && row.leasedBy.None? ==> row.state != Pending)
  {
    RunsKeepInv(states, events, i);
    TrailIsWhatHappened(states, events, i, id);
    NeverMutedNeverDeferred(states, events, i, id);
    var row := states[i].rows[id];
    var live := if row.state == Pending then row.trail else AllBut(row.trail);
    assert forall p :: 0 <= p < |live| ==> live[p] == row.trail[p];
    UndeferredIsShort(live);
  }

  // ----- the breaker -----

  /** The sends one worker made for one channel, with when they ended and whether they succeeded. */
  function OwnSends(states: seq<System>, events: seq<Event>, i: nat, w: nat, channel: nat): seq<Told>
    requires IsRun(states, events) && i < |states|
  {
    if i == 0 then []
    else
      var s, e := states[i - 1], events[i - 1];
      var earlier := OwnSends(states, events, i - 1, w, channel);
      if e.Finish? && e.worker == w && Head(s, w).Some? && Head(s, w).value in s.rows
         && s.rows[Head(s, w).value].channel == channel
      then earlier + [Told(e.at, Classify(e.status) == Delivered)]
      else earlier
  }

  /** A breaker's log is its worker's own sends for its channel. */
  lemma {:induction false} LogsAreOwnSends(states: seq<System>, events: seq<Event>, i: nat, w: nat, channel: nat)
    requires IsRun(states, events) && IsStart(states[0]) && i < |states| && w in states[i].workers
    ensures LogOf(states[i].workers[w].logs, channel) == OwnSends(states, events, i, w, channel)
    decreases i
  {
    if i > 0 {
      assert Enabled(states[i - 1], events[i - 1]) && states[i] == Next(states[i - 1], events[i - 1]);
      LogsAreOwnSends(states, events, i - 1, w, channel);
    }
  }

  /** A worker's clock does not go back between its sends. */
  predicate ClocksRun(events: seq<Event>) {
    forall j, k :: 0 <= j < k < |events|
      && events[j].Finish? && events[k].Finish? && events[j].worker == events[k].worker
      ==> events[j].at <= events[k].at
  }

  lemma {:induction false} OwnSendsInOrder(states: seq<System>, events: seq<Event>, i: nat, w: nat, channel: nat)
    requires IsRun(states, events) && i < |states| && ClocksRun(events)
    ensures InOrder(OwnSends(states, events, i, w, channel))
    ensures forall t :: t in OwnSends(states, events, i, w, channel) ==>
              exists j :: 0 <= j < i && events[j].Finish? && events[j].worker == w && events[j].at == t.at
    decreases i
  {
    if i > 0 {
      OwnSendsInOrder(states, events, i - 1, w, channel);
      var earlier, sends := OwnSends(states, events, i - 1, w, channel), OwnSends(states, events, i, w, channel);
      forall p, q | 0 <= p < q < |sends| ensures sends[p].at <= sends[q].at {
        if q == |earlier| {
          assert sends[p] == earlier[p] && earlier[p] in earlier;
        }
      }
      forall t | t in sends
        ensures exists j :: 0 <= j < i && events[j].Finish? && events[j].worker == w && events[j].at == t.at
      {
        if t !in earlier {
          assert events[i - 1].Finish? && events[i - 1].worker == w && events[i - 1].at == t.at;
        }
      }
    }
  }

  /** Since its last success the worker's own sends for the channel have only failed, for five minutes. */
  ghost predicate FailingForFiveMinutes(sends: seq<Told>, now: int) {
    exists start: nat :: FailingSince(sends, start, now)
  }

  /**
   Over every run, a row of a channel other than email goes to the project's email exactly
   when its worker's own sends for that channel have only failed for five minutes since the
   last success; it is dead for want of an email only then, and otherwise goes to its own target.
   */
  lemma FailsOverIff(states: seq<System>, events: seq<Event>, i: nat, id: nat)
    requires IsRun(states, events) && IsStart(states[0]) && i < |events| && ClocksRun(events)
    requires TakesUp(states[i], events[i], id)
    requires events[i].look.channel.Some? && events[i].look.channel.value.kind != Email
    ensures var row, look, decision := states[i].rows[id], events[i].look, Decided(states[i], events[i], id);
            var channel := look.channel.value;
            var failing := FailingForFiveMinutes(OwnSends(states, events, i, events[i].worker, row.channel), look.now);
            (decision.Send? ==>
               (decision.message.kind == Email <==> failing)
               && decision.message.target == if failing then look.email else channel.target)
            && (decision == Drop(NoEmailChannel)
                <==> failing && look.email == "" && !(channel.frozen && row.topic != Test))
  {
    assert i < |states|;
    hide IsRun, IsStart, ClocksRun, FailingSince, Decide, BreakerOpen;
    var w, row := events[i].worker, states[i].rows[id];
    var sends := OwnSends(states, events, i, w, row.channel);
    LogsAreOwnSends(states, events, i, w, row.channel);
    OwnSendsInOrder(states, events, i, w, row.channel);
    BreakerMeaning(sends, events[i].look.now);
    RouteIs(row, events[i].look, StreakStart(sends));
  }

  lemma RouteIs(row: Row, look: Look, since: Option<int>)
    requires look.channel.Some? && look.channel.value.kind != Email
    ensures var decision, channel, open := Decide(row, look, since), look.channel.value, BreakerOpen(since, look.now);
            (decision.Send? ==>
               (decision.message.kind == Email <==> open)
               && decision.message.target == if open then look.email else channel.target)
            && (decision == Drop(NoEmailChannel)
                <==> open && look.email == "" && !(channel.frozen && row.topic != Test))
  {
  }

  // ----- fewer than five sends -----

  /** One row, and one idle worker. */
  function Solo(row: Row, logs: Logs): System {
    System(map[0 := row], map[0 := Hand([], false, logs)])
  }

  ghost predicate Reaches(states: seq<System>, events: seq<Event>, row: Row, logs: Logs) {
    IsRun(states, events) && IsStart(states[0]) && states[|events|] == Solo(row, logs)
  }

  lemma Extend(states: seq<System>, events: seq<Event>, e: Event)
    requires IsRun(states, events) && Enabled(states[|events|], e)
    ensures IsRun(states + [Next(states[|events|], e)], events + [e])
  {
    var more := states + [Next(states[|events|], e)];
    assert forall i :: 0 <= i < |states| ==> more[i] == states[i];
  }

  lemma SoloLease(states: seq<System>, events: seq<Event>, row: Row, logs: Logs)
    returns (states': seq<System>, events': seq<Event>)
    requires Reaches(states, events, row, logs) && row.state == Pending && row.leasedBy.None?
    ensures IsRun(states', events') && IsStart(states'[0])
    ensures states'[|events'|] == System(map[0 := row.(leasedBy := Some(0))],
                                         map[0 := Hand([Item(0, row.attempts)], false, logs)])
  {
    var e := Lease(0, [0], {}, row.nextTry);
    assert CanPick(states[|events|].rows, {}, [0], row.nextTry);
    Extend(states, events, e);
    states', events' := states + [Next(states[|events|], e)], events + [e];
    var s := states'[|events'|];
    assert s.rows == map[0 := row.(leasedBy := Some(0))];
    assert s.workers[0].batch == [Item(0, row.attempts)];
    assert s.workers == map[0 := Hand([Item(0, row.attempts)], false, logs)];
  }

  /** A lease that meets a mute. */
  lemma MutedRound(states: seq<System>, events: seq<Event>, row: Row, logs: Logs)
    returns (states': seq<System>, events': seq<Event>, row': Row)
    requires Reaches(states, events, row, logs) && row.state == Pending && row.leasedBy.None? && row.topic == Page
    ensures row' == RescheduledRow(row, Deferred, row.nextTry + SECOND) && Reaches(states', events', row', logs)
  {
    states', events' := SoloLease(states, events, row, logs);
    var channel := Channel(Email, "a", 0, false, Some(row.nextTry + SECOND), None);
    var e := TakeUp(0, Look(row.nextTry, Some(channel), "", {Email}, None));
    Extend(states', events', e);
    var s := Next(states'[|events'|], e);
    row' := RescheduledRow(row, Deferred, row.nextTry + SECOND);
    assert s.rows == map[0 := row'];
    assert s.workers[0].batch == [];
    assert s.workers == map[0 := Hand([], false, logs)];
    states', events' := states' + [s], events' + [e];
  }

  /** A lease whose send fails and may be retried. */
  lemma FailedRound(states: seq<System>, events: seq<Event>, row: Row, logs: Logs)
    returns (states': seq<System>, events': seq<Event>, row': Row, logs': Logs)
    requires Reaches(states, events, row, logs) && row.state == Pending && row.leasedBy.None? && row.topic == Page
    ensures Reaches(states', events', row', logs') && row' == Settle(row, row.attempts, Retryable, row.nextTry, 0)
    ensures row'.leasedBy.None? && row'.topic == Page && row'.attempts == row.attempts + 1
    ensures if row'.attempts < MAX_ATTEMPTS then row'.state == Pending else IsExhausted(row')
    ensures |Attempts(row'.trail)| == |Attempts(row.trail)| + 1
  {
    hide Settle, IsExhausted, Attempts;
    states', events' := SoloLease(states, events, row, logs);
    var channel := Channel(Email, "a", 0, false, None, None);
    var take, finish := TakeUp(0, Look(row.nextTry, Some(channel), "", {Email}, None)), Finish(0, None, row.nextTry, 0);
    Extend(states', events', take);
    var flying := Next(states'[|events'|], take);
    states', events' := states' + [flying], events' + [take];
    assert flying.workers[0] == Hand([Item(0, row.attempts)], true, logs);
    assert IsJitter(row.attempts + 1, 0);
    RetrySettled(row);
    Extend(states', events', finish);
    var s := Next(flying, finish);
    row', logs' := Settle(row, row.attempts, Retryable, row.nextTry, 0), s.workers[0].logs;
    assert s.rows == map[0 := row'];
    assert s.workers[0].batch == [];
    assert s.workers == map[0 := Hand([], false, logs')];
    states', events' := states' + [s], events' + [finish];
  }

  lemma RetrySettled(row: Row)
    requires row.state == Pending
    ensures var row' := Settle(row, row.attempts, Retryable, row.nextTry, 0);
            row' == Settle(row.(leasedBy := Some(0)), row.attempts, Retryable, row.nextTry, 0)
            && row'.leasedBy.None? && row'.topic == row.topic && row'.attempts == row.attempts + 1
            && (if row'.attempts < MAX_ATTEMPTS then row'.state == Pending else IsExhausted(row'))
            && |Attempts(row'.trail)| == |Attempts(row.trail)| + 1
  {
    var row' := Settle(row, row.attempts, Retryable, row.nextTry, 0);
    assert row'.trail == row.trail + [Last(row'.trail)];
    AttemptsOneMore(row.trail, Last(row'.trail));
  }

  /** One mute and four failures: out of retries after four sends. */
  lemma MuteCostsASend() returns (states: seq<System>, events: seq<Event>)
    ensures IsRun(states, events) && IsStart(states[0])
    ensures var last := states[|events|]; 0 in last.rows && IsExhausted(last.rows[0])
    ensures |SendsOf(states, events, |events|, 0)| == MAX_ATTEMPTS - 1
  {
    var row := Row(0, Page, None, Pending, 0, 0, None, []);
    var logs: Logs := map[];
    var start := System(map[], map[0 := Hand([], false, map[])]);
    Extend([start], [], Enqueue(0, row));
    states, events := [start, Next(start, Enqueue(0, row))], [Enqueue(0, row)];
    assert [start] + [Next(start, Enqueue(0, row))] == states && [] + [Enqueue(0, row)] == events;
    assert Reaches(states, events, row, logs);
    hide Reaches, IsExhausted, Attempts, Settle, IsRun, IsStart;
    AttemptsOneMore([], Deferred);
    states, events, row := MutedRound(states, events, row, logs);
    states, events, row, logs := FailedRound(states, events, row, logs);
    states, events, row, logs := FailedRound(states, events, row, logs);
    states, events, row, logs := FailedRound(states, events, row, logs);
    states, events, row, logs := FailedRound(states, events, row, logs);
    ReachesMeans(states, events, row, logs);
    TrailIsWhatHappened(states, events, |events|, 0);
  }

  lemma ReachesMeans(states: seq<System>, events: seq<Event>, row: Row, logs: Logs)
    requires Reaches(states, events, row, logs)
    ensures IsRun(states, events) && IsStart(states[0])
    ensures 0 in states[|events|].rows && states[|events|].rows[0] == row
  {
  }
}

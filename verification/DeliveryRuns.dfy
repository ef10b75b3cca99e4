/**
 Several delivery workers on one queue, one statement at a time, in any order,
 without crashes.  A worker leases a batch and then works off its head: it looks the
 channel up and either sets the row aside at once, or sends and later records how the
 send went, with any number of other workers' steps in between.
 */
module DeliveryRuns {
  import opened Outcomes
  import opened Delivery

  /** A leased row as the worker remembers it. */
  datatype Item = Item(id: nat, attempts: nat)

  /** What a worker holds: its batch, whether it is sending the head of it, and what it told its breakers. */
  datatype Hand = Hand(batch: seq<Item>, sending: bool, logs: Logs)

  datatype System = System(rows: map<nat, Row>, workers: map<nat, Hand>)

  datatype Event =
    | Enqueue(id: nat, row: Row)
    | Release(id: nat, nextTry: int)                  // a mute was lifted from the bot
    | Lease(worker: nat, picked: seq<nat>, locked: set<nat>, now: int)
    | TakeUp(worker: nat, look: Look)
    | Finish(worker: nat, status: Option<int>, at: int, jitter: int)

  predicate IsNew(row: Row) {
    row.state == Pending && row.leasedBy.None? && row.attempts == 0 && row.trail == []
  }

  predicate Enabled(s: System, e: Event) {
    match e
    case Enqueue(id, row) => id !in s.rows && IsNew(row)
    case Release(id, _) => id in s.rows && s.rows[id].state == Pending && s.rows[id].leasedBy.None?
    case Lease(w, picked, locked, now) =>
      w in s.workers && s.workers[w].batch == [] && CanPick(s.rows, locked, picked, now)
    case TakeUp(w, _) =>
      w in s.workers && s.workers[w].batch != [] && !s.workers[w].sending && s.workers[w].batch[0].id in s.rows
    case Finish(w, _, _, jitter) =>
      w in s.workers && s.workers[w].batch != [] && s.workers[w].sending && s.workers[w].batch[0].id in s.rows
      && IsJitter(s.workers[w].batch[0].attempts + 1, jitter)
  }

  function Next(s: System, e: Event): System
    requires Enabled(s, e)
  {
    match e
    case Enqueue(id, row) => s.(rows := s.rows[id := row])
    case Release(id, nextTry) => s.(rows := s.rows[id := s.rows[id].(nextTry := nextTry)])
    case Lease(w, picked, _, _) =>
      var items := seq(|picked|, i requires 0 <= i < |picked| && picked[i] in s.rows =>
        Item(picked[i], s.rows[picked[i]].attempts));
      System(LeasedRows(s.rows, picked, w), s.workers[w := s.workers[w].(batch := items)])
    case TakeUp(w, look) =>
      var hand := s.workers[w];
      var id := hand.batch[0].id;
      var row := s.rows[id];
      var decision := Decide(row, look, Since(hand.logs, row.channel));
      if decision.Send? then s.(workers := s.workers[w := hand.(sending := true)])
      else System(s.rows[id := SetAside(row, decision)], s.workers[w := hand.(batch := hand.batch[1..])])
    case Finish(w, status, at, jitter) =>
      var hand := s.workers[w];
      var item := hand.batch[0];
      var row := s.rows[item.id];
      var outcome := Classify(status);
      System(
        s.rows[item.id := Settle(row, item.attempts, outcome, at, jitter)],
        s.workers[w := Hand(hand.batch[1..], false, Noted(hand.logs, row.channel, Told(at, outcome == Delivered)))])
  }

  predicate IsRun(states: seq<System>, events: seq<Event>) {
    |states| == |events| + 1
    && forall i :: 0 <= i < |events| ==> Enabled(states[i], events[i]) && states[i + 1] == Next(states[i], events[i])
  }

  predicate IsStart(s: System) {
    s.rows == map[] && forall w :: w in s.workers ==> s.workers[w] == Hand([], false, map[])
  }

  // ----- the invariant -----

  /** The wait a failed attempt gave: its backoff and a jitter below half of it. */
  predicate IsWait(attempt: nat, wait: int) {
    IsJitter(attempt, wait - BackoffBase(attempt))
  }

  /** A trail that left the row pending. */
  predicate LiveTrail(trail: seq<Mark>) {
    forall p :: 0 <= p < |trail| ==>
      trail[p] == Deferred
      || (trail[p].Attempted? && trail[p].outcome == Retryable && p + 1 < MAX_ATTEMPTS && IsWait(p + 1, trail[p].wait))
  }

  predicate TrailFits(row: Row) {
    row.attempts == |row.trail|
    && match row.state
       case Pending => LiveTrail(row.trail)
       case Sent => row.trail != [] && LiveTrail(AllBut(row.trail)) && Last(row.trail) == Attempted(Delivered, 0)
       case Dead =>
         row.trail != [] && LiveTrail(AllBut(row.trail))
         && (Last(row.trail) == Dropped || Last(row.trail) == Attempted(Fatal, 0)
             || (Last(row.trail) == Attempted(Retryable, 0) && |row.trail| >= MAX_ATTEMPTS))
  }

  function AllBut(trail: seq<Mark>): seq<Mark>
    requires trail != []
  {
    trail[..|trail| - 1]
  }

  function Last(trail: seq<Mark>): Mark
    requires trail != []
  {
    trail[|trail| - 1]
  }

  /** `worker` has this row in its batch. */
  predicate InHand(s: System, worker: nat, id: nat) {
    worker in s.workers && exists k :: 0 <= k < |s.workers[worker].batch| && s.workers[worker].batch[k].id == id
  }

  predicate BatchFits(s: System, w: nat)
    requires w in s.workers
  {
    var batch := s.workers[w].batch;
    (forall k :: 0 <= k < |batch| ==>
       batch[k].id in s.rows
       && s.rows[batch[k].id].state == Pending
       && s.rows[batch[k].id].leasedBy == Some(w)
       && s.rows[batch[k].id].attempts == batch[k].attempts)
    && (s.workers[w].sending ==> batch != [])
    && forall j, k :: 0 <= j < k < |batch| ==> batch[j].id != batch[k].id
  }

  predicate Inv(s: System) {
    (forall id :: id in s.rows ==>
       TrailFits(s.rows[id])
       && (s.rows[id].state != Pending ==> s.rows[id].leasedBy.None?)
       && (s.rows[id].leasedBy.Some? ==> InHand(s, s.rows[id].leasedBy.value, id)))
    && forall w :: w in s.workers ==> BatchFits(s, w)
  }

  lemma SetAsideFits(row: Row, decision: Decision)
    requires row.state == Pending && TrailFits(row) && !decision.Send?
    ensures TrailFits(SetAside(row, decision))
  {
    var row' := SetAside(row, decision);
    assert AllBut(row'.trail) == row.trail;
  }

  lemma SettleFits(row: Row, outcome: Outcome, now: int, jitter: int)
    requires row.state == Pending && TrailFits(row) && IsJitter(row.attempts + 1, jitter)
    ensures TrailFits(Settle(row, row.attempts, outcome, now, jitter))
  {
    var row' := Settle(row, row.attempts, outcome, now, jitter);
    assert AllBut(row'.trail) == row.trail;
  }

  /** The worker is done with the head of its batch: the row is out of its hands, the others stay. */
  lemma DoneWithHead(s: System, s': System, w: nat, row': Row)
    requires Inv(s) && w in s.workers && s.workers[w].batch != []
    requires s'.rows == s.rows[s.workers[w].batch[0].id := row']
    requires s'.workers.Keys == s.workers.Keys && s'.workers[w].batch == s.workers[w].batch[1..]
    requires !s'.workers[w].sending && forall v :: v in s.workers && v != w ==> s'.workers[v] == s.workers[v]
    requires TrailFits(row') && row'.leasedBy.None?
    ensures Inv(s')
  {
    var batch := s.workers[w].batch;
    var id := batch[0].id;
    assert BatchFits(s, w);
    forall v | v in s'.workers ensures BatchFits(s', v) {
      assert BatchFits(s, v);
      if v == w {
        assert forall k :: 0 <= k < |batch[1..]| ==> batch[1..][k] == batch[k + 1] && batch[k + 1].id != id;
      } else {
        forall k | 0 <= k < |s.workers[v].batch| ensures s.workers[v].batch[k].id != id {
          assert s.rows[s.workers[v].batch[k].id].leasedBy == Some(v);
        }
      }
    }
    forall other | other in s'.rows && s'.rows[other].leasedBy.Some?
      ensures InHand(s', s'.rows[other].leasedBy.value, other)
    {
      var v := s.rows[other].leasedBy.value;
      assert InHand(s, v, other);
      var k :| 0 <= k < |s.workers[v].batch| && s.workers[v].batch[k].id == other;
      if v == w {
        assert s'.workers[w].batch[k - 1].id == other;
      } else {
        assert s'.workers[v].batch[k].id == other;
      }
    }
  }

  lemma LeaseKeepsInv(s: System, w: nat, picked: seq<nat>, locked: set<nat>, now: int)
    requires Inv(s) && Enabled(s, Lease(w, picked, locked, now))
    ensures Inv(Next(s, Lease(w, picked, locked, now)))
  {
    assert BatchFits(s, w);
    var s' := Next(s, Lease(w, picked, locked, now));
    forall v | v in s'.workers ensures BatchFits(s', v) {
      assert BatchFits(s, v);
      if v != w {
        forall k | 0 <= k < |s.workers[v].batch| ensures s.workers[v].batch[k].id !in picked {
          assert s.rows[s.workers[v].batch[k].id].leasedBy == Some(v);
        }
      }
    }
    forall id | id in s'.rows && s'.rows[id].leasedBy.Some?
      ensures InHand(s', s'.rows[id].leasedBy.value, id)
    {
      if id in picked {
        var k :| 0 <= k < |picked| && picked[k] == id;
        assert s'.workers[w].batch[k].id == id;
      } else {
        var v := s.rows[id].leasedBy.value;
        assert InHand(s, v, id);
        var k :| 0 <= k < |s.workers[v].batch| && s.workers[v].batch[k].id == id;
        assert s'.workers[v].batch[k].id == id;
      }
    }
  }

  lemma NextKeepsInv(s: System, e: Event)
    requires Inv(s) && Enabled(s, e)
    ensures Inv(Next(s, e))
  {
    var s' := Next(s, e);
    match e
    case Enqueue(id, row) =>
      OutOfHandsKeepsInv(s, id, row);
    case Release(id, nextTry) =>
      OutOfHandsKeepsInv(s, id, s.rows[id].(nextTry := nextTry));
    case Lease(w, picked, locked, now) =>
      LeaseKeepsInv(s, w, picked, locked, now);
    case TakeUp(w, look) =>
      var hand := s.workers[w];
      assert BatchFits(s, w);
      var row := s.rows[hand.batch[0].id];
      var decision := Decide(row, look, Since(hand.logs, row.channel));
      if decision.Send? {
        SameBatchesKeepInv(s, s');
      } else {
        SetAsideFits(row, decision);
        DoneWithHead(s, s', w, SetAside(row, decision));
      }
    case Finish(w, status, at, jitter) =>
      assert BatchFits(s, w);
      var item := s.workers[w].batch[0];
      SettleFits(s.rows[item.id], Classify(status), at, jitter);
      DoneWithHead(s, s', w, Settle(s.rows[item.id], item.attempts, Classify(status), at, jitter));
  }

  lemma SameBatchesKeepInv(s: System, s': System)
    requires Inv(s) && s'.rows == s.rows && s'.workers.Keys == s.workers.Keys
    requires forall w :: w in s.workers ==>
               s'.workers[w].batch == s.workers[w].batch && (s'.workers[w].sending ==> s.workers[w].batch != [])
    ensures Inv(s')
  {
    forall w | w in s'.workers ensures BatchFits(s', w) {
      assert BatchFits(s, w);
    }
    forall id | id in s'.rows && s'.rows[id].leasedBy.Some?
      ensures InHand(s', s'.rows[id].leasedBy.value, id)
    {
      var v := s.rows[id].leasedBy.value;
      assert InHand(s, v, id);
      var k :| 0 <= k < |s.workers[v].batch| && s.workers[v].batch[k].id == id;
      assert s'.workers[v].batch[k].id == id;
    }
  }

  /** A change to a row that no worker holds. */
  lemma OutOfHandsKeepsInv(s: System, id: nat, row: Row)
    requires Inv(s) && (id in s.rows ==> s.rows[id].leasedBy.None?)
    requires TrailFits(row) && row.leasedBy.None?
    ensures Inv(s.(rows := s.rows[id := row]))
  {
    var s' := s.(rows := s.rows[id := row]);
    forall w | w in s'.workers ensures BatchFits(s', w) {
      assert BatchFits(s, w);
      forall k | 0 <= k < |s.workers[w].batch| ensures s.workers[w].batch[k].id != id {
        assert s.rows[s.workers[w].batch[k].id].leasedBy == Some(w);
      }
    }
    forall other | other in s'.rows && s'.rows[other].leasedBy.Some?
      ensures InHand(s', s'.rows[other].leasedBy.value, other)
    {
      var v := s.rows[other].leasedBy.value;
      assert InHand(s, v, other);
      var k :| 0 <= k < |s.workers[v].batch| && s.workers[v].batch[k].id == other;
      assert s'.workers[v].batch[k].id == other;
    }
  }

  lemma {:induction false} RunsKeepInv(states: seq<System>, events: seq<Event>, i: nat)
    requires IsRun(states, events) && IsStart(states[0]) && i < |states|
    ensures Inv(states[i])
    decreases i
  {
    if i > 0 {
      RunsKeepInv(states, events, i - 1);
      NextKeepsInv(states[i - 1], events[i - 1]);
    }
  }

  // ----- what a run guarantees -----

  /** A row is in the hands of at most one worker, once, and only while it is pending. */
  lemma OneHolder(states: seq<System>, events: seq<Event>, i: nat, v: nat, j: nat, w: nat, k: nat)
    requires IsRun(states, events) && IsStart(states[0]) && i < |states|
    requires v in states[i].workers && j < |states[i].workers[v].batch|
    requires w in states[i].workers && k < |states[i].workers[w].batch|
    requires states[i].workers[v].batch[j].id == states[i].workers[w].batch[k].id
    ensures v == w && j == k
    ensures var id := states[i].workers[v].batch[j].id;
            id in states[i].rows && states[i].rows[id].state == Pending && states[i].rows[id].leasedBy == Some(v)
  {
    RunsKeepInv(states, events, i);
    assert BatchFits(states[i], v) && BatchFits(states[i], w);
  }

  lemma StepKeepsFinalRows(s: System, e: Event, id: nat)
    requires Inv(s) && Enabled(s, e) && id in s.rows && s.rows[id].state != Pending
    ensures id in Next(s, e).rows && Next(s, e).rows[id] == s.rows[id]
  {
    if e.TakeUp? || e.Finish? {
      assert BatchFits(s, e.worker);
      assert s.workers[e.worker].batch[0].id != id;
    }
  }

  /** Sent and dead are for good: unleased, and never written again. */
  lemma {:induction false} FinalRowsNeverChange(states: seq<System>, events: seq<Event>, i: nat, j: nat, id: nat)
    requires IsRun(states, events) && IsStart(states[0]) && i <= j < |states|
    requires id in states[i].rows && states[i].rows[id].state != Pending
    ensures id in states[j].rows && states[j].rows[id] == states[i].rows[id]
    ensures states[j].rows[id].leasedBy.None?
    decreases j
  {
    RunsKeepInv(states, events, i);
    if i < j {
      FinalRowsNeverChange(states, events, i, j - 1, id);
      RunsKeepInv(states, events, j - 1);
      StepKeepsFinalRows(states[j - 1], events[j - 1], id);
    }
  }

  /** Each row a worker is done with is final, or pending again and free to lease. */
  lemma WorkedOffRowsAreFree(s: System, e: Event)
    requires Inv(s) && Enabled(s, e) && (e.TakeUp? || e.Finish?)
    requires Next(s, e).workers[e.worker].batch != s.workers[e.worker].batch
    ensures var id := s.workers[e.worker].batch[0].id; var row := Next(s, e).rows[id];
            row.leasedBy.None? && !InHand(Next(s, e), e.worker, id)
            && row.attempts == s.rows[id].attempts + 1 && |row.trail| == |s.rows[id].trail| + 1
  {
    assert BatchFits(s, e.worker);
    var batch := s.workers[e.worker].batch;
    assert forall k :: 0 <= k < |batch[1..]| ==> batch[1..][k] == batch[k + 1] && batch[k + 1].id != batch[0].id;
  }

  /** A worker's ProcessItem is a take-up followed, when it sends, by the finish. */
  lemma ProcessItemIsTwoSteps(s: System, w: nat, chance: Chance)
    requires Inv(s) && Enabled(s, TakeUp(w, chance.look))
    requires IsJitter(s.workers[w].batch[0].attempts + 1, chance.jitter)
    ensures var id, hand := s.workers[w].batch[0].id, s.workers[w];
            var handled := Handle(Desk(s.rows, hand.logs), id, chance);
            var taken := Next(s, TakeUp(w, chance.look));
            var finish := Finish(w, chance.status, chance.sentAt, chance.jitter);
            if Decide(s.rows[id], chance.look, Since(hand.logs, s.rows[id].channel)).Send?
            then Enabled(taken, finish)
                 && Desk(Next(taken, finish).rows, Next(taken, finish).workers[w].logs) == handled
            else Desk(taken.rows, taken.workers[w].logs) == handled
  {
    assert BatchFits(s, w);
  }
}

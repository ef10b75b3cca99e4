/**
 Runs of the incident lifecycle: an undisturbed request is the one step of `Incidents.Next`,
 two overlapping opens give two open incidents and two pages, and a freeze that falls
 between the read and the enqueue does not hold the page back.
 */
module IncidentWitnesses {
  import opened Outcomes
  import Seats
  import opened Incidents
  import opened Thaws
  import opened IncidentRuns

  /** The steps can be taken one after the other. */
  predicate Can(y: System, steps: seq<Step>)
    decreases |steps|
  {
    steps == [] || (Enabled(y, steps[0]) && Can(IncidentRuns.Next(y, steps[0]), steps[1..]))
  }

  function After(y: System, steps: seq<Step>): System
    requires Can(y, steps)
    decreases |steps|
  {
    if steps == [] then y else After(IncidentRuns.Next(y, steps[0]), steps[1..])
  }

  function States(y: System, steps: seq<Step>): (states: seq<System>)
    requires Can(y, steps)
    ensures |states| == |steps| + 1 && states[0] == y && states[|steps|] == After(y, steps)
    decreases |steps|
  {
    if steps == [] then [y] else [y] + States(IncidentRuns.Next(y, steps[0]), steps[1..])
  }

  lemma {:induction false} StatesAreARun(y: System, steps: seq<Step>)
    requires Can(y, steps)
    ensures IsRun(States(y, steps), steps)
    decreases |steps|
  {
    if steps == [] {
    } else {
      var rest := States(IncidentRuns.Next(y, steps[0]), steps[1..]);
      StatesAreARun(IncidentRuns.Next(y, steps[0]), steps[1..]);
      var states := States(y, steps);
      forall i | 0 <= i < |steps|
        ensures Enabled(states[i], steps[i]) && states[i + 1] == IncidentRuns.Next(states[i], steps[i])
      {
        if i > 0 {
          assert states[i] == rest[i - 1] && steps[i] == steps[1..][i - 1];
        }
      }
    }
  }

  lemma {:induction false} Chain(y: System, a: seq<Step>, b: seq<Step>)
    requires Can(y, a) && Can(After(y, a), b)
    ensures Can(y, a + b) && After(y, a + b) == After(After(y, a), b)
    decreases |a|
  {
    if a == [] {
      assert a + b == b;
    } else {
      assert (a + b)[1..] == a[1..] + b;
      Chain(IncidentRuns.Next(y, a[0]), a[1..], b);
    }
  }

  lemma One(y: System, e: Step)
    requires Enabled(y, e)
    ensures Can(y, [e]) && After(y, [e]) == IncidentRuns.Next(y, e)
  {
    assert [e][1..] == [];
  }

  // ----- undisturbed requests -----

  /** From anywhere in the list of destinations to its end. */
  lemma {:induction false} EnqueueRest(y: System, o: nat, queue: seq<Delivery>) returns (steps: seq<Step>)
    requires o in y.tasks && y.tasks[o].Paging? && y.tasks[o].incident < |y.s.incidents|
    requires var t := y.tasks[o];
             t.next <= |t.aud.chans|
             && y.s.queue == EnqueueAll(queue, t.incident, y.s.incidents[t.incident].shape, t.aud, t.next)
    ensures var t := y.tasks[o]; var n := |t.aud.chans|;
            Can(y, steps)
            && After(y, steps) ==
               System(y.s.(queue := EnqueueAll(queue, t.incident, y.s.incidents[t.incident].shape, t.aud, n)),
                      y.tasks[o := t.(next := n)])
    decreases |y.tasks[o].aud.chans| - y.tasks[o].next
  {
    var t := y.tasks[o];
    if t.next == |t.aud.chans| {
      steps := [];
      assert y.tasks[o := t] == y.tasks;
    } else {
      var e := EnqueueNext(o);
      var y' := IncidentRuns.Next(y, e);
      One(y, e);
      var rest := EnqueueRest(y', o, queue);
      Chain(y, [e], rest);
      steps := [e] + rest;
      assert y'.tasks[o := t.(next := |t.aud.chans|)] == y.tasks[o := t.(next := |t.aud.chans|)];
    }
  }

  /** notifyChannels, undisturbed. */
  lemma NotifyRun(y: System, o: nat, aud: Audience) returns (steps: seq<Step>)
    requires o in y.tasks && y.tasks[o].Notify? && y.tasks[o].rows != [] && y.tasks[o].rows[0] < |y.s.incidents|
    ensures Can(y, steps)
    ensures var rows := y.tasks[o].rows;
            After(y, steps) == System(Notified(y.s, rows[0], aud), y.tasks[o := Notify(rows[1..])])
  {
    var rows, read := y.tasks[o].rows, ReadFreeze(o, aud);
    One(y, read);
    steps := [read];
    if y.s.incidents[rows[0]].project !in y.s.frozen {
      var paging := IncidentRuns.Next(y, read);
      var pages := EnqueueRest(paging, o, y.s.queue);
      var paged := After(paging, pages);
      One(paged, Mark(o));
      Chain(paging, pages, [Mark(o)]);
      Chain(y, [read], pages + [Mark(o)]);
      steps := [read] + (pages + [Mark(o)]);
      assert After(y, steps).tasks == y.tasks[o := Notify(rows[1..])];
    }
  }

  function EventOf(ask: Ask, aud: Audience): Event {
    match ask
    case Outage(m) => Event.Open(m, aud)
    case Detection(tenant, project, on, key) => Event.OpenDetect(tenant, project, on, key, aud)
  }

  /** An open nobody disturbs is the one step the sequential code takes. */
  lemma UndisturbedOpen(y: System, o: nat, ask: Ask, aud: Audience) returns (steps: seq<Step>)
    requires o !in y.tasks
    ensures Can(y, steps) && After(y, steps) == System(Incidents.Next(y.s, EventOf(ask, aud)), y.tasks)
  {
    var look := Look(o, ask);
    One(y, look);
    steps := [look];
    if Asked(y.s, ask).Some? {
      var clear := IncidentRuns.Next(y, look);
      One(clear, Insert(o));
      var inserted := IncidentRuns.Next(clear, Insert(o));
      var notify := NotifyRun(inserted, o, aud);
      var done := After(inserted, notify);
      One(done, End(o));
      Chain(inserted, notify, [End(o)]);
      Chain(clear, [Insert(o)], notify + [End(o)]);
      Chain(y, [look], [Insert(o)] + (notify + [End(o)]));
      steps := [look] + ([Insert(o)] + (notify + [End(o)]));
      assert After(y, steps).tasks == y.tasks;
    }
  }

  /** Notified one after the other. */
  function NotifiedAll(s: State, rows: seq<nat>, aud: Audience): (s': State)
    requires forall i :: 0 <= i < |rows| ==> rows[i] < |s.incidents|
    ensures |s'.incidents| == |s.incidents|
    decreases |rows|
  {
    if rows == [] then s else NotifiedAll(Notified(s, rows[0], aud), rows[1..], aud)
  }

  lemma {:induction false} NotifiedAllSnoc(s: State, rows: seq<nat>, x: nat, aud: Audience)
    requires x < |s.incidents| && forall i :: 0 <= i < |rows| ==> rows[i] < |s.incidents|
    ensures NotifiedAll(s, rows + [x], aud) == Notified(NotifiedAll(s, rows, aud), x, aud)
    decreases |rows|
  {
    if rows == [] {
      assert [x][1..] == [];
    } else {
      assert (rows + [x])[1..] == rows[1..] + [x];
      NotifiedAllSnoc(Notified(s, rows[0], aud), rows[1..], x, aud);
    }
  }

  lemma {:induction false} ThawedIsNotifiedAll(s: State, project: nat, aud: Audience, n: nat)
    requires n <= |s.incidents|
    ensures ThawedUpTo(s, project, aud, n) == NotifiedAll(s, UndeliveredRows(s, project, n), aud)
    decreases n
  {
    if n > 0 {
      ThawedIsNotifiedAll(s, project, aud, n - 1);
      NotifiedAllSnoc(s, UndeliveredRows(s, project, n - 1), n - 1, aud);
    }
  }

  lemma {:induction false} NotifyAllRun(y: System, o: nat, aud: Audience) returns (steps: seq<Step>)
    requires o in y.tasks && y.tasks[o].Notify?
    requires forall i :: 0 <= i < |y.tasks[o].rows| ==> y.tasks[o].rows[i] < |y.s.incidents|
    ensures Can(y, steps)
    ensures After(y, steps) == System(NotifiedAll(y.s, y.tasks[o].rows, aud), y.tasks[o := Notify([])])
    decreases |y.tasks[o].rows|
  {
    var rows := y.tasks[o].rows;
    if rows == [] {
      steps := [];
      assert y.tasks[o := Notify([])] == y.tasks;
    } else {
      var first := NotifyRun(y, o, aud);
      var y' := After(y, first);
      var rest := NotifyAllRun(y', o, aud);
      Chain(y, first, rest);
      steps := first + rest;
      assert y'.tasks[o := Notify([])] == y.tasks[o := Notify([])];
    }
  }

  /** So is a thaw notification nobody disturbs. */
  lemma UndisturbedThaw(y: System, o: nat, project: nat, aud: Audience) returns (steps: seq<Step>)
    requires o !in y.tasks
    ensures Can(y, steps) && After(y, steps) == System(Incidents.Next(y.s, NotifyThawed(project, aud)), y.tasks)
  {
    var look := ThawLook(o, project);
    One(y, look);
    var read := IncidentRuns.Next(y, look);
    var notify := NotifyAllRun(read, o, aud);
    var done := After(read, notify);
    One(done, End(o));
    Chain(read, notify, [End(o)]);
    Chain(y, [look], notify + [End(o)]);
    steps := [look] + (notify + [End(o)]);
    ThawedIsNotifiedAll(y.s, project, aud, |y.s.incidents|);
    assert After(y, steps).tasks == y.tasks;
  }

  // ----- disturbed ones -----

  const MONITORS: map<nat, Monitor> := map[0 := Monitor(0, 0)]
  const DOWN := Incident(0, 0, Some(0), Availability(0), true, false)
  const EVERYONE := Audience([Destination(Seats.Channel(1, false, None), true, true, false)], None, false)

  function Begin(): System {
    System(State(MONITORS, {}, [], []), map[])
  }

  /** One open, as far as its insert, and its freeze read and its page. */
  lemma Pages(y: System, o: nat, i: nat)
    requires o in y.tasks && y.tasks[o] == Notify([i])
    requires i < |y.s.incidents| && y.s.incidents[i] == DOWN && y.s.frozen == {}
    ensures var steps := [ReadFreeze(o, EVERYONE), EnqueueNext(o)];
            Can(y, steps)
            && After(y, steps) == System(y.s.(queue := Enqueue(y.s.queue, Delivery(i, 1, Page))),
                                         y.tasks[o := Paging(i, EVERYONE, 1, [])])
  {
    var read, page := ReadFreeze(o, EVERYONE), EnqueueNext(o);
    var paging := IncidentRuns.Next(y, read);
    assert [i][1..] == [];
    assert paging.tasks[o] == Paging(i, EVERYONE, 0, []);
    One(y, read);
    One(paging, page);
    Chain(y, [read], [page]);
    assert [read] + [page] == [read, page];
    assert Hears(EVERYONE, DOWN.shape, EVERYONE.chans[0]);
    assert After(y, [read, page]).tasks == y.tasks[o := Paging(i, EVERYONE, 1, [])];
  }

  /** Two opens of one monitor that overlap: two incidents open at once, and two pages to one destination. */
  lemma TwoOpensTwoPages() returns (states: seq<System>, steps: seq<Step>)
    ensures IsRun(states, steps) && IsStart(states[0])
    ensures var s := states[|steps|].s;
            !OneOpenPerMonitor(s) && HasPage(s.queue, 0, 1) && HasPage(s.queue, 1, 1)
  {
    var y := Begin();
    var looks := [Look(0, Outage(0)), Look(1, Outage(0)), Insert(0), Insert(1)];
    TwoOpens();
    var inserted := After(y, looks);
    var first, second := [ReadFreeze(0, EVERYONE), EnqueueNext(0)], [ReadFreeze(1, EVERYONE), EnqueueNext(1)];
    Pages(inserted, 0, 0);
    Pages(After(inserted, first), 1, 1);
    Chain(inserted, first, second);
    Chain(y, looks, first + second);
    steps := looks + (first + second);
    states := States(y, steps);
    StatesAreARun(y, steps);
    var s := states[|steps|].s;
    assert s.incidents == [DOWN, DOWN];
    assert IsOpenFor(s.incidents[1], s.incidents[0].monitor.value);
    assert s.queue == [Delivery(0, 1, Page), Delivery(1, 1, Page)];
  }

  lemma TwoOpens()
    ensures var looks := [Look(0, Outage(0)), Look(1, Outage(0)), Insert(0), Insert(1)];
            Can(Begin(), looks)
            && After(Begin(), looks) ==
               System(State(MONITORS, {}, [DOWN, DOWN], []), map[0 := Notify([0]), 1 := Notify([1])])
  {
    var y0 := Begin();
    assert Asked(y0.s, Outage(0)) == Some(DOWN);
    var y1 := System(y0.s, map[0 := Clear(DOWN)]);
    var y2 := System(y0.s, map[0 := Clear(DOWN), 1 := Clear(DOWN)]);
    var y3 := System(y0.s.(incidents := [DOWN]), map[0 := Notify([0]), 1 := Clear(DOWN)]);
    var y4 := System(y0.s.(incidents := [DOWN, DOWN]), map[0 := Notify([0]), 1 := Notify([1])]);
    assert IncidentRuns.Next(y0, Look(0, Outage(0))) == y1;
    assert IncidentRuns.Next(y1, Look(1, Outage(0))) == y2;
    assert IncidentRuns.Next(y2, Insert(0)) == y3;
    assert IncidentRuns.Next(y3, Insert(1)) == y4;
    Four(y0, y1, y2, y3, Look(0, Outage(0)), Look(1, Outage(0)), Insert(0), Insert(1));
  }

  lemma Four(y0: System, y1: System, y2: System, y3: System, a: Step, b: Step, c: Step, d: Step)
    requires Enabled(y0, a) && y1 == IncidentRuns.Next(y0, a) && Enabled(y1, b) && y2 == IncidentRuns.Next(y1, b)
    requires Enabled(y2, c) && y3 == IncidentRuns.Next(y2, c) && Enabled(y3, d)
    ensures Can(y0, [a, b, c, d]) && After(y0, [a, b, c, d]) == IncidentRuns.Next(y3, d)
  {
    One(y3, d);
    One(y2, c);
    One(y1, b);
    One(y0, a);
    Chain(y2, [c], [d]);
    Chain(y1, [b], [c] + [d]);
    Chain(y0, [a], [b] + ([c] + [d]));
    assert [a] + ([b] + ([c] + [d])) == [a, b, c, d];
  }

  /** A freeze between the read and the enqueue: the page goes out for a frozen project. */
  lemma FreezeComesTooLate() returns (states: seq<System>, steps: seq<Step>)
    ensures IsRun(states, steps) && IsStart(states[0]) && |steps| == 5
    ensures states[4].s.queue == [] && 0 in states[4].s.frozen
    ensures HasPage(states[5].s.queue, 0, 1) && states[5].s.incidents[..1] == [DOWN]
  {
    var y0 := Begin();
    assert Asked(y0.s, Outage(0)) == Some(DOWN);
    var y1 := System(y0.s, map[0 := Clear(DOWN)]);
    var y2 := System(y0.s.(incidents := [DOWN]), map[0 := Notify([0])]);
    var y3 := System(y2.s, map[0 := Paging(0, EVERYONE, 0, [])]);
    var y4 := System(y2.s.(frozen := {0}), y3.tasks);
    var y5 := System(y4.s.(queue := [Delivery(0, 1, Page)]), map[0 := Paging(0, EVERYONE, 1, [])]);
    steps := [Look(0, Outage(0)), Insert(0), ReadFreeze(0, EVERYONE), FreezeProject(0), EnqueueNext(0)];
    states := [y0, y1, y2, y3, y4, y5];
    Reads(y2, y3);
    LatePage(y4, y5);
    assert IncidentRuns.Next(y0, steps[0]) == y1;
    assert IncidentRuns.Next(y1, steps[1]) == y2;
    assert IncidentRuns.Next(y3, steps[3]) == y4;
    hide Enabled;
  }

  lemma Reads(y: System, y': System)
    requires y == System(State(MONITORS, {}, [DOWN], []), map[0 := Notify([0])])
    requires y' == System(y.s, map[0 := Paging(0, EVERYONE, 0, [])])
    ensures Enabled(y, ReadFreeze(0, EVERYONE)) && IncidentRuns.Next(y, ReadFreeze(0, EVERYONE)) == y'
  {
    assert [0][1..] == [];
  }

  lemma LatePage(y: System, y': System)
    requires y == System(State(MONITORS, {0}, [DOWN], []), map[0 := Paging(0, EVERYONE, 0, [])])
    requires y' == System(y.s.(queue := [Delivery(0, 1, Page)]), map[0 := Paging(0, EVERYONE, 1, [])])
    ensures Enabled(y, EnqueueNext(0)) && IncidentRuns.Next(y, EnqueueNext(0)) == y'
  {
    assert Hears(EVERYONE, DOWN.shape, EVERYONE.chans[0]);
  }
}

/**
 The recorder's channel and its one loop (back/internal/analytics/recorder.go:179-196,
 296-338): requests put tracks in a bounded channel or drop them, the loop collects them
 and flushes by size, by time, and once when it stops.
 */
module RecorderLoop {
  import opened Outcomes
  import opened Recorder
  import opened RecorderRuns

  const BUFFER := 1024
  const FLUSH_ROWS := 100

  datatype Phase = Running | Draining | Done

  /** `accepted` and `batches` only remember what the channel took and what was flushed. */
  datatype State = State(
    queue: seq<Track>, pending: seq<Track>, rows: nat, dropped: nat, phase: Phase,
    accepted: seq<Track>, batches: seq<seq<Track>>)

  const START := State([], [], 0, 0, Running, [], [])

  /** One case of a select: a request's, or one of the loop's. */
  datatype Step = Arrive(track: Track) | Take | Tick | StopAsked | Settle

  function Flushed(s: State): State {
    if s.pending == [] then s else s.(pending := [], rows := 0, batches := s.batches + [s.pending])
  }

  function Next(s: State, step: Step): State {
    match step
    case Arrive(t) =>
      if |s.queue| < BUFFER then s.(queue := s.queue + [t], accepted := s.accepted + [t])
      else s.(dropped := s.dropped + 1)
    case Take =>
      if s.queue == [] || s.phase == Done then s
      else
        var t := s.queue[0];
        var taken := s.(queue := s.queue[1..], pending := s.pending + [t]);
        if s.phase == Draining then taken
        else if s.rows + |t.events| >= FLUSH_ROWS then Flushed(taken)
        else taken.(rows := s.rows + |t.events|)
    case Tick => if s.phase == Running then Flushed(s) else s
    case StopAsked => if s.phase == Running then s.(phase := Draining) else s
    case Settle => if s.phase == Draining && s.queue == [] then Flushed(s).(phase := Done) else s
  }

  function After(s: State, steps: seq<Step>): State {
    if steps == [] then s else Next(After(s, steps[..|steps| - 1]), steps[|steps| - 1])
  }

  ghost predicate Sound(s: State) {
    Concat(s.batches) + s.pending + s.queue == s.accepted
    && |s.queue| <= BUFFER
    && (s.phase == Running ==> s.rows == |Events(s.pending)| < FLUSH_ROWS)
    && (s.phase == Done ==> s.pending == [])
    && forall i :: 0 <= i < |s.batches| ==> s.batches[i] != []
  }

  lemma ConcatOneMore(batches: seq<seq<Track>>, batch: seq<Track>)
    ensures Concat(batches + [batch]) == Concat(batches) + batch
  {
    assert (batches + [batch])[..|batches|] == batches;
  }

  lemma EventsOneMore(tracks: seq<Track>, t: Track)
    ensures Events(tracks + [t]) == Events(tracks) + t.events
  {
    assert (tracks + [t])[..|tracks|] == tracks;
  }

  lemma FlushedIsSound(s: State)
    requires Concat(s.batches) + s.pending + s.queue == s.accepted && |s.queue| <= BUFFER
    requires s.phase == Running ==> s.rows == |Events(s.pending)|
    requires s.phase != Done
    requires forall i :: 0 <= i < |s.batches| ==> s.batches[i] != []
    ensures Sound(Flushed(s)) && Flushed(s).pending == []
  {
    hide Concat;
    ConcatOneMore(s.batches, s.pending);
    var done := Concat(s.batches);
    assert (done + s.pending) + [] == done + s.pending;
    NoEvents();
  }

  lemma NoEvents()
    ensures Events([]) == []
  {
  }

  lemma StepKeepsSound(s: State, step: Step)
    requires Sound(s)
    ensures Sound(Next(s, step))
  {
    hide Concat, Events;
    match step {
      case Arrive(t) =>
        assert Concat(s.batches) + s.pending + (s.queue + [t]) == Concat(s.batches) + s.pending + s.queue + [t];
      case Take =>
        if s.queue != [] && s.phase != Done {
          var t := s.queue[0];
          EventsOneMore(s.pending, t);
          assert [t] + s.queue[1..] == s.queue;
          var taken := s.(queue := s.queue[1..], pending := s.pending + [t]);
          assert Concat(s.batches) + taken.pending + taken.queue == Concat(s.batches) + s.pending + s.queue;
          FlushedIsSound(taken.(rows := s.rows + |t.events|));
        }
      case Tick =>
        if s.phase == Running {
          FlushedIsSound(s);
        }
      case StopAsked =>
      case Settle =>
        if s.phase == Draining {
          FlushedIsSound(s);
        }
    }
  }

  lemma {:induction false} RunsStaySound(steps: seq<Step>)
    ensures Sound(After(START, steps))
    decreases |steps|
  {
    if steps == [] {
      assert Events([]) == [];
    } else {
      RunsStaySound(steps[..|steps| - 1]);
      StepKeepsSound(After(START, steps[..|steps| - 1]), steps[|steps| - 1]);
    }
  }

  /**
   Over every run, once the loop has ended, all the channel accepted before has been
   flushed: each visitor's rows are its events, once and in arrival order, and its first
   touch is the merge of them all.
   */
  lemma NothingAcceptedIsLost(steps: seq<Step>, v: nat)
    requires After(START, steps).phase == Done
    ensures var s := After(START, steps);
            |s.queue| <= |s.accepted| &&
            var gone := s.accepted[..|s.accepted| - |s.queue|];
            var mine := TracksOf(gone, Some(v));
            s.queue == s.accepted[|gone|..]
            && (forall w: Visitor :: RowsOf(SinkAfter(s.batches), w) == RowsFor(w, Events(TracksOf(gone, w))))
            && (mine != [] ==>
                  AfterAll(s.batches, v).Some? && AfterAll(s.batches, v).value.first.fields == Touch(mine).fields)
  {
    RunsStaySound(steps);
    var s := After(START, steps);
    var gone := s.accepted[..|s.accepted| - |s.queue|];
    assert Concat(s.batches) + [] == Concat(s.batches);
    assert gone == Concat(s.batches) && s.queue == s.accepted[|gone|..];
    forall w: Visitor ensures RowsOf(SinkAfter(s.batches), w) == RowsFor(w, Events(TracksOf(gone, w))) {
      SinkIgnoresBatching(s.batches, w);
    }
    FirstTouchIgnoresBatching(s.batches, v);
  }

  function Arrivals(steps: seq<Step>): nat {
    if steps == [] then 0
    else Arrivals(steps[..|steps| - 1]) + (if steps[|steps| - 1].Arrive? then 1 else 0)
  }

  /** Over every run each track that arrived was accepted or counted as dropped. */
  lemma {:induction false} ArrivalsAreCounted(steps: seq<Step>)
    ensures |After(START, steps).accepted| + After(START, steps).dropped == Arrivals(steps)
    decreases |steps|
  {
    if steps != [] {
      ArrivalsAreCounted(steps[..|steps| - 1]);
    }
  }

  /** A track is dropped only by a full channel. */
  lemma ArrivalIs(s: State, t: Track)
    ensures var s' := Next(s, Arrive(t));
            s'.pending == s.pending && s'.batches == s.batches && s'.phase == s.phase
            && if |s.queue| >= 1024 then s'.dropped == s.dropped + 1 && s'.queue == s.queue && s'.accepted == s.accepted
               else s'.dropped == s.dropped && s'.queue == s.queue + [t] && s'.accepted == s.accepted + [t]
  {
  }

  /** What the loop holds once it has done its part of this step, before it decides on a flush. */
  function Collected(s: State, step: Step): seq<Track> {
    if step.Take? && s.queue != [] then s.pending + [s.queue[0]] else s.pending
  }

  /**
   The running loop flushes exactly when it holds something and the timer fires, or when the
   track it takes brings a hundred rows together; the stopping one once the channel is empty.
   A flush takes all there is.
   */
  lemma FlushesWhenDue(s: State, step: Step)
    requires Sound(s) && s.phase != Done
    ensures var s', held := Next(s, step), Collected(s, step);
            var due := if s.phase == Running
                       then step.Tick? || (step.Take? && s.queue != [] && |Events(held)| >= 100)
                       else step.Settle? && s.queue == [];
            if due && held != [] then s'.batches == s.batches + [held] && s'.pending == []
            else s'.batches == s.batches && s'.pending == held
    ensures Next(s, step).phase == (if s.phase == Running then if step.StopAsked? then Draining else Running
                                    else if step.Settle? && s.queue == [] then Done else Draining)
  {
    if step.Take? && s.queue != [] {
      EventsOneMore(s.pending, s.queue[0]);
    }
  }

  /** The end is the end: later steps flush nothing more, and what arrives stays in the channel. */
  lemma {:induction false} NothingIsFlushedAfterTheEnd(s: State, steps: seq<Step>)
    requires s.phase == Done
    ensures var t := After(s, steps); t.phase == Done && t.batches == s.batches && s.queue <= t.queue
    decreases |steps|
  {
    if steps == [] {
    } else {
      NothingIsFlushedAfterTheEnd(s, steps[..|steps| - 1]);
    }
  }

  function Takes(n: nat): seq<Step> {
    seq(n, i => Take)
  }

  /** What stopping does when no request comes in between: one last flush of all there is. */
  function Drained(s: State): State {
    Flushed(s.(phase := Draining, queue := [], pending := s.pending + s.queue)).(phase := Done)
  }

  lemma {:induction false} TakesEmptyTheQueue(s: State, n: nat)
    requires s.phase == Draining && n <= |s.queue|
    ensures After(s, Takes(n)) == s.(queue := s.queue[n..], pending := s.pending + s.queue[..n])
  {
    if n == 0 {
      assert s.queue[0..] == s.queue && s.pending + s.queue[..0] == s.pending;
    } else {
      TakesEmptyTheQueue(s, n - 1);
      assert Takes(n)[..n - 1] == Takes(n - 1);
      assert s.pending + s.queue[..n - 1] + [s.queue[n - 1]] == s.pending + s.queue[..n];
      assert s.queue[n - 1..][1..] == s.queue[n..] && s.queue[n - 1..][0] == s.queue[n - 1];
    }
  }

  /** Draining is a run of the loop's own steps. */
  lemma DrainedIsARun(s: State)
    requires s.phase == Running
    ensures Drained(s) == Next(After(Next(s, StopAsked), Takes(|s.queue|)), Settle)
  {
    TakesEmptyTheQueue(Next(s, StopAsked), |s.queue|);
    assert s.queue[|s.queue|..] == [] && s.queue[..|s.queue|] == s.queue;
  }

  class Loop {
    var queue: seq<Track>
    var pending: seq<Track>
    var rows: nat
    var dropped: nat
    var phase: Phase
    ghost var accepted: seq<Track>
    ghost var batches: seq<seq<Track>>
    const store: Store

    ghost function View(): State
      reads this
    {
      State(queue, pending, rows, dropped, phase, accepted, batches)
    }

    /** The stores hold what the flushed batches make of them. */
    ghost predicate Valid()
      reads this, store
    {
      store.sink == SinkAfter(batches)
      && forall v: nat :: Stored(store.people, v) == AfterAll(batches, v)
    }

    constructor ()
      ensures Valid() && View() == START && fresh(store)
    {
      queue, pending, rows, dropped, phase := [], [], 0, 0, Running;
      accepted, batches := [], [];
      store := new Store();
    }

    method Enqueue(t: Track)
      requires Valid()
      modifies this
      ensures Valid() && View() == Next(old(View()), Arrive(t))
    {
      hide SinkAfter, AfterAll, Stored;
      if |queue| < BUFFER {
        queue := queue + [t];
        accepted := accepted + [t];
      } else {
        dropped := dropped + 1;
      }
    }

    method Flush()
      requires Valid()
      modifies this, store
      ensures Valid() && View() == Flushed(old(View()))
    {
      hide AfterTracks, TracksOf, BatchRows, Stored, Concat;
      if |pending| == 0 {
        return;
      }
      ghost var more := batches + [pending];
      assert more[..|batches|] == batches;
      store.Flush(pending);
      batches := more;
      pending := [];
      rows := 0;
    }

    method Receive()
      requires Valid() && phase == Running && queue != []
      modifies this, store
      ensures Valid() && View() == Next(old(View()), Take)
    {
      hide SinkAfter, AfterAll, Stored;
      var t := queue[0];
      queue := queue[1..];
      pending := pending + [t];
      rows := rows + |t.events|;
      if rows >= FLUSH_ROWS {
        Flush();
      }
    }

    method OnTick()
      requires Valid() && phase == Running
      modifies this, store
      ensures Valid() && View() == Next(old(View()), Tick)
    {
      Flush();
    }

    method Stop()
      requires Valid() && phase == Running
      modifies this, store
      ensures Valid() && View() == Drained(old(View()))
    {
      hide SinkAfter, AfterAll, Stored;
      phase := Draining;
      while queue != []
        invariant Valid() && phase == Draining
        invariant pending + queue == old(pending + queue)
        invariant rows == old(rows) && dropped == old(dropped)
        invariant accepted == old(accepted) && batches == old(batches)
        decreases |queue|
      {
        var t := queue[0];
        assert [t] + queue[1..] == queue;
        assert pending + [t] + queue[1..] == pending + queue;
        queue := queue[1..];
        pending := pending + [t];
      }
      assert pending + [] == pending;
      Flush();
      phase := Done;
    }

    /** Track: an empty request is a no-op; otherwise its events add to the request's own first touch. */
    method TrackEvents(visitor: Visitor, base: FirstTouch, events: seq<Event>)
      requires Valid()
      modifies this
      ensures Valid()
      ensures events == [] ==> View() == old(View())
      ensures events != [] ==> View() == Next(old(View()), Arrive(Track(visitor, Read(base, events), events)))
    {
      if |events| == 0 {
        return;
      }
      var first := base;
      var i := 0;
      while i < |events|
        invariant 0 <= i <= |events|
        invariant first == Read(base, events[..i])
        invariant Valid() && View() == old(View())
      {
        assert events[..i + 1][..i] == events[..i];
        first := MergeFirst(first, OfEvent(events[i]));
        i := i + 1;
      }
      assert events[..i] == events;
      Enqueue(Track(visitor, first, events));
    }
  }

  function OfEvent(e: Event): FirstTouch {
    FirstTouch(Fields(e.referrer, e.source, e.medium, e.campaign, "", "", e.path), false)
  }

  function Read(base: FirstTouch, events: seq<Event>): FirstTouch {
    if events == [] then base else MergeFirst(Read(base, events[..|events| - 1]), OfEvent(events[|events| - 1]))
  }

  /** What an event says of each of the seven fields; it knows no country and no device. */
  function EventField(e: Event, i: nat): string {
    match i
    case 0 => e.referrer
    case 1 => e.source
    case 2 => e.medium
    case 3 => e.campaign
    case 4 => ""
    case 5 => ""
    case _ => e.path
  }

  /** A request's own word comes first, then its events', in order; and only the request says what is a bot. */
  lemma {:induction false} ReadFieldIs(base: FirstTouch, events: seq<Event>, i: nat)
    ensures Read(base, events).bot == base.bot
    ensures Field(base.fields, i) != "" ==> Field(Read(base, events).fields, i) == Field(base.fields, i)
    ensures Field(base.fields, i) == "" ==>
              forall k: nat :: k < |events| && EventField(events[k], i) != ""
                               && (forall j: nat :: j < k ==> EventField(events[j], i) == "")
                               ==> Field(Read(base, events).fields, i) == EventField(events[k], i)
    ensures Field(Read(base, events).fields, i) == ""
            <==> Field(base.fields, i) == "" && forall j: nat :: j < |events| ==> EventField(events[j], i) == ""
    decreases |events|
  {
    if events != [] {
      hide Read;
      var rest, last := events[..|events| - 1], events[|events| - 1];
      ReadFieldIs(base, rest, i);
      ReadOneMore(base, events, i);
      assert forall j: nat :: j < |rest| ==> rest[j] == events[j];
    }
  }

  lemma ReadOneMore(base: FirstTouch, events: seq<Event>, i: nat)
    requires events != []
    ensures var rest, last := events[..|events| - 1], events[|events| - 1];
            Field(Read(base, events).fields, i) == Keep(Field(Read(base, rest).fields, i), EventField(last, i))
            && Read(base, events).bot == Read(base, rest).bot
  {
  }

  /** The request's own touch, then one bare touch per event. */
  function Spelled(visitor: Visitor, base: FirstTouch, events: seq<Event>): seq<Track> {
    if events == [] then [Track(visitor, base, [])]
    else Spelled(visitor, base, events[..|events| - 1]) + [Track(visitor, OfEvent(events[|events| - 1]), [])]
  }

  /** A track reads as its request's own touch followed by one bare touch per event. */
  lemma {:induction false} ReadIsTouch(visitor: Visitor, base: FirstTouch, events: seq<Event>)
    ensures Touch(Spelled(visitor, base, events)) == Read(base, events)
    decreases |events|
  {
    var list := Spelled(visitor, base, events);
    if events == [] {
      assert list[..0] == [];
      MergeFieldsIsAssociative(base.fields, base.fields, base.fields);
    } else {
      ReadIsTouch(visitor, base, events[..|events| - 1]);
      assert list[..|list| - 1] == Spelled(visitor, base, events[..|events| - 1]);
    }
  }
}

/**
 One flush of the analytics recorder: a batch of tracks is grouped by visitor, each
 visitor's row is upserted and counted once, and every event becomes a row of the sink
 (back/internal/analytics/recorder.go:342-469, back/gen/pg/analytics.sql.go:73-124).

 A visitor is a token hash; `None` is an anonymous request.  `Event.name` stands for
 everything of an event that the first touch does not read.  A track's device is a bot
 exactly when its first touch says so (recorder.go:283), so one flag stands for both.
 */
module Recorder {
  import opened Outcomes

  datatype Fields = Fields(
    referrer: string, source: string, medium: string, campaign: string,
    country: string, device: string, path: string)

  datatype FirstTouch = FirstTouch(fields: Fields, bot: bool)

  type Visitor = Option<nat>

  datatype Event = Event(name: nat, referrer: string, source: string, medium: string, campaign: string, path: string)

  datatype Track = Track(visitor: Visitor, first: FirstTouch, events: seq<Event>)

  datatype Row = Row(visitor: Visitor, event: Event)

  /** The visitor's row: the first touch, and how many events were counted. */
  datatype Person = Person(first: FirstTouch, counted: nat)

  const NO_FIELDS := Fields("", "", "", "", "", "", "")
  const NO_TOUCH := FirstTouch(NO_FIELDS, false)

  function Keep(a: string, b: string): string {
    if a == "" then b else a
  }

  function MergeFields(a: Fields, b: Fields): Fields {
    Fields(Keep(a.referrer, b.referrer), Keep(a.source, b.source), Keep(a.medium, b.medium),
           Keep(a.campaign, b.campaign), Keep(a.country, b.country), Keep(a.device, b.device), Keep(a.path, b.path))
  }

  /** Inside a batch one bot makes the visitor a bot. */
  function MergeFirst(a: FirstTouch, b: FirstTouch): FirstTouch {
    FirstTouch(MergeFields(a.fields, b.fields), a.bot || b.bot)
  }

  /** Across batches one batch without a bot makes the visitor none. */
  function Upsert(stored: Option<Person>, touch: FirstTouch): Person {
    if stored.None? then Person(touch, 0)
    else
      var row := stored.value;
      Person(FirstTouch(MergeFields(row.first.fields, touch.fields), row.first.bot && touch.bot), row.counted)
  }

  // ----- one batch, by visitor -----

  function TracksOf(list: seq<Track>, v: Visitor): seq<Track> {
    if list == [] then []
    else
      var last := list[|list| - 1];
      TracksOf(list[..|list| - 1], v) + (if last.visitor == v then [last] else [])
  }

  function Touch(tracks: seq<Track>): FirstTouch {
    if tracks == [] then NO_TOUCH
    else MergeFirst(Touch(tracks[..|tracks| - 1]), tracks[|tracks| - 1].first)
  }

  function Events(tracks: seq<Track>): seq<Event> {
    if tracks == [] then [] else Events(tracks[..|tracks| - 1]) + tracks[|tracks| - 1].events
  }

  predicate BotOnly(tracks: seq<Track>) {
    forall k :: 0 <= k < |tracks| ==> tracks[k].first.bot
  }

  function Counted(tracks: seq<Track>): nat {
    if BotOnly(tracks) then 0 else |Events(tracks)|
  }

  /** The visitors of a batch, by first appearance. */
  function Order(list: seq<Track>): (order: seq<Visitor>)
    ensures forall i, j :: 0 <= i < j < |order| ==> order[i] != order[j]
    ensures forall v :: v in order <==> TracksOf(list, v) != []
  {
    if list == [] then []
    else
      var rest := Order(list[..|list| - 1]);
      var v := list[|list| - 1].visitor;
      if v in rest then rest else rest + [v]
  }

  /** `v`'s first track comes before any of `w`'s. */
  predicate ArrivesBefore(list: seq<Track>, v: Visitor, w: Visitor) {
    exists m :: 0 <= m < |list| && list[m].visitor == v && NobodyUpTo(list, m, w)
  }

  predicate NobodyUpTo(list: seq<Track>, m: nat, w: Visitor)
    requires m < |list|
  {
    forall k :: 0 <= k <= m ==> list[k].visitor != w
  }

  lemma {:induction false} HasTracks(list: seq<Track>, v: Visitor)
    ensures TracksOf(list, v) != [] <==> exists m :: 0 <= m < |list| && list[m].visitor == v
    decreases |list|
  {
    if list != [] {
      var rest := list[..|list| - 1];
      HasTracks(rest, v);
      assert forall k :: 0 <= k < |rest| ==> list[k] == rest[k];
    }
  }

  /** A batch's visitors are taken in the order of their first tracks. */
  lemma {:induction false} OrderIsByArrival(list: seq<Track>, i: nat, j: nat)
    requires i < j < |Order(list)|
    ensures ArrivesBefore(list, Order(list)[i], Order(list)[j])
    decreases |list|
  {
    hide TracksOf;
    var rest, n := list[..|list| - 1], |list| - 1;
    var v, w := Order(list)[i], Order(list)[j];
    assert forall k :: 0 <= k < n ==> list[k] == rest[k];
    if j < |Order(rest)| {
      OrderIsByArrival(rest, i, j);
      var m :| 0 <= m < |rest| && rest[m].visitor == v && NobodyUpTo(rest, m, w);
      assert NobodyUpTo(list, m, w);
    } else {
      assert v in Order(rest) && w !in Order(rest);
      HasTracks(rest, v);
      HasTracks(rest, w);
      var m :| 0 <= m < |rest| && rest[m].visitor == v;
      assert list[m].visitor == v && NobodyUpTo(list, m, w);
    }
  }

  function RowsFor(v: Visitor, events: seq<Event>): seq<Row> {
    seq(|events|, i requires 0 <= i < |events| => Row(v, events[i]))
  }

  function RowsInOrder(list: seq<Track>, order: seq<Visitor>): seq<Row> {
    if order == [] then []
    else
      var v := order[|order| - 1];
      RowsInOrder(list, order[..|order| - 1]) + RowsFor(v, Events(TracksOf(list, v)))
  }

  function BatchRows(list: seq<Track>): seq<Row> {
    RowsInOrder(list, Order(list))
  }

  function Stored(people: map<nat, Person>, v: nat): Option<Person> {
    if v in people then Some(people[v]) else None
  }

  /** What a visitor's row becomes when these tracks of the visitor arrive in one batch. */
  function AfterTracks(stored: Option<Person>, tracks: seq<Track>): Option<Person> {
    if tracks == [] then stored
    else
      var row := Upsert(stored, Touch(tracks));
      Some(row.(counted := row.counted + Counted(tracks)))
  }

  /** Only events of a group that is not all bots are counted. */
  function WithCount(row: Person, events: seq<Event>, botOnly: bool): Person {
    if |events| > 0 && !botOnly then row.(counted := row.counted + |events|) else row
  }

  lemma CountIs(row: Person, events: seq<Event>, botOnly: bool)
    ensures WithCount(row, events, botOnly) ==
            if |events| > 0 && !botOnly then row.(counted := row.counted + |events|) else row
  {
  }

  datatype Group = Group(first: FirstTouch, tracks: seq<Track>)

  ghost predicate Grouped(list: seq<Track>, groups: map<Visitor, Group>, order: seq<Visitor>) {
    order == Order(list)
    && (forall v :: v in groups <==> v in order)
    && forall v :: v in groups ==> groups[v] == Group(Touch(TracksOf(list, v)), TracksOf(list, v))
  }

  lemma GroupedAfter(list: seq<Track>, n: nat, groups: map<Visitor, Group>, order: seq<Visitor>)
    requires n < |list| && Grouped(list[..n], groups, order)
    ensures var v := list[n].visitor;
            var g := if v in groups then groups[v] else Group(NO_TOUCH, []);
            Grouped(list[..n + 1],
                    groups[v := Group(MergeFirst(g.first, list[n].first), g.tracks + [list[n]])],
                    if v in groups then order else order + [v])
  {
    hide MergeFirst, TracksOf, Touch, Order, NO_TOUCH;
    var t := list[n];
    OneMore(list, n);
    TouchOfOneMore(TracksOf(list[..n], t.visitor), t);
    NothingYet();
    forall v ensures TracksOf(list[..n + 1], v) ==
                       (if v == t.visitor then TracksOf(list[..n], v) + [t] else TracksOf(list[..n], v)) {
      assert TracksOf(list[..n], v) + [] == TracksOf(list[..n], v);
    }
  }

  lemma OneMore(list: seq<Track>, n: nat)
    requires n < |list|
    ensures var t, order := list[n], Order(list[..n]);
            (forall v :: TracksOf(list[..n + 1], v) == TracksOf(list[..n], v) + (if t.visitor == v then [t] else []))
            && Order(list[..n + 1]) == (if t.visitor in order then order else order + [t.visitor])
  {
    assert list[..n + 1][..n] == list[..n] && list[..n + 1][n] == list[n];
  }

  lemma NothingYet()
    ensures Touch([]) == NO_TOUCH
  {
  }

  lemma AfterTracksIs(stored: Option<Person>, tracks: seq<Track>)
    requires tracks != []
    ensures var row := Upsert(stored, Touch(tracks));
            AfterTracks(stored, tracks) ==
            Some(WithCount(row, Events(tracks), BotOnly(tracks)))
  {
  }

  lemma AfterNoTracks(stored: Option<Person>)
    ensures AfterTracks(stored, []) == stored
  {
  }

  lemma StoredAfter(people: map<nat, Person>, v: nat, row: Person)
    ensures forall w: nat :: Stored(people[v := row], w) == if w == v then Some(row) else Stored(people, w)
  {
    var after := people[v := row];
    forall w: nat ensures Stored(after, w) == if w == v then Some(row) else Stored(people, w) {
      assert w in after <==> w == v || w in people;
    }
  }

  lemma TouchOfOneMore(tracks: seq<Track>, t: Track)
    ensures Touch(tracks + [t]) == MergeFirst(Touch(tracks), t.first)
  {
    assert (tracks + [t])[..|tracks|] == tracks;
  }

  class Store {
    var people: map<nat, Person>
    var sink: seq<Row>

    constructor ()
      ensures people == map[] && sink == []
    {
      people, sink := map[], [];
    }

    method GroupByVisitor(list: seq<Track>) returns (groups: map<Visitor, Group>, order: seq<Visitor>)
      ensures Grouped(list, groups, order)
    {
      hide MergeFirst, TracksOf, Touch, Order, NO_TOUCH, Grouped;
      groups, order := map[], [];
      var i := 0;
      GroupedAtStart(list);
      while i < |list|
        invariant 0 <= i <= |list|
        invariant Grouped(list[..i], groups, order)
      {
        GroupedAfter(list, i, groups, order);
        var t := list[i];
        var g := Group(NO_TOUCH, []);
        if t.visitor in groups {
          g := groups[t.visitor];
        } else {
          order := order + [t.visitor];
        }
        groups := groups[t.visitor := Group(MergeFirst(g.first, t.first), g.tracks + [t])];
        i := i + 1;
      }
      assert list[..i] == list;
    }

    /** Every visitor's row and every row of the sink, after one batch. */
    method Flush(list: seq<Track>)
      modifies this
      ensures sink == old(sink) + BatchRows(list)
      ensures forall v: nat :: Stored(people, v) == AfterTracks(Stored(old(people), v), TracksOf(list, Some(v)))
    {
      hide *;
      var groups, order := GroupByVisitor(list);
      GroupedMeans(list, groups, order);
      var rows: seq<Row> := [];
      var n := 0;
      NoRowsYet(list, people);
      while n < |order|
        invariant 0 <= n <= |order|
        invariant sink == old(sink)
        invariant rows == RowsInOrder(list, order[..n])
        invariant StoredUpTo(list, order[..n], old(people), people)
      {
        var v := order[n];
        var events, botOnly := ReadGroup(groups[v].tracks);
        StoredOneMore(list, order, n, old(people), people);
        if v.Some? {
          var row := Upsert(Stored(people, v.value), groups[v].first);
          CountIs(row, events, botOnly);
          if |events| > 0 && !botOnly {
            row := row.(counted := row.counted + |events|);
          }
          people := people[v.value := row];
        }
        RowsOneMore(list, order, n);
        rows := rows + RowsFor(v, events);
        n := n + 1;
      }
      assert order[..n] == order;
      StoredAtTheEnd(list, old(people), people);
      sink := sink + rows;
      BatchRowsAre(list);
    }
  }

  /** The rows of these visitors are as after the batch, all others as before it. */
  ghost predicate StoredUpTo(list: seq<Track>, order: seq<Visitor>, before: map<nat, Person>, now: map<nat, Person>) {
    forall v: nat :: Stored(now, v) ==
      if Some(v) in order then AfterTracks(Stored(before, v), TracksOf(list, Some(v))) else Stored(before, v)
  }

  lemma GroupedMeans(list: seq<Track>, groups: map<Visitor, Group>, order: seq<Visitor>)
    requires Grouped(list, groups, order)
    ensures order == Order(list) && (forall i, j :: 0 <= i < j < |order| ==> order[i] != order[j])
    ensures forall v :: v in order ==>
              v in groups && groups[v] == Group(Touch(TracksOf(list, v)), TracksOf(list, v)) && TracksOf(list, v) != []
  {
  }

  lemma NoRowsYet(list: seq<Track>, people: map<nat, Person>)
    ensures RowsInOrder(list, []) == [] && forall order :: |order| == 0 ==> StoredUpTo(list, order, people, people)
  {
  }

  lemma BatchRowsAre(list: seq<Track>)
    ensures BatchRows(list) == RowsInOrder(list, Order(list))
  {
  }

  lemma RowsOneMore(list: seq<Track>, order: seq<Visitor>, n: nat)
    requires n < |order|
    ensures RowsInOrder(list, order[..n + 1]) ==
            RowsInOrder(list, order[..n]) + RowsFor(order[n], Events(TracksOf(list, order[n])))
  {
    assert order[..n + 1][..n] == order[..n];
  }

  /** What the loop body does to one visitor's row, or for an anonymous group to none. */
  lemma StoredOneMore(list: seq<Track>, order: seq<Visitor>, n: nat, before: map<nat, Person>, now: map<nat, Person>)
    requires n < |order| && forall i, j :: 0 <= i < j < |order| ==> order[i] != order[j]
    requires StoredUpTo(list, order[..n], before, now) && TracksOf(list, order[n]) != []
    ensures order[n].None? ==> StoredUpTo(list, order[..n + 1], before, now)
    ensures order[n].Some? ==>
              var v, tracks := order[n].value, TracksOf(list, order[n]);
              var row := Upsert(Stored(now, v), Touch(tracks));
              var events := Events(tracks);
              StoredUpTo(list, order[..n + 1], before,
                         now[v := WithCount(row, events, BotOnly(tracks))])
  {
    hide Stored, AfterTracks, Upsert, Touch, Events, BotOnly, TracksOf;
    assert order[..n + 1] == order[..n] + [order[n]] && order[n] !in order[..n];
    if order[n].Some? {
      var v, tracks := order[n].value, TracksOf(list, order[n]);
      var row := Upsert(Stored(now, v), Touch(tracks));
      AfterTracksIs(Stored(now, v), tracks);
      StoredAfter(now, v, WithCount(row, Events(tracks), BotOnly(tracks)));
    }
  }

  lemma StoredAtTheEnd(list: seq<Track>, before: map<nat, Person>, now: map<nat, Person>)
    requires StoredUpTo(list, Order(list), before, now)
    ensures forall v: nat :: Stored(now, v) == AfterTracks(Stored(before, v), TracksOf(list, Some(v)))
  {
    hide Stored, TracksOf;
    forall v: nat ensures Stored(now, v) == AfterTracks(Stored(before, v), TracksOf(list, Some(v))) {
      AfterNoTracks(Stored(before, v));
    }
  }

  lemma GroupedAtStart(list: seq<Track>)
    ensures Grouped(list[..0], map[], [])
  {
  }

  method ReadGroup(tracks: seq<Track>) returns (events: seq<Event>, botOnly: bool)
    ensures events == Events(tracks) && botOnly == BotOnly(tracks)
  {
    events, botOnly := [], true;
    var k := 0;
    while k < |tracks|
      invariant 0 <= k <= |tracks|
      invariant events == Events(tracks[..k]) && botOnly == BotOnly(tracks[..k])
    {
      assert tracks[..k + 1][..k] == tracks[..k];
      if !tracks[k].first.bot {
        botOnly := false;
        assert !tracks[..k + 1][k].first.bot;
      }
      events := events + tracks[k].events;
      k := k + 1;
    }
    assert tracks[..k] == tracks;
  }
}

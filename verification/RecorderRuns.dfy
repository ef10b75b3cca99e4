/**
 The recorder over whole runs (back/internal/analytics/recorder.go:179-196, 296-338,
 445-468, back/gen/pg/analytics.sql.go:104-124).

 However the stream of tracks is cut into batches, the first touch and the sink come
 out the same for each visitor; the bot flag and the event counter do not, and it is
 said when they do.  The loop loses nothing that the channel accepted.
 */
module RecorderRuns {
  import opened Outcomes
  import opened Recorder

  // ----- any split into batches -----

  function Concat(batches: seq<seq<Track>>): seq<Track> {
    if batches == [] then [] else Concat(batches[..|batches| - 1]) + batches[|batches| - 1]
  }

  lemma ConcatLast(batches: seq<seq<Track>>)
    requires batches != []
    ensures Concat(batches) == Concat(batches[..|batches| - 1]) + batches[|batches| - 1]
  {
  }

  /** A visitor's row after these flushes. */
  function AfterAll(batches: seq<seq<Track>>, v: nat): Option<Person> {
    if batches == [] then None
    else AfterTracks(AfterAll(batches[..|batches| - 1], v), TracksOf(batches[|batches| - 1], Some(v)))
  }

  function SinkAfter(batches: seq<seq<Track>>): seq<Row> {
    if batches == [] then [] else SinkAfter(batches[..|batches| - 1]) + BatchRows(batches[|batches| - 1])
  }

  lemma {:induction false} TracksOfConcat(a: seq<Track>, b: seq<Track>, v: Visitor)
    ensures TracksOf(a + b, v) == TracksOf(a, v) + TracksOf(b, v)
    decreases |b|
  {
    if b == [] {
      assert a + b == a;
    } else {
      assert (a + b)[..|a + b| - 1] == a + b[..|b| - 1];
      TracksOfConcat(a, b[..|b| - 1], v);
    }
  }

  lemma TracksOfOne(t: Track, v: Visitor)
    ensures TracksOf([t], v) == if t.visitor == v then [t] else []
  {
    assert [t][..0] == [];
  }

  lemma {:induction false} EventsConcat(a: seq<Track>, b: seq<Track>)
    ensures Events(a + b) == Events(a) + Events(b)
    decreases |b|
  {
    if b == [] {
      assert a + b == a;
    } else {
      assert (a + b)[..|a + b| - 1] == a + b[..|b| - 1];
      EventsConcat(a, b[..|b| - 1]);
    }
  }

  // ----- the seven first-touch fields -----

  lemma MergeFieldsIsAssociative(a: Fields, b: Fields, c: Fields)
    ensures MergeFields(MergeFields(a, b), c) == MergeFields(a, MergeFields(b, c))
    ensures MergeFields(NO_FIELDS, a) == a && MergeFields(a, NO_FIELDS) == a
  {
  }

  lemma {:induction false} TouchConcat(a: seq<Track>, b: seq<Track>)
    ensures Touch(a + b).fields == MergeFields(Touch(a).fields, Touch(b).fields)
    decreases |b|
  {
    if b == [] {
      assert a + b == a;
      MergeFieldsIsAssociative(Touch(a).fields, NO_FIELDS, NO_FIELDS);
    } else {
      assert (a + b)[..|a + b| - 1] == a + b[..|b| - 1];
      TouchConcat(a, b[..|b| - 1]);
      MergeFieldsIsAssociative(Touch(a).fields, Touch(b[..|b| - 1]).fields, b[|b| - 1].first.fields);
    }
  }

  /** However the stream is cut into flushes, a visitor's fields are one merge over all of it. */
  lemma {:induction false} FirstTouchIgnoresBatching(batches: seq<seq<Track>>, v: nat)
    ensures var tracks, row := TracksOf(Concat(batches), Some(v)), AfterAll(batches, v);
            (row.None? <==> tracks == []) && (row.Some? ==> row.value.first.fields == Touch(tracks).fields)
    decreases |batches|
  {
    if batches != [] {
      var rest, last := batches[..|batches| - 1], batches[|batches| - 1];
      var older, newer := TracksOf(Concat(rest), Some(v)), TracksOf(last, Some(v));
      FirstTouchIgnoresBatching(rest, v);
      TracksOfConcat(Concat(rest), last, Some(v));
      TouchConcat(older, newer);
      assert older + [] == older && [] + newer == newer;
    }
  }

  function Field(f: Fields, i: nat): string {
    match i
    case 0 => f.referrer
    case 1 => f.source
    case 2 => f.medium
    case 3 => f.campaign
    case 4 => f.country
    case 5 => f.device
    case _ => f.path
  }

  /** Each of the seven fields is the first non-empty one in arrival order, and empty only if there is none. */
  lemma {:induction false} FieldIsTheFirstNonEmpty(tracks: seq<Track>, i: nat)
    ensures forall k: nat :: k < |tracks| && Field(tracks[k].first.fields, i) != ""
                             && (forall j: nat :: j < k ==> Field(tracks[j].first.fields, i) == "")
                             ==> Field(Touch(tracks).fields, i) == Field(tracks[k].first.fields, i)
    ensures Field(Touch(tracks).fields, i) == ""
            <==> forall j: nat :: j < |tracks| ==> Field(tracks[j].first.fields, i) == ""
    decreases |tracks|
  {
    if tracks != [] {
      var rest, last := tracks[..|tracks| - 1], tracks[|tracks| - 1];
      hide Touch;
      FieldIsTheFirstNonEmpty(rest, i);
      FieldOneMore(tracks, i);
      assert forall j: nat :: j < |rest| ==> rest[j] == tracks[j];
      assert Field(Touch(tracks).fields, i) == Keep(Field(Touch(rest).fields, i), Field(last.first.fields, i));
    }
  }

  lemma FieldOneMore(tracks: seq<Track>, i: nat)
    requires tracks != []
    ensures var rest, last := tracks[..|tracks| - 1], tracks[|tracks| - 1];
            Field(Touch(tracks).fields, i) == Keep(Field(Touch(rest).fields, i), Field(last.first.fields, i))
  {
  }

  // ----- the bot flag and the counter -----

  predicate SomeBot(tracks: seq<Track>) {
    exists k :: 0 <= k < |tracks| && tracks[k].first.bot
  }

  lemma {:induction false} TouchIsBot(tracks: seq<Track>)
    ensures Touch(tracks).bot == SomeBot(tracks)
  {
    if tracks != [] {
      var rest, n := tracks[..|tracks| - 1], |tracks| - 1;
      TouchIsBot(rest);
      assert forall k :: 0 <= k < n ==> rest[k] == tracks[k];
      assert tracks[n].first.bot ==> SomeBot(tracks);
    }
  }

  lemma {:induction false} BotLiesBetween(batches: seq<seq<Track>>, v: nat)
    ensures var tracks, row := TracksOf(Concat(batches), Some(v)), AfterAll(batches, v);
            row.Some? ==> (BotOnly(tracks) ==> row.value.first.bot) && (row.value.first.bot ==> SomeBot(tracks))
    decreases |batches|
  {
    if batches != [] {
      var rest, last := batches[..|batches| - 1], batches[|batches| - 1];
      var older, newer := TracksOf(Concat(rest), Some(v)), TracksOf(last, Some(v));
      hide TracksOf, Touch, Concat, BotOnly, SomeBot;
      ConcatLast(batches);
      BotLiesBetween(rest, v);
      FirstTouchIgnoresBatching(rest, v);
      TracksOfConcat(Concat(rest), last, Some(v));
      TouchIsBot(newer);
      BotsOfBoth(older, newer);
      assert older + [] == older;
    }
  }

  lemma BotsOfBoth(a: seq<Track>, b: seq<Track>)
    ensures BotOnly(a + b) <==> BotOnly(a) && BotOnly(b)
    ensures SomeBot(a + b) <==> SomeBot(a) || SomeBot(b)
    ensures BotOnly(b) && b != [] ==> SomeBot(b)
  {
    var all := a + b;
    assert forall k :: 0 <= k < |a| ==> all[k] == a[k];
    assert forall k :: 0 <= k < |b| ==> all[|a| + k] == b[k];
    assert b != [] ==> b[0] == b[0];
    assert BotOnly(b) && b != [] ==> b[0].first.bot;
  }

  /** One flush per track. */
  function OneByOne(list: seq<Track>): (batches: seq<seq<Track>>)
    ensures Concat(batches) == list
  {
    if list == [] then []
    else
      var batches := OneByOne(list[..|list| - 1]) + [[list[|list| - 1]]];
      assert batches[..|batches| - 1] == OneByOne(list[..|list| - 1]);
      batches
  }

  lemma BotAfterOneMore(stored: Option<Person>, t: Track, older: seq<Track>)
    ensures var row := AfterTracks(stored, [t]);
            row.Some? && row.value.first.bot == ((stored.Some? ==> stored.value.first.bot) && t.first.bot)
    ensures BotOnly(older + [t]) == (BotOnly(older) && t.first.bot)
  {
    TouchIsBot([t]);
    assert [t][0] == t;
    var all := older + [t];
    assert forall k :: 0 <= k < |older| ==> all[k] == older[k];
    assert all[|older|] == t;
  }

  lemma {:induction false} OneByOneNeedsEveryBot(list: seq<Track>, v: nat)
    ensures var row := AfterAll(OneByOne(list), v);
            (row.None? <==> TracksOf(list, Some(v)) == [])
            && (row.Some? ==> row.value.first.bot == BotOnly(TracksOf(list, Some(v))))
    decreases |list|
  {
    hide *;
    NothingOneByOne(v);
    if list != [] {
      var rest, last := list[..|list| - 1], list[|list| - 1];
      OneByOneNeedsEveryBot(rest, v);
      OneByOneStep(list, v);
      BotAfterOneMore(AfterAll(OneByOne(rest), v), last, TracksOf(rest, Some(v)));
    }
  }

  lemma NothingOneByOne(v: nat)
    ensures AfterAll(OneByOne([]), v).None? && TracksOf([], Some(v)) == [] && BotOnly([])
  {
  }

  /** The last flush of one track touches the visitor's row only if the track is theirs. */
  lemma OneByOneStep(list: seq<Track>, v: nat)
    requires list != []
    ensures var rest, last := list[..|list| - 1], list[|list| - 1];
            var older, stored := TracksOf(rest, Some(v)), AfterAll(OneByOne(rest), v);
            if last.visitor == Some(v)
            then TracksOf(list, Some(v)) == older + [last] && AfterAll(OneByOne(list), v) == AfterTracks(stored, [last])
            else TracksOf(list, Some(v)) == older && AfterAll(OneByOne(list), v) == stored
  {
    hide OneByOne;
    var rest, last := list[..|list| - 1], list[|list| - 1];
    TracksOfOne(last, Some(v));
    LastOfOneByOne(list);
    assert TracksOf(rest, Some(v)) + [] == TracksOf(rest, Some(v));
  }

  lemma LastOfOneByOne(list: seq<Track>)
    requires list != []
    ensures var batches := OneByOne(list);
            |batches| > 0 && batches[..|batches| - 1] == OneByOne(list[..|list| - 1])
            && batches[|batches| - 1] == [list[|list| - 1]]
  {
  }

  lemma OneFlushNeedsOneBot(list: seq<Track>, v: nat)
    requires TracksOf(list, Some(v)) != []
    ensures Concat([list]) == list
    ensures AfterAll([list], v).Some? && AfterAll([list], v).value.first.bot == SomeBot(TracksOf(list, Some(v)))
  {
    assert [list][..0] == [] && [] + list == list;
    TouchIsBot(TracksOf(list, Some(v)));
  }

  ghost predicate BotIgnoresBatching(list: seq<Track>, v: nat) {
    forall a, b :: Concat(a) == list && Concat(b) == list ==>
                     AfterAll(a, v).Some? && AfterAll(b, v).Some?
                     && AfterAll(a, v).value.first.bot == AfterAll(b, v).value.first.bot
  }

  /** The bot flag is OR-ed in a batch and AND-ed across them: it ignores batching only if all tracks agree. */
  lemma BotIgnoresBatchingIff(list: seq<Track>, v: nat)
    requires TracksOf(list, Some(v)) != []
    ensures var tracks := TracksOf(list, Some(v));
            BotIgnoresBatching(list, v)
            <==> forall k :: 0 <= k < |tracks| ==> tracks[k].first.bot == tracks[0].first.bot
  {
    var tracks := TracksOf(list, Some(v));
    if BotIgnoresBatching(list, v) {
      OneFlushNeedsOneBot(list, v);
      OneByOneNeedsEveryBot(list, v);
      assert SomeBot(tracks) == BotOnly(tracks);
    }
    if forall k :: 0 <= k < |tracks| ==> tracks[k].first.bot == tracks[0].first.bot {
      forall a, b | Concat(a) == list && Concat(b) == list
        ensures AfterAll(a, v).Some? && AfterAll(b, v).Some?
        ensures AfterAll(a, v).value.first.bot == AfterAll(b, v).value.first.bot
      {
        FirstTouchIgnoresBatching(a, v);
        FirstTouchIgnoresBatching(b, v);
        BotLiesBetween(a, v);
        BotLiesBetween(b, v);
      }
    }
  }

  function Humans(tracks: seq<Track>): seq<Track> {
    if tracks == [] then []
    else
      var last := tracks[|tracks| - 1];
      Humans(tracks[..|tracks| - 1]) + (if last.first.bot then [] else [last])
  }

  lemma {:induction false} HumansConcat(a: seq<Track>, b: seq<Track>)
    ensures Humans(a + b) == Humans(a) + Humans(b)
    decreases |b|
  {
    if b == [] {
      assert a + b == a;
    } else {
      assert (a + b)[..|a + b| - 1] == a + b[..|b| - 1];
      HumansConcat(a, b[..|b| - 1]);
    }
  }

  lemma {:induction false} HumansAmong(tracks: seq<Track>)
    ensures |Events(Humans(tracks))| <= |Events(tracks)|
    decreases |tracks|
  {
    hide Events, Humans;
    if tracks == [] {
      NoHumans();
    } else {
      var rest, last := tracks[..|tracks| - 1], tracks[|tracks| - 1];
      assert tracks == rest + [last];
      HumansAmong(rest);
      HumansConcat(rest, [last]);
      OneHuman(last);
      EventsConcat(Humans(rest), Humans([last]));
      EventsConcat(rest, [last]);
    }
  }

  lemma NoHumans()
    ensures Humans([]) == [] && Events([]) == []
  {
  }

  lemma OneHuman(t: Track)
    ensures Humans([t]) == if t.first.bot then [] else [t]
    ensures |Events(Humans([t]))| <= |Events([t])|
  {
    assert [t][..0] == [];
  }

  lemma {:induction false} BotsAreNoHumans(tracks: seq<Track>)
    requires BotOnly(tracks)
    ensures Humans(tracks) == []
    decreases |tracks|
  {
    if tracks == [] {
    } else {
      var rest := tracks[..|tracks| - 1];
      assert forall k :: 0 <= k < |rest| ==> rest[k] == tracks[k];
      BotsAreNoHumans(rest);
    }
  }

  /** The counter holds every human event and no more than all of them, each at most once. */
  lemma {:induction false} CounterLiesBetween(batches: seq<seq<Track>>, v: nat)
    ensures var tracks, row := TracksOf(Concat(batches), Some(v)), AfterAll(batches, v);
            var counted := if row.Some? then row.value.counted else 0;
            |Events(Humans(tracks))| <= counted <= |Events(tracks)|
    decreases |batches|
  {
    if batches != [] {
      var rest, last := batches[..|batches| - 1], batches[|batches| - 1];
      var older, newer := TracksOf(Concat(rest), Some(v)), TracksOf(last, Some(v));
      CounterLiesBetween(rest, v);
      TracksOfConcat(Concat(rest), last, Some(v));
      EventsConcat(older, newer);
      HumansConcat(older, newer);
      EventsConcat(Humans(older), Humans(newer));
      HumansAmong(newer);
      if BotOnly(newer) {
        BotsAreNoHumans(newer);
      }
    }
  }

  lemma {:induction false} BotsCountNothing(batches: seq<seq<Track>>, v: nat)
    requires BotOnly(TracksOf(Concat(batches), Some(v)))
    ensures AfterAll(batches, v).Some? ==> AfterAll(batches, v).value.counted == 0
    decreases |batches|
  {
    if batches != [] {
      var rest, last := batches[..|batches| - 1], batches[|batches| - 1];
      hide TracksOf, Touch, Concat, BotOnly, Events;
      ConcatLast(batches);
      TracksOfConcat(Concat(rest), last, Some(v));
      BotsOfBoth(TracksOf(Concat(rest), Some(v)), TracksOf(last, Some(v)));
      BotsCountNothing(rest, v);
    }
  }

  lemma CountOfOne(stored: Option<Person>, t: Track, older: seq<Track>)
    ensures AfterTracks(stored, [t]).Some?
    ensures AfterTracks(stored, [t]).value.counted ==
            (if stored.Some? then stored.value.counted else 0) + (if t.first.bot then 0 else |t.events|)
    ensures |Events(Humans(older + [t]))| == |Events(Humans(older))| + (if t.first.bot then 0 else |t.events|)
  {
    HumansConcat(older, [t]);
    OneHuman(t);
    EventsConcat(Humans(older), Humans([t]));
    assert [t][0] == t && [t][..0] == [];
    assert Events([t]) == t.events;
    assert BotOnly([t]) == t.first.bot;
  }

  /** One flush per track counts exactly the human events. */
  lemma {:induction false} OneByOneCountsHumans(list: seq<Track>, v: nat)
    ensures var row := AfterAll(OneByOne(list), v);
            (if row.Some? then row.value.counted else 0) == |Events(Humans(TracksOf(list, Some(v))))|
    decreases |list|
  {
    hide *;
    NothingOneByOne(v);
    NoHumans();
    if list != [] {
      var rest, last := list[..|list| - 1], list[|list| - 1];
      OneByOneCountsHumans(rest, v);
      OneByOneStep(list, v);
      CountOfOne(AfterAll(OneByOne(rest), v), last, TracksOf(rest, Some(v)));
    }
  }

  lemma OneFlushCountsAll(list: seq<Track>, v: nat)
    requires TracksOf(list, Some(v)) != []
    ensures Concat([list]) == list && AfterAll([list], v).Some?
    ensures var tracks := TracksOf(list, Some(v));
            AfterAll([list], v).value.counted == if BotOnly(tracks) then 0 else |Events(tracks)|
  {
    assert [list][..0] == [] && [] + list == list;
  }

  ghost predicate CounterIgnoresBatching(list: seq<Track>, v: nat) {
    forall a, b :: Concat(a) == list && Concat(b) == list ==>
                     AfterAll(a, v).Some? && AfterAll(b, v).Some?
                     && AfterAll(a, v).value.counted == AfterAll(b, v).value.counted
  }

  /** A batch with one human track counts its bots too: the counter ignores batching only if bots sent nothing. */
  lemma CounterIgnoresBatchingIff(list: seq<Track>, v: nat)
    requires TracksOf(list, Some(v)) != []
    ensures var tracks := TracksOf(list, Some(v));
            CounterIgnoresBatching(list, v) <==> BotOnly(tracks) || |Events(Humans(tracks))| == |Events(tracks)|
  {
    var tracks := TracksOf(list, Some(v));
    hide TracksOf, Events, Humans, BotOnly, AfterAll;
    if CounterIgnoresBatching(list, v) {
      OneFlushCountsAll(list, v);
      OneByOneCountsHumans(list, v);
      assert AfterAll(OneByOne(list), v).Some?;
    }
    if BotOnly(tracks) || |Events(Humans(tracks))| == |Events(tracks)| {
      forall a, b | Concat(a) == list && Concat(b) == list
        ensures AfterAll(a, v).Some? && AfterAll(b, v).Some?
        ensures AfterAll(a, v).value.counted == AfterAll(b, v).value.counted
      {
        CounterOf(a, v);
        CounterOf(b, v);
      }
    }
  }

  lemma CounterOf(batches: seq<seq<Track>>, v: nat)
    requires TracksOf(Concat(batches), Some(v)) != []
    ensures AfterAll(batches, v).Some?
    ensures var tracks, counted := TracksOf(Concat(batches), Some(v)), AfterAll(batches, v).value.counted;
            (BotOnly(tracks) ==> counted == 0)
            && (|Events(Humans(tracks))| == |Events(tracks)| ==> counted == |Events(tracks)|)
  {
    FirstTouchIgnoresBatching(batches, v);
    CounterLiesBetween(batches, v);
    if BotOnly(TracksOf(Concat(batches), Some(v))) {
      BotsCountNothing(batches, v);
    }
  }

  // ----- the sink -----

  function RowsOf(rows: seq<Row>, v: Visitor): seq<Row> {
    if rows == [] then []
    else
      var last := rows[|rows| - 1];
      RowsOf(rows[..|rows| - 1], v) + (if last.visitor == v then [last] else [])
  }

  lemma {:induction false} RowsOfConcat(a: seq<Row>, b: seq<Row>, v: Visitor)
    ensures RowsOf(a + b, v) == RowsOf(a, v) + RowsOf(b, v)
    decreases |b|
  {
    if b == [] {
      assert a + b == a;
    } else {
      assert (a + b)[..|a + b| - 1] == a + b[..|b| - 1];
      RowsOfConcat(a, b[..|b| - 1], v);
    }
  }

  lemma {:induction false} RowsOfOneVisitor(w: Visitor, events: seq<Event>, v: Visitor)
    ensures RowsOf(RowsFor(w, events), v) == if v == w then RowsFor(w, events) else []
    decreases |events|
  {
    if events != [] {
      var rows, fewer := RowsFor(w, events), RowsFor(w, events[..|events| - 1]);
      assert rows[..|rows| - 1] == fewer;
      assert rows == fewer + [rows[|rows| - 1]];
      RowsOfOneVisitor(w, events[..|events| - 1], v);
    }
  }

  lemma {:induction false} RowsOfGroups(list: seq<Track>, order: seq<Visitor>, v: Visitor)
    requires forall i, j :: 0 <= i < j < |order| ==> order[i] != order[j]
    ensures RowsOf(RowsInOrder(list, order), v) == if v in order then RowsFor(v, Events(TracksOf(list, v))) else []
    decreases |order|
  {
    if order != [] {
      var rest, w := order[..|order| - 1], order[|order| - 1];
      RowsOfGroups(list, rest, v);
      var mine := RowsFor(w, Events(TracksOf(list, w)));
      RowsOfConcat(RowsInOrder(list, rest), mine, v);
      RowsOfOneVisitor(w, Events(TracksOf(list, w)), v);
      assert w !in rest;
      assert v in order <==> v in rest || v == w;
    }
  }

  lemma BatchRowsOf(list: seq<Track>, v: Visitor)
    ensures RowsOf(BatchRows(list), v) == RowsFor(v, Events(TracksOf(list, v)))
  {
    RowsOfGroups(list, Order(list), v);
  }

  lemma RowsForConcat(v: Visitor, a: seq<Event>, b: seq<Event>)
    ensures RowsFor(v, a + b) == RowsFor(v, a) + RowsFor(v, b)
  {
  }

  /** Every event of every batch is in the sink once, a visitor's events in arrival order, however they were cut. */
  lemma {:induction false} SinkIgnoresBatching(batches: seq<seq<Track>>, v: Visitor)
    ensures RowsOf(SinkAfter(batches), v) == RowsFor(v, Events(TracksOf(Concat(batches), v)))
    decreases |batches|
  {
    hide BatchRows, TracksOf, Events, RowsOf, RowsFor;
    if batches == [] {
      NoRows(v);
    } else {
      var rest, last := batches[..|batches| - 1], batches[|batches| - 1];
      SinkIgnoresBatching(rest, v);
      RowsOfConcat(SinkAfter(rest), BatchRows(last), v);
      BatchRowsOf(last, v);
      TracksOfConcat(Concat(rest), last, v);
      EventsConcat(TracksOf(Concat(rest), v), TracksOf(last, v));
      RowsForConcat(v, Events(TracksOf(Concat(rest), v)), Events(TracksOf(last, v)));
    }
  }

  lemma NoRows(v: Visitor)
    ensures RowsOf([], v) == RowsFor(v, Events(TracksOf([], v)))
  {
  }
}

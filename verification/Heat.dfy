/**
 The heatmap's windows (back/internal/api/web.go:316, 628-640, 753-857, 882-952): which
 days a read covers, what a split compares, and which deploys the overlay may offer to
 split on.

 A day is counted from 1970-01-01, a Thursday.  A plan keeps some days of history, or all
 of it (back/internal/api/dashboard.go:139-161).
 */
module Heat {
  import opened Outcomes
  import Rollup
  import opened Marks

  const RANGE_DAYS: map<string, int> := map["" := 0, "24h" := 1, "7d" := 7, "31d" := 31]
  const MAX_DEPLOYS := 10
  const DAY: int := 24 * Rollup.HOUR

  type History = Option<int>

  predicate Refused(h: History, days: int) {
    h.Some? && days > h.value
  }

  function Deepest(h: History): (string, int) {
    if !Refused(h, 31) then ("31d", 31) else if !Refused(h, 7) then ("7d", 7) else ("24h", 1)
  }

  /** Sunday is 0. */
  function Weekday(day: int): int {
    (day + 4) % 7
  }

  function WeekStart(day: int, today: int): int {
    if today - day <= 7 then day else day - (Weekday(day) + 6) % 7
  }

  function Snap(day: Option<int>, today: int): Option<int> {
    if day.None? then None else Some(WeekStart(day.value, today))
  }

  predicate SplitFits(h: History, split: int, today: int) {
    var wall := 2 * (today - split) + 1;
    wall <= 31 && !Refused(h, wall)
  }

  /** Page views over [from, to), heat over the same days snapped; no `to` reads to now. */
  datatype Read = Read(from: int, to: Option<int>, heatFrom: int, heatTo: Option<int>)

  function HeatRead(today: int, from: int, to: Option<int>): Read {
    Read(from, to, WeekStart(from, today), Snap(to, today))
  }

  datatype Refusal = BadRequest | UpgradeRequired

  datatype Answer = Answer(range: string, after: Read, before: Option<Read>)

  predicate SplitAccepted(h: History, split: int, today: int) {
    split <= today && SplitFits(h, split, today)
  }

  /** What the answer covers, case by case. */
  ghost predicate Answers(h: History, range: string, split: Option<int>, today: int, r: Result<Answer, Refusal>) {
    if range !in RANGE_DAYS then r == Err(BadRequest)
    else if split.Some? then
      if !SplitAccepted(h, split.value, today) then r == Err(BadRequest)
      else
        var n := today - split.value + 1;
        r == Ok(Answer(Deepest(h).0, HeatRead(today, split.value, None),
                       Some(HeatRead(today, split.value - n, Some(split.value)))))
    else if range == "" then r == Ok(Answer(Deepest(h).0, HeatRead(today, today - Deepest(h).1, None), None))
    else if Refused(h, RANGE_DAYS[range]) then r == Err(UpgradeRequired)
    else r == Ok(Answer(range, HeatRead(today, today - RANGE_DAYS[range], None), None))
  }

  method Heatmap(h: History, range: string, split: Option<int>, today: int) returns (r: Result<Answer, Refusal>)
    ensures Answers(h, range, split, today, r)
    ensures range in RANGE_DAYS && split.Some? ==>
              var back := today - split.value;
              r == Err(BadRequest) <==> back < 0 || back > 15 || (h.Some? && 2 * back + 1 > h.value)
  {
    if range !in RANGE_DAYS {
      return Err(BadRequest);
    }
    var days, rng := RANGE_DAYS[range], range;
    var (deepRange, deepDays) := Deepest(h);
    var splitDay, beforeFrom := 0, 0;
    var wall := days;
    if split.Some? {
      splitDay := split.value;
      var fits := false;
      if splitDay <= today {
        fits := SplitFits(h, splitDay, today);
      }
      if !fits {
        return Err(BadRequest);
      }
      days := today - splitDay;
      beforeFrom := splitDay - (days + 1);
      rng, wall := deepRange, 0;
    } else if rng == "" {
      rng, days, wall := deepRange, deepDays, 0;
    }
    if wall > 0 {
      if Refused(h, wall) {
        return Err(UpgradeRequired);
      }
    }
    var after := HeatRead(today, today - days, None);
    var before: Option<Read> := None;
    if split.Some? {
      before := Some(HeatRead(today, beforeFrom, Some(splitDay)));
    }
    return Ok(Answer(rng, after, before));
  }

  /** What is refused, and the range an answer is labelled with: the one asked for, else the deepest of the plan. */
  lemma AnswersAre(h: History, range: string, split: Option<int>, today: int, r: Result<Answer, Refusal>)
    requires Answers(h, range, split, today, r)
    ensures r == Err(BadRequest) <==>
              range !in {"", "24h", "7d", "31d"}
              || (split.Some? && var back := today - split.value;
                  back < 0 || back > 15 || (h.Some? && 2 * back + 1 > h.value))
    ensures r == Err(UpgradeRequired) <==>
              split.None? && h.Some?
              && ((range == "24h" && h.value < 1) || (range == "7d" && h.value < 7) || (range == "31d" && h.value < 31))
    ensures r.Ok? ==>
              r.value.range == if split.None? && range != "" then range
                               else if h.None? || h.value >= 31 then "31d" else if h.value >= 7 then "7d" else "24h"
  {
    assert "24h" != "7d" && "7d" != "31d" && "24h" != "31d" by {
      assert "24h"[0] != "7d"[0] && "7d"[0] != "31d"[0] && "24h"[0] != "31d"[0];
    }
  }

  // ----- the snap -----

  /** A bound older than a week goes back to its Monday (1970-01-05 was one), at most six days; a younger one stays. */
  lemma WeekStartIsMonday(day: int, today: int)
    ensures var w := WeekStart(day, today);
            if today - day > 7 then Weekday(w) == 1 && (w - 4) % 7 == 0 && day - 6 <= w <= day else w == day
  {
    var k := (Weekday(day) + 6) % 7;
    assert (day + 10) % 7 == k;
    assert (day - k + 4) % 7 == 1;
  }

  lemma WeekStartIsMonotone(a: int, b: int, today: int)
    requires a <= b
    ensures WeekStart(a, today) <= WeekStart(b, today)
  {
    WeekStartIsMonday(a, today);
    WeekStartIsMonday(b, today);
    MondaysAreAWeekApart(WeekStart(a, today), WeekStart(b, today));
  }

  lemma MondaysAreAWeekApart(m: int, n: int)
    ensures Weekday(m) == 1 && Weekday(n) == 1 && m > n ==> m >= n + 7
  {
    assert Weekday(m) == 1 && Weekday(n) == 1 ==> (m - n) % 7 == 0;
  }

  /** Snapping twice is snapping once. */
  lemma WeekStartIsIdempotent(day: int, today: int)
    ensures WeekStart(WeekStart(day, today), today) == WeekStart(day, today)
  {
    WeekStartIsMonday(day, today);
    WeekStartIsMonday(WeekStart(day, today), today);
    MondaysAreAWeekApart(WeekStart(day, today), WeekStart(WeekStart(day, today), today));
  }

  function Monday(day: int): int {
    day - (Weekday(day) + 6) % 7
  }

  /** A snapped bound older than a week never falls inside a week: a weekly row is on one side of it. */
  lemma NoWeekIsCut(bound: int, today: int, x: int, y: int)
    requires today - bound > 7 && Monday(x) == Monday(y)
    ensures x < WeekStart(bound, today) <==> y < WeekStart(bound, today)
  {
    var w := WeekStart(bound, today);
    WeekStartIsMonday(bound, today);
    WeekStartIsMonday(x, x + 8);
    WeekStartIsMonday(y, y + 8);
    MondaysAreAWeekApart(w, Monday(x));
  }

  // ----- a split -----

  predicate In(day: int, from: int, to: Option<int>) {
    from <= day && (to.Some? ==> day < to.value)
  }

  /**
   For every accepted split: the two windows share one snapped bound, so a day back to the
   first one is in exactly one of them; neither is empty; before the snap both hold the
   same number of days, and they reach no further than 31 days, or 37 with the snap.
   */
  lemma SplitComparesEqualHalves(h: History, range: string, split: int, today: int, r: Result<Answer, Refusal>,
                                 day: int)
    requires Answers(h, range, Some(split), today, r) && r.Ok? && day <= today
    ensures r.value.before.Some? && r.value.before.value.to.Some? && r.value.before.value.heatTo.Some?
    ensures var a, b := r.value.after, r.value.before.value;
            var n := today + 1 - a.from;
            a.from == split && n >= 1 && b.to == Some(split) && b.from == split - n
            && today - b.from <= 31 && !Refused(h, today - b.from)
            && b.heatTo == Some(a.heatFrom) && a.to == None && a.heatTo == None
            && b.heatFrom < a.heatFrom <= today
            && today - b.heatFrom <= 37
            && (day >= b.heatFrom ==> (In(day, a.heatFrom, a.heatTo) <==> !In(day, b.heatFrom, b.heatTo)))
            && n <= today + 1 - a.heatFrom <= n + 6 && n - 6 <= a.heatFrom - b.heatFrom <= n + 6
  {
    var n := today - split + 1;
    WeekStartIsMonday(split, today);
    WeekStartIsMonday(split - n, today);
  }

  /** Opening the map is never a wall: no range is the deepest the plan reaches, a day at least. */
  lemma FirstLookIsNeverAWall(h: History, today: int, r: Result<Answer, Refusal>)
    requires Answers(h, "", None, today, r)
    ensures r.Ok? && today - r.value.after.from >= 1
    ensures h.None? || h.value >= 1 ==>
              Answers(h, r.value.range, None, today, r)
              && forall range, q :: range in RANGE_DAYS && Answers(h, range, None, today, q) && q.Ok?
                                    ==> today - q.value.after.from <= today - r.value.after.from
  {
  }

  /** A named range covers its own days, snapped at its old end, and is refused exactly by a plan that keeps fewer. */
  lemma PlainLookIs(h: History, range: string, days: int, today: int, r: Result<Answer, Refusal>)
    requires (range, days) in {("24h", 1), ("7d", 7), ("31d", 31)} && Answers(h, range, None, today, r)
    ensures if h.Some? && h.value < days then r == Err(UpgradeRequired)
            else r.Ok? && r.value.range == range && r.value.before == None
                 && r.value.after.from == today - days && r.value.after.to == None && r.value.after.heatTo == None
                 && (if days == 31 then r.value.after.heatFrom % 7 == 4 && 31 <= today - r.value.after.heatFrom <= 37
                     else r.value.after.heatFrom == today - days)
  {
    WeekStartIsMonday(today - days, today);
  }

  // ----- the deploys a split is offered on -----

  function DayOf(at: int): int {
    at / DAY
  }

  lemma DayIs(at: int, day: int)
    ensures DayOf(at) == day <==> day * DAY <= at < (day + 1) * DAY
  {
  }

  function Newest(marks: seq<Mark>, n: nat): seq<Mark> {
    if marks == [] || n == 0 then [] else [marks[|marks| - 1]] + Newest(marks[..|marks| - 1], n - 1)
  }

  lemma {:induction false} NewestAt(marks: seq<Mark>, n: nat)
    ensures var k := if n < |marks| then n else |marks|;
            |Newest(marks, n)| == k && forall i :: 0 <= i < k ==> Newest(marks, n)[i] == marks[|marks| - 1 - i]
    decreases n
  {
    if marks != [] && n > 0 {
      NewestAt(marks[..|marks| - 1], n - 1);
    }
  }

  lemma OlderFitsLess(h: History, a: int, b: int, today: int)
    requires a <= b && !SplitFits(h, b, today)
    ensures !SplitFits(h, a, today)
  {
  }

  method TakeNewest(marks: seq<Mark>) returns (newest: seq<Mark>)
    ensures newest == Newest(marks, MAX_DEPLOYS)
  {
    newest := [];
    var i := |marks|;
    while i > 0 && |newest| < MAX_DEPLOYS
      invariant 0 <= i <= |marks| && |newest| == |marks| - i <= MAX_DEPLOYS
      invariant forall k :: 0 <= k < |newest| ==> newest[k] == marks[|marks| - 1 - k]
    {
      i := i - 1;
      newest := newest + [marks[i]];
    }
    NewestAt(marks, MAX_DEPLOYS);
  }

  predicate NewestFirst(s: seq<Mark>) {
    forall i, j :: 0 <= i < j < |s| ==> s[j].at <= s[i].at
  }

  lemma NewestIsNewestFirst(marks: seq<Mark>, n: nat)
    requires Sorted(marks)
    ensures NewestFirst(Newest(marks, n))
    ensures forall k :: 0 <= k < |Newest(marks, n)| ==> Newest(marks, n)[k] in marks
  {
    NewestAt(marks, n);
  }

  /** The list ends at the first that does not fit, and so leaves out none that does. */
  method TakeFitting(h: History, today: int, newest: seq<Mark>) returns (offered: seq<Mark>)
    requires NewestFirst(newest)
    ensures |offered| <= |newest| && offered == newest[..|offered|]
    ensures forall k :: 0 <= k < |newest| ==> (k < |offered| <==> SplitFits(h, DayOf(newest[k].at), today))
  {
    offered := [];
    while |offered| < |newest|
      invariant |offered| <= |newest| && offered == newest[..|offered|]
      invariant forall k :: 0 <= k < |offered| ==> SplitFits(h, DayOf(newest[k].at), today)
    {
      var m := newest[|offered|];
      if !SplitFits(h, DayOf(m.at), today) {
        forall k | |offered| <= k < |newest| ensures !SplitFits(h, DayOf(newest[k].at), today) {
          assert newest[k].at <= m.at;
          OlderFitsLess(h, DayOf(newest[k].at), DayOf(m.at), today);
        }
        return;
      }
      offered := offered + [m];
    }
  }

  /**
   The first look's list: the newest ten deploys and releases, as long as they fit.  Each
   one offered is a split the same door accepts, and none of the ten that it would accept is left out.
   */
  method OfferDeploys(h: History, today: int, deploys: seq<MarkRow>, releases: seq<MarkRow>)
    returns (offered: seq<Mark>)
    requires forall i :: 0 <= i < |deploys| ==> DayOf(deploys[i].at) <= today
    requires forall i :: 0 <= i < |releases| ==> DayOf(releases[i].at) <= today
    ensures forall marks :: IsStableSort(ChainMarks(Bursts(deploys)) + Releases(releases), marks) ==>
              IsOffer(h, today, Newest(marks, MAX_DEPLOYS), offered)
  {
    var list := BuildMarks(deploys, releases, []);
    var all := ChainMarks(Bursts(deploys)) + Releases(releases);
    assert all + Incidents([]) == all;
    BurstsAreBursts(deploys);
    MarksAreNotAhead(deploys, releases, Bursts(deploys), list, today);
    NewestIsNewestFirst(list, MAX_DEPLOYS);
    var newest := TakeNewest(list);
    offered := TakeFitting(h, today, newest);
    forall marks | IsStableSort(all, marks) ensures marks == list {
      StableSortIsUnique(all, marks, list);
    }
  }

  /** The offer is the front of the list: those whose split the door accepts, and no other. */
  predicate IsOffer(h: History, today: int, newest: seq<Mark>, offered: seq<Mark>) {
    |offered| <= |newest| && offered == newest[..|offered|]
    && forall i :: 0 <= i < |newest| ==> (i < |offered| <==> SplitAccepted(h, DayOf(newest[i].at), today))
  }

  lemma MarksAreNotAhead(deploys: seq<MarkRow>, releases: seq<MarkRow>, chains: seq<seq<MarkRow>>, marks: seq<Mark>,
                         today: int)
    requires forall i :: 0 <= i < |deploys| ==> DayOf(deploys[i].at) <= today
    requires forall i :: 0 <= i < |releases| ==> DayOf(releases[i].at) <= today
    requires AreBursts(deploys, chains) && IsStableSort(ChainMarks(chains) + Releases(releases), marks)
    ensures forall i :: 0 <= i < |marks| ==> DayOf(marks[i].at) <= today
  {
    hide AtTime, Sorted;
    var list := ChainMarks(chains) + Releases(releases);
    forall k | 0 <= k < |chains| ensures DayOf(ChainMark(chains[k]).at) <= today {
      var start := ChainStart(chains, k);
      var c := chains[k];
      assert deploys[start..start + |c|][|c| - 1] == deploys[start + |c| - 1];
    }
    forall i | 0 <= i < |marks| ensures DayOf(marks[i].at) <= today {
      assert marks[i] in multiset(list);
      var j :| 0 <= j < |list| && list[j] == marks[i];
    }
  }
}

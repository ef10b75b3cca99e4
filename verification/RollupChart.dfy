/**
 The chart over the hourly rollup, and the promise that it is the chart over the lines:
 "both paths answer the same question" (back/internal/api/dashboard.go:955-992).
 */
module RollupChart {
  import opened Outcomes
  import opened Rollup

  // ----- ranges and windows -----

  /** `step` is in seconds; step times buckets is the span. */
  datatype Range = Range(step: nat, buckets: nat)

  const RANGES: map<string, Range> := map[
    "1h" := Range(60, 60), "4h" := Range(300, 48), "12h" := Range(900, 48), "24h" := Range(1800, 48),
    "7d" := Range(10800, 56), "31d" := Range(43200, 62), "365d" := Range(86400, 365)]

  const BUCKET_STEPS: map<string, nat> := map["hour" := 3600, "day" := 86400]

  const MAX_BUCKETS := 744

  function Rebucket(r: Range, bucket: string): Range {
    if bucket in BUCKET_STEPS && BUCKET_STEPS[bucket] > 0
    then Range(BUCKET_STEPS[bucket], r.step * r.buckets / BUCKET_STEPS[bucket])
    else r
  }

  /** The reads the server accepts: a range's own step, or a bucket that leaves 2 to 744 of them. */
  predicate IsRead(r: Range) {
    exists name, bucket | name in RANGES && bucket in {"", "hour", "day"} ::
      r == Rebucket(RANGES[name], bucket) && (bucket == "" || 2 <= r.buckets <= MAX_BUCKETS)
  }

  /** The SQL rule: whole-hour steps read the rollup. */
  predicate ReadsRollup(r: Range) {
    r.step >= 3600
  }

  /** What a range's name says. */
  function Seconds(name: string): nat {
    match name
    case "1h" => 3600
    case "4h" => 4 * 3600
    case "12h" => 12 * 3600
    case "24h" => 24 * 3600
    case "7d" => 7 * 24 * 3600
    case "31d" => 31 * 24 * 3600
    case _ => 365 * 24 * 3600
  }

  /** An accepted bucket keeps the range's span, and a step the rollup serves is whole hours. */
  lemma ReadsKeepTheirSpan(name: string, bucket: string)
    requires name in RANGES && bucket in BUCKET_STEPS
    requires 2 <= Rebucket(RANGES[name], bucket).buckets <= MAX_BUCKETS
    ensures var r := Rebucket(RANGES[name], bucket);
            r.step * r.buckets == RANGES[name].step * RANGES[name].buckets == Seconds(name)
            && r.step == if bucket == "hour" then 3600 else 86400
  {
  }

  lemma RollupStepsAreWholeHours(r: Range)
    requires IsRead(r) && ReadsRollup(r)
    ensures r.step % 3600 == 0 && r.buckets > 0
  {
  }

  /** Both ends of a read sit on a bucket boundary, `to` on the first one not before now's second. */
  function Window(r: Range, now: nat): (int, int)
    requires r.step > 0
  {
    var unix := now / SECOND;
    var end := ((unix + r.step - 1) / r.step) * r.step;
    (end * SECOND - r.step * r.buckets * SECOND, end * SECOND)
  }

  /** Rounding up reaches the least multiple that is not smaller. */
  lemma RoundUp(unix: nat, step: nat)
    requires step > 0
    ensures var n := (unix + step - 1) / step;
            n * step - step < unix <= n * step && forall m: nat :: m * step >= unix ==> n * step <= m * step
  {
    var n := (unix + step - 1) / step;
    forall m: nat | m * step >= unix ensures n * step <= m * step {
      TimesMonotone(m, n - 1, step);
      TimesMonotone(n, m, step);
      assert (n - 1) * step == n * step - step;
    }
  }

  lemma TimesMonotone(a: int, b: int, step: nat)
    ensures a <= b ==> a * step <= b * step
  {
  }

  /** The last bucket is the current one, except in the second that falls on a bucket boundary. */
  lemma LastBucketHoldsNowIff(r: Range, now: nat)
    requires r.step > 0 && r.buckets > 0
    ensures var (from, to) := Window(r, now);
            to - r.step * SECOND <= now < to <==> (now / SECOND) % r.step != 0
  {
    var unix := now / SECOND;
    RoundUp(unix, r.step);
    var n := (unix + r.step - 1) / r.step;
    var (from, to) := Window(r, now);
    assert to == (n * r.step) * SECOND;
    assert to - r.step * SECOND == (n * r.step - r.step) * SECOND;
    Remainder(unix, r.step, n);
  }

  lemma Remainder(unix: nat, step: nat, n: int)
    requires step > 0 && n * step - step < unix <= n * step
    ensures unix % step != 0 <==> unix < n * step
  {
    var q := unix / step;
    assert unix == q * step + unix % step;
    TimesMonotone(q, n - 1, step);
    TimesMonotone(n, q, step);
    TimesMonotone(q + 1, n, step);
    assert (n - 1) * step == n * step - step && (q + 1) * step == q * step + step;
  }

  /** Both ends are whole steps since the epoch, and the window reaches just to now's second. */
  lemma WindowIs(r: Range, now: nat)
    requires r.step > 0
    ensures var (from, to) := Window(r, now);
            exists n :: to == n * r.step * SECOND && from == (n - r.buckets) * r.step * SECOND
                        && (n - 1) * r.step < now / SECOND <= n * r.step
  {
    var n := (now / SECOND + r.step - 1) / r.step;
    RoundUp(now / SECOND, r.step);
    assert (n - 1) * r.step == n * r.step - r.step;
    assert (n - r.buckets) * r.step * SECOND == n * r.step * SECOND - r.step * r.buckets * SECOND;
  }

  lemma OnTheHourIs(q: int)
    ensures (q * HOUR) % HOUR == 0
  {
  }

  lemma WindowOnTheHour(r: Range, now: nat)
    requires r.step > 0 && r.step % 3600 == 0
    ensures var (from, to) := Window(r, now);
            from % HOUR == 0 && to % HOUR == 0 && to == from + r.buckets * (r.step * SECOND)
    ensures (r.step * SECOND) % HOUR == 0
  {
    var unix := now / SECOND;
    var n := (unix + r.step - 1) / r.step;
    var h := r.step / 3600;
    assert r.step == h * 3600;
    var (from, to) := Window(r, now);
    assert to == (n * h) * HOUR by { assert n * r.step == n * (h * 3600); }
    assert r.step * SECOND == h * HOUR;
    assert from == (n * h - r.buckets * h) * HOUR by { assert r.step * r.buckets == (r.buckets * h) * 3600; }
    OnTheHourIs(n * h);
    OnTheHourIs(h);
    OnTheHourIs(n * h - r.buckets * h);
    assert r.buckets * (r.step * SECOND) == (r.buckets * h) * HOUR;
  }

  // ----- what a query asks -----

  datatype Filter = Filter(service: Option<string>, level: string, shape: Option<int>)

  datatype Query = Query(tenant: nat, project: nat, filter: Filter, from: int, to: int, step: nat)

  predicate LevelMatches(wanted: string, level: string) {
    match wanted
    case "error" => level == "error"
    case "warn" => level == "warn"
    case "info" => level != "error" && level != "warn"
    case _ => true
  }

  predicate Matches(q: Query, tenant: nat, project: nat, service: string, level: string, shape: int) {
    tenant == q.tenant && project == q.project
    && (q.filter.service.Some? ==> service == q.filter.service.value)
    && LevelMatches(q.filter.level, level)
    && (q.filter.shape.Some? ==> shape == q.filter.shape.value)
  }

  /** The bucket a time falls in, by epoch arithmetic. */
  function BucketOf(q: Query, at: int): int
    requires q.step > 0
  {
    (at - q.from) / q.step
  }

  /** HistoryBuckets' predicate for bucket `i`, on a rollup row. */
  function RollupTest(q: Query, i: int): Key -> bool
    requires q.step > 0
  {
    (k: Key) => Matches(q, k.tenant, k.project, k.service, k.level, k.shape)
                && q.from <= k.hour < q.to && BucketOf(q, k.hour) == i
  }

  /** SeriesBuckets' predicate for bucket `i`, on a line. */
  function LineTest(q: Query, i: int): Line -> bool
    requires q.step > 0
  {
    (l: Line) => Matches(q, l.tenant, l.project, l.service, l.level, Wrap(l.shape))
                 && q.from <= l.ts < q.to && BucketOf(q, l.ts) == i
  }

  /** What a bucket of the chart counts: the project's own lines of that stretch, as far as the filter asks. */
  lemma LineTestIs(q: Query, i: int, l: Line)
    requires q.step > 0
    ensures LineTest(q, i)(l) <==>
              l.tenant == q.tenant && l.project == q.project
              && q.from <= l.ts < q.to && q.from + i * q.step <= l.ts < q.from + (i + 1) * q.step
              && (q.filter.service == None || l.service == q.filter.service.value)
              && (q.filter.shape == None || Wrap(l.shape) == q.filter.shape.value)
              && LevelMatches(q.filter.level, l.level)
  {
    BucketBounds(q, l.ts, i);
  }

  function AtLevel(q: Query, level: string): Query {
    q.(filter := q.filter.(level := level))
  }

  /** Errors, warnings and the rest make up all lines, none of them twice. */
  lemma LevelsAddUp(lines: seq<Line>, q: Query, i: int)
    requires q.step > 0
    ensures Count(lines, LineTest(AtLevel(q, ""), i))
            == Count(lines, LineTest(AtLevel(q, "error"), i)) + Count(lines, LineTest(AtLevel(q, "warn"), i))
               + Count(lines, LineTest(AtLevel(q, "info"), i))
    ensures LevelMatches("error", "error") && LevelMatches("warn", "warn") && LevelMatches("info", "info")
  {
    var all, info := LineTest(AtLevel(q, ""), i), LineTest(AtLevel(q, "info"), i);
    var errors, warns := LineTest(AtLevel(q, "error"), i), LineTest(AtLevel(q, "warn"), i);
    var loud := (l: Line) => errors(l) || warns(l);
    LevelsDiffer();
    CountSplits(lines, loud, errors, warns);
    CountSplits(lines, all, loud, info);
  }

  lemma LevelsDiffer()
    ensures "" != "error" && "" != "warn" && "" != "info"
    ensures "error" != "warn" && "error" != "info" && "warn" != "info"
  {
    assert "error"[0] != "warn"[0] && "error"[0] != "info"[0] && "warn"[0] != "info"[0];
  }

  // ----- sums over the rollup -----

  ghost function Sum(m: map<Key, nat>, p: Key -> bool): nat
    decreases m.Keys
  {
    if m == map[] then 0
    else
      var k :| k in m;
      (if p(k) then m[k] else 0) + Sum(m - {k}, p)
  }

  lemma {:induction false} SumTakes(m: map<Key, nat>, p: Key -> bool, k: Key)
    requires k in m
    ensures Sum(m, p) == (if p(k) then m[k] else 0) + Sum(m - {k}, p)
    decreases m.Keys
  {
    var first :| first in m && Sum(m, p) == (if p(first) then m[first] else 0) + Sum(m - {first}, p);
    if first != k {
      assert (m - {first}) - {k} == (m - {k}) - {first};
      SumTakes(m - {first}, p, k);
      SumTakes(m - {k}, p, first);
    }
  }

  lemma SumBump(m: map<Key, nat>, p: Key -> bool, k: Key)
    ensures Sum(Bump(m, k, 1), p) == Sum(m, p) + (if p(k) then 1 else 0)
  {
    var grown := Bump(m, k, 1);
    SumTakes(grown, p, k);
    if k in m {
      SumTakes(m, p, k);
      assert grown - {k} == m - {k};
    } else {
      assert grown - {k} == m;
    }
  }

  lemma {:induction false} SumOfRollup(lines: seq<Line>, p: Key -> bool)
    ensures Sum(RollupOf(lines), p) == Count(lines, l => p(KeyOf(l)))
    decreases |lines|
  {
    if lines != [] {
      var rest := lines[..|lines| - 1];
      SumOfRollup(rest, p);
      SumBump(RollupOf(rest), p, KeyOf(lines[|lines| - 1]));
    }
  }

  // ----- the two paths agree -----

  predicate OnTheHour(q: Query) {
    q.step > 0 && q.step % HOUR == 0 && q.from % HOUR == 0 && q.to % HOUR == 0
  }

  /** A bound on the hour never cuts an hour in two. */
  lemma HourSide(ts: int, bound: int)
    requires bound % HOUR == 0
    ensures bound <= ts <==> bound <= HourOf(ts)
  {
  }

  lemma ProductOrder(a: int, b: int, n: nat)
    ensures a <= b ==> a * n <= b * n
  {
  }

  lemma BucketBounds(q: Query, at: int, i: int)
    requires q.step > 0
    ensures BucketOf(q, at) == i <==> q.from + i * q.step <= at < q.from + (i + 1) * q.step
  {
    var d := at - q.from;
    assert d == (d / q.step) * q.step + d % q.step;
    ProductOrder(i + 1, d / q.step, q.step);
    ProductOrder(d / q.step + 1, i, q.step);
    assert (i + 1) * q.step == i * q.step + q.step;
  }

  lemma BoundOnTheHour(q: Query, i: int)
    requires OnTheHour(q)
    ensures (q.from + i * q.step) % HOUR == 0
  {
    var a, b := q.from / HOUR, q.step / HOUR;
    assert q.from == a * HOUR && q.step == b * HOUR;
    assert q.from + i * q.step == (a + i * b) * HOUR;
    OnTheHourIs(a + i * b);
  }

  lemma SameBucket(q: Query, l: Line, i: int)
    requires OnTheHour(q)
    ensures LineTest(q, i)(l) == RollupTest(q, i)(KeyOf(l))
  {
    HourSide(l.ts, q.from);
    HourSide(l.ts, q.to);
    BucketBounds(q, l.ts, i);
    BucketBounds(q, HourOf(l.ts), i);
    BoundOnTheHour(q, i);
    BoundOnTheHour(q, i + 1);
    HourSide(l.ts, q.from + i * q.step);
    HourSide(l.ts, q.from + (i + 1) * q.step);
  }

  /** For whole-hour buckets the rollup of the lines answers what the lines answer. */
  lemma RollupAgreesWithLines(lines: seq<Line>, q: Query, i: int)
    requires OnTheHour(q)
    ensures Sum(RollupOf(lines), RollupTest(q, i)) == Count(lines, LineTest(q, i))
  {
    SumOfRollup(lines, RollupTest(q, i));
    forall l | l in lines ensures LineTest(q, i)(l) == RollupTest(q, i)(KeyOf(l)) {
      SameBucket(q, l, i);
    }
    CountSame(lines, LineTest(q, i), l => RollupTest(q, i)(KeyOf(l)));
  }

  lemma {:induction false} LoggedSplits(history: seq<Flush>, p: Line -> bool)
    ensures Count(Logged(history), p) == Count(Rolled(history), p) + Count(Missed(history), p)
    decreases |history|
  {
    if history != [] {
      var rest, last := history[..|history| - 1], history[|history| - 1];
      LoggedSplits(rest, p);
      CountConcat(Logged(rest), if last.logged then last.rows else [], p);
      CountConcat(Rolled(rest), if last.logged && last.bumped then last.rows else [], p);
      CountConcat(Missed(rest), if last.logged && !last.bumped then last.rows else [], p);
    }
  }

  /**
   Over every run of flushes, whatever failed: a bucket of the rollup falls short of the
   lines by exactly the lines whose rollup statement failed, so the two charts agree in a
   bucket iff no such line falls in it.
   */
  lemma ChartsAgreeIff(history: seq<Flush>, q: Query, i: int)
    requires OnTheHour(q)
    ensures Sum(RollupOf(Rolled(history)), RollupTest(q, i)) + Count(Missed(history), LineTest(q, i))
            == Count(Logged(history), LineTest(q, i))
    ensures Sum(RollupOf(Rolled(history)), RollupTest(q, i)) == Count(Logged(history), LineTest(q, i))
            <==> forall l :: l in Missed(history) ==> !LineTest(q, i)(l)
  {
    RollupAgreesWithLines(Rolled(history), q, i);
    LoggedSplits(history, LineTest(q, i));
    CountIsZeroIff(Missed(history), LineTest(q, i));
  }

  lemma {:induction false} CountIsZeroIff(lines: seq<Line>, p: Line -> bool)
    ensures Count(lines, p) == 0 <==> forall l :: l in lines ==> !p(l)
    decreases |lines|
  {
    if lines != [] {
      var rest := lines[..|lines| - 1];
      assert forall l :: l in lines <==> l in rest || l == lines[|lines| - 1];
      CountIsZeroIff(rest, p);
    }
  }

  // ----- points and totals -----

  datatype Bucket = Bucket(index: int, count: nat)

  /** The store's oldest row: an axis without a floor, a store with no row, or a time. */
  datatype Oldest = NoFloor | Nothing | Since(at: int)

  predicate Measured(from: int, r: Range, i: int, oldest: Oldest) {
    match oldest
    case NoFloor => true
    case Nothing => false
    case Since(at) => from + (i + 1) * r.step * SECOND > at
  }

  function SumPoints(points: seq<Option<nat>>): nat {
    if points == [] then 0
    else SumPoints(points[..|points| - 1]) + (if points[|points| - 1].Some? then points[|points| - 1].value else 0)
  }

  lemma {:induction false} SumPointsSet(points: seq<Option<nat>>, i: nat, n: nat)
    requires i < |points| && (points[i].Some? ==> points[i].value == 0)
    ensures SumPoints(points[i := Some(n)]) == SumPoints(points) + n
    decreases |points|
  {
    var last := |points| - 1;
    if i < last {
      assert points[i := Some(n)][..last] == points[..last][i := Some(n)];
      SumPointsSet(points[..last], i, n);
    } else {
      assert points[i := Some(n)][..last] == points[..last];
    }
  }

  /** One row per bucket, in order: what GROUP BY and ORDER BY promise. */
  predicate Grouped(rows: seq<Bucket>) {
    forall i, j :: 0 <= i < j < |rows| ==> rows[i].index < rows[j].index
  }

  method CountPoints(rows: seq<Bucket>, r: Range, from: int, oldest: Oldest)
    returns (points: seq<Option<nat>>, total: Option<nat>)
    requires Grouped(rows)
    ensures |points| == r.buckets
    ensures forall k :: 0 <= k < |rows| && 0 <= rows[k].index < r.buckets ==>
              points[rows[k].index] == Some(rows[k].count)
    ensures forall i :: 0 <= i < r.buckets && (forall k :: 0 <= k < |rows| ==> rows[k].index != i) ==>
              points[i] == if Measured(from, r, i, oldest) then Some(0) else None
    ensures total.Some? <==> exists i :: 0 <= i < r.buckets && Measured(from, r, i, oldest)
    ensures total.Some? ==> total.value == SumPoints(points)
  {
    points := [];
    var sum, anyMeasured := 0, false;
    while |points| < r.buckets
      invariant |points| <= r.buckets
      invariant forall i :: 0 <= i < |points| ==>
                  points[i] == if Measured(from, r, i, oldest) then Some(0) else None
      invariant anyMeasured <==> exists i :: 0 <= i < |points| && Measured(from, r, i, oldest)
      invariant SumPoints(points) == 0
    {
      var point: Option<nat> := None;
      if Measured(from, r, |points|, oldest) {
        point := Some(0);
        anyMeasured := true;
      }
      assert (points + [point])[..|points|] == points;
      points := points + [point];
    }
    var n := 0;
    while n < |rows|
      invariant 0 <= n <= |rows| && |points| == r.buckets
      invariant forall k :: 0 <= k < n && 0 <= rows[k].index < r.buckets ==>
                  points[rows[k].index] == Some(rows[k].count)
      invariant forall i :: 0 <= i < r.buckets && (forall k :: 0 <= k < n ==> rows[k].index != i) ==>
                  points[i] == if Measured(from, r, i, oldest) then Some(0) else None
      invariant SumPoints(points) == sum
    {
      var b := rows[n];
      if 0 <= b.index < r.buckets {
        assert forall k :: 0 <= k < n ==> rows[k].index != b.index;
        SumPointsSet(points, b.index, b.count);
        points := points[b.index := Some(b.count)];
        sum := sum + b.count;
      }
      n := n + 1;
    }
    total := if anyMeasured then Some(sum) else None;
  }

  /** HistoryBuckets' answer: the non-empty buckets of the rollup, in order. */
  ghost predicate IsAnswer(rows: seq<Bucket>, rollup: map<Key, nat>, q: Query)
    requires q.step > 0
  {
    Grouped(rows)
    && (forall k :: 0 <= k < |rows| ==> rows[k].count == Sum(rollup, RollupTest(q, rows[k].index)))
    && forall i :: Sum(rollup, RollupTest(q, i)) > 0 <==> exists k :: 0 <= k < |rows| && rows[k].index == i
  }

  ghost predicate IsOldest(rollup: map<Key, nat>, tenant: nat, project: nat, oldest: Oldest) {
    match oldest
    case NoFloor => false
    case Nothing => forall k :: k in rollup ==> !(k.tenant == tenant && k.project == project)
    case Since(at) =>
      (exists k :: k in rollup && k.tenant == tenant && k.project == project && k.hour == at)
      && forall k :: k in rollup && k.tenant == tenant && k.project == project ==> k.hour >= at
  }

  lemma {:induction false} SumPositive(m: map<Key, nat>, p: Key -> bool) returns (k: Key)
    requires Sum(m, p) > 0
    ensures k in m && p(k)
    decreases m.Keys
  {
    k :| k in m && Sum(m, p) == (if p(k) then m[k] else 0) + Sum(m - {k}, p);
    if !p(k) {
      k := SumPositive(m - {k}, p);
    }
  }

  /** A bucket that counted something is never drawn as a gap. */
  lemma CountedIsMeasured(rollup: map<Key, nat>, q: Query, r: Range, i: int, oldest: Oldest)
    requires q.step > 0 && q.step == r.step * SECOND
    requires IsOldest(rollup, q.tenant, q.project, oldest)
    requires Sum(rollup, RollupTest(q, i)) > 0
    ensures Measured(q.from, r, i, oldest)
  {
    var k := SumPositive(rollup, RollupTest(q, i));
    BucketBounds(q, k.hour, i);
    assert (i + 1) * r.step * SECOND == (i + 1) * q.step;
  }

  /** A bucket is a gap exactly when it ended before the first hour the project has a row of. */
  lemma MeasuredIff(rollup: map<Key, nat>, q: Query, r: Range, i: int, oldest: Oldest)
    requires q.step > 0 && q.step == r.step * SECOND
    requires IsOldest(rollup, q.tenant, q.project, oldest)
    ensures Measured(q.from, r, i, oldest) <==>
              exists k :: k in rollup && k.tenant == q.tenant && k.project == q.project
                          && k.hour < q.from + (i + 1) * q.step
  {
    assert (i + 1) * r.step * SECOND == (i + 1) * q.step;
  }

  /** The lines the whole read is about. */
  function WindowTest(q: Query): Line -> bool {
    (l: Line) => Matches(q, l.tenant, l.project, l.service, l.level, Wrap(l.shape)) && q.from <= l.ts < q.to
  }

  function BucketSum(lines: seq<Line>, q: Query, n: nat): nat
    requires q.step > 0
  {
    if n == 0 then 0 else BucketSum(lines, q, n - 1) + Count(lines, LineTest(q, n - 1))
  }

  lemma {:induction false} CountSplits(lines: seq<Line>, whole: Line -> bool, a: Line -> bool, b: Line -> bool)
    requires forall l :: whole(l) <==> a(l) || b(l)
    requires forall l :: !(a(l) && b(l))
    ensures Count(lines, whole) == Count(lines, a) + Count(lines, b)
    decreases |lines|
  {
    if lines != [] {
      CountSplits(lines[..|lines| - 1], whole, a, b);
    }
  }

  lemma {:induction false} CountNothing(lines: seq<Line>, p: Line -> bool)
    requires forall l :: !p(l)
    ensures Count(lines, p) == 0
    decreases |lines|
  {
    if lines != [] {
      CountNothing(lines[..|lines| - 1], p);
    }
  }

  /** The buckets of a window hold each of its lines once. */
  lemma {:induction false} BucketsCoverTheWindow(lines: seq<Line>, q: Query, n: nat)
    requires q.step > 0 && q.to == q.from + n * q.step
    ensures BucketSum(lines, q, n) == Count(lines, WindowTest(q))
    decreases n
  {
    if n == 0 {
      CountNothing(lines, WindowTest(q));
    } else {
      var shorter := q.(to := q.from + (n - 1) * q.step);
      assert n * q.step == (n - 1) * q.step + q.step;
      forall l ensures LineTest(q, n - 1)(l) <==> WindowTest(q)(l) && !WindowTest(shorter)(l) {
        BucketBounds(q, l.ts, n - 1);
        ProductOrder(0, n - 1, q.step);
      }
      CountSplits(lines, WindowTest(q), WindowTest(shorter), LineTest(q, n - 1));
      BucketsCoverTheWindow(lines, shorter, n - 1);
      SameBucketSums(lines, q, shorter, n - 1);
    }
  }

  /** Cutting the window after bucket `n - 1` changes no earlier bucket. */
  lemma {:induction false} SameBucketSums(lines: seq<Line>, q: Query, shorter: Query, n: nat)
    requires q.step > 0 && shorter == q.(to := shorter.to)
    requires q.from + n * q.step <= shorter.to <= q.to
    ensures BucketSum(lines, q, n) == BucketSum(lines, shorter, n)
    decreases n
  {
    if n > 0 {
      ProductOrder(n - 1, n, q.step);
      var here, there := LineTest(q, n - 1), LineTest(shorter, n - 1);
      forall l ensures here(l) == there(l) {
        BucketBounds(q, l.ts, n - 1);
      }
      CountSame(lines, here, there);
      SameBucketSums(lines, q, shorter, n - 1);
    }
  }

  lemma {:induction false} PointsAddUp(points: seq<Option<nat>>, lines: seq<Line>, q: Query)
    requires q.step > 0
    requires forall i :: 0 <= i < |points| ==>
               Count(lines, LineTest(q, i)) == if points[i].Some? then points[i].value else 0
    ensures SumPoints(points) == BucketSum(lines, q, |points|)
    decreases |points|
  {
    if points != [] {
      PointsAddUp(points[..|points| - 1], lines, q);
    }
  }

  /** Every read the rollup serves has its window and its buckets on the hour. */
  lemma RollupReadsAreOnTheHour(r: Range, now: nat, q: Query)
    requires IsRead(r) && ReadsRollup(r)
    requires (q.from, q.to) == Window(r, now) && q.step == r.step * SECOND
    ensures OnTheHour(q) && q.to == q.from + r.buckets * q.step
  {
    RollupStepsAreWholeHours(r);
    WindowOnTheHour(r, now);
  }

  /**
   logsSeries on the rollup path, with every flush's rollup landed: bucket `i` is a gap
   when it ended before anything was stored and otherwise the number of lines in it, and
   the total is the sum of the points.
   */
  method RollupSeries(store: Store, q: Query, r: Range, rows: seq<Bucket>, oldest: Oldest)
    returns (points: seq<Option<nat>>, total: Option<nat>)
    requires store.Valid() && Missed(store.history) == []
    requires OnTheHour(q) && q.step == r.step * SECOND && q.to == q.from + r.buckets * q.step
    requires IsAnswer(rows, store.rollup, q) && IsOldest(store.rollup, q.tenant, q.project, oldest)
    ensures |points| == r.buckets
    ensures forall i :: 0 <= i < r.buckets ==>
              points[i] == if Measured(q.from, r, i, oldest) then Some(Count(store.lines, LineTest(q, i))) else None
    ensures total.Some? ==> total.value == SumPoints(points) == Count(store.lines, WindowTest(q))
    ensures total.Some? <==> exists i :: 0 <= i < r.buckets && Measured(q.from, r, i, oldest)
  {
    points, total := CountPoints(rows, r, q.from, oldest);
    forall i | 0 <= i < r.buckets
      ensures points[i] == if Measured(q.from, r, i, oldest) then Some(Count(store.lines, LineTest(q, i))) else None
    {
      ChartsAgreeIff(store.history, q, i);
      if Sum(store.rollup, RollupTest(q, i)) > 0 {
        CountedIsMeasured(store.rollup, q, r, i, oldest);
        var k :| 0 <= k < |rows| && rows[k].index == i;
      }
    }
    forall i | 0 <= i < |points|
      ensures Count(store.lines, LineTest(q, i)) == if points[i].Some? then points[i].value else 0
    {
      ChartsAgreeIff(store.history, q, i);
    }
    PointsAddUp(points, store.lines, q);
    BucketsCoverTheWindow(store.lines, q, r.buckets);
  }
}

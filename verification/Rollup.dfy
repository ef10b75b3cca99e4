/**
 The hourly rollup of log lines, kept one flush at a time, and the chart read from it
 (back/internal/api/wire.go, back/internal/api/dashboard.go, and the two bucket
 queries in back/internal/storage/pgstore/series.go and back/internal/ring/query/catalog.go).

 Times are microseconds since the epoch, the resolution the store keeps.
 */
module Rollup {
  import opened Outcomes

  const SECOND := 1_000_000
  const HOUR := 3600 * SECOND
  const DAY := 24 * HOUR
  const MAX_AGE := 30 * DAY
  const MAX_AHEAD := 2 * DAY

  type uint64 = n: nat | n < 0x1_0000_0000_0000_0000

  /** The signed column a fingerprint is stored in, and back. */
  function Wrap(n: int): int {
    if n < 0x8000_0000_0000_0000 then n else n - 0x1_0000_0000_0000_0000
  }

  function Unwrap(n: int): int {
    if n < 0 then n + 0x1_0000_0000_0000_0000 else n
  }

  datatype Line = Line(tenant: nat, project: nat, ts: int, service: string, level: string, shape: uint64)

  /** A key of the batch, whose fingerprint is unsigned, or of the table, whose fingerprint is signed. */
  datatype Key = Key(tenant: nat, project: nat, hour: int, service: string, level: string, shape: int)

  function HourOf(ts: int): int {
    ts - ts % HOUR
  }

  function BatchKey(line: Line): Key {
    Key(line.tenant, line.project, HourOf(line.ts), line.service, line.level, line.shape)
  }

  function TableKey(k: Key): Key {
    k.(shape := Wrap(k.shape))
  }

  function KeyOf(line: Line): Key {
    TableKey(BatchKey(line))
  }

  /** Two lines share a rollup row exactly when they differ in nothing it keeps but the minute of the hour. */
  lemma SameKeyIff(a: Line, b: Line)
    ensures KeyOf(a) == KeyOf(b) <==>
              a.tenant == b.tenant && a.project == b.project && a.service == b.service && a.level == b.level
              && a.shape == b.shape && a.ts / HOUR == b.ts / HOUR
    ensures KeyOf(a).hour % HOUR == 0 && KeyOf(a).hour <= a.ts < KeyOf(a).hour + HOUR
  {
    assert a.ts == a.ts / HOUR * HOUR + a.ts % HOUR && b.ts == b.ts / HOUR * HOUR + b.ts % HOUR;
  }

  // ----- decoding a batch -----

  datatype Envelope = Envelope(line: Line, event: bool)

  predicate Inside(ts: int, now: int) {
    now - MAX_AGE <= ts <= now + MAX_AHEAD
  }

  /** The log row of one envelope: a stale plain line is stamped now, a stale event leaves none. */
  function LogRowOf(env: Envelope, now: int): seq<Line> {
    if Inside(env.line.ts, now) then [env.line]
    else if env.event then []
    else [env.line.(ts := now)]
  }

  function LogRowsOf(envs: seq<Envelope>, now: int): seq<Line> {
    if envs == [] then []
    else LogRowsOf(envs[..|envs| - 1], now) + LogRowOf(envs[|envs| - 1], now)
  }

  /** The events keep their order, and the time they came with. */
  function EventRowsOf(envs: seq<Envelope>): seq<Line> {
    if envs == [] then []
    else
      var last := envs[|envs| - 1];
      EventRowsOf(envs[..|envs| - 1]) + (if last.event then [last.line] else [])
  }

  /** Only a stale event leaves no line; a line outside the last thirty days and the next two is stamped now. */
  lemma LogRowIs(env: Envelope, now: int)
    ensures var recent, rows := now - 30 * DAY <= env.line.ts <= now + 2 * DAY, LogRowOf(env, now);
            if env.event && !recent then rows == []
            else |rows| == 1 && rows[0].ts == (if recent then env.line.ts else now)
                 && rows[0].(ts := env.line.ts) == env.line
  {
  }

  lemma DecodeOne(env: Envelope, now: int)
    ensures LogRowsOf([env], now) == LogRowOf(env, now)
    ensures EventRowsOf([env]) == if env.event then [env.line] else []
  {
    assert [env][..0] == [];
    assert LogRowsOf([], now) == [] && EventRowsOf([]) == [];
  }

  /** A batch is decoded envelope by envelope, in order. */
  lemma {:induction false} DecodesPiecewise(a: seq<Envelope>, b: seq<Envelope>, now: int)
    ensures LogRowsOf(a + b, now) == LogRowsOf(a, now) + LogRowsOf(b, now)
    ensures EventRowsOf(a + b) == EventRowsOf(a) + EventRowsOf(b)
    decreases |b|
  {
    hide LogRowOf;
    if b == [] {
      assert a + b == a;
    } else {
      assert (a + b)[..|a + b| - 1] == a + b[..|b| - 1];
      DecodesPiecewise(a, b[..|b| - 1], now);
    }
  }

  method DecodeRows(envs: seq<Envelope>, now: int) returns (lines: seq<Line>, events: seq<Line>)
    ensures lines == LogRowsOf(envs, now)
    ensures forall i :: 0 <= i < |lines| ==> Inside(lines[i].ts, now)
    ensures events == EventRowsOf(envs)
  {
    lines, events := [], [];
    var i := 0;
    while i < |envs|
      invariant 0 <= i <= |envs|
      invariant lines == LogRowsOf(envs[..i], now)
      invariant forall j :: 0 <= j < |lines| ==> Inside(lines[j].ts, now)
      invariant events == EventRowsOf(envs[..i])
    {
      var env := envs[i];
      assert envs[..i + 1][..i] == envs[..i];
      var outside := !Inside(env.line.ts, now);
      var line := env.line;
      if outside {
        line := line.(ts := now);
      }
      if !outside || !env.event {
        lines := lines + [line];
      }
      if env.event {
        events := events + [env.line];
      }
      i := i + 1;
    }
    assert envs[..i] == envs;
  }

  // ----- the rollup -----

  function Count(lines: seq<Line>, p: Line -> bool): nat {
    if lines == [] then 0
    else Count(lines[..|lines| - 1], p) + (if p(lines[|lines| - 1]) then 1 else 0)
  }

  lemma {:induction false} CountConcat(a: seq<Line>, b: seq<Line>, p: Line -> bool)
    ensures Count(a + b, p) == Count(a, p) + Count(b, p)
    decreases |b|
  {
    if b == [] {
      assert a + b == a;
    } else {
      assert (a + b)[..|a + b| - 1] == a + b[..|b| - 1];
      CountConcat(a, b[..|b| - 1], p);
    }
  }

  lemma {:induction false} CountSame(lines: seq<Line>, p: Line -> bool, q: Line -> bool)
    requires forall l :: l in lines ==> p(l) == q(l)
    ensures Count(lines, p) == Count(lines, q)
    decreases |lines|
  {
    if lines != [] {
      CountSame(lines[..|lines| - 1], p, q);
    }
  }

  function Lookup(m: map<Key, nat>, k: Key): nat {
    if k in m then m[k] else 0
  }

  function Bump(m: map<Key, nat>, k: Key, n: nat): map<Key, nat> {
    m[k := Lookup(m, k) + n]
  }

  /** The rollup of these lines, one line at a time. */
  function RollupOf(lines: seq<Line>): map<Key, nat> {
    if lines == [] then map[] else Bump(RollupOf(lines[..|lines| - 1]), KeyOf(lines[|lines| - 1]), 1)
  }

  lemma {:induction false} RollupCounts(lines: seq<Line>, k: Key)
    ensures Lookup(RollupOf(lines), k) == Count(lines, l => KeyOf(l) == k)
    ensures k in RollupOf(lines) ==> RollupOf(lines)[k] > 0
    decreases |lines|
  {
    if lines != [] {
      RollupCounts(lines[..|lines| - 1], k);
    }
  }

  /** The batch's own counts, under its own keys. */
  function AggregateOf(rows: seq<Line>): map<Key, nat> {
    if rows == [] then map[] else Bump(AggregateOf(rows[..|rows| - 1]), BatchKey(rows[|rows| - 1]), 1)
  }

  method AggregateHistory(rows: seq<Line>) returns (agg: map<Key, nat>)
    ensures agg == AggregateOf(rows)
  {
    agg := map[];
    var i := 0;
    while i < |rows|
      invariant 0 <= i <= |rows|
      invariant agg == AggregateOf(rows[..i])
    {
      assert rows[..i + 1][..i] == rows[..i];
      var k := BatchKey(rows[i]);
      var lines := if k in agg then agg[k] else 0;
      agg := agg[k := lines + 1];
      i := i + 1;
    }
    assert rows[..i] == rows;
  }

  /** The fingerprints a batch may key on. */
  predicate Unsigned(bumps: map<Key, nat>) {
    forall k :: k in bumps ==> IsBatchKey(k)
  }

  predicate IsBatchKey(k: Key) {
    0 <= k.shape < 0x1_0000_0000_0000_0000
  }

  predicate IsTableKey(k: Key) {
    -0x8000_0000_0000_0000 <= k.shape < 0x8000_0000_0000_0000
  }

  /** What a batch adds at one key of the table. */
  function Increment(bumps: map<Key, nat>, k: Key): nat {
    if IsTableKey(k) then Lookup(bumps, k.(shape := Unwrap(k.shape))) else 0
  }

  /** The upsert of a whole batch in one statement. */
  function Added(m: map<Key, nat>, bumps: map<Key, nat>): map<Key, nat> {
    map k | k in m.Keys + TableKeys(bumps) :: Lookup(m, k) + Increment(bumps, k)
  }

  function TableKeys(bumps: map<Key, nat>): set<Key> {
    set b | b in bumps :: TableKey(b)
  }

  lemma {:induction false} AggregateIsUnsigned(rows: seq<Line>)
    ensures Unsigned(AggregateOf(rows))
    decreases |rows|
  {
    if rows != [] {
      AggregateIsUnsigned(rows[..|rows| - 1]);
    }
  }

  lemma AddedLookup(m: map<Key, nat>, bumps: map<Key, nat>, k: Key)
    requires Unsigned(bumps)
    ensures Lookup(Added(m, bumps), k) == Lookup(m, k) + Increment(bumps, k)
    ensures k in Added(m, bumps) <==> k in m || k in TableKeys(bumps)
  {
    var b := k.(shape := Unwrap(k.shape));
    if IsTableKey(k) && b in bumps {
      assert TableKey(b) == k;
    }
  }

  lemma IncrementBump(bumps: map<Key, nat>, k: Key, n: nat, at: Key)
    requires IsBatchKey(k)
    ensures Increment(Bump(bumps, k, n), at) == Increment(bumps, at) + (if at == TableKey(k) then n else 0)
  {
    var b := at.(shape := Unwrap(at.shape));
    assert IsTableKey(at) && b == k <==> at == TableKey(k);
  }

  /** The signed column loses nothing: a key of the batch is one key of the table. */
  lemma AddedBump(m: map<Key, nat>, bumps: map<Key, nat>, k: Key, n: nat)
    requires Unsigned(bumps) && IsBatchKey(k)
    ensures Added(m, Bump(bumps, k, n)) == Bump(Added(m, bumps), TableKey(k), n)
  {
    var grown := Bump(bumps, k, n);
    assert TableKeys(grown) == TableKeys(bumps) + {TableKey(k)} by {
      assert grown.Keys == bumps.Keys + {k};
    }
    var was, now := Added(m, bumps), Added(m, grown);
    forall at ensures (at in now <==> at in Bump(was, TableKey(k), n))
                      && Lookup(now, at) == Lookup(Bump(was, TableKey(k), n), at)
    {
      hide Added, Increment;
      AddedLookup(m, bumps, at);
      AddedLookup(m, grown, at);
      IncrementBump(bumps, k, n, at);
    }
    SameLookup(now, Bump(was, TableKey(k), n));
  }

  lemma SameLookup(a: map<Key, nat>, b: map<Key, nat>)
    requires forall k :: (k in a <==> k in b) && Lookup(a, k) == Lookup(b, k)
    ensures a == b
  {
    forall k | k in a ensures k in b && a[k] == b[k] {
      assert Lookup(a, k) == Lookup(b, k);
    }
  }

  ghost predicate SplitsInto(bumps: map<Key, nat>, done: map<Key, nat>, left: map<Key, nat>) {
    Unsigned(bumps)
    && (forall k :: k in bumps <==> k in done || k in left)
    && (forall k :: k in done ==> k !in left && done[k] == bumps[k])
    && (forall k :: k in left ==> left[k] == bumps[k])
  }

  lemma MoveKey(bumps: map<Key, nat>, done: map<Key, nat>, left: map<Key, nat>, k: Key)
    requires SplitsInto(bumps, done, left) && k in left
    ensures IsBatchKey(k) && Unsigned(done)
    ensures SplitsInto(bumps, Bump(done, k, left[k]), left - {k})
    ensures (left - {k}).Keys < left.Keys
  {
    assert k !in done && Lookup(done, k) == 0;
  }

  lemma StartSplit(bumps: map<Key, nat>)
    requires Unsigned(bumps)
    ensures SplitsInto(bumps, map[], bumps)
  {
  }

  lemma SplitIsDone(bumps: map<Key, nat>, done: map<Key, nat>, left: map<Key, nat>)
    requires SplitsInto(bumps, done, left) && left == map[]
    ensures done == bumps
  {
  }

  lemma AddedNothing(m: map<Key, nat>)
    ensures Added(m, map[]) == m
  {
  }

  /** Bumping by a batch's counts is rolling up its lines. */
  lemma {:induction false} AddedIsRollup(before: seq<Line>, rows: seq<Line>)
    ensures Added(RollupOf(before), AggregateOf(rows)) == RollupOf(before + rows)
    decreases |rows|
  {
    if rows == [] {
      assert before + rows == before;
      assert Added(RollupOf(before), map[]) == RollupOf(before);
    } else {
      var last := rows[|rows| - 1];
      var rest := rows[..|rows| - 1];
      assert (before + rows)[..|before + rows| - 1] == before + rest;
      AggregateIsUnsigned(rest);
      AddedBump(RollupOf(before), AggregateOf(rest), BatchKey(last), 1);
      AddedIsRollup(before, rest);
    }
  }

  /** One flush: what it carried, whether its lines landed, and whether its rollup statement did. */
  datatype Flush = Flush(rows: seq<Line>, logged: bool, bumped: bool)

  function Logged(history: seq<Flush>): seq<Line> {
    if history == [] then []
    else
      var last := history[|history| - 1];
      Logged(history[..|history| - 1]) + (if last.logged then last.rows else [])
  }

  function Rolled(history: seq<Flush>): seq<Line> {
    if history == [] then []
    else
      var last := history[|history| - 1];
      Rolled(history[..|history| - 1]) + (if last.logged && last.bumped then last.rows else [])
  }

  /** Lines in the ring whose rollup statement failed. */
  function Missed(history: seq<Flush>): seq<Line> {
    if history == [] then []
    else
      var last := history[|history| - 1];
      Missed(history[..|history| - 1]) + (if last.logged && !last.bumped then last.rows else [])
  }

  class Store {
    var lines: seq<Line>
    var rollup: map<Key, nat>
    ghost var history: seq<Flush>

    ghost predicate Valid()
      reads this
    {
      lines == Logged(history) && rollup == RollupOf(Rolled(history))
    }

    constructor ()
      ensures Valid() && history == []
    {
      lines, rollup, history := [], map[], [];
    }

    method BumpHistory(bumps: map<Key, nat>)
      requires Unsigned(bumps)
      modifies this`rollup
      ensures rollup == Added(old(rollup), bumps)
    {
      hide *;
      ghost var done: map<Key, nat> := map[];
      var left := bumps;
      AddedNothing(rollup);
      StartSplit(bumps);
      while left != map[]
        invariant SplitsInto(bumps, done, left)
        invariant rollup == Added(old(rollup), done)
        decreases left.Keys
      {
        var k :| k in left;
        MoveKey(bumps, done, left, k);
        AddedBump(old(rollup), done, k, left[k]);
        rollup := Bump(rollup, TableKey(k), left[k]);
        done := Bump(done, k, left[k]);
        left := left - {k};
      }
      SplitIsDone(bumps, done, left);
    }

    /** Flush: the rollup is bumped only for rows that landed; neither write is retried. */
    method LandFlush(rows: seq<Line>, logged: bool, bumped: bool)
      requires Valid()
      modifies this
      ensures Valid() && history == old(history) + [Flush(rows, logged, bumped)]
      ensures lines == old(lines) + (if logged then rows else [])
    {
      ghost var before := history;
      history := history + [Flush(rows, logged, bumped)];
      assert history[..|history| - 1] == before;
      assert Logged(before) + [] == Logged(before) && Rolled(before) + [] == Rolled(before);
      if logged {
        lines := lines + rows;
        if bumped {
          var bumps := AggregateHistory(rows);
          AggregateIsUnsigned(rows);
          AddedIsRollup(Rolled(before), rows);
          BumpHistory(bumps);
        }
      }
    }
  }
}

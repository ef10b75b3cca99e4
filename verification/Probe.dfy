/**
 The probe's worker pool (back/cmd/ucprobe/main.go:138-164): one loop starts a goroutine
 for each check under a semaphore of twenty permits, a guard stops it when the budget is
 short, and each goroutine fills its own slot and then gives its permit back.

 Every interleaving of these steps is a run.  `outcome[i]` stands for what fetching the
 i-th check gives; time is the choice between `Start` and `Break`.
 */
module Probe {
  import opened Outcomes

  const WIDTH := 20

  datatype Phase = Asking | Holding | Broke | Ended

  datatype Pool<R> = Pool(
    phase: Phase,
    next: nat,
    permits: nat,
    flying: set<nat>,
    landed: set<nat>,
    slots: seq<Option<R>>)

  /** Acquire, Start, Break and Leave are the loop's; Write and Release a goroutine's. */
  datatype Step = Acquire | Start | Break | Leave | Write(slot: nat) | Release(slot: nat)

  function Begin<R>(outcome: seq<R>): Pool<R> {
    Pool(Asking, 0, 0, {}, {}, seq(|outcome|, i => None))
  }

  predicate Enabled<R>(p: Pool<R>, step: Step) {
    match step
    case Acquire => p.phase == Asking && p.next < |p.slots| && p.permits < WIDTH
    case Start => p.phase == Holding
    case Break => p.phase == Holding
    case Leave => p.phase == Asking && p.next >= |p.slots|
    case Write(i) => i in p.flying
    case Release(i) => i in p.landed
  }

  function Next<R>(p: Pool<R>, outcome: seq<R>, step: Step): Pool<R>
    requires Enabled(p, step)
  {
    match step
    case Acquire => p.(phase := Holding, permits := p.permits + 1)
    case Start => p.(phase := Asking, next := p.next + 1, flying := p.flying + {p.next})
    case Break => p.(phase := Broke)
    case Leave => p.(phase := Ended)
    case Write(i) =>
      if i < |p.slots| && i < |outcome| then
        p.(flying := p.flying - {i}, landed := p.landed + {i}, slots := p.slots[i := Some(outcome[i])])
      else p
    case Release(i) => p.(landed := p.landed - {i}, permits := if p.permits > 0 then p.permits - 1 else 0)
  }

  /** wg.Wait returns. */
  predicate Finished<R>(p: Pool<R>) {
    (p.phase == Broke || p.phase == Ended) && p.flying == {} && p.landed == {}
  }

  /** DeleteFunc: the slots that were filled, in order. */
  function Filled<R>(slots: seq<Option<R>>): seq<R> {
    if slots == [] then []
    else
      var last := slots[|slots| - 1];
      Filled(slots[..|slots| - 1]) + (if last.Some? then [last.value] else [])
  }

  /** The loop holds a permit between asking and starting, and keeps it for ever once it broke off. */
  function Held(phase: Phase): nat {
    if phase == Holding || phase == Broke then 1 else 0
  }

  ghost predicate Sound<R>(p: Pool<R>, outcome: seq<R>) {
    |p.slots| == |outcome|
    && p.next + Held(p.phase) <= |outcome|
    && (p.phase == Ended ==> p.next == |outcome|)
    && (forall i :: i in p.flying || i in p.landed ==> i < p.next)
    && p.flying !! p.landed
    && p.permits == |p.flying| + |p.landed| + Held(p.phase) <= WIDTH
    && forall i :: 0 <= i < |outcome| ==>
         p.slots[i] == if i < p.next && i !in p.flying then Some(outcome[i]) else None
  }

  lemma Counts<T>(s: set<T>, x: T)
    ensures x in s ==> |s - {x}| == |s| - 1
    ensures x !in s ==> |s + {x}| == |s| + 1
  {
    if x in s {
      assert s - {x} + {x} == s;
    }
  }

  lemma BeginIsSound<R>(outcome: seq<R>)
    ensures Sound(Begin(outcome), outcome)
  {
  }

  /** Every step keeps the account of permits and slots. */
  lemma StepKeepsSound<R>(p: Pool<R>, outcome: seq<R>, step: Step)
    requires Sound(p, outcome) && Enabled(p, step)
    ensures Sound(Next(p, outcome, step), outcome)
  {
    match step {
      case Start => StartKeepsSound(p, outcome);
      case Write(i) => WriteKeepsSound(p, outcome, i);
      case Release(i) => Counts(p.landed, i);
      case _ =>
    }
  }

  lemma StartKeepsSound<R>(p: Pool<R>, outcome: seq<R>)
    requires Sound(p, outcome) && p.phase == Holding
    ensures Sound(Next(p, outcome, Start), outcome)
  {
    Counts(p.flying, p.next);
  }

  lemma WriteKeepsSound<R>(p: Pool<R>, outcome: seq<R>, i: nat)
    requires Sound(p, outcome) && i in p.flying
    ensures Sound(Next(p, outcome, Write(i)), outcome)
  {
    Counts(p.flying, i);
    Counts(p.landed, i);
  }

  // ----- runs -----

  ghost predicate IsRun<R>(outcome: seq<R>, steps: seq<Step>) {
    steps == [] || var rest := steps[..|steps| - 1];
    IsRun(outcome, rest) && Enabled(After(outcome, rest), steps[|steps| - 1])
  }

  ghost function After<R>(outcome: seq<R>, steps: seq<Step>): Pool<R> {
    if steps == [] then Begin(outcome)
    else
      var before := After(outcome, steps[..|steps| - 1]);
      if Enabled(before, steps[|steps| - 1]) then Next(before, outcome, steps[|steps| - 1]) else before
  }

  lemma {:induction false} RunsAreSound<R>(outcome: seq<R>, steps: seq<Step>)
    requires IsRun(outcome, steps)
    ensures Sound(After(outcome, steps), outcome)
    decreases |steps|
  {
    if steps == [] {
      BeginIsSound(outcome);
    } else {
      var rest := steps[..|steps| - 1];
      RunsAreSound(outcome, rest);
      StepKeepsSound(After(outcome, rest), outcome, steps[|steps| - 1]);
    }
  }

  /** In every interleaving at most twenty goroutines are between their start and their release. */
  lemma AtMostTwentyInFlight<R>(outcome: seq<R>, steps: seq<Step>)
    requires IsRun(outcome, steps)
    ensures var p := After(outcome, steps); |p.flying + p.landed| <= WIDTH
  {
    RunsAreSound(outcome, steps);
    var p := After(outcome, steps);
    assert |p.flying + p.landed| == |p.flying| + |p.landed|;
  }

  /** The slots written so far along a run, in the order of the writes. */
  function Writes(steps: seq<Step>): seq<nat> {
    if steps == [] then []
    else
      var last := steps[|steps| - 1];
      Writes(steps[..|steps| - 1]) + (if last.Write? then [last.slot] else [])
  }

  ghost predicate Accounted<R>(p: Pool<R>, w: seq<nat>) {
    (forall i, j :: 0 <= i < j < |w| ==> w[i] != w[j])
    && forall i: nat :: i in w <==> i < p.next && i !in p.flying
  }

  lemma StepKeepsAccount<R>(p: Pool<R>, outcome: seq<R>, step: Step, w: seq<nat>)
    requires Sound(p, outcome) && Enabled(p, step) && Accounted(p, w)
    ensures Accounted(Next(p, outcome, step), w + (if step.Write? then [step.slot] else []))
  {
    if step.Write? {
      assert step.slot !in w;
    } else {
      assert w + [] == w;
      assert p.next !in p.flying;
    }
  }

  /** No slot is written twice, and the written ones are the started checks no longer in flight. */
  lemma {:induction false} EachSlotIsWrittenOnce<R>(outcome: seq<R>, steps: seq<Step>)
    requires IsRun(outcome, steps)
    ensures Accounted(After(outcome, steps), Writes(steps))
    decreases |steps|
  {
    if steps != [] {
      hide Accounted, Sound, Enabled, Next;
      var rest := steps[..|steps| - 1];
      EachSlotIsWrittenOnce(outcome, rest);
      RunsAreSound(outcome, rest);
      StepKeepsAccount(After(outcome, rest), outcome, steps[|steps| - 1], Writes(rest));
    }
  }

  /** Nothing ever waits for good: until wg.Wait returns some step can be taken, also after the guard kept a permit. */
  lemma NoDeadlock<R>(outcome: seq<R>, steps: seq<Step>)
    requires IsRun(outcome, steps)
    ensures var p := After(outcome, steps); Finished(p) <==> forall step :: !Enabled(p, step)
  {
    RunsAreSound(outcome, steps);
    var p := After(outcome, steps);
    if !Finished(p) {
      if p.flying != {} {
        var i :| i in p.flying;
        assert Enabled(p, Write(i));
      } else if p.landed != {} {
        var i :| i in p.landed;
        assert Enabled(p, Release(i));
      } else if p.phase == Holding {
        assert Enabled(p, Start);
      } else if p.next < |p.slots| {
        assert Enabled(p, Acquire);
      } else {
        assert Enabled(p, Leave);
      }
    }
  }

  function Weight(phase: Phase): nat {
    match phase
    case Asking => 2
    case Holding => 1
    case _ => 0
  }

  /** What is left to do; every step does some of it. */
  function Left<R>(p: Pool<R>): int {
    4 * (|p.slots| - p.next) + 2 * |p.flying| + |p.landed| + Weight(p.phase)
  }

  lemma StepsGoDown<R>(p: Pool<R>, outcome: seq<R>, step: Step)
    requires Sound(p, outcome) && Enabled(p, step)
    ensures 0 <= Left(Next(p, outcome, step)) < Left(p)
  {
    match step {
      case Start => Counts(p.flying, p.next);
      case Write(i) => Counts(p.flying, i); Counts(p.landed, i);
      case Release(i) => Counts(p.landed, i);
      case _ =>
    }
  }

  /** Every run ends, within four steps a check and two more. */
  lemma {:induction false} RunsAreShort<R>(outcome: seq<R>, steps: seq<Step>)
    requires IsRun(outcome, steps)
    ensures |steps| + Left(After(outcome, steps)) <= 4 * |outcome| + 2
    ensures |steps| <= 4 * |outcome| + 2
    decreases |steps|
  {
    RunsAreSound(outcome, steps);
    if steps != [] {
      var rest := steps[..|steps| - 1];
      RunsAreShort(outcome, rest);
      RunsAreSound(outcome, rest);
      StepsGoDown(After(outcome, rest), outcome, steps[|steps| - 1]);
    }
  }

  lemma {:induction false} FilledPrefix<R>(slots: seq<Option<R>>, outcome: seq<R>, n: nat)
    requires n <= |outcome| == |slots|
    requires forall i :: 0 <= i < |slots| ==> slots[i] == if i < n then Some(outcome[i]) else None
    ensures Filled(slots) == outcome[..n]
  {
    if slots != [] {
      var k := |slots| - 1;
      FilledPrefix(slots[..k], outcome[..k], if n <= k then n else k);
      assert n <= k ==> outcome[..k][..n] == outcome[..n];
      assert n > k ==> outcome[..k][..k] + [outcome[k]] == outcome[..n];
    }
  }

  /** What is submitted is the results of the started checks, in leased order; all of them if the guard never fired. */
  lemma ResultIsTheStartedPrefix<R>(outcome: seq<R>, steps: seq<Step>)
    requires IsRun(outcome, steps) && Finished(After(outcome, steps))
    ensures var p := After(outcome, steps);
            p.next <= |outcome| && Filled(p.slots) == outcome[..p.next]
            && (p.phase == Ended ==> Filled(p.slots) == outcome)
            && (p.phase == Broke ==> |Filled(p.slots)| < |outcome|)
  {
    RunsAreSound(outcome, steps);
    var p := After(outcome, steps);
    FilledPrefix(p.slots, outcome, p.next);
    assert outcome[..|outcome|] == outcome;
  }

  lemma SoundMeans<R>(p: Pool<R>, outcome: seq<R>)
    requires Sound(p, outcome)
    ensures |p.slots| == |outcome| && p.next <= |outcome|
    ensures forall i :: i in p.flying ==> i < |outcome|
    ensures p.landed != {} ==> p.permits > 0
  {
    if p.landed != {} {
      var i :| i in p.landed;
      Counts(p.landed, i);
    }
  }

  lemma StuckMeans<R>(p: Pool<R>, outcome: seq<R>)
    requires Sound(p, outcome)
    requires p.flying == {} && p.landed == {} && p.phase != Holding
    requires p.phase == Asking ==> p.next < |outcome| && p.permits >= WIDTH
    ensures Finished(p) && p.next <= |outcome| && Filled(p.slots) == outcome[..p.next]
    ensures p.phase == Broke <==> p.next < |outcome|
  {
    FilledPrefix(p.slots, outcome, p.next);
  }

  method Compact<R>(slots: array<Option<R>>) returns (results: seq<R>)
    ensures results == Filled(slots[..])
  {
    results := [];
    var k := 0;
    while k < slots.Length
      invariant 0 <= k <= slots.Length
      invariant results == Filled(slots[..k])
    {
      assert slots[..k + 1][..k] == slots[..k];
      if slots[k].Some? {
        results := results + [slots[k].value];
      }
      k := k + 1;
    }
    assert slots[..k] == slots[..];
  }

  /**
   The pool itself, its goroutines interleaved by the choice of an open case.  The loop
   ends only when no case is open, so reaching the end is the absence of deadlock.
   */
  method ExecuteChecks<R>(outcome: seq<R>) returns (results: seq<R>, started: nat, cut: bool)
    ensures started <= |outcome| && results == outcome[..started]
    ensures cut <==> started < |outcome|
  {
    hide Sound, Left, Filled;
    var slots := new Option<R>[|outcome|](i => None);
    var phase: Phase, next: nat, permits: nat := Asking, 0, 0;
    var flying: set<nat>, landed: set<nat> := {}, {};
    ghost var p: Pool<R> := Begin(outcome);
    BeginIsSound(outcome);
    assert slots[..] == Begin(outcome).slots;
    while
      invariant Sound(p, outcome)
      invariant p == Pool(phase, next, permits, flying, landed, slots[..])
      decreases Left(p)
    {
      case phase == Asking && next < |outcome| && permits < WIDTH =>
        SoundMeans(p, outcome);
        p := Stepped(p, outcome, Acquire);
        phase, permits := Holding, permits + 1;
      case phase == Holding =>
        if * {
          p := Stepped(p, outcome, Break);
          phase := Broke;
        } else {
          p := Stepped(p, outcome, Start);
          phase, next, flying := Asking, next + 1, flying + {next};
        }
      case phase == Asking && next >= |outcome| =>
        SoundMeans(p, outcome);
        p := Stepped(p, outcome, Leave);
        phase := Ended;
      case flying != {} =>
        var i :| i in flying;
        SoundMeans(p, outcome);
        p := Stepped(p, outcome, Write(i));
        slots[i] := Some(outcome[i]);
        flying, landed := flying - {i}, landed + {i};
      case landed != {} =>
        var i :| i in landed;
        SoundMeans(p, outcome);
        p := Stepped(p, outcome, Release(i));
        landed, permits := landed - {i}, permits - 1;
    }
    StuckMeans(p, outcome);
    results := Compact(slots);
    started, cut := next, phase == Broke;
  }

  /** One step, with what every step keeps. */
  ghost function Stepped<R>(p: Pool<R>, outcome: seq<R>, step: Step): (q: Pool<R>)
    requires Sound(p, outcome) && Enabled(p, step)
    ensures q == Next(p, outcome, step) && Sound(q, outcome) && 0 <= Left(q) < Left(p)
  {
    StepKeepsSound(p, outcome, step);
    StepsGoDown(p, outcome, step);
    Next(p, outcome, step)
  }
}

/**
 A board's document: what may be stored, and how the agent's block of widgets is
 laid below it (back/internal/api/dashboard.go, validateLayout and mergeWidgets).

 An enumerated string is `Known(k)` when the contract lists it and `Unknown`
 otherwise; the tables themselves are not part of the model.  A widget's place and size
 are 64-bit integers, and sums of them wrap as the code's do.
 */
module Layouts {
  import opened Outcomes

  const COLUMNS := 12
  const CURRENT_VERSION := 2

  const MAX: int := 0x7fff_ffff_ffff_ffff
  const MIN: int := -0x8000_0000_0000_0000

  type int64 = n: int | MIN <= n <= MAX

  /** The sum of two 64-bit integers, wrapping. */
  function Plus(a: int64, b: int64): (r: int64)
    ensures MIN <= a + b <= MAX <==> r == a + b
    ensures a >= 0 && b >= 0 && a + b > MAX ==> r < 0
  {
    var n := a + b;
    if n > MAX then n - 0x1_0000_0000_0000_0000 else if n < MIN then n + 0x1_0000_0000_0000_0000 else n
  }

  datatype Enum = Known(k: nat) | Unknown

  const RATIO := Known(0)

  datatype Metric = Metric(
    source: Enum,
    count: Option<Enum>,
    measure: Option<Enum>,
    currency: Option<string>,
    steps: seq<string>,
    stepWhere: seq<map<string, string>>)

  datatype Widget = Widget(
    id: string,
    kind: Enum,
    range: Option<Enum>,
    x: int64, y: int64, w: int64, h: int64,
    title: string,
    metrics: seq<Metric>)

  datatype Layout = Layout(version: int, widgets: seq<Widget>)

  const EMPTY_LAYOUT := Layout(CURRENT_VERSION, [])

  // ----- what may be stored -----

  predicate IsControl(c: char) {
    c < ' ' || '\U{7f}' <= c <= '\U{9f}'
  }

  predicate ValidLabels(labels: map<string, string>) {
    |labels| <= 3
    && forall k :: k in labels ==>
         1 <= |k| <= 60 && |labels[k]| <= 256
         && (forall i :: 0 <= i < |k| ==> !IsControl(k[i]))
         && (forall i :: 0 <= i < |labels[k]| ==> !IsControl(labels[k][i]))
  }

  predicate IsCurrency(s: string) {
    |s| == 3 && forall i :: 0 <= i < 3 ==> 'A' <= s[i] <= 'Z'
  }

  predicate ValidMetric(m: Metric) {
    m.source.Known?
    && (m.count.Some? ==> m.count.value.Known?)
    && (m.measure.Some? ==> m.measure.value.Known?)
    && (m.measure.Some? <==> m.currency.Some?)
    && (m.currency.Some? ==> IsCurrency(m.currency.value))
    && |m.stepWhere| <= |m.steps|
    && forall i :: 0 <= i < |m.stepWhere| ==> ValidLabels(m.stepWhere[i])
  }

  predicate ValidWidget(w: Widget) {
    w.id != ""
    && w.kind.Known?
    && (w.range.Some? ==> w.range.value.Known?)
    && 0 <= w.x && 0 <= w.y && 1 <= w.w && 1 <= w.h
    && Plus(w.x, w.w) <= COLUMNS
    && w.metrics != []
    && (w.kind == RATIO ==> |w.metrics| == 2)
    && forall i :: 0 <= i < |w.metrics| ==> ValidMetric(w.metrics[i])
  }

  /** What the column check really lets by: a widget inside the columns, or one whose right edge wraps. */
  lemma ColumnCheckIs(w: Widget)
    requires w.x >= 0 && w.w >= 1
    ensures Plus(w.x, w.w) <= COLUMNS <==> w.x + w.w <= COLUMNS || w.x + w.w > MAX
  {
  }

  /** At most three labels, named and not too long, and no control character anywhere in them. */
  lemma LabelsAre(labels: map<string, string>)
    ensures ValidLabels(labels) <==>
              |labels| <= 3 && "" !in labels
              && forall k :: k in labels ==>
                   |k| <= 60 && |labels[k]| <= 256 && forall c :: c in k || c in labels[k] ==> !IsControl(c)
  {
  }

  /** A metric asks for a known source, and for an amount exactly in a currency of three capital letters. */
  lemma MetricIs(m: Metric)
    ensures ValidMetric(m) <==>
              m.source != Unknown && m.count != Some(Unknown) && m.measure != Some(Unknown)
              && (m.currency == None <==> m.measure == None)
              && (m.currency != None ==> exists a: char, b: char, c: char ::
                    m.currency == Some([a, b, c]) && 'A' <= a <= 'Z' && 'A' <= b <= 'Z' && 'A' <= c <= 'Z')
              && |m.stepWhere| <= |m.steps| && forall labels :: labels in m.stepWhere ==> ValidLabels(labels)
  {
    if m.currency.Some? && IsCurrency(m.currency.value) {
      var s := m.currency.value;
      assert s == [s[0], s[1], s[2]];
    }
  }

  /** Every reason to refuse a widget. */
  lemma WidgetIs(w: Widget)
    ensures ValidWidget(w) <==>
              |w.id| > 0 && w.kind != Unknown && w.range != Some(Unknown)
              && w.x >= 0 && w.y >= 0 && w.w > 0 && w.h > 0 && (w.x + w.w <= 12 || w.x + w.w > MAX)
              && |w.metrics| > 0 && (w.kind == Known(0) ==> |w.metrics| == 2)
              && forall m :: m in w.metrics ==> ValidMetric(m)
  {
  }

  predicate DistinctIds(ws: seq<Widget>) {
    forall i, j :: 0 <= i < j < |ws| ==> ws[i].id != ws[j].id
  }

  predicate ValidVersion(v: int) {
    v == 1 || v == CURRENT_VERSION
  }

  predicate ValidLayout(doc: Layout) {
    ValidVersion(doc.version)
    && DistinctIds(doc.widgets)
    && forall i :: 0 <= i < |doc.widgets| ==> ValidWidget(doc.widgets[i])
  }

  lemma IdsOneMore(rest: seq<Widget>, w: Widget)
    ensures Ids(rest + [w]) == Ids(rest) + {w.id}
    ensures DistinctIds(rest + [w]) <==> DistinctIds(rest) && w.id !in Ids(rest)
  {
    var ws, n := rest + [w], |rest|;
    assert ws[n] == w && forall i :: 0 <= i < n ==> ws[i] == rest[i];
    forall id | id in Ids(rest) ensures id in Ids(ws) {
      var i :| 0 <= i < n && rest[i].id == id;
      assert ws[i].id == id;
    }
  }

  lemma {:induction false} DistinctIffAsManyIds(ws: seq<Widget>)
    ensures DistinctIds(ws) <==> |Ids(ws)| == |ws|
    ensures |Ids(ws)| <= |ws|
    decreases |ws|
  {
    if ws == [] {
      assert Ids(ws) == {};
    } else {
      hide DistinctIds, Ids;
      var n := |ws| - 1;
      assert ws == ws[..n] + [ws[n]];
      DistinctIffAsManyIds(ws[..n]);
      IdsOneMore(ws[..n], ws[n]);
      if ws[n].id in Ids(ws[..n]) {
        assert Ids(ws) == Ids(ws[..n]);
      }
    }
  }

  /** Either unit is stored, with as many ids as widgets. */
  lemma DocumentIs(doc: Layout)
    ensures ValidLayout(doc) <==>
              doc.version in {1, 2} && |Ids(doc.widgets)| == |doc.widgets|
              && forall w :: w in doc.widgets ==> ValidWidget(w)
  {
    DistinctIffAsManyIds(doc.widgets);
  }

  datatype Fault = BadVersion | BadWidget(index: nat)

  /** The gate every document passes.  A refusal names the first widget that spoils it. */
  method ValidateLayout(doc: Layout) returns (fault: Option<Fault>)
    ensures fault == None <==> ValidLayout(doc)
    ensures fault == Some(BadVersion) <==> !ValidVersion(doc.version)
    ensures fault.Some? && fault.value.BadWidget? ==>
              var i := fault.value.index;
              i < |doc.widgets|
              && ValidLayout(doc.(widgets := doc.widgets[..i]))
              && !ValidLayout(doc.(widgets := doc.widgets[..i + 1]))
  {
    if !ValidVersion(doc.version) {
      return Some(BadVersion);
    }
    var seen: set<string> := {};
    var i := 0;
    while i < |doc.widgets|
      invariant 0 <= i <= |doc.widgets|
      invariant seen == Ids(doc.widgets[..i])
      invariant ValidLayout(doc.(widgets := doc.widgets[..i]))
    {
      var w := doc.widgets[i];
      assert doc.widgets[..i + 1] == doc.widgets[..i] + [w];
      if w.id in seen || !ValidWidget(w) {
        ghost var spoiled := doc.(widgets := doc.widgets[..i + 1]);
        assert spoiled.widgets[i] == w;
        if w.id in seen {
          var j :| 0 <= j < i && doc.widgets[..i][j].id == w.id;
          assert spoiled.widgets[j].id == spoiled.widgets[i].id;
          assert doc.widgets[j].id == doc.widgets[i].id;
        }
        return Some(BadWidget(i));
      }
      seen := seen + {w.id};
      i := i + 1;
    }
    assert doc.widgets[..i] == doc.widgets;
    return None;
  }

  // ----- the merge -----

  function Ids(ws: seq<Widget>): set<string> {
    set i | 0 <= i < |ws| :: ws[i].id
  }

  /** The board's bottom as the code adds it up: a widget whose lower edge wraps is not seen. */
  function Bottom(ws: seq<Widget>): (y: int64)
    ensures 0 <= y
    ensures forall i :: 0 <= i < |ws| ==> Plus(ws[i].y, ws[i].h) <= y
    ensures y == 0 || exists i :: 0 <= i < |ws| && y == Plus(ws[i].y, ws[i].h)
  {
    if ws == [] then 0
    else
      var last := ws[|ws| - 1];
      var above := Bottom(ws[..|ws| - 1]);
      if Plus(last.y, last.h) > above then Plus(last.y, last.h) else above
  }

  /** No widget's lower edge wraps. */
  predicate EdgesFit(ws: seq<Widget>) {
    forall i :: 0 <= i < |ws| ==> ws[i].y + ws[i].h <= MAX
  }

  /** The bottom lies below every stored widget exactly when no lower edge wraps. */
  lemma BottomIsBelowIff(ws: seq<Widget>)
    requires forall i :: 0 <= i < |ws| ==> ValidWidget(ws[i])
    ensures (forall i :: 0 <= i < |ws| ==> ws[i].y + ws[i].h <= Bottom(ws)) <==> EdgesFit(ws)
  {
    if EdgesFit(ws) {
      forall i | 0 <= i < |ws| ensures ws[i].y + ws[i].h <= Bottom(ws) {
        assert ValidWidget(ws[i]) && Plus(ws[i].y, ws[i].h) <= Bottom(ws);
      }
    }
  }

  /** Where the i-th incoming widget went: same widget, moved down, renamed only if its id was taken. */
  predicate Placed(doc: Layout, block: seq<Widget>, out: Layout, i: nat)
    requires i < |block| && |out.widgets| == |doc.widgets| + |block|
  {
    var w := out.widgets[|doc.widgets| + i];
    var taken := Ids(out.widgets[..|doc.widgets| + i]);
    w == block[i].(id := w.id, y := Plus(block[i].y, Bottom(doc.widgets)))
    && w.id !in taken
    && (block[i].id !in taken ==> w.id == block[i].id)
    && (block[i].id in taken ==> w.id != "")
  }

  predicate Merged(doc: Layout, block: seq<Widget>, out: Layout) {
    out.version == doc.version
    && |out.widgets| == |doc.widgets| + |block|
    && out.widgets[..|doc.widgets|] == doc.widgets
    && forall i :: 0 <= i < |block| ==> Placed(doc, block, out, i)
  }

  function Base(onto: Option<Layout>): Layout {
    if onto.Some? then onto.value else EMPTY_LAYOUT
  }

  /** When the append door accepts a block, said without the ids it may mint. */
  predicate CanMerge(doc: Layout, block: seq<Widget>) {
    doc.version == CURRENT_VERSION
    && ValidLayout(doc)
    && forall i :: 0 <= i < |block| ==> ValidWidget(block[i].(y := Plus(block[i].y, Bottom(doc.widgets))))
  }

  datatype MergeError = OldUnit | Refused(fault: Fault)

  /** Some id no widget on this board holds.  Callers know nothing else about it. */
  method MintWidgetId(occupied: set<string>) returns (id: string)
    ensures id !in occupied && id != ""
  {
    id := "w_";
    ghost var longer := set s | s in occupied && |s| >= |id|;
    while id in occupied
      invariant id != ""
      invariant longer == set s | s in occupied && |s| >= |id|
      decreases |longer|
    {
      ghost var was := id;
      ghost var before := longer;
      id := id + "0";
      longer := set s | s in occupied && |s| >= |id|;
      assert was in before && was !in longer && longer <= before;
      assert longer <= before - {was};
      CardinalityOfSubset(longer, before - {was});
    }
  }

  lemma CardinalityOfSubset(a: set<string>, b: set<string>)
    requires a <= b
    ensures |a| <= |b|
  {
    if a != {} {
      var x :| x in a;
      CardinalityOfSubset(a - {x}, b - {x});
    }
  }

  method MergeWidgets(onto: Option<Layout>, widgets: seq<Widget>) returns (r: Result<Layout, MergeError>)
    ensures r.Ok? <==> CanMerge(Base(onto), widgets)
    ensures r.Ok? ==> Merged(Base(onto), widgets, r.value) && ValidLayout(r.value)
    ensures r == Err(OldUnit) <==> Base(onto).version != CURRENT_VERSION
  {
    hide Merged, CanMerge, ValidLayout, Bottom, Ids;
    var doc := Base(onto);
    CurrentUnit(doc, widgets);
    if doc.version != CURRENT_VERSION {
      return Err(OldUnit);
    }
    var occupied: set<string> := {};
    var y0: int64 := 0;
    var i := 0;
    NothingStored();
    while i < |doc.widgets|
      invariant 0 <= i <= |doc.widgets|
      invariant occupied == Ids(doc.widgets[..i])
      invariant y0 == Bottom(doc.widgets[..i])
    {
      var w := doc.widgets[i];
      OneMoreStored(doc.widgets, i);
      occupied := occupied + {w.id};
      var bottom := Plus(w.y, w.h);
      if bottom > y0 {
        y0 := bottom;
      }
      i := i + 1;
    }
    assert doc.widgets[..i] == doc.widgets;
    var merged := doc.widgets;
    NothingMerged(doc, widgets);
    i := 0;
    while i < |widgets|
      invariant 0 <= i <= |widgets|
      invariant occupied == Ids(merged)
      invariant Merged(doc, widgets[..i], doc.(widgets := merged))
    {
      var w := widgets[i];
      if w.id in occupied {
        var id := MintWidgetId(occupied);
        w := w.(id := id);
      }
      occupied := occupied + {w.id};
      w := w.(y := Plus(w.y, y0));
      MergedGrows(doc, widgets, i, merged, w);
      merged := merged + [w];
      i := i + 1;
    }
    assert widgets[..i] == widgets;
    var out := doc.(widgets := merged);
    MergedIsValid(doc, widgets, out);
    var fault := ValidateLayout(out);
    if fault.Some? {
      return Err(Refused(fault.value));
    }
    return Ok(out);
  }

  lemma CurrentUnit(doc: Layout, block: seq<Widget>)
    ensures CanMerge(doc, block) ==> doc.version == CURRENT_VERSION
  {
  }

  lemma NothingStored()
    ensures Ids([]) == {} && Bottom([]) == 0
  {
  }

  lemma OneMoreStored(ws: seq<Widget>, i: nat)
    requires i < |ws|
    ensures Ids(ws[..i + 1]) == Ids(ws[..i]) + {ws[i].id}
    ensures Bottom(ws[..i + 1]) ==
            if Plus(ws[i].y, ws[i].h) > Bottom(ws[..i]) then Plus(ws[i].y, ws[i].h) else Bottom(ws[..i])
  {
    var few, more := ws[..i], ws[..i + 1];
    assert more[..i] == few && more[i] == ws[i];
    forall id ensures id in Ids(few) ==> id in Ids(more) {
      if id in Ids(few) {
        var k :| 0 <= k < |few| && few[k].id == id;
        assert more[k].id == id;
      }
    }
  }

  lemma NothingMerged(doc: Layout, block: seq<Widget>)
    ensures Merged(doc, block[..0], doc)
  {
  }

  lemma MergedGrows(doc: Layout, block: seq<Widget>, i: nat, merged: seq<Widget>, w: Widget)
    requires i < |block| && Merged(doc, block[..i], doc.(widgets := merged))
    requires w == block[i].(id := w.id, y := Plus(block[i].y, Bottom(doc.widgets)))
    requires w.id !in Ids(merged)
    requires if block[i].id in Ids(merged) then w.id != "" else w.id == block[i].id
    ensures Merged(doc, block[..i + 1], doc.(widgets := merged + [w]))
    ensures Ids(merged + [w]) == Ids(merged) + {w.id}
  {
    hide Ids, Bottom, Plus;
    var n := |doc.widgets|;
    var old', new' := doc.(widgets := merged), doc.(widgets := merged + [w]);
    assert block[..i + 1][..i] == block[..i];
    OneMoreStored(merged + [w], |merged|);
    assert (merged + [w])[..|merged|] == merged && (merged + [w])[..|merged| + 1] == merged + [w];
    var grown := block[..i + 1];
    forall k | 0 <= k < |grown| ensures Placed(doc, grown, new', k) {
      assert new'.widgets[..n + k] == merged[..n + k];
      if k < i {
        assert Placed(doc, block[..i], old', k);
      } else {
        assert merged[..n + i] == merged;
      }
    }
    assert (merged + [w])[..n] == merged[..n];
  }

  lemma MergedIsDistinct(doc: Layout, block: seq<Widget>, out: Layout)
    requires Merged(doc, block, out) && DistinctIds(doc.widgets)
    ensures DistinctIds(out.widgets)
  {
    var n := |doc.widgets|;
    forall a, b | 0 <= a < b < |out.widgets| ensures out.widgets[a].id != out.widgets[b].id {
      if b < n {
        assert out.widgets[..n][a] == doc.widgets[a] && out.widgets[..n][b] == doc.widgets[b];
      } else {
        assert Placed(doc, block, out, b - n);
        assert out.widgets[..b][a].id in Ids(out.widgets[..b]);
      }
    }
  }

  /** Which ids were minted never decides whether the merged document is refused. */
  lemma MergedIsValid(doc: Layout, block: seq<Widget>, out: Layout)
    requires doc.version == CURRENT_VERSION && Merged(doc, block, out)
    ensures ValidLayout(out) <==> CanMerge(doc, block)
  {
    hide Bottom, Plus, ValidMetric;
    var n := |doc.widgets|;
    if ValidLayout(out) {
      assert forall i :: 0 <= i < n ==> out.widgets[..n][i] == out.widgets[i];
      forall i | 0 <= i < |block|
        ensures ValidWidget(block[i].(y := Plus(block[i].y, Bottom(doc.widgets))))
      {
        assert Placed(doc, block, out, i);
        assert ValidWidget(out.widgets[n + i]);
        if block[i].id in Ids(out.widgets[..n + i]) {
          var k :| 0 <= k < n + i && out.widgets[..n + i][k].id == block[i].id;
          assert ValidWidget(out.widgets[k]);
        }
      }
    }
    if CanMerge(doc, block) {
      MergedIsDistinct(doc, block, out);
      forall i | 0 <= i < |out.widgets| ensures ValidWidget(out.widgets[i]) {
        if i < n {
          assert out.widgets[..n][i] == doc.widgets[i];
        } else {
          assert Placed(doc, block, out, i - n);
          assert ValidWidget(block[i - n].(y := Plus(block[i - n].y, Bottom(doc.widgets))));
        }
      }
    }
  }

  // ----- geometry -----

  /** Two widgets share a cell of the unbounded grid. */
  predicate Overlap(a: Widget, b: Widget) {
    a.x < b.x + b.w && b.x < a.x + a.w && a.y < b.y + b.h && b.y < a.y + a.h
  }

  predicate NoOverlap(ws: seq<Widget>) {
    forall i, j :: 0 <= i < j < |ws| ==> !Overlap(ws[i], ws[j])
  }

  predicate StartsBelow(block: seq<Widget>) {
    forall i :: 0 <= i < |block| ==> block[i].y >= 0
  }

  /** On a board that takes the block, nothing wrapped on the way down. */
  lemma LandsWhereAsked(doc: Layout, block: seq<Widget>, out: Layout, i: nat)
    requires CanMerge(doc, block) && Merged(doc, block, out) && i < |block|
    ensures var w := out.widgets[|doc.widgets| + i];
            w == block[i].(id := w.id, y := w.y) && w.y == block[i].y + Bottom(doc.widgets) >= 0
  {
    assert Placed(doc, block, out, i);
    assert ValidWidget(block[i].(y := Plus(block[i].y, Bottom(doc.widgets))));
  }

  /** A block without a negative row never meets a widget already there, if no stored lower edge wraps. */
  lemma AppendNeverCollides(doc: Layout, block: seq<Widget>, out: Layout, i: nat, j: nat)
    requires CanMerge(doc, block) && Merged(doc, block, out)
    requires StartsBelow(block) && EdgesFit(doc.widgets)
    requires i < |doc.widgets| <= j < |out.widgets|
    ensures !Overlap(out.widgets[i], out.widgets[j])
  {
    hide Bottom, Plus, Placed, ValidWidget;
    assert out.widgets[..|doc.widgets|][i] == doc.widgets[i];
    BottomIsBelowIff(doc.widgets);
    LandsWhereAsked(doc, block, out, j - |doc.widgets|);
  }

  /** The block arrives whole: two of its widgets overlap after the merge iff they did before. */
  lemma AppendKeepsTheBlocksShape(doc: Layout, block: seq<Widget>, out: Layout, i: nat, j: nat)
    requires CanMerge(doc, block) && Merged(doc, block, out)
    requires i < |block| && j < |block|
    ensures Overlap(out.widgets[|doc.widgets| + i], out.widgets[|doc.widgets| + j]) <==> Overlap(block[i], block[j])
  {
    LandsWhereAsked(doc, block, out, i);
    LandsWhereAsked(doc, block, out, j);
  }

  /** Two tidy inputs give a tidy board. */
  lemma AppendKeepsTheBoardTidy(doc: Layout, block: seq<Widget>, out: Layout)
    requires CanMerge(doc, block) && Merged(doc, block, out)
    requires StartsBelow(block) && EdgesFit(doc.widgets)
    requires NoOverlap(doc.widgets) && NoOverlap(block)
    ensures NoOverlap(out.widgets)
  {
    var n := |doc.widgets|;
    forall i, j | 0 <= i < j < |out.widgets| ensures !Overlap(out.widgets[i], out.widgets[j]) {
      if j < n {
        assert out.widgets[..n][i] == doc.widgets[i] && out.widgets[..n][j] == doc.widgets[j];
      } else if i < n {
        AppendNeverCollides(doc, block, out, i, j);
      } else {
        AppendKeepsTheBlocksShape(doc, block, out, i - n, j - n);
      }
    }
  }

  // ----- when the no-collision promise holds -----

  function Longer(ids: set<string>, n: nat): set<string> {
    set s | s in ids && |s| >= n
  }

  /** Some id outside a finite set. */
  lemma {:induction false} FreshId(ids: set<string>, start: string) returns (id: string)
    requires start != ""
    ensures id !in ids && id != ""
    decreases Longer(ids, |start|)
  {
    if start !in ids {
      id := start;
    } else {
      assert start in Longer(ids, |start|) && start !in Longer(ids, |start + "0"|);
      id := FreshId(ids, start + "0");
    }
  }

  /** Whatever the block, some choice of minted ids gives a merged document. */
  lemma {:induction false} MergeExists(doc: Layout, block: seq<Widget>, n: nat) returns (merged: seq<Widget>)
    requires n <= |block|
    ensures Merged(doc, block[..n], doc.(widgets := merged))
    decreases n
  {
    if n == 0 {
      merged := doc.widgets;
    } else {
      merged := MergeExists(doc, block, n - 1);
      var w := block[n - 1].(y := Plus(block[n - 1].y, Bottom(doc.widgets)));
      if w.id in Ids(merged) {
        var id := FreshId(Ids(merged), "w_");
        w := w.(id := id);
      }
      MergedGrows(doc, block, n - 1, merged, w);
      merged := merged + [w];
    }
  }

  predicate Apart(doc: Layout, block: seq<Widget>, out: Layout)
    requires Merged(doc, block, out)
  {
    var n := |doc.widgets|;
    forall i, j :: 0 <= i < n <= j < n + |block| ==> !Overlap(out.widgets[i], out.widgets[j])
  }

  lemma TakenApart(doc: Layout, block: seq<Widget>, out: Layout)
    requires CanMerge(doc, block) && Merged(doc, block, out) && StartsBelow(block) && EdgesFit(doc.widgets)
    ensures Apart(doc, block, out)
  {
    forall i, j | 0 <= i < |doc.widgets| <= j < |doc.widgets| + |block|
      ensures !Overlap(out.widgets[i], out.widgets[j])
    {
      AppendNeverCollides(doc, block, out, i, j);
    }
  }

  /** The board takes no block without a negative row onto a widget it holds. */
  ghost predicate TakesAllBelow(doc: Layout) {
    forall block, out :: StartsBelow(block) && CanMerge(doc, block) && Merged(doc, block, out) ==>
                           Apart(doc, block, out)
  }

  /**
   validateLayout gives a height no maximum, so a stored lower edge can wrap, and then the
   bottom lies above it.  A board keeps the no-collision promise exactly when none does.
   */
  lemma BoardKeepsThePromiseIff(doc: Layout)
    requires ValidLayout(doc) && doc.version == CURRENT_VERSION
    ensures TakesAllBelow(doc) <==> EdgesFit(doc.widgets)
  {
    if EdgesFit(doc.widgets) {
      forall block, out | StartsBelow(block) && CanMerge(doc, block) && Merged(doc, block, out)
        ensures Apart(doc, block, out)
      {
        TakenApart(doc, block, out);
      }
    } else {
      var k :| 0 <= k < |doc.widgets| && doc.widgets[k].y + doc.widgets[k].h > MAX;
      var block := [Onto(doc, k)];
      var merged := MergeExists(doc, block, 1);
      assert block[..1] == block;
      LandsOnTheWrapped(doc, k, doc.(widgets := merged));
    }
  }

  /** One row, asked for so that it lands inside stored widget `k`. */
  function Onto(doc: Layout, k: nat): Widget
    requires k < |doc.widgets|
  {
    var w, bottom := doc.widgets[k], Bottom(doc.widgets);
    w.(y := if w.y > bottom then w.y - bottom else 0, h := 1)
  }

  lemma LandsOnTheWrapped(doc: Layout, k: nat, out: Layout)
    requires ValidLayout(doc) && doc.version == CURRENT_VERSION
    requires k < |doc.widgets| && doc.widgets[k].y + doc.widgets[k].h > MAX
    requires Merged(doc, [Onto(doc, k)], out)
    ensures StartsBelow([Onto(doc, k)]) && CanMerge(doc, [Onto(doc, k)]) && !Apart(doc, [Onto(doc, k)], out)
  {
    var n, block := |doc.widgets|, [Onto(doc, k)];
    var w := doc.widgets[k];
    assert ValidWidget(w);
    assert ValidWidget(block[0].(y := Plus(block[0].y, Bottom(doc.widgets))));
    LandsWhereAsked(doc, block, out, 0);
    assert out.widgets[..n][k] == w;
    assert Overlap(out.widgets[k], out.widgets[n]);
  }

  /** Every board without a wrapped edge that takes this block takes it without a collision. */
  ghost predicate CollidesNowhere(block: seq<Widget>) {
    forall doc: Layout, out :: EdgesFit(doc.widgets) && CanMerge(doc, block) && Merged(doc, block, out) ==>
                                 Apart(doc, block, out)
  }

  /** A block with a negative row needs a board that lifts it to zero, and all the rest of it with it. */
  predicate CanBeLifted(block: seq<Widget>) {
    forall i, j :: 0 <= i < |block| && 0 <= j < |block| && block[i].y < 0 ==>
      block[i].y > MIN && block[j].y - block[i].y <= MAX
  }

  /** The others no board takes. */
  lemma UnliftableIsRefused(doc: Layout, block: seq<Widget>)
    requires CanMerge(doc, block)
    ensures CanBeLifted(block)
  {
    var bottom := Bottom(doc.widgets);
    forall i, j | 0 <= i < |block| && 0 <= j < |block| && block[i].y < 0
      ensures block[i].y > MIN && block[j].y - block[i].y <= MAX
    {
      assert ValidWidget(block[i].(y := Plus(block[i].y, bottom)));
      assert ValidWidget(block[j].(y := Plus(block[j].y, bottom)));
    }
  }

  /** The lowest row a block asks for. */
  function Lowest(block: seq<Widget>): (k: nat)
    requires block != []
    ensures k < |block| && forall i :: 0 <= i < |block| ==> block[k].y <= block[i].y
  {
    var n := |block| - 1;
    if n == 0 then 0
    else
      var k := Lowest(block[..n]);
      assert forall i :: 0 <= i < n ==> block[..n][i] == block[i];
      if block[n].y < block[k].y then n else k
  }

  /**
   Only the merged document is validated, so a negative row is not refused and can land
   inside the board: the promise holds exactly for blocks without one, and, emptily, for
   those too tall for any board.
   */
  lemma CollisionFreeIff(block: seq<Widget>)
    requires forall i :: 0 <= i < |block| ==> ValidWidget(block[i].(y := 0))
    ensures CollidesNowhere(block) <==> StartsBelow(block) || !CanBeLifted(block)
  {
    if StartsBelow(block) {
      forall doc: Layout, out | EdgesFit(doc.widgets) && CanMerge(doc, block) && Merged(doc, block, out)
        ensures Apart(doc, block, out)
      {
        TakenApart(doc, block, out);
      }
    } else if !CanBeLifted(block) {
      forall doc ensures !CanMerge(doc, block) {
        if CanMerge(doc, block) {
          UnliftableIsRefused(doc, block);
        }
      }
    } else {
      var k := Lowest(block);
      var doc := Floor(block[k]);
      var merged := MergeExists(doc, block, |block|);
      assert block[..|block|] == block;
      LandsOnTheFloor(block, k, doc.(widgets := merged));
    }
  }

  /** A board of one widget in the given one's columns, as tall as that one reaches above its origin. */
  function Floor(w: Widget): Layout
    requires MIN < w.y < 0
  {
    Layout(CURRENT_VERSION, [w.(y := 0, h := -w.y)])
  }

  lemma LandsOnTheFloor(block: seq<Widget>, k: nat, out: Layout)
    requires forall i :: 0 <= i < |block| ==> ValidWidget(block[i].(y := 0))
    requires CanBeLifted(block)
    requires k < |block| && block[k].y < 0 && forall i :: 0 <= i < |block| ==> block[k].y <= block[i].y
    requires block[k].y > MIN && Merged(Floor(block[k]), block, out)
    ensures var doc := Floor(block[k]); EdgesFit(doc.widgets) && CanMerge(doc, block) && !Apart(doc, block, out)
  {
    var doc := Floor(block[k]);
    assert doc.widgets[..0] == [];
    assert Bottom(doc.widgets) == -block[k].y;
    assert ValidWidget(block[k].(y := 0));
    assert ValidWidget(doc.widgets[0]);
    forall i | 0 <= i < |block| ensures ValidWidget(block[i].(y := Plus(block[i].y, Bottom(doc.widgets)))) {
      assert ValidWidget(block[i].(y := 0));
    }
    LandsWhereAsked(doc, block, out, k);
    assert out.widgets[..1][0] == doc.widgets[0];
    assert Overlap(out.widgets[0], out.widgets[1 + k]);
  }

  // ----- two stored widgets nobody would call valid -----

  function Plain(id: string, x: int64, y: int64, w: int64, h: int64): Widget {
    Widget(id, Known(1), None, x, y, w, h, "", [Metric(Known(0), None, None, None, [], [])])
  }

  /** A column far beyond the twelve passes, and so does a lower edge past the last row; a block lands on the latter. */
  lemma WrappedEdgesPass()
    ensures ValidLayout(Layout(CURRENT_VERSION, [Plain("a", MAX, 0, 1, 1)]))
    ensures var doc, block := Layout(CURRENT_VERSION, [Plain("a", 0, 1, 12, MAX)]), [Plain("b", 0, 5, 12, 1)];
            var out := Layout(CURRENT_VERSION, doc.widgets + block);
            CanMerge(doc, block) && Merged(doc, block, out) && StartsBelow(block) && !Apart(doc, block, out)
  {
    var doc, block := Layout(CURRENT_VERSION, [Plain("a", 0, 1, 12, MAX)]), [Plain("b", 0, 5, 12, 1)];
    var out := Layout(CURRENT_VERSION, doc.widgets + block);
    assert doc.widgets[..0] == [] && out.widgets[..1] == doc.widgets;
    assert Bottom(doc.widgets) == 0;
    assert Ids(doc.widgets) == {"a"} by {
      assert doc.widgets[0].id == "a";
    }
    assert "b"[0] == 'b';
    assert Placed(doc, block, out, 0);
    assert Overlap(out.widgets[0], out.widgets[1]);
  }
}

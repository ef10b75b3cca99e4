/**
 What one multi-board save does, said without the loop that does it.

 `SaveAll` folds the entries through the store one by one.  Here a save is
 accepted or refused by a condition on the stored documents alone, and an
 accepted one is described board by board.
 */
module BoardSave {
  import opened Outcomes
  import opened Layouts
  import opened Boards

  /** The document of board `k` just before entry `i`: the last earlier entry naming it, else the stored one. */
  function DocBefore(boards: seq<Board>, es: seq<Entry>, i: nat, k: nat): Layout
    requires i <= |es| && k < |boards|
  {
    if i == 0 then boards[k].layout
    else if Resolve(boards, es[i - 1].ref) == Some(k) then es[i - 1].layout
    else DocBefore(boards, es, i - 1, k)
  }

  predicate Acceptable(boards: seq<Board>, limit: Option<nat>, es: seq<Entry>, i: nat)
    requires i < |es|
  {
    var at := Resolve(boards, es[i].ref);
    at.Some?
    && Runs(limit, at.value)
    && ValidLayout(es[i].layout)
    && es[i].base == Rev(DocBefore(boards, es, i, at.value))
  }

  predicate AllAcceptable(boards: seq<Board>, limit: Option<nat>, es: seq<Entry>) {
    forall i :: 0 <= i < |es| ==> Acceptable(boards, limit, es, i)
  }

  predicate Targets(boards: seq<Board>, es: seq<Entry>, k: nat) {
    exists i :: 0 <= i < |es| && Resolve(boards, es[i].ref) == Some(k)
  }

  function SavedBoard(boards: seq<Board>, es: seq<Entry>, k: nat): Board
    requires k < |boards|
  {
    if Targets(boards, es, k) then Written(boards[k], DocBefore(boards, es, |es|, k), Session) else boards[k]
  }

  predicate SavedAs(boards: seq<Board>, es: seq<Entry>, after: seq<Board>) {
    |after| == |boards| && forall k :: 0 <= k < |boards| ==> after[k] == SavedBoard(boards, es, k)
  }

  lemma {:induction false} IndexOfSameIds(a: seq<Board>, b: seq<Board>, id: nat)
    requires |a| == |b| && forall k :: 0 <= k < |a| ==> a[k].id == b[k].id
    ensures IndexOf(a, id) == IndexOf(b, id)
  {
    if a != [] {
      IndexOfSameIds(a[1..], b[1..], id);
    }
  }

  lemma ResolveSameIds(a: seq<Board>, b: seq<Board>, ref: Ref)
    requires |a| == |b| && forall k :: 0 <= k < |a| ==> a[k].id == b[k].id
    ensures Resolve(a, ref) == Resolve(b, ref)
  {
    if ref.Id? {
      IndexOfSameIds(a, b, ref.id);
    }
  }

  /** Writing the first entry and looking on from there is looking from the start. */
  lemma {:induction false} DocBeforeShift(boards: seq<Board>, es: seq<Entry>, after: seq<Board>, i: nat, k: nat)
    requires es != [] && i < |es| && k < |boards|
    requires |after| == |boards| && forall j :: 0 <= j < |boards| ==> after[j].id == boards[j].id
    requires after[k].layout == (if Resolve(boards, es[0].ref) == Some(k) then es[0].layout else boards[k].layout)
    ensures DocBefore(after, es[1..], i, k) == DocBefore(boards, es, i + 1, k)
  {
    if i == 0 {
      assert DocBefore(boards, es, 0, k) == boards[k].layout;
    } else {
      ResolveSameIds(after, boards, es[i].ref);
      assert es[1..][i - 1] == es[i];
      DocBeforeShift(boards, es, after, i - 1, k);
    }
  }

  lemma SaveOneOnBoards(s: Store, limit: Option<nat>, e: Entry)
    requires s.boards != []
    ensures SaveOne(s, limit, e).Ok? <==>
              var at := Resolve(s.boards, e.ref);
              at.Some? && Runs(limit, at.value) && ValidLayout(e.layout) && e.base == Rev(s.boards[at.value].layout)
    ensures SaveOne(s, limit, e).Ok? ==>
              var k := Resolve(s.boards, e.ref).value;
              SaveOne(s, limit, e).value == s.(boards := s.boards[k := Written(s.boards[k], e.layout, Session)])
  {
  }

  /** The condition on the rest, seen from after the first write, is the condition from the start. */
  lemma AcceptableShift(boards: seq<Board>, limit: Option<nat>, es: seq<Entry>, k: nat)
    requires es != [] && Resolve(boards, es[0].ref) == Some(k)
    ensures var after := boards[k := Written(boards[k], es[0].layout, Session)];
            AllAcceptable(after, limit, es[1..]) <==> forall i :: 1 <= i < |es| ==> Acceptable(boards, limit, es, i)
  {
    var after := boards[k := Written(boards[k], es[0].layout, Session)];
    forall i | 1 <= i < |es| ensures Acceptable(after, limit, es[1..], i - 1) <==> Acceptable(boards, limit, es, i) {
      assert es[1..][i - 1] == es[i];
      ResolveSameIds(after, boards, es[i].ref);
      var at := Resolve(boards, es[i].ref);
      if at.Some? {
        DocBeforeShift(boards, es, after, i - 1, at.value);
      }
    }
    if AllAcceptable(after, limit, es[1..]) {
      forall i | 1 <= i < |es| ensures Acceptable(boards, limit, es, i) {
        assert Acceptable(after, limit, es[1..], i - 1);
      }
    }
    if forall i :: 1 <= i < |es| ==> Acceptable(boards, limit, es, i) {
      forall i | 0 <= i < |es[1..]| ensures Acceptable(after, limit, es[1..], i) {
        assert Acceptable(boards, limit, es, i + 1);
      }
    }
  }

  lemma SavedBoardShift(boards: seq<Board>, es: seq<Entry>, k: nat, j: nat)
    requires es != [] && Resolve(boards, es[0].ref) == Some(k) && j < |boards|
    ensures var after := boards[k := Written(boards[k], es[0].layout, Session)];
            SavedBoard(after, es[1..], j) == SavedBoard(boards, es, j)
  {
    var after := boards[k := Written(boards[k], es[0].layout, Session)];
    DocBeforeShift(boards, es, after, |es| - 1, j);
    assert Targets(boards, es, j) <==> j == k || Targets(after, es[1..], j) by {
      if Targets(boards, es, j) && j != k {
        var i :| 0 <= i < |es| && Resolve(boards, es[i].ref) == Some(j);
        ResolveSameIds(after, boards, es[i].ref);
        assert es[1..][i - 1] == es[i];
      }
      if Targets(after, es[1..], j) {
        var i :| 0 <= i < |es[1..]| && Resolve(after, es[1..][i].ref) == Some(j);
        ResolveSameIds(after, boards, es[i + 1].ref);
        assert Resolve(boards, es[i + 1].ref) == Some(j);
      }
    }
    if j == k && !Targets(after, es[1..], j) {
      NeverTargeted(after, es[1..], |es| - 1, j);
    }
  }

  lemma {:induction false} NeverTargeted(boards: seq<Board>, es: seq<Entry>, i: nat, k: nat)
    requires i <= |es| && k < |boards| && !Targets(boards, es, k)
    ensures DocBefore(boards, es, i, k) == boards[k].layout
  {
    if i > 0 {
      NeverTargeted(boards, es, i - 1, k);
    }
  }

  /** A save onto stored boards, entry by entry. */
  lemma {:induction false} SaveOntoBoards(s: Store, limit: Option<nat>, es: seq<Entry>)
    requires s.boards != []
    ensures SaveAll(s, limit, es).Ok? <==> AllAcceptable(s.boards, limit, es)
    ensures SaveAll(s, limit, es).Ok? ==>
              var s' := SaveAll(s, limit, es).value;
              SavedAs(s.boards, es, s'.boards) && s'.leftovers == s.leftovers && s'.nextId == s.nextId
    decreases |es|
  {
    if es == [] {
      forall k | 0 <= k < |s.boards| ensures s.boards[k] == SavedBoard(s.boards, es, k) {
      }
    } else {
      SaveOneOnBoards(s, limit, es[0]);
      var first := SaveOne(s, limit, es[0]);
      assert first.Ok? <==> Acceptable(s.boards, limit, es, 0) by {
        var at := Resolve(s.boards, es[0].ref);
        if at.Some? {
          assert DocBefore(s.boards, es, 0, at.value) == s.boards[at.value].layout;
        }
      }
      if first.Ok? {
        var k := Resolve(s.boards, es[0].ref).value;
        SaveOntoBoards(first.value, limit, es[1..]);
        AcceptableShift(s.boards, limit, es, k);
        if SaveAll(s, limit, es).Ok? {
          var s' := SaveAll(s, limit, es).value;
          forall j | 0 <= j < |s.boards| ensures s'.boards[j] == SavedBoard(s.boards, es, j) {
            SavedBoardShift(s.boards, es, k, j);
          }
        }
      }
    }
  }

  /** The store as a save finds it: a project that stored nothing serves one empty board, the alias. */
  function Served(s: Store): Store {
    if s.boards == [] then LayAlias(s, EMPTY_LAYOUT, Session) else s
  }

  /**
   Whether the save takes entry `i`.  The entry that lays the alias down must say `main`,
   and is the only one that no plan's limit is asked about.
   */
  predicate Taken(s: Store, limit: Option<nat>, es: seq<Entry>, i: nat)
    requires i < |es|
  {
    var boards := Served(s).boards;
    var at := Resolve(boards, es[i].ref);
    at.Some?
    && (if s.boards == [] && i == 0 then es[i].ref == Main else Runs(limit, at.value))
    && ValidLayout(es[i].layout)
    && es[i].base == Rev(DocBefore(boards, es, i, at.value))
  }

  predicate AllTaken(s: Store, limit: Option<nat>, es: seq<Entry>) {
    forall i :: 0 <= i < |es| ==> Taken(s, limit, es, i)
  }

  /** The first entry onto a project that stored nothing, and the rest onto what it laid down. */
  lemma SaveOntoNothing(s: Store, limit: Option<nat>, es: seq<Entry>)
    requires s.boards == [] && es != []
    ensures Taken(s, limit, es, 0) <==> SaveOne(s, limit, es[0]).Ok?
    ensures Taken(s, limit, es, 0) ==>
              var boards := Served(s).boards;
              Resolve(boards, es[0].ref) == Some(0)
              && SaveOne(s, limit, es[0]).value
                 == Served(s).(boards := boards[0 := Written(boards[0], es[0].layout, Session)])
  {
    var boards := Served(s).boards;
    assert DocBefore(boards, es, 0, 0) == EMPTY_LAYOUT;
    assert boards[0 := Written(boards[0], es[0].layout, Session)] == [Written(boards[0], es[0].layout, Session)];
  }

  lemma TakenIsAcceptable(s: Store, limit: Option<nat>, es: seq<Entry>, i: nat)
    requires i < |es| && (s.boards != [] || i > 0)
    ensures Taken(s, limit, es, i) <==> Acceptable(Served(s).boards, limit, es, i)
  {
  }

  /**
   Compare-and-swap over many boards, whatever was stored.  The save commits iff every
   entry names a running board, carries a valid document and a base equal to what that
   board held just before it; two entries on one board, by alias and by id, chain.  What it
   leaves is, per board, the last document an entry gave it.
   */
  lemma SaveIsCompareAndSwap(s: Store, limit: Option<nat>, es: seq<Entry>)
    requires es != []
    ensures SaveAll(s, limit, es).Ok? <==> AllTaken(s, limit, es)
    ensures SaveAll(s, limit, es).Ok? ==>
              var s' := SaveAll(s, limit, es).value;
              SavedAs(Served(s).boards, es, s'.boards) && s' == Served(s).(boards := s'.boards)
  {
    hide Acceptable, Taken, SavedBoard, Written;
    forall i | 0 <= i < |es| && (s.boards != [] || i > 0)
      ensures Taken(s, limit, es, i) <==> Acceptable(Served(s).boards, limit, es, i)
    {
      TakenIsAcceptable(s, limit, es, i);
    }
    if s.boards != [] {
      assert Served(s).boards == s.boards;
      assert AllTaken(s, limit, es) <==> AllAcceptable(s.boards, limit, es) by {
        assert forall i :: 0 <= i < |es| ==> (Taken(s, limit, es, i) <==> Acceptable(s.boards, limit, es, i));
      }
      SaveOntoBoards(s, limit, es);
    } else {
      SaveOntoNothing(s, limit, es);
      if Taken(s, limit, es, 0) {
        var boards, laid := Served(s).boards, SaveOne(s, limit, es[0]).value;
        SaveOntoBoards(laid, limit, es[1..]);
        AcceptableShift(boards, limit, es, 0);
        forall j | 0 <= j < |boards| ensures SavedBoard(laid.boards, es[1..], j) == SavedBoard(boards, es, j) {
          SavedBoardShift(boards, es, 0, j);
        }
      }
    }
  }

  /** All or nothing: a save of 1 to 16 entries that are all taken commits them all, any other changes nothing. */
  lemma SaveIsAllOrNothing(s: Store, limit: Option<nat>, es: seq<Entry>)
    ensures var (s', a) := DoSave(s, limit, es);
            if 1 <= |es| <= MAX_SAVE_BOARDS && AllTaken(s, limit, es)
            then a == Done && SavedAs(Served(s).boards, es, s'.boards) && s' == Served(s).(boards := s'.boards)
            else a != Done && s' == s
  {
    if es != [] {
      SaveIsCompareAndSwap(s, limit, es);
    }
    RefusalIsNotDone(s, limit, es);
  }

  lemma {:induction false} RefusalIsNotDone(s: Store, limit: Option<nat>, es: seq<Entry>)
    ensures SaveAll(s, limit, es).Err? ==> SaveAll(s, limit, es).error in {NotFound, Frozen, BadLayout, BoardChanged}
    decreases |es|
  {
    if es != [] && SaveOne(s, limit, es[0]).Ok? {
      RefusalIsNotDone(SaveOne(s, limit, es[0]).value, limit, es[1..]);
    }
  }

  /** A committed save erases only widgets its author's draft began from. */
  lemma SaveErasesOnlyWhatItsBaseHeld(s: Store, limit: Option<nat>, es: seq<Entry>, k: nat, w: Widget)
    requires DoSave(s, limit, es).1 == Done
    requires k < |s.boards| && w in s.boards[k].layout.widgets
    requires k < |DoSave(s, limit, es).0.boards| ==> w !in DoSave(s, limit, es).0.boards[k].layout.widgets
    ensures exists i :: 0 <= i < |es| && Resolve(s.boards, es[i].ref) == Some(k)
                        && es[i].base == Rev(s.boards[k].layout)
  {
    SaveIsAllOrNothing(s, limit, es);
    assert DoSave(s, limit, es).0.boards[k] == SavedBoard(s.boards, es, k);
    var i := FirstTarget(s.boards, es, k);
    assert Taken(s, limit, es, i);
  }

  lemma FirstTarget(boards: seq<Board>, es: seq<Entry>, k: nat) returns (i: nat)
    requires k < |boards| && Targets(boards, es, k)
    ensures i < |es| && Resolve(boards, es[i].ref) == Some(k)
    ensures DocBefore(boards, es, i, k) == boards[k].layout
  {
    i := 0;
    while Resolve(boards, es[i].ref) != Some(k)
      invariant 0 <= i < |es|
      invariant forall j :: 0 <= j < i ==> Resolve(boards, es[j].ref) != Some(k)
      invariant DocBefore(boards, es, i, k) == boards[k].layout
      decreases |es| - i
    {
      i := i + 1;
    }
  }
}

/**
 What every run of board requests keeps, whatever the door, the plan and the order.
 */
module BoardRuns {
  import opened Outcomes
  import opened Layouts
  import opened Boards
  import opened BoardSave

  datatype Request =
    | Create(door: Writer, raw: string, doc: Option<Layout>)
    | Put(door: Writer, ref: Ref, layout: Layout)
    | Append(ref: Ref, block: seq<Widget>)
    | Save(entries: seq<Entry>)
    | Rename(ref: Ref, raw: string)
    | Delete(ref: Ref)
    | Clear(ref: Ref)

  /** One request under the plan's board limit of that moment. */
  datatype Act = Act(req: Request, limit: Option<nat>, answer: Answer)

  ghost predicate Step(s: Store, act: Act, s': Store) {
    match act.req
    case Create(door, raw, doc) => (s', act.answer) == DoCreate(s, act.limit, door, raw, doc)
    case Put(door, ref, layout) => (s', act.answer) == DoPut(s, act.limit, door, ref, layout)
    case Append(ref, block) => DidAppend(s, act.limit, ref, block, s', act.answer)
    case Save(entries) => (s', act.answer) == DoSave(s, act.limit, entries)
    case Rename(ref, raw) => (s', act.answer) == DoRename(s, act.limit, ref, raw)
    case Delete(ref) => (s', act.answer) == DoDelete(s, ref)
    case Clear(ref) => (s', act.answer) == DoClear(s, act.limit, ref)
  }

  ghost predicate IsRun(states: seq<Store>, log: seq<Act>) {
    |states| == |log| + 1 && forall i :: 0 <= i < |log| ==> Step(states[i], log[i], states[i + 1])
  }

  // ----- the invariant -----

  predicate ValidBoard(b: Board) {
    ValidLayout(b.layout)
    && (b.proposed.Some? ==> ValidLayout(b.proposed.value) && b.writtenBy == Session)
  }

  predicate WellFormed(s: Store) {
    (forall i :: 0 <= i < |s.boards| ==>
       ValidBoard(s.boards[i]) && s.boards[i].id < s.nextId && Lower(s.boards[i].name) !in s.leftovers)
    && (forall i, j :: 0 <= i < j < |s.boards| ==>
          s.boards[i].id != s.boards[j].id && Lower(s.boards[i].name) != Lower(s.boards[j].name))
    && (forall key :: key in s.leftovers ==>
          s.leftovers[key].id < s.nextId && Lower(s.leftovers[key].name) == key)
  }

  /** A change of board `i` that keeps its id. */
  lemma ReplaceKeepsWellFormed(s: Store, i: nat, b: Board)
    requires WellFormed(s) && i < |s.boards|
    requires ValidBoard(b) && b.id == s.boards[i].id
    requires b.name == s.boards[i].name || !NameHeldByOther(s, i, b.name)
    ensures WellFormed(s.(boards := s.boards[i := b]))
  {
  }

  lemma AddKeepsWellFormed(s: Store, b: Board)
    requires WellFormed(s) && ValidBoard(b) && b.id == s.nextId && !NameHeld(s, b.name)
    ensures WellFormed(s.(boards := s.boards + [b], nextId := s.nextId + 1))
  {
  }

  lemma LayAliasKeepsWellFormed(s: Store, layout: Layout, writer: Writer)
    requires WellFormed(s) && s.boards == [] && ValidLayout(layout)
    ensures WellFormed(LayAlias(s, layout, writer))
  {
  }

  lemma {:induction false} SaveKeepsWellFormed(s: Store, limit: Option<nat>, es: seq<Entry>)
    requires WellFormed(s) && SaveAll(s, limit, es).Ok?
    ensures WellFormed(SaveAll(s, limit, es).value)
    decreases |es|
  {
    if es != [] {
      var at := Resolve(s.boards, es[0].ref);
      if at.None? {
        LayAliasKeepsWellFormed(s, es[0].layout, Session);
      } else {
        ReplaceKeepsWellFormed(s, at.value, Written(s.boards[at.value], es[0].layout, Session));
      }
      SaveKeepsWellFormed(SaveOne(s, limit, es[0]).value, limit, es[1..]);
    }
  }

  lemma AppendKeepsWellFormed(s: Store, limit: Option<nat>, ref: Ref, block: seq<Widget>, s': Store, a: Answer)
    requires WellFormed(s) && DidAppend(s, limit, ref, block, s', a)
    ensures WellFormed(s')
  {
    if a == Done {
      var at := Resolve(s.boards, ref);
      if at.None? {
        var out :| Merged(EMPTY_LAYOUT, block, out) && s' == LayAlias(s, out, Key);
        MergedIsValid(EMPTY_LAYOUT, block, out);
        LayAliasKeepsWellFormed(s, out, Key);
      } else {
        var b := s.boards[at.value];
        var out :| Merged(b.layout, block, out) && s' == s.(boards := s.boards[at.value := b.(layout := out)]);
        MergedIsValid(b.layout, block, out);
        ReplaceKeepsWellFormed(s, at.value, b.(layout := out));
      }
    }
  }

  lemma CreateKeepsWellFormed(s: Store, limit: Option<nat>, door: Writer, raw: string, doc: Option<Layout>)
    requires WellFormed(s)
    ensures WellFormed(DoCreate(s, limit, door, raw, doc).0)
  {
    var (s', a) := DoCreate(s, limit, door, raw, doc);
    if a == Created {
      if s.boards == [] {
        LayAliasKeepsWellFormed(s, EMPTY_LAYOUT, Key);
      }
      var laid := if s.boards == [] then LayAlias(s, EMPTY_LAYOUT, Key) else s;
      AddKeepsWellFormed(laid, s'.boards[|laid.boards|]);
    }
  }

  lemma PutKeepsWellFormed(s: Store, limit: Option<nat>, door: Writer, ref: Ref, doc: Layout)
    requires WellFormed(s)
    ensures WellFormed(DoPut(s, limit, door, ref, doc).0)
  {
    var at := Resolve(s.boards, ref);
    if at.Some? {
      var b := s.boards[at.value];
      if ValidLayout(doc) {
        ReplaceKeepsWellFormed(s, at.value, Written(b, doc, door));
        if b.writtenBy == Session {
          ReplaceKeepsWellFormed(s, at.value, b.(proposed := Some(doc)));
        }
      }
    } else if ref == Main && ValidLayout(doc) {
      LayAliasKeepsWellFormed(s, doc, door);
    }
  }

  lemma RenameKeepsWellFormed(s: Store, limit: Option<nat>, ref: Ref, raw: string)
    requires WellFormed(s)
    ensures WellFormed(DoRename(s, limit, ref, raw).0)
  {
    var name := BoardName(raw);
    var at := Resolve(s.boards, ref);
    if name.Some? {
      if at.Some? {
        if !NameHeldByOther(s, at.value, name.value) {
          ReplaceKeepsWellFormed(s, at.value, s.boards[at.value].(name := name.value));
        }
      } else if ref == Main && !NameHeld(s, name.value) {
        AddKeepsWellFormed(s, Board(s.nextId, name.value, Key, EMPTY_LAYOUT, None));
      }
    }
  }

  lemma DeleteKeepsWellFormed(s: Store, ref: Ref)
    requires WellFormed(s)
    ensures WellFormed(DoDelete(s, ref).0)
  {
  }

  lemma StepKeepsWellFormed(s: Store, act: Act, s': Store)
    requires WellFormed(s) && Step(s, act, s')
    ensures WellFormed(s')
    ensures s.boards != [] ==> s'.boards != []
  {
    match act.req
    case Create(door, raw, doc) => CreateKeepsWellFormed(s, act.limit, door, raw, doc);
    case Put(door, ref, layout) => PutKeepsWellFormed(s, act.limit, door, ref, layout);
    case Append(ref, block) => AppendKeepsWellFormed(s, act.limit, ref, block, s', act.answer);
    case Save(entries) =>
      if SaveAll(s, act.limit, entries).Ok? {
        SaveKeepsWellFormed(s, act.limit, entries);
      }
      if s.boards != [] {
        SaveOntoBoards(s, act.limit, entries);
      }
    case Rename(ref, raw) => RenameKeepsWellFormed(s, act.limit, ref, raw);
    case Delete(ref) => DeleteKeepsWellFormed(s, ref);
    case Clear(ref) =>
      var at := Resolve(s.boards, ref);
      if at.Some? {
        ReplaceKeepsWellFormed(s, at.value, s.boards[at.value].(proposed := None));
      }
  }

  /** Every reachable store is well formed, and a project that stored a board never ends with none. */
  lemma {:induction false} RunsStayWellFormed(states: seq<Store>, log: seq<Act>, i: nat, j: nat)
    requires IsRun(states, log) && i <= j < |states| && WellFormed(states[i])
    ensures WellFormed(states[j])
    ensures states[i].boards != [] ==> states[j].boards != []
    decreases j
  {
    if i < j {
      hide WellFormed, Step, IsRun;
      RunIs(states, log);
      RunsStayWellFormed(states, log, i, j - 1);
      StepKeepsWellFormed(states[j - 1], log[j - 1], states[j]);
    }
  }

  // ----- looking a board up across steps -----

  predicate Holds(s: Store, id: nat) {
    IndexOf(s.boards, id) < |s.boards|
  }

  function Get(s: Store, id: nat): Board
    requires Holds(s, id)
  {
    s.boards[IndexOf(s.boards, id)]
  }

  lemma {:induction false} IndexOfIs(boards: seq<Board>, id: nat, i: nat)
    requires i < |boards| && boards[i].id == id
    requires forall k :: 0 <= k < i ==> boards[k].id != id
    ensures IndexOf(boards, id) == i
  {
    if i > 0 {
      IndexOfIs(boards[1..], id, i - 1);
    }
  }

  /** The request resolves `ref` to the board with this id. */
  predicate Hits(s: Store, ref: Ref, id: nat) {
    var at := Resolve(s.boards, ref);
    at.Some? && s.boards[at.value].id == id
  }

  /** The requests that may take something off a curated board: a session's writes and a delete. */
  predicate IsHumanRewrite(s: Store, req: Request, id: nat) {
    match req
    case Put(door, ref, _) => door == Session && Hits(s, ref, id)
    case Save(entries) => exists i :: 0 <= i < |entries| && Hits(s, entries[i].ref, id)
    case Delete(ref) => Hits(s, ref, id)
    case _ => false
  }

  /** `later` is `earlier` with widgets only added at its end. */
  predicate Extends(earlier: Layout, later: Layout) {
    later.version == earlier.version && earlier.widgets <= later.widgets
  }

  predicate Curated(s: Store, id: nat) {
    Holds(s, id) && Get(s, id).writtenBy == Session
  }

  // ----- what one step does to one board -----

  /** A step either keeps the boards in their places, adds at the end, or takes exactly one out. */
  datatype Shape = InPlace | Grown | Without(index: nat)

  ghost predicate HasShape(s: Store, s': Store, shape: Shape) {
    match shape
    case InPlace => |s'.boards| == |s.boards| && forall k :: 0 <= k < |s.boards| ==> s'.boards[k].id == s.boards[k].id
    case Grown => s.boards <= s'.boards
    case Without(i) => i < |s.boards| && s'.boards == s.boards[..i] + s.boards[i + 1..]
  }

  lemma StepShape(s: Store, act: Act, s': Store) returns (shape: Shape)
    requires WellFormed(s) && Step(s, act, s')
    ensures HasShape(s, s', shape)
    ensures act.req.Create? ==> shape == Grown
    ensures shape.Without? <==> act.req.Delete? && act.answer == Done
    ensures shape.Without? ==> Resolve(s.boards, act.req.ref) == Some(shape.index) && |s.boards| > 1
  {
    hide WellFormed, HasShape, DoCreate, DoPut, DoSave, DoRename, DoDelete, DoClear, DidAppend;
    shape := if s.boards == [] then Grown else InPlace;
    match act.req {
      case Create(door, raw, doc) =>
        shape := Grown;
        CreateGrows(s, act.limit, door, raw, doc);
      case Put(door, ref, layout) => PutShape(s, act.limit, door, ref, layout);
      case Append(ref, block) => AppendShape(s, act.limit, ref, block, s', act.answer);
      case Save(entries) => SaveShape(s, act.limit, entries);
      case Rename(ref, raw) => RenameShape(s, act.limit, ref, raw);
      case Delete(ref) =>
        DeleteShape(s, ref);
        if act.answer == Done {
          shape := Without(Resolve(s.boards, ref).value);
        }
      case Clear(ref) => ClearShape(s, act.limit, ref);
    }
  }

  lemma CreateGrows(s: Store, limit: Option<nat>, door: Writer, raw: string, doc: Option<Layout>)
    ensures HasShape(s, DoCreate(s, limit, door, raw, doc).0, Grown)
  {
  }

  lemma PutShape(s: Store, limit: Option<nat>, door: Writer, ref: Ref, doc: Layout)
    ensures HasShape(s, DoPut(s, limit, door, ref, doc).0, if s.boards == [] then Grown else InPlace)
  {
  }

  lemma AppendShape(s: Store, limit: Option<nat>, ref: Ref, block: seq<Widget>, s': Store, a: Answer)
    requires DidAppend(s, limit, ref, block, s', a)
    ensures HasShape(s, s', if s.boards == [] then Grown else InPlace)
  {
  }

  lemma SaveShape(s: Store, limit: Option<nat>, entries: seq<Entry>)
    ensures HasShape(s, DoSave(s, limit, entries).0, if s.boards == [] then Grown else InPlace)
  {
    if s.boards != [] {
      SaveOntoBoards(s, limit, entries);
    }
  }

  lemma RenameShape(s: Store, limit: Option<nat>, ref: Ref, raw: string)
    ensures HasShape(s, DoRename(s, limit, ref, raw).0, if s.boards == [] then Grown else InPlace)
  {
  }

  lemma DeleteShape(s: Store, ref: Ref)
    ensures var (s', a) := DoDelete(s, ref); var at := Resolve(s.boards, ref);
            if a == Done then at.Some? && |s.boards| > 1 && HasShape(s, s', Without(at.value))
            else HasShape(s, s', if s.boards == [] then Grown else InPlace)
  {
  }

  lemma ClearShape(s: Store, limit: Option<nat>, ref: Ref)
    ensures HasShape(s, DoClear(s, limit, ref).0, if s.boards == [] then Grown else InPlace)
  {
  }

  lemma GrownKeepsGet(s: Store, s': Store, id: nat)
    requires s.boards <= s'.boards && Holds(s, id)
    ensures Holds(s', id) && Get(s', id) == Get(s, id) && IndexOf(s'.boards, id) == IndexOf(s.boards, id)
  {
    IndexOfIs(s'.boards, id, IndexOf(s.boards, id));
  }

  /** A delete moves the later boards up one place and touches no other board. */
  lemma WithoutKeepsGet(s: Store, s': Store, i: nat, id: nat)
    requires WellFormed(s) && Holds(s, id) && i < |s.boards| && s.boards[i].id != id
    requires s'.boards == s.boards[..i] + s.boards[i + 1..]
    ensures Holds(s', id) && Get(s', id) == Get(s, id)
    ensures var k := IndexOf(s.boards, id); IndexOf(s'.boards, id) == if k < i then k else k - 1
  {
    var k := IndexOf(s.boards, id);
    IndexOfIs(s'.boards, id, if k < i then k else k - 1);
  }

  lemma DeletedIsGone(s: Store, s': Store, i: nat)
    requires WellFormed(s) && i < |s.boards| && s'.boards == s.boards[..i] + s.boards[i + 1..]
    ensures !Holds(s', s.boards[i].id)
  {
    var id := s.boards[i].id;
    assert forall k :: 0 <= k < |s'.boards| ==> s'.boards[k] == s.boards[if k < i then k else k + 1];
  }

  lemma InPlaceGet(s: Store, s': Store, id: nat)
    requires HasShape(s, s', InPlace) && Holds(s, id)
    ensures Holds(s', id) && IndexOf(s'.boards, id) == IndexOf(s.boards, id)
  {
    IndexOfSameIds(s.boards, s'.boards, id);
  }

  /** Distinct ids: a request hits board `id` iff it resolves to that board's place. */
  lemma HitsIs(s: Store, ref: Ref, id: nat)
    requires WellFormed(s) && Holds(s, id)
    ensures Hits(s, ref, id) <==> Resolve(s.boards, ref) == Some(IndexOf(s.boards, id))
  {
  }

  // ----- curation -----

  lemma StepKeepsCuration(s: Store, act: Act, s': Store, id: nat)
    requires WellFormed(s) && Step(s, act, s') && Curated(s, id)
    requires !IsHumanRewrite(s, act.req, id)
    ensures Curated(s', id)
    ensures Extends(Get(s, id).layout, Get(s', id).layout)
  {
    var shape := StepShape(s, act, s');
    match shape
    case Grown => GrownKeepsGet(s, s', id);
    case Without(i) => WithoutKeepsGet(s, s', i, id);
    case InPlace =>
      InPlaceGet(s, s', id);
      InPlaceKeepsCuration(s, act, s', id);
  }

  lemma AppendOnlyExtends(s: Store, limit: Option<nat>, ref: Ref, block: seq<Widget>, s': Store, a: Answer, k: nat)
    requires DidAppend(s, limit, ref, block, s', a) && k < |s.boards| == |s'.boards|
    ensures s'.boards[k].writtenBy == s.boards[k].writtenBy && Extends(s.boards[k].layout, s'.boards[k].layout)
  {
    var at := Resolve(s.boards, ref);
    if at == Some(k) && a == Done {
      var b := s.boards[k];
      var out :| Merged(b.layout, block, out) && s' == s.(boards := s.boards[k := b.(layout := out)]);
      assert s.boards[k].layout.widgets <= out.widgets;
    }
  }

  lemma InPlaceKeepsCuration(s: Store, act: Act, s': Store, id: nat)
    requires WellFormed(s) && Step(s, act, s') && HasShape(s, s', InPlace) && Curated(s, id)
    requires !IsHumanRewrite(s, act.req, id)
    ensures var b := s'.boards[IndexOf(s.boards, id)];
            b.writtenBy == Session && Extends(Get(s, id).layout, b.layout)
  {
    hide WellFormed, BoardName, NameHeld, NameHeldByOther, LayAlias, SaveAll, DoSave, DidAppend, ValidLayout, IndexOf;
    match act.req {
      case Save(entries) => SaveMissesBoard(s, act.limit, entries, id);
      case Append(ref, block) => AppendOnlyExtends(s, act.limit, ref, block, s', act.answer, IndexOf(s.boards, id));
      case Put(door, ref, layout) => PutByAKeyOnlyOffers(s, act.limit, door, ref, layout, id);
      case _ =>
    }
  }

  lemma PutByAKeyOnlyOffers(s: Store, limit: Option<nat>, door: Writer, ref: Ref, doc: Layout, id: nat)
    requires WellFormed(s) && Curated(s, id) && !(door == Session && Hits(s, ref, id))
    ensures var s' := DoPut(s, limit, door, ref, doc).0; var k := IndexOf(s.boards, id);
            s'.boards == s.boards
            || (k < |s'.boards| && s'.boards[k].writtenBy == Session && s'.boards[k].layout == s.boards[k].layout)
  {
    HitsIs(s, ref, id);
  }

  /** A save none of whose entries names the board, or that is refused, leaves it as it was. */
  lemma SaveMissesBoard(s: Store, limit: Option<nat>, entries: seq<Entry>, id: nat)
    requires WellFormed(s) && Holds(s, id)
    requires SaveAll(s, limit, entries).Ok? ==> forall i :: 0 <= i < |entries| ==> !Hits(s, entries[i].ref, id)
    ensures var s' := DoSave(s, limit, entries).0; var k := IndexOf(s.boards, id);
            k < |s'.boards| && s'.boards[k] == s.boards[k]
  {
    var k := IndexOf(s.boards, id);
    SaveOntoBoards(s, limit, entries);
    if Targets(s.boards, entries, k) {
      var i :| 0 <= i < |entries| && Resolve(s.boards, entries[i].ref) == Some(k);
      assert Hits(s, entries[i].ref, id);
    }
  }

  /**
   Between two session writes or a delete, a curated board keeps every widget, unchanged and
   in order, and stays curated: a key's replace only fills the proposal, a key's append only
   extends the list.
   */
  lemma {:induction false} CurationSurvives(states: seq<Store>, log: seq<Act>, start: nat, end: nat, id: nat)
    requires IsRun(states, log) && start <= end < |states| && WellFormed(states[start])
    requires Curated(states[start], id)
    requires forall k :: start <= k < end ==> !IsHumanRewrite(states[k], log[k].req, id)
    ensures Curated(states[end], id)
    ensures Extends(Get(states[start], id).layout, Get(states[end], id).layout)
    decreases end
  {
    hide WellFormed, Step, IsHumanRewrite, Curated, Extends, Get, IsRun;
    RunIs(states, log);
    if start == end {
      ExtendsOn(states[start], states[start], states[start], id);
    } else {
      CurationSurvives(states, log, start, end - 1, id);
      RunsStayWellFormed(states, log, start, end - 1);
      StepKeepsCuration(states[end - 1], log[end - 1], states[end], id);
      ExtendsOn(states[start], states[end - 1], states[end], id);
    }
  }

  lemma RunIs(states: seq<Store>, log: seq<Act>)
    requires IsRun(states, log)
    ensures |states| == |log| + 1 && forall i :: 0 <= i < |log| ==> Step(states[i], log[i], states[i + 1])
  {
  }

  lemma ExtendsOn(a: Store, b: Store, c: Store, id: nat)
    requires Curated(a, id) && Curated(b, id) && Curated(c, id)
    ensures Extends(Get(a, id).layout, Get(a, id).layout)
    ensures Extends(Get(a, id).layout, Get(b, id).layout) && Extends(Get(b, id).layout, Get(c, id).layout)
            ==> Extends(Get(a, id).layout, Get(c, id).layout)
  {
  }

  /** Provenance never goes from session back to key, whatever the request. */
  lemma ProvenanceNeverGoesBack(s: Store, act: Act, s': Store, id: nat)
    requires WellFormed(s) && Step(s, act, s') && Curated(s, id)
    ensures Holds(s', id) ==> Curated(s', id)
  {
    if !IsHumanRewrite(s, act.req, id) {
      StepKeepsCuration(s, act, s', id);
    } else {
      var shape := StepShape(s, act, s');
      match shape
      case Grown => GrownKeepsGet(s, s', id);
      case Without(i) => DeletedIsGone(s, s', i);
      case InPlace =>
        InPlaceGet(s, s', id);
        if act.req.Save? {
          SaveOntoBoards(s, act.limit, act.req.entries);
          assert s'.boards[IndexOf(s.boards, id)] == SavedBoard(s.boards, act.req.entries, IndexOf(s.boards, id))
                 || s'.boards[IndexOf(s.boards, id)] == s.boards[IndexOf(s.boards, id)];
        }
    }
  }

  // ----- the freeze -----

  predicate IsFrozen(s: Store, limit: nat, id: nat) {
    Holds(s, id) && !Runs(Some(limit), IndexOf(s.boards, id))
  }

  /** A create leaves every stored board where it was: it freezes nothing and reorders nothing. */
  lemma CreateFreezesNothing(s: Store, act: Act, s': Store, id: nat)
    requires WellFormed(s) && Step(s, act, s') && act.req.Create? && Holds(s, id)
    ensures Holds(s', id) && Get(s', id) == Get(s, id)
    ensures forall limit :: IsFrozen(s', limit, id) <==> IsFrozen(s, limit, id)
  {
    var shape := StepShape(s, act, s');
    GrownKeepsGet(s, s', id);
  }

  /**
   Deleting a board thaws exactly the oldest frozen one, and only if the deleted one was
   running; every other board keeps its document and its side of the freeze.
   */
  lemma DeleteThawsTheOldestFrozen(s: Store, act: Act, s': Store, limit: nat, id: nat)
    requires WellFormed(s) && Step(s, act, s') && act.req.Delete? && act.answer == Done
    requires Holds(s, id) && !Hits(s, act.req.ref, id)
    ensures Holds(s', id) && Get(s', id) == Get(s, id)
    ensures IsFrozen(s, limit, id) && !IsFrozen(s', limit, id) <==>
              IndexOf(s.boards, id) == limit && Runs(Some(limit), Resolve(s.boards, act.req.ref).value)
    ensures !IsFrozen(s, limit, id) ==> !IsFrozen(s', limit, id)
  {
    var shape := StepShape(s, act, s');
    WithoutKeepsGet(s, s', shape.index, id);
  }

  /** While a board is frozen nothing about it changes, but that its owner may delete it. */
  lemma FrozenBoardsAreKept(s: Store, act: Act, s': Store, id: nat)
    requires WellFormed(s) && Step(s, act, s')
    requires act.limit.Some? && IsFrozen(s, act.limit.value, id)
    requires !(act.req.Delete? && Hits(s, act.req.ref, id))
    ensures Holds(s', id) && Get(s', id) == Get(s, id)
  {
    var shape := StepShape(s, act, s');
    match shape
    case Grown => GrownKeepsGet(s, s', id);
    case Without(i) => WithoutKeepsGet(s, s', i, id);
    case InPlace =>
      InPlaceGet(s, s', id);
      FrozenInPlace(s, act, s', id);
  }

  lemma FrozenInPlace(s: Store, act: Act, s': Store, id: nat)
    requires WellFormed(s) && Step(s, act, s') && HasShape(s, s', InPlace)
    requires act.limit.Some? && IsFrozen(s, act.limit.value, id)
    requires !(act.req.Delete? && Hits(s, act.req.ref, id))
    ensures var k := IndexOf(s.boards, id); k < |s'.boards| && s'.boards[k] == s.boards[k]
  {
    hide WellFormed, BoardName, NameHeld, NameHeldByOther, LayAlias, SaveAll, DoSave, DidAppend, ValidLayout, IndexOf;
    match act.req {
      case Save(entries) => SaveMissesFrozen(s, act.limit.value, entries, id);
      case Append(ref, block) =>
        AppendMissesFrozen(s, act.limit.value, ref, block, s', act.answer, IndexOf(s.boards, id));
      case _ =>
    }
  }

  lemma AppendMissesFrozen(s: Store, limit: nat, ref: Ref, block: seq<Widget>, s': Store, a: Answer, k: nat)
    requires DidAppend(s, Some(limit), ref, block, s', a) && limit <= k < |s.boards| == |s'.boards|
    ensures s'.boards[k] == s.boards[k]
  {
  }

  lemma SaveMissesFrozen(s: Store, limit: nat, entries: seq<Entry>, id: nat)
    requires WellFormed(s) && IsFrozen(s, limit, id)
    ensures var s' := DoSave(s, Some(limit), entries).0; var k := IndexOf(s.boards, id);
            k < |s'.boards| && s'.boards[k] == s.boards[k]
  {
    hide WellFormed, DoSave, DocBefore, ValidLayout;
    SaveOntoBoards(s, Some(limit), entries);
    if SaveAll(s, Some(limit), entries).Ok? {
      forall i | 0 <= i < |entries| ensures !Hits(s, entries[i].ref, id) {
        assert Acceptable(s.boards, Some(limit), entries, i);
        HitsIs(s, entries[i].ref, id);
      }
    }
    SaveMissesBoard(s, Some(limit), entries, id);
  }

  /** The board `main` names changes only by being deleted, and then the next oldest takes over. */
  lemma MainIsTheOldest(s: Store, act: Act, s': Store)
    requires WellFormed(s) && Step(s, act, s') && s.boards != []
    ensures s'.boards != []
    ensures s'.boards[0].id == if act.req.Delete? && act.answer == Done && Resolve(s.boards, act.req.ref) == Some(0)
                               then s.boards[1].id else s.boards[0].id
  {
    var shape := StepShape(s, act, s');
  }

  /** A project's first named board never becomes `main`: the alias is laid down before it. */
  lemma FirstCreateLaysMainFirst(s: Store, act: Act, s': Store)
    requires WellFormed(s) && Step(s, act, s') && s.boards == [] && act.req.Create? && act.answer == Created
    ensures |s'.boards| == 2
    ensures Lower(s'.boards[0].name) == Lower(FIRST_BOARD_NAME) && s'.boards[0].writtenBy == Key
    ensures Some(s'.boards[1].name) == BoardName(act.req.raw)
  {
  }

  // ----- the plan screen -----

  function Sum(ns: seq<int>): int {
    if ns == [] then 0 else ns[0] + Sum(ns[1..])
  }

  /** BoardsHeld: the frozen boards of all the workspace's projects, from their counts. */
  function FrozenByCount(held: seq<Store>, limit: nat): int {
    Sum(seq(|held|, i requires 0 <= i < |held| =>
      if |held[i].boards| > limit then |held[i].boards| - limit else 0))
  }

  /** The ids the list marks frozen, by rank. */
  function FrozenIds(s: Store, limit: nat): set<nat> {
    set i | 0 <= i < |s.boards| && !Runs(Some(limit), i) :: s.boards[i].id
  }

  lemma {:induction false} FrozenIdsCount(boards: seq<Board>, limit: nat, n: nat)
    requires forall i, j :: 0 <= i < j < |boards| ==> boards[i].id != boards[j].id
    requires limit <= n <= |boards|
    ensures |set i | limit <= i < n :: boards[i].id| == n - limit
  {
    var ids := set i | limit <= i < n :: boards[i].id;
    if limit < n {
      FrozenIdsCount(boards, limit, n - 1);
      var fewer := set i | limit <= i < n - 1 :: boards[i].id;
      var last := boards[n - 1].id;
      assert last !in fewer;
      assert ids == fewer + {last};
    } else {
      assert ids == {};
    }
  }

  /** The number on the plan screen is the number of boards the rank rule freezes. */
  lemma PlanScreenAgreesWithTheFreeze(held: seq<Store>, limit: nat)
    requires forall i :: 0 <= i < |held| ==> WellFormed(held[i])
    ensures FrozenByCount(held, limit) ==
            Sum(seq(|held|, i requires 0 <= i < |held| => |FrozenIds(held[i], limit)|))
  {
    var counts := seq(|held|, i requires 0 <= i < |held| =>
      if |held[i].boards| > limit then |held[i].boards| - limit else 0);
    var ranks := seq(|held|, i requires 0 <= i < |held| => |FrozenIds(held[i], limit)|);
    forall i | 0 <= i < |held| ensures counts[i] == ranks[i] {
      var s := held[i];
      if |s.boards| > limit {
        FrozenIdsCount(s.boards, limit, |s.boards|);
        assert FrozenIds(s, limit) == set k | limit <= k < |s.boards| :: s.boards[k].id;
      } else {
        assert FrozenIds(s, limit) == {};
      }
    }
    assert counts == ranks;
  }
}

/**
 The boards of one project, written through two doors: a human session and an
 agent key (back/internal/api/dashboard.go:1257-2334, back/gen/pg/dashboard.sql.go).

 `boards` is the rows of the caller's tenant in creation order, so a board's rank
 is its index plus one.  `leftovers` is the rows an earlier tenant of the project
 left behind, by lower-case name: they take part in nothing but the unique index,
 and the alias's first write may take one over.  Each request is one atomic step.
 */
module Boards {
  import opened Outcomes
  import opened Layouts

  datatype Writer = Key | Session

  datatype Board = Board(id: nat, name: string, writtenBy: Writer, layout: Layout, proposed: Option<Layout>)

  datatype Leftover = Leftover(id: nat, name: string)

  datatype Store = Store(boards: seq<Board>, leftovers: map<string, Leftover>, nextId: nat)

  /** A board's path segment: the alias of the oldest board, or a public id. */
  datatype Ref = Main | Id(id: nat)

  /** The revision of a document.  The hash is taken as injective; an absent base names no document. */
  datatype Rev = NoBase | Rev(doc: Layout)

  datatype Entry = Entry(ref: Ref, layout: Layout, base: Rev)

  datatype Answer =
    | Done | Created | Offered
    | NotFound | Frozen | Wall | BadLayout | BadName | BadRequest | NameTaken | BoardChanged | LastBoard | WriteFailed

  const FIRST_BOARD_NAME := "Main"
  const MAX_BOARD_NAME := 40
  const MAX_SAVE_BOARDS := 16

  // ----- names -----

  function LowerChar(c: char): char {
    if 'A' <= c <= 'Z' then c + ' ' else c
  }

  /** The unique index compares names through this. */
  function Lower(s: string): string {
    seq(|s|, i requires 0 <= i < |s| => LowerChar(s[i]))
  }

  predicate IsSpace(c: char) {
    c == ' ' || '\t' <= c <= '\r' || c == '\U{85}' || c == '\U{a0}' || c == '\U{1680}'
    || '\U{2000}' <= c <= '\U{200a}' || c == '\U{2028}' || c == '\U{2029}' || c == '\U{202f}'
    || c == '\U{205f}' || c == '\U{3000}'
  }

  function TrimLeft(s: string): string {
    if s != [] && IsSpace(s[0]) then TrimLeft(s[1..]) else s
  }

  function TrimRight(s: string): string {
    if s != [] && IsSpace(s[|s| - 1]) then TrimRight(s[..|s| - 1]) else s
  }

  function BoardName(raw: string): Option<string> {
    var name := TrimRight(TrimLeft(raw));
    if name == "" || |name| > MAX_BOARD_NAME || (exists i :: 0 <= i < |name| && IsControl(name[i])) then None
    else Some(name)
  }

  predicate NameHeld(s: Store, name: string) {
    Lower(name) in s.leftovers || exists i :: 0 <= i < |s.boards| && Lower(s.boards[i].name) == Lower(name)
  }

  // ----- resolving -----

  /** The index of the board with this id, or the number of boards. */
  function IndexOf(boards: seq<Board>, id: nat): (i: nat)
    ensures i <= |boards|
    ensures i < |boards| ==> boards[i].id == id
    ensures forall k :: 0 <= k < i ==> boards[k].id != id
  {
    if boards == [] || boards[0].id == id then 0 else 1 + IndexOf(boards[1..], id)
  }

  function Resolve(boards: seq<Board>, ref: Ref): (at: Option<nat>)
    ensures at.Some? ==> at.value < |boards|
    ensures at.None? && ref == Main ==> boards == []
  {
    var i := match ref case Main => 0 case Id(id) => IndexOf(boards, id);
    if i < |boards| then Some(i) else None
  }

  /** The freeze: `None` is an unlimited plan, otherwise the oldest `limit` boards run. */
  predicate Runs(limit: Option<nat>, index: nat) {
    limit.None? || index < limit.value
  }

  // ----- one request, as a function of the store -----

  function LayAlias(s: Store, layout: Layout, writer: Writer): Store
    requires s.boards == []
  {
    var key := Lower(FIRST_BOARD_NAME);
    if key in s.leftovers then
      var row := s.leftovers[key];
      Store([Board(row.id, row.name, writer, layout, None)], s.leftovers - {key}, s.nextId)
    else
      Store([Board(s.nextId, FIRST_BOARD_NAME, writer, layout, None)], s.leftovers, s.nextId + 1)
  }

  function Written(b: Board, layout: Layout, writer: Writer): Board {
    b.(layout := layout, writtenBy := writer, proposed := None)
  }

  function DoCreate(s: Store, limit: Option<nat>, door: Writer, raw: string, layout: Option<Layout>): (Store, Answer) {
    var name := BoardName(raw);
    if name.None? then (s, BadName)
    else if layout.Some? && !ValidLayout(layout.value) then (s, BadLayout)
    else if limit.Some? && (if s.boards == [] then 1 else |s.boards|) >= limit.value then (s, Wall)
    else
      var laid := if s.boards == [] then LayAlias(s, EMPTY_LAYOUT, Key) else s;
      if NameHeld(laid, name.value) then (s, NameTaken)
      else
        var writer := if layout.Some? then door else Key;
        var doc := if layout.Some? then layout.value else EMPTY_LAYOUT;
        var row := Board(laid.nextId, name.value, writer, doc, None);
        (laid.(boards := laid.boards + [row], nextId := laid.nextId + 1), Created)
  }

  function DoPut(s: Store, limit: Option<nat>, door: Writer, ref: Ref, doc: Layout): (Store, Answer) {
    match Resolve(s.boards, ref)
    case None =>
      if ref != Main then (s, NotFound)
      else if !ValidLayout(doc) then (s, BadLayout)
      else (LayAlias(s, doc, door), Done)
    case Some(i) =>
      if !Runs(limit, i) then (s, Frozen)
      else if !ValidLayout(doc) then (s, BadLayout)
      else if door == Key && s.boards[i].writtenBy == Session then
        (s.(boards := s.boards[i := s.boards[i].(proposed := Some(doc))]), Offered)
      else
        (s.(boards := s.boards[i := Written(s.boards[i], doc, door)]), Done)
  }

  function SaveOne(s: Store, limit: Option<nat>, e: Entry): Result<Store, Answer> {
    match Resolve(s.boards, e.ref)
    case None =>
      if e.ref != Main then Err(NotFound)
      else if !ValidLayout(e.layout) then Err(BadLayout)
      else if e.base != Rev(EMPTY_LAYOUT) then Err(BoardChanged)
      else Ok(LayAlias(s, e.layout, Session))
    case Some(i) =>
      if !Runs(limit, i) then Err(Frozen)
      else if !ValidLayout(e.layout) then Err(BadLayout)
      else if e.base != Rev(s.boards[i].layout) then Err(BoardChanged)
      else Ok(s.(boards := s.boards[i := Written(s.boards[i], e.layout, Session)]))
  }

  function SaveAll(s: Store, limit: Option<nat>, es: seq<Entry>): Result<Store, Answer>
    decreases |es|
  {
    if es == [] then Ok(s)
    else
      var first := SaveOne(s, limit, es[0]);
      if first.Err? then first else SaveAll(first.value, limit, es[1..])
  }

  function DoSave(s: Store, limit: Option<nat>, es: seq<Entry>): (Store, Answer) {
    if es == [] || |es| > MAX_SAVE_BOARDS then (s, BadRequest)
    else
      match SaveAll(s, limit, es)
      case Ok(s') => (s', Done)
      case Err(a) => (s, a)
  }

  function DoRename(s: Store, limit: Option<nat>, ref: Ref, raw: string): (Store, Answer) {
    var name := BoardName(raw);
    if name.None? then (s, BadName)
    else
      match Resolve(s.boards, ref)
      case None =>
        if ref != Main then (s, NotFound)
        else if NameHeld(s, name.value) then (s, WriteFailed)
        else
          var row := Board(s.nextId, name.value, Key, EMPTY_LAYOUT, None);
          (s.(boards := s.boards + [row], nextId := s.nextId + 1), Done)
      case Some(i) =>
        if !Runs(limit, i) then (s, Frozen)
        else if NameHeldByOther(s, i, name.value) then (s, NameTaken)
        else (s.(boards := s.boards[i := s.boards[i].(name := name.value)]), Done)
  }

  predicate NameHeldByOther(s: Store, i: nat, name: string) {
    Lower(name) in s.leftovers
    || exists k :: 0 <= k < |s.boards| && k != i && Lower(s.boards[k].name) == Lower(name)
  }

  function DoDelete(s: Store, ref: Ref): (Store, Answer) {
    match Resolve(s.boards, ref)
    case None => if ref == Main then (s, LastBoard) else (s, NotFound)
    case Some(i) =>
      if |s.boards| <= 1 then (s, LastBoard)
      else (s.(boards := s.boards[..i] + s.boards[i + 1..]), Done)
  }

  function DoClear(s: Store, limit: Option<nat>, ref: Ref): (Store, Answer) {
    match Resolve(s.boards, ref)
    case None => if ref == Main then (s, Done) else (s, NotFound)
    case Some(i) =>
      if !Runs(limit, i) then (s, Frozen)
      else (s.(boards := s.boards[i := s.boards[i].(proposed := None)]), Done)
  }

  /** The append door.  Which ids it mints is open, so this one is a relation. */
  ghost predicate DidAppend(s: Store, limit: Option<nat>, ref: Ref, block: seq<Widget>, s': Store, a: Answer) {
    match Resolve(s.boards, ref)
    case None =>
      if ref != Main then s' == s && a == NotFound
      else if !CanMerge(EMPTY_LAYOUT, block) then s' == s && a == BadLayout
      else a == Done && exists out :: Merged(EMPTY_LAYOUT, block, out) && s' == LayAlias(s, out, Key)
    case Some(i) =>
      if !Runs(limit, i) then s' == s && a == Frozen
      else if !CanMerge(s.boards[i].layout, block) then s' == s && a == BadLayout
      else a == Done && exists out ::
        Merged(s.boards[i].layout, block, out)
        && s' == s.(boards := s.boards[i := s.boards[i].(layout := out)])
  }

  // ----- the store the handlers write -----

  class BoardStore {
    var boards: seq<Board>
    var leftovers: map<string, Leftover>
    var nextId: nat

    ghost function State(): Store
      reads this
    {
      Store(boards, leftovers, nextId)
    }

    constructor (leftovers: map<string, Leftover>, nextId: nat)
      ensures State() == Store([], leftovers, nextId)
    {
      boards := [];
      this.leftovers := leftovers;
      this.nextId := nextId;
    }

    /** UpsertBoard on a project the caller read as empty. */
    method LayMain(layout: Layout, writer: Writer)
      requires boards == []
      modifies this
      ensures State() == LayAlias(old(State()), layout, writer)
    {
      var key := Lower(FIRST_BOARD_NAME);
      if key in leftovers {
        var row := leftovers[key];
        boards := [Board(row.id, row.name, writer, layout, None)];
        leftovers := leftovers - {key};
      } else {
        boards := [Board(nextId, FIRST_BOARD_NAME, writer, layout, None)];
        nextId := nextId + 1;
      }
    }

    method CreateBoard(limit: Option<nat>, door: Writer, raw: string, layout: Option<Layout>) returns (a: Answer)
      modifies this
      ensures (State(), a) == DoCreate(old(State()), limit, door, raw, layout)
    {
      var name := BoardName(raw);
      if name.None? {
        return BadName;
      }
      var doc := EMPTY_LAYOUT;
      if layout.Some? {
        var fault := ValidateLayout(layout.value);
        if fault.Some? {
          return BadLayout;
        }
        doc := layout.value;
      }
      var have := |boards|;
      if have < 1 {
        have := 1;
      }
      if limit.Some? && have >= limit.value {
        return Wall;
      }
      var savedBoards, savedLeftovers, savedId := boards, leftovers, nextId;
      if boards == [] {
        LayMain(EMPTY_LAYOUT, Key);
      }
      var writtenBy := Key;
      if door == Session && layout.Some? {
        writtenBy := Session;
      }
      if NameHeld(Store(boards, leftovers, nextId), name.value) {
        boards, leftovers, nextId := savedBoards, savedLeftovers, savedId;
        return NameTaken;
      }
      boards := boards + [Board(nextId, name.value, writtenBy, doc, None)];
      nextId := nextId + 1;
      return Created;
    }

    method PutBoardLayout(limit: Option<nat>, door: Writer, ref: Ref, doc: Layout) returns (a: Answer)
      modifies this
      ensures (State(), a) == DoPut(old(State()), limit, door, ref, doc)
    {
      var at := Resolve(boards, ref);
      if at.None? && ref != Main {
        return NotFound;
      }
      if at.Some? && !Runs(limit, at.value) {
        return Frozen;
      }
      var fault := ValidateLayout(doc);
      if fault.Some? {
        return BadLayout;
      }
      if at.None? {
        LayMain(doc, door);
        return Done;
      }
      var i := at.value;
      if door == Key && boards[i].writtenBy == Session {
        boards := boards[i := boards[i].(proposed := Some(doc))];
        return Offered;
      }
      boards := boards[i := boards[i].(layout := doc, writtenBy := door, proposed := None)];
      return Done;
    }

    method AppendBoardWidgets(limit: Option<nat>, ref: Ref, widgets: seq<Widget>) returns (a: Answer)
      modifies this
      ensures DidAppend(old(State()), limit, ref, widgets, State(), a)
    {
      var at := Resolve(boards, ref);
      if at.None? && ref != Main {
        return NotFound;
      }
      if at.Some? && !Runs(limit, at.value) {
        return Frozen;
      }
      var onto := if at.Some? then Some(boards[at.value].layout) else None;
      var merged := MergeWidgets(onto, widgets);
      if merged.Err? {
        return BadLayout;
      }
      if at.None? {
        LayMain(merged.value, Key);
        return Done;
      }
      boards := boards[at.value := boards[at.value].(layout := merged.value)];
      return Done;
    }

    /** One transaction: whatever it wrote is undone by the first refusal. */
    method SaveBoards(limit: Option<nat>, entries: seq<Entry>) returns (a: Answer)
      modifies this
      ensures (State(), a) == DoSave(old(State()), limit, entries)
    {
      if |entries| == 0 || |entries| > MAX_SAVE_BOARDS {
        return BadRequest;
      }
      var savedBoards, savedLeftovers, savedId := boards, leftovers, nextId;
      var refused: Option<Answer> := None;
      var n := 0;
      while n < |entries| && refused.None?
        invariant 0 <= n <= |entries|
        invariant refused.None? ==> SaveAll(old(State()), limit, entries) == SaveAll(State(), limit, entries[n..])
        invariant refused.Some? ==> SaveAll(old(State()), limit, entries) == Err(refused.value)
        decreases |entries| - n, refused.None?
      {
        var e := entries[n];
        assert entries[n..][0] == e && entries[n..][1..] == entries[n + 1..];
        var at := Resolve(boards, e.ref);
        var fault := ValidateLayout(e.layout);
        if at.None? && e.ref != Main {
          refused := Some(NotFound);
        } else if at.Some? && !Runs(limit, at.value) {
          refused := Some(Frozen);
        } else if fault.Some? {
          refused := Some(BadLayout);
        } else {
          var current := if at.Some? then boards[at.value].layout else EMPTY_LAYOUT;
          if Rev(current) != e.base {
            refused := Some(BoardChanged);
          } else if at.None? {
            LayMain(e.layout, Session);
            n := n + 1;
          } else {
            boards := boards[at.value := boards[at.value].(layout := e.layout, writtenBy := Session, proposed := None)];
            n := n + 1;
          }
        }
      }
      if refused.Some? {
        boards, leftovers, nextId := savedBoards, savedLeftovers, savedId;
        return refused.value;
      }
      return Done;
    }

    method RenameBoard(limit: Option<nat>, ref: Ref, raw: string) returns (a: Answer)
      modifies this
      ensures (State(), a) == DoRename(old(State()), limit, ref, raw)
    {
      var name := BoardName(raw);
      if name.None? {
        return BadName;
      }
      var at := Resolve(boards, ref);
      if at.None? {
        if ref != Main {
          return NotFound;
        }
        if NameHeld(Store(boards, leftovers, nextId), name.value) {
          return WriteFailed;
        }
        boards := boards + [Board(nextId, name.value, Key, EMPTY_LAYOUT, None)];
        nextId := nextId + 1;
        return Done;
      }
      if !Runs(limit, at.value) {
        return Frozen;
      }
      if NameHeldByOther(Store(boards, leftovers, nextId), at.value, name.value) {
        return NameTaken;
      }
      boards := boards[at.value := boards[at.value].(name := name.value)];
      return Done;
    }

    method DeleteBoard(ref: Ref) returns (a: Answer)
      modifies this
      ensures (State(), a) == DoDelete(old(State()), ref)
    {
      var at := Resolve(boards, ref);
      if at.None? {
        return if ref == Main then LastBoard else NotFound;
      }
      if |boards| <= 1 {
        return LastBoard;
      }
      boards := boards[..at.value] + boards[at.value + 1..];
      return Done;
    }

    method ClearBoardProposal(limit: Option<nat>, ref: Ref) returns (a: Answer)
      modifies this
      ensures (State(), a) == DoClear(old(State()), limit, ref)
    {
      var at := Resolve(boards, ref);
      if at.None? {
        return if ref == Main then Done else NotFound;
      }
      if !Runs(limit, at.value) {
        return Frozen;
      }
      boards := boards[at.value := boards[at.value].(proposed := None)];
      return Done;
    }
  }
}

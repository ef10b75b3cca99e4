/**
 What each board request answers and what it leaves, field by field
 (back/internal/api/dashboard.go:1580-2146, back/gen/pg/dashboard.sql.go:203-222).
 */
module BoardEffects {
  import opened Outcomes
  import opened Layouts
  import opened Boards
  import opened BoardSave
  import opened BoardRuns

  // ----- names -----

  /** One ASCII letter in both its cases. */
  predicate IsCasePair(upper: char, lower: char) {
    'A' <= upper <= 'Z' && lower as int == upper as int + 32
  }

  predicate SameButCase(a: string, b: string) {
    |a| == |b| && forall i :: 0 <= i < |a| ==> a[i] == b[i] || IsCasePair(a[i], b[i]) || IsCasePair(b[i], a[i])
  }

  /** What the unique index takes for one name. */
  lemma LowerIs(a: string, b: string)
    ensures Lower(a) == Lower(b) <==> SameButCase(a, b)
  {
    forall i | 0 <= i < |a| == |b|
      ensures LowerChar(a[i]) == LowerChar(b[i])
              <==> a[i] == b[i] || IsCasePair(a[i], b[i]) || IsCasePair(b[i], a[i])
    {
    }
    if Lower(a) == Lower(b) {
      forall i | 0 <= i < |a| ensures LowerChar(a[i]) == LowerChar(b[i]) {
        assert Lower(a)[i] == Lower(b)[i];
      }
    }
  }

  predicate IsBlank(s: string) {
    forall i :: 0 <= i < |s| ==> IsSpace(s[i])
  }

  /** Neither end is a space. */
  predicate IsTrimmed(s: string) {
    s != "" ==> !IsSpace(s[0]) && !IsSpace(s[|s| - 1])
  }

  predicate IsCore(raw: string, i: nat, j: nat) {
    i <= j <= |raw| && IsBlank(raw[..i]) && IsBlank(raw[j..]) && IsTrimmed(raw[i..j])
  }

  /** A name is what was typed without the spaces around it: 1 to 40 characters, none of them a control. */
  lemma BoardNameIs(raw: string, name: string)
    ensures BoardName(raw) == Some(name) <==>
              1 <= |name| <= 40 && (forall i :: 0 <= i < |name| ==> !IsControl(name[i]))
              && exists i: nat, j: nat :: IsCore(raw, i, j) && name == raw[i..j]
  {
    var i, j := Core(raw);
    if k: nat, l: nat :| IsCore(raw, k, l) && name == raw[k..l] && name != "" {
      OneCore(raw, i, j, k, l);
    }
  }

  lemma Core(raw: string) returns (i: nat, j: nat)
    ensures IsCore(raw, i, j) && TrimRight(TrimLeft(raw)) == raw[i..j]
  {
    i := LeftOf(raw);
    var rest := raw[i..];
    var n := RightOf(rest);
    j := i + n;
    assert rest[..n] == raw[i..j] && rest[n..] == raw[j..];
  }

  lemma {:induction false} LeftOf(s: string) returns (i: nat)
    ensures i <= |s| && IsBlank(s[..i]) && TrimLeft(s) == s[i..] && (i < |s| ==> !IsSpace(s[i]))
  {
    if s != [] && IsSpace(s[0]) {
      i := LeftOf(s[1..]);
      assert s[1..][i..] == s[i + 1..];
      assert forall k :: 0 < k < i + 1 ==> s[k] == s[1..][..i][k - 1];
      i := i + 1;
    } else {
      i := 0;
      assert s[0..] == s;
    }
  }

  lemma {:induction false} RightOf(s: string) returns (j: nat)
    ensures j <= |s| && IsBlank(s[j..]) && TrimRight(s) == s[..j] && (j > 0 ==> !IsSpace(s[j - 1]))
    decreases |s|
  {
    if s != [] && IsSpace(s[|s| - 1]) {
      var shorter := s[..|s| - 1];
      j := RightOf(shorter);
      assert shorter[..j] == s[..j];
      assert forall k :: j <= k < |shorter| ==> s[k] == shorter[j..][k - j];
    } else {
      j := |s|;
      assert s[..j] == s;
    }
  }

  lemma AtCore(raw: string, i: nat, j: nat, k: nat)
    requires IsCore(raw, i, j) && k < |raw|
    ensures k < i || k >= j ==> IsSpace(raw[k])
    ensures i < j ==> !IsSpace(raw[i]) && !IsSpace(raw[j - 1])
  {
    assert forall n :: 0 <= n < i ==> raw[n] == raw[..i][n];
    assert forall n :: j <= n < |raw| ==> raw[n] == raw[j..][n - j];
    assert i < j ==> raw[i..j][0] == raw[i] && raw[i..j][j - i - 1] == raw[j - 1];
  }

  lemma OneCore(raw: string, i: nat, j: nat, k: nat, l: nat)
    requires IsCore(raw, i, j) && IsCore(raw, k, l) && k < l
    ensures i == k && j == l
  {
    AtCore(raw, k, l, k);
    AtCore(raw, i, j, k);
    AtCore(raw, i, j, l - 1);
    AtCore(raw, k, l, i);
    AtCore(raw, k, l, j - 1);
  }

  // ----- which board -----

  /** The alias is the oldest board, an id the one board that has it. */
  lemma ResolveIs(boards: seq<Board>, ref: Ref)
    ensures Resolve(boards, ref).None? <==>
              if ref == Main then boards == [] else forall k :: 0 <= k < |boards| ==> boards[k].id != ref.id
    ensures Resolve(boards, ref).Some? ==>
              var i := Resolve(boards, ref).value; if ref == Main then i == 0 else boards[i].id == ref.id
  {
  }

  /** The plan keeps board `i` running. */
  predicate Running(limit: Option<nat>, i: nat) {
    limit == None || i < limit.value
  }

  /** Board `i` keeps its id and name; every other board, and all else, is untouched. */
  predicate OnlyBoard(s: Store, s': Store, i: nat) {
    |s'.boards| == |s.boards| && s'.leftovers == s.leftovers && s'.nextId == s.nextId
    && (forall k :: 0 <= k < |s.boards| && k != i ==> s'.boards[k] == s.boards[k])
    && i < |s.boards| && s'.boards[i].id == s.boards[i].id
  }

  /** The alias's first row: a new one called Main, or the one an earlier tenant left under that name. */
  predicate FirstBoard(s: Store, s': Store, layout: Layout, writer: Writer) {
    |s'.boards| >= 1
    && var b := s'.boards[0];
    b.layout == layout && b.writtenBy == writer && b.proposed == None
    && if "main" in s.leftovers
       then b.id == s.leftovers["main"].id && b.name == s.leftovers["main"].name
            && s'.leftovers == s.leftovers - {"main"} && s'.nextId == s.nextId + |s'.boards| - 1
       else b.id == s.nextId && b.name == "Main"
            && s'.leftovers == s.leftovers && s'.nextId == s.nextId + |s'.boards|
  }

  lemma AliasIs(s: Store, layout: Layout, writer: Writer)
    requires s.boards == []
    ensures var s' := LayAlias(s, layout, writer); |s'.boards| == 1 && FirstBoard(s, s', layout, writer)
    ensures Lower(FIRST_BOARD_NAME) == "main"
  {
    var key := Lower(FIRST_BOARD_NAME);
    assert key[0] == 'm' && key[1] == 'a' && key[2] == 'i' && key[3] == 'n';
    assert key == "main";
  }

  // ----- a replace -----

  lemma PutAnswers(s: Store, limit: Option<nat>, door: Writer, ref: Ref, doc: Layout)
    ensures var (s', a), at := DoPut(s, limit, door, ref, doc), Resolve(s.boards, ref);
            (a == NotFound <==> ref.Id? && at.None?)
            && (a == Frozen <==> at.Some? && !Running(limit, at.value))
            && (a == BadLayout <==> (at.Some? ==> Running(limit, at.value)) && (at.None? ==> ref == Main)
                                    && !ValidLayout(doc))
            && (a == Offered <==> at.Some? && Running(limit, at.value) && ValidLayout(doc)
                                  && door == Key && s.boards[at.value].writtenBy == Session)
            && a in {NotFound, Frozen, BadLayout, Offered, Done}
            && (a in {NotFound, Frozen, BadLayout} ==> s' == s)
  {
  }

  /**
   An accepted replace puts the document on the board under its writer and drops what was
   proposed; a key's on a board a session wrote only becomes the proposal.
   */
  lemma PutWrites(s: Store, limit: Option<nat>, door: Writer, ref: Ref, doc: Layout)
    requires DoPut(s, limit, door, ref, doc).1 in {Done, Offered}
    ensures var (s', a), at := DoPut(s, limit, door, ref, doc), Resolve(s.boards, ref);
            if at.None? then a == Done && |s'.boards| == 1 && FirstBoard(s, s', doc, door)
            else
              var b, b' := s.boards[at.value], s'.boards[at.value];
              OnlyBoard(s, s', at.value) && b'.name == b.name
              && if a == Done then b'.layout == doc && b'.writtenBy == door && b'.proposed == None
                 else b'.layout == b.layout && b'.writtenBy == b.writtenBy && b'.proposed == Some(doc)
  {
    if s.boards == [] {
      AliasIs(s, doc, door);
    }
  }

  // ----- a save -----

  /** No entry from `n` on names board `k`. */
  predicate NoneNames(boards: seq<Board>, es: seq<Entry>, n: nat, k: nat) {
    forall j :: n <= j < |es| ==> Resolve(boards, es[j].ref) != Some(k)
  }

  /** After the last entry that names the board, its document is that entry's. */
  lemma {:induction false} LastEntryWins(boards: seq<Board>, es: seq<Entry>, i: nat, n: nat, k: nat)
    requires i < n <= |es| && k < |boards| && Resolve(boards, es[i].ref) == Some(k)
    requires NoneNames(boards, es, i + 1, k)
    ensures DocBefore(boards, es, n, k) == es[i].layout
  {
    if i + 1 < n {
      LastEntryWins(boards, es, i, n - 1, k);
    }
  }

  /**
   A committed save leaves each board it names with the last document an entry gave it, a
   session's, with nothing proposed and under its old id and name, and every other board as it was.
   */
  lemma SaveWrites(s: Store, limit: Option<nat>, es: seq<Entry>, k: nat)
    requires DoSave(s, limit, es).1 == Done && k < |s.boards|
    ensures var s' := DoSave(s, limit, es).0;
            |s'.boards| == |s.boards| && s'.leftovers == s.leftovers && s'.nextId == s.nextId
            && s'.boards[k].id == s.boards[k].id && s'.boards[k].name == s.boards[k].name
            && (NoneNames(s.boards, es, 0, k) ==> s'.boards[k] == s.boards[k])
            && forall i :: 0 <= i < |es| && Resolve(s.boards, es[i].ref) == Some(k)
                           && NoneNames(s.boards, es, i + 1, k) ==>
                 s'.boards[k].layout == es[i].layout == DocBefore(s.boards, es, |es|, k)
                 && s'.boards[k].writtenBy == Session && s'.boards[k].proposed == None
  {
    SaveIsAllOrNothing(s, limit, es);
    var s' := DoSave(s, limit, es).0;
    assert s'.boards[k] == SavedBoard(s.boards, es, k);
    forall i | 0 <= i < |es| && Resolve(s.boards, es[i].ref) == Some(k) && NoneNames(s.boards, es, i + 1, k)
      ensures es[i].layout == DocBefore(s.boards, es, |es|, k) && Targets(s.boards, es, k)
    {
      LastEntryWins(s.boards, es, i, |es|, k);
    }
  }

  /** A save onto a project that stored nothing leaves one board, the last entry's. */
  lemma FirstSaveWrites(s: Store, limit: Option<nat>, es: seq<Entry>)
    requires DoSave(s, limit, es).1 == Done && s.boards == []
    ensures var s' := DoSave(s, limit, es).0;
            es != [] && |s'.boards| == 1 && FirstBoard(s, s', es[|es| - 1].layout, Session)
  {
    SaveIsAllOrNothing(s, limit, es);
    AliasIs(s, EMPTY_LAYOUT, Session);
    var boards, s', n := Served(s).boards, DoSave(s, limit, es).0, |es| - 1;
    assert Taken(s, limit, es, n);
    assert Resolve(boards, es[n].ref) == Some(0);
    assert s'.boards[0] == SavedBoard(boards, es, 0);
    assert DocBefore(boards, es, |es|, 0) == es[n].layout;
  }

  // ----- the other requests -----

  /** Another board of the project has this name, or a row an earlier tenant left behind. */
  predicate NameTakenBy(s: Store, name: string, but: Option<nat>) {
    Lower(name) in s.leftovers
    || exists k :: 0 <= k < |s.boards| && but != Some(k) && SameButCase(s.boards[k].name, name)
  }

  lemma NameTakenIs(s: Store, name: string, i: nat)
    ensures NameHeld(s, name) <==> NameTakenBy(s, name, None)
    ensures NameHeldByOther(s, i, name) <==> NameTakenBy(s, name, Some(i))
  {
    forall k | 0 <= k < |s.boards|
      ensures Lower(s.boards[k].name) == Lower(name) <==> SameButCase(s.boards[k].name, name)
    {
      LowerIs(s.boards[k].name, name);
    }
  }

  /** A refused create changes nothing; on a project that stored nothing the alias takes a place and its name. */
  lemma CreateAnswers(s: Store, limit: Option<nat>, door: Writer, raw: string, doc: Option<Layout>)
    requires WellFormed(s)
    ensures var (s', a), name := DoCreate(s, limit, door, raw, doc), BoardName(raw);
            var have := if s.boards == [] then 1 else |s.boards|;
            var fine := doc.None? || ValidLayout(doc.value);
            var open := limit == None || have < limit.value;
            var taken := name.Some?
                         && (NameTakenBy(s, name.value, None) || (s.boards == [] && SameButCase(name.value, "Main")));
            (a == BadName <==> name.None?)
            && (a == BadLayout <==> name.Some? && !fine)
            && (a == Wall <==> name.Some? && fine && !open)
            && (a == NameTaken <==> name.Some? && fine && open && taken)
            && (a == Created <==> name.Some? && fine && open && !taken)
            && (a != Created ==> s' == s)
  {
    var name := BoardName(raw);
    if name.Some? {
      NameTakenIs(s, name.value, 0);
      LowerIs(name.value, FIRST_BOARD_NAME);
      if s.boards == [] {
        AliasIs(s, EMPTY_LAYOUT, Key);
        NameTakenIs(LayAlias(s, EMPTY_LAYOUT, Key), name.value, 0);
      }
    }
  }

  /** The new board comes last, under its own id: the given document by its author, or an empty one open to keys. */
  lemma CreateAdds(s: Store, limit: Option<nat>, door: Writer, raw: string, doc: Option<Layout>)
    requires DoCreate(s, limit, door, raw, doc).1 == Created
    ensures var s' := DoCreate(s, limit, door, raw, doc).0; var n := |s'.boards| - 1;
            n >= 1 && Some(s'.boards[n].name) == BoardName(raw)
            && s'.boards[n].id == s'.nextId - 1 >= s.nextId && s'.boards[n].proposed == None
            && (if doc.Some? then s'.boards[n].layout == doc.value && s'.boards[n].writtenBy == door
                else s'.boards[n].layout == EMPTY_LAYOUT && s'.boards[n].writtenBy == Key)
            && if s.boards == [] then n == 1 && FirstBoard(s, s', EMPTY_LAYOUT, Key)
               else s'.boards[..n] == s.boards && s'.nextId == s.nextId + 1 && s'.leftovers == s.leftovers
  {
    if s.boards == [] {
      AliasIs(s, EMPTY_LAYOUT, Key);
    }
  }

  /** A rename changes the one name, or lays the alias down under it. */
  lemma RenameIs(s: Store, limit: Option<nat>, ref: Ref, raw: string)
    ensures var (s', a), at, name := DoRename(s, limit, ref, raw), Resolve(s.boards, ref), BoardName(raw);
            (a == BadName <==> name.None?)
            && (a == NotFound <==> name.Some? && at.None? && ref.Id?)
            && (a == WriteFailed <==> name.Some? && at.None? && ref == Main && NameTakenBy(s, name.value, None))
            && (a == Frozen <==> name.Some? && at.Some? && !Running(limit, at.value))
            && (a == NameTaken <==> name.Some? && at.Some? && Running(limit, at.value)
                                    && NameTakenBy(s, name.value, at))
            && a in {BadName, NotFound, WriteFailed, Frozen, NameTaken, Done}
            && (a != Done ==> s' == s)
            && (a == Done && at.Some? ==>
                  var b, b' := s.boards[at.value], s'.boards[at.value];
                  OnlyBoard(s, s', at.value) && Some(b'.name) == name
                  && b'.layout == b.layout && b'.writtenBy == b.writtenBy && b'.proposed == b.proposed)
            && (a == Done && at.None? ==>
                  s.boards == [] && s' == Store([Board(s.nextId, name.value, Key, EMPTY_LAYOUT, None)],
                                                s.leftovers, s.nextId + 1))
  {
    var at, name := Resolve(s.boards, ref), BoardName(raw);
    if name.Some? {
      NameTakenIs(s, name.value, if at.Some? then at.value else 0);
    }
  }

  /** A delete takes the one board out, and never the last. */
  lemma DeleteIs(s: Store, ref: Ref)
    ensures var (s', a), at := DoDelete(s, ref), Resolve(s.boards, ref);
            (a == NotFound <==> at.None? && ref.Id?)
            && (a == LastBoard <==> (at.None? && ref == Main) || (at.Some? && |s.boards| == 1))
            && a in {NotFound, LastBoard, Done}
            && (a != Done ==> s' == s)
            && (a == Done ==>
                  |s'.boards| == |s.boards| - 1 && s'.leftovers == s.leftovers && s'.nextId == s.nextId
                  && forall k :: 0 <= k < |s'.boards| ==> s'.boards[k] == s.boards[if k < at.value then k else k + 1])
  {
  }

  /** Clearing drops the proposal and nothing else; on the alias of an empty project there is none to drop. */
  lemma ClearIs(s: Store, limit: Option<nat>, ref: Ref)
    ensures var (s', a), at := DoClear(s, limit, ref), Resolve(s.boards, ref);
            (a == NotFound <==> at.None? && ref.Id?)
            && (a == Frozen <==> at.Some? && !Running(limit, at.value))
            && a in {NotFound, Frozen, Done}
            && (a != Done || at.None? ==> s' == s)
            && (a == Done && at.Some? ==>
                  var b, b' := s.boards[at.value], s'.boards[at.value];
                  OnlyBoard(s, s', at.value) && b'.proposed == None
                  && b'.name == b.name && b'.layout == b.layout && b'.writtenBy == b.writtenBy)
  {
  }

  /** An append adds its block below what is there, by whomever it was written, and leaves the proposal. */
  lemma AppendIs(s: Store, limit: Option<nat>, ref: Ref, block: seq<Widget>, s': Store, a: Answer)
    requires DidAppend(s, limit, ref, block, s', a)
    ensures var at := Resolve(s.boards, ref);
            var onto := if at.Some? then s.boards[at.value].layout else EMPTY_LAYOUT;
            (a == NotFound <==> at.None? && ref.Id?)
            && (a == Frozen <==> at.Some? && !Running(limit, at.value))
            && (a == BadLayout <==> (at.Some? ==> Running(limit, at.value)) && (at.None? ==> ref == Main)
                                    && !CanMerge(onto, block))
            && a in {NotFound, Frozen, BadLayout, Done}
            && (a != Done ==> s' == s)
            && (a == Done && at.None? ==>
                  |s'.boards| == 1 && Merged(onto, block, s'.boards[0].layout)
                  && FirstBoard(s, s', s'.boards[0].layout, Key))
            && (a == Done && at.Some? ==>
                  var b, b' := s.boards[at.value], s'.boards[at.value];
                  OnlyBoard(s, s', at.value) && Merged(onto, block, b'.layout)
                  && b'.name == b.name && b'.writtenBy == b.writtenBy && b'.proposed == b.proposed)
  {
    if s.boards == [] && a == Done {
      var out :| Merged(EMPTY_LAYOUT, block, out) && s' == LayAlias(s, out, Key);
      AliasIs(s, out, Key);
    }
  }
}

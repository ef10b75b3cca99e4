/**
 The marks a board's charts carry (back/internal/api/marks.go:20-168): deploy events fold
 into bursts, releases and incidents join them, and the list is sorted by time.

 Times are microseconds, a string's characters are its runes.
 */
module Marks {
  import opened Outcomes
  import Rollup
  import opened RollupChart

  const BURST: int := 600 * Rollup.SECOND
  const LABEL_MAX := 40
  const SHA_SHORT := 7

  datatype MarkRow = MarkRow(at: int, until: Option<int>, name: string, sha: string)

  datatype Kind = Deploy | Release | Incident

  datatype Mark = Mark(kind: Kind, at: int, text: string, until: Option<int>)

  function Cut(s: string, n: nat): string {
    if |s| > n then s[..n] else s
  }

  function DeployLabel(name: string, sha: string): string {
    if sha != "" then Cut(sha, SHA_SHORT) else Cut(name, LABEL_MAX)
  }

  predicate IsHexDigit(c: char) {
    '0' <= c <= '9' || 'a' <= c <= 'f' || 'A' <= c <= 'F'
  }

  function ReleaseLabel(rel: string): string {
    if |rel| == 40 && forall i :: 0 <= i < |rel| ==> IsHexDigit(rel[i]) then rel[..SHA_SHORT] else Cut(rel, LABEL_MAX)
  }

  /** The front of `s`, `n` characters of it at most. */
  predicate IsFront(front: string, s: string, n: nat) {
    front <= s && |front| == if |s| < n then |s| else n
  }

  /** A deploy shows its commit if it has one and otherwise its name. */
  lemma DeployLabelIs(name: string, sha: string)
    ensures if sha == "" then IsFront(DeployLabel(name, sha), name, 40) else IsFront(DeployLabel(name, sha), sha, 7)
  {
  }

  /** A release that is a full commit hash is shown as a commit. */
  lemma ReleaseLabelIs(rel: string)
    ensures var hash := |rel| == 40 && forall i :: 0 <= i < 40 ==> rel[i] in "0123456789abcdefABCDEF";
            IsFront(ReleaseLabel(rel), rel, if hash then 7 else 40)
  {
    forall i | 0 <= i < |rel| ensures IsHexDigit(rel[i]) <==> rel[i] in "0123456789abcdefABCDEF" {
      HexDigitIs(rel[i]);
    }
  }

  lemma HexDigitIs(c: char)
    ensures IsHexDigit(c) <==> c in "0123456789abcdefABCDEF"
  {
    var all := "0123456789abcdefABCDEF";
    assert all[0] == '0' && all[1] == '1' && all[2] == '2' && all[3] == '3' && all[4] == '4';
    assert all[5] == '5' && all[6] == '6' && all[7] == '7' && all[8] == '8' && all[9] == '9';
    assert all[10] == 'a' && all[11] == 'b' && all[12] == 'c' && all[13] == 'd' && all[14] == 'e' && all[15] == 'f';
    assert all[16] == 'A' && all[17] == 'B' && all[18] == 'C' && all[19] == 'D' && all[20] == 'E' && all[21] == 'F';
  }

  // ----- bursts of deploys -----

  /** A chain's events follow each other by less than ten minutes. */
  predicate IsChain(c: seq<MarkRow>) {
    c != [] && forall i :: 0 < i < |c| ==> c[i].at - c[i - 1].at < BURST
  }

  predicate Apart(c: seq<MarkRow>, d: seq<MarkRow>)
    requires c != [] && d != []
  {
    d[0].at - c[|c| - 1].at >= BURST
  }

  function Flatten(chains: seq<seq<MarkRow>>): seq<MarkRow> {
    if chains == [] then [] else Flatten(chains[..|chains| - 1]) + chains[|chains| - 1]
  }

  /** The deploys cut into chains that cannot be longer: a new one starts only after ten minutes. */
  ghost predicate AreBursts(deploys: seq<MarkRow>, chains: seq<seq<MarkRow>>) {
    Flatten(chains) == deploys
    && (forall k :: 0 <= k < |chains| ==> IsChain(chains[k]))
    && forall k, l :: 0 <= k && l == k + 1 < |chains| ==> Apart(chains[k], chains[l])
  }

  /** The last event's time, under the last sha the chain has or else the last event's name. */
  function ChainMark(c: seq<MarkRow>): Mark
    requires c != []
  {
    var last := c[|c| - 1];
    Mark(Deploy, last.at, DeployLabel(last.name, LastSha(c)), None)
  }

  function LastSha(c: seq<MarkRow>): string {
    if c == [] then ""
    else if c[|c| - 1].sha != "" then c[|c| - 1].sha
    else LastSha(c[..|c| - 1])
  }

  lemma {:induction false} LastShaIs(c: seq<MarkRow>, k: nat)
    requires k < |c| && forall j :: k < j < |c| ==> c[j].sha == ""
    ensures c[k].sha != "" || k == 0 ==> LastSha(c) == c[k].sha
    decreases |c|
  {
    if k < |c| - 1 {
      LastShaIs(c[..|c| - 1], k);
    }
  }

  /** A burst is one mark, at its last event, under the last commit it has or else that event's name. */
  lemma BurstMarkIs(c: seq<MarkRow>, k: nat)
    requires k < |c| && (forall j :: k < j < |c| ==> c[j].sha == "") && (c[k].sha != "" || k == 0)
    ensures var m, last := ChainMark(c), c[|c| - 1];
            m.kind == Deploy && m.at == last.at && m.until == None
            && if c[k].sha != "" then IsFront(m.text, c[k].sha, 7) else IsFront(m.text, last.name, 40)
  {
    LastShaIs(c, k);
    DeployLabelIs(c[|c| - 1].name, c[k].sha);
  }

  /** Deploys oldest first have exactly one cut into bursts. */
  lemma {:induction false} BurstsAreUnique(deploys: seq<MarkRow>, a: seq<seq<MarkRow>>, b: seq<seq<MarkRow>>)
    requires AreBursts(deploys, a) && AreBursts(deploys, b)
    ensures a == b
    decreases |deploys|
  {
    if deploys == [] {
      NoEmptyChain(a);
      NoEmptyChain(b);
    } else {
      var (ra, ca) := (a[..|a| - 1], a[|a| - 1]);
      var (rb, cb) := (b[..|b| - 1], b[|b| - 1]);
      SameLastChain(deploys, a, b);
      BurstsButLast(deploys, a);
      BurstsButLast(deploys, b);
      BurstsAreUnique(Flatten(ra), ra, rb);
      assert a == ra + [ca] && b == rb + [cb];
    }
  }

  lemma NoEmptyChain(a: seq<seq<MarkRow>>)
    requires forall k :: 0 <= k < |a| ==> a[k] != []
    ensures Flatten(a) == [] <==> a == []
  {
  }

  lemma BurstsButLast(deploys: seq<MarkRow>, a: seq<seq<MarkRow>>)
    requires AreBursts(deploys, a) && a != []
    ensures AreBursts(Flatten(a[..|a| - 1]), a[..|a| - 1])
  {
  }

  /** A last chain starts at the last gap of ten minutes, or at the first event. */
  lemma LastChainStart(deploys: seq<MarkRow>, a: seq<seq<MarkRow>>)
    requires AreBursts(deploys, a) && a != []
    ensures var c, before := a[|a| - 1], Flatten(a[..|a| - 1]); var n := |before|;
            deploys == before + c && c != []
            && (n > 0 ==> deploys[n].at - deploys[n - 1].at >= BURST)
            && forall j :: n < j < |deploys| ==> deploys[j].at - deploys[j - 1].at < BURST
  {
    var c, rest := a[|a| - 1], a[..|a| - 1];
    var n := |Flatten(rest)|;
    assert IsChain(c);
    forall j | n < j < |deploys| ensures deploys[j].at - deploys[j - 1].at < BURST {
      assert deploys[j] == c[j - n] && deploys[j - 1] == c[j - n - 1];
    }
    NoEmptyChain(rest);
    if rest != [] {
      var k := |a| - 2;
      var l := k + 1;
      assert rest[k] == a[k] && IsChain(a[k]) && Apart(a[k], a[l]);
      LastOfFlatten(rest);
    }
  }

  lemma SameLastChain(deploys: seq<MarkRow>, a: seq<seq<MarkRow>>, b: seq<seq<MarkRow>>)
    requires AreBursts(deploys, a) && AreBursts(deploys, b) && deploys != []
    ensures a != [] && b != [] && a[|a| - 1] == b[|b| - 1]
    ensures Flatten(a[..|a| - 1]) == Flatten(b[..|b| - 1])
  {
    NoEmptyChain(a);
    NoEmptyChain(b);
    LastChainStart(deploys, a);
    LastChainStart(deploys, b);
    var na, nb := |Flatten(a[..|a| - 1])|, |Flatten(b[..|b| - 1])|;
    assert na == nb;
    assert deploys[..na] == Flatten(a[..|a| - 1]) && deploys[nb..] == b[|b| - 1];
    assert deploys[..nb] == Flatten(b[..|b| - 1]) && deploys[na..] == a[|a| - 1];
  }

  lemma LastOfFlatten(a: seq<seq<MarkRow>>)
    requires a != [] && a[|a| - 1] != []
    ensures var c := a[|a| - 1]; Flatten(a) != [] && Flatten(a)[|Flatten(a)| - 1] == c[|c| - 1]
  {
  }

  /** Deploy marks are ten minutes apart or more. */
  lemma MarksAreApart(deploys: seq<MarkRow>, chains: seq<seq<MarkRow>>, k: nat)
    requires AreBursts(deploys, chains) && k + 1 < |chains|
    requires forall i, j :: 0 <= i < j < |deploys| ==> deploys[i].at <= deploys[j].at
    ensures ChainMark(chains[k + 1]).at - ChainMark(chains[k]).at >= BURST
  {
    var l := k + 1;
    assert Apart(chains[k], chains[l]);
    var start := ChainStart(chains, l);
    var d := chains[l];
    assert deploys[start] == d[0] && deploys[start + |d| - 1] == d[|d| - 1];
  }

  /** Where a chain lies in the deploys. */
  lemma {:induction false} ChainStart(chains: seq<seq<MarkRow>>, l: nat) returns (start: nat)
    requires l < |chains|
    ensures start + |chains[l]| <= |Flatten(chains)| && Flatten(chains)[start..start + |chains[l]|] == chains[l]
    decreases |chains|
  {
    var n := |chains| - 1;
    if l == n {
      start := |Flatten(chains[..n])|;
    } else {
      start := ChainStart(chains[..n], l);
    }
  }

  function ChainMarks(chains: seq<seq<MarkRow>>): seq<Mark>
    requires forall k :: 0 <= k < |chains| ==> chains[k] != []
  {
    seq(|chains|, k requires 0 <= k < |chains| => ChainMark(chains[k]))
  }

  /** The deploys cut into bursts, one event after the other. */
  function Bursts(deploys: seq<MarkRow>): (chains: seq<seq<MarkRow>>)
    ensures forall k :: 0 <= k < |chains| ==> chains[k] != []
  {
    if deploys == [] then [] else OneMore(Bursts(deploys[..|deploys| - 1]), deploys[|deploys| - 1])
  }

  lemma {:induction false} BurstsAreBursts(deploys: seq<MarkRow>)
    ensures AreBursts(deploys, Bursts(deploys))
    decreases |deploys|
  {
    if deploys == [] {
      NoBursts();
    } else {
      var rest, d := deploys[..|deploys| - 1], deploys[|deploys| - 1];
      BurstsAreBursts(rest);
      BurstsOneMore(rest, Bursts(rest), d);
      assert deploys == rest + [d];
    }
  }

  lemma NoDeploys()
    ensures Bursts([]) == []
  {
  }

  lemma BurstsOfMore(deploys: seq<MarkRow>, i: nat)
    requires i < |deploys|
    ensures Bursts(deploys[..i + 1]) == OneMore(Bursts(deploys[..i]), deploys[i])
  {
    assert deploys[..i + 1][..i] == deploys[..i] && deploys[..i + 1][i] == deploys[i];
  }

  method FoldDeploys(deploys: seq<MarkRow>) returns (out: seq<Mark>)
    ensures out == ChainMarks(Bursts(deploys))
  {
    hide LastSha, ChainMark, OneMore, Bursts;
    NoDeploys();
    out := [];
    var sha := "";
    var i := 0;
    while i < |deploys|
      invariant 0 <= i <= |deploys|
      invariant out == ChainMarks(Bursts(deploys[..i]))
      invariant out != [] ==> sha == LastSha(Bursts(deploys[..i])[|out| - 1])
    {
      var d, n := deploys[i], |out|;
      BurstsOfMore(deploys, i);
      FoldOneMore(Bursts(deploys[..i]), d);
      var inBurst := n > 0 && d.at - out[n - 1].at < BURST;
      if !inBurst || d.sha != "" {
        sha := d.sha;
      }
      var m := Mark(Deploy, d.at, DeployLabel(d.name, sha), None);
      if inBurst {
        out := out[n - 1 := m];
      } else {
        out := out + [m];
      }
      i := i + 1;
    }
    assert deploys[..i] == deploys;
  }

  lemma ChainOneMore(c: seq<MarkRow>, d: MarkRow)
    ensures var sha := if d.sha != "" then d.sha else LastSha(c);
            LastSha(c + [d]) == sha && ChainMark(c + [d]) == Mark(Deploy, d.at, DeployLabel(d.name, sha), None)
    ensures [] + [d] == [d]
  {
    assert (c + [d])[..|c|] == c;
  }

  lemma NoBursts()
    ensures AreBursts([], [])
  {
  }

  /** One more event: in the last chain, or a chain of its own. */
  function OneMore(chains: seq<seq<MarkRow>>, d: MarkRow): (more: seq<seq<MarkRow>>)
    requires forall k :: 0 <= k < |chains| ==> chains[k] != []
    ensures forall k :: 0 <= k < |more| ==> more[k] != []
  {
    var n := |chains|;
    if n > 0 && d.at - ChainMark(chains[n - 1]).at < BURST
    then chains[..n - 1] + [chains[n - 1] + [d]]
    else chains + [[d]]
  }

  lemma BurstsAreNotEmpty(deploys: seq<MarkRow>, chains: seq<seq<MarkRow>>)
    requires AreBursts(deploys, chains)
    ensures forall k :: 0 <= k < |chains| ==> chains[k] != []
  {
  }

  /** The loop's body on its last mark and its sha is one more event on the chains. */
  lemma FoldOneMore(chains: seq<seq<MarkRow>>, d: MarkRow)
    requires forall k :: 0 <= k < |chains| ==> chains[k] != []
    ensures var n, after, out := |chains|, OneMore(chains, d), ChainMarks(chains);
            var inBurst := n > 0 && d.at - out[n - 1].at < BURST;
            var sha := if inBurst && d.sha == "" then LastSha(chains[n - 1]) else d.sha;
            var m := Mark(Deploy, d.at, DeployLabel(d.name, sha), None);
            after != [] && LastSha(after[|after| - 1]) == sha
            && (forall k :: 0 <= k < |after| ==> after[k] != [])
            && ChainMarks(after) == if inBurst then out[n - 1 := m] else out + [m]
  {
    hide LastSha, ChainMark, DeployLabel;
    var n, after, out := |chains|, OneMore(chains, d), ChainMarks(chains);
    NoSha();
    ChainOneMore([], d);
    if n > 0 && d.at - out[n - 1].at < BURST {
      ChainOneMore(chains[n - 1], d);
      assert ChainMarks(after) == out[n - 1 := ChainMark(chains[n - 1] + [d])];
    } else {
      assert ChainMarks(after) == out + [ChainMark([d])];
    }
  }

  lemma NoSha()
    ensures LastSha([]) == ""
  {
  }

  /** A chain ten minutes after the last one is one more burst. */
  lemma BurstsSnoc(deploys: seq<MarkRow>, chains: seq<seq<MarkRow>>, c: seq<MarkRow>)
    requires AreBursts(deploys, chains) && IsChain(c)
    requires chains != [] ==> chains[|chains| - 1] != [] && Apart(chains[|chains| - 1], c)
    ensures AreBursts(deploys + c, chains + [c])
  {
    var more := chains + [c];
    assert more[..|chains|] == chains;
  }

  lemma ChainGrows(c: seq<MarkRow>, d: MarkRow)
    requires IsChain(c) && d.at - c[|c| - 1].at < BURST
    ensures IsChain(c + [d])
  {
  }

  lemma LastChainIs(deploys: seq<MarkRow>, chains: seq<seq<MarkRow>>)
    requires AreBursts(deploys, chains) && chains != []
    ensures var c := chains[|chains| - 1];
            IsChain(c) && deploys == Flatten(chains[..|chains| - 1]) + c
            && (|chains| > 1 ==> chains[|chains| - 2] != [] && Apart(chains[|chains| - 2], c))
  {
    if |chains| > 1 {
      var k := |chains| - 2;
      var l := k + 1;
      assert IsChain(chains[k]) && Apart(chains[k], chains[l]);
    }
  }

  lemma BurstsOneMore(deploys: seq<MarkRow>, chains: seq<seq<MarkRow>>, d: MarkRow)
    requires AreBursts(deploys, chains)
    ensures AreBursts(deploys + [d], OneMore(chains, d))
  {
    hide AreBursts, IsChain, Flatten;
    BurstsAreNotEmpty(deploys, chains);
    OneIsAChain(d);
    if chains == [] {
      BurstsSnoc(deploys, chains, [d]);
    } else {
      var rest, c := chains[..|chains| - 1], chains[|chains| - 1];
      LastChainIs(deploys, chains);
      if d.at - c[|c| - 1].at < BURST {
        BurstsButLast(deploys, chains);
        ChainGrows(c, d);
        BurstsSnoc(Flatten(rest), rest, c + [d]);
        assert Flatten(rest) + (c + [d]) == deploys + [d];
      } else {
        BurstsSnoc(deploys, chains, [d]);
      }
    }
  }

  lemma OneIsAChain(d: MarkRow)
    ensures IsChain([d])
  {
  }

  // ----- the whole list -----

  function Releases(rows: seq<MarkRow>): seq<Mark> {
    seq(|rows|, i requires 0 <= i < |rows| => Mark(Release, rows[i].at, ReleaseLabel(rows[i].name), None))
  }

  function Incidents(rows: seq<MarkRow>): seq<Mark> {
    seq(|rows|, i requires 0 <= i < |rows| => Mark(Incident, rows[i].at, rows[i].name, rows[i].until))
  }

  predicate Sorted(s: seq<Mark>) {
    forall i, j :: 0 <= i < j < |s| ==> s[i].at <= s[j].at
  }

  /** The marks at one time, in list order. */
  function AtTime(s: seq<Mark>, t: int): seq<Mark> {
    if s == [] then []
    else AtTime(s[..|s| - 1], t) + (if s[|s| - 1].at == t then [s[|s| - 1]] else [])
  }

  ghost predicate IsStableSort(list: seq<Mark>, s: seq<Mark>) {
    Sorted(s) && multiset(s) == multiset(list) && forall t :: AtTime(s, t) == AtTime(list, t)
  }

  lemma NothingToSort()
    ensures IsStableSort([], [])
  {
  }

  /** slices.SortStableFunc: each mark goes after those not later than it. */
  method SortStable(list: seq<Mark>) returns (s: seq<Mark>)
    ensures IsStableSort(list, s)
  {
    hide IsStableSort;
    s := [];
    var i := 0;
    NothingToSort();
    while i < |list|
      invariant 0 <= i <= |list|
      invariant IsStableSort(list[..i], s)
    {
      var p := |s|;
      while p > 0 && s[p - 1].at > list[i].at
        invariant 0 <= p <= |s|
        invariant forall j :: p <= j < |s| ==> s[j].at > list[i].at
      {
        p := p - 1;
      }
      InsertKeepsStable(list[..i], s, list[i], p);
      assert list[..i + 1] == list[..i] + [list[i]];
      s := s[..p] + [list[i]] + s[p..];
      i := i + 1;
    }
    assert list[..i] == list;
  }

  lemma {:induction false} AtTimeConcat(a: seq<Mark>, b: seq<Mark>, t: int)
    ensures AtTime(a + b, t) == AtTime(a, t) + AtTime(b, t)
    decreases |b|
  {
    if b == [] {
      assert a + b == a;
    } else {
      assert (a + b)[..|a + b| - 1] == a + b[..|b| - 1];
      AtTimeConcat(a, b[..|b| - 1], t);
    }
  }

  lemma {:induction false} AtTimeNone(s: seq<Mark>, t: int)
    requires forall j :: 0 <= j < |s| ==> s[j].at != t
    ensures AtTime(s, t) == []
  {
    if s != [] {
      AtTimeNone(s[..|s| - 1], t);
    }
  }

  lemma InsertKeepsStable(list: seq<Mark>, s: seq<Mark>, m: Mark, p: nat)
    requires IsStableSort(list, s) && p <= |s|
    requires forall j :: p <= j < |s| ==> s[j].at > m.at
    requires p > 0 ==> s[p - 1].at <= m.at
    ensures IsStableSort(list + [m], s[..p] + [m] + s[p..])
  {
    hide AtTime, Sorted;
    var a, b := s[..p], s[p..];
    assert s == a + b;
    InsertKeepsSorted(s, m, p);
    assert multiset(a + [m] + b) == multiset(list + [m]);
    forall t ensures AtTime(a + [m] + b, t) == AtTime(list + [m], t) {
      AtTimeConcat(list, [m], t);
      InsertAtTime(a, b, m, t);
    }
  }

  lemma InsertKeepsSorted(s: seq<Mark>, m: Mark, p: nat)
    requires Sorted(s) && p <= |s|
    requires forall j :: p <= j < |s| ==> s[j].at > m.at
    requires p > 0 ==> s[p - 1].at <= m.at
    ensures Sorted(s[..p] + [m] + s[p..])
  {
  }

  lemma InsertAtTime(a: seq<Mark>, b: seq<Mark>, m: Mark, t: int)
    requires forall j :: 0 <= j < |b| ==> b[j].at > m.at
    ensures AtTime(a + [m] + b, t) == AtTime(a + b, t) + AtTime([m], t)
  {
    hide AtTime;
    AtTimeConcat(a, b, t);
    AtTimeConcat(a + [m], b, t);
    AtTimeConcat(a, [m], t);
    if t == m.at {
      AtTimeNone(b, t);
    } else {
      AtTimeNone([m], t);
    }
    SwapEmpty(AtTime(a, t), AtTime([m], t), AtTime(b, t));
  }

  lemma SwapEmpty(x: seq<Mark>, y: seq<Mark>, z: seq<Mark>)
    ensures y == [] || z == [] ==> x + y + z == x + z + y
  {
  }

  /** A stable sort by time has only one possible outcome. */
  lemma StableSortIsUnique(list: seq<Mark>, a: seq<Mark>, b: seq<Mark>)
    requires IsStableSort(list, a) && IsStableSort(list, b)
    ensures a == b
  {
    SameTimesSameList(a, b);
  }

  lemma {:induction false} AtTimeIs(s: seq<Mark>, t: int)
    ensures forall m :: m in AtTime(s, t) ==> m in s && m.at == t
    ensures forall m :: m in s && m.at == t ==> m in AtTime(s, t)
  {
    if s != [] {
      AtTimeIs(s[..|s| - 1], t);
      assert s == s[..|s| - 1] + [s[|s| - 1]];
    }
  }

  lemma SomeTime(a: seq<Mark>, b: seq<Mark>)
    requires forall t :: AtTime(a, t) == AtTime(b, t)
    ensures a != [] ==> b != []
  {
    if a != [] {
      assert AtTime(a, a[|a| - 1].at) == AtTime(b, a[|a| - 1].at);
    }
  }

  lemma {:induction false} SameTimesSameList(a: seq<Mark>, b: seq<Mark>)
    requires Sorted(a) && Sorted(b)
    requires forall t :: AtTime(a, t) == AtTime(b, t)
    ensures a == b
    decreases |a|
  {
    SomeTime(a, b);
    SomeTime(b, a);
    if a == [] {
    } else {
      var x, y := a[|a| - 1], b[|b| - 1];
      LastIsLatest(a, b);
      LastIsLatest(b, a);
      assert x.at == y.at;
      var t := x.at;
      var at := AtTime(a, t);
      assert at[|at| - 1] == x && at[|at| - 1] == y;
      var ra, rb := a[..|a| - 1], b[..|b| - 1];
      forall u ensures AtTime(ra, u) == AtTime(rb, u) {
        ButLast(AtTime(a, u), AtTime(ra, u), AtTime(rb, u), x, u == t);
      }
      SameTimesSameList(a[..|a| - 1], b[..|b| - 1]);
      assert a == a[..|a| - 1] + [x] && b == b[..|b| - 1] + [y];
    }
  }

  lemma ButLast(all: seq<Mark>, a: seq<Mark>, b: seq<Mark>, x: Mark, more: bool)
    requires all == a + (if more then [x] else []) == b + (if more then [x] else [])
    ensures a == b
  {
    var n := if more then |all| - 1 else |all|;
    assert all[..n] == a && all[..n] == b;
  }

  lemma LastIsLatest(a: seq<Mark>, b: seq<Mark>)
    requires a != [] && b != [] && Sorted(b)
    requires forall t :: AtTime(a, t) == AtTime(b, t)
    ensures a[|a| - 1].at <= b[|b| - 1].at
  {
    var x := a[|a| - 1];
    AtTimeIs(a, x.at);
    AtTimeIs(b, x.at);
    assert x in AtTime(a, x.at);
    var i :| 0 <= i < |b| && b[i] == x;
  }

  /** Every read's rows before the sort: deploys as one mark a burst, then releases, then incidents. */
  function Listed(chains: seq<seq<MarkRow>>, releases: seq<MarkRow>, incidents: seq<MarkRow>): seq<Mark>
    requires forall k :: 0 <= k < |chains| ==> chains[k] != []
  {
    ChainMarks(chains) + Releases(releases) + Incidents(incidents)
  }

  /** Every read's rows are in the answer, deploys as one mark a burst, stably sorted by time. */
  method BuildMarks(deploys: seq<MarkRow>, releases: seq<MarkRow>, incidents: seq<MarkRow>)
    returns (out: seq<Mark>)
    ensures IsStableSort(Listed(Bursts(deploys), releases, incidents), out)
  {
    out := FoldDeploys(deploys);
    var i := 0;
    while i < |releases|
      invariant 0 <= i <= |releases|
      invariant out == ChainMarks(Bursts(deploys)) + Releases(releases[..i])
    {
      assert Releases(releases[..i + 1]) == Releases(releases[..i]) + [Releases(releases)[i]];
      out := out + [Mark(Release, releases[i].at, ReleaseLabel(releases[i].name), None)];
      i := i + 1;
    }
    assert releases[..i] == releases;
    var k := 0;
    while k < |incidents|
      invariant 0 <= k <= |incidents|
      invariant out == ChainMarks(Bursts(deploys)) + Releases(releases) + Incidents(incidents[..k])
    {
      assert Incidents(incidents[..k + 1]) == Incidents(incidents[..k]) + [Incidents(incidents)[k]];
      out := out + [Mark(Incident, incidents[k].at, incidents[k].name, incidents[k].until)];
      k := k + 1;
    }
    assert incidents[..k] == incidents;
    out := SortStable(out);
  }

  predicate IsReleaseMark(m: Mark, row: MarkRow) {
    m.kind == Release && m.at == row.at && m.until == None && m.text == ReleaseLabel(row.name)
  }

  predicate IsIncidentMark(m: Mark, row: MarkRow) {
    m.kind == Incident && m.at == row.at && m.until == row.until && m.text == row.name
  }

  predicate IsReleased(out: seq<Mark>, row: MarkRow) {
    exists m :: m in out && IsReleaseMark(m, row)
  }

  predicate IsReported(out: seq<Mark>, row: MarkRow) {
    exists m :: m in out && IsIncidentMark(m, row)
  }

  /** The mark stands for a burst, a release or an incident of these. */
  ghost predicate StandsFor(m: Mark, chains: seq<seq<MarkRow>>, releases: seq<MarkRow>, incidents: seq<MarkRow>)
    requires forall k :: 0 <= k < |chains| ==> chains[k] != []
  {
    match m.kind
    case Deploy => exists k :: 0 <= k < |chains| && m == ChainMark(chains[k])
    case Release => exists i :: 0 <= i < |releases| && IsReleaseMark(m, releases[i])
    case Incident => exists i :: 0 <= i < |incidents| && IsIncidentMark(m, incidents[i])
  }

  lemma ListedAt(chains: seq<seq<MarkRow>>, releases: seq<MarkRow>, incidents: seq<MarkRow>, n: nat)
    requires forall k :: 0 <= k < |chains| ==> chains[k] != []
    requires n < |chains| + |releases| + |incidents|
    ensures |Listed(chains, releases, incidents)| == |chains| + |releases| + |incidents|
    ensures var m := Listed(chains, releases, incidents)[n];
            StandsFor(m, chains, releases, incidents)
            && if n < |chains| then m == ChainMark(chains[n])
               else if n < |chains| + |releases| then IsReleaseMark(m, releases[n - |chains|])
               else IsIncidentMark(m, incidents[n - |chains| - |releases|])
  {
    hide ChainMark, ReleaseLabel;
    var m := Listed(chains, releases, incidents)[n];
    if n < |chains| {
      assert m == ChainMark(chains[n]) && m.kind == Deploy by {
        ChainMarkKind(chains[n]);
      }
    } else if n < |chains| + |releases| {
      assert IsReleaseMark(m, releases[n - |chains|]);
    } else {
      assert IsIncidentMark(m, incidents[n - |chains| - |releases|]);
    }
  }

  lemma ChainMarkKind(c: seq<MarkRow>)
    requires c != []
    ensures ChainMark(c).kind == Deploy
  {
  }

  lemma ListedLength(chains: seq<seq<MarkRow>>, releases: seq<MarkRow>, incidents: seq<MarkRow>)
    requires forall k :: 0 <= k < |chains| ==> chains[k] != []
    ensures |Listed(chains, releases, incidents)| == |chains| + |releases| + |incidents|
  {
  }

  /** The answer holds one mark for each burst, each release and each incident, and nothing else. */
  lemma EveryRowIsMarked(chains: seq<seq<MarkRow>>, releases: seq<MarkRow>, incidents: seq<MarkRow>, out: seq<Mark>)
    requires forall k :: 0 <= k < |chains| ==> chains[k] != []
    requires IsStableSort(Listed(chains, releases, incidents), out)
    ensures |out| == |chains| + |releases| + |incidents|
    ensures forall k :: 0 <= k < |chains| ==> ChainMark(chains[k]) in out
    ensures forall i :: 0 <= i < |releases| ==> IsReleased(out, releases[i])
    ensures forall i :: 0 <= i < |incidents| ==> IsReported(out, incidents[i])
    ensures forall m :: m in out ==> StandsFor(m, chains, releases, incidents)
  {
    hide *;
    var list := Listed(chains, releases, incidents);
    SameMembers(list, out);
    ListedLength(chains, releases, incidents);
    forall n | 0 <= n < |list| ensures list[n] in out {
      assert list[n] in list;
    }
    forall k | 0 <= k < |chains| ensures ChainMark(chains[k]) in out {
      ListedAt(chains, releases, incidents, k);
    }
    forall i | 0 <= i < |releases| ensures IsReleased(out, releases[i]) {
      ListedAt(chains, releases, incidents, |chains| + i);
      MarkIn(out, list[|chains| + i], releases[i]);
    }
    forall i | 0 <= i < |incidents| ensures IsReported(out, incidents[i]) {
      ListedAt(chains, releases, incidents, |chains| + |releases| + i);
      MarkIn(out, list[|chains| + |releases| + i], incidents[i]);
    }
    forall m | m in out ensures StandsFor(m, chains, releases, incidents) {
      var n :| 0 <= n < |list| && list[n] == m;
      ListedAt(chains, releases, incidents, n);
    }
  }

  lemma MarkIn(out: seq<Mark>, m: Mark, row: MarkRow)
    requires m in out
    ensures IsReleaseMark(m, row) ==> IsReleased(out, row)
    ensures IsIncidentMark(m, row) ==> IsReported(out, row)
  {
  }

  lemma SameMembers(list: seq<Mark>, out: seq<Mark>)
    requires IsStableSort(list, out)
    ensures |out| == |list| && forall m :: m in out <==> m in list
  {
    hide AtTime, Sorted;
    assert |multiset(out)| == |multiset(list)|;
    forall m ensures m in out <==> m in list {
      assert m in multiset(out) <==> m in multiset(list);
    }
  }

  // ----- the window the marks are read over -----

  function MarksRange(name: string): Range
    requires name in RANGES
  {
    if RANGES[name].step >= 3600 then Rebucket(RANGES[name], "hour") else RANGES[name]
  }

  /**
   Whichever bucket draws a range, its chart starts no earlier than the marks' window, so
   what happened inside the chart so far is in the answer, all but the last second of it.
   */
  lemma MarksCoverEveryChart(name: string, bucket: string, now: nat)
    requires name in RANGES && (bucket == "" || (bucket in BUCKET_STEPS && 2 <= Rebucket(RANGES[name], bucket).buckets))
    ensures var (from, to) := Window(MarksRange(name), now);
            var (start, end) := Window(Rebucket(RANGES[name], bucket), now);
            from <= start && to <= end && now < to + Rollup.SECOND
  {
    var k := StepsDivide(name, bucket);
    WindowsNest(MarksRange(name), Rebucket(RANGES[name], bucket), k, now);
  }

  lemma StepsDivide(name: string, bucket: string) returns (k: nat)
    requires name in RANGES && (bucket == "" || (bucket in BUCKET_STEPS && 2 <= Rebucket(RANGES[name], bucket).buckets))
    ensures var fine, chart := MarksRange(name), Rebucket(RANGES[name], bucket);
            fine.step > 0 && chart.step == k * fine.step && k > 0
            && fine.step * fine.buckets == chart.step * chart.buckets
  {
    k := Rebucket(RANGES[name], bucket).step / MarksRange(name).step;
  }

  lemma WindowsNest(fine: Range, chart: Range, k: nat, now: nat)
    requires fine.step > 0 && k > 0 && chart.step == k * fine.step > 0
    requires fine.step * fine.buckets == chart.step * chart.buckets
    ensures var (from, to) := Window(fine, now);
            var (start, end) := Window(chart, now);
            from <= start && to <= end && now < to + Rollup.SECOND
  {
    var unix := now / Rollup.SECOND;
    RoundUp(unix, fine.step);
    RoundUp(unix, chart.step);
    var m := (unix + chart.step - 1) / chart.step;
    assert (m * k) * fine.step == m * chart.step;
    var n := (unix + fine.step - 1) / fine.step;
    assert n * fine.step <= m * chart.step;
  }
}

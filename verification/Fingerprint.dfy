/**
 The message mask behind error fingerprints (back/internal/ingest/fingerprint.go).

 `MaskMessage` is the scanner with its indices and its builder; `Mask` is the
 same template read one token at a time.  The theorems are about `Mask`: it does
 not see the variable part of a message, it is idempotent, and it never grows a
 message past one and a half times its length.
 */
module Fingerprint {

  newtype byte = x: int | 0 <= x < 256

  const NEWLINE: byte := 10
  const DOUBLE_QUOTE: byte := 34
  const HASH: byte := 35
  const SINGLE_QUOTE: byte := 39
  const QUESTION: byte := 63

  predicate IsQuote(c: byte) {
    c == DOUBLE_QUOTE || c == SINGLE_QUOTE
  }

  predicate IsDigit(c: byte) {
    48 <= c <= 57
  }

  predicate IsHex(c: byte) {
    IsDigit(c) || 97 <= c <= 102 || 65 <= c <= 70
  }

  function Byte(c: char): byte
    requires c as int < 256
  {
    c as int as byte
  }

  /** The bytes the scanner looks at, as characters. */
  lemma BytesAre(c: char)
    requires c as int < 256
    ensures IsQuote(Byte(c)) <==> c == '"' || c == '\''
    ensures IsHex(Byte(c)) <==> c in "0123456789abcdefABCDEF"
    ensures NEWLINE == Byte('\n') && HASH == Byte('#') && QUESTION == Byte('?')
  {
    var all := "0123456789abcdefABCDEF";
    assert all[0] == '0' && all[1] == '1' && all[2] == '2' && all[3] == '3' && all[4] == '4';
    assert all[5] == '5' && all[6] == '6' && all[7] == '7' && all[8] == '8' && all[9] == '9';
    assert all[10] == 'a' && all[11] == 'b' && all[12] == 'c' && all[13] == 'd' && all[14] == 'e' && all[15] == 'f';
    assert all[16] == 'A' && all[17] == 'B' && all[18] == 'C' && all[19] == 'D' && all[20] == 'E' && all[21] == 'F';
  }

  predicate AllHex(s: seq<byte>) {
    forall i :: 0 <= i < |s| ==> IsHex(s[i])
  }

  predicate HasDigit(s: seq<byte>) {
    exists i :: 0 <= i < |s| && IsDigit(s[i])
  }

  /** A hex run the mask takes for an id rather than a word. */
  predicate IsId(run: seq<byte>) {
    run != [] && AllHex(run) && (|run| >= 8 || HasDigit(run))
  }

  // ----- tokens -----

  /** How far the scanner looks for the quote `c`: up to `c`, a newline or the end. */
  function Reach(s: seq<byte>, c: byte): (n: nat)
    ensures n <= |s|
    ensures forall k :: 0 <= k < n ==> s[k] != NEWLINE && s[k] != c
    ensures n < |s| ==> s[n] == NEWLINE || s[n] == c
  {
    if s == [] || s[0] == NEWLINE || s[0] == c then 0 else 1 + Reach(s[1..], c)
  }

  /** `c` occurs on the line that `s` begins with. */
  predicate Closes(s: seq<byte>, c: byte) {
    var n := Reach(s, c);
    n < |s| && s[n] == c
  }

  function HexPrefix(s: seq<byte>): (n: nat)
    ensures n <= |s|
    ensures AllHex(s[..n])
    ensures n < |s| ==> !IsHex(s[n])
  {
    if s == [] || !IsHex(s[0]) then 0
    else
      var n := 1 + HexPrefix(s[1..]);
      assert s[..n] == [s[0]] + s[1..][..n - 1];
      n
  }

  datatype Token = Token(length: nat, text: seq<byte>)

  /** The token `s` begins with, and what the template writes for it. */
  function First(s: seq<byte>): (t: Token)
    requires s != []
    ensures 1 <= t.length <= |s|
  {
    var c := s[0];
    if IsQuote(c) then
      if Closes(s[1..], c) then Token(Reach(s[1..], c) + 2, [c, QUESTION, c]) else Token(1, [c])
    else if IsHex(c) then
      var n := HexPrefix(s);
      Token(n, if IsId(s[..n]) then [HASH] else s[..n])
    else
      Token(1, [c])
  }

  function Mask(s: seq<byte>): seq<byte> {
    if s == [] then [] else First(s).text + Mask(s[First(s).length..])
  }

  method MaskMessage(msg: seq<byte>) returns (b: seq<byte>)
    ensures b == Mask(msg)
  {
    hide *;
    b := [];
    var i := 0;
    assert msg[0..] == msg;
    while i < |msg|
      invariant 0 <= i <= |msg|
      invariant b + Mask(msg[i..]) == Mask(msg)
    {
      var c := msg[i];
      ghost var before := b;
      if IsQuote(c) {
        var j := i + 1;
        while j < |msg| && msg[j] != NEWLINE && msg[j] != c
          invariant i + 1 <= j <= |msg|
          invariant forall k :: i + 1 <= k < j ==> msg[k] != NEWLINE && msg[k] != c
        {
          j := j + 1;
        }
        MaskAtQuote(msg, i, j);
        if j < |msg| && msg[j] == c {
          b := b + [c, QUESTION, c];
          i := j + 1;
          Assoc(before, [c, QUESTION, c], Mask(msg[i..]));
        } else {
          b := b + [c];
          i := i + 1;
          Assoc(before, [c], Mask(msg[i..]));
        }
      } else if IsHex(c) {
        var j := i;
        var digit := false;
        while j < |msg| && IsHex(msg[j])
          invariant i <= j <= |msg|
          invariant forall k :: i <= k < j ==> IsHex(msg[k])
          invariant digit <==> exists k :: i <= k < j && IsDigit(msg[k])
        {
          if IsDigit(msg[j]) {
            digit := true;
          }
          j := j + 1;
        }
        MaskAtHex(msg, i, j, digit);
        if j - i >= 8 || digit {
          b := b + [HASH];
          Assoc(before, [HASH], Mask(msg[j..]));
        } else {
          b := b + msg[i..j];
          Assoc(before, msg[i..j], Mask(msg[j..]));
        }
        i := j;
      } else {
        MaskAtOther(msg, i);
        b := b + [c];
        i := i + 1;
        Assoc(before, [c], Mask(msg[i..]));
      }
    }
    MaskOfNothing(msg[i..]);
  }

  lemma MaskOfNothing(s: seq<byte>)
    requires s == []
    ensures Mask(s) == []
  {
  }

  lemma Assoc(a: seq<byte>, b: seq<byte>, c: seq<byte>)
    ensures (a + b) + c == a + (b + c)
  {
  }

  lemma MaskAtQuote(msg: seq<byte>, i: nat, j: nat)
    requires i < j <= |msg| && IsQuote(msg[i])
    requires forall k :: i + 1 <= k < j ==> msg[k] != NEWLINE && msg[k] != msg[i]
    requires j < |msg| ==> msg[j] == NEWLINE || msg[j] == msg[i]
    ensures Mask(msg[i..]) == if j < |msg| && msg[j] == msg[i]
                              then [msg[i], QUESTION, msg[i]] + Mask(msg[j + 1..])
                              else [msg[i]] + Mask(msg[i + 1..])
  {
    hide Mask, First, Reach;
    FirstAtQuote(msg, i, j);
    MaskUnfolds(msg[i..]);
    assert msg[i..][1..] == msg[i + 1..];
    if j < |msg| {
      assert msg[i..][j + 1 - i..] == msg[j + 1..];
    }
  }

  lemma FirstAtQuote(msg: seq<byte>, i: nat, j: nat)
    requires i < j <= |msg| && IsQuote(msg[i])
    requires forall k :: i + 1 <= k < j ==> msg[k] != NEWLINE && msg[k] != msg[i]
    requires j < |msg| ==> msg[j] == NEWLINE || msg[j] == msg[i]
    ensures First(msg[i..]) == if j < |msg| && msg[j] == msg[i] then Token(j + 1 - i, [msg[i], QUESTION, msg[i]])
                               else Token(1, [msg[i]])
  {
    assert msg[i..][0] == msg[i] && msg[i..][1..] == msg[i + 1..];
    ReachIs(msg[i + 1..], msg[i], j - i - 1);
  }

  lemma MaskAtHex(msg: seq<byte>, i: nat, j: nat, digit: bool)
    requires i < j <= |msg|
    requires forall k :: i <= k < j ==> IsHex(msg[k])
    requires j < |msg| ==> !IsHex(msg[j])
    requires digit <==> exists k :: i <= k < j && IsDigit(msg[k])
    ensures Mask(msg[i..]) == (if j - i >= 8 || digit then [HASH] else msg[i..j]) + Mask(msg[j..])
  {
    hide Mask;
    HexPrefixIs(msg[i..], j - i);
    assert msg[i..][..j - i] == msg[i..j] && msg[i..][j - i..] == msg[j..];
    MaskUnfolds(msg[i..]);
    if digit {
      var k :| i <= k < j && IsDigit(msg[k]);
      assert IsDigit(msg[i..j][k - i]);
    }
    assert IsHex(msg[i]) && !IsQuote(msg[i]);
  }

  lemma MaskUnfolds(s: seq<byte>)
    requires s != []
    ensures Mask(s) == First(s).text + Mask(s[First(s).length..])
  {
  }

  lemma MaskAtOther(msg: seq<byte>, i: nat)
    requires i < |msg| && !IsQuote(msg[i]) && !IsHex(msg[i])
    ensures Mask(msg[i..]) == [msg[i]] + Mask(msg[i + 1..])
  {
    assert msg[i..][1..] == msg[i + 1..];
  }

  lemma {:induction false} ReachIs(s: seq<byte>, c: byte, n: nat)
    requires n <= |s|
    requires forall k :: 0 <= k < n ==> s[k] != NEWLINE && s[k] != c
    requires n < |s| ==> s[n] == NEWLINE || s[n] == c
    ensures Reach(s, c) == n
  {
    if n > 0 {
      ReachIs(s[1..], c, n - 1);
    }
  }

  lemma {:induction false} HexPrefixIs(s: seq<byte>, n: nat)
    requires n <= |s|
    requires forall k :: 0 <= k < n ==> IsHex(s[k])
    requires n < |s| ==> !IsHex(s[n])
    ensures HexPrefix(s) == n
  {
    if n > 0 {
      HexPrefixIs(s[1..], n - 1);
    }
  }

  // ----- the variable part -----

  predicate EndsOutsideHex(a: seq<byte>) {
    a != [] ==> !IsHex(a[|a| - 1])
  }

  predicate StartsOutsideHex(b: seq<byte>) {
    b != [] ==> !IsHex(b[0])
  }

  /** Two messages that differ in one id share their template, quoted or not. */
  lemma MaskIgnoresId(a: seq<byte>, r1: seq<byte>, r2: seq<byte>, b: seq<byte>)
    requires IsId(r1) && IsId(r2)
    requires EndsOutsideHex(a) && StartsOutsideHex(b)
    ensures Mask(a + r1 + b) == Mask(a + r2 + b)
  {
    hide *;
    MaskIgnoresIdAfter(a, r1, r2, b);
    assert a + r1 + b == a + (r1 + b) && a + r2 + b == a + (r2 + b);
  }

  lemma {:induction false} MaskIgnoresIdAfter(a: seq<byte>, r1: seq<byte>, r2: seq<byte>, b: seq<byte>)
    requires IsId(r1) && IsId(r2)
    requires EndsOutsideHex(a) && StartsOutsideHex(b)
    ensures Mask(a + (r1 + b)) == Mask(a + (r2 + b))
    decreases |a|
  {
    if a == [] {
      MaskOfId(r1, b);
      MaskOfId(r2, b);
      assert a + (r1 + b) == r1 + b && a + (r2 + b) == r2 + b;
    } else if IsQuote(a[0]) && Reach(a[1..], a[0]) == |a| - 1 && Closes(b, a[0]) {
      MaskSwallows(a, r1, b);
      MaskSwallows(a, r2, b);
    } else {
      SettledBeforeId(a, r1, b);
      SettledBeforeId(a, r2, b);
      MaskIgnoresIdAfter(a[First(a).length..], r1, r2, b);
    }
  }

  lemma SettledBeforeId(a: seq<byte>, r: seq<byte>, b: seq<byte>)
    requires a != [] && IsId(r) && EndsOutsideHex(a)
    requires !(IsQuote(a[0]) && Reach(a[1..], a[0]) == |a| - 1 && Closes(b, a[0]))
    ensures Mask(a + (r + b)) == First(a).text + Mask(a[First(a).length..] + (r + b))
    ensures EndsOutsideHex(a[First(a).length..])
  {
    if IsQuote(a[0]) {
      ClosesAfter(r, b, a[0]);
    } else if IsHex(a[0]) {
      assert IsHex(a[..HexPrefix(a)][HexPrefix(a) - 1]);
    }
    MaskSettled(a, r + b);
  }

  /** A quote still open at the end of `a` takes the id with it when `b` closes it. */
  lemma MaskSwallows(a: seq<byte>, r: seq<byte>, b: seq<byte>)
    requires a != [] && IsQuote(a[0]) && Reach(a[1..], a[0]) == |a| - 1 && Closes(b, a[0])
    requires AllHex(r)
    ensures Mask(a + (r + b)) == [a[0], QUESTION, a[0]] + Mask(b[Reach(b, a[0]) + 1..])
  {
    hide Mask;
    var s := a + (r + b);
    assert s[1..] == a[1..] + r + b;
    MaskUnfolds(s);
    ReachPast(a[1..], r, b, a[0]);
    assert s[|a| + |r| + Reach(b, a[0]) + 1..] == b[Reach(b, a[0]) + 1..];
  }

  lemma MaskOfId(r: seq<byte>, b: seq<byte>)
    requires IsId(r) && StartsOutsideHex(b)
    ensures Mask(r + b) == [HASH] + Mask(b)
  {
    var s := r + b;
    assert s[0] == r[0];
    HexPrefixIs(s, |r|);
    assert s[..|r|] == r && s[|r|..] == b;
  }

  /** Whether what follows `a` can no longer change `a`'s first token. */
  predicate Settled(a: seq<byte>, tail: seq<byte>) {
    a != []
    && (IsHex(a[0]) ==> HexPrefix(a) < |a| || StartsOutsideHex(tail))
    && (IsQuote(a[0]) ==> Reach(a[1..], a[0]) < |a| - 1 || !Closes(tail, a[0]))
  }

  lemma FirstSettled(a: seq<byte>, tail: seq<byte>)
    requires Settled(a, tail)
    ensures First(a + tail) == First(a)
  {
    var s, c := a + tail, a[0];
    assert s[0] == c;
    if IsQuote(c) {
      assert s[1..] == a[1..] + tail;
      if Reach(a[1..], c) < |a| - 1 {
        ReachIs(s[1..], c, Reach(a[1..], c));
      } else {
        ClosesAfter(a[1..], tail, c);
      }
    } else if IsHex(c) {
      var n := HexPrefix(a);
      HexPrefixIs(s, n);
      assert s[..n] == a[..n];
    }
  }

  lemma MaskSettled(a: seq<byte>, tail: seq<byte>)
    requires Settled(a, tail)
    ensures Mask(a + tail) == First(a).text + Mask(a[First(a).length..] + tail)
  {
    FirstSettled(a, tail);
    assert (a + tail)[First(a).length..] == a[First(a).length..] + tail;
  }

  lemma ReachPast(q: seq<byte>, r: seq<byte>, b: seq<byte>, c: byte)
    requires IsQuote(c) && AllHex(r) && Reach(q, c) == |q|
    ensures Reach(q + r + b, c) == |q| + |r| + Reach(b, c)
    ensures Closes(q + r + b, c) == Closes(b, c)
  {
    ReachIs(q + r + b, c, |q| + |r| + Reach(b, c));
  }

  /** The scan of `s` comes to rest at position `n`: no token straddles it. */
  predicate Rests(s: seq<byte>, n: nat)
    requires n <= |s|
  {
    n == 0 || (First(s).length <= n && Rests(s[First(s).length..], n - First(s).length))
  }

  /** A first token that ends within `a` is `a`'s own first token. */
  lemma FirstWithin(a: seq<byte>, tail: seq<byte>)
    requires a != [] && First(a + tail).length <= |a| && StartsOutsideHex(tail)
    ensures First(a + tail) == First(a)
  {
    var s, c := a + tail, a[0];
    assert s[0] == c && s[1..] == a[1..] + tail;
    if IsQuote(c) {
      var n := Reach(a[1..], c);
      if n < |a| - 1 {
        ReachIs(s[1..], c, n);
      } else {
        ReachIs(s[1..], c, |a| - 1 + Reach(tail, c));
      }
    } else if IsHex(c) {
      HexPrefixIs(s, HexPrefix(a));
      assert s[..HexPrefix(a)] == a[..HexPrefix(a)];
    }
  }

  /** Where the scan comes to rest, the template is the two templates put together. */
  lemma {:induction false} MaskSplits(a: seq<byte>, tail: seq<byte>)
    requires StartsOutsideHex(tail) && Rests(a + tail, |a|)
    ensures Mask(a + tail) == Mask(a) + Mask(tail)
    decreases |a|
  {
    hide Mask, First;
    if a == [] {
      MaskOfNothing(a);
      assert a + tail == tail && [] + Mask(tail) == Mask(tail);
    } else {
      var t := First(a);
      FirstWithin(a, tail);
      assert (a + tail)[t.length..] == a[t.length..] + tail;
      MaskSplits(a[t.length..], tail);
      MaskUnfolds(a);
      MaskUnfolds(a + tail);
      Assoc(t.text, Mask(a[t.length..]), Mask(tail));
    }
  }

  predicate IsQuoted(q: seq<byte>) {
    |q| >= 2 && IsQuote(q[0]) && q[|q| - 1] == q[0]
    && forall k :: 1 <= k < |q| - 1 ==> q[k] != q[0] && q[k] != NEWLINE
  }

  /**
   What a quoted string says never reaches the template, whatever precedes or follows it, as
   long as the scan does not come to its opening quote inside another token; and the scan
   rests again behind it, so the next quoted string on the line is covered too.
   */
  lemma MaskIgnoresQuotedText(a: seq<byte>, q: seq<byte>, b: seq<byte>)
    requires IsQuoted(q) && Rests(a + (q + b), |a|)
    ensures Mask(a + (q + b)) == Mask(a) + ([q[0], QUESTION, q[0]] + Mask(b))
    ensures Rests(a + (q + b), |a| + |q|)
  {
    hide Mask, First, Rests;
    FirstOfQuoted(q, b);
    MaskUnfolds(q + b);
    MaskSplits(a, q + b);
    RestsOn(a, q + b);
  }

  lemma FirstOfQuoted(q: seq<byte>, b: seq<byte>)
    requires IsQuoted(q)
    ensures First(q + b) == Token(|q|, [q[0], QUESTION, q[0]]) && (q + b)[|q|..] == b
    ensures StartsOutsideHex(q + b)
  {
    var tail := q + b;
    assert tail[0] == q[0] && tail[1..] == q[1..] + b;
    ReachIs(tail[1..], q[0], |q| - 2);
  }

  /** A rest, and one token on from it. */
  lemma {:induction false} RestsOn(a: seq<byte>, tail: seq<byte>)
    requires tail != [] && Rests(a + tail, |a|)
    ensures Rests(a + tail, |a| + First(tail).length)
    decreases |a|
  {
    hide First;
    if a == [] {
      assert a + tail == tail;
      assert Rests(tail[First(tail).length..], 0);
    } else {
      var s := a + tail;
      var n := First(s).length;
      assert s[n..] == a[n..] + tail;
      RestsOn(a[n..], tail);
    }
  }

  /** Without a quote before it the scan always rests at one. */
  lemma {:induction false} PlainTextRests(a: seq<byte>, tail: seq<byte>)
    requires StartsOutsideHex(tail) && forall k :: 0 <= k < |a| ==> !IsQuote(a[k])
    ensures Rests(a + tail, |a|)
    decreases |a|
  {
    if a == [] {
    } else {
      assert Settled(a, tail);
      FirstSettled(a, tail);
      var n := First(a).length;
      assert (a + tail)[n..] == a[n..] + tail;
      PlainTextRests(a[n..], tail);
    }
  }

  // ----- idempotence -----

  /** Text without newline and without `c` does not decide whether `c` closes. */
  lemma ClosesAfter(p: seq<byte>, s: seq<byte>, c: byte)
    requires forall k :: 0 <= k < |p| ==> p[k] != NEWLINE && p[k] != c
    ensures Closes(p + s, c) == Closes(s, c)
  {
    ReachIs(p + s, c, |p| + Reach(s, c));
  }

  /** A token is one newline, or holds none; and it writes only what it read, '?' or '#'. */
  lemma TokenText(s: seq<byte>)
    requires s != []
    ensures s[0] == NEWLINE ==> First(s) == Token(1, [NEWLINE])
    ensures s[0] != NEWLINE ==> forall k :: 0 <= k < First(s).length ==> s[k] != NEWLINE
    ensures forall k :: 0 <= k < |First(s).text| ==>
              First(s).text[k] in s[..First(s).length] || First(s).text[k] == QUESTION || First(s).text[k] == HASH
  {
    var t := First(s);
    if IsHex(s[0]) {
      assert forall k :: 0 <= k < t.length ==> s[k] == s[..t.length][k];
    } else if IsQuote(s[0]) && Closes(s[1..], s[0]) {
      assert forall k :: 1 <= k < t.length ==> s[k] == s[1..][k - 1];
      assert s[..t.length][0] == s[0];
    } else {
      assert s[..t.length][0] == s[0];
    }
  }

  /** A lone quote stays lone on its line after masking. */
  lemma {:induction false} LoneStaysLone(s: seq<byte>, c: byte)
    requires IsQuote(c) && !Closes(s, c)
    ensures !Closes(Mask(s), c)
    decreases |s|
  {
    if s != [] && s[0] != NEWLINE {
      var t := First(s);
      var p, rest := s[..t.length], s[t.length..];
      assert s == p + rest;
      TokenText(s);
      forall k | 0 <= k < |p| ensures p[k] != NEWLINE && p[k] != c {
        if p[k] == c {
          var n := Reach(s, c);
          assert false;
        }
      }
      ClosesAfter(p, rest, c);
      LoneStaysLone(rest, c);
      forall k | 0 <= k < |t.text| ensures t.text[k] != NEWLINE && t.text[k] != c {
        if t.text[k] in p {
          var j :| 0 <= j < |p| && p[j] == t.text[k];
        }
      }
      ClosesAfter(t.text, Mask(rest), c);
    } else if s != [] {
      TokenText(s);
      assert Mask(s)[0] == NEWLINE;
    }
  }

  lemma MaskStartsOutsideHex(s: seq<byte>)
    requires StartsOutsideHex(s)
    ensures StartsOutsideHex(Mask(s))
  {
    if s != [] {
      assert First(s).text[0] == s[0];
    }
  }

  /** Written text is read back as one token that writes itself. */
  lemma FirstOfMask(s: seq<byte>)
    requires s != []
    ensures var t := First(s); var rest := Mask(s[t.length..]);
            t.text != [] && First(t.text + rest) == Token(|t.text|, t.text)
  {
    var t := First(s);
    var tail := s[t.length..];
    var rest := Mask(tail);
    var m := t.text + rest;
    var c := s[0];
    if IsQuote(c) {
      if Closes(s[1..], c) {
        ReachIs(m[1..], c, 1);
      } else {
        assert tail == s[1..] && m[1..] == rest;
        LoneStaysLone(tail, c);
      }
    } else if IsHex(c) {
      MaskStartsOutsideHex(tail);
      if !IsId(s[..t.length]) {
        HexPrefixIs(m, t.length);
        assert m[..t.length] == t.text;
      }
    }
  }

  lemma {:induction false} MaskIsIdempotent(s: seq<byte>)
    ensures Mask(Mask(s)) == Mask(s)
    decreases |s|
  {
    if s != [] {
      var t := First(s);
      var rest := Mask(s[t.length..]);
      FirstOfMask(s);
      assert (t.text + rest)[|t.text|..] == rest;
      MaskIsIdempotent(s[t.length..]);
    }
  }

  /** The worst case is `""`, which becomes `"?"`. */
  lemma {:induction false} MaskLength(s: seq<byte>)
    ensures 2 * |Mask(s)| <= 3 * |s|
    ensures s != [] ==> Mask(s) != []
    decreases |s|
  {
    if s != [] {
      MaskLength(s[First(s).length..]);
    }
  }
}

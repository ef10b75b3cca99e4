/**
 Which Telegram destinations a plan silences at delivery time
 (back/internal/incident/incident.go:282-337).

 The loop hands out seats greedily.  The specification does not: it lists the seat
 keys in the order they first appear and says who is among the first `seats` of them.
 */
module Seats {
  import opened Outcomes

  /** Rows come oldest first.  `person` is the linked recipient; a group or channel has none. */
  datatype Channel = Channel(id: int, telegram: bool, person: Option<int>)

  predicate Eligible(ch: Channel, rooms: bool) {
    ch.telegram && (ch.person.Some? || rooms)
  }

  /** One seat per person, one per room; a room's key is its own id, negated. */
  function SeatKey(ch: Channel): int {
    if ch.person.Some? then ch.person.value else -ch.id
  }

  /** The distinct eligible seat keys, by first appearance. */
  function Keys(chans: seq<Channel>, rooms: bool): (keys: seq<int>)
    ensures forall i, j :: 0 <= i < j < |keys| ==> keys[i] != keys[j]
    ensures forall k :: k in keys
                        <==> exists i :: 0 <= i < |chans| && Eligible(chans[i], rooms) && SeatKey(chans[i]) == k
  {
    if chans == [] then []
    else
      var last := chans[|chans| - 1];
      var rest := chans[..|chans| - 1];
      var keys := Keys(rest, rooms);
      assert forall i :: 0 <= i < |rest| ==> rest[i] == chans[i];
      if Eligible(last, rooms) && SeatKey(last) !in keys then keys + [SeatKey(last)] else keys
  }

  function Taken(keys: seq<int>, seats: int): seq<int> {
    if seats <= 0 then [] else if seats >= |keys| then keys else keys[..seats]
  }

  /** The channel is delivered: its key is among the first `seats` distinct eligible keys. */
  predicate Delivered(chans: seq<Channel>, seats: int, rooms: bool, ch: Channel) {
    Eligible(ch, rooms) && SeatKey(ch) in Taken(Keys(chans, rooms), seats)
  }

  predicate DistinctIds(chans: seq<Channel>) {
    forall i, j :: 0 <= i < j < |chans| ==> chans[i].id != chans[j].id
  }

  /** The loop's set of seats, after these channels, is the specification's. */
  ghost predicate HeldAgrees(chans: seq<Channel>, seats: int, rooms: bool, held: set<int>) {
    var taken := Taken(Keys(chans, rooms), seats);
    (forall k :: k in held <==> k in taken) && |held| == |taken|
  }

  /** The muted destinations are the Telegram ones the specification does not deliver to. */
  ghost predicate MutedAgrees(chans: seq<Channel>, seats: int, rooms: bool, muted: set<int>) {
    (forall i :: 0 <= i < |chans| ==>
       (chans[i].id in muted <==> chans[i].telegram && !Delivered(chans, seats, rooms, chans[i])))
    && forall id :: id in muted ==> exists i :: 0 <= i < |chans| && chans[i].id == id
  }

  method MutedTelegram(chans: seq<Channel>, seats: int, rooms: bool) returns (muted: set<int>, held: set<int>)
    requires DistinctIds(chans)
    ensures HeldAgrees(chans, seats, rooms, held) && MutedAgrees(chans, seats, rooms, muted)
    ensures |held| == if seats <= 0 then 0 else if seats < |Keys(chans, rooms)| then seats else |Keys(chans, rooms)|
  {
    hide *;
    muted, held := {}, {};
    var n := 0;
    AgreesAtStart(chans, seats, rooms);
    while n < |chans|
      invariant 0 <= n <= |chans|
      invariant HeldAgrees(chans[..n], seats, rooms, held)
      invariant MutedAgrees(chans[..n], seats, rooms, muted)
    {
      var ch := chans[n];
      ghost var mutedBefore, heldBefore := muted, held;
      if ch.telegram {
        if ch.person.None? && !rooms {
          muted := muted + {ch.id};
        } else {
          var seat := if ch.person.Some? then ch.person.value else -ch.id;
          if seat !in held {
            if |held| >= seats {
              muted := muted + {ch.id};
            } else {
              held := held + {seat};
            }
          }
        }
      }
      HeldAfter(chans, n, seats, rooms, heldBefore);
      MutedAfter(chans, n, seats, rooms, mutedBefore, heldBefore);
      n := n + 1;
    }
    assert chans[..n] == chans;
    TakenLength(Keys(chans, rooms), seats);
    HeldLength(chans, seats, rooms, held);
  }

  lemma HeldLength(chans: seq<Channel>, seats: int, rooms: bool, held: set<int>)
    requires HeldAgrees(chans, seats, rooms, held)
    ensures |held| == |Taken(Keys(chans, rooms), seats)|
  {
  }

  lemma TakenLength(keys: seq<int>, seats: int)
    ensures |Taken(keys, seats)| == if seats <= 0 then 0 else if seats < |keys| then seats else |keys|
  {
  }

  lemma AgreesAtStart(chans: seq<Channel>, seats: int, rooms: bool)
    ensures HeldAgrees(chans[..0], seats, rooms, {}) && MutedAgrees(chans[..0], seats, rooms, {})
  {
  }

  /** What the loop body did to the seats with one channel keeps the agreement. */
  lemma HeldAfter(chans: seq<Channel>, n: nat, seats: int, rooms: bool, held: set<int>)
    requires n < |chans| && HeldAgrees(chans[..n], seats, rooms, held)
    ensures var ch := chans[n]; var seat := if ch.person.Some? then ch.person.value else -ch.id;
            HeldAgrees(chans[..n + 1], seats, rooms,
                       if ch.telegram && (ch.person.Some? || rooms) && seat !in held && |held| < seats
                       then held + {seat} else held)
  {
    hide Keys, Taken;
    assert chans[..n + 1] == chans[..n] + [chans[n]];
    TakenGrows(chans[..n], chans[n], seats, rooms);
  }

  /** The channel just read is delivered if its seat is held already or one is left. */
  lemma DeliveredLast(few: seq<Channel>, ch: Channel, seats: int, rooms: bool, held: set<int>)
    requires HeldAgrees(few, seats, rooms, held)
    ensures Delivered(few + [ch], seats, rooms, ch) <==> Eligible(ch, rooms) && (SeatKey(ch) in held || |held| < seats)
  {
    hide Keys, Taken;
    TakenGrows(few, ch, seats, rooms);
  }

  /** And so does what it did to the muted set. */
  lemma MutedAfter(chans: seq<Channel>, n: nat, seats: int, rooms: bool, muted: set<int>, held: set<int>)
    requires DistinctIds(chans) && n < |chans|
    requires HeldAgrees(chans[..n], seats, rooms, held) && MutedAgrees(chans[..n], seats, rooms, muted)
    ensures var ch := chans[n]; var seat := if ch.person.Some? then ch.person.value else -ch.id;
            var refused := ch.telegram && ((ch.person.None? && !rooms) || (seat !in held && |held| >= seats));
            MutedAgrees(chans[..n + 1], seats, rooms, if refused then muted + {ch.id} else muted)
  {
    hide Delivered, HeldAgrees;
    var few, ch, many := chans[..n], chans[n], chans[..n + 1];
    assert many == few + [ch];
    assert forall i :: 0 <= i < n ==> many[i] == few[i] && few[i].id != ch.id;
    DeliveredLast(few, ch, seats, rooms, held);
    forall i | 0 <= i < n ensures Delivered(many, seats, rooms, many[i]) <==> Delivered(few, seats, rooms, few[i]) {
      NewerNeverChangesOlder(few, [ch], seats, rooms, i);
    }
    assert many[n].id == ch.id;
  }

  /** One more channel takes at most one more seat, the last one. */
  lemma TakenGrows(chans: seq<Channel>, ch: Channel, seats: int, rooms: bool)
    ensures var before, after := Taken(Keys(chans, rooms), seats), Taken(Keys(chans + [ch], rooms), seats);
            after == if Eligible(ch, rooms) && SeatKey(ch) !in before && |before| < seats then before + [SeatKey(ch)]
                     else before
  {
    assert (chans + [ch])[..|chans|] == chans;
  }

  lemma {:induction false} KeysOfPrefix(chans: seq<Channel>, more: seq<Channel>, rooms: bool)
    ensures Keys(chans, rooms) <= Keys(chans + more, rooms)
    decreases |more|
  {
    if more == [] {
      assert chans + more == chans;
    } else {
      assert (chans + more)[..|chans + more| - 1] == chans + more[..|more| - 1];
      KeysOfPrefix(chans, more[..|more| - 1], rooms);
    }
  }

  /** A newer connection never changes an older one's answer. */
  lemma NewerNeverChangesOlder(chans: seq<Channel>, more: seq<Channel>, seats: int, rooms: bool, i: nat)
    requires i < |chans|
    ensures Delivered(chans + more, seats, rooms, chans[i]) <==> Delivered(chans, seats, rooms, chans[i])
  {
    KeysOfPrefix(chans, more, rooms);
    var few, many := Keys(chans, rooms), Keys(chans + more, rooms);
    if Eligible(chans[i], rooms) {
      assert SeatKey(chans[i]) in few;
      var k :| 0 <= k < |few| && few[k] == SeatKey(chans[i]);
      assert many[k] == few[k];
      InTakenIff(few, seats, k);
      InTakenIff(many, seats, k);
    }
  }

  lemma InTakenIff(keys: seq<int>, seats: int, k: nat)
    requires k < |keys| && forall i, j :: 0 <= i < j < |keys| ==> keys[i] != keys[j]
    ensures keys[k] in Taken(keys, seats) <==> k < seats
  {
    if k < seats {
      assert Taken(keys, seats)[k] == keys[k];
    }
  }

  /** More seats never mute anyone. */
  lemma MoreSeatsMuteNoOne(chans: seq<Channel>, seats: int, more: int, rooms: bool, ch: Channel)
    requires seats <= more && Delivered(chans, seats, rooms, ch)
    ensures Delivered(chans, more, rooms, ch)
  {
    var keys := Keys(chans, rooms);
    var k :| 0 <= k < |Taken(keys, seats)| && Taken(keys, seats)[k] == SeatKey(ch);
    assert Taken(keys, more)[k] == keys[k];
  }

  predicate Positive(chans: seq<Channel>) {
    forall i :: 0 <= i < |chans| ==> chans[i].id > 0 && (chans[i].person.Some? ==> chans[i].person.value > 0)
  }

  /** Two destinations share a seat exactly when they are the same room or the same person. */
  lemma SharedSeat(chans: seq<Channel>, i: nat, j: nat)
    requires Positive(chans) && DistinctIds(chans) && i < |chans| && j < |chans|
    ensures SeatKey(chans[i]) == SeatKey(chans[j]) <==>
              i == j || (chans[i].person.Some? && chans[i].person == chans[j].person)
  {
    if i < j {
      assert chans[i].id != chans[j].id;
    } else if j < i {
      assert chans[j].id != chans[i].id;
    }
  }

  // ----- rooms -----

  /** The persons and the rooms among these Telegram destinations. */
  function Persons(chans: seq<Channel>): set<int> {
    set i | 0 <= i < |chans| && chans[i].telegram && chans[i].person.Some? :: chans[i].person.value
  }

  function Rooms(chans: seq<Channel>): set<int> {
    set i | 0 <= i < |chans| && chans[i].telegram && chans[i].person.None? :: chans[i].id
  }

  /** Where the person's first Telegram destination stands. */
  function Arrival(chans: seq<Channel>, person: int): (n: nat)
    ensures n <= |chans|
    ensures forall i :: 0 <= i < n ==> !(chans[i].telegram && chans[i].person == Some(person))
    ensures n < |chans| ==> chans[n].telegram && chans[n].person == Some(person)
  {
    if chans == [] || (chans[0].telegram && chans[0].person == Some(person)) then 0
    else 1 + Arrival(chans[1..], person)
  }

  lemma PersonsGrow(chans: seq<Channel>, ch: Channel)
    ensures Persons(chans + [ch]) == Persons(chans) + (if ch.telegram && ch.person.Some? then {ch.person.value} else {})
    ensures Rooms(chans + [ch]) == Rooms(chans) + (if ch.telegram && ch.person.None? then {ch.id} else {})
  {
    var more := chans + [ch];
    assert more[|chans|] == ch;
    assert forall i :: 0 <= i < |chans| ==> more[i] == chans[i];
    forall p ensures p in Persons(chans) ==> p in Persons(more) {
      if p in Persons(chans) {
        var i :| 0 <= i < |chans| && chans[i].telegram && chans[i].person == Some(p);
        assert more[i].person.value == p;
      }
    }
    forall r ensures r in Rooms(chans) ==> r in Rooms(more) {
      if r in Rooms(chans) {
        var i :| 0 <= i < |chans| && chans[i].telegram && chans[i].person.None? && chans[i].id == r;
        assert more[i].id == r;
      }
    }
  }

  lemma CountsGrow(chans: seq<Channel>, ch: Channel)
    ensures |Persons(chans + [ch])| ==
            |Persons(chans)| + (if ch.telegram && ch.person.Some? && ch.person.value !in Persons(chans) then 1 else 0)
    ensures |Rooms(chans + [ch])| ==
            |Rooms(chans)| + (if ch.telegram && ch.person.None? && ch.id !in Rooms(chans) then 1 else 0)
  {
    hide Persons, Rooms;
    PersonsGrow(chans, ch);
    WithOneMore(Persons(chans), if ch.person.Some? then ch.person.value else 0);
    WithOneMore(Rooms(chans), ch.id);
  }

  lemma WithOneMore(s: set<int>, x: int)
    ensures s + {} == s && |s + {x}| == |s| + (if x in s then 0 else 1)
  {
    if x in s {
      assert s + {x} == s;
    }
  }

  /** A seat key is a person's, or where the plan covers rooms a room's. */
  lemma KeyOfWhom(chans: seq<Channel>, rooms: bool, k: int)
    requires Positive(chans)
    ensures k in Keys(chans, rooms) <==> k in Persons(chans) || (rooms && -k in Rooms(chans))
    ensures k in Persons(chans) ==> k > 0
    ensures k in Rooms(chans) ==> k > 0
  {
  }

  lemma {:induction false} KeysCount(chans: seq<Channel>, rooms: bool)
    requires Positive(chans)
    ensures |Keys(chans, rooms)| == |Persons(chans)| + (if rooms then |Rooms(chans)| else 0)
    decreases |chans|
  {
    hide Keys, Persons, Rooms;
    if chans == [] {
      NoKeys(rooms);
    } else {
      var rest, last := chans[..|chans| - 1], chans[|chans| - 1];
      assert chans == rest + [last];
      assert forall i :: 0 <= i < |rest| ==> rest[i] == chans[i];
      KeysCount(rest, rooms);
      KeysOneMore(rest, last, rooms);
      CountsGrow(rest, last);
      KeyOfWhom(rest, rooms, SeatKey(last));
      KeyOfWhom(rest, rooms, last.id);
      KeyOfWhom(rest, rooms, -SeatKey(last));
    }
  }

  lemma NoKeys(rooms: bool)
    ensures Keys([], rooms) == [] && Persons([]) == {} && Rooms([]) == {}
  {
  }

  /**
   Whether a person's Telegram reaches them: the seats must outnumber the persons who came
   before them and, where the plan covers rooms, the rooms that did.  So turning rooms on
   costs exactly those their seat whom the rooms before them push past the last one.
   */
  lemma PersonKeepsSeatIff(chans: seq<Channel>, seats: int, ch: Channel)
    requires Positive(chans) && ch in chans && ch.telegram && ch.person.Some?
    ensures var before := chans[..Arrival(chans, ch.person.value)];
            (Delivered(chans, seats, false, ch) <==> |Persons(before)| < seats)
            && (Delivered(chans, seats, true, ch) <==> |Persons(before)| + |Rooms(before)| < seats)
  {
    SeatedIff(chans, seats, false, ch);
    SeatedIff(chans, seats, true, ch);
  }

  lemma SeatedIff(chans: seq<Channel>, seats: int, rooms: bool, ch: Channel)
    requires Positive(chans) && ch in chans && ch.telegram && ch.person.Some?
    ensures var before := chans[..Arrival(chans, ch.person.value)];
            Delivered(chans, seats, rooms, ch) <==> |Persons(before)| + (if rooms then |Rooms(before)| else 0) < seats
  {
    hide Keys, Persons, Rooms, Taken;
    var key := ch.person.value;
    var n := Arrival(chans, key);
    Arrives(chans, ch);
    var before, first, after := chans[..n], chans[n], chans[n + 1..];
    assert chans == (before + [first]) + after;
    KeysCount(before, rooms);
    KeyIsNew(before, rooms, key);
    KeysOneMore(before, first, rooms);
    KeysOfPrefix(before + [first], after, rooms);
    var keys := Keys(chans, rooms);
    assert keys[|Keys(before, rooms)|] == key;
    InTakenIff(keys, seats, |Keys(before, rooms)|);
  }

  lemma KeyIsNew(before: seq<Channel>, rooms: bool, key: int)
    requires Positive(before) && key > 0
    requires forall i :: 0 <= i < |before| ==> !(before[i].telegram && before[i].person == Some(key))
    ensures key !in Keys(before, rooms)
  {
  }

  lemma KeysOneMore(chans: seq<Channel>, ch: Channel, rooms: bool)
    ensures Keys(chans + [ch], rooms) ==
            if Eligible(ch, rooms) && SeatKey(ch) !in Keys(chans, rooms) then Keys(chans, rooms) + [SeatKey(ch)]
            else Keys(chans, rooms)
  {
    assert (chans + [ch])[..|chans|] == chans;
  }

  lemma Arrives(chans: seq<Channel>, ch: Channel)
    requires ch in chans && ch.telegram && ch.person.Some?
    ensures Arrival(chans, ch.person.value) < |chans|
  {
    var i :| 0 <= i < |chans| && chans[i] == ch;
    assert Arrival(chans, ch.person.value) <= i;
  }

  /** Turning rooms on can only take a person's seat away, never give one. */
  lemma RoomsNeverHelpAPerson(chans: seq<Channel>, seats: int, ch: Channel)
    requires Positive(chans) && ch in chans && ch.person.Some?
    requires Delivered(chans, seats, true, ch)
    ensures Delivered(chans, seats, false, ch)
  {
    PersonKeepsSeatIff(chans, seats, ch);
  }

  /** And it does take one: a room connected before the person takes the only seat. */
  lemma RoomsCanMuteAPerson()
    ensures var room, person := Channel(1, true, None), Channel(2, true, Some(7));
            Delivered([room, person], 1, false, person) && !Delivered([room, person], 1, true, person)
  {
    var room, person := Channel(1, true, None), Channel(2, true, Some(7));
    var chans := [room, person];
    PersonKeepsSeatIff(chans, 1, person);
    assert chans[1..][0] == person && chans[..1] == [room];
    assert Arrival(chans, 7) == 1;
    assert Persons([room]) == {};
    assert Rooms([room]) == {1} by {
      assert [room][0].id in Rooms([room]);
    }
  }
}

/**
 * Lanes as lists. The tables store a key per card; readers see the cards of a lane in key order. This module
 * ties the two together: one row written with a key in the right gap is one list insertion.
 */
module LaneOrder {
  import opened Wrappers
  import opened Keys
  import opened Domain
  import opened Store
  import Finite

  /** `list` enumerates `ids` in strictly ascending key order. */
  ghost predicate Lists(cards: map<CardId, Card>, ids: set<CardId>, list: seq<CardId>) {
    && ids <= cards.Keys
    && (forall i :: 0 <= i < |list| ==> list[i] in ids)
    && (forall c :: c in ids ==> c in list)
    && (forall i, j :: 0 <= i < j < |list| ==> cards[list[i]].position < cards[list[j]].position)
  }

  ghost predicate DistinctOn(cards: map<CardId, Card>, ids: set<CardId>) {
    && ids <= cards.Keys
    && forall c, d :: c in ids && d in ids && c != d ==> cards[c].position != cards[d].position
  }

  predicate First(cards: map<CardId, Card>, ids: set<CardId>, c: CardId)
    requires ids <= cards.Keys
  {
    c in ids && forall d :: d in ids ==> cards[c].position <= cards[d].position
  }

  lemma FirstExists(cards: map<CardId, Card>, ids: set<CardId>)
    requires ids <= cards.Keys && ids != {}
    ensures exists c :: First(cards, ids, c)
  {
    var leq := (c: CardId, d: CardId) => KeyOr0(cards, c) <= KeyOr0(cards, d);
    Finite.LeastExists(ids, leq);
    var c :| Finite.IsLeast(leq, c, ids);
    forall d | d in ids
      ensures cards[c].position <= cards[d].position
    {
      assert leq(c, d);
    }
    assert First(cards, ids, c);
  }

  function KeyOr0(cards: map<CardId, Card>, c: CardId): Key {
    if c in cards then cards[c].position else 0.0
  }

  /** ORDER BY position. */
  function Ordered(cards: map<CardId, Card>, ids: set<CardId>): (list: seq<CardId>)
    requires DistinctOn(cards, ids)
    ensures Lists(cards, ids, list)
    decreases |ids|
  {
    if ids == {} then []
    else
      FirstExists(cards, ids);
      var c :| First(cards, ids, c);
      FirstThenRest(cards, ids, c);
      [c] + Ordered(cards, ids - {c})
  }

  lemma FirstThenRest(cards: map<CardId, Card>, ids: set<CardId>, c: CardId)
    requires DistinctOn(cards, ids) && First(cards, ids, c)
    ensures DistinctOn(cards, ids - {c})
    ensures forall rest :: Lists(cards, ids - {c}, rest) ==> Lists(cards, ids, [c] + rest)
  {
    forall rest | Lists(cards, ids - {c}, rest)
      ensures Lists(cards, ids, [c] + rest)
    {
      assert forall i :: 0 <= i < |rest| ==> rest[i] in ids - {c};
    }
  }

  /** A set has only one enumeration in key order. */
  lemma {:induction false} OnlyOneOrder(cards: map<CardId, Card>, ids: set<CardId>, s: seq<CardId>, t: seq<CardId>)
    requires Lists(cards, ids, s) && Lists(cards, ids, t)
    ensures s == t
    decreases |s|
  {
    if ids == {} {
      assert s == [] && t == [];
    } else {
      SameHead(cards, ids, s, t);
      TailLists(cards, ids, s);
      TailLists(cards, ids, t);
      OnlyOneOrder(cards, ids - {s[0]}, s[1..], t[1..]);
      assert s == [s[0]] + s[1..] && t == [t[0]] + t[1..];
    }
  }

  lemma SameHead(cards: map<CardId, Card>, ids: set<CardId>, s: seq<CardId>, t: seq<CardId>)
    requires Lists(cards, ids, s) && Lists(cards, ids, t) && ids != {}
    ensures s != [] && t != [] && s[0] == t[0]
  {
    HeadListed(cards, ids, s);
    HeadListed(cards, ids, t);
    if s[0] != t[0] {
      HeadIsFirst(cards, ids, s, t[0]);
      HeadIsFirst(cards, ids, t, s[0]);
    }
  }

  lemma HeadListed(cards: map<CardId, Card>, ids: set<CardId>, s: seq<CardId>)
    requires Lists(cards, ids, s) && ids != {}
    ensures s != [] && s[0] in ids
  {
    assert s == [] ==> ids == {};
  }

  lemma HeadIsFirst(cards: map<CardId, Card>, ids: set<CardId>, s: seq<CardId>, c: CardId)
    requires Lists(cards, ids, s) && s != [] && c in ids && c != s[0]
    ensures s[0] in ids && cards[s[0]].position < cards[c].position
  {
    assert c in s;
    var i :| 0 <= i < |s| && s[i] == c;
  }

  lemma TailLists(cards: map<CardId, Card>, ids: set<CardId>, s: seq<CardId>)
    requires Lists(cards, ids, s) && s != []
    ensures Lists(cards, ids - {s[0]}, s[1..])
  {
    forall c | c in ids - {s[0]}
      ensures c in s[1..]
    {
      var i :| 0 <= i < |s| && s[i] == c;
      assert s[1..][i - 1] == c;
    }
  }

  function CardsIn(cards: map<CardId, Card>, lane: LaneId): set<CardId> {
    set c | c in cards && cards[c].lane == lane
  }

  /** The whole lane in display order, archived cards included. */
  function LaneList(cards: map<CardId, Card>, lane: LaneId): (list: seq<CardId>)
    requires PositionsDistinct(cards)
    ensures Lists(cards, CardsIn(cards, lane), list)
  {
    Ordered(cards, CardsIn(cards, lane))
  }

  /** The cards of the lane that a board reader sees. */
  function ActiveList(cards: map<CardId, Card>, lane: LaneId): (list: seq<CardId>)
    requires PositionsDistinct(cards)
    ensures Lists(cards, ActiveIn(cards, lane), list)
  {
    Ordered(cards, ActiveIn(cards, lane))
  }

  // ---- Lists without one element, and with one inserted ----

  function Without(list: seq<CardId>, c: CardId): seq<CardId> {
    if list == [] then []
    else (if list[0] == c then [] else [list[0]]) + Without(list[1..], c)
  }

  function IndexOf(list: seq<CardId>, c: CardId): (i: nat)
    ensures i <= |list|
    ensures i < |list| ==> list[i] == c
    ensures forall j :: 0 <= j < i ==> list[j] != c
  {
    if list == [] then 0
    else if list[0] == c then 0
    else 1 + IndexOf(list[1..], c)
  }

  /** `c` directly before `next`, or last. */
  function InsertBefore(list: seq<CardId>, next: Option<CardId>, c: CardId): seq<CardId> {
    if next.None? then list + [c]
    else var i := IndexOf(list, next.value); list[..i] + [c] + list[i..]
  }

  lemma {:induction false} WithoutLists(cards: map<CardId, Card>, ids: set<CardId>, list: seq<CardId>, c: CardId)
    requires Lists(cards, ids, list)
    ensures Lists(cards, ids - {c}, Without(list, c))
    decreases |list|
  {
    if list != [] {
      TailLists(cards, ids, list);
      WithoutLists(cards, ids - {list[0]}, list[1..], c);
      if list[0] == c {
        assert ids - {list[0]} - {c} == ids - {c};
      } else {
        HeadStays(cards, ids, list, Without(list[1..], c), c);
      }
    }
  }

  lemma HeadStays(cards: map<CardId, Card>, ids: set<CardId>, list: seq<CardId>, rest: seq<CardId>, c: CardId)
    requires Lists(cards, ids, list) && list != [] && list[0] != c && Lists(cards, ids - {list[0]} - {c}, rest)
    ensures Lists(cards, ids - {c}, [list[0]] + rest)
  {
    var all := [list[0]] + rest;
    forall i | 0 <= i < |rest|
      ensures rest[i] in ids - {c} && cards[list[0]].position < cards[rest[i]].position
    {
      HeadIsFirst(cards, ids, list, rest[i]);
    }
    AllStay(ids, list[0], rest, c);
    assert forall i :: 1 <= i < |all| ==> all[i] == rest[i - 1];
  }

  lemma AllStay(ids: set<CardId>, head: CardId, rest: seq<CardId>, c: CardId)
    requires forall d :: d in ids - {head} - {c} ==> d in rest
    ensures forall d :: d in ids - {c} ==> d in [head] + rest
  {
    forall d | d in ids - {c}
      ensures d in [head] + rest
    {
      if d == head {
        assert ([head] + rest)[0] == d;
      } else {
        assert d in rest;
      }
    }
  }

  /** Other rows' keys are all that a list depends on. */
  lemma ListsElsewhere(cards: map<CardId, Card>, cards': map<CardId, Card>, ids: set<CardId>, list: seq<CardId>)
    requires Lists(cards, ids, list)
    requires ids <= cards'.Keys && forall d :: d in ids ==> cards'[d].position == cards[d].position
    ensures Lists(cards', ids, list)
  {
  }

  /**
   * One row `c` written into `lane` with a key above everything before index `k` of the lane without `c` and
   * below everything from `k` on.
   */
  lemma RowIsInsertion(cards: map<CardId, Card>, row: Card, k: nat)
    requires PositionsDistinct(cards)
    requires k <= |Without(LaneList(cards, row.lane), row.id)|
    requires var rest := Without(LaneList(cards, row.lane), row.id);
             && (forall i :: 0 <= i < k && rest[i] in cards ==> cards[rest[i]].position < row.position)
             && (forall i :: k <= i < |rest| && rest[i] in cards ==> row.position < cards[rest[i]].position)
    ensures PositionsDistinct(cards[row.id := row])
    ensures var rest := Without(LaneList(cards, row.lane), row.id);
            LaneList(cards[row.id := row], row.lane) == rest[..k] + [row.id] + rest[k..]
  {
    var c, lane := row.id, row.lane;
    var cards' := cards[c := row];
    var ids := CardsIn(cards, lane) - {c};
    var rest := Without(LaneList(cards, lane), c);
    WithoutLists(cards, CardsIn(cards, lane), LaneList(cards, lane), c);
    PlacedDistinct(cards, ids, rest, row, k);
    PlacedLists(cards, ids, rest, row, k);
    assert CardsIn(cards', lane) == ids + {c};
    OnlyOneOrder(cards', ids + {c}, rest[..k] + [c] + rest[k..], LaneList(cards', lane));
  }

  lemma PlacedDistinct(cards: map<CardId, Card>, ids: set<CardId>, rest: seq<CardId>, row: Card, k: nat)
    requires PositionsDistinct(cards) && Lists(cards, ids, rest) && ids == CardsIn(cards, row.lane) - {row.id} && k <= |rest|
    requires forall i :: 0 <= i < k ==> cards[rest[i]].position < row.position
    requires forall i :: k <= i < |rest| ==> row.position < cards[rest[i]].position
    ensures PositionsDistinct(cards[row.id := row])
  {
    forall d | d in ids
      ensures cards[d].position != row.position
    {
      var i :| 0 <= i < |rest| && rest[i] == d;
    }
    OnlyRowNew(cards, row);
  }

  lemma OnlyRowNew(cards: map<CardId, Card>, row: Card)
    requires PositionsDistinct(cards)
    requires forall d :: d in CardsIn(cards, row.lane) && d != row.id ==> cards[d].position != row.position
    ensures PositionsDistinct(cards[row.id := row])
  {
  }

  lemma PlacedLists(cards: map<CardId, Card>, ids: set<CardId>, rest: seq<CardId>, row: Card, k: nat)
    requires Lists(cards, ids, rest) && row.id !in ids && k <= |rest|
    requires forall i :: 0 <= i < k ==> cards[rest[i]].position < row.position
    requires forall i :: k <= i < |rest| ==> row.position < cards[rest[i]].position
    ensures Lists(cards[row.id := row], ids + {row.id}, rest[..k] + [row.id] + rest[k..])
  {
    var cards' := cards[row.id := row];
    var placed := rest[..k] + [row.id] + rest[k..];
    forall d | d in ids
      ensures d in placed && cards'[d] == cards[d]
    {
      assert d in rest[..k] + rest[k..] by { assert rest[..k] + rest[k..] == rest; }
    }
    forall i, j | 0 <= i < j < |placed|
      ensures cards'[placed[i]].position < cards'[placed[j]].position
    {
      PlacedAt(cards, ids, rest, row, k, i);
      PlacedAt(cards, ids, rest, row, k, j);
    }
  }

  lemma PlacedAt(cards: map<CardId, Card>, ids: set<CardId>, rest: seq<CardId>, row: Card, k: nat, i: nat)
    requires Lists(cards, ids, rest) && row.id !in ids && k <= |rest| && i <= |rest|
    ensures var x := (rest[..k] + [row.id] + rest[k..])[i];
            && x == (if i < k then rest[i] else if i == k then row.id else rest[i - 1])
            && cards[row.id := row][x] == if i == k then row else cards[x]
  {
  }

  /** Every other lane loses the card, if it had it, and is otherwise unchanged. */
  lemma RowLeavesOthers(cards: map<CardId, Card>, row: Card, other: LaneId)
    requires PositionsDistinct(cards) && PositionsDistinct(cards[row.id := row])
    requires other != row.lane
    ensures LaneList(cards[row.id := row], other) == Without(LaneList(cards, other), row.id)
  {
    var cards' := cards[row.id := row];
    var rest := Without(LaneList(cards, other), row.id);
    WithoutLists(cards, CardsIn(cards, other), LaneList(cards, other), row.id);
    assert CardsIn(cards', other) == CardsIn(cards, other) - {row.id};
    ListsElsewhere(cards, cards', CardsIn(cards', other), rest);
    OnlyOneOrder(cards', CardsIn(cards', other), rest, LaneList(cards', other));
  }
}

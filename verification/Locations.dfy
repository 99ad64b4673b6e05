/**
 * The location tree: buildings, floors under them, rooms under those. The kinds checked at creation are what makes the
 * unguarded depth-first walk end; the guarded breadth-first walk of the delete finds the same subtree.
 */
module Locations {
  import opened Wrappers
  import Finite

  type Id = nat
  type CardId = nat

  datatype Kind = Building | Floor | Room

  datatype Location = Location(id: Id, parent: Option<Id>, kind: Kind, name: string)

  type Rows = map<Id, Location>

  function RequiredParent(k: Kind): Option<Kind> {
    match k
    case Building => None
    case Floor => Some(Building)
    case Room => Some(Floor)
  }

  function Depth(k: Kind): nat {
    match k
    case Building => 0
    case Floor => 1
    case Room => 2
  }

  // ---- What every reachable table satisfies ----

  /** Parents exist and are of the kind that the child's kind asks for. */
  ghost predicate Tree(rows: Rows) {
    forall l :: l in rows ==>
      && rows[l].id == l
      && (rows[l].parent.Some? <==> RequiredParent(rows[l].kind).Some?)
      && (rows[l].parent.Some? ==>
            rows[l].parent.value in rows && Some(rows[rows[l].parent.value].kind) == RequiredParent(rows[l].kind))
  }

  /** `fold` is trimming and case folding. */
  ghost predicate SiblingsDistinct(rows: Rows, fold: string -> string) {
    forall l, m :: l in rows && m in rows && l != m && rows[l].parent == rows[m].parent ==>
      fold(rows[l].name) != fold(rows[m].name)
  }

  /** No card points at a location that is gone. */
  ghost predicate RefsResolve(rows: Rows, refs: map<CardId, Option<Id>>) {
    forall c :: c in refs && refs[c].Some? ==> refs[c].value in rows
  }

  function HeightOf(rows: Rows, l: Id): nat {
    if l in rows then Depth(rows[l].kind) + 1 else 0
  }

  /** `l` is `root` or a descendant of it. */
  ghost predicate Under(rows: Rows, root: Id, l: Id)
    requires Tree(rows)
    decreases HeightOf(rows, l)
  {
    l == root || (l in rows && rows[l].parent.Some? && Under(rows, root, rows[l].parent.value))
  }

  /** The subtree of `root`; of an unknown root, only the root. */
  ghost function Subtree(rows: Rows, root: Id): set<Id>
    requires Tree(rows)
  {
    (set l | l in rows && Under(rows, root, l)) + {root}
  }

  lemma {:induction false} DescendantsAreDeeper(rows: Rows, root: Id, l: Id)
    requires Tree(rows) && root in rows && Under(rows, root, l) && l != root
    ensures l in rows && Depth(rows[l].kind) > Depth(rows[root].kind)
    decreases HeightOf(rows, l)
  {
    if rows[l].parent.value != root {
      DescendantsAreDeeper(rows, root, rows[l].parent.value);
    }
  }

  /** A child of something in the subtree is in it, and is not the root. */
  lemma ChildIsBelow(rows: Rows, root: Id, p: Id, c: Id)
    requires Tree(rows) && Under(rows, root, p) && c in rows && rows[c].parent == Some(p)
    ensures Under(rows, root, c) && c != root
  {
    if c == root && p != root {
      DescendantsAreDeeper(rows, root, p);
    }
  }

  ghost function Children(rows: Rows, p: Id): set<Id> {
    set c | c in rows && rows[c].parent == Some(p)
  }

  ghost predicate Distinct(s: seq<Id>) {
    forall x :: multiset(s)[x] <= 1
  }

  // ---- The depth-first walk ----

  /** The index from parent to children that the walk reads. */
  ghost predicate Indexes(rows: Rows, index: map<Id, seq<Id>>) {
    && (forall p :: p in index ==> Distinct(index[p]) && forall c :: c in index[p] <==> c in Children(rows, p))
    && (forall c :: c in rows && rows[c].parent.Some? ==> rows[c].parent.value in index)
  }

  ghost predicate Lists(rows: Rows, all: seq<Location>) {
    && (forall i :: 0 <= i < |all| ==> all[i].id in rows && rows[all[i].id] == all[i])
    && (forall l :: l in rows ==> rows[l] in all)
    && (forall i, j :: 0 <= i < j < |all| ==> all[i].id != all[j].id)
  }

  lemma AppendDistinct(s: seq<Id>, x: Id)
    ensures Distinct(s) && x !in s ==> Distinct(s + [x])
  {
    if Distinct(s) && x !in s {
      forall y
        ensures multiset(s + [x])[y] <= 1
      {
        assert multiset(s)[y] <= 1;
        assert multiset(s + [x]) == multiset(s) + multiset{x};
        assert x !in multiset(s);
      }
    }
  }

  /** One pass over the flat list. */
  method ChildrenByParent(rows: Rows, all: seq<Location>) returns (index: map<Id, seq<Id>>)
    requires Tree(rows) && Lists(rows, all)
    ensures Indexes(rows, index)
  {
    index := map[];
    var i := 0;
    while i < |all|
      invariant 0 <= i <= |all|
      invariant forall p :: p in index ==> Distinct(index[p])
      invariant forall p, c :: p in index && c in index[p] ==>
                  exists j :: 0 <= j < i && all[j].id == c && all[j].parent == Some(p)
      invariant forall j :: 0 <= j < i && all[j].parent.Some? ==>
                  all[j].parent.value in index && all[j].id in index[all[j].parent.value]
    {
      var l := all[i];
      if l.parent.Some? {
        var siblings := if l.parent.value in index then index[l.parent.value] else [];
        AppendDistinct(siblings, l.id);
        index := index[l.parent.value := siblings + [l.id]];
      }
      i := i + 1;
    }
    forall p, c | p in index
      ensures c in index[p] <==> c in Children(rows, p)
    {
      if c in Children(rows, p) {
        assert rows[c] in all;
      }
    }
    forall c | c in rows && rows[c].parent.Some?
      ensures rows[c].parent.value in index
    {
      assert rows[c] in all;
    }
  }

  /** The walk in progress: `ids` is done, `stack` is to do. */
  ghost predicate Walk(rows: Rows, root: Id, ids: seq<Id>, stack: seq<Id>)
    requires Tree(rows)
  {
    && Distinct(ids + stack)
    && root in ids + stack
    && (forall x :: x in ids + stack ==> x in Subtree(rows, root))
    && (forall x :: x in ids + stack && x != root ==> x in rows && rows[x].parent.Some? && rows[x].parent.value in ids)
    && (forall x, c :: x in ids && c in Children(rows, x) ==> c in ids + stack)
  }

  lemma TopNotDone(ids: seq<Id>, rest: seq<Id>, x: Id)
    requires Distinct(ids + (rest + [x]))
    ensures x !in ids
  {
    assert multiset(ids + (rest + [x])) == multiset(ids) + multiset(rest) + multiset{x};
    assert multiset(ids + (rest + [x]))[x] <= 1;
    assert x !in multiset(ids);
  }

  lemma StillDistinct(ids: seq<Id>, rest: seq<Id>, x: Id, children: seq<Id>)
    requires Distinct(ids + (rest + [x])) && Distinct(children)
    requires forall c :: c in children ==> c !in ids + (rest + [x])
    ensures Distinct((ids + [x]) + (rest + children))
  {
    var before, after := ids + (rest + [x]), (ids + [x]) + (rest + children);
    assert multiset(after) == multiset(before) + multiset(children);
    forall y
      ensures multiset(after)[y] <= 1
    {
      assert multiset(before)[y] <= 1 && multiset(children)[y] <= 1;
      assert y in before <==> y in multiset(before);
      assert y in children <==> y in multiset(children);
    }
  }

  lemma WalkStep(rows: Rows, root: Id, ids: seq<Id>, stack: seq<Id>, children: seq<Id>)
    requires Tree(rows) && Walk(rows, root, ids, stack) && stack != []
    requires Distinct(children) && forall c :: c in children <==> c in Children(rows, stack[|stack| - 1])
    ensures Walk(rows, root, ids + [stack[|stack| - 1]], stack[..|stack| - 1] + children)
  {
    var x, rest := stack[|stack| - 1], stack[..|stack| - 1];
    assert stack == rest + [x];
    TopNotDone(ids, rest, x);
    assert x in ids + stack;
    forall c | c in children
      ensures c in Subtree(rows, root) && c != root && c !in ids + stack
    {
      ChildIsBelow(rows, root, x, c);
    }
    StillDistinct(ids, rest, x, children);
    var after := (ids + [x]) + (rest + children);
    assert forall y :: y in after <==> y in ids + stack || y in children;
  }

  lemma {:induction false} WalkComplete(rows: Rows, root: Id, ids: seq<Id>, l: Id)
    requires Tree(rows) && Walk(rows, root, ids, []) && Under(rows, root, l) && (l in rows || l == root)
    ensures l in ids
    decreases HeightOf(rows, l)
  {
    assert ids + [] == ids;
    if l != root {
      WalkComplete(rows, root, ids, rows[l].parent.value);
      assert l in Children(rows, rows[l].parent.value);
    }
  }

  /** As many entries as distinct values. */
  lemma {:induction false} DistinctFits(s: seq<Id>, bound: set<Id>)
    requires Distinct(s) && forall x :: x in s ==> x in bound
    ensures |s| <= |bound|
    decreases |s|
  {
    if s != [] {
      var n := |s| - 1;
      assert s == s[..n] + [s[n]];
      assert multiset(s) == multiset(s[..n]) + multiset{s[n]};
      assert multiset(s)[s[n]] <= 1;
      forall x
        ensures multiset(s[..n])[x] <= 1
      {
        assert multiset(s)[x] <= 1;
      }
      DistinctFits(s[..n], bound - {s[n]});
    }
  }

  lemma WalkFits(rows: Rows, root: Id, ids: seq<Id>, stack: seq<Id>)
    requires Tree(rows) && Walk(rows, root, ids, stack)
    ensures |ids| + |stack| <= |Subtree(rows, root)|
  {
    DistinctFits(ids + stack, Subtree(rows, root));
  }

  lemma WalkEnds(rows: Rows, root: Id, ids: seq<Id>)
    requires Tree(rows) && Walk(rows, root, ids, [])
    ensures Distinct(ids) && forall l :: l in ids <==> l in Subtree(rows, root)
  {
    assert ids + [] == ids;
    forall l | l in Subtree(rows, root)
      ensures l in ids
    {
      WalkComplete(rows, root, ids, l);
    }
  }

  lemma ChildrenListed(rows: Rows, index: map<Id, seq<Id>>, id: Id, children: seq<Id>)
    requires Indexes(rows, index) && children == if id in index then index[id] else []
    ensures Distinct(children) && forall c :: c in children <==> c in Children(rows, id)
  {
  }

  /** No visited set: each descendant is met once, because it has one parent and kinds descend. */
  method SubtreeIds(ghost rows: Rows, root: Id, index: map<Id, seq<Id>>) returns (ids: seq<Id>)
    requires Tree(rows) && Indexes(rows, index)
    ensures Distinct(ids) && forall l :: l in ids <==> l in Subtree(rows, root)
  {
    ids := [];
    var stack := [root];
    while stack != []
      invariant Walk(rows, root, ids, stack)
      decreases |Subtree(rows, root)| - |ids|
    {
      WalkFits(rows, root, ids, stack);
      var id := stack[|stack| - 1];
      var children := if id in index then index[id] else [];
      ChildrenListed(rows, index, id, children);
      WalkStep(rows, root, ids, stack, children);
      stack := stack[..|stack| - 1];
      ids := ids + [id];
      stack := stack + children;
    }
    WalkEnds(rows, root, ids);
  }

  // ---- The breadth-first walk ----

  /** The ids of a set, each once: what a SELECT returns, in some order. */
  method Select(some: set<Id>) returns (list: seq<Id>)
    ensures Distinct(list) && forall x :: x in list <==> x in some
  {
    list := [];
    var rest := some;
    while rest != {}
      invariant rest <= some && Distinct(list) && forall x :: x in list <==> x in some && x !in rest
      decreases |rest|
    {
      var x := Greatest(rest);
      AppendDistinct(list, x);
      list := list + [x];
      rest := rest - {x};
    }
  }

  function Greatest(s: set<Id>): (x: Id)
    requires s != {}
    ensures x in s
  {
    Finite.GreatestExists(s);
    var x :| x in s && forall y :: y in s ==> y <= x;
    x
  }

  function FlatReversed(levels: seq<seq<Id>>): seq<Id> {
    if levels == [] then [] else levels[|levels| - 1] + FlatReversed(levels[..|levels| - 1])
  }

  /** No location stands before one of its children. */
  ghost predicate ChildrenFirst(rows: Rows, order: seq<Id>) {
    forall i, j :: 0 <= i < j < |order| && order[j] in rows ==> rows[order[j]].parent != Some(order[i])
  }

  ghost predicate Expanding(rows: Rows, root: Id, order: seq<Id>, visited: set<Id>, frontier: seq<Id>)
    requires Tree(rows)
  {
    && Distinct(order) && ChildrenFirst(rows, order)
    && (forall x :: x in order <==> x in visited)
    && root in visited && visited <= Subtree(rows, root)
    && (forall x :: x in frontier ==> x in visited)
    && (forall x :: x in visited && x != root ==> x in rows && rows[x].parent.Some? && rows[x].parent.value in visited)
    && (forall p, c :: p in visited && p !in frontier && c in Children(rows, p) ==> c in visited)
  }

  ghost function NextLevel(rows: Rows, frontier: seq<Id>, visited: set<Id>): set<Id> {
    set c | c in rows && rows[c].parent.Some? && rows[c].parent.value in frontier && c !in visited
  }

  lemma NextLevelIsBelow(rows: Rows, root: Id, order: seq<Id>, visited: set<Id>, frontier: seq<Id>, c: Id)
    requires Tree(rows) && Expanding(rows, root, order, visited, frontier) && c in NextLevel(rows, frontier, visited)
    ensures c in Subtree(rows, root) && c != root && (root in rows ==> rows[root].parent != Some(c))
  {
    ChildIsBelow(rows, root, rows[c].parent.value, c);
    if root in rows {
      DescendantsAreDeeper(rows, root, c);
    }
  }

  lemma LevelDistinct(order: seq<Id>, level: seq<Id>)
    requires Distinct(order) && Distinct(level) && forall x :: x in level ==> x !in order
    ensures Distinct(level + order)
  {
    forall y
      ensures multiset(level + order)[y] <= 1
    {
      assert multiset(order)[y] <= 1 && multiset(level)[y] <= 1;
      assert y in order <==> y in multiset(order);
      assert y in level <==> y in multiset(level);
    }
  }

  lemma LevelStep(rows: Rows, root: Id, order: seq<Id>, visited: set<Id>, frontier: seq<Id>, level: seq<Id>)
    requires Tree(rows) && Expanding(rows, root, order, visited, frontier)
    requires Distinct(level) && forall x :: x in level <==> x in NextLevel(rows, frontier, visited)
    ensures Expanding(rows, root, level + order, visited + NextLevel(rows, frontier, visited), level)
  {
    forall c | c in level
      ensures c in Subtree(rows, root) && c != root && (root in rows ==> rows[root].parent != Some(c))
    {
      NextLevelIsBelow(rows, root, order, visited, frontier, c);
    }
    LevelDistinct(order, level);
    LevelFirst(rows, root, order, visited, level);
  }

  lemma LevelFirst(rows: Rows, root: Id, order: seq<Id>, visited: set<Id>, level: seq<Id>)
    requires ChildrenFirst(rows, order) && forall x :: x in order <==> x in visited
    requires forall x :: x in visited && x != root ==> x in rows && rows[x].parent.Some? && rows[x].parent.value in visited
    requires forall c :: c in level ==> c !in visited && (root in rows ==> rows[root].parent != Some(c))
    requires forall c :: c in level && c in rows && rows[c].parent.Some? ==> rows[c].parent.value in visited
    ensures ChildrenFirst(rows, level + order)
  {
    var all := level + order;
    forall i, j | 0 <= i < j < |all| && all[j] in rows
      ensures rows[all[j]].parent != Some(all[i])
    {
      if i < |level| {
        assert all[i] in level;
        if j < |level| {
          assert all[j] in level;
        } else {
          assert all[j] == order[j - |level|] && all[j] in visited;
        }
      } else {
        assert all[i] == order[i - |level|] && all[j] == order[j - |level|];
      }
    }
  }

  lemma {:induction false} ExpansionComplete(rows: Rows, root: Id, order: seq<Id>, visited: set<Id>, frontier: seq<Id>, l: Id)
    requires Tree(rows) && Expanding(rows, root, order, visited, frontier) && NextLevel(rows, frontier, visited) == {}
    requires Under(rows, root, l)
    ensures l in visited
    decreases HeightOf(rows, l)
  {
    if l != root {
      var p := rows[l].parent.value;
      ExpansionComplete(rows, root, order, visited, frontier, p);
      assert l in Children(rows, p);
      assert p in frontier ==> l in visited || l in NextLevel(rows, frontier, visited);
    }
  }

  lemma Expanded(rows: Rows, root: Id, order: seq<Id>, visited: set<Id>, frontier: seq<Id>)
    requires Tree(rows) && Expanding(rows, root, order, visited, frontier) && NextLevel(rows, frontier, visited) == {}
    ensures forall l :: l in order <==> l in Subtree(rows, root)
  {
    forall l | l in Subtree(rows, root)
      ensures l in order
    {
      ExpansionComplete(rows, root, order, visited, frontier, l);
    }
  }

  lemma LessToVisit(rows: Rows, root: Id, visited: set<Id>, next: set<Id>, level: seq<Id>)
    requires Tree(rows) && visited + next <= Subtree(rows, root) && visited !! next
    requires level != [] && forall x :: x in level <==> x in next
    ensures |Subtree(rows, root) - (visited + next)| < |Subtree(rows, root) - visited|
  {
    assert level[0] in next;
    Finite.SubsetIsNoLarger(Subtree(rows, root) - (visited + next), Subtree(rows, root) - visited);
  }

  lemma Started(rows: Rows, root: Id)
    requires Tree(rows)
    ensures FlatReversed([[root]]) == [root] && Expanding(rows, root, [root], {root}, [root])
  {
    assert [[root]][..0] == [];
  }

  lemma OneMoreLevel(levels: seq<seq<Id>>, level: seq<Id>)
    ensures FlatReversed(levels + [level]) == level + FlatReversed(levels)
  {
    assert (levels + [level])[..|levels|] == levels;
  }

  /** The guarded walk finds the same subtree, children before parents. */
  method CollectSubtree(rows: Rows, root: Id) returns (order: seq<Id>)
    requires Tree(rows)
    ensures Distinct(order) && ChildrenFirst(rows, order) && forall l :: l in order <==> l in Subtree(rows, root)
  {
    var levels, visited, frontier := [[root]], {root}, [root];
    Started(rows, root);
    while frontier != []
      invariant Expanding(rows, root, FlatReversed(levels), visited, frontier)
      decreases |Subtree(rows, root) - visited|
    {
      var next := set c | c in rows && rows[c].parent.Some? && rows[c].parent.value in frontier && c !in visited;
      assert next == NextLevel(rows, frontier, visited);
      var children := Select(next);
      if children == [] {
        assert next == {};
        break;
      }
      LevelStep(rows, root, FlatReversed(levels), visited, frontier, children);
      OneMoreLevel(levels, children);
      LessToVisit(rows, root, visited, next, children);
      visited := visited + next;
      levels := levels + [children];
      frontier := children;
    }
    order := FlatReversed(levels);
    Expanded(rows, root, order, visited, frontier);
  }

  /** Both walks list the same locations. */
  lemma WalksAgree(rows: Rows, root: Id, ids: seq<Id>, order: seq<Id>)
    requires Tree(rows) && Distinct(ids) && Distinct(order)
    requires forall l :: l in ids <==> l in Subtree(rows, root)
    requires forall l :: l in order <==> l in Subtree(rows, root)
    ensures multiset(ids) == multiset(order)
  {
    forall x
      ensures multiset(ids)[x] == multiset(order)[x]
    {
      assert multiset(ids)[x] <= 1 && multiset(order)[x] <= 1;
      assert x in ids <==> x in multiset(ids);
      assert x in order <==> x in multiset(order);
    }
  }

  // ---- Administration ----

  datatype Error = NotFound | BadParent | NameTaken

  class LocationAdmin {
    var rows: Rows
    var refs: map<CardId, Option<Id>>
    const fold: string -> string

    ghost predicate Valid()
      reads this
    {
      Tree(rows) && SiblingsDistinct(rows, fold) && RefsResolve(rows, refs)
    }

    constructor (fold: string -> string)
      ensures Valid() && rows == map[] && refs == map[] && this.fold == fold
    {
      this.fold := fold;
      rows, refs := map[], map[];
    }

    method Clashes(parent: Option<Id>, name: string, self: Option<Id>) returns (clash: bool)
      ensures clash <==> IsTaken(rows, fold, parent, name, self)
    {
      clash := exists l :: l in rows && Some(l) != self && rows[l].parent == parent && fold(rows[l].name) == fold(name);
    }

    /** The id is fresh. Exactly those rows are refused that would spoil the tree or the names of its siblings. */
    method Create(id: Id, parent: Option<Id>, kind: Kind, name: string) returns (r: Result<Location, Error>)
      requires Valid() && id !in rows
      modifies `rows
      ensures Valid()
      ensures r.Success? ==> r.value == Location(id, parent, kind, name) && rows == old(rows)[id := r.value]
      ensures r.Failure? ==> rows == old(rows)
      ensures r.Success? <==>
                var after := old(rows)[id := Location(id, parent, kind, name)]; Tree(after) && SiblingsDistinct(after, fold)
      ensures r == Failure(NotFound) <==> RequiredParent(kind).Some? && parent.Some? && parent.value !in old(rows)
      ensures r == Failure(NameTaken) <==>
                var after := old(rows)[id := Location(id, parent, kind, name)]; Tree(after) && !SiblingsDistinct(after, fold)
    {
      RowFits(rows, Location(id, parent, kind, name), fold);
      var required := RequiredParent(kind);
      if required.None? {
        if parent.Some? {
          return Failure(BadParent);
        }
      } else {
        if parent.None? {
          return Failure(BadParent);
        }
        if parent.value !in rows {
          return Failure(NotFound);
        }
        if rows[parent.value].kind != required.value {
          return Failure(BadParent);
        }
      }
      var clash := Clashes(parent, name, None);
      if clash {
        return Failure(NameTaken);
      }
      var location := Location(id, parent, kind, name);
      rows := rows[id := location];
      r := Success(location);
    }

    method Rename(id: Id, name: string) returns (r: Result<Location, Error>)
      requires Valid()
      modifies `rows
      ensures Valid()
      ensures r.Success? ==> id in old(rows) && r.value == old(rows)[id].(name := name) && rows == old(rows)[id := r.value]
      ensures r.Failure? ==> rows == old(rows)
      ensures r == Failure(NotFound) <==> id !in old(rows)
      ensures r.Success? <==> id in old(rows) && SiblingsDistinct(old(rows)[id := old(rows)[id].(name := name)], fold)
    {
      if id !in rows {
        return Failure(NotFound);
      }
      var found := rows[id];
      NameFits(rows, found.(name := name), fold);
      var clash := Clashes(found.parent, name, Some(id));
      if clash {
        return Failure(NameTaken);
      }
      rows := rows[id := found.(name := name)];
      r := Success(found.(name := name));
    }

    /** A card is pointed at a location only after it has been looked up. */
    method Assign(card: CardId, location: Option<Id>) returns (ok: bool)
      requires Valid()
      modifies `refs
      ensures Valid()
      ensures ok <==> location.None? || location.value in rows
      ensures refs == if ok then old(refs)[card := location] else old(refs)
    {
      ok := location.None? || location.value in rows;
      if ok {
        refs := refs[card := location];
      }
    }

    /** One DELETE; the foreign keys admit it only when nothing points at the row. */
    method DeleteRow(id: Id)
      requires forall l :: l in rows ==> rows[l].parent != Some(id)
      requires forall c :: c in refs ==> refs[c] != Some(id)
      modifies `rows
      ensures rows == old(rows) - {id}
    {
      rows := rows - {id};
    }

    /** The subtree, row by row. */
    method DeleteRows(root: Id, order: seq<Id>)
      requires Tree(rows) && ChildrenFirst(rows, order) && forall l :: l in order <==> l in Subtree(rows, root)
      requires forall c :: c in refs && refs[c].Some? ==> refs[c].value !in order
      modifies `rows
      ensures rows == map l | l in old(rows) && l !in Subtree(old(rows), root) :: old(rows)[l]
    {
      var i := 0;
      while i < |order|
        invariant 0 <= i <= |order|
        invariant rows == map l | l in old(rows) && l !in order[..i] :: old(rows)[l]
      {
        ChildrenGone(old(rows), root, order, i);
        assert order[i] in order;
        DeleteRow(order[i]);
        assert order[..i + 1] == order[..i] + [order[i]];
        i := i + 1;
      }
      assert order[..i] == order;
    }

    /** The cards let go of the whole subtree first. */
    method ForgetRefs(order: seq<Id>)
      modifies `refs
      ensures refs == map c | c in old(refs) ::
                if old(refs)[c].Some? && old(refs)[c].value in order then None else old(refs)[c]
    {
      refs := map c | c in refs :: if refs[c].Some? && refs[c].value in order then None else refs[c];
    }

    method Delete(id: Id) returns (r: Result<(), Error>)
      requires Valid()
      modifies this
      ensures Valid()
      ensures r == (if id in old(rows) then Success(()) else Failure(NotFound))
      ensures id !in old(rows) ==> rows == old(rows) && refs == old(refs)
      ensures id in old(rows) ==>
                && rows == (map l | l in old(rows) && l !in Subtree(old(rows), id) :: old(rows)[l])
                && refs == (map c | c in old(refs) ::
                     if old(refs)[c].Some? && old(refs)[c].value in Subtree(old(rows), id) then None else old(refs)[c])
    {
      if id !in rows {
        return Failure(NotFound);
      }
      RestIsValid(rows, id, fold);
      var order := CollectSubtree(rows, id);
      ForgetRefs(order);
      DeleteRows(id, order);
      r := Success(());
    }

    /** A sibling other than `self` has the name. */
    static predicate IsTaken(rows: Rows, fold: string -> string, parent: Option<Id>, name: string, self: Option<Id>) {
      exists l :: l in rows && Some(l) != self && rows[l].parent == parent && fold(rows[l].name) == fold(name)
    }

    /** What the checks of a creation come to. */
    static lemma RowFits(rows: Rows, row: Location, fold: string -> string)
      requires Tree(rows) && SiblingsDistinct(rows, fold) && row.id !in rows
      ensures Tree(rows[row.id := row]) <==>
                match RequiredParent(row.kind)
                case None => row.parent.None?
                case Some(k) => row.parent.Some? && row.parent.value in rows && rows[row.parent.value].kind == k
      ensures SiblingsDistinct(rows[row.id := row], fold) <==> !IsTaken(rows, fold, row.parent, row.name, None)
    {
      NewNameFits(rows, row, fold);
      assert rows[row.id := row][row.id] == row;
    }

    static lemma NewNameFits(rows: Rows, row: Location, fold: string -> string)
      requires SiblingsDistinct(rows, fold) && row.id !in rows
      ensures SiblingsDistinct(rows[row.id := row], fold) <==> !IsTaken(rows, fold, row.parent, row.name, None)
    {
      var after := rows[row.id := row];
      assert after[row.id] == row;
      if IsTaken(rows, fold, row.parent, row.name, None) {
        var l :| l in rows && rows[l].parent == row.parent && fold(rows[l].name) == fold(row.name);
        assert after[l] == rows[l];
      }
    }

    static lemma NameFits(rows: Rows, row: Location, fold: string -> string)
      requires Tree(rows) && SiblingsDistinct(rows, fold) && row.id in rows && row == rows[row.id].(name := row.name)
      ensures Tree(rows[row.id := row])
      ensures SiblingsDistinct(rows[row.id := row], fold) <==> !IsTaken(rows, fold, row.parent, row.name, Some(row.id))
    {
      var after := rows[row.id := row];
      assert after[row.id] == row;
      if IsTaken(rows, fold, row.parent, row.name, Some(row.id)) {
        var l :| l in rows && l != row.id && rows[l].parent == row.parent && fold(rows[l].name) == fold(row.name);
        assert after[l] == rows[l];
      }
    }

    static lemma ChildrenGone(rows: Rows, root: Id, order: seq<Id>, i: nat)
      requires Tree(rows) && ChildrenFirst(rows, order) && i < |order|
      requires forall l :: l in order <==> l in Subtree(rows, root)
      ensures forall l :: l in rows && rows[l].parent == Some(order[i]) ==> l in order[..i]
    {
      forall l | l in rows && rows[l].parent == Some(order[i])
        ensures l in order[..i]
      {
        assert order[i] in order;
        ChildIsBelow(rows, root, order[i], l);
        assert l in order;
        var j :| 0 <= j < |order| && order[j] == l;
        assert j < i;
        assert order[..i][j] == l;
      }
    }

    static lemma RestIsValid(rows: Rows, root: Id, fold: string -> string)
      requires Tree(rows) && SiblingsDistinct(rows, fold)
      ensures var rest := map l | l in rows && l !in Subtree(rows, root) :: rows[l];
              Tree(rest) && SiblingsDistinct(rest, fold)
    {
      forall l | l in rows && l !in Subtree(rows, root) && rows[l].parent.Some?
        ensures rows[l].parent.value !in Subtree(rows, root)
      {
        if rows[l].parent.value in Subtree(rows, root) {
          ChildIsBelow(rows, root, rows[l].parent.value, l);
        }
      }
    }
  }
}

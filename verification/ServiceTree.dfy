/** Service trees of groups with a cached leftmost entry: the throttling tree sorted by dispatch time,
    and what it shares with the group tree of CFQ. */
module ServiceTree {
  import opened Lists

  type GroupId = nat

  /** The tree in key order; `left` caches the leftmost entry or is unknown. */
  datatype Tree = Tree(order: seq<GroupId>, left: Option<GroupId>, count: int)

  /** In-order position of a new entry: right of every entry whose key is not larger. */
  function Placed(keys: map<GroupId, nat>, order: seq<GroupId>, g: GroupId): seq<GroupId>
    requires g in keys && forall x :: x in order ==> x in keys
  {
    if order == [] then [g]
    else if keys[g] < keys[order[0]] then [g] + order
    else [order[0]] + Placed(keys, order[1..], g)
  }

  /** tg_service_tree_add and the count of __throtl_enqueue_tg: the new entry becomes the cached
      leftmost one if the search never turned right. */
  function Insert(keys: map<GroupId, nat>, t: Tree, g: GroupId): Tree
    requires g in keys && forall x :: x in t.order ==> x in keys
  {
    var order := Placed(keys, t.order, g);
    Tree(order, if order[0] == g then Some(g) else t.left, t.count + 1)
  }

  /** throtl_rb_erase. */
  function Erase(t: Tree, g: GroupId): Tree {
    Tree(Remove(t.order, g), if t.left == Some(g) then None else t.left, t.count - 1)
  }

  /** throtl_rb_first: the entry, and the tree with its cache refreshed. */
  function RbFirst(t: Tree): (Option<GroupId>, Tree) {
    if t.count == 0 then (None, t)
    else if t.left.Some? then (t.left, t)
    else if t.order == [] then (None, t)
    else (Some(t.order[0]), t.(left := Some(t.order[0])))
  }

  // ------------------------------------------------------------------

  predicate Sorted(keys: map<GroupId, nat>, order: seq<GroupId>) {
    && (forall x :: x in order ==> x in keys)
    && forall i, j :: 0 <= i < j < |order| ==> keys[order[i]] <= keys[order[j]]
  }

  /** The invariant of the tree: sorted, without repetition, counted, and the cache is unknown or
      right. */
  ghost predicate TreeOk(keys: map<GroupId, nat>, t: Tree) {
    && Sorted(keys, t.order) && NoDup(t.order)
    && t.count == |t.order|
    && (t.left.Some? ==> t.order != [] && t.left.value == t.order[0])
  }

  lemma SortedCons(keys: map<GroupId, nat>, x: GroupId, rest: seq<GroupId>)
    requires x in keys && Sorted(keys, rest) && forall y :: y in rest ==> keys[x] <= keys[y]
    ensures Sorted(keys, [x] + rest)
  {
  }

  lemma SortedTail(keys: map<GroupId, nat>, order: seq<GroupId>)
    requires order != [] && Sorted(keys, order)
    ensures Sorted(keys, order[1..]) && order[0] in keys
    ensures forall y :: y in order[1..] ==> keys[order[0]] <= keys[y]
  {
  }

  lemma {:induction false} PlacedSorted(keys: map<GroupId, nat>, order: seq<GroupId>, g: GroupId)
    requires g in keys && Sorted(keys, order) && NoDup(order) && g !in order
    ensures
      var r := Placed(keys, order, g);
      && Sorted(keys, r) && NoDup(r) && |r| == |order| + 1
      && (forall x :: x in r <==> x == g || x in order)
      && (r[0] == g || (order != [] && r[0] == order[0]))
  {
    if order != [] {
      var r := Placed(keys, order, g);
      if keys[g] < keys[order[0]] {
        NoDupAppend(order, g);
      } else {
        NoDupTail(order);
        SortedTail(keys, order);
        PlacedSorted(keys, order[1..], g);
        var rest := Placed(keys, order[1..], g);
        SortedCons(keys, order[0], rest);
        NoDupAppend(rest, order[0]);
      }
    }
  }

  /** The first i entries have keys no larger than that of g, the others larger ones. */
  predicate Parts(keys: map<GroupId, nat>, order: seq<GroupId>, g: GroupId, i: nat)
    requires g in keys && forall x :: x in order ==> x in keys
  {
    && i <= |order|
    && (forall j :: 0 <= j < i ==> keys[order[j]] <= keys[g])
    && (forall j :: i <= j < |order| ==> keys[g] < keys[order[j]])
  }

  lemma PartsCons(keys: map<GroupId, nat>, order: seq<GroupId>, g: GroupId, k: nat)
    requires g in keys && order != [] && forall x :: x in order ==> x in keys
    requires Parts(keys, order[1..], g, k) && keys[order[0]] <= keys[g]
    ensures Parts(keys, order, g, k + 1)
  {
    assert forall j :: 0 < j < |order| ==> order[j] == order[1..][j - 1];
  }

  lemma PlacedHead(order: seq<GroupId>, k: nat, g: GroupId)
    requires order != [] && k <= |order| - 1
    ensures [order[0]] + (order[1..][..k] + [g] + order[1..][k..]) == order[..k + 1] + [g] + order[k + 1..]
  {
    assert order[..k + 1] == [order[0]] + order[1..][..k];
  }

  /** A new entry goes behind those with equal keys: among equals, first come is first served. */
  lemma {:induction false} PlacedBehindEquals(keys: map<GroupId, nat>, order: seq<GroupId>, g: GroupId) returns (i: nat)
    requires g in keys && Sorted(keys, order)
    ensures Parts(keys, order, g, i) && i <= |order| && Placed(keys, order, g) == order[..i] + [g] + order[i..]
    decreases |order|
  {
    if order == [] || keys[g] < keys[order[0]] {
      i := 0;
    } else {
      hide Sorted, Parts;
      SortedTail(keys, order);
      var k := PlacedBehindEquals(keys, order[1..], g);
      i := k + 1;
      PartsCons(keys, order, g, k);
      PlacedHead(order, k, g);
    }
  }

  lemma InsertOk(keys: map<GroupId, nat>, t: Tree, g: GroupId)
    requires g in keys && TreeOk(keys, t) && g !in t.order
    ensures TreeOk(keys, Insert(keys, t, g))
    ensures forall x :: x in Insert(keys, t, g).order <==> x == g || x in t.order
  {
    PlacedSorted(keys, t.order, g);
  }

  lemma {:induction false} RemoveSorted(keys: map<GroupId, nat>, order: seq<GroupId>, g: GroupId)
    requires Sorted(keys, order)
    ensures Sorted(keys, Remove(order, g))
    ensures order != [] && order[0] != g ==> Remove(order, g) != [] && Remove(order, g)[0] == order[0]
  {
    if order == [] {
    } else if order[0] == g {
      SortedTail(keys, order);
    } else {
      hide Sorted;
      SortedTail(keys, order);
      RemoveSorted(keys, order[1..], g);
      SortedCons(keys, order[0], Remove(order[1..], g));
    }
  }

  lemma EraseOk(keys: map<GroupId, nat>, t: Tree, g: GroupId)
    requires TreeOk(keys, t) && g in t.order
    ensures TreeOk(keys, Erase(t, g))
    ensures forall x :: x in Erase(t, g).order <==> x != g && x in t.order
  {
    RemoveNoDup(t.order, g);
    RemoveSorted(keys, t.order, g);
  }

  /** After any inserts and erases, throtl_rb_first returns an entry with the least key, and
      nothing exactly when the tree is empty. */
  lemma FirstIsLeast(keys: map<GroupId, nat>, t: Tree)
    requires TreeOk(keys, t)
    ensures
      var (first, t') := RbFirst(t);
      && TreeOk(keys, t') && t'.order == t.order
      && (first.None? <==> t.order == [])
      && (first.Some? ==> first.value == t.order[0] && first.value in keys
                          && forall x :: x in t.order ==> keys[first.value] <= keys[x])
  {
  }

  lemma TreeMembers(keys: map<GroupId, nat>, t: Tree)
    requires TreeOk(keys, t)
    ensures forall x :: x in t.order ==> x in keys
  {
  }

  /** Keys of entries outside the tree may change freely. */
  lemma KeysFrame(keys: map<GroupId, nat>, keys': map<GroupId, nat>, t: Tree)
    requires TreeOk(keys, t)
    requires forall x :: x in t.order ==> x in keys' && keys'[x] == keys[x]
    ensures TreeOk(keys', t)
  {
  }

  // ------------------------------------------------------------------
  // How many entries are due

  function Due(keys: map<GroupId, nat>, order: seq<GroupId>, now: nat): nat
    requires forall x :: x in order ==> x in keys
  {
    if order == [] then 0
    else (if keys[order[0]] <= now then 1 else 0) + Due(keys, order[1..], now)
  }

  lemma {:induction false} DuePlaced(keys: map<GroupId, nat>, order: seq<GroupId>, g: GroupId, now: nat)
    requires g in keys && keys[g] > now && forall x :: x in order ==> x in keys
    requires forall x :: x in Placed(keys, order, g) ==> x in keys
    ensures Due(keys, Placed(keys, order, g), now) == Due(keys, order, now)
  {
    if order != [] {
      if keys[g] < keys[order[0]] {
        assert ([g] + order)[1..] == order;
      } else {
        var rest := Placed(keys, order[1..], g);
        assert ([order[0]] + rest)[1..] == rest;
        assert forall x :: x in rest ==> x in Placed(keys, order, g);
        DuePlaced(keys, order[1..], g, now);
      }
    } else {
      assert [g][1..] == [];
    }
  }

  lemma {:induction false} DueFrame(keys: map<GroupId, nat>, keys': map<GroupId, nat>, order: seq<GroupId>, now: nat)
    requires forall x :: x in order ==> x in keys && x in keys' && keys'[x] == keys[x]
    ensures Due(keys', order, now) == Due(keys, order, now)
  {
    if order != [] {
      DueFrame(keys, keys', order[1..], now);
    }
  }
}

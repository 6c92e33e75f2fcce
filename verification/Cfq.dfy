/**
 The group service tree of CFQ (block/cfq-iosched.c): groups with busy queues, sorted by the disk
 time they have received, scaled by weight.
 */
module Cfq {
  import opened Lists
  import opened ServiceTree

  /** HZ / 5; its value does not matter here. */
  const IDLE_DELAY: nat

  /** 1 << CFQ_SERVICE_SHIFT times BLKIO_WEIGHT_DEFAULT. */
  const SCALE: nat := 4096 * 500

  datatype Group = Group(vdisktime: nat, weight: nat, newWeight: nat, needsUpdate: bool, nrCfqq: nat)

  /** `order` is the tree from left to right, `left` its cached leftmost entry. */
  datatype State = State(groups: map<GroupId, Group>, order: seq<GroupId>, left: Option<GroupId>,
                         minVdisktime: nat, totalWeight: int)

  function Keys(groups: map<GroupId, Group>): map<GroupId, nat> {
    map g | g in groups :: groups[g].vdisktime
  }

  predicate Known(s: State) {
    forall g :: g in s.order ==> g in s.groups
  }

  /** cfq_scale_slice. */
  function Scaled(charge: nat, weight: nat): nat
    requires weight > 0
  {
    charge * SCALE / weight
  }

  /** cfq_update_group_weight. */
  function Reweighed(g: Group): Group {
    if g.needsUpdate then g.(weight := g.newWeight, needsUpdate := false) else g
  }

  /** cfq_group_service_tree_add for a group that has the given record. */
  function TreeAdd(s: State, id: GroupId, g: Group): State
    requires Known(s)
  {
    var groups := s.groups[id := Reweighed(g)];
    var order := Placed(Keys(groups), s.order, id);
    State(groups, order, if order[0] == id then Some(id) else s.left, s.minVdisktime, s.totalWeight + groups[id].weight)
  }

  /** cfq_group_service_tree_del. */
  function TreeDel(s: State, id: GroupId): State
    requires id in s.groups
  {
    s.(totalWeight := s.totalWeight - s.groups[id].weight, order := Remove(s.order, id),
       left := if s.left == Some(id) then None else s.left)
  }

  /** cfq_group_notify_queue_add: a group that comes back goes behind all others. */
  function QueueAdded(s: State, id: GroupId): State
    requires Known(s) && id in s.groups
  {
    var g := s.groups[id].(nrCfqq := s.groups[id].nrCfqq + 1);
    if id in s.order then s.(groups := s.groups[id := g])
    else
      var v := if s.order == [] then s.minVdisktime else s.groups[s.order[|s.order| - 1]].vdisktime + IDLE_DELAY;
      TreeAdd(s, id, g.(vdisktime := v))
  }

  /** cfq_group_notify_queue_del. */
  function QueueDeleted(s: State, id: GroupId): State
    requires id in s.groups && s.groups[id].nrCfqq > 0
  {
    var s1 := s.(groups := s.groups[id := s.groups[id].(nrCfqq := s.groups[id].nrCfqq - 1)]);
    if s1.groups[id].nrCfqq > 0 then s1 else TreeDel(s1, id)
  }

  /** cfq_update_blkio_group_weight, at any time and without the queue lock. */
  function NewWeight(s: State, id: GroupId, weight: nat): State
    requires id in s.groups
  {
    s.(groups := s.groups[id := s.groups[id].(newWeight := weight, needsUpdate := true)])
  }

  /** cfq_group_served. */
  function GroupServed(s: State, id: GroupId, charge: nat): State
    requires Known(s) && id in s.groups && s.groups[id].weight > 0
  {
    var g := s.groups[id];
    TreeAdd(TreeDel(s, id), id, g.(vdisktime := g.vdisktime + Scaled(charge, g.weight)))
  }

  /** cfq_get_next_cfqg: the leftmost group, with min_vdisktime brought up to it. */
  function NextGroup(s: State): (Option<GroupId>, State)
    requires Known(s) && (s.left.Some? ==> s.left.value in s.groups)
  {
    if s.order == [] then (None, s)
    else
      var first := if s.left.Some? then s.left.value else s.order[0];
      var v := s.groups[first].vdisktime;
      (Some(first), s.(left := Some(first), minVdisktime := if v > s.minVdisktime then v else s.minVdisktime))
  }

  // ------------------------------------------------------------------
  // The invariant

  function WeightSum(groups: map<GroupId, Group>, order: seq<GroupId>): nat
    requires forall g :: g in order ==> g in groups
  {
    if order == [] then 0 else groups[order[0]].weight + WeightSum(groups, order[1..])
  }

  /** Sorted without repetition, the cache unknown or right, total_weight the sum of the weights on
      the tree, min_vdisktime below everything on it, and a group on it exactly if it has queues. */
  ghost predicate Inv(s: State) {
    && Known(s) && NoDup(s.order) && Sorted(Keys(s.groups), s.order)
    && (s.left.Some? ==> s.order != [] && s.left.value == s.order[0])
    && s.totalWeight == WeightSum(s.groups, s.order)
    && (forall g :: g in s.order ==> s.minVdisktime <= s.groups[g].vdisktime)
    && (forall g :: g in s.groups ==> (g in s.order <==> s.groups[g].nrCfqq > 0))
    && (forall g :: g in s.groups ==> s.groups[g].weight > 0 && s.groups[g].newWeight > 0)
  }

  lemma KeysOf(groups: map<GroupId, Group>)
    ensures Keys(groups).Keys == groups.Keys
    ensures forall g :: g in groups ==> Keys(groups)[g] == groups[g].vdisktime
  {
  }

  lemma {:induction false} SumFrame(groups: map<GroupId, Group>, groups': map<GroupId, Group>, order: seq<GroupId>)
    requires forall g :: g in order ==> g in groups && g in groups' && groups'[g].weight == groups[g].weight
    ensures WeightSum(groups', order) == WeightSum(groups, order)
    decreases |order|
  {
    if order != [] {
      SumFrame(groups, groups', order[1..]);
    }
  }

  lemma {:induction false} SumPlaced(groups: map<GroupId, Group>, order: seq<GroupId>, id: GroupId)
    requires id in groups && forall g :: g in order ==> g in groups
    requires forall g :: g in Placed(Keys(groups), order, id) ==> g in groups
    ensures WeightSum(groups, Placed(Keys(groups), order, id)) == WeightSum(groups, order) + groups[id].weight
    decreases |order|
  {
    hide Keys;
    KeysOf(groups);
    if order == [] {
      assert [id][1..] == [];
    } else if Keys(groups)[id] < Keys(groups)[order[0]] {
      assert ([id] + order)[1..] == order;
    } else {
      var rest := Placed(Keys(groups), order[1..], id);
      assert ([order[0]] + rest)[1..] == rest;
      assert forall g :: g in rest ==> g in [order[0]] + rest;
      SumPlaced(groups, order[1..], id);
    }
  }

  lemma {:induction false} SumRemove(groups: map<GroupId, Group>, order: seq<GroupId>, id: GroupId)
    requires id in order && forall g :: g in order ==> g in groups
    ensures WeightSum(groups, Remove(order, id)) == WeightSum(groups, order) - groups[id].weight
    decreases |order|
  {
    if order[0] != id {
      var rest := Remove(order[1..], id);
      assert ([order[0]] + rest)[1..] == rest;
      SumRemove(groups, order[1..], id);
    }
  }

  lemma SortedFrame(groups: map<GroupId, Group>, groups': map<GroupId, Group>, order: seq<GroupId>)
    requires Sorted(Keys(groups), order)
    requires forall g :: g in order ==> g in groups && g in groups' && groups'[g].vdisktime == groups[g].vdisktime
    ensures Sorted(Keys(groups'), order)
  {
    KeysOf(groups);
    KeysOf(groups');
  }

  // ------------------------------------------------------------------
  // Every operation keeps it

  /** The tree without a group that may not have its record settled yet. */
  ghost predicate InvBut(s: State, id: GroupId) {
    && Known(s) && NoDup(s.order) && Sorted(Keys(s.groups), s.order) && id !in s.order
    && (s.left.Some? ==> s.order != [] && s.left.value == s.order[0])
    && s.totalWeight == WeightSum(s.groups, s.order)
    && (forall g :: g in s.order ==> s.minVdisktime <= s.groups[g].vdisktime)
    && (forall g :: g in s.groups && g != id ==> (g in s.order <==> s.groups[g].nrCfqq > 0))
    && (forall g :: g in s.groups ==> s.groups[g].weight > 0 && s.groups[g].newWeight > 0)
  }

  lemma AddKeeps(s: State, id: GroupId, g: Group)
    requires InvBut(s, id) && g.weight > 0 && g.newWeight > 0 && g.nrCfqq > 0 && g.vdisktime >= s.minVdisktime
    ensures Inv(TreeAdd(s, id, g)) && forall x :: x in TreeAdd(s, id, g).order <==> x == id || x in s.order
  {
    hide Sorted, NoDup, Placed, WeightSum, Keys;
    var groups := s.groups[id := Reweighed(g)];
    KeysOf(groups);
    SortedFrame(s.groups, groups, s.order);
    PlacedSorted(Keys(groups), s.order, id);
    SumFrame(s.groups, groups, s.order);
    SumPlaced(groups, s.order, id);
  }

  lemma DelKeeps(s: State, id: GroupId)
    requires Inv(s) && id in s.order
    ensures InvBut(TreeDel(s, id), id)
    ensures forall x :: x in TreeDel(s, id).order <==> x != id && x in s.order
  {
    hide Sorted, NoDup, WeightSum, Keys;
    RemoveNoDup(s.order, id);
    RemoveSorted(Keys(s.groups), s.order, id);
    SumRemove(s.groups, s.order, id);
  }

  /** Changing what the tree does not depend on. */
  lemma RecordKeeps(s: State, id: GroupId, g: Group)
    requires Inv(s) && id in s.groups && g.weight == s.groups[id].weight && g.vdisktime == s.groups[id].vdisktime
    requires g.newWeight > 0 && (g.nrCfqq > 0 <==> s.groups[id].nrCfqq > 0)
    ensures Inv(s.(groups := s.groups[id := g]))
  {
    hide Sorted, WeightSum, Keys, NoDup;
    var groups := s.groups[id := g];
    SortedFrame(s.groups, groups, s.order);
    SumFrame(s.groups, groups, s.order);
  }

  lemma QueueAddedKeeps(s: State, id: GroupId)
    requires Inv(s) && id in s.groups
    ensures Inv(QueueAdded(s, id))
  {
    hide TreeAdd, Sorted, Keys, WeightSum, NoDup;
    var g := s.groups[id].(nrCfqq := s.groups[id].nrCfqq + 1);
    if id in s.order {
      RecordKeeps(s, id, g);
    } else {
      var v := if s.order == [] then s.minVdisktime else s.groups[s.order[|s.order| - 1]].vdisktime + IDLE_DELAY;
      AddKeeps(s, id, g.(vdisktime := v));
    }
  }

  lemma QueueDeletedKeeps(s: State, id: GroupId)
    requires Inv(s) && id in s.groups && s.groups[id].nrCfqq > 0
    ensures Inv(QueueDeleted(s, id))
  {
    hide Sorted, Keys, WeightSum, NoDup;
    var g := s.groups[id].(nrCfqq := s.groups[id].nrCfqq - 1);
    if g.nrCfqq > 0 {
      RecordKeeps(s, id, g);
    } else {
      DelKeeps(s, id);
      var s1 := TreeDel(s, id);
      SortedFrame(s1.groups, s1.groups[id := g], s1.order);
      SumFrame(s1.groups, s1.groups[id := g], s1.order);
    }
  }

  lemma NewWeightKeeps(s: State, id: GroupId, weight: nat)
    requires Inv(s) && id in s.groups && weight > 0
    ensures Inv(NewWeight(s, id, weight))
  {
    RecordKeeps(s, id, s.groups[id].(newWeight := weight, needsUpdate := true));
  }

  lemma GroupServedKeeps(s: State, id: GroupId, charge: nat)
    requires Inv(s) && id in s.order
    ensures Inv(GroupServed(s, id, charge))
    ensures forall x :: x in GroupServed(s, id, charge).order <==> x in s.order
  {
    hide Sorted, Keys, WeightSum, NoDup, Placed, Scaled, TreeAdd, TreeDel, InvBut;
    DelKeeps(s, id);
    var g := s.groups[id];
    DelFrame(s, id);
    AddKeeps(TreeDel(s, id), id, g.(vdisktime := g.vdisktime + Scaled(charge, g.weight)));
  }

  /** Charging a group that is not on the tree puts it there without a queue, and takes a weight off
      total_weight that was not in it. So the books survive if and only if the group is on the tree. */
  lemma ServedIff(s: State, id: GroupId, charge: nat)
    requires Inv(s) && id in s.groups
    ensures Known(s) && s.groups[id].weight > 0
    ensures Inv(GroupServed(s, id, charge)) <==> id in s.order
  {
    hide Sorted, Keys, WeightSum, NoDup, Scaled;
    if id in s.order {
      GroupServedKeeps(s, id, charge);
    } else {
      var g := s.groups[id];
      var s1 := TreeDel(s, id);
      var g' := g.(vdisktime := g.vdisktime + Scaled(charge, g.weight));
      KeysOf(s1.groups[id := Reweighed(g')]);
      PlacedHas(Keys(s1.groups[id := Reweighed(g')]), s1.order, id);
    }
  }

  lemma {:induction false} PlacedHas(keys: map<GroupId, nat>, order: seq<GroupId>, g: GroupId)
    requires g in keys && forall x :: x in order ==> x in keys
    ensures g in Placed(keys, order, g)
    decreases |order|
  {
    if order != [] {
      PlacedHas(keys, order[1..], g);
    }
  }

  lemma DelFrame(s: State, id: GroupId)
    requires id in s.groups
    ensures TreeDel(s, id).groups == s.groups && TreeDel(s, id).minVdisktime == s.minVdisktime
  {
  }

  /** The group chosen has the least virtual time on the tree, which min_vdisktime rises to. */
  lemma NextIsLeast(s: State)
    requires Inv(s)
    ensures
      var (first, s') := NextGroup(s);
      && Inv(s') && s'.minVdisktime >= s.minVdisktime
      && (first.Some? ==> first.value in s.groups && s'.minVdisktime == s.groups[first.value].vdisktime)
      && s'.groups == s.groups && s'.order == s.order
      && (first.None? <==> s.order == [])
      && (first.Some? ==>
            first.value == s.order[0]
            && forall g :: g in s.order ==> s.groups[first.value].vdisktime <= s.groups[g].vdisktime)
  {
    hide WeightSum, NoDup;
    KeysOf(s.groups);
    if s.order != [] {
      SortedTail(Keys(s.groups), s.order);
      assert forall g :: g in s.order ==> g == s.order[0] || g in s.order[1..];
    }
  }

  lemma {:induction false} PlacedLast(keys: map<GroupId, nat>, order: seq<GroupId>, g: GroupId)
    requires g in keys && forall x :: x in order ==> x in keys && keys[x] <= keys[g]
    ensures Placed(keys, order, g) == order + [g]
    decreases |order|
  {
    if order != [] {
      PlacedLast(keys, order[1..], g);
    }
  }

  /** A group that comes onto the tree goes behind all others, by at least the idle delay. */
  lemma ArrivesLast(s: State, id: GroupId)
    requires Inv(s) && id in s.groups && id !in s.order
    ensures
      var s' := QueueAdded(s, id);
      && s'.order == s.order + [id] && id in s'.groups
      && (s.order == [] ==> s'.groups[id].vdisktime == s.minVdisktime)
      && (forall g :: g in s.order ==>
            g in s'.groups && s'.groups[g] == s.groups[g]
            && s.groups[g].vdisktime + IDLE_DELAY <= s'.groups[id].vdisktime)
      && (s.order != [] ==>
            s'.groups[id].vdisktime == s.groups[s.order[|s.order| - 1]].vdisktime + IDLE_DELAY)
  {
    hide WeightSum, NoDup, Placed;
    var groups := QueueAdded(s, id).groups;
    KeysOf(s.groups);
    KeysOf(groups);
    forall g | g in s.order ensures s.groups[g].vdisktime <= s.groups[s.order[|s.order| - 1]].vdisktime {
      var i :| 0 <= i < |s.order| && s.order[i] == g;
    }
    PlacedLast(Keys(groups), s.order, id);
  }
}

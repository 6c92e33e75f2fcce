/** The group service tree of struct cfq_data, changed in place. */
module CfqQueue {
  import opened Lists
  import opened ServiceTree
  import opened Cfq

  class GroupTree {
    var groups: map<GroupId, Group>
    var order: seq<GroupId>
    var left: Option<GroupId>
    var minVdisktime: nat
    var totalWeight: int

    ghost function View(): State
      reads this
    {
      State(groups, order, left, minVdisktime, totalWeight)
    }

    ghost predicate Valid()
      reads this
    {
      Inv(View())
    }

    /** Groups exist before they have queues. */
    constructor (groups: map<GroupId, Group>)
      requires forall g :: g in groups ==> groups[g].weight > 0 && groups[g].newWeight > 0 && groups[g].nrCfqq == 0
      ensures Valid() && View() == State(groups, [], None, 0, 0)
    {
      this.groups, order, left, minVdisktime, totalWeight := groups, [], None, 0, 0;
    }

    /** cfq_group_service_tree_add with cfq_update_group_weight: a group that is off the tree, no
        earlier than min_vdisktime, takes over its pending weight and joins a sound tree. */
    method ServiceTreeAdd(id: GroupId)
      requires Known(View()) && id in groups
      modifies this`groups, this`order, this`left, this`totalWeight
      ensures View() == TreeAdd(old(View()), id, old(groups)[id])
      ensures groups.Keys == old(groups).Keys && !groups[id].needsUpdate
      ensures totalWeight == old(totalWeight) + groups[id].weight
      ensures
        var g := old(groups)[id];
        && groups[id].weight == (if g.needsUpdate then g.newWeight else g.weight)
        && (old(InvBut(View(), id)) && g.nrCfqq > 0 && g.vdisktime >= minVdisktime ==> Valid() && id in order)
    {
      hide Inv, InvBut, Keys, Sorted;
      KeysOf(groups[id := Reweighed(groups[id])]);
      if InvBut(View(), id) && groups[id].nrCfqq > 0 && groups[id].vdisktime >= minVdisktime {
        Weighs(View(), id);
        AddKeeps(View(), id, groups[id]);
      }
      groups := groups[id := Reweighed(groups[id])];
      order := Placed(Keys(groups), order, id);
      if order[0] == id {
        left := Some(id);
      }
      totalWeight := totalWeight + groups[id].weight;
      assert View() == TreeAdd(old(View()), id, old(groups)[id]);
    }

    /** cfq_group_service_tree_del with cfq_rb_erase: a group taken off a sound tree leaves one that is
        sound without it. */
    method ServiceTreeDel(id: GroupId)
      requires id in groups
      modifies this`totalWeight, this`order, this`left
      ensures View() == TreeDel(old(View()), id)
      ensures totalWeight == old(totalWeight) - groups[id].weight && left != Some(id)
      ensures old(Valid()) && id in old(order) ==> InvBut(View(), id)
    {
      hide Inv, InvBut, Remove;
      if Valid() && id in order {
        DelKeeps(View(), id);
      }
      totalWeight := totalWeight - groups[id].weight;
      if left == Some(id) {
        left := None;
      }
      order := Remove(order, id);
    }

    /** cfq_group_notify_queue_add. */
    method NotifyQueueAdd(id: GroupId)
      requires Valid() && id in groups
      modifies this
      ensures Valid() && View() == QueueAdded(old(View()), id)
    {
      hide TreeAdd, Sorted, WeightSum, Keys, NoDup;
      ghost var s := View();
      QueueAddedKeeps(s, id);
      groups := groups[id := groups[id].(nrCfqq := groups[id].nrCfqq + 1)];
      if id in order {
        return;
      }
      var v := if order != [] then groups[order[|order| - 1]].vdisktime + IDLE_DELAY else minVdisktime;
      groups := groups[id := groups[id].(vdisktime := v)];
      AddOverwrites(s, View(), id, groups[id]);
      ServiceTreeAdd(id);
    }

    /** cfq_group_notify_queue_del. */
    method NotifyQueueDel(id: GroupId)
      requires Valid() && id in groups && groups[id].nrCfqq > 0
      modifies this
      ensures Valid() && View() == QueueDeleted(old(View()), id)
    {
      hide TreeDel, Sorted, WeightSum, Keys, NoDup;
      QueueDeletedKeeps(View(), id);
      groups := groups[id := groups[id].(nrCfqq := groups[id].nrCfqq - 1)];
      if groups[id].nrCfqq > 0 {
        return;
      }
      ServiceTreeDel(id);
    }

    /** cfq_group_served keeps the books if and only if the group is on the tree, which its caller
        sees to. */
    method GroupServed(id: GroupId, charge: nat)
      requires Valid() && id in groups
      modifies this
      ensures View() == Cfq.GroupServed(old(View()), id, charge)
      ensures Valid() <==> id in old(order)
    {
      hide TreeAdd, Inv, InvBut, Keys, Scaled;
      ghost var s := View();
      ServedIff(s, id, charge);
      ServiceTreeDel(id);
      ghost var s1 := View();
      StillKnown(s, id);
      groups := groups[id := groups[id].(vdisktime := groups[id].vdisktime + Scaled(charge, groups[id].weight))];
      AddOverwrites(s1, View(), id, groups[id]);
      ServiceTreeAdd(id);
    }

    /** cfq_update_blkio_group_weight. */
    method UpdateWeight(id: GroupId, weight: nat)
      requires Valid() && id in groups && weight > 0
      modifies this`groups
      ensures Valid() && View() == NewWeight(old(View()), id, weight)
    {
      NewWeightKeeps(View(), id, weight);
      groups := groups[id := groups[id].(newWeight := weight, needsUpdate := true)];
    }

    /** cfq_rb_first_group. */
    method FirstGroup() returns (first: Option<GroupId>)
      requires Valid()
      modifies this`left
      ensures Valid() && first == left && (first.None? <==> order == [])
      ensures first.Some? ==> first.value == order[0]
    {
      hide Sorted, WeightSum, Keys, NoDup;
      if left.None? && order != [] {
        left := Some(order[0]);
      }
      return left;
    }

    /** cfq_get_next_cfqg with update_min_vdisktime. */
    method GetNext() returns (first: Option<GroupId>)
      requires Valid()
      modifies this`left, this`minVdisktime
      ensures Valid() && (first, View()) == NextGroup(old(View()))
      ensures first.Some? ==> forall g :: g in order ==> groups[first.value].vdisktime <= groups[g].vdisktime
    {
      hide Sorted, WeightSum, Keys, NoDup;
      NextIsLeast(View());
      if order == [] {
        return None;
      }
      first := FirstGroup();
      if left.Some? && groups[left.value].vdisktime > minVdisktime {
        minVdisktime := groups[left.value].vdisktime;
      }
    }
  }

  lemma Weighs(s: State, id: GroupId)
    requires InvBut(s, id) && id in s.groups
    ensures s.groups[id].weight > 0 && s.groups[id].newWeight > 0
  {
  }

  lemma StillKnown(s: State, id: GroupId)
    requires Inv(s) && id in s.groups
    ensures Known(TreeDel(s, id)) && s.groups[id].weight > 0
  {
  }

  /** Adding a group to the tree replaces its record. */
  lemma AddOverwrites(s: State, s': State, id: GroupId, g: Group)
    requires Known(s) && s' == s.(groups := s.groups[id := g])
    ensures Known(s') && TreeAdd(s', id, g) == TreeAdd(s, id, g)
  {
    hide Placed;
    assert s'.groups[id := Reweighed(g)] == s.groups[id := Reweighed(g)];
  }
}

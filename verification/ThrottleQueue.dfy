/** struct throtl_data: groups, their service tree, and the dispatch rounds over them. */
module ThrottleQueue {
  import opened Lists
  import opened ThrottleSlice
  import opened ThrottleLanes
  import opened ServiceTree

  datatype Group = Group(rd: Lane, wr: Lane) {
    predicate Busy() {
      rd.bios != [] || wr.bios != []
    }

    predicate Limited() {
      rd.m.Limited() && wr.m.Limited()
    }
  }

  /** What a dispatch round hands on: a bio, the group it came from, its direction. */
  datatype Sent = Sent(group: GroupId, isWrite: bool, bio: Bio)

  function Tagged(g: GroupId, isWrite: bool, bios: seq<Bio>): seq<Sent> {
    seq(|bios|, i requires 0 <= i < |bios| => Sent(g, isWrite, bios[i]))
  }

  /** The bios of one group and direction, in order. */
  function Of(sent: seq<Sent>, g: GroupId, isWrite: bool): seq<Bio> {
    if sent == [] then []
    else
      (if sent[0].group == g && sent[0].isWrite == isWrite then [sent[0].bio] else [])
      + Of(sent[1..], g, isWrite)
  }

  lemma {:induction false} OfConcat(a: seq<Sent>, b: seq<Sent>, g: GroupId, isWrite: bool)
    ensures Of(a + b, g, isWrite) == Of(a, g, isWrite) + Of(b, g, isWrite)
  {
    if a == [] {
      assert a + b == b;
    } else {
      assert (a + b)[1..] == a[1..] + b;
      OfConcat(a[1..], b, g, isWrite);
    }
  }

  lemma OfNothing()
    ensures forall g, w, bios: seq<Bio> :: Of([], g, w) + bios == bios
  {
  }

  lemma {:induction false} OfTagged(h: GroupId, w: bool, bios: seq<Bio>, g: GroupId, isWrite: bool)
    ensures Of(Tagged(h, w, bios), g, isWrite) == if h == g && w == isWrite then bios else []
  {
    if bios != [] {
      assert Tagged(h, w, bios)[1..] == Tagged(h, w, bios[1..]);
      OfTagged(h, w, bios[1..], g, isWrite);
      assert bios == [bios[0]] + bios[1..];
    }
  }

  function Waiting(groups: map<GroupId, Group>, g: GroupId, isWrite: bool): seq<Bio> {
    if g !in groups then [] else if isWrite then groups[g].wr.bios else groups[g].rd.bios
  }

  /** Bios queued in one direction over a list of groups. */
  function Queued(groups: map<GroupId, Group>, list: seq<GroupId>, isWrite: bool): nat {
    if list == [] then 0 else |Waiting(groups, list[0], isWrite)| + Queued(groups, list[1..], isWrite)
  }

  lemma QueuedCons(groups: map<GroupId, Group>, list: seq<GroupId>, g: GroupId, isWrite: bool)
    ensures Queued(groups, [g] + list, isWrite) == |Waiting(groups, g, isWrite)| + Queued(groups, list, isWrite)
  {
    assert ([g] + list)[1..] == list;
  }

  lemma {:induction false} QueuedUpdate(groups: map<GroupId, Group>, list: seq<GroupId>, g: GroupId, grp: Group,
                                        isWrite: bool)
    requires NoDup(list)
    ensures Queued(groups[g := grp], list, isWrite) ==
              Queued(groups, list, isWrite)
              + (if g in list then |Waiting(groups[g := grp], g, isWrite)| - |Waiting(groups, g, isWrite)| else 0)
  {
    if list != [] {
      NoDupTail(list);
      QueuedUpdate(groups, list[1..], g, grp, isWrite);
    }
  }

  lemma {:induction false} QueuedSomewhere(groups: map<GroupId, Group>, list: seq<GroupId>, isWrite: bool)
    requires Queued(groups, list, isWrite) > 0
    ensures exists g :: g in list && Waiting(groups, g, isWrite) != []
  {
    if Waiting(groups, list[0], isWrite) == [] {
      QueuedSomewhere(groups, list[1..], isWrite);
      var g :| g in list[1..] && Waiting(groups, g, isWrite) != [];
      assert g in list;
    } else {
      assert list[0] in list;
    }
  }

  lemma {:induction false} QueuedAtLeast(groups: map<GroupId, Group>, list: seq<GroupId>, g: GroupId, isWrite: bool)
    requires g in list
    ensures |Waiting(groups, g, isWrite)| <= Queued(groups, list, isWrite)
  {
    if list[0] != g {
      QueuedAtLeast(groups, list[1..], g, isWrite);
    }
  }

  /** The while loop of throtl_dispatch_tg over one direction. */
  method DrainLane(c: Clock, lane: Lane, quota: nat, now: nat) returns (l: Lane, sent: seq<Bio>)
    requires c.Runs() && lane.m.Limited() && quota > 0
    ensures (l, sent) == Drain(c, lane, quota, now)
  {
    hide MayDispatch, TrimSlice;
    l, sent := lane, [];
    var nr := 0;
    assert forall rest: seq<Bio> :: [] + rest == rest;
    while l.bios != []
      invariant 0 <= nr < quota && l.m.Limited()
      invariant
        var (l', rest) := Drain(c, l, quota - nr, now);
        Drain(c, lane, quota, now) == (l', sent + rest)
      decreases |l.bios|
    {
      var bio := l.bios[0];
      ghost var l0, sent0 := l, sent;
      var v := MayDispatch(c, l.m, bio.size, now);
      LimitsAfter(c, l.m, bio.size, now);
      if !v.ok {
        l := l.(m := v.m);
        assert sent + [] == sent;
        return;
      }
      l, sent := Lane(TrimSlice(c, Charge(v.m, bio.size), now), l.bios[1..]), sent + [bio];
      nr := nr + 1;
      assert forall rest: seq<Bio> :: sent0 + ([bio] + rest) == sent + rest;
      if nr >= quota {
        assert sent + [] == sent;
        return;
      }
    }
    assert sent + [] == sent;
  }

  class ThrottleData {
    const clock: Clock
    var all: seq<GroupId>
    var groups: map<GroupId, Group>
    var disptime: map<GroupId, nat>
    var tree: Tree
    var nrReads: int
    var nrWrites: int
    var changed: set<GroupId>

    constructor (clock: Clock)
      requires clock.Runs()
      ensures Valid() && this.clock == clock && groups == map[]
    {
      this.clock := clock;
      all, groups, disptime, tree := [], map[], map[], Tree([], None, 0);
      nrReads, nrWrites, changed := 0, 0, {};
    }

    /** Everything but which groups are on the tree. */
    ghost predicate Sane()
      reads this`all, this`groups, this`disptime, this`tree, this`nrReads, this`nrWrites
    {
      && clock.Runs()
      && NoDup(all)
      && (forall g :: g in all <==> g in groups)
      && groups.Keys == disptime.Keys
      && (forall g :: g in groups ==> groups[g].Limited())
      && TreeOk(disptime, tree)
      && nrReads == Queued(groups, all, false)
      && nrWrites == Queued(groups, all, true)
    }

    /** Whenever the queue lock is free: a group is on the tree exactly when it has bios. */
    ghost predicate Valid()
      reads this`all, this`groups, this`disptime, this`tree, this`nrReads, this`nrWrites
    {
      Sane() && forall g :: g in groups ==> (g in tree.order <==> groups[g].Busy())
    }

    lemma SaneKnows()
      requires Sane()
      ensures clock.Runs() && TreeKnown(disptime, tree.order) && groups.Keys == disptime.Keys
      ensures NoDup(all) && forall g :: g in all <==> g in groups
      ensures forall g :: g in groups ==> groups[g].Limited()
    {
    }

    /** throtl_init_add_tg_lists. */
    method AddGroup(g: GroupId, rd: Meter, wr: Meter)
      requires Valid() && g !in groups && rd.Limited() && wr.Limited()
      modifies this
      ensures Valid() && groups == old(groups)[g := Group(Lane(rd, []), Lane(wr, []))]
    {
      hide TreeOk, Queued;
      var grp := Group(Lane(rd, []), Lane(wr, []));
      QueuedUpdate(groups, all, g, grp, false);
      QueuedUpdate(groups, all, g, grp, true);
      NoDupAppend(all, g);
      QueuedCons(groups[g := grp], all, g, false);
      QueuedCons(groups[g := grp], all, g, true);
      TreeMembers(disptime, tree);
      KeysFrame(disptime, disptime[g := 0], tree);
      assert groups[g := grp].Keys == disptime[g := 0].Keys;
      assert forall x :: x in [g] + all <==> x in groups[g := grp];
      assert g !in tree.order;
      groups, disptime, all := groups[g := grp], disptime[g := 0], [g] + all;
    }

    /** throtl_enqueue_tg. */
    method Enqueue(g: GroupId)
      requires Sane() && g in groups
      modifies this`tree
      ensures Sane() && forall x :: x in tree.order <==> x == g || x in old(tree.order)
      ensures g !in old(tree.order) ==> tree == Insert(disptime, old(tree), g)
      ensures g in old(tree.order) ==> tree == old(tree)
    {
      hide TreeOk;
      TreeMembers(disptime, tree);
      if g !in tree.order {
        InsertOk(disptime, tree, g);
        tree := Insert(disptime, tree, g);
      }
    }

    /** throtl_dequeue_tg. */
    method Dequeue(g: GroupId)
      requires Sane() && g in groups
      modifies this`tree
      ensures Sane() && forall x :: x in tree.order <==> x != g && x in old(tree.order)
      ensures tree.order == Remove(old(tree.order), g)
    {
      hide TreeOk;
      if g in tree.order {
        EraseOk(disptime, tree, g);
        tree := Erase(tree, g);
      }
    }

    /** Replaces a group that has lost some bios, with the totals. */
    method SetGroup(g: GroupId, grp: Group, rd: nat, wr: nat)
      requires Sane() && g in groups && grp.Limited()
      requires |grp.rd.bios| + rd == |groups[g].rd.bios| && |grp.wr.bios| + wr == |groups[g].wr.bios|
      modifies this`groups, this`nrReads, this`nrWrites
      ensures Sane() && groups == old(groups)[g := grp]
    {
      hide TreeOk, Queued, NoDup;
      QueuedUpdate(groups, all, g, grp, false);
      QueuedUpdate(groups, all, g, grp, true);
      groups := groups[g := grp];
      nrReads, nrWrites := nrReads - rd, nrWrites - wr;
    }

    /** throtl_dispatch_tg: up to six reads, then up to two writes. */
    method DispatchGroup(g: GroupId, now: nat) returns (sent: seq<Sent>)
      requires Sane() && g in groups
      modifies this`groups, this`nrReads, this`nrWrites
      ensures Sane() && groups == old(groups)[g := groups[g]]
      ensures
        var (rd, reads') := Drain(clock, old(groups)[g].rd, READS_PER_ROUND, now);
        var (wr, writes') := Drain(clock, old(groups)[g].wr, WRITES_PER_ROUND, now);
        && groups[g] == Group(rd, wr) && sent == Tagged(g, false, reads') + Tagged(g, true, writes')
        && |reads'| <= 6 && |writes'| <= 2
        && (|reads'| == 6 || rd.bios == [] || !MayDispatch(clock, rd.m, rd.bios[0].size, now).ok)
        && (|writes'| == 2 || wr.bios == [] || !MayDispatch(clock, wr.m, wr.bios[0].size, now).ok)
    {
      hide TreeOk, Drain;
      var grp := groups[g];
      DrainsFully(clock, grp.rd, READS_PER_ROUND, now);
      DrainsFully(clock, grp.wr, WRITES_PER_ROUND, now);
      var rd, r := DrainLane(clock, grp.rd, READS_PER_ROUND, now);
      var wr, w := DrainLane(clock, grp.wr, WRITES_PER_ROUND, now);
      SetGroup(g, Group(rd, wr), |r|, |w|);
      sent := Tagged(g, false, r) + Tagged(g, true, w);
    }

    /** A group moves to the place in the tree that its new dispatch time gives it. */
    method Reposition(g: GroupId, time: nat)
      requires Sane() && g in groups
      modifies this`disptime, this`tree
      ensures Sane() && disptime == old(disptime)[g := time]
      ensures forall x :: x in tree.order <==> x == g || x in old(tree.order)
      ensures tree.order == Placed(disptime, Remove(old(tree.order), g), g)
    {
      hide TreeOk, Queued, NoDup, Placed, Remove;
      Dequeue(g);
      TreeMembers(disptime, tree);
      KeysFrame(disptime, disptime[g := time], tree);
      assert groups.Keys == disptime[g := time].Keys;
      disptime := disptime[g := time];
      Enqueue(g);
    }

    /** tg_update_disptime on a group with bios queued: the group is due when the first of its directions
        may send, and takes the place on the tree that this gives it. */
    method UpdateDisptime(g: GroupId, now: nat)
      requires Sane() && g in groups && groups[g].Busy()
      modifies this`groups, this`disptime, this`tree, this`nrReads, this`nrWrites
      ensures Sane() && groups == old(groups)[g := groups[g]]
      ensures forall x :: x in tree.order <==> x == g || x in old(tree.order)
      ensures
        var rd := Recheck(clock, old(groups)[g].rd, now);
        var wr := Recheck(clock, old(groups)[g].wr, now);
        var wait := MinWait(rd.1, wr.1);
        && groups[g] == Group(rd.0, wr.0)
        && wait.Some? && disptime == old(disptime)[g := now + wait.value]
        && tree.order == Placed(disptime, Remove(old(tree.order), g), g)
        && Soonest(clock, old(groups)[g].rd, old(groups)[g].wr, now, disptime[g])
        && groups[g].Limited() && Soonest(clock, groups[g].rd, groups[g].wr, now, disptime[g])
    {
      hide Sane, Recheck, Soonest, MinWait, Placed, Remove;
      SaneKnows();
      MinWaitSoonest(clock, groups[g].rd, groups[g].wr, now);
      var rd := Recheck(clock, groups[g].rd, now);
      var wr := Recheck(clock, groups[g].wr, now);
      SetGroup(g, Group(rd.0, wr.0), 0, 0);
      var wait := MinWait(rd.1, wr.1);
      Reposition(g, now + wait.value);
    }

    /** throtl_rb_first, and whether that group is due. */
    method FirstDue(now: nat) returns (first: Option<GroupId>)
      requires Valid()
      modifies this`tree
      ensures Valid() && tree.order == old(tree.order)
      ensures first.Some? ==> AtHead(first.value, now)
      ensures first.None? ==> NoneDue(disptime, tree.order, now)
    {
      hide TreeOk;
      FirstIsLeast(disptime, tree);
      var (g, tree') := RbFirst(tree);
      tree := tree';
      if g.None? || now < disptime[g.value] {
        return None;
      }
      return g;
    }

    ghost predicate AtHead(g: GroupId, now: nat)
      reads this
    {
      tree.order != [] && g == tree.order[0] && g in disptime && disptime[g] <= now
    }

    /** The due group at the head of the tree leaves it and sends what it may. */
    method SendHead(g: GroupId, now: nat) returns (sent: seq<Sent>)
      requires Valid() && AtHead(g, now)
      modifies this`groups, this`tree, this`nrReads, this`nrWrites
      ensures Sane() && g in groups && tree.order == old(tree.order)[1..] && g !in tree.order
      ensures groups == old(groups)[g := groups[g]] && groups.Keys == old(groups.Keys)
      ensures |sent| <= READS_PER_ROUND + WRITES_PER_ROUND
      ensures Conserved(clock, old(groups), sent, groups, now)
      ensures sent == [] && groups[g].Busy() ==>
                var wait := MinWait(Recheck(clock, groups[g].rd, now).1, Recheck(clock, groups[g].wr, now).1);
                wait.Some? && wait.value >= 1
    {
      hide TreeOk, Drain, Recheck, Conserved, Queued;
      ghost var was, order := groups, tree.order;
      assert g in order;
      HeadGoes(disptime, tree);
      Dequeue(g);
      sent := DispatchGroup(g, now);
      RoundConserves(clock, was, g, now);
      if sent == [] && groups[g].Busy() {
        NothingSentWaits(clock, was[g], groups[g], now);
      }
    }

    /** tg_update_disptime where every other group is in its place. */
    method Resettle(g: GroupId, now: nat)
      requires Sane() && g in groups && groups[g].Busy()
      requires forall x :: x in groups && x != g ==> (x in tree.order <==> groups[x].Busy())
      modifies this`groups, this`disptime, this`tree, this`nrReads, this`nrWrites
      ensures Valid() && groups.Keys == old(groups.Keys)
      ensures Conserved(clock, old(groups), [], groups, now)
      ensures
        var wait := MinWait(Recheck(clock, old(groups)[g].rd, now).1, Recheck(clock, old(groups)[g].wr, now).1);
        && wait.Some? && disptime == old(disptime)[g := now + wait.value]
        && TreeKnown(disptime, tree.order)
        && tree.order == Placed(disptime, Remove(old(tree.order), g), g)
      ensures g in groups && g in disptime && clock.Runs() && groups[g].Limited()
      ensures Soonest(clock, groups[g].rd, groups[g].wr, now, disptime[g])
    {
      hide Sane, Recheck, MinWait, Conserved, Placed, Remove, Soonest;
      ghost var was := groups;
      SaneKnows();
      UpdateDisptime(g, now);
      RecheckConserves(clock, was, g, now);
    }

    /** One turn of the loop of throtl_select_dispatch. */
    method Round(g: GroupId, now: nat) returns (sent: seq<Sent>)
      requires Valid() && AtHead(g, now) && TreeKnown(disptime, tree.order)
      modifies this`groups, this`disptime, this`tree, this`nrReads, this`nrWrites
      ensures Valid() && groups.Keys == old(groups.Keys) && TreeKnown(disptime, tree.order)
      ensures |sent| <= READS_PER_ROUND + WRITES_PER_ROUND
      ensures Conserved(clock, old(groups), sent, groups, now)
      ensures sent == [] ==> Due(disptime, tree.order, now) < old(Due(disptime, tree.order, now))
      ensures g in groups && g in disptime && clock.Runs() && groups[g].Limited()
      ensures disptime == old(disptime)[g := disptime[g]]
      ensures groups[g].Busy() ==> Soonest(clock, groups[g].rd, groups[g].wr, now, disptime[g])
    {
      hide Sane, Recheck, Conserved, Due, MinWait, Placed, Remove, Soonest;
      ghost var keys, order := disptime, tree.order;
      HeadIsDue(keys, order, now);
      sent := SendHead(g, now);
      ghost var mid := groups;
      if groups[g].Busy() {
        Resettle(g, now);
        ConservedThen(clock, old(groups), sent, mid, [], groups, now);
        assert sent + [] == sent;
        if sent == [] {
          DueLater(keys, disptime, order[1..], g, now);
        }
      }
      SaneKnows();
    }

    /** throtl_select_dispatch: one pass over the groups that are due at a fixed time. It ends, it
        sends at most 39 bios, and what it sends and what stays queued is, for every group and
        direction, the queue it found. It stops early only when nothing more is due. */
    method SelectDispatch(now: nat) returns (nrDisp: nat, sent: seq<Sent>)
      requires Valid()
      modifies this`groups, this`disptime, this`tree, this`nrReads, this`nrWrites
      ensures Valid() && groups.Keys == old(groups.Keys)
      ensures nrDisp == |sent| <= 39
      ensures Conserved(clock, old(groups), sent, groups, now)
      ensures nrDisp < QUANTUM ==> NoneDue(disptime, tree.order, now)
    {
      hide Sane, Conserved, Due, NoneDue;
      nrDisp, sent := 0, [];
      SaneKnows();
      NothingConserved(clock, groups, now);
      while true
        invariant Valid() && groups.Keys == old(groups.Keys) && TreeKnown(disptime, tree.order)
        invariant nrDisp == |sent| < QUANTUM
        invariant Conserved(clock, old(groups), sent, groups, now)
        decreases QUANTUM - nrDisp, Due(disptime, tree.order, now)
      {
        var first := FirstDue(now);
        if first.None? {
          break;
        }
        ghost var was, sent0 := groups, sent;
        var s := Round(first.value, now);
        nrDisp, sent := nrDisp + |s|, sent + s;
        ConservedThen(clock, old(groups), sent0, was, s, groups, now);
        if nrDisp >= QUANTUM {
          break;
        }
      }
    }

    /** The queueing part of blk_throtl_bio. A bio goes straight through only if none waits in its
        direction and the limits allow it; otherwise it joins the end of the queue. */
    method ThrottleBio(g: GroupId, isWrite: bool, bio: Bio, now: nat) returns (queued: bool)
      requires Valid() && g in groups
      modifies this`groups, this`disptime, this`tree, this`nrReads, this`nrWrites
      ensures Valid() && groups.Keys == old(groups.Keys)
      ensures
        var l := LaneOf(old(groups)[g], isWrite);
        queued <==> l.bios != [] || !MayDispatch(clock, l.m, bio.size, now).ok
      ensures !queued ==>
                var m := LaneOf(old(groups)[g], isWrite).m;
                var m' := TrimSlice(clock, Charge(MayDispatch(clock, m, bio.size, now).m, bio.size), now);
                groups == old(groups)[g := WithLane(old(groups)[g], isWrite, Lane(m', []))]
      ensures queued ==>
                forall h, w :: h in groups ==>
                  LaneOf(groups[h], w).bios
                  == LaneOf(old(groups)[h], w).bios + if h == g && w == isWrite then [bio] else []
      ensures g in groups && g in disptime && clock.Runs() && groups[g].Limited()
      ensures
        if queued && LaneOf(old(groups)[g], isWrite).bios == []
        then disptime == old(disptime)[g := disptime[g]] && Soonest(clock, groups[g].rd, groups[g].wr, now, disptime[g])
        else disptime == old(disptime)
    {
      hide TreeOk, MayDispatch, TrimSlice, Queued, Recheck, Metered, Soonest;
      var l := LaneOf(groups[g], isWrite);
      LimitsAfter(clock, l.m, bio.size, now);
      if l.bios != [] {
        AddBio(g, isWrite, l.(bios := l.bios + [bio]));
        return true;
      }
      var v := MayDispatch(clock, l.m, bio.size, now);
      if v.ok {
        var m := TrimSlice(clock, Charge(v.m, bio.size), now);
        SetGroup(g, WithLane(groups[g], isWrite, l.(m := m)), 0, 0);
        return false;
      }
      AddBio(g, isWrite, Lane(v.m, [bio]));
      hide Sane, Metered;
      ghost var mid := groups;
      Resettle(g, now);
      OfNothing();
      forall h, w | h in groups ensures LaneOf(groups[h], w).bios == LaneOf(mid[h], w).bios {
        assert Kept(clock, mid[h], Of([], h, w), groups[h], w, now);
      }
      return true;
    }

    /** throtl_add_bio_tg: the lane has gained one bio, and the group is on the tree. */
    method AddBio(g: GroupId, isWrite: bool, l: Lane)
      requires Valid() && g in groups && l.m.Limited() && |l.bios| == |LaneOf(groups[g], isWrite).bios| + 1
      modifies this`groups, this`tree, this`nrReads, this`nrWrites
      ensures Valid() && groups == old(groups)[g := WithLane(old(groups)[g], isWrite, l)]
      ensures g in tree.order
    {
      hide TreeOk, Queued;
      var grp := WithLane(groups[g], isWrite, l);
      QueuedUpdate(groups, all, g, grp, false);
      QueuedUpdate(groups, all, g, grp, true);
      groups := groups[g := grp];
      if isWrite {
        nrWrites := nrWrites + 1;
      } else {
        nrReads := nrReads + 1;
      }
      Enqueue(g);
    }

    /** throtl_update_blkio_group_*: the new limit is in force at once, within the running slice, and
        the group is marked. */
    method UpdateLimits(g: GroupId, isWrite: bool, bps: nat, iops: nat)
      requires Valid() && g in groups && bps > 0 && iops > 0
      modifies this`groups, this`nrReads, this`nrWrites, this`changed
      ensures Valid() && changed == old(changed) + {g}
      ensures
        var l := LaneOf(old(groups)[g], isWrite);
        groups == old(groups)[g := WithLane(old(groups)[g], isWrite, l.(m := l.m.(bps := bps, iops := iops)))]
    {
      hide TreeOk, Queued;
      var l := LaneOf(groups[g], isWrite);
      SetGroup(g, WithLane(groups[g], isWrite, l.(m := l.m.(bps := bps, iops := iops))), 0, 0);
      changed := changed + {g};
    }

    /** throtl_process_limit_change: every marked group starts both slices anew under its limits, and is
        repositioned for the new waits if bios wait in it. No bio moves. */
    method ProcessLimitChange(now: nat)
      requires Valid()
      modifies this`groups, this`disptime, this`tree, this`nrReads, this`nrWrites, this`changed
      ensures Valid() && groups.Keys == old(groups.Keys) && changed == old(changed) - old(groups).Keys
      ensures forall g :: g in groups ==> Settled(clock, old(groups)[g], groups[g], g in old(changed), now)
      ensures forall g :: g in tree.order <==> g in old(tree.order)
    {
      hide Sane, NoDup, Processed, Settled;
      SaneKnows();
      ghost var was, marked := groups, changed;
      NoneProcessed(clock, was, marked, now);
      var i := 0;
      while i < |all|
        invariant 0 <= i <= |all| && Valid() && all == old(all)
        invariant Processed(clock, was, groups, marked, changed, all[..i], now)
        invariant forall g :: g in tree.order <==> g in old(tree.order)
      {
        var g := all[i];
        SaneKnows();
        Distinct(all, i);
        assert all[..i + 1] == all[..i] + [g] && g in all;
        ghost var groups0, changed0 := groups, changed;
        VisitGroup(g, now);
        OneProcessed(clock, was, groups0, groups, marked, changed0, all[..i], g, now);
        i := i + 1;
      }
      SaneKnows();
      assert all[..i] == all;
      AllProcessed(clock, was, groups, marked, changed, all, now);
    }

    /** One turn of the loop of throtl_process_limit_change. */
    method VisitGroup(g: GroupId, now: nat)
      requires Valid() && g in groups
      modifies this`groups, this`disptime, this`tree, this`nrReads, this`nrWrites, this`changed
      ensures Valid() && g in groups && changed == old(changed) - {g}
      ensures g in old(changed) ==>
                groups == old(groups)[g := groups[g]] && Settled(clock, old(groups)[g], groups[g], true, now)
      ensures g !in old(changed) ==> groups == old(groups)
      ensures forall x :: x in tree.order <==> x in old(tree.order)
    {
      hide Sane, Settled;
      if g in changed {
        changed := changed - {g};
        RestartGroup(g, now);
      }
    }

    /** A marked group of throtl_process_limit_change. */
    method RestartGroup(g: GroupId, now: nat)
      requires Valid() && g in groups
      modifies this`groups, this`disptime, this`tree, this`nrReads, this`nrWrites
      ensures Valid() && groups == old(groups)[g := groups[g]]
      ensures Settled(clock, old(groups)[g], groups[g], true, now)
      ensures g in groups && g in disptime && clock.Runs() && groups[g].Limited()
      ensures groups[g].Busy() ==> Soonest(clock, groups[g].rd, groups[g].wr, now, disptime[g])
      ensures forall x :: x in tree.order <==> x in old(tree.order)
    {
      hide Sane, MayDispatch, Recheck, Restarted, Placed, MinWait, Soonest;
      SaneKnows();
      RestartSlices(g, now);
      if g in tree.order {
        UpdateDisptime(g, now);
      }
    }

    /** throtl_start_new_slice in both directions. */
    method RestartSlices(g: GroupId, now: nat)
      requires Valid() && g in groups
      modifies this`groups, this`nrReads, this`nrWrites
      ensures Valid()
      ensures
        var grp := old(groups)[g];
        && groups == old(groups)[g := Group(Lane(StartSlice(clock, grp.rd.m, now), grp.rd.bios),
                                            Lane(StartSlice(clock, grp.wr.m, now), grp.wr.bios))]
        && Restarted(clock, grp.rd.m, groups[g].rd.m, now) && Restarted(clock, grp.wr.m, groups[g].wr.m, now)
        && Restarted(clock, grp.rd.m, Recheck(clock, groups[g].rd, now).0.m, now)
        && Restarted(clock, grp.wr.m, Recheck(clock, groups[g].wr, now).0.m, now)
    {
      hide TreeOk, Queued, Recheck, Restarted;
      var grp := groups[g];
      RecheckRestarts(clock, grp.rd.m, grp.rd.bios, now);
      RecheckRestarts(clock, grp.wr.m, grp.wr.bios, now);
      SetGroup(g, Group(grp.rd.(m := StartSlice(clock, grp.rd.m, now)), grp.wr.(m := StartSlice(clock, grp.wr.m, now))),
               0, 0);
    }

    /** throtl_schedule_next_dispatch: none if nothing is queued, else how long until the first
        group is due. Its BUG_ON, an empty tree, cannot be met. */
    method ScheduleNext(now: nat) returns (delay: Option<nat>)
      requires Valid()
      modifies this`tree
      ensures Valid() && tree.order == old(tree.order)
      ensures delay.None? <==> forall g :: g in groups ==> !groups[g].Busy()
      ensures delay.Some? ==>
                && (exists g :: g in tree.order && g in disptime && disptime[g] <= now + delay.value)
                && (forall g :: g in tree.order && g in disptime && delay.value > 0 ==>
                      disptime[g] >= now + delay.value)
    {
      hide TreeOk, Queued;
      if nrReads + nrWrites == 0 {
        IdleWhenZero(groups, all);
        return None;
      }
      ghost var busy := SomeoneQueues(groups, all);
      assert busy in groups && busy in tree.order;
      FirstIsLeast(disptime, tree);
      var (first, tree') := RbFirst(tree);
      tree := tree';
      assert first.Some?;
      var min := disptime[first.value];
      assert first.value in tree.order;
      return Some(if min <= now then 0 else min - now);
    }
  }

  /** A meter with these limits whose slice starts now, with nothing charged to it. */
  predicate Restarted(c: Clock, limits: Meter, m: Meter, now: nat) {
    m == StartSlice(c, limits, now).(end := m.end) && m.end >= now + c.slice
  }

  /** What becomes of a group: restarted if it was marked, else untouched. */
  predicate Settled(c: Clock, was: Group, grp: Group, marked: bool, now: nat) {
    && grp.rd.bios == was.rd.bios && grp.wr.bios == was.wr.bios
    && (marked ==> Restarted(c, was.rd.m, grp.rd.m, now) && Restarted(c, was.wr.m, grp.wr.m, now))
    && (!marked ==> grp == was)
  }

  /** The groups in `done` have had their marks looked at. */
  ghost predicate Processed(c: Clock, was: map<GroupId, Group>, groups: map<GroupId, Group>, marked: set<GroupId>,
                            changed: set<GroupId>, done: seq<GroupId>, now: nat)
  {
    && groups.Keys == was.Keys
    && (forall g :: g in changed <==> g in marked && g !in done)
    && (forall g :: g in groups ==> Settled(c, was[g], groups[g], g in marked && g in done, now))
  }

  lemma NoneProcessed(c: Clock, was: map<GroupId, Group>, marked: set<GroupId>, now: nat)
    ensures Processed(c, was, was, marked, marked, [], now)
  {
  }

  lemma OneProcessed(c: Clock, was: map<GroupId, Group>, groups: map<GroupId, Group>, groups': map<GroupId, Group>,
                     marked: set<GroupId>, changed: set<GroupId>, done: seq<GroupId>, g: GroupId, now: nat)
    requires Processed(c, was, groups, marked, changed, done, now) && g in groups && g !in done && g in groups'
    requires g in changed ==> groups' == groups[g := groups'[g]] && Settled(c, groups[g], groups'[g], true, now)
    requires g !in changed ==> groups' == groups
    ensures Processed(c, was, groups', marked, changed - {g}, done + [g], now)
  {
    hide Restarted;
    assert groups'.Keys == groups.Keys;
  }

  lemma AllProcessed(c: Clock, was: map<GroupId, Group>, groups: map<GroupId, Group>, marked: set<GroupId>,
                     changed: set<GroupId>, done: seq<GroupId>, now: nat)
    requires Processed(c, was, groups, marked, changed, done, now) && forall g :: g in groups <==> g in done
    ensures groups.Keys == was.Keys && changed == marked - was.Keys
    ensures forall g :: g in groups ==> Settled(c, was[g], groups[g], g in marked, now)
  {
  }

  lemma Distinct(list: seq<GroupId>, i: nat)
    requires NoDup(list) && i < |list|
    ensures list[i] !in list[..i]
  {
  }

  lemma RecheckRestarts(c: Clock, limits: Meter, bios: seq<Bio>, now: nat)
    requires c.Runs() && limits.Limited()
    ensures
      var m := StartSlice(c, limits, now);
      Restarted(c, limits, m, now) && Restarted(c, limits, Recheck(c, Lane(m, bios), now).0.m, now)
  {
    hide BpsWait, IopsWait;
  }

  function LaneOf(grp: Group, isWrite: bool): Lane {
    if isWrite then grp.wr else grp.rd
  }

  function WithLane(grp: Group, isWrite: bool, l: Lane): Group {
    if isWrite then grp.(wr := l) else grp.(rd := l)
  }

  lemma IdleWhenZero(groups: map<GroupId, Group>, all: seq<GroupId>)
    requires forall g :: g in groups ==> g in all
    requires Queued(groups, all, false) == 0 && Queued(groups, all, true) == 0
    ensures forall g :: g in groups ==> !groups[g].Busy()
  {
    forall g | g in groups ensures !groups[g].Busy() {
      QueuedAtLeast(groups, all, g, false);
      QueuedAtLeast(groups, all, g, true);
    }
  }

  lemma SomeoneQueues(groups: map<GroupId, Group>, all: seq<GroupId>) returns (g: GroupId)
    requires Queued(groups, all, false) + Queued(groups, all, true) > 0
    ensures g in all && g in groups && groups[g].Busy()
  {
    var w := Queued(groups, all, true) > 0;
    QueuedSomewhere(groups, all, w);
    g :| g in all && Waiting(groups, g, w) != [];
  }

  predicate TreeKnown(keys: map<GroupId, nat>, order: seq<GroupId>) {
    forall x :: x in order ==> x in keys
  }

  predicate NoneDue(keys: map<GroupId, nat>, order: seq<GroupId>, now: nat) {
    forall g :: g in order && g in keys ==> keys[g] > now
  }

  /** For every group and direction, sent bios followed by waiting bios are the bios that waited,
      and the sent ones went out under the meter. */
  ghost predicate Conserved(c: Clock, was: map<GroupId, Group>, sent: seq<Sent>, groups: map<GroupId, Group>,
                            now: nat)
  {
    && groups.Keys == was.Keys
    && forall g, w :: g in was ==> Kept(c, was[g], Of(sent, g, w), groups[g], w, now)
  }

  ghost predicate Kept(c: Clock, was: Group, sent: seq<Bio>, grp: Group, w: bool, now: nat) {
    && sent + LaneOf(grp, w).bios == LaneOf(was, w).bios
    && Metered(c, LaneOf(was, w).m, LaneOf(grp, w).m, sent, now)
  }

  lemma NothingConserved(c: Clock, groups: map<GroupId, Group>, now: nat)
    ensures Conserved(c, groups, [], groups, now)
  {
    hide Metered;
    OfNothing();
    forall g, w | g in groups ensures Kept(c, groups[g], Of([], g, w), groups[g], w, now) {
      assert Of([], g, w) == [];
      MeteredNothing(c, LaneOf(groups[g], w).m, now);
    }
  }

  lemma ConservedThen(c: Clock, a: map<GroupId, Group>, s: seq<Sent>, b: map<GroupId, Group>, s': seq<Sent>,
                      d: map<GroupId, Group>, now: nat)
    requires Conserved(c, a, s, b, now) && Conserved(c, b, s', d, now)
    ensures Conserved(c, a, s + s', d, now)
  {
    hide Metered;
    forall g, w | g in a ensures Kept(c, a[g], Of(s + s', g, w), d[g], w, now) {
      OfConcat(s, s', g, w);
      assert Kept(c, a[g], Of(s, g, w), b[g], w, now) && Kept(c, b[g], Of(s', g, w), d[g], w, now);
      MeteredThen(c, LaneOf(a[g], w).m, Of(s, g, w), LaneOf(b[g], w).m, Of(s', g, w), LaneOf(d[g], w).m, now);
      assert (Of(s, g, w) + Of(s', g, w)) + LaneOf(d[g], w).bios == Of(s, g, w) + (Of(s', g, w) + LaneOf(d[g], w).bios);
    }
  }

  lemma RoundConserves(c: Clock, was: map<GroupId, Group>, g: GroupId, now: nat)
    requires c.Runs() && g in was && was[g].Limited()
    ensures
      var rd := Drain(c, was[g].rd, READS_PER_ROUND, now);
      var wr := Drain(c, was[g].wr, WRITES_PER_ROUND, now);
      var sent := Tagged(g, false, rd.1) + Tagged(g, true, wr.1);
      Conserved(c, was, sent, was[g := Group(rd.0, wr.0)], now)
  {
    hide Drain, Metered, Of;
    var rd := Drain(c, was[g].rd, READS_PER_ROUND, now);
    var wr := Drain(c, was[g].wr, WRITES_PER_ROUND, now);
    var sent := Tagged(g, false, rd.1) + Tagged(g, true, wr.1);
    var groups := was[g := Group(rd.0, wr.0)];
    DrainIsMetered(c, was[g].rd, READS_PER_ROUND, now);
    DrainIsMetered(c, was[g].wr, WRITES_PER_ROUND, now);
    forall h, w | h in was ensures Kept(c, was[h], Of(sent, h, w), groups[h], w, now) {
      OfConcat(Tagged(g, false, rd.1), Tagged(g, true, wr.1), h, w);
      OfTagged(g, false, rd.1, h, w);
      OfTagged(g, true, wr.1, h, w);
      MeteredNothing(c, LaneOf(was[h], w).m, now);
      var out := if h != g then [] else if w then wr.1 else rd.1;
      assert Of(sent, h, w) == out;
      assert out + LaneOf(groups[h], w).bios == LaneOf(was[h], w).bios;
    }
  }

  lemma RecheckConserves(c: Clock, was: map<GroupId, Group>, g: GroupId, now: nat)
    requires c.Runs() && g in was && was[g].Limited()
    ensures Conserved(c, was, [], was[g := Group(Recheck(c, was[g].rd, now).0, Recheck(c, was[g].wr, now).0)], now)
  {
    hide Recheck, Metered;
    var groups := was[g := Group(Recheck(c, was[g].rd, now).0, Recheck(c, was[g].wr, now).0)];
    RecheckIsMetered(c, was[g].rd, now);
    RecheckIsMetered(c, was[g].wr, now);
    forall h, w | h in was ensures Kept(c, was[h], Of([], h, w), groups[h], w, now) {
      assert Of([], h, w) == [];
      MeteredNothing(c, LaneOf(was[h], w).m, now);
    }
  }

  lemma HeadGoes(keys: map<GroupId, nat>, t: Tree)
    requires TreeOk(keys, t) && t.order != []
    ensures Remove(t.order, t.order[0]) == t.order[1..] && t.order[0] !in t.order[1..]
  {
    NoDupTail(t.order);
  }

  lemma HeadIsDue(keys: map<GroupId, nat>, order: seq<GroupId>, now: nat)
    requires order != [] && TreeKnown(keys, order) && keys[order[0]] <= now
    ensures Due(keys, order, now) == 1 + Due(keys, order[1..], now)
    ensures Remove(order, order[0]) == order[1..]
  {
    assert order == [order[0]] + order[1..];
  }

  lemma DueLater(keys: map<GroupId, nat>, keys': map<GroupId, nat>, order: seq<GroupId>, g: GroupId, now: nat)
    requires TreeKnown(keys, order) && g !in order
    requires g in keys' && keys'[g] > now && keys' == keys[g := keys'[g]]
    requires TreeKnown(keys', Placed(keys', order, g))
    ensures Remove(order, g) == order
    ensures Due(keys', Placed(keys', order, g), now) == Due(keys, order, now)
  {
    DuePlaced(keys', order, g, now);
    DueFrame(keys, keys', order, now);
  }

  /** A group that has bios but could send none is not due again before its next look. */
  lemma NothingSentWaits(c: Clock, was: Group, grp: Group, now: nat)
    requires c.Runs() && was.Limited() && grp.Busy()
    requires
      var rd := Drain(c, was.rd, READS_PER_ROUND, now);
      var wr := Drain(c, was.wr, WRITES_PER_ROUND, now);
      grp == Group(rd.0, wr.0) && rd.1 == [] && wr.1 == []
    ensures
      var wait := MinWait(Recheck(c, grp.rd, now).1, Recheck(c, grp.wr, now).1);
      wait.Some? && wait.value >= 1
  {
    hide Drain, Recheck;
    if was.rd.bios != [] {
      EmptyHandedWaits(c, was.rd, READS_PER_ROUND, now);
    }
    if was.wr.bios != [] {
      EmptyHandedWaits(c, was.wr, WRITES_PER_ROUND, now);
    }
  }
}

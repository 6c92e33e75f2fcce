/** Weighted fairness of the group service tree, over every run. */
module CfqFairness {
  import opened Lists
  import opened ServiceTree
  import opened Cfq

  datatype Event =
    | Added(id: GroupId)
    | Deleted(id: GroupId)
    | Weighed(id: GroupId, weight: nat)
    | Serve(charge: nat)

  predicate Enabled(s: State, e: Event) {
    match e
    case Added(id) => id in s.groups
    case Deleted(id) => id in s.groups && s.groups[id].nrCfqq > 0
    case Weighed(id, weight) => id in s.groups && weight > 0
    case Serve(_) => s.order != []
  }

  /** Serve is cfq_get_next_cfqg followed, when its slice is over, by cfq_group_served. */
  function Apply(s: State, e: Event): State
    requires Inv(s) && Enabled(s, e)
  {
    match e
    case Added(id) => QueueAdded(s, id)
    case Deleted(id) => QueueDeleted(s, id)
    case Weighed(id, weight) => NewWeight(s, id, weight)
    case Serve(charge) =>
      NextIsLeast(s);
      GroupServed(NextGroup(s).1, s.order[0], charge)
  }

  lemma OrderKnown(s: State)
    requires Inv(s)
    ensures Known(s) && (s.left.Some? ==> s.left.value in s.groups)
    ensures forall g :: g in s.groups ==> s.groups[g].weight > 0
  {
  }

  lemma EventKeeps(s: State, e: Event)
    requires Inv(s) && Enabled(s, e)
    ensures Inv(Apply(s, e)) && Apply(s, e).minVdisktime >= s.minVdisktime
  {
    hide Inv, TreeAdd, TreeDel, Placed, NextGroup, GroupServed;
    match e {
      case Added(id) =>
        QueueAddedKeeps(s, id);
        MinAdded(s, id);
      case Deleted(id) =>
        QueueDeletedKeeps(s, id);
        MinDeleted(s, id);
      case Weighed(id, weight) => NewWeightKeeps(s, id, weight);
      case Serve(charge) =>
        OrderKnown(s);
        NextIsLeast(s);
        OrderKnown(NextGroup(s).1);
        GroupServedKeeps(NextGroup(s).1, s.order[0], charge);
        MinServed(NextGroup(s).1, s.order[0], charge);
    }
  }

  lemma MinAdded(s: State, id: GroupId)
    requires Inv(s) && id in s.groups
    ensures QueueAdded(s, id).minVdisktime == s.minVdisktime
  {
    hide Inv, Placed;
  }

  lemma MinDeleted(s: State, id: GroupId)
    requires Inv(s) && id in s.groups && s.groups[id].nrCfqq > 0
    ensures QueueDeleted(s, id).minVdisktime == s.minVdisktime
  {
    hide Inv;
  }

  lemma MinServed(s: State, id: GroupId, charge: nat)
    requires Inv(s) && id in s.order
    ensures GroupServed(s, id, charge).minVdisktime == s.minVdisktime
  {
    hide Inv, Placed;
  }

  /** Any sequence of enabled events is a run. */
  ghost predicate Run(s: State, es: seq<Event>)
    requires Inv(s)
    decreases |es|
  {
    es != [] ==> Enabled(s, es[0]) && (EventKeeps(s, es[0]); Run(Apply(s, es[0]), es[1..]))
  }

  ghost function Exec(s: State, es: seq<Event>): State
    requires Inv(s) && Run(s, es)
    decreases |es|
  {
    if es == [] then s else
    EventKeeps(s, es[0]);
    Exec(Apply(s, es[0]), es[1..])
  }

  /** Every run keeps the books, and min_vdisktime only grows. */
  lemma {:induction false} BooksKept(s: State, es: seq<Event>)
    requires Inv(s) && Run(s, es)
    ensures Inv(Exec(s, es)) && Exec(s, es).minVdisktime >= s.minVdisktime
    decreases |es|
  {
    hide Inv, Apply, Enabled;
    if es != [] {
      EventKeeps(s, es[0]);
      BooksKept(Apply(s, es[0]), es[1..]);
    }
  }

  // ------------------------------------------------------------------
  // Queues and weights of a group

  function Adds(es: seq<Event>, g: GroupId): nat {
    if es == [] then 0 else (if es[0] == Added(g) then 1 else 0) + Adds(es[1..], g)
  }

  function Deletes(es: seq<Event>, g: GroupId): nat {
    if es == [] then 0 else (if es[0] == Deleted(g) then 1 else 0) + Deletes(es[1..], g)
  }

  /** The event puts g on the tree: its first queue comes, or it has been served. */
  predicate Places(s: State, e: Event, g: GroupId) {
    (e == Added(g) && g !in s.order) || (e.Serve? && s.order != [] && s.order[0] == g)
  }

  /** What an event does to the record of a group, apart from its virtual time. A pending weight is taken
      over exactly when the group is put on the tree. */
  lemma RecordStep(s: State, e: Event, g: GroupId)
    requires Inv(s) && Enabled(s, e) && g in s.groups
    ensures
      var s' := Apply(s, e);
      g in s'.groups &&
      var r, r' := s.groups[g], s'.groups[g];
      && r'.nrCfqq == r.nrCfqq + (if e == Added(g) then 1 else 0) - (if e == Deleted(g) then 1 else 0)
      && (if e.Weighed? && e.id == g then r'.weight == r.weight && r'.newWeight == e.weight && r'.needsUpdate
          else if Places(s, e, g) && r.needsUpdate
          then r'.weight == r.newWeight && r'.newWeight == r.newWeight && !r'.needsUpdate
          else r'.weight == r.weight && r'.newWeight == r.newWeight && r'.needsUpdate == r.needsUpdate)
  {
    hide Sorted, Keys, WeightSum, NoDup, Placed, Scaled;
    if e.Serve? {
      NextIsLeast(s);
    }
  }

  /** Over every run a group has as many queues as were added and not deleted, and is on the tree exactly
      if that is any. */
  lemma {:induction false} QueuesCounted(s: State, es: seq<Event>, g: GroupId)
    requires Inv(s) && Run(s, es) && g in s.groups
    ensures
      var s' := Exec(s, es);
      && g in s'.groups && s'.groups[g].nrCfqq == s.groups[g].nrCfqq + Adds(es, g) - Deletes(es, g)
      && (g in s'.order <==> s.groups[g].nrCfqq + Adds(es, g) > Deletes(es, g))
    decreases |es|
  {
    if es == [] {
    } else {
      hide Inv, Apply, Enabled;
      EventKeeps(s, es[0]);
      RecordStep(s, es[0], g);
      QueuesCounted(Apply(s, es[0]), es[1..], g);
    }
  }

  /** How often a run puts g on the tree. */
  ghost function Placings(s: State, es: seq<Event>, g: GroupId): nat
    requires Inv(s) && Run(s, es)
    decreases |es|
  {
    if es == [] then 0 else
    EventKeeps(s, es[0]);
    (if Places(s, es[0], g) then 1 else 0) + Placings(Apply(s, es[0]), es[1..], g)
  }

  predicate NotWeighed(es: seq<Event>, g: GroupId) {
    forall i :: 0 <= i < |es| && es[i].Weighed? ==> es[i].id != g
  }

  lemma {:induction false} WeightStays(s: State, es: seq<Event>, g: GroupId)
    requires Inv(s) && Run(s, es) && g in s.groups && NotWeighed(es, g) && !s.groups[g].needsUpdate
    ensures g in Exec(s, es).groups
    ensures Exec(s, es).groups[g].weight == s.groups[g].weight && !Exec(s, es).groups[g].needsUpdate
    decreases |es|
  {
    hide Inv, Apply, Enabled;
    if es != [] {
      EventKeeps(s, es[0]);
      RecordStep(s, es[0], g);
      WeightStays(Apply(s, es[0]), es[1..], g);
    }
  }

  /** A weight that is set takes effect the next time the group is put on the tree, and not before: until
      then the old one counts. */
  lemma {:induction false} WeightTakesEffect(s: State, es: seq<Event>, g: GroupId)
    requires Inv(s) && Run(s, es) && g in s.groups && NotWeighed(es, g) && s.groups[g].needsUpdate
    ensures g in Exec(s, es).groups
    ensures
      var r, r' := s.groups[g], Exec(s, es).groups[g];
      if Placings(s, es, g) > 0 then r'.weight == r.newWeight && !r'.needsUpdate
      else r'.weight == r.weight && r'.newWeight == r.newWeight && r'.needsUpdate
    decreases |es|
  {
    hide Inv, Apply, Enabled, Places;
    if es != [] {
      EventKeeps(s, es[0]);
      RecordStep(s, es[0], g);
      if Places(s, es[0], g) {
        WeightStays(Apply(s, es[0]), es[1..], g);
      } else {
        WeightTakesEffect(Apply(s, es[0]), es[1..], g);
      }
    }
  }

  /** So after cfq_update_blkio_group_weight the weight set is the one that will count. */
  lemma WeightSet(s: State, g: GroupId, weight: nat, es: seq<Event>)
    requires Inv(s) && g in s.groups && weight > 0 && NotWeighed(es, g)
    requires Inv(NewWeight(s, g, weight)) && Run(NewWeight(s, g, weight), es)
    ensures
      var s1 := NewWeight(s, g, weight);
      && g in Exec(s1, es).groups
      && Exec(s1, es).groups[g].weight == if Placings(s1, es, g) > 0 then weight else s.groups[g].weight
  {
    hide Inv, Run, Exec, Placings;
    WeightTakesEffect(NewWeight(s, g, weight), es, g);
  }

  // ------------------------------------------------------------------
  // The spread of virtual times

  /** No two groups on the tree are further apart than this. */
  predicate Within(s: State, spread: nat)
    requires Known(s)
  {
    forall a, b :: a in s.order && b in s.order ==> s.groups[a].vdisktime <= s.groups[b].vdisktime + spread
  }

  /** No group comes onto the tree. */
  predicate Quiet(s: State, e: Event) {
    e.Added? ==> e.id in s.order
  }

  /** A charge, scaled for the group that is served. */
  ghost predicate ChargeWithin(s: State, e: Event, spread: nat)
    requires Inv(s) && Enabled(s, e)
  {
    e.Serve? ==> Scaled(e.charge, s.groups[s.order[0]].weight) <= spread
  }

  /** Records of groups other than the one served stay, and so do those of groups that stay. */
  lemma Times(s: State, e: Event, g: GroupId)
    requires Inv(s) && Enabled(s, e) && Quiet(s, e) && g in Apply(s, e).order
    ensures
      var s' := Apply(s, e);
      && g in s.order && g in s'.groups
      && s'.groups[g].vdisktime
         == s.groups[g].vdisktime
            + if e.Serve? && g == s.order[0] then Scaled(e.charge, s.groups[g].weight) else 0
  {
    hide Sorted, Keys, WeightSum, NoDup, Placed, Scaled;
    if e.Serve? {
      NextIsLeast(s);
      GroupServedKeeps(NextGroup(s).1, s.order[0], e.charge);
    }
  }

  lemma SpreadStep(s: State, e: Event, spread: nat)
    requires Inv(s) && Enabled(s, e) && Quiet(s, e) && Within(s, spread) && ChargeWithin(s, e, spread)
    ensures Inv(Apply(s, e)) && Within(Apply(s, e), spread)
  {
    hide Apply, WeightSum, Sorted, Keys, NoDup, Scaled;
    EventKeeps(s, e);
    var s' := Apply(s, e);
    NextIsLeast(s);
    forall a, b | a in s'.order && b in s'.order ensures s'.groups[a].vdisktime <= s'.groups[b].vdisktime + spread {
      Times(s, e, a);
      Times(s, e, b);
    }
  }

  ghost predicate FairRun(s: State, es: seq<Event>, spread: nat)
    requires Inv(s) && Run(s, es)
    decreases |es|
  {
    es != [] ==>
      && Quiet(s, es[0]) && ChargeWithin(s, es[0], spread)
      && (EventKeeps(s, es[0]); FairRun(Apply(s, es[0]), es[1..], spread))
  }

  /** Serving the leftmost group keeps the spread at the larger of what it was and the largest
      scaled charge. */
  lemma {:induction false} SpreadBounded(s: State, es: seq<Event>, spread: nat)
    requires Inv(s) && Run(s, es) && FairRun(s, es, spread) && Within(s, spread)
    ensures Inv(Exec(s, es)) && Within(Exec(s, es), spread)
    decreases |es|
  {
    hide Inv, Apply, Enabled, Quiet, ChargeWithin, Within;
    if es != [] {
      SpreadStep(s, es[0], spread);
      SpreadBounded(Apply(s, es[0]), es[1..], spread);
    }
  }

  // ------------------------------------------------------------------
  // Service in proportion to weight

  /** What a group was charged in a run, and how often. */
  ghost function Charged(s: State, es: seq<Event>, g: GroupId): nat
    requires Inv(s) && Run(s, es)
    decreases |es|
  {
    if es == [] then 0 else
    EventKeeps(s, es[0]);
    (if es[0].Serve? && s.order[0] == g then es[0].charge else 0) + Charged(Apply(s, es[0]), es[1..], g)
  }

  ghost function Serves(s: State, es: seq<Event>, g: GroupId): nat
    requires Inv(s) && Run(s, es)
    decreases |es|
  {
    if es == [] then 0 else
    EventKeeps(s, es[0]);
    (if es[0].Serve? && s.order[0] == g then 1 else 0) + Serves(Apply(s, es[0]), es[1..], g)
  }

  /** g keeps its weight: no new one is pending or set during the run. */
  predicate Steady(s: State, es: seq<Event>, g: GroupId) {
    && g in s.groups && !s.groups[g].needsUpdate
    && forall i :: 0 <= i < |es| && es[i].Weighed? ==> es[i].id != g
  }

  lemma SteadyStep(s: State, es: seq<Event>, g: GroupId)
    requires Inv(s) && es != [] && Enabled(s, es[0]) && Steady(s, es, g)
    ensures Steady(Apply(s, es[0]), es[1..], g)
    ensures Apply(s, es[0]).groups[g].weight == s.groups[g].weight
    ensures Quiet(s, es[0]) && g !in s.order ==> g !in Apply(s, es[0]).order
  {
    hide Sorted, Keys, WeightSum, NoDup, Placed, Scaled;
    if es[0].Serve? {
      NextIsLeast(s);
      GroupServedKeeps(NextGroup(s).1, s.order[0], es[0].charge);
    }
  }

  /** A group that has left a quiet run's tree stays away. */
  lemma {:induction false} OnThroughout(s: State, es: seq<Event>, g: GroupId, spread: nat)
    requires Inv(s) && Run(s, es) && FairRun(s, es, spread) && Steady(s, es, g) && g in Exec(s, es).order
    ensures g in s.order
    decreases |es|
  {
    hide Inv, Apply, Enabled, Quiet, ChargeWithin, Steady;
    if es != [] {
      EventKeeps(s, es[0]);
      SteadyHere(s, es, g);
      SteadyStep(s, es, g);
      OnThroughout(Apply(s, es[0]), es[1..], g, spread);
    }
  }

  lemma SteadyHere(s: State, es: seq<Event>, g: GroupId)
    requires Steady(s, es, g)
    ensures g in s.groups
  {
  }

  lemma ScaledBounds(charge: nat, weight: nat)
    requires weight > 0
    ensures weight * Scaled(charge, weight) <= charge * SCALE < weight * Scaled(charge, weight) + weight
  {
  }

  /** Virtual time counts the charges, scaled by weight, up to one unit per service. */
  lemma {:induction false} TimeIsCharge(s: State, es: seq<Event>, g: GroupId, spread: nat)
    requires Inv(s) && Run(s, es) && FairRun(s, es, spread) && Steady(s, es, g) && g in Exec(s, es).order
    ensures Inv(Exec(s, es)) && g in Exec(s, es).groups && g in s.order
    ensures
      var w, dv := s.groups[g].weight, Exec(s, es).groups[g].vdisktime - s.groups[g].vdisktime;
      w * dv <= Charged(s, es, g) * SCALE <= w * (dv + Serves(s, es, g))
    decreases |es|
  {
    hide Inv, Apply, Enabled, Quiet, ChargeWithin, Steady, Scaled;
    BooksKept(s, es);
    OnThroughout(s, es, g, spread);
    SteadyHere(s, es, g);
    if es != [] {
      EventKeeps(s, es[0]);
      var s1 := Apply(s, es[0]);
      SteadyStep(s, es, g);
      OnThroughout(s1, es[1..], g, spread);
      TimeIsCharge(s1, es[1..], g, spread);
      SteadyHere(s1, es[1..], g);
      OneCharge(s, es, g, spread);
    } else {
      OrderKnown(s);
    }
  }

  /** One event more at the front of a run. */
  lemma OneCharge(s: State, es: seq<Event>, g: GroupId, spread: nat)
    requires Inv(s) && Run(s, es) && es != [] && FairRun(s, es, spread)
    requires Inv(Exec(s, es)) && g in Exec(s, es).groups && g in s.order && g in s.groups
    requires Inv(Apply(s, es[0])) && g in Apply(s, es[0]).order && g in Apply(s, es[0]).groups
    requires Apply(s, es[0]).groups[g].weight == s.groups[g].weight
    requires
      var s1 := Apply(s, es[0]);
      var w, dv := s1.groups[g].weight, Exec(s, es).groups[g].vdisktime - s1.groups[g].vdisktime;
      w * dv <= Charged(s1, es[1..], g) * SCALE <= w * (dv + Serves(s1, es[1..], g))
    ensures
      var w, dv := s.groups[g].weight, Exec(s, es).groups[g].vdisktime - s.groups[g].vdisktime;
      w * dv <= Charged(s, es, g) * SCALE <= w * (dv + Serves(s, es, g))
  {
    hide Inv, Apply, Enabled, Quiet, ChargeWithin, Scaled, Exec;
    var s1 := Apply(s, es[0]);
    Times(s, es[0], g);
    OrderKnown(s);
    var w, dv := s1.groups[g].weight, Exec(s, es).groups[g].vdisktime - s1.groups[g].vdisktime;
    if es[0].Serve? && s.order[0] == g {
      ScaledBounds(es[0].charge, w);
      SumUp(w, dv, Scaled(es[0].charge, w), Charged(s1, es[1..], g), es[0].charge, Serves(s1, es[1..], g));
    }
  }

  lemma SumUp(w: nat, dv: int, d: int, charged: nat, charge: nat, n: nat)
    requires w * dv <= charged * SCALE <= w * (dv + n)
    requires w * d <= charge * SCALE < w * d + w
    ensures w * (dv + d) <= (charge + charged) * SCALE <= w * (dv + d + (1 + n))
  {
    assert w * (dv + d) == w * dv + w * d;
    assert w * (dv + d + (1 + n)) == w * (dv + n) + w * d + w;
  }

  /** Two groups that stay on the tree and keep their weights are charged in proportion to them: the
      charges, each multiplied by the other's weight, differ by no more than twice the spread and a
      unit per service. */
  lemma FairShares(s: State, es: seq<Event>, a: GroupId, b: GroupId, spread: nat)
    requires Inv(s) && Run(s, es) && FairRun(s, es, spread) && Within(s, spread)
    requires Steady(s, es, a) && Steady(s, es, b) && a in Exec(s, es).order && b in Exec(s, es).order
    ensures
      var wa, wb := s.groups[a].weight, s.groups[b].weight;
      Charged(s, es, a) * SCALE * wb <= Charged(s, es, b) * SCALE * wa + wa * wb * (2 * spread + Serves(s, es, a))
  {
    hide Inv, Run, FairRun, Steady, Exec, Charged, Serves;
    SteadyHere(s, es, a);
    SteadyHere(s, es, b);
    TimeIsCharge(s, es, a, spread);
    TimeIsCharge(s, es, b, spread);
    SpreadBounded(s, es, spread);
    var s' := Exec(s, es);
    CrossMultiply(s.groups[a].weight, s.groups[b].weight,
                  s'.groups[a].vdisktime - s.groups[a].vdisktime, s'.groups[b].vdisktime - s.groups[b].vdisktime,
                  Charged(s, es, a) * SCALE, Charged(s, es, b) * SCALE, Serves(s, es, a), 2 * spread);
  }

  lemma CrossMultiply(wa: nat, wb: nat, da: int, db: int, ca: nat, cb: nat, n: nat, lag: nat)
    requires ca <= wa * (da + n) && wb * db <= cb && da <= db + lag
    ensures ca * wb <= cb * wa + wa * wb * (lag + n)
  {
    MulMono(ca, wa * (da + n), wb);
    MulMono(wb * db, cb, wa);
    MulMono(da + n, db + lag + n, wa * wb);
    assert wa * (da + n) * wb == (da + n) * (wa * wb);
    assert (db + lag + n) * (wa * wb) == wb * db * wa + wa * wb * (lag + n);
  }

  lemma MulMono(a: int, b: int, k: nat)
    requires a <= b
    ensures a * k <= b * k
  {
  }
}

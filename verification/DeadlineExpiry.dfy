/** An expired request of the deadline scheduler is reached after as many new batches as requests
    are ahead of it. */
module DeadlineExpiry {
  import opened Lists
  import opened Deadline
  import opened DeadlineKeeps

  function IndexOf(ids: seq<nat>, x: nat): nat
    requires x in ids
  {
    if ids[0] == x then 0 else 1 + IndexOf(ids[1..], x)
  }

  predicate StartsBatch(c: Config, s: State, d: Dir) {
    InBatch(c, s).None? && !Idle(s) && Chosen(c, s) == d
  }

  /** How many dispatches of a run start a batch in direction d. */
  ghost function NewBatches(c: Config, s: State, es: seq<Event>, d: Dir): nat
    requires Inv(c, s) && Run(c, s, es)
    decreases |es|
  {
    if es == [] then 0
    else
      EventKeeps(c, s, es[0]);
      (if es[0].Dispatched? && StartsBatch(c, s, d) then 1 else 0)
        + NewBatches(c, Apply(c, s, es[0]), es[1..], d)
  }

  // ------------------------------------------------------------------
  // Places in a list

  lemma {:induction false} IndexAt(ids: seq<nat>, x: nat)
    requires x in ids
    ensures IndexOf(ids, x) < |ids| && ids[IndexOf(ids, x)] == x
    ensures forall j :: 0 <= j < IndexOf(ids, x) ==> ids[j] != x
  {
    if ids[0] != x {
      IndexAt(ids[1..], x);
    }
  }

  lemma IndexIs(ids: seq<nat>, x: nat, i: nat)
    requires NoDup(ids) && i < |ids| && ids[i] == x
    ensures IndexOf(ids, x) == i
  {
    IndexAt(ids, x);
  }

  lemma {:induction false} IndexRemove(ids: seq<nat>, x: nat, y: nat)
    requires x in ids && x != y
    ensures x in Remove(ids, y) && IndexOf(Remove(ids, y), x) <= IndexOf(ids, x)
    ensures ids[0] == y ==> IndexOf(Remove(ids, y), x) + 1 == IndexOf(ids, x)
    decreases |ids|
  {
    if ids[0] != y && ids[0] != x {
      IndexRemove(ids[1..], x, y);
      var r := Remove(ids[1..], y);
      assert ([ids[0]] + r)[1..] == r;
    }
  }

  lemma IndexAppend(ids: seq<nat>, x: nat, y: nat)
    requires x in ids && NoDup(ids) && y !in ids
    ensures IndexOf(ids + [y], x) == IndexOf(ids, x)
  {
    IndexAt(ids, x);
    NoDupAppend(ids, y);
    IndexIs(ids + [y], x, IndexOf(ids, x));
  }

  /** With req in the place of next, which expires earlier, no request moves back. */
  lemma IndexSubst(rqs: map<nat, Rq>, fifo: seq<nat>, req: nat, next: nat, x: nat)
    requires NoDup(fifo) && Known(rqs, fifo) && Ordered(rqs, fifo, Expiry) && req in fifo && next in fifo && req != next
    requires rqs[next].expires < rqs[req].expires && x in fifo && x != next
    ensures x in Subst(Remove(fifo, req), next, req)
    ensures IndexOf(Subst(Remove(fifo, req), next, req), x) <= IndexOf(fifo, x)
  {
    hide Ordered;
    var m := Remove(fifo, req);
    RemoveNoDup(fifo, req);
    SubstMembers(m, next, req);
    IndexRemove(fifo, next, req);
    if x == req {
      IndexAt(m, next);
      IndexIs(Subst(m, next, req), req, IndexOf(m, next));
      EarlierFirst(rqs, fifo, next, req);
    } else {
      IndexRemove(fifo, x, req);
      IndexAt(m, x);
      IndexIs(Subst(m, next, req), x, IndexOf(m, x));
    }
  }

  lemma EarlierFirst(rqs: map<nat, Rq>, fifo: seq<nat>, x: nat, y: nat)
    requires Known(rqs, fifo) && Ordered(rqs, fifo, Expiry) && x in fifo && y in fifo
    requires rqs[x].expires < rqs[y].expires
    ensures IndexOf(fifo, x) < IndexOf(fifo, y)
  {
    IndexAt(fifo, x);
    IndexAt(fifo, y);
    assert Rank(rqs[x], Expiry) < Rank(rqs[y], Expiry);
  }

  function Least(a: int, b: int): int {
    if a < b then a else b
  }

  lemma {:induction false} RemoveKeepsOrder(ids: seq<nat>, y: nat, a: nat, b: nat)
    requires NoDup(ids) && a in ids && b in ids && a != y && b != y
    ensures a in Remove(ids, y) && b in Remove(ids, y)
    ensures IndexOf(Remove(ids, y), a) < IndexOf(Remove(ids, y), b) <==> IndexOf(ids, a) < IndexOf(ids, b)
    decreases |ids|
  {
    hide NoDup;
    NoDupTail(ids);
    if ids[0] != y {
      var r := Remove(ids[1..], y);
      assert ([ids[0]] + r)[1..] == r;
      if a != ids[0] && b != ids[0] {
        RemoveKeepsOrder(ids[1..], y, a, b);
      }
    }
  }

  /** Where a removal leaves the others. */
  lemma {:induction false} IndexAfterRemove(ids: seq<nat>, x: nat, y: nat)
    requires NoDup(ids) && x in ids && y in ids && x != y
    ensures x in Remove(ids, y)
    ensures IndexOf(Remove(ids, y), x) == IndexOf(ids, x) - (if IndexOf(ids, y) < IndexOf(ids, x) then 1 else 0)
    decreases |ids|
  {
    hide NoDup;
    NoDupTail(ids);
    if ids[0] != y && ids[0] != x {
      IndexAfterRemove(ids[1..], x, y);
      var r := Remove(ids[1..], y);
      assert ([ids[0]] + r)[1..] == r;
    }
  }

  lemma SubstIndex(m: seq<nat>, x: nat, y: nat, z: nat)
    requires NoDup(m) && x in m && y !in m && z in m
    ensures
      var r, z' := Subst(m, x, y), if z == x then y else z;
      z' in r && IndexOf(r, z') == IndexOf(m, z)
  {
    SubstMembers(m, x, y);
    IndexAt(m, z);
    IndexIs(Subst(m, x, y), if z == x then y else z, IndexOf(m, z));
  }

  // ------------------------------------------------------------------
  // What a merge leaves of two expiries and two places

  /** Two requests other than those merged. */
  predicate Bystanders(f: seq<nat>, req: nat, next: nat, a: nat, b: nat) {
    a in f && b in f && a != req && b != req && a != next && b != next
  }

  /** The fifo list when req goes into the place of next. */
  lemma PlaceTaken(rqs: map<nat, Rq>, f: seq<nat>, req: nat, next: nat, a: nat, b: nat)
    requires NoDup(f) && Known(rqs, f) && Ordered(rqs, f, Expiry) && req in f && next in f && req != next
    requires rqs[next].expires < rqs[req].expires
    ensures
      var f' := Subst(Remove(f, req), next, req);
      && next !in f' && (forall x :: x in f' <==> x in f && x != next)
      && IndexOf(f', req) == IndexOf(f, next)
      && (Bystanders(f, req, next, a, b) ==> (IndexOf(f', a) < IndexOf(f', b) <==> IndexOf(f, a) < IndexOf(f, b)))
  {
    hide Ordered, NoDup, Subst, Remove, IndexOf;
    var m := Remove(f, req);
    RemoveNoDup(f, req);
    EarlierFirst(rqs, f, next, req);
    IndexAfterRemove(f, next, req);
    SubstMembers(m, next, req);
    SubstIndex(m, next, req, next);
    if Bystanders(f, req, next, a, b) {
      RemoveKeepsOrder(f, req, a, b);
      SubstIndex(m, next, req, a);
      SubstIndex(m, next, req, b);
    }
  }

  /** The fifo list when next just leaves. */
  lemma PlaceLeft(f: seq<nat>, req: nat, next: nat, a: nat, b: nat)
    requires NoDup(f) && req in f && next in f && req != next
    ensures
      var f' := Remove(f, next);
      && next !in f' && (forall x :: x in f' <==> x in f && x != next)
      && IndexOf(f', req) == IndexOf(f, req) - (if IndexOf(f, next) < IndexOf(f, req) then 1 else 0)
      && (Bystanders(f, req, next, a, b) ==> (IndexOf(f', a) < IndexOf(f', b) <==> IndexOf(f, a) < IndexOf(f, b)))
  {
    hide NoDup, Remove, IndexOf;
    RemoveNoDup(f, next);
    IndexAfterRemove(f, req, next);
    if Bystanders(f, req, next, a, b) {
      RemoveKeepsOrder(f, next, a, b);
    }
  }

  lemma MergedFrame(s: State, req: nat, next: nat)
    requires req in s.rqs && next in s.rqs
    ensures
      var s', d := MergedRequests(s, req, next), s.rqs[req].dir;
      var f := LaneOf(s, d).fifo;
      && s'.rqs == s.rqs[req := s.rqs[req].(expires := Least(s.rqs[req].expires, s.rqs[next].expires))]
      && LaneOf(s', Other(d)) == LaneOf(s, Other(d)) && s'.now == s.now && s'.out == s.out
      && LaneOf(s', d).fifo
         == if s.rqs[next].expires < s.rqs[req].expires then Subst(Remove(f, req), next, req) else Remove(f, next)
  {
    hide Subst, Remove, Latter;
    assert s.rqs[req := s.rqs[req].(expires := s.rqs[req].expires)] == s.rqs;
  }

  /** After a merge the request has the earlier of the two expiries. It is in the place of next if that
      expires strictly earlier, else in its own. Nothing else changes: not the others' expiries, nor
      their order, nor the other direction. */
  lemma MergeTakesOver(c: Config, s: State, req: nat, next: nat, a: nat, b: nat)
    requires Inv(c, s) && AllKnown(s) && Enabled(s, Merged(req, next))
    ensures
      var s', d := MergedRequests(s, req, next), s.rqs[req].dir;
      var f, f' := LaneOf(s, d).fifo, LaneOf(s', d).fifo;
      && s'.rqs == s.rqs[req := s.rqs[req].(expires := Least(s.rqs[req].expires, s.rqs[next].expires))]
      && LaneOf(s', Other(d)) == LaneOf(s, Other(d)) && s'.now == s.now && s'.out == s.out
      && next !in f' && (forall x :: x in f' <==> x in f && x != next)
      && IndexOf(f', req) == (if s.rqs[next].expires < s.rqs[req].expires then IndexOf(f, next)
                              else IndexOf(f, req) - if IndexOf(f, next) < IndexOf(f, req) then 1 else 0)
      && (Bystanders(f, req, next, a, b) ==> (IndexOf(f', a) < IndexOf(f', b) <==> IndexOf(f, a) < IndexOf(f, b)))
  {
    hide Inv, Ordered, NoDup, Subst, Remove, IndexOf, MergedRequests, Bystanders;
    var d := s.rqs[req].dir;
    var f := LaneOf(s, d).fifo;
    FifoOk(c, s, d);
    MergedFrame(s, req, next);
    if s.rqs[next].expires < s.rqs[req].expires {
      PlaceTaken(s.rqs, f, req, next, a, b);
    } else {
      PlaceLeft(f, req, next, a, b);
    }
  }

  lemma FifoOk(c: Config, s: State, d: Dir)
    requires Inv(c, s)
    ensures NoDup(LaneOf(s, d).fifo) && Known(s.rqs, LaneOf(s, d).fifo) && Ordered(s.rqs, LaneOf(s, d).fifo, Expiry)
  {
  }

  /** The request that takes over next comes no further back than next was: unless the two expire at the
      same time, next was ahead, and there was somebody between them. */
  predicate KeepsPlace(s: State, req: nat, next: nat)
    requires AllKnown(s) && Enabled(s, Merged(req, next))
  {
    var f := LaneOf(s, s.rqs[req].dir).fifo;
    || s.rqs[next].expires < s.rqs[req].expires
    || IndexOf(f, req) <= IndexOf(f, next) + 1
  }

  /** That is exactly when it does: the merged request is at the smaller of the two old places, and so no
      further back than next was. */
  lemma KeepsPlaceIff(c: Config, s: State, req: nat, next: nat)
    requires Inv(c, s) && AllKnown(s) && Enabled(s, Merged(req, next))
    ensures
      var d := s.rqs[req].dir;
      var f, f' := LaneOf(s, d).fifo, LaneOf(MergedRequests(s, req, next), d).fifo;
      && req in f'
      && (IndexOf(f', req) <= IndexOf(f, next) <==> KeepsPlace(s, req, next))
      && (IndexOf(f', req) == Least(IndexOf(f, req), IndexOf(f, next)) <==> KeepsPlace(s, req, next))
  {
    hide Ordered, NoDup, IndexOf, MergedRequests;
    var d := s.rqs[req].dir;
    var f := LaneOf(s, d).fifo;
    MergeTakesOver(c, s, req, next, req, req);
    IndexAt(f, req);
    IndexAt(f, next);
    if s.rqs[next].expires < s.rqs[req].expires {
      FifoOk(c, s, d);
      EarlierFirst(s.rqs, f, next, req);
    }
  }

  /** Three writes of one jiffy: the third ends where the first starts, the second is far away. */
  function Three(c: Config): State {
    var e := c.writeExpire;
    State(0, map[1 := Rq(Write, 8, e), 2 := Rq(Write, 80, e), 3 := Rq(Write, 0, e)], Lane([], [], None),
          Lane([3, 1, 2], [1, 2, 3], None), 0, 0, [])
  }

  lemma ThreeAdded(c: Config)
    ensures
      var s1 := AddRequest(c, START, 1, Write, 8);
      Known(s1.rqs, s1.write.sort) &&
      var s2 := AddRequest(c, s1, 2, Write, 80);
      Known(s2.rqs, s2.write.sort) && AddRequest(c, s2, 3, Write, 0) == Three(c)
  {
    var s1 := AddRequest(c, START, 1, Write, 8);
    assert s1.write == Lane([1], [1], None);
    assert [1][1..] == [];
    var s2 := AddRequest(c, s1, 2, Write, 80);
    assert s2.rqs == map[1 := Rq(Write, 8, c.writeExpire), 2 := Rq(Write, 80, c.writeExpire)];
    assert Insert(s2.rqs, [], 2) == [2];
    assert Insert(s2.rqs, [1], 2) == [1] + Insert(s2.rqs, [1][1..], 2);
    assert s2.write == Lane([1, 2], [1, 2], None);
  }

  /** What the first asked for is one place further back after it was merged into the third. */
  lemma MergeMovesBack(c: Config)
    ensures Inv(c, Three(c)) && AllKnown(Three(c)) && Enabled(Three(c), Merged(3, 1))
    ensures !KeepsPlace(Three(c), 3, 1) && MergedRequests(Three(c), 3, 1).write.fifo == [2, 3]
  {
    hide Subst, Inv;
    ThreeOk(c);
    assert [1, 2, 3][1..] == [2, 3] && [2, 3][1..] == [3];
    assert Remove([1, 2, 3], 1) == [2, 3];
  }

  lemma ThreeOk(c: Config)
    ensures Inv(c, Three(c))
  {
    assert LaneOk(Three(c).rqs, Write, Three(c).write, c.writeExpire);
  }

  // ------------------------------------------------------------------
  // One event

  /** x is queued in direction d and its time is over. */
  predicate Overdue(s: State, d: Dir, x: nat) {
    x in LaneOf(s, d).fifo && x in s.rqs && s.now > s.rqs[x].expires
  }

  lemma DispatchAdvances(c: Config, s: State, d: Dir, x: nat)
    requires Inv(c, s) && AllKnown(s) && Overdue(s, d, x)
    ensures
      var s' := Dispatch(c, s);
      x in LaneOf(s', d).fifo ==>
        IndexOf(LaneOf(s', d).fifo, x) + (if StartsBatch(c, s, d) then 1 else 0) <= IndexOf(LaneOf(s, d).fifo, x)
  {
    var l := LaneOf(s, d);
    var s' := Dispatch(c, s);
    if Served(c, s) == d {
      var id := Picked(c, s);
      assert LaneOf(s', d).fifo == Remove(l.fifo, id);
      if x in LaneOf(s', d).fifo {
        RemoveNoDup(l.fifo, id);
        IndexRemove(l.fifo, x, id);
        if StartsBatch(c, s, d) {
          HeadOverdue(c, s, d, x);
        }
      }
    }
  }

  /** Requests ahead of an expired one have expired too. */
  lemma HeadOverdue(c: Config, s: State, d: Dir, x: nat)
    requires Inv(c, s) && AllKnown(s) && Overdue(s, d, x)
    ensures HeadExpired(s, d)
  {
    var fifo := LaneOf(s, d).fifo;
    var i :| 0 <= i < |fifo| && fifo[i] == x;
    assert Rank(s.rqs[fifo[0]], Expiry) <= Rank(s.rqs[x], Expiry);
  }

  lemma MergeAdvances(c: Config, s: State, req: nat, next: nat, d: Dir, x: nat)
    requires Inv(c, s) && AllKnown(s) && Enabled(s, Merged(req, next)) && Overdue(s, d, x)
    ensures
      var s' := MergedRequests(s, req, next);
      x in LaneOf(s', d).fifo ==> Overdue(s', d, x) && IndexOf(LaneOf(s', d).fifo, x) <= IndexOf(LaneOf(s, d).fifo, x)
  {
    var l := LaneOf(s, d);
    if s.rqs[req].dir == d {
      if s.rqs[next].expires < s.rqs[req].expires {
        SubstOk(s.rqs, l.fifo, req, next);
        if x != next {
          IndexSubst(s.rqs, l.fifo, req, next, x);
        }
      } else {
        RemoveNoDup(l.fifo, next);
        if x != next {
          IndexRemove(l.fifo, x, next);
        }
      }
    }
  }

  lemma EventAdvances(c: Config, s: State, e: Event, d: Dir, x: nat)
    requires Inv(c, s) && AllKnown(s) && Enabled(s, e) && Overdue(s, d, x)
    ensures
      var s' := Apply(c, s, e);
      x in LaneOf(s', d).fifo ==>
        && Overdue(s', d, x)
        && IndexOf(LaneOf(s', d).fifo, x) + (if e.Dispatched? && StartsBatch(c, s, d) then 1 else 0)
           <= IndexOf(LaneOf(s, d).fifo, x)
  {
    hide LaneOk, Insert, IndexOf, StartsBatch, Remove, Subst, Latter, MoveRequest;
    match e {
      case Added(id, dir, pos) =>
        InvKnows(c, s);
        AppendIn(c, s, d, x, id);
      case Dispatched =>
        DispatchAdvances(c, s, d, x);
        DispatchFrame(c, s);
      case Merged(req, next) => MergeAdvances(c, s, req, next, d, x);
      case _ =>
    }
  }

  lemma AppendIn(c: Config, s: State, d: Dir, x: nat, id: nat)
    requires Inv(c, s) && x in LaneOf(s, d).fifo && id !in s.rqs
    ensures IndexOf(LaneOf(s, d).fifo + [id], x) == IndexOf(LaneOf(s, d).fifo, x)
  {
    IndexAppend(LaneOf(s, d).fifo, x, id);
  }

  lemma DispatchFrame(c: Config, s: State)
    requires AllKnown(s)
    ensures Dispatch(c, s).now == s.now && Dispatch(c, s).rqs == s.rqs
  {
    hide RemoveRequest, Latter, Picked, AllKnown;
  }

  // ------------------------------------------------------------------
  // Runs

  /** A request that has left its list does not come back. */
  lemma GoneStep(c: Config, s: State, e: Event, x: nat, d: Dir)
    requires Inv(c, s) && AllKnown(s) && Enabled(s, e) && x in s.rqs && x !in LaneOf(s, d).fifo
    ensures x in Apply(c, s, e).rqs && x !in LaneOf(Apply(c, s, e), d).fifo
  {
    hide Ordered, Insert, Latter, Picked, Starved;
    if e.Merged? {
      RemoveNoDup(LaneOf(s, s.rqs[e.req].dir).fifo, e.req);
    }
  }

  lemma {:induction false} GoneForGood(c: Config, s: State, es: seq<Event>, x: nat, d: Dir)
    requires Inv(c, s) && Run(c, s, es) && x in s.rqs && x !in LaneOf(s, d).fifo
    ensures x !in LaneOf(Exec(c, s, es), d).fifo
    decreases |es|
  {
    hide Inv, Apply, Enabled, AllKnown;
    if es != [] {
      EventKeeps(c, s, es[0]);
      GoneStep(c, s, es[0], x, d);
      GoneForGood(c, Apply(c, s, es[0]), es[1..], x, d);
    }
  }

  /** As long as an expired request waits, every new batch in its direction takes one of the
      requests ahead of it. So once more batches have started than there were requests ahead, it has
      been dispatched, or merged into another one. */
  lemma {:induction false} ExpiredReached(c: Config, s: State, es: seq<Event>, d: Dir, x: nat)
    requires Inv(c, s) && Run(c, s, es) && Overdue(s, d, x) && x in LaneOf(Exec(c, s, es), d).fifo
    ensures NewBatches(c, s, es, d) + IndexOf(LaneOf(Exec(c, s, es), d).fifo, x) <= IndexOf(LaneOf(s, d).fifo, x)
    decreases |es|
  {
    hide Inv, Apply, Enabled, AllKnown, IndexOf, StartsBatch;
    if es != [] {
      EventKeeps(c, s, es[0]);
      var s' := Apply(c, s, es[0]);
      EventAdvances(c, s, es[0], d, x);
      if x !in LaneOf(s', d).fifo {
        KnownGrows(c, s, es[0], x);
        GoneForGood(c, s', es[1..], x, d);
      } else {
        ExpiredReached(c, s', es[1..], d, x);
      }
    }
  }

  // ------------------------------------------------------------------
  // Through merges

  /** Who answers for x after an event. */
  function HeirOf(e: Event, x: nat): nat {
    if e.Merged? && e.next == x then e.req else x
  }

  ghost function Heir(es: seq<Event>, x: nat): nat {
    if es == [] then x else Heir(es[1..], HeirOf(es[0], x))
  }

  /** Every merge that takes x over keeps its place. */
  ghost predicate PlaceKept(c: Config, s: State, es: seq<Event>, x: nat)
    requires Inv(c, s) && Run(c, s, es)
    decreases |es|
  {
    es != [] ==>
      && (EventKeeps(c, s, es[0]); es[0].Merged? && es[0].next == x ==> KeepsPlace(s, es[0].req, x))
      && PlaceKept(c, Apply(c, s, es[0]), es[1..], HeirOf(es[0], x))
  }

  lemma HeirStep(c: Config, s: State, e: Event, d: Dir, x: nat)
    requires Inv(c, s) && AllKnown(s) && Enabled(s, e) && Overdue(s, d, x)
    ensures
      var s', h := Apply(c, s, e), HeirOf(e, x);
      h in LaneOf(s', d).fifo ==>
        && Overdue(s', d, h)
        && ((e.Merged? && e.next == x ==> KeepsPlace(s, e.req, x)) ==>
              IndexOf(LaneOf(s', d).fifo, h) + (if e.Dispatched? && StartsBatch(c, s, d) then 1 else 0)
              <= IndexOf(LaneOf(s, d).fifo, x))
  {
    hide Inv, LaneOk, Apply, IndexOf, StartsBatch, KeepsPlace;
    if e.Merged? && e.next == x {
      OneDirection(c, s, d, x);
      hide Enabled;
      HeirOverdueStep(c, s, e, d, x);
    } else {
      EventAdvances(c, s, e, d, x);
    }
  }

  lemma OneDirection(c: Config, s: State, d: Dir, x: nat)
    requires Inv(c, s) && x in LaneOf(s, d).fifo
    ensures x in s.rqs && s.rqs[x].dir == d
  {
  }

  lemma HeirOverdueStep(c: Config, s: State, e: Event, d: Dir, x: nat)
    requires Inv(c, s) && AllKnown(s) && Enabled(s, e) && e.Merged? && e.next == x && Overdue(s, d, x)
    requires s.rqs[x].dir == d
    ensures
      var s' := Apply(c, s, e);
      && Overdue(s', d, e.req)
      && (KeepsPlace(s, e.req, x) ==> IndexOf(LaneOf(s', d).fifo, e.req) <= IndexOf(LaneOf(s, d).fifo, x))
  {
    hide Inv, MergedRequests, IndexOf, KeepsPlace;
    MergeTakesOver(c, s, e.req, x, x, x);
    KeepsPlaceIff(c, s, e.req, x);
  }

  lemma HeirKnown(c: Config, s: State, e: Event, d: Dir, x: nat)
    requires Inv(c, s) && AllKnown(s) && Enabled(s, e) && Overdue(s, d, x)
    ensures HeirOf(e, x) in Apply(c, s, e).rqs && Apply(c, s, e).rqs[HeirOf(e, x)].dir == d
  {
    hide Inv, AllKnown, Apply;
    OneDirection(c, s, d, x);
    DirStays(c, s, e, HeirOf(e, x));
  }

  /** Whatever an overdue request is merged into, in turn, is overdue in its stead. And as long as each
      merge keeps the place, every new batch in its direction takes one of the requests that were ahead:
      so once more batches have started than there were, what was asked for has been dispatched. */
  lemma {:induction false} HeirReached(c: Config, s: State, es: seq<Event>, d: Dir, x: nat)
    requires Inv(c, s) && Run(c, s, es) && Overdue(s, d, x) && Heir(es, x) in LaneOf(Exec(c, s, es), d).fifo
    ensures Overdue(Exec(c, s, es), d, Heir(es, x))
    ensures PlaceKept(c, s, es, x) ==>
              NewBatches(c, s, es, d) + IndexOf(LaneOf(Exec(c, s, es), d).fifo, Heir(es, x))
              <= IndexOf(LaneOf(s, d).fifo, x)
    decreases |es|
  {
    hide Inv, Apply, Enabled, AllKnown, IndexOf, StartsBatch, KeepsPlace, Overdue;
    if es != [] {
      EventKeeps(c, s, es[0]);
      var s', h := Apply(c, s, es[0]), HeirOf(es[0], x);
      HeirStep(c, s, es[0], d, x);
      HeirKnown(c, s, es[0], d, x);
      if h !in LaneOf(s', d).fifo {
        HeirGone(c, s', es[1..], h, d);
      } else {
        HeirReached(c, s', es[1..], d, h);
      }
    }
  }

  /** A request that is gone takes nobody over, so it has no heir. */
  lemma {:induction false} HeirGone(c: Config, s: State, es: seq<Event>, x: nat, d: Dir)
    requires Inv(c, s) && Run(c, s, es) && x in s.rqs && x !in LaneOf(s, d).fifo && s.rqs[x].dir == d
    ensures Heir(es, x) !in LaneOf(Exec(c, s, es), d).fifo
    decreases |es|
  {
    hide Inv, Apply, AllKnown;
    if es != [] {
      EventKeeps(c, s, es[0]);
      GoneStep(c, s, es[0], x, d);
      DirStays(c, s, es[0], x);
      HeirGone(c, Apply(c, s, es[0]), es[1..], x, d);
    }
  }

  lemma DirStays(c: Config, s: State, e: Event, x: nat)
    requires AllKnown(s) && Enabled(s, e) && x in s.rqs
    ensures x in Apply(c, s, e).rqs && Apply(c, s, e).rqs[x].dir == s.rqs[x].dir
  {
    hide RemoveRequest, Latter, Picked, AllKnown, Insert, Subst;
  }

  lemma KnownGrows(c: Config, s: State, e: Event, x: nat)
    requires AllKnown(s) && Enabled(s, e) && x in s.rqs
    ensures x in Apply(c, s, e).rqs
  {
    hide RemoveRequest, Latter, Picked, AllKnown, Insert, Subst;
  }
}

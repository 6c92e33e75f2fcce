/** Every event of the deadline scheduler keeps its invariant. */
module DeadlineKeeps {
  import opened Lists
  import opened Deadline

  // ------------------------------------------------------------------
  // Lists

  lemma {:induction false} InsertOk(rqs: map<nat, Rq>, sort: seq<nat>, id: nat)
    requires Known(rqs, sort) && id in rqs && NoDup(sort) && id !in sort && Ordered(rqs, sort, Sector)
    ensures
      var r := Insert(rqs, sort, id);
      && NoDup(r) && Known(rqs, r) && Ordered(rqs, r, Sector)
      && (forall x :: x in r <==> x == id || x in sort)
    decreases |sort|
  {
    if sort != [] {
      NoDupTail(sort);
      if rqs[id].pos < rqs[sort[0]].pos {
        NoDupAppend(sort, id);
        assert forall j :: 0 <= j < |sort| ==> rqs[sort[0]].pos <= rqs[sort[j]].pos;
      } else {
        InsertOk(rqs, sort[1..], id);
        var r := Insert(rqs, sort[1..], id);
        NoDupAppend(r, sort[0]);
        assert forall x :: x in r ==> Rank(rqs[sort[0]], Sector) <= Rank(rqs[x], Sector) by {
          assert forall x :: x in sort[1..] ==> exists j :: 0 < j < |sort| && sort[j] == x;
        }
      }
    }
  }

  lemma InsertedHead(sort: seq<nat>, k: nat, id: nat)
    requires sort != [] && k <= |sort| - 1
    ensures [sort[0]] + (sort[1..][..k] + [id] + sort[1..][k..]) == sort[..k + 1] + [id] + sort[k + 1..]
  {
    assert sort[..k + 1] == [sort[0]] + sort[1..][..k];
  }

  /** The first i requests of a list start no later than id, the others later. */
  predicate Parts(rqs: map<nat, Rq>, sort: seq<nat>, id: nat, i: nat)
    requires Known(rqs, sort) && id in rqs
  {
    && i <= |sort|
    && (forall j :: 0 <= j < i ==> rqs[sort[j]].pos <= rqs[id].pos)
    && (forall j :: i <= j < |sort| ==> rqs[id].pos < rqs[sort[j]].pos)
  }

  lemma PartsCons(rqs: map<nat, Rq>, sort: seq<nat>, id: nat, k: nat)
    requires sort != [] && Known(rqs, sort) && Known(rqs, sort[1..]) && id in rqs
    requires Parts(rqs, sort[1..], id, k) && rqs[sort[0]].pos <= rqs[id].pos
    ensures Parts(rqs, sort, id, k + 1)
  {
    assert forall j :: 0 < j < |sort| ==> sort[j] == sort[1..][j - 1];
  }

  lemma PartsFirst(rqs: map<nat, Rq>, sort: seq<nat>, id: nat)
    requires sort != [] && Known(rqs, sort) && id in rqs && Ordered(rqs, sort, Sector)
    requires rqs[id].pos < rqs[sort[0]].pos
    ensures Parts(rqs, sort, id, 0)
  {
    assert forall j :: 0 < j < |sort| ==> Rank(rqs[sort[0]], Sector) <= Rank(rqs[sort[j]], Sector);
  }

  /** It goes behind everything that starts no later, and ahead of everything that starts later. */
  lemma {:induction false} InsertPlace(rqs: map<nat, Rq>, sort: seq<nat>, id: nat) returns (i: nat)
    requires Known(rqs, sort) && id in rqs && Ordered(rqs, sort, Sector)
    ensures Parts(rqs, sort, id, i) && i <= |sort| && Insert(rqs, sort, id) == sort[..i] + [id] + sort[i..]
    decreases |sort|
  {
    hide Ordered, Parts;
    if sort == [] {
      i := 0;
      PartsNone(rqs, id);
    } else if rqs[id].pos < rqs[sort[0]].pos {
      i := 0;
      PartsFirst(rqs, sort, id);
    } else {
      TailOrdered(rqs, sort, Sector);
      var k := InsertPlace(rqs, sort[1..], id);
      i := k + 1;
      PartsCons(rqs, sort, id, k);
      InsertedHead(sort, k, id);
    }
  }

  lemma PartsNone(rqs: map<nat, Rq>, id: nat)
    requires id in rqs
    ensures Parts(rqs, [], id, 0)
  {
  }

  lemma {:induction false} RemoveOrdered(rqs: map<nat, Rq>, ids: seq<nat>, x: nat, k: Key)
    requires Known(rqs, ids) && Ordered(rqs, ids, k)
    ensures Known(rqs, Remove(ids, x)) && Ordered(rqs, Remove(ids, x), k)
    decreases |ids|
  {
    hide Rank;
    if ids != [] {
      TailOrdered(rqs, ids, k);
      if ids[0] != x {
        RemoveOrdered(rqs, ids[1..], x, k);
        ConsOrdered(rqs, ids[0], Remove(ids[1..], x), k);
      }
    }
  }

  lemma TailOrdered(rqs: map<nat, Rq>, ids: seq<nat>, k: Key)
    requires Known(rqs, ids) && Ordered(rqs, ids, k) && ids != []
    ensures Known(rqs, ids[1..]) && Ordered(rqs, ids[1..], k)
    ensures forall y :: y in ids[1..] ==> Rank(rqs[ids[0]], k) <= Rank(rqs[y], k)
  {
    assert forall j :: 0 < j < |ids| ==> Rank(rqs[ids[0]], k) <= Rank(rqs[ids[j]], k);
  }

  lemma OrderedFrame(rqs: map<nat, Rq>, rqs': map<nat, Rq>, ids: seq<nat>, k: Key)
    requires Known(rqs, ids) && Known(rqs', ids) && Ordered(rqs, ids, k)
    requires forall id :: id in ids ==> Rank(rqs'[id], k) == Rank(rqs[id], k)
    ensures Ordered(rqs', ids, k)
  {
  }

  lemma ConsOrdered(rqs: map<nat, Rq>, x: nat, ids: seq<nat>, k: Key)
    requires x in rqs && Known(rqs, ids) && Ordered(rqs, ids, k)
    requires forall y :: y in ids ==> Rank(rqs[x], k) <= Rank(rqs[y], k)
    ensures Known(rqs, [x] + ids) && Ordered(rqs, [x] + ids, k)
  {
  }

  lemma {:induction false} LatterIn(sort: seq<nat>, id: nat)
    requires NoDup(sort)
    ensures Latter(sort, id).Some? ==> Latter(sort, id).value in Remove(sort, id)
    decreases |sort|
  {
    if |sort| >= 2 {
      NoDupTail(sort);
      if sort[0] != id {
        LatterIn(sort[1..], id);
      }
    }
  }

  lemma SubstMembers(m: seq<nat>, x: nat, y: nat)
    requires NoDup(m) && x in m && y !in m
    ensures NoDup(Subst(m, x, y)) && forall z :: z in Subst(m, x, y) <==> z == y || (z in m && z != x)
  {
    var r := Subst(m, x, y);
    forall z | z == y || (z in m && z != x) ensures z in r {
      var i :| 0 <= i < |m| && m[i] == if z == y then x else z;
      assert r[i] == z;
    }
  }

  /** req in next's place, with next's expiry. */
  lemma SubstOk(rqs: map<nat, Rq>, fifo: seq<nat>, req: nat, next: nat)
    requires NoDup(fifo) && Known(rqs, fifo) && Ordered(rqs, fifo, Expiry) && req in fifo && next in fifo && req != next
    ensures
      var rqs' := rqs[req := rqs[req].(expires := rqs[next].expires)];
      var r := Subst(Remove(fifo, req), next, req);
      && NoDup(r) && Known(rqs', r) && Ordered(rqs', r, Expiry)
      && (forall x :: x in r <==> x in fifo && x != next)
  {
    hide NoDup;
    var m := Remove(fifo, req);
    RemoveNoDup(fifo, req);
    RemoveOrdered(rqs, fifo, req, Expiry);
    SubstMembers(m, next, req);
    var rqs' := rqs[req := rqs[req].(expires := rqs[next].expires)];
    assert forall i :: 0 <= i < |m| ==> Rank(rqs'[Subst(m, next, req)[i]], Expiry) == Rank(rqs[m[i]], Expiry);
  }

  // ------------------------------------------------------------------
  // One direction

  lemma LaneFrame(rqs: map<nat, Rq>, rqs': map<nat, Rq>, d: Dir, l: Lane, latest: int, latest': int)
    requires LaneOk(rqs, d, l, latest) && latest <= latest'
    requires forall id :: id in l.fifo ==> id in rqs' && rqs'[id] == rqs[id]
    ensures LaneOk(rqs', d, l, latest')
    ensures LaneOk(rqs', d, l.(next := None), latest')
  {
  }

  lemma AddOk(rqs: map<nat, Rq>, rqs': map<nat, Rq>, d: Dir, l: Lane, id: nat, latest: int)
    requires LaneOk(rqs, d, l, latest) && id !in rqs && rqs'.Keys == rqs.Keys + {id}
    requires forall x :: x in rqs ==> rqs'[x] == rqs[x]
    requires rqs'[id].dir == d && rqs'[id].expires == latest
    ensures LaneOk(rqs', d, l.(sort := Insert(rqs', l.sort, id), fifo := l.fifo + [id]), latest)
  {
    LaneFrame(rqs, rqs', d, l, latest, latest);
    InsertOk(rqs', l.sort, id);
    NoDupAppend(l.fifo, id);
  }

  lemma FrontOk(rqs: map<nat, Rq>, d: Dir, l: Lane, id: nat, pos: nat, latest: int)
    requires LaneOk(rqs, d, l, latest) && id in l.fifo
    ensures
      var rqs' := rqs[id := rqs[id].(pos := pos)];
      LaneOk(rqs', d, l.(sort := Insert(rqs', Remove(l.sort, id), id)), latest)
  {
    hide Insert, Ordered, NoDup;
    var rqs' := rqs[id := rqs[id].(pos := pos)];
    var m := Remove(l.sort, id);
    RemoveNoDup(l.sort, id);
    RemoveOrdered(rqs, l.sort, id, Sector);
    OrderedFrame(rqs, rqs', m, Sector);
    InsertOk(rqs', m, id);
    OrderedFrame(rqs, rqs', l.fifo, Expiry);
  }

  /** The sorted index and next_rq without a request. */
  lemma DelOk(rqs: map<nat, Rq>, l: Lane, id: nat)
    requires NoDup(l.sort) && Known(rqs, l.sort) && Ordered(rqs, l.sort, Sector)
    requires l.next.Some? ==> l.next.value in l.sort
    ensures
      var l' := DelRqRb(l, id);
      && NoDup(l'.sort) && Known(rqs, l'.sort) && Ordered(rqs, l'.sort, Sector)
      && (forall x :: x in l'.sort <==> x in l.sort && x != id)
      && (l'.next.Some? ==> l'.next.value in l'.sort && l.next.Some?)
  {
    RemoveNoDup(l.sort, id);
    RemoveOrdered(rqs, l.sort, id, Sector);
    LatterIn(l.sort, id);
  }

  lemma RemoveOk(rqs: map<nat, Rq>, d: Dir, l: Lane, id: nat, latest: int)
    requires LaneOk(rqs, d, l, latest)
    ensures
      var l' := RemoveRequest(l, id);
      && LaneOk(rqs, d, l', latest) && (l'.next.Some? ==> l.next.Some?)
      && (forall x :: x in l'.fifo <==> x in l.fifo && x != id)
  {
    DelOk(rqs, l.(fifo := Remove(l.fifo, id)), id);
    RemoveNoDup(l.fifo, id);
    RemoveOrdered(rqs, l.fifo, id, Expiry);
  }

  lemma MergeOk(rqs: map<nat, Rq>, d: Dir, l: Lane, req: nat, next: nat, latest: int)
    requires LaneOk(rqs, d, l, latest) && req in l.fifo && next in l.fifo && req != next
    ensures
      var rqs' := rqs[req := rqs[req].(expires := rqs[next].expires)];
      var l' := DelRqRb(l.(fifo := Subst(Remove(l.fifo, req), next, req)), next);
      LaneOk(rqs', d, l', latest) && (l'.next.Some? ==> l.next.Some?) && (forall x :: x in l'.fifo ==> x in l.fifo)
  {
    DelOk(rqs, l.(fifo := Subst(Remove(l.fifo, req), next, req)), next);
    SubstOk(rqs, l.fifo, req, next);
  }

  lemma MoveOk(rqs: map<nat, Rq>, d: Dir, l: Lane, id: nat, latest: int)
    requires LaneOk(rqs, d, l, latest) && id in l.fifo
    ensures
      var l' := RemoveRequest(l.(next := Latter(l.sort, id)), id);
      LaneOk(rqs, d, l', latest) && (forall x :: x in l'.fifo <==> x in l.fifo && x != id) && |l'.fifo| == |l.fifo| - 1
  {
    LatterIn(l.sort, id);
    RemoveOk(rqs, d, l.(next := Latter(l.sort, id)), id, latest);
  }

  // ------------------------------------------------------------------
  // Events

  lemma InvKnows(c: Config, s: State)
    requires Inv(c, s)
    ensures AllKnown(s)
    ensures forall d :: LaneOk(s.rqs, d, LaneOf(s, d), s.now + Expire(c, d))
  {
  }

  lemma AddKeeps(c: Config, s: State, id: nat, d: Dir, pos: nat)
    requires Inv(c, s) && id !in s.rqs
    ensures AllKnown(s) && Inv(c, AddRequest(c, s, id, d, pos))
    ensures
      var s', l := AddRequest(c, s, id, d, pos), LaneOf(s, d);
      && s'.rqs == s.rqs[id := Rq(d, pos, s.now + if d == Read then c.readExpire else c.writeExpire)]
      && LaneOf(s', d).fifo == l.fifo + [id] && LaneOf(s', d).next == l.next
      && s' == WithLane(s.(rqs := s'.rqs), d, LaneOf(s', d))
  {
    hide LaneOk, Insert;
    InvKnows(c, s);
    var s' := AddRequest(c, s, id, d, pos);
    AddOk(s.rqs, s'.rqs, d, LaneOf(s, d), id, s.now + Expire(c, d));
    LaneFrame(s.rqs, s'.rqs, Other(d), LaneOf(s, Other(d)), s.now + Expire(c, Other(d)), s.now + Expire(c, Other(d)));
  }

  lemma FrontKeeps(c: Config, s: State, id: nat, pos: nat)
    requires Inv(c, s) && Queued(s, id)
    ensures AllKnown(s) && Inv(c, FrontMerged(s, id, pos))
    ensures
      var s', d := FrontMerged(s, id, pos), s.rqs[id].dir;
      && s'.rqs == s.rqs[id := Rq(d, pos, s.rqs[id].expires)]
      && LaneOf(s', d).fifo == LaneOf(s, d).fifo && LaneOf(s', d).next == LaneOf(s, d).next
      && s' == WithLane(s.(rqs := s'.rqs), d, LaneOf(s', d))
  {
    hide LaneOk, Insert;
    InvKnows(c, s);
    var d := s.rqs[id].dir;
    var s' := FrontMerged(s, id, pos);
    FrontOk(s.rqs, d, LaneOf(s, d), id, pos, s.now + Expire(c, d));
    Apart(c, s, id);
    LaneFrame(s.rqs, s'.rqs, Other(d), LaneOf(s, Other(d)), s.now + Expire(c, Other(d)), s.now + Expire(c, Other(d)));
  }

  lemma Apart(c: Config, s: State, id: nat)
    requires Inv(c, s) && id in s.rqs
    ensures id !in LaneOf(s, Other(s.rqs[id].dir)).fifo
  {
  }

  lemma MergeKeeps(c: Config, s: State, req: nat, next: nat)
    requires Inv(c, s) && Enabled(s, Merged(req, next))
    ensures AllKnown(s) && Inv(c, MergedRequests(s, req, next))
  {
    hide LaneOk, Subst, DelRqRb, RemoveRequest, NoDup;
    InvKnows(c, s);
    var d := s.rqs[req].dir;
    var s' := MergedRequests(s, req, next);
    var latest := s.now + Expire(c, Other(d));
    if s.rqs[next].expires < s.rqs[req].expires {
      MergeOk(s.rqs, d, LaneOf(s, d), req, next, s.now + Expire(c, d));
    } else {
      RemoveOk(s.rqs, d, LaneOf(s, d), next, s.now + Expire(c, d));
    }
    Apart(c, s, req);
    LaneFrame(s.rqs, s'.rqs, Other(d), LaneOf(s, Other(d)), latest, latest);
  }

  lemma MoveKeeps(c: Config, s: State, d: Dir, id: nat)
    requires Inv(c, s) && id in LaneOf(s, d).fifo && s.batching > 0
    ensures
      var s' := MoveRequest(s, d, id);
      && Inv(c, s') && s'.out == s.out + [id] && id !in s.out && id in s.rqs && s.rqs[id].dir == d
      && |s'.read.fifo| + |s'.write.fifo| == |s.read.fifo| + |s.write.fifo| - 1
      && (forall x :: x in s'.read.fifo || x in s'.write.fifo <==> (x in s.read.fifo || x in s.write.fifo) && x != id)
  {
    hide Latter, RemoveRequest, LaneOk, NoDup;
    var latest, other := s.now + Expire(c, d), s.now + Expire(c, Other(d));
    InvKnows(c, s);
    LaneMember(c, s, d, id);
    MoveOk(s.rqs, d, LaneOf(s, d), id, latest);
    LaneFrame(s.rqs, s.rqs, Other(d), LaneOf(s, Other(d)), other, other);
    NoDupAppend(s.out, id);
  }

  lemma LaneMember(c: Config, s: State, d: Dir, id: nat)
    requires Inv(c, s) && id in LaneOf(s, d).fifo
    ensures id in s.rqs && s.rqs[id].dir == d && id !in LaneOf(s, Other(d)).fifo && id !in s.out
  {
  }

  lemma PickedQueued(c: Config, s: State)
    requires Inv(c, s) && !Idle(s)
    ensures AllKnown(s) && Picked(c, s) in LaneOf(s, Served(c, s)).fifo
  {
  }

  lemma IdleStays(c: Config, s: State)
    requires AllKnown(s) && Idle(s)
    ensures Dispatch(c, s) == s
  {
  }

  lemma CountersKeep(c: Config, s: State, batching: nat, starved: nat)
    requires Inv(c, s) && batching > 0
    ensures Inv(c, s.(batching := batching, starved := starved))
  {
  }

  /** A dispatch moves one queued request, if there is any, and nothing else. */
  lemma DispatchMoves(c: Config, s: State)
    requires Inv(c, s)
    ensures AllKnown(s) && Inv(c, Dispatch(c, s))
    ensures !Idle(s) ==>
      var id, s' := Picked(c, s), Dispatch(c, s);
      && (id in s.read.fifo || id in s.write.fifo) && s'.out == s.out + [id] && id !in s.out
      && |s'.read.fifo| + |s'.write.fifo| == |s.read.fifo| + |s.write.fifo| - 1
      && (forall x :: x in s'.read.fifo || x in s'.write.fifo <==> (x in s.read.fifo || x in s.write.fifo) && x != id)
  {
    hide Inv, Picked, Served, MoveRequest, Starved, InBatch;
    InvKnows(c, s);
    if !Idle(s) {
      PickedQueued(c, s);
      var batching: nat := if InBatch(c, s).Some? then s.batching + 1 else 1;
      CountersKeep(c, s, batching, Starved(c, s));
      MoveKeeps(c, s.(starved := Starved(c, s), batching := batching), Served(c, s), Picked(c, s));
    }
  }

  lemma EventKeeps(c: Config, s: State, e: Event)
    requires Inv(c, s) && Enabled(s, e)
    ensures AllKnown(s) && Inv(c, Apply(c, s, e))
  {
    hide LaneOk, AddRequest, FrontMerged, MergedRequests, Dispatch;
    InvKnows(c, s);
    match e {
      case Ticked(j) =>
        LaneFrame(s.rqs, s.rqs, Read, s.read, s.now + c.readExpire, s.now + j + c.readExpire);
        LaneFrame(s.rqs, s.rqs, Write, s.write, s.now + c.writeExpire, s.now + j + c.writeExpire);
      case Added(id, d, pos) => AddKeeps(c, s, id, d, pos);
      case Front(id, pos) => FrontKeeps(c, s, id, pos);
      case Merged(req, next) => MergeKeeps(c, s, req, next);
      case Dispatched => DispatchMoves(c, s);
    }
  }

  // ------------------------------------------------------------------
  // Runs

  /** Any sequence of enabled events is a run. */
  ghost predicate Run(c: Config, s: State, es: seq<Event>)
    requires Inv(c, s)
    decreases |es|
  {
    es != [] ==>
      Enabled(s, es[0]) && (EventKeeps(c, s, es[0]); Run(c, Apply(c, s, es[0]), es[1..]))
  }

  ghost function Exec(c: Config, s: State, es: seq<Event>): State
    requires Inv(c, s) && Run(c, s, es)
    decreases |es|
  {
    if es == [] then s else
    EventKeeps(c, s, es[0]);
    Exec(c, Apply(c, s, es[0]), es[1..])
  }

  /** In every reachable state both indexes of a direction hold the same requests, each in its
      order, at most one next_rq is set and it is queued, and nothing was dispatched twice. */
  lemma {:induction false} IndexesAgree(c: Config, s: State, es: seq<Event>)
    requires Inv(c, s) && Run(c, s, es)
    ensures Inv(c, Exec(c, s, es))
    decreases |es|
  {
    hide Inv, Apply, Enabled, AllKnown;
    if es != [] {
      EventKeeps(c, s, es[0]);
      IndexesAgree(c, Apply(c, s, es[0]), es[1..]);
    }
  }
}

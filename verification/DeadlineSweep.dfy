/** Dispatches of one direction sweep over the disk in ascending order until something expires. */
module DeadlineSweep {
  import opened Lists
  import opened Deadline
  import opened DeadlineKeeps

  lemma {:induction false} LatterNext(sort: seq<nat>, id: nat, i: nat)
    requires NoDup(sort) && i < |sort| && sort[i] == id
    ensures Latter(sort, id) == if i + 1 < |sort| then Some(sort[i + 1]) else None
    decreases |sort|
  {
    if |sort| >= 2 && sort[0] != id {
      NoDupTail(sort);
      LatterNext(sort[1..], id, i - 1);
    }
  }

  /** next is the nearest of the queued requests that do not start before id. */
  predicate Nearest(rqs: map<nat, Rq>, queued: seq<nat>, id: nat, next: Option<nat>)
    requires Known(rqs, queued) && id in rqs
  {
    match next
    case None => forall x :: x in queued ==> rqs[x].pos <= rqs[id].pos
    case Some(n) =>
      && n in queued && rqs[n].pos >= rqs[id].pos
      && forall x :: x in queued ==> rqs[x].pos <= rqs[id].pos || rqs[x].pos >= rqs[n].pos
  }

  lemma LatterNearest(rqs: map<nat, Rq>, d: Dir, l: Lane, id: nat, latest: int)
    requires LaneOk(rqs, d, l, latest) && id in l.fifo
    ensures
      var l' := RemoveRequest(l.(next := Latter(l.sort, id)), id);
      Known(rqs, l'.fifo) && Nearest(rqs, l'.fifo, id, l'.next)
  {
    MoveOk(rqs, d, l, id, latest);
    var l' := RemoveRequest(l.(next := Latter(l.sort, id)), id);
    LatterIn(l.sort, id);
    RemoveNoDup(l.sort, id);
    assert l'.next == Latter(l.sort, id);
    var i :| 0 <= i < |l.sort| && l.sort[i] == id;
    LatterNext(l.sort, id, i);
    forall x | x in l'.fifo
      ensures rqs[x].pos <= rqs[id].pos || (i + 1 < |l.sort| && rqs[x].pos >= rqs[l.sort[i + 1]].pos)
    {
      var j :| 0 <= j < |l.sort| && l.sort[j] == x;
      SortedAt(rqs, l.sort, i, j);
      if i + 1 < |l.sort| {
        SortedAt(rqs, l.sort, i + 1, j);
        SortedAt(rqs, l.sort, i, i + 1);
      }
    }
  }

  lemma SortedAt(rqs: map<nat, Rq>, sort: seq<nat>, i: nat, j: nat)
    requires Known(rqs, sort) && Ordered(rqs, sort, Sector) && i < |sort| && j < |sort|
    ensures i <= j ==> rqs[sort[i]].pos <= rqs[sort[j]].pos
    ensures j <= i ==> rqs[sort[j]].pos <= rqs[sort[i]].pos
  {
    assert i < j ==> Rank(rqs[sort[i]], Sector) <= Rank(rqs[sort[j]], Sector);
    assert j < i ==> Rank(rqs[sort[j]], Sector) <= Rank(rqs[sort[i]], Sector);
  }

  /** The remaining request that comes next takes the place of one that is merged away as next_rq. */
  lemma MergeSweeps(c: Config, s: State, req: nat, next: nat)
    requires Inv(c, s) && Enabled(s, Merged(req, next))
    ensures
      var s', d := MergedRequests(s, req, next), s.rqs[req].dir;
      var l, l' := LaneOf(s, d), LaneOf(s', d);
      && Known(s.rqs, l'.fifo)
      && (l.next == Some(next) ==> Nearest(s.rqs, l'.fifo, next, l'.next))
      && (l.next != Some(next) ==> l'.next == l.next)
  {
    hide LaneOk, NoDup, Nearest, Latter, Remove, Subst;
    InvKnows(c, s);
    var d := s.rqs[req].dir;
    var l := LaneOf(s, d);
    FifoMembers(s, d, next, s.now + Expire(c, d));
    LatterNearest(s.rqs, d, l, next, s.now + Expire(c, d));
    MergedFifo(c, s, req, next);
    var after := RemoveRequest(l.(next := Latter(l.sort, next)), next);
    if l.next == Some(next) {
      NearestFrame(s.rqs, after.fifo, LaneOf(MergedRequests(s, req, next), d).fifo, next, after.next);
    }
  }

  lemma FifoMembers(s: State, d: Dir, id: nat, latest: int)
    requires LaneOk(s.rqs, d, LaneOf(s, d), latest) && id in LaneOf(s, d).fifo
    ensures
      var l := LaneOf(s, d);
      var after := RemoveRequest(l.(next := Latter(l.sort, id)), id);
      && (forall x :: x in after.fifo <==> x in l.fifo && x != id)
      && after.next == Latter(l.sort, id)
  {
    MoveOk(s.rqs, d, LaneOf(s, d), id, latest);
    LatterIn(LaneOf(s, d).sort, id);
    RemoveNoDup(LaneOf(s, d).sort, id);
  }

  lemma NearestFrame(rqs: map<nat, Rq>, a: seq<nat>, b: seq<nat>, id: nat, next: Option<nat>)
    requires Known(rqs, a) && Known(rqs, b) && id in rqs && (forall x :: x in a <==> x in b)
    requires Nearest(rqs, a, id, next)
    ensures Nearest(rqs, b, id, next)
  {
  }

  lemma MergedFifo(c: Config, s: State, req: nat, next: nat)
    requires Inv(c, s) && Enabled(s, Merged(req, next))
    ensures
      var l, l' := LaneOf(s, s.rqs[req].dir), LaneOf(MergedRequests(s, req, next), s.rqs[req].dir);
      && Known(s.rqs, l'.fifo) && (forall x :: x in l'.fifo <==> x in l.fifo && x != next)
      && l'.next == (if l.next == Some(next) then Latter(l.sort, next) else l.next)
  {
    hide Ordered, Latter;
    var l := LaneOf(s, s.rqs[req].dir);
    RemoveNoDup(l.fifo, req);
    RemoveNoDup(l.fifo, next);
    SubstMembers(Remove(l.fifo, req), next, req);
  }

  /** After a dispatch next_rq of its direction is the nearest request further on, and the other
      direction has none. */
  lemma SweepGoesOn(c: Config, s: State)
    requires Inv(c, s) && !Idle(s)
    ensures
      AllKnown(s) &&
      var d, id, s' := Served(c, s), Picked(c, s), Dispatch(c, s);
      && AllKnown(s') && id in s.rqs && s'.rqs == s.rqs
      && LaneOf(s', Other(d)).next == None
      && Nearest(s.rqs, LaneOf(s', d).fifo, id, LaneOf(s', d).next)
  {
    hide LaneOk, Picked, Served, Latter, RemoveRequest, Nearest, Starved;
    InvKnows(c, s);
    PickedQueued(c, s);
    DispatchMoves(c, s);
    InvKnows(c, Dispatch(c, s));
    var d, id := Served(c, s), Picked(c, s);
    LatterNearest(s.rqs, d, LaneOf(s, d), id, s.now + Expire(c, d));
  }

  /** The next dispatch of the same direction goes on there, unless it starts a batch and the oldest
      request has expired; so without expiry a direction is served in ascending order, and goes back
      to its oldest request only when there is none further on. */
  lemma SweepAscends(c: Config, s: State)
    requires Inv(c, s) && !Idle(s)
    ensures
      AllKnown(s) &&
      var s' := Dispatch(c, s);
      AllKnown(s') && Inv(c, s')
    ensures
      var s', d := Dispatch(c, s), Served(c, s);
      !Idle(s') && Served(c, s') == d ==>
        var l, again := LaneOf(s', d), Picked(c, s');
        if l.next.Some? && (InBatch(c, s').Some? || s'.now <= s.rqs[l.fifo[0]].expires)
        then again == l.next.value && s.rqs[again].pos >= s.rqs[Picked(c, s)].pos
        else again == l.fifo[0]
  {
    hide LaneOk, RemoveRequest, Latter, MoveRequest, Dispatch, Starved;
    SweepGoesOn(c, s);
    DispatchMoves(c, s);
    PickedQueued(c, s);
    var s', d := Dispatch(c, s), Served(c, s);
    if !Idle(s') && Served(c, s') == d {
      PickedQueued(c, s');
      InvKnows(c, s');
    }
  }
}

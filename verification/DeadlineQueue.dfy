/** struct deadline_data and the functions that change it. */
module DeadlineQueue {
  import opened Lists
  import opened Deadline
  import opened DeadlineKeeps
  import opened DeadlineExpiry

  /** An array of two, indexed by data direction. */
  datatype Both<T> = Both(r: T, w: T) {
    function At(d: Dir): T {
      if d == Read then r else w
    }

    function With(d: Dir, x: T): Both<T> {
      if d == Read then Both(x, w) else Both(r, x)
    }
  }

  class DeadlineData {
    const c: Config
    var jiffies: int
    var rqs: map<nat, Rq>
    var sortList: Both<seq<nat>>
    var fifoList: Both<seq<nat>>
    var nextRq: Both<Option<nat>>
    var batching: nat
    var starved: nat
    var dispatched: seq<nat>

    ghost function View(): State
      reads this
    {
      State(jiffies, rqs, Lane(sortList.At(Read), fifoList.At(Read), nextRq.At(Read)),
            Lane(sortList.At(Write), fifoList.At(Write), nextRq.At(Write)), batching, starved, dispatched)
    }

    ghost predicate Valid()
      reads this
    {
      Inv(c, View())
    }

    constructor (c: Config)
      ensures Valid() && View() == START && this.c == c
    {
      this.c := c;
      jiffies, rqs := 0, map[];
      sortList := Both([], []);
      fifoList := Both([], []);
      nextRq := Both(None, None);
      batching, starved, dispatched := 0, 0, [];
    }

    method Tick(n: nat)
      requires Valid()
      modifies this`jiffies
      ensures Valid() && View() == Apply(c, old(View()), Ticked(n))
    {
      ghost var s := View();
      jiffies := jiffies + n;
      EventKeeps(c, s, Ticked(n));
    }

    /** deadline_add_request. */
    method AddRequest(id: nat, d: Dir, pos: nat)
      requires Valid() && id !in rqs
      modifies this
      ensures Valid() && AllKnown(old(View())) && View() == Deadline.AddRequest(c, old(View()), id, d, pos)
    {
      hide Inv, Insert;
      ghost var s := View();
      AddKeeps(c, s, id, d, pos);
      rqs := rqs[id := Rq(d, pos, jiffies + Expire(c, d))];
      sortList := sortList.With(d, Insert(rqs, sortList.At(d), id));
      fifoList := fifoList.With(d, fifoList.At(d) + [id]);
    }

    /** deadline_merged_request: a front merge has made the request start at pos. */
    method MergedRequest(id: nat, pos: nat, front: bool)
      requires Valid() && Queued(View(), id)
      modifies this`rqs, this`sortList
      ensures Valid()
      ensures front ==> AllKnown(old(View())) && View() == FrontMerged(old(View()), id, pos)
      ensures !front ==> View() == old(View())
    {
      hide Inv, Insert;
      ghost var s := View();
      FrontKeeps(c, s, id, pos);
      var d := rqs[id].dir;
      if front {
        rqs := rqs[id := rqs[id].(pos := pos)];
        sortList := sortList.With(d, Remove(sortList.At(d), id));
        sortList := sortList.With(d, Insert(rqs, sortList.At(d), id));
      }
    }

    /** deadline_del_rq_rb. */
    method DelRqRb(id: nat)
      requires id in rqs
      modifies this`nextRq, this`sortList
      ensures View() == var d := rqs[id].dir;
                        WithLane(old(View()), d, Deadline.DelRqRb(LaneOf(old(View()), d), id))
    {
      hide Latter, Remove;
      var d := rqs[id].dir;
      if nextRq.At(d) == Some(id) {
        nextRq := nextRq.With(d, Latter(sortList.At(d), id));
      }
      sortList := sortList.With(d, Remove(sortList.At(d), id));
    }

    /** deadline_remove_request. */
    method RemoveRequest(id: nat)
      requires id in rqs
      modifies this`nextRq, this`sortList, this`fifoList
      ensures View() == var d := rqs[id].dir;
                        WithLane(old(View()), d, Deadline.RemoveRequest(LaneOf(old(View()), d), id))
    {
      hide Remove, Deadline.DelRqRb;
      var d := rqs[id].dir;
      fifoList := fifoList.With(d, Remove(fifoList.At(d), id));
      DelRqRb(id);
    }

    /** deadline_merged_requests: list_move puts req behind next, and next is then taken off. */
    method MergedRequests(req: nat, next: nat)
      requires Valid() && Enabled(View(), Merged(req, next))
      modifies this
      ensures Valid() && View() == Deadline.MergedRequests(old(View()), req, next)
      ensures
        var a, b := old(rqs)[req], old(rqs)[next];
        rqs == old(rqs)[req := a.(expires := if b.expires < a.expires then b.expires else a.expires)]
      ensures SameBut(old(View()), View(), next)
    {
      hide Inv, Latter, Deadline.DelRqRb, Subst, Remove;
      ghost var s := View();
      MergeKeeps(c, s, req, next);
      MergedMembers(c, s, req, next);
      var d := rqs[req].dir;
      if rqs[next].expires < rqs[req].expires {
        MovedBehind(c, s, req, next);
        fifoList := fifoList.With(d, InsertAfter(Remove(fifoList.At(d), req), next, req));
        rqs := rqs[req := rqs[req].(expires := rqs[next].expires)];
      }
      RemoveRequest(next);
    }

    /** deadline_move_request. */
    method MoveRequest(id: nat)
      requires id in rqs
      modifies this
      ensures View() == Deadline.MoveRequest(old(View()), old(rqs)[id].dir, id)
    {
      hide Latter, Remove, Deadline.RemoveRequest;
      var d := rqs[id].dir;
      nextRq := Both(None, None);
      nextRq := nextRq.With(d, Latter(sortList.At(d), id));
      RemoveRequest(id);
      dispatched := dispatched + [id];
    }

    /** deadline_check_fifo. */
    predicate CheckFifo(d: Dir)
      requires fifoList.At(d) != [] && Known(rqs, fifoList.At(d))
      reads this
    {
      jiffies > rqs[fifoList.At(d)[0]].expires
    }

    /** deadline_dispatch_requests. */
    method DispatchRequests() returns (moved: bool)
      requires Valid()
      modifies this
      ensures Valid() && moved == !Idle(old(View()))
      ensures AllKnown(old(View())) && View() == Dispatch(c, old(View()))
    {
      hide Inv, Deadline.MoveRequest;
      ghost var s := View();
      DispatchMoves(c, s);
      BatchIsQueued(c, s);
      var haveReads, haveWrites := fifoList.At(Read) != [], fifoList.At(Write) != [];
      var rq := if nextRq.At(Write).Some? then nextRq.At(Write) else nextRq.At(Read);
      if !(rq.Some? && batching < c.fifoBatch) {
        var d := Write;
        if haveReads {
          var starving := haveWrites && starved >= Threshold(c);
          if haveWrites {
            starved := starved + 1;
          }
          if starving {
            starved := 0;
          } else {
            d := Read;
          }
        } else if haveWrites {
          starved := 0;
        } else {
          return false;
        }
        rq := if CheckFifo(d) || nextRq.At(d).None? then Some(fifoList.At(d)[0]) else nextRq.At(d);
        batching := 0;
      }
      batching := batching + 1;
      assert rq.value == Picked(c, s);
      MoveRequest(rq.value);
      return true;
    }

    /** elv_drain_elevator: every queued request is moved, once. */
    method Drain()
      requires Valid()
      modifies this
      ensures Valid() && Idle(View())
      ensures old(dispatched) <= dispatched
      ensures
        forall id :: id in dispatched[|old(dispatched)|..]
          <==> id in old(fifoList).At(Read) || id in old(fifoList).At(Write)
    {
      hide Inv, Dispatch;
      ghost var moved: seq<nat> := [];
      var more := true;
      while more
        invariant Valid()
        invariant dispatched == old(dispatched) + moved
        invariant !more ==> Idle(View())
        invariant forall id :: id in old(fifoList).At(Read) || id in old(fifoList).At(Write)
                    <==> id in moved || id in fifoList.At(Read) || id in fifoList.At(Write)
        decreases |fifoList.At(Read)| + |fifoList.At(Write)|, more
      {
        ghost var s := View();
        DispatchMoves(c, s);
        more := DispatchRequests();
        if more {
          moved := moved + [Picked(c, s)];
        } else {
          IdleStays(c, s);
        }
      }
      assert dispatched[|old(dispatched)|..] == moved;
    }
  }

  /** A batch that goes on takes its queued next_rq; what is picked has the direction served. */
  lemma BatchIsQueued(c: Config, s: State)
    requires Inv(c, s)
    ensures s.read.next.None? || s.write.next.None?
    ensures s.read.next.Some? || s.write.next.Some? ==> !Idle(s)
    ensures AllKnown(s)
    ensures !Idle(s) ==> Picked(c, s) in s.rqs && s.rqs[Picked(c, s)].dir == Served(c, s)
  {
    if !Idle(s) {
      PickedQueued(c, s);
    }
  }

  /** The fifo lists hold the same requests, but for one. */
  ghost predicate SameBut(s: State, s': State, gone: nat) {
    forall d, x :: x in LaneOf(s', d).fifo <==> x in LaneOf(s, d).fifo && x != gone
  }

  lemma MergedMembers(c: Config, s: State, req: nat, next: nat)
    requires Inv(c, s) && Enabled(s, Merged(req, next))
    ensures
      var s' := Deadline.MergedRequests(s, req, next);
      SameBut(s, s', next)
      && s'.rqs == s.rqs[req := s.rqs[req].(expires := Least(s.rqs[req].expires, s.rqs[next].expires))]
  {
    hide Deadline.MergedRequests;
    InvKnows(c, s);
    MergeTakesOver(c, s, req, next, req, req);
    Apart(c, s, next);
  }

  function InsertAfter(ids: seq<nat>, x: nat, y: nat): seq<nat> {
    if ids == [] then [] else if ids[0] == x then [x, y] + ids[1..] else [ids[0]] + InsertAfter(ids[1..], x, y)
  }

  /** Putting y behind x and then taking x off is putting y in the place of x. */
  lemma {:induction false} PlaceTaken(ids: seq<nat>, x: nat, y: nat)
    requires NoDup(ids) && x in ids
    ensures Remove(InsertAfter(ids, x, y), x) == Subst(ids, x, y)
    decreases |ids|
  {
    hide Subst, NoDup;
    NoDupTail(ids);
    SubstCons(ids, x, y);
    if ids[0] == x {
      assert [x, y] + ids[1..] == [x] + ([y] + ids[1..]);
      RemoveHead(x, [y] + ids[1..]);
    } else {
      PlaceTaken(ids[1..], x, y);
      var r := InsertAfter(ids[1..], x, y);
      assert ([ids[0]] + r)[1..] == r;
    }
  }

  lemma SubstCons(ids: seq<nat>, x: nat, y: nat)
    requires ids != []
    ensures Subst(ids, x, y) == [if ids[0] == x then y else ids[0]] + Subst(ids[1..], x, y)
    ensures x !in ids[1..] ==> Subst(ids[1..], x, y) == ids[1..]
  {
  }

  lemma MovedBehind(c: Config, s: State, req: nat, next: nat)
    requires Inv(c, s) && Enabled(s, Merged(req, next))
    ensures
      var fifo := Remove(LaneOf(s, s.rqs[req].dir).fifo, req);
      Remove(InsertAfter(fifo, next, req), next) == Subst(fifo, next, req)
  {
    var fifo := LaneOf(s, s.rqs[req].dir).fifo;
    RemoveNoDup(fifo, req);
    PlaceTaken(Remove(fifo, req), next, req);
  }
}

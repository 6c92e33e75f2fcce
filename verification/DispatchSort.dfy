/**
 Sorted insertion into the dispatch queue (block/elevator.c, elv_dispatch_sort). Requests between
 two fixed ones are kept in the order of one sweep of the disk head: first those at or beyond the
 boundary, then those below it.
 */
module DispatchSort {

  /** `kind` is direction and discard flag, `fixed` is REQ_SOFTBARRIER or REQ_STARTED. */
  datatype Rq = Rq(id: nat, pos: nat, kind: nat, fixed: bool)

  /** Does the head, starting from the boundary, reach a no later than b? */
  predicate NoLater(boundary: nat, a: Rq, b: Rq) {
    if (a.pos < boundary) == (b.pos < boundary) then a.pos <= b.pos else b.pos < boundary
  }

  /** May a request be moved in front of p for the sake of x? */
  predicate Movable(p: Rq, x: Rq) {
    p.kind == x.kind && !p.fixed
  }

  /** Neighbours are in sweep order unless the first is fixed or of another kind. */
  predicate Swept(boundary: nat, queue: seq<Rq>) {
    forall i :: 0 < i < |queue| && Movable(queue[i - 1], queue[i]) ==> NoLater(boundary, queue[i - 1], queue[i])
  }

  /** The walk from the tail puts the request behind everything fixed or of another kind, and in
      sweep order among what it may pass; nothing else moves. */
  method SortedInsert(queue: seq<Rq>, boundary: nat, rq: Rq) returns (after: seq<Rq>)
    ensures Swept(boundary, queue) ==> Swept(boundary, after)
    ensures exists i :: 0 <= i <= |queue| && after == queue[..i] + [rq] + queue[i..] && Passed(boundary, queue, rq, i)
  {
    var i := |queue|;
    while i > 0
      invariant 0 <= i <= |queue|
      invariant forall j :: i <= j < |queue| ==> Movable(queue[j], rq) && !NoLater(boundary, queue[j], rq)
      invariant i < |queue| ==> NoLater(boundary, rq, queue[i])
    {
      var pos := queue[i - 1];
      if rq.kind != pos.kind || pos.fixed {
        break;
      }
      if rq.pos >= boundary {
        if pos.pos < boundary {
          i := i - 1;
          continue;
        }
      } else if pos.pos >= boundary {
        break;
      }
      if rq.pos >= pos.pos {
        break;
      }
      i := i - 1;
    }
    after := queue[..i] + [rq] + queue[i..];
    assert Passed(boundary, queue, rq, i);
    forall k | Swept(boundary, queue) && 0 < k < |after| && Movable(after[k - 1], after[k])
      ensures NoLater(boundary, after[k - 1], after[k])
    {
      if k < i {
        assert after[k] == queue[k] && after[k - 1] == queue[k - 1];
      } else if k > i + 1 {
        assert after[k] == queue[k - 1] && after[k - 1] == queue[k - 2];
      }
    }
  }

  /** Everything from i on is of the same kind, not fixed, and reached later than rq: it lies further on,
      where both are at or beyond the boundary or both below it, and below the boundary where rq is not.
      The request before i is fixed, of another kind, or reached no later. */
  predicate Passed(boundary: nat, queue: seq<Rq>, rq: Rq, i: nat)
    requires i <= |queue|
  {
    && (forall j :: i <= j < |queue| ==> queue[j].kind == rq.kind && !queue[j].fixed)
    && (forall j :: i <= j < |queue| ==>
          if queue[j].pos >= boundary then boundary <= rq.pos < queue[j].pos
          else rq.pos >= boundary || rq.pos < queue[j].pos)
    && (i > 0 ==>
          var p := queue[i - 1];
          || p.kind != rq.kind || p.fixed
          || (if p.pos >= boundary then rq.pos < boundary || p.pos <= rq.pos else p.pos <= rq.pos < boundary))
  }

  /** The sweep reaches what is at or beyond the boundary first, from there on upward, and then what is
      below it, from the start of the disk. */
  lemma SweepOrder(boundary: nat, a: Rq, b: Rq)
    ensures
      NoLater(boundary, a, b) <==>
        if a.pos >= boundary then b.pos < boundary || a.pos <= b.pos else a.pos <= b.pos < boundary
  {
  }

  /** In a run of movable requests of one kind, all are in sweep order. */
  lemma {:induction false} RunsAreSorted(boundary: nat, queue: seq<Rq>, i: nat, j: nat)
    requires Swept(boundary, queue) && i <= j < |queue|
    requires forall k :: i < k <= j ==> Movable(queue[k - 1], queue[k])
    ensures NoLater(boundary, queue[i], queue[j])
    decreases j
  {
    if i < j {
      RunsAreSorted(boundary, queue, i, j - 1);
    }
  }

  // ------------------------------------------------------------------
  // A new boundary

  /** The boundary does not fall between two requests in ascending order, and does fall between two
      in descending order. */
  predicate Suits(boundary: nat, a: Rq, b: Rq) {
    if a.pos <= b.pos then !(a.pos < boundary <= b.pos) else b.pos < boundary <= a.pos
  }

  lemma SuitsIffNoLater(boundary: nat, a: Rq, b: Rq)
    ensures Suits(boundary, a, b) <==> NoLater(boundary, a, b)
  {
  }

  /** What a new boundary leaves of the order: exactly the neighbours it suits. So between requests
      that lie on the same side of both boundaries, or that ascend and are not parted by the new one,
      the order survives. */
  lemma NewBoundary(was: nat, now: nat, queue: seq<Rq>)
    requires Swept(was, queue)
    ensures
      Swept(now, queue) <==>
        forall i :: 0 < i < |queue| && Movable(queue[i - 1], queue[i]) ==> Suits(now, queue[i - 1], queue[i])
    ensures
      forall i :: 0 < i < |queue| && Movable(queue[i - 1], queue[i])
                  && (queue[i - 1].pos < was <==> queue[i].pos < was)
                  && (queue[i - 1].pos < now <==> queue[i].pos < now)
                  ==> NoLater(now, queue[i - 1], queue[i])
  {
    forall i | 0 < i < |queue|
      ensures Suits(now, queue[i - 1], queue[i]) <==> NoLater(now, queue[i - 1], queue[i])
    {
      SuitsIffNoLater(now, queue[i - 1], queue[i]);
    }
  }

  /** elv_dispatch_add_tail: the request goes last, and the sweep starts anew from its end. The queue
      is in order for the new sweep where that suits it. */
  method AddTail(queue: seq<Rq>, rq: Rq, sectors: nat) returns (after: seq<Rq>, boundary': nat)
    ensures after == queue + [rq] && boundary' == rq.pos + sectors
    ensures
      forall i :: 0 < i < |queue| && Movable(queue[i - 1], queue[i]) ==>
                    (NoLater(boundary', after[i - 1], after[i]) <==> Suits(boundary', queue[i - 1], queue[i]))
    ensures
      var n := |queue|;
      n > 0 && sectors > 0 && queue[n - 1].pos >= boundary' ==> NoLater(boundary', after[n - 1], after[n])
  {
    after, boundary' := queue + [rq], rq.pos + sectors;
    forall i | 0 < i < |queue|
      ensures NoLater(boundary', after[i - 1], after[i]) <==> Suits(boundary', queue[i - 1], queue[i])
    {
      SuitsIffNoLater(boundary', queue[i - 1], queue[i]);
    }
  }
}

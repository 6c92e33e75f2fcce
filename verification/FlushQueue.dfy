/** The flush part of struct request_queue, updated in place, proved against the protocol. */
module FlushQueue {
  import opened Lists
  import P = FlushProtocol
  import opened FlushInvariant
  import opened FlushSteps
  import opened FlushProgress
  import opened FlushRuns

  type RqId = P.RqId

  /** The entry after x, as list_for_each_entry_safe saves it; None at the end of the list. */
  function Successor(list: seq<RqId>, x: RqId): Option<RqId>
    requires x in list
  {
    if list[0] != x then
      assert x in list[1..];
      Successor(list[1..], x)
    else if |list| > 1 then Some(list[1]) else None
  }

  function First(list: seq<RqId>): Option<RqId> {
    if list == [] then None else Some(list[0])
  }

  lemma PushAllUnfold(s: P.State, w: P.Index, error: bool, now: int)
    requires s.queues[w] != [] && forall id :: id in s.queues[w] ==> id in s.rqs
    ensures
      var (s1, q1) := P.PushNext(s, s.queues[w][0], error, now);
      && (|s.queues[w]| == 1 ==> P.PushAll(s, w, error, now) == (s1, q1))
      && (|s.queues[w]| > 1 ==>
            (forall id :: id in s1.queues[w] ==> id in s1.rqs)
            && var (s2, q2) := P.PushAll(s1, w, error, now);
               P.PushAll(s, w, error, now) == (s2, q1 || q2))
  {
    hide P.PushNext, P.Work;
    P.PushShrinks(s, w, error, now);
  }

  lemma PushAllStart(s: P.State, w: P.Index, error: bool, now: int)
    requires forall id :: id in s.queues[w] ==> id in s.rqs
    ensures s.queues[w] == [] ==> P.PushAll(s, w, error, now) == (s, false)
  {
  }

  lemma PushNextIndices(s: P.State, id: RqId, error: bool, now: int)
    requires id in s.rqs
    ensures P.PushNext(s, id, error, now).0.runningIdx == s.runningIdx
  {
    hide P.Advance, P.KickFlush;
    var cur := P.CurSeq(s.rqs[id].fseq);
    var s0 := s.(bug := s.bug || (cur != P.Preflush && cur != P.Postflush));
    AdvanceIndices(s0, id, P.Mask(cur), error, now);
    P.KickLeaves(P.Advance(s0, id, P.Mask(cur), error, now), now);
  }

  /** One turn of the flush_end_io loop: what the saved successor becomes, and what is left. */
  lemma LoopTurn(s: P.State, w: P.Index, error: bool, now: int)
    requires Walking(s, w, error) && s.queues[w] != [] && w == P.Flip(s.runningIdx)
    ensures
      var list := s.queues[w];
      && list[0] in s.rqs && (forall id :: id in list ==> id in s.rqs)
      && var (s1, q1) := P.PushNext(s, list[0], error, now);
      && Walking(s1, w, error) && w == P.Flip(s1.runningIdx)
      && (forall id :: id in s1.queues[w] ==> id in s1.rqs)
      && P.Work(s1.rqs, s1.queues[w]) < P.Work(s.rqs, list)
      && (|list| == 1 ==> P.PushAll(s, w, error, now) == (s1, q1))
      && (|list| > 1 ==>
            && s1.queues[w] != [] && s1.queues[w][0] == list[1]
            && var (s2, q2) := P.PushAll(s1, w, error, now);
               P.PushAll(s, w, error, now) == (s2, q1 || q2))
  {
    hide Inv, RqOk, Answered, SameFor, P.PushNext, P.PushAll, P.Work;
    WalkOn(s, w, error, now);
    P.PushedOn(s, w, error, now);
    P.PushShrinks(s, w, error, now);
    PushAllUnfold(s, w, error, now);
    PushNextIndices(s, s.queues[w][0], error, now);
  }

  /** blk_flush_complete_seq once it has recorded the finished steps. */
  function Noted(s: P.State, id: RqId, steps: P.Steps): P.State
    requires id in s.rqs
  {
    var r := s.rqs[id];
    s.(rqs := s.rqs[id := r.(fseq := r.fseq.Union(steps))], bug := s.bug || r.fseq.Overlaps(steps))
  }

  lemma AdvanceForm(s: P.State, id: RqId, steps: P.Steps, error: bool, now: int)
    requires id in s.rqs
    ensures
      var s1 := Noted(s, id, steps);
      P.Advance(s, id, steps, error, now)
      == match (if error then P.Done else P.CurSeq(s.rqs[id].fseq.Union(steps)))
         case Data => P.QueueData(s1, id)
         case Done => P.EndSequence(s1, id, error)
         case _ => P.QueueForFlush(s1, id, now)
  {
  }

  lemma RestoreAllUnfold(s: P.State)
    requires s.data != [] && forall id :: id in s.data ==> id in s.rqs
    ensures s.data[0] in s.rqs && P.RestoreAll(s) == P.RestoreAll(RestoreOne(s))
  {
    assert s.data[0] in s.data;
  }

  lemma RestoreAllDone(s: P.State)
    requires s.data == []
    ensures P.RestoreAll(s) == s
  {
  }

  lemma GiveAwayUnfold(s: P.State, i: P.Index)
    requires s.queues[i] != [] && forall id :: id in s.queues[i] ==> id in s.rqs
    ensures s.queues[i][0] in s.rqs && P.GiveAway(s, i) == P.GiveAway(GiveOne(s, i), i)
  {
    assert s.queues[i][0] in s.queues[i];
  }

  lemma GiveAwayDone(s: P.State, i: P.Index)
    requires s.queues[i] == []
    ensures P.GiveAway(s, i) == s
  {
  }

  lemma DispatchFrame(s: P.State, id: RqId, size: nat, bio: bool)
    ensures
      var s' := P.Dispatch(s, id, size, bio);
      s'.head == s.head + [P.Req(id)] && s'.pendingIdx == s.pendingIdx && s'.runningIdx == s.runningIdx
  {
  }

  class RequestQueue {
    var rqs: map<RqId, P.Rq>
    var queues: P.Queues
    var pendingIdx: P.Index
    var runningIdx: P.Index
    var data: seq<RqId>
    var head: seq<P.Item>
    var driver: set<P.Item>
    var pendingSince: int
    var delayed: bool
    var bug: bool
    ghost var log: seq<P.Event>
    ghost var born: map<RqId, nat>
    ghost var since: map<RqId, int>
    ghost var queuedAt: map<RqId, int>
    ghost var issuedAt: nat
    ghost var flushes: nat

    ghost function View(): P.State
      reads this
    {
      P.State(rqs, queues, pendingIdx, runningIdx, data, head, driver, pendingSince, delayed, bug,
              log, born, since, queuedAt, issuedAt, flushes)
    }

    constructor ()
      ensures View() == P.INIT
    {
      rqs, queues, pendingIdx, runningIdx, data := map[], [[], []], 0, 0, [];
      head, driver, pendingSince, delayed, bug := [], {}, 0, false, false;
      log, born, since, queuedAt, issuedAt, flushes := [], map[], map[], map[], 0, 0;
    }

    /** blk_kick_flush issues a flush exactly if none is in progress and someone waits for one (C1), and
        no data is under way (C2) or the first waiter has waited too long (C3). Nothing moves but the
        pending index, the dispatch queue and the history. */
    method KickFlush(now: int) returns (issued: bool)
      modifies this`pendingIdx, this`head, this`log, this`issuedAt, this`flushes
      ensures (View(), issued) == P.KickFlush(old(View()), now)
      ensures issued <==>
                && old(pendingIdx) == runningIdx && queues[old(pendingIdx)] != []
                && (data == [] || now >= pendingSince + P.FLUSH_PENDING_TIMEOUT)
      ensures issued ==> pendingIdx != runningIdx && queues[runningIdx] != [] && head == old(head) + [P.FlushRq]
      ensures !issued ==> pendingIdx == old(pendingIdx) && head == old(head)
    {
      if pendingIdx != runningIdx || queues[pendingIdx] == [] {
        return false;
      }
      if data != [] && now < pendingSince + P.FLUSH_PENDING_TIMEOUT {
        return false;
      }
      issuedAt, flushes, log := |log|, flushes + 1, log + [P.FlushIssued(flushes)];
      pendingIdx := P.Flip(pendingIdx);
      head := head + [P.FlushRq];
      return true;
    }

    /** __blk_end_request_all on a request that is, or has become, ordinary. */
    method EndPlain(id: RqId, error: bool)
      requires id in rqs
      modifies this
      ensures View() == P.EndPlain(old(View()), id, error) && head == old(head) && pendingIdx == old(pendingIdx)
    {
      var r := rqs[id];
      var ok := !error && r.uptodate;
      ghost var told := if r.bio then log + [P.Notified(id, ok)] else log;
      var uptodate := if r.bio then ok else r.uptodate;
      bug, rqs, log :=
        bug || P.Req(id) in head,
        rqs[id := r.(bio := false, size := 0, uptodate := uptodate, ended := true)],
        told + [P.Ended(id, !error)];
    }

    method Unlink(id: RqId)
      modifies this`queues, this`data
      ensures View() == P.Unlink(old(View()), id)
    {
      queues, data := [Remove(queues[0], id), Remove(queues[1], id)], Remove(data, id);
    }

    method QueueForFlush(id: RqId, now: int)
      modifies this`queues, this`data, this`pendingSince, this`since, this`queuedAt
      ensures View() == P.QueueForFlush(old(View()), id, now)
    {
      hide P.Unlink;
      var start := if queues[pendingIdx] == [] then now else pendingSince;
      Unlink(id);
      ghost var u := View();
      queues, pendingSince := queues[pendingIdx := queues[pendingIdx] + [id]], start;
      since, queuedAt := since[id := |log| - 1], queuedAt[id := now];
      assert View() == u.(queues := queues, pendingSince := start, since := since, queuedAt := queuedAt);
    }

    method QueueData(id: RqId)
      modifies this`queues, this`data, this`head, this`log
      ensures View() == P.QueueData(old(View()), id) && head == [P.Req(id)] + old(head)
    {
      hide P.Unlink;
      Unlink(id);
      ghost var u := View();
      data, head, log := data + [id], [P.Req(id)] + head, log + [P.DataQueued(id)];
      assert View() == u.(data := data, head := head, log := log);
    }

    method EndSequence(id: RqId, error: bool)
      requires id in rqs
      modifies this
      ensures View() == P.EndSequence(old(View()), id, error) && head == old(head) && pendingIdx == old(pendingIdx)
    {
      hide P.EndPlain;
      bug, queues, data, rqs :=
        bug || P.Req(id) in head,
        [Remove(queues[0], id), Remove(queues[1], id)], Remove(data, id),
        rqs[id := P.Restore(rqs[id])];
      ghost var s := old(View());
      assert View() == P.Unlink(s, id).(rqs := s.rqs[id := P.Restore(s.rqs[id])], bug := s.bug || P.Req(id) in s.head);
      EndPlain(id, error);
    }

    /** blk_flush_complete_seq. */
    method CompleteSeq(id: RqId, steps: P.Steps, error: bool, now: int) returns (queued: bool)
      requires id in rqs
      modifies this
      ensures (View(), queued) == P.CompleteSeq(old(View()), id, steps, error, now)
      ensures
        var data := !error && P.CurSeq(old(rqs)[id].fseq.Union(steps)) == P.Data;
        && head == (if data then [P.Req(id)] else []) + old(head)
                   + (if pendingIdx != old(pendingIdx) then [P.FlushRq] else [])
        && queued == (data || pendingIdx != old(pendingIdx))
    {
      hide P.Advance, P.KickFlush;
      queued := Advance(id, steps, error, now);
      var issued := KickFlush(now);
      queued := issued || queued;
    }

    /** Records the finished steps and triggers the next one. */
    method Advance(id: RqId, steps: P.Steps, error: bool, now: int) returns (queued: bool)
      requires id in rqs
      modifies this
      ensures View() == P.Advance(old(View()), id, steps, error, now)
      ensures queued == (!error && P.CurSeq(old(rqs)[id].fseq.Union(steps)) == P.Data)
      ensures pendingIdx == old(pendingIdx) && head == (if queued then [P.Req(id)] else []) + old(head)
    {
      hide P.QueueForFlush, P.QueueData, P.EndSequence, P.Advance;
      AdvanceForm(View(), id, steps, error, now);
      Record(id, steps);
      queued := false;
      match (if error then P.Done else P.CurSeq(rqs[id].fseq)) {
        case Data =>
          QueueData(id);
          queued := true;
        case Done =>
          EndSequence(id, error);
        case _ =>
          QueueForFlush(id, now);
      }
    }

    /** The finished steps go into the mask of the request. */
    method Record(id: RqId, steps: P.Steps)
      requires id in rqs
      modifies this`rqs, this`bug
      ensures View() == Noted(old(View()), id, steps)
      ensures id in rqs && rqs[id].fseq == old(rqs)[id].fseq.Union(steps)
    {
      var r := rqs[id];
      bug, rqs := bug || r.fseq.Overlaps(steps), rqs[id := r.(fseq := r.fseq.Union(steps))];
    }

    /** flush_end_io, before its loop. */
    method AccountFlush(error: bool)
      modifies this`bug, this`log, this`runningIdx
      ensures View() == FlushAccounted(old(View()), error)
    {
      bug := bug || pendingIdx == runningIdx;
      log := log + [P.FlushDone(if flushes == 0 then 0 else flushes - 1, !error)];
      runningIdx := P.Flip(runningIdx);
    }

    /** The body of the flush_end_io loop. */
    method PushNext(id: RqId, error: bool, now: int) returns (queued: bool)
      requires id in rqs
      modifies this
      ensures (View(), queued) == P.PushNext(old(View()), id, error, now)
    {
      hide P.CompleteSeq;
      var cur := P.CurSeq(rqs[id].fseq);
      bug := bug || (cur != P.Preflush && cur != P.Postflush);
      assert View() == old(View()).(bug := bug);
      queued := CompleteSeq(id, P.Mask(cur), error, now);
    }

    /** flush_end_io, after its loop: run the queue if it grew or was held. */
    method RunIfNeeded(queued: bool)
      modifies this`log, this`delayed
      ensures View() == LoopDone(old(View()), queued)
    {
      if queued || delayed {
        log := log + [P.RunQueue];
      }
      delayed := false;
    }

    /** flush_end_io, called when the driver completes the flush it holds. The loop walks the
        live list with a saved successor, as list_for_each_entry_safe does. */
    method FlushEndIo(error: bool, now: int)
      requires Inv(View()) && P.FlushRq in driver
      requires forall id :: id in queues[runningIdx] ==> id in rqs
      modifies this
      ensures View() == P.FlushEndIo(FlushBack(old(View())), error, now)
    {
      hide Inv, Walking, FlushAccounted, LoopDone;
      hide P.PushNext, P.PushAll, P.FlushEndIo, P.Work;
      WalkStarts(View(), error);
      driver := driver - {P.FlushRq};
      ghost var s0 := View();
      assert s0 == FlushBack(old(View()));
      FlushEndIoForm(s0, error, now);
      var w := runningIdx;
      AccountFlush(error);
      ghost var s1 := View();
      assert s1.queues == queues && s1.runningIdx == runningIdx && s1.rqs == rqs;

      var queued := false;
      var cur := First(queues[w]);
      Known(s1, w, error);
      ghost var all := P.PushAll(s1, w, error, now);
      PushAllStart(s1, w, error, now);
      while cur.Some?
        invariant Walking(View(), w, error) && w == P.Flip(runningIdx)
        invariant forall id :: id in View().queues[w] ==> id in View().rqs
        invariant cur.Some? ==>
                    && cur == First(queues[w])
                    && var more := P.PushAll(View(), w, error, now);
                       all == (more.0, queued || more.1)
        invariant cur.None? ==> all == (View(), queued)
        decreases cur.Some?, if cur.Some? then P.Work(View().rqs, View().queues[w]) else 0
      {
        LoopTurn(View(), w, error, now);
        var rq := cur.value;
        var n := Successor(queues[w], rq);
        var q := PushNext(rq, error, now);
        queued := queued || q;
        cur := n;
      }
      RunIfNeeded(queued);
    }

    /** The driver completes a request: blk_update_request, then flush_data_end_io for a
        sequenced request. */
    method EndRequest(id: RqId, error: bool, now: int)
      requires id in rqs
      modifies this
      ensures View() == P.EndRequest(old(View()), id, error, now)
    {
      hide P.EndPlain, P.CompleteSeq, P.EndRequest;
      var r := rqs[id];
      if r.sequenced && r.bio {
        r := r.(bio := false, size := 0, uptodate := r.uptodate && !error);
      }
      driver, log, rqs := driver - {P.Req(id)}, log + [P.DataDone(id, !error)], rqs[id := r];
      assert View() == DataReturned(old(View()), id, error);
      if !r.sequenced {
        EndOrdinaryForm(old(View()), id, error, now);
        EndPlain(id, error);
      } else {
        EndSequencedForm(old(View()), id, error, now);
        var queued := CompleteSeq(id, P.Mask(P.Data), error, now);
        ghost var s1 := View();
        if queued {
          log := log + [P.RunQueue];
        }
        assert View() == if queued then P.Log(s1, P.RunQueue) else s1;
      }
    }

    /** blk_insert_flush. */
    method InsertFlush(id: RqId, devFlush: bool, devFua: bool, flush: bool, fua: bool,
                       size: nat, bio: bool, now: int)
      requires id !in rqs
      modifies this
      ensures View() == P.InsertFlush(old(View()), id, devFlush, devFua, flush, fua, size, bio, now)
    {
      hide P.EndPlain, P.CompleteSeq, P.Policy, P.InsertFlush;
      InsertFlushForm(View(), id, devFlush, devFua, flush, fua, size, bio, now);
      var policy := P.Policy(devFlush, devFua, flush, fua, size > 0);
      var r := P.Rq(policy, P.Steps(false, false, false), false, fua && devFua, bio, bio, size, true, false);
      if policy.IsEmpty() {
        Arrive(id, r);
        EndPlain(id, false);
      } else if policy.data && !policy.pre && !policy.post {
        Arrive(id, r);
        ghost var s1 := View();
        head := head + [P.Req(id)];
        assert View() == s1.(head := s1.head + [P.Req(id)]);
      } else {
        Arrive(id, r.(sequenced := true));
        var queued := CompleteSeq(id, policy.Complement(), false, now);
      }
    }

    /** A new request enters the queue's books. */
    method Arrive(id: RqId, r: P.Rq)
      modifies this`rqs, this`born, this`log
      ensures View() == Arrived(old(View()), id, r)
    {
      rqs := rqs[id := r];
      born := born[id := |log|];
      log := log + [P.Inserted(id, r.policy, r.biotail)];
    }

    /** blk_abort_flushes. */
    method AbortFlushes()
      requires forall id :: id in data || id in queues[0] || id in queues[1] ==> id in rqs
      modifies this
      ensures View() == P.GiveAway(P.GiveAway(P.RestoreAll(old(View())), 0), 1)
      ensures data == [] && queues == [[], []] && head == old(head) + Items(old(queues)[0]) + Items(old(queues)[1])
      ensures MadeOrdinary(old(rqs), rqs, old(data) + old(queues)[0] + old(queues)[1])
    {
      hide P.RestoreAll, P.GiveAway, RestoreOne;
      AbortFlushesGive(View());
      while data != []
        invariant forall id :: id in data || id in queues[0] || id in queues[1] ==> id in rqs
        invariant P.RestoreAll(View()) == P.RestoreAll(old(View()))
        decreases |data|
      {
        RestoreAllUnfold(View());
        RestoreHead();
      }
      RestoreAllDone(View());
      GiveAwayList(0);
      GiveAwayList(1);
    }

    method RestoreHead()
      requires data != [] && data[0] in rqs
      modifies this`rqs, this`data, this`log
      ensures View() == RestoreOne(old(View())) && rqs.Keys == old(rqs).Keys && data == old(data)[1..]
    {
      var id := data[0];
      rqs, data, log := rqs[id := P.Restore(rqs[id])], data[1..], log + [P.Restored(id)];
    }

    method GiveAwayList(i: P.Index)
      requires forall id :: id in queues[0] || id in queues[1] ==> id in rqs
      modifies this
      ensures View() == P.GiveAway(old(View()), i)
      ensures forall id :: id in queues[0] || id in queues[1] ==> id in rqs
    {
      hide P.GiveAway, P.Restore;
      while queues[i] != []
        invariant forall id :: id in queues[0] || id in queues[1] ==> id in rqs
        invariant P.GiveAway(View(), i) == P.GiveAway(old(View()), i)
        decreases |queues[i]|
      {
        assert queues[i][0] in queues[i];
        GiveAwayUnfold(View(), i);
        GiveAwayHead(i);
      }
      GiveAwayDone(View(), i);
    }

    method GiveAwayHead(i: P.Index)
      requires queues[i] != [] && queues[i][0] in rqs
      modifies this`rqs, this`queues, this`head, this`log
      ensures View() == GiveOne(old(View()), i)
    {
      var id := queues[i][0];
      rqs, queues := rqs[id := P.Restore(rqs[id])], queues[i := queues[i][1..]];
      head, log := head + [P.Req(id)], log + [P.Restored(id)];
    }

    /** __elv_next_request. `feed` is what the elevator dispatches when it is asked. */
    method NextRequest(queueable: bool, feed: P.Feed) returns (next: Option<P.Item>)
      modifies this
      ensures (View(), next) == P.NextRequest(old(View()), queueable, feed)
      ensures
        var held := old(head) == [] && pendingIdx != runningIdx && !queueable;
        && delayed == (old(delayed) || held)
        && next == (if old(head) != [] then Some(old(head)[0]) else if held || feed.Nothing? then None
                    else Some(P.Req(feed.id)))
    {
      hide P.Dispatch;
      var left := feed;
      while true
        invariant pendingIdx == old(pendingIdx) && runningIdx == old(runningIdx) && delayed == old(delayed)
        invariant left == feed ==> View() == old(View())
        invariant left != feed ==>
                    && old(head) == [] && (old(pendingIdx) != old(runningIdx) ==> queueable)
                    && feed.Ordinary? && left == P.Nothing
                    && View() == P.Dispatch(old(View()), feed.id, feed.size, feed.bio) && head == [P.Req(feed.id)]
        decreases left.Ordinary?
      {
        if head != [] {
          return Some(head[0]);
        }
        if pendingIdx != runningIdx && !queueable {
          delayed := true;
          return None;
        }
        match left {
          case Nothing =>
            return None;
          case Ordinary(id, size, bio) =>
            DispatchFrame(View(), id, size, bio);
            Dispatch(id, size, bio);
            assert View().head == head;
            left := P.Nothing;
        }
      }
    }

    /** The elevator moves an ordinary request to the tail of the dispatch queue. */
    method Dispatch(id: RqId, size: nat, bio: bool)
      modifies this`rqs, this`born, this`head, this`log
      ensures View() == P.Dispatch(old(View()), id, size, bio)
    {
      var policy := P.Steps(false, true, false);
      rqs := rqs[id := P.Rq(policy, P.Steps(false, false, false), false, false, bio, bio, size, true, false)];
      born := born[id := |log|];
      head := head + [P.Req(id)];
      log := log + [P.Inserted(id, policy, bio)];
    }
  }
}

/** Every lock-held section of the sequencer keeps the invariant. */
module FlushSteps {
  import opened Lists
  import opened FlushProtocol
  import opened FlushInvariant

  lemma SameForChain(a: State, b: State, c: State, x: RqId)
    requires SameFor(a, b, x) && SameFor(b, c, x)
    ensures SameFor(a, c, x)
  {
  }

  // ------------------------------------------------------------------
  // blk_flush_complete_seq

  /** The request after blk_flush_complete_seq has recorded the finished steps. */
  function Recorded(s: State, id: RqId, steps: Steps): State
    requires id in s.rqs
  {
    s.(rqs := s.rqs[id := s.rqs[id].(fseq := s.rqs[id].fseq.Union(steps))])
  }

  /** The caller's side of blk_flush_complete_seq, for the request itself. */
  ghost predicate Ready(s: State, id: RqId, steps: Steps, error: bool) {
    && InHand(s, id) && !s.rqs[id].fseq.Overlaps(steps)
    && var s1 := Recorded(s, id, steps);
    && InHand(s1, id)
    && match (if error then Done else CurSeq(s1.rqs[id].fseq))
       case Data => MustWrite(s1, id)
       case Done => MustEnd(s1, id, error)
       case _ => MustWait(s1, id)
  }

  ghost predicate MayComplete(s: State, id: RqId, steps: Steps, error: bool) {
    InvBut(s, id) && Ready(s, id, steps, error)
  }

  lemma RecordedOthers(s: State, id: RqId, steps: Steps, x: RqId)
    requires id in s.rqs && x != id
    ensures SameFor(s, Recorded(s, id, steps), x)
  {
  }

  lemma RecordedBut(s: State, id: RqId, steps: Steps)
    requires InvBut(s, id) && id in s.rqs
    ensures InvBut(Recorded(s, id, steps), id)
  {
    var s1 := Recorded(s, id, steps);
    forall x | x in s1.rqs && x != id ensures RqOk(s1, x) {
      assert SameFor(s, s1, x);
      RqFrame(s, s1, x);
    }
  }

  lemma AdvanceKeeps(s: State, id: RqId, steps: Steps, error: bool, now: int)
    requires MayComplete(s, id, steps, error)
    ensures Inv(Advance(s, id, steps, error, now))
  {
    var s1 := Recorded(s, id, steps);
    RecordedBut(s, id, steps);
    match (if error then Done else CurSeq(s1.rqs[id].fseq)) {
      case Data =>
        QueueDataKeeps(s1, id);
        assert Advance(s, id, steps, error, now) == QueueData(s1, id);
      case Done =>
        EndSequenceKeeps(s1, id, error);
        assert Advance(s, id, steps, error, now) == EndSequence(s1, id, error);
      case _ =>
        QueueForFlushKeeps(s1, id, now);
        assert Advance(s, id, steps, error, now) == QueueForFlush(s1, id, now);
    }
  }

  lemma EndSequenceOthers(s: State, id: RqId, error: bool, x: RqId)
    requires id in s.rqs && x != id
    ensures SameFor(s, EndSequence(s, id, error), x)
  {
    hide EndPlain;
    var u := Unlink(s, id);
    var s1 := u.(rqs := s.rqs[id := Restore(s.rqs[id])], bug := s.bug || Req(id) in s.head);
    assert SameFor(s, s1, x);
    EndPlainOthers(s1, id, error, x);
    SameForChain(s, s1, EndPlain(s1, id, error), x);
  }

  lemma AdvanceOthers(s: State, id: RqId, steps: Steps, error: bool, now: int, x: RqId)
    requires Ready(s, id, steps, error) && AllHonest(s.log) && !s.bug && x != id
    ensures SameFor(s, Advance(s, id, steps, error, now), x)
  {
    hide SameFor;
    var s1 := Recorded(s, id, steps);
    var s2 := Advance(s, id, steps, error, now);
    RecordedOthers(s, id, steps, x);
    match (if error then Done else CurSeq(s1.rqs[id].fseq)) {
      case Data =>
        QueueDataOthers(s1, id, x);
        assert s2 == QueueData(s1, id);
      case Done =>
        EndSequenceOthers(s1, id, error, x);
        assert s2 == EndSequence(s1, id, error);
      case _ =>
        QueueForFlushOthers(s1, id, now, x);
        assert s2 == QueueForFlush(s1, id, now);
    }
    SameForChain(s, s1, s2, x);
  }

  lemma CompleteSeqKeeps(s: State, id: RqId, steps: Steps, error: bool, now: int)
    requires MayComplete(s, id, steps, error)
    ensures Inv(CompleteSeq(s, id, steps, error, now).0)
  {
    AdvanceKeeps(s, id, steps, error, now);
    KickFlushKeeps(Advance(s, id, steps, error, now), now);
  }

  lemma CompleteSeqOthers(s: State, id: RqId, steps: Steps, error: bool, now: int, x: RqId)
    requires MayComplete(s, id, steps, error) && x != id
    ensures SameFor(s, CompleteSeq(s, id, steps, error, now).0, x)
  {
    var s1 := Advance(s, id, steps, error, now);
    AdvanceKeeps(s, id, steps, error, now);
    AdvanceOthers(s, id, steps, error, now, x);
    KickFlushOthers(s1, now, x);
    SameForChain(s, s1, KickFlush(s1, now).0, x);
  }

  // ------------------------------------------------------------------
  // flush_end_io

  /** A request whose flush has just completed, or one without data that was put back on the list
      being walked after its first flush: it has been flushed since its insertion. */
  ghost predicate Answered(s: State, id: RqId, error: bool) {
    && id in s.rqs && OnQueue(s, id)
    && (error ==> id in s.since && FailedFlush(s.log, s.since[id]))
    && (!error ==>
          || (id in s.since && FlushedSince(s.log, s.since[id]))
          || (&& CurSeq(s.rqs[id].fseq) == Postflush && !s.rqs[id].policy.data
              && id in s.born && FlushedSince(s.log, s.born[id])))
  }

  lemma AnsweredEarly(s: State, id: RqId)
    requires id in s.rqs && RqOk(s, id) && Answered(s, id, false) && Early(s.rqs[id].policy, CurSeq(s.rqs[id].fseq))
    ensures FlushedSince(s.log, s.born[id])
  {
    hide PhaseOf, FlushedSince;
    if id in s.since && FlushedSince(s.log, s.since[id]) {
      FlushedSinceEarlier(s.log, s.born[id], s.since[id]);
    }
  }

  lemma FailedFlushEarlier(h: seq<Event>, a: int, b: int)
    requires a <= b && FailedFlush(h, b)
    ensures FailedFlush(h, a)
  {
    var j, l :| 0 <= j < l < |h| && b < j && h[j].FlushIssued? && h[l] == FlushDone(h[j].flush, false);
    assert a < j;
  }

  /** A flush that failed leaves the request with something to report. */
  lemma AnsweredBadly(s: State, id: RqId)
    requires id in s.rqs && RqOk(s, id) && Answered(s, id, true)
    ensures Failed(s.log, id)
  {
    hide PhaseOf, FailedFlush;
    if Early(s.rqs[id].policy, CurSeq(s.rqs[id].fseq)) {
      FailedFlushEarlier(s.log, s.born[id], s.since[id]);
      assert PreflushFailed(s.log, id);
    } else {
      assert PostflushFailed(s.log, id);
    }
  }

  lemma PushNextReady(s: State, id: RqId, error: bool)
    requires id in s.rqs && RqOk(s, id) && Answered(s, id, error) && LastFlushOk(s.log) == !error
    ensures Ready(s, id, Mask(CurSeq(s.rqs[id].fseq)), error)
    ensures CurSeq(s.rqs[id].fseq) == Preflush || CurSeq(s.rqs[id].fseq) == Postflush
  {
    hide PhaseOf, FlushedSince, Failed;
    if error {
      AnsweredBadly(s, id);
    } else if Early(s.rqs[id].policy, CurSeq(s.rqs[id].fseq)) {
      AnsweredEarly(s, id);
    }
  }

  lemma PushNextKeeps(s: State, id: RqId, error: bool, now: int)
    requires Inv(s) && Answered(s, id, error) && LastFlushOk(s.log) == !error
    ensures Inv(PushNext(s, id, error, now).0)
    ensures forall x :: x != id ==> SameFor(s, PushNext(s, id, error, now).0, x)
  {
    PushNextReady(s, id, error);
    var m := Mask(CurSeq(s.rqs[id].fseq));
    assert s.(bug := false) == s;
    CompleteSeqKeeps(s, id, m, error, now);
    forall x | x != id ensures SameFor(s, PushNext(s, id, error, now).0, x) {
      CompleteSeqOthers(s, id, m, error, now, x);
    }
  }

  /** What a later step leaves of an answered request. */
  lemma AnsweredFrame(s: State, s': State, id: RqId, error: bool)
    requires Answered(s, id, error) && SameFor(s, s', id)
    ensures Answered(s', id, error)
  {
    if error {
      var j, l :| 0 <= j < l < |s.log| && s.since[id] < j && s.log[j].FlushIssued?
                  && s.log[l] == FlushDone(s.log[j].flush, false);
      assert s'.log[j] == s.log[j] && s'.log[l] == s.log[l];
    } else if id in s.since && FlushedSince(s.log, s.since[id]) {
      FlushedSinceGrows(s.log, s'.log, s.since[id]);
    } else {
      FlushedSinceGrows(s.log, s'.log, s.born[id]);
    }
  }

  /** A pushed request that waits again has no data and wants a second flush. */
  lemma AdvanceAgain(s: State, id: RqId, steps: Steps, error: bool, now: int)
    requires id in s.rqs
    ensures
      var s', fseq' := Advance(s, id, steps, error, now), s.rqs[id].fseq.Union(steps);
      && s'.born == s.born
      && (!error && (CurSeq(fseq') == Preflush || CurSeq(fseq') == Postflush) ==>
            s'.rqs[id] == s.rqs[id].(fseq := fseq'))
      && (error || CurSeq(fseq') == Data || CurSeq(fseq') == Done ==>
            s'.queues == Unlink(s, id).queues)
  {
    hide EndSequence, Unlink;
    var rq := s.rqs[id];
    var fseq' := rq.fseq.Union(steps);
    var s1 := s.(rqs := s.rqs[id := rq.(fseq := fseq')], bug := s.bug || rq.fseq.Overlaps(steps));
    EndSequenceFrame(s1, id, error);
    EndSequenceBorn(s1, id, error);
    UnlinkSame(s, s1, id);
  }

  lemma UnlinkSame(s: State, s1: State, id: RqId)
    requires s1.queues == s.queues
    ensures Unlink(s1, id).queues == Unlink(s, id).queues
    ensures Unlink(s1, id).born == s1.born && Unlink(s1, id).rqs == s1.rqs
  {
  }

  lemma EndSequenceBorn(s: State, id: RqId, error: bool)
    requires id in s.rqs
    ensures EndSequence(s, id, error).born == s.born
  {
  }

  lemma PushNextAgain(s: State, id: RqId, error: bool, now: int)
    requires id in s.rqs && Fits(s.rqs[id]) && !OnQueue(Unlink(s, id), id)
    requires CurSeq(s.rqs[id].fseq) == Preflush || CurSeq(s.rqs[id].fseq) == Postflush
    ensures
      var s' := PushNext(s, id, error, now).0;
      && s'.born == s.born
      && (OnQueue(s', id) ==>
            && !error && CurSeq(s.rqs[id].fseq) == Preflush
            && CurSeq(s'.rqs[id].fseq) == Postflush && !s'.rqs[id].policy.data)
  {
    hide KickFlush, Advance, Unlink;
    var cur := CurSeq(s.rqs[id].fseq);
    var s0 := s.(bug := s.bug || (cur != Preflush && cur != Postflush));
    var a := Advance(s0, id, Mask(cur), error, now);
    AdvanceAgain(s0, id, Mask(cur), error, now);
    UnlinkSame(s, s0, id);
    KickLeaves(a, now);
    KickRemembers(a, now);
  }

  lemma PushedAgain(s: State, id: RqId, error: bool, now: int)
    requires Inv(s) && Answered(s, id, error) && LastFlushOk(s.log) == !error
    ensures
      var s' := PushNext(s, id, error, now).0;
      Inv(s') && (OnQueue(s', id) ==> Answered(s', id, error))
  {
    hide Inv, PushNext, FlushedSince, PhaseOf;
    PushNextKeeps(s, id, error, now);
    Waiter(s, id);
    PushNextAgain(s, id, error, now);
    var s' := PushNext(s, id, error, now).0;
    if OnQueue(s', id) && !error {
      assert SameFor(s, s', id + 1);
      AnsweredEarly(s, id);
      FlushedSinceGrows(s.log, s'.log, s.born[id]);
    }
  }

  lemma KickRemembers(s: State, now: int)
    ensures KickFlush(s, now).0.born == s.born
  {
  }

  /** A request on a flush list is on one list only. */
  lemma Waiter(s: State, id: RqId)
    requires Inv(s) && id in s.rqs && OnQueue(s, id)
    ensures RqOk(s, id) && !OnQueue(Unlink(s, id), id)
  {
    RemoveNoDup(s.queues[0], id);
    RemoveNoDup(s.queues[1], id);
  }

  /** Where the flush_end_io loop stands: the requests on list w are still to be pushed on. */
  ghost predicate Walking(s: State, w: Index, error: bool) {
    && Inv(s) && LastFlushOk(s.log) == !error
    && (forall id :: id in s.queues[w] ==> id in s.rqs)
    && (forall id :: id in s.queues[w] ==> Answered(s, id, error))
  }

  lemma WalkOn(s: State, w: Index, error: bool, now: int)
    requires Walking(s, w, error) && s.queues[w] != []
    ensures
      var id := s.queues[w][0];
      && id in s.rqs && RqOk(s, id) && Answered(s, id, error)
      && var s1 := PushNext(s, id, error, now).0;
      && Walking(s1, w, error)
      && (forall x :: x != id ==> SameFor(s, s1, x))
      && (forall x :: x in s1.queues[w] ==> x in s.queues[w])
      && s.log <= s1.log
  {
    hide PushNext, RqOk, SameFor;
    var first := s.queues[w][0];
    assert first in s.queues[w] && Answered(s, first, error);
    var s1 := PushNext(s, first, error, now).0;
    PushNextKeeps(s, first, error, now);
    PushedAgain(s, first, error, now);
    PushShrinks(s, w, error, now);
    PushNextFlushes(s, first, error, now);
    Waiter(s, first);
    SameLog(s, s1, first + 1);
    forall id | id in s1.queues[w] ensures Answered(s1, id, error) && id in s1.rqs {
      assert id in s.queues[w] && Answered(s, id, error);
      if id == first {
        assert OnQueue(s1, id);
      } else {
        assert SameFor(s, s1, id);
        AnsweredFrame(s, s1, id, error);
      }
    }
  }

  /** Nothing but the completion of a flush counts as one. */
  lemma LastFlushSnoc(log: seq<Event>, e: Event)
    ensures LastFlushOk(log + [e]) == if e.FlushDone? then e.ok else LastFlushOk(log)
  {
    assert (log + [e])[..|log|] == log;
  }

  lemma EndPlainFlushes(s: State, id: RqId, error: bool)
    requires id in s.rqs
    ensures LastFlushOk(EndPlain(s, id, error).log) == LastFlushOk(s.log)
  {
    hide LastFlushOk;
    var n := Notified(id, !error && s.rqs[id].uptodate);
    LastFlushSnoc(s.log, n);
    LastFlushSnoc(if s.rqs[id].bio then s.log + [n] else s.log, Ended(id, !error));
  }

  lemma AdvanceFlushes(s: State, id: RqId, steps: Steps, error: bool, now: int)
    requires id in s.rqs
    ensures LastFlushOk(Advance(s, id, steps, error, now).log) == LastFlushOk(s.log)
  {
    hide LastFlushOk, EndPlain;
    var rq := s.rqs[id];
    var fseq' := rq.fseq.Union(steps);
    var s1 := s.(rqs := s.rqs[id := rq.(fseq := fseq')], bug := s.bug || rq.fseq.Overlaps(steps));
    match (if error then Done else CurSeq(fseq')) {
      case Data =>
        LastFlushSnoc(s.log, DataQueued(id));
      case Done =>
        var u := Unlink(s1, id);
        EndPlainFlushes(u.(rqs := s1.rqs[id := Restore(s1.rqs[id])], bug := s1.bug || Req(id) in s1.head), id, error);
      case _ =>
    }
  }

  lemma PushNextFlushes(s: State, id: RqId, error: bool, now: int)
    requires id in s.rqs
    ensures LastFlushOk(PushNext(s, id, error, now).0.log) == LastFlushOk(s.log)
  {
    hide LastFlushOk, Advance;
    var cur := CurSeq(s.rqs[id].fseq);
    var s0 := s.(bug := s.bug || (cur != Preflush && cur != Postflush));
    AdvanceFlushes(s0, id, Mask(cur), error, now);
    var a := Advance(s0, id, Mask(cur), error, now);
    LastFlushSnoc(a.log, FlushIssued(a.flushes));
  }

  lemma SameLog(s: State, s': State, x: RqId)
    requires SameFor(s, s', x)
    ensures s.log <= s'.log
  {
  }

  /** The loop of flush_end_io keeps the invariant at every iteration, also when one of them
      issues the next flush and so turns the list being walked into the pending one. */
  lemma {:induction false} PushAllKeeps(s: State, w: Index, error: bool, now: int)
    requires Walking(s, w, error)
    ensures Inv(PushAll(s, w, error, now).0)
    ensures forall x :: x !in s.queues[w] ==> SameFor(s, PushAll(s, w, error, now).0, x)
    ensures s.log <= PushAll(s, w, error, now).0.log
    decreases Work(s.rqs, s.queues[w])
  {
    hide Inv, RqOk, Answered, SameFor, PushNext, Work;
    SameForSelf(s);
    if s.queues[w] != [] {
      var s1 := PushNext(s, s.queues[w][0], error, now).0;
      var s' := PushAll(s, w, error, now).0;
      WalkOn(s, w, error, now);
      PushShrinks(s, w, error, now);
      if |s.queues[w]| > 1 {
        PushAllKeeps(s1, w, error, now);
        assert s' == PushAll(s1, w, error, now).0;
        forall x | x !in s.queues[w] ensures SameFor(s, s', x) {
          SameForChain(s, s1, s', x);
        }
      }
    }
  }

  lemma SameForSelf(s: State)
    ensures forall x :: SameFor(s, s, x)
  {
  }

  /** flush_end_io before its loop: the flush is accounted as completed. */
  function FlushAccounted(s: State, error: bool): State {
    Log(s.(runningIdx := Flip(s.runningIdx), bug := s.bug || !InFlight(s)),
        FlushDone(if s.flushes == 0 then 0 else s.flushes - 1, !error))
  }

  /** The driver holds the flush, or it has just been taken from the dispatch queue. */
  ghost predicate FlushReturns(s: State, s0: State) {
    && Inv(s) && InFlight(s)
    && FlushRq !in s0.head && FlushRq !in s0.driver
    && s0 == s.(head := s0.head, driver := s0.driver)
    && NoDup(s0.head)
    && forall id :: (Req(id) in s.head <==> Req(id) in s0.head) && (Req(id) in s.driver <==> Req(id) in s0.driver)
  }

  lemma FlushAccountedLog(s: State, error: bool, x: RqId)
    requires AllHonest(s.log)
    ensures AllHonest(FlushAccounted(s, error).log)
    ensures PhaseOf(FlushAccounted(s, error).log, x) == PhaseOf(s.log, x)
    ensures s.log <= FlushAccounted(s, error).log
  {
    var e := FlushDone(if s.flushes == 0 then 0 else s.flushes - 1, !error);
    HonestSnoc(s.log, e);
    PhaseSnoc(s.log, e, x);
  }

  lemma FlushAccountedKeeps(s: State, s0: State, error: bool)
    requires FlushReturns(s, s0)
    ensures Inv(FlushAccounted(s0, error)) && LastFlushOk(FlushAccounted(s0, error).log) == !error
    ensures forall x :: SameFor(s, FlushAccounted(s0, error), x)
  {
    var s1 := FlushAccounted(s0, error);
    forall x ensures SameFor(s, s1, x) {
      FlushAccountedLog(s0, error, x);
    }
    FlushAccountedLog(s0, error, 0);
    assert FlushOk(s1) by {
      assert s1.log[..|s.log|] == s.log;
    }
    AssembleAll(s, s1);
  }

  lemma WaitersAnswered(s: State, s0: State, error: bool)
    requires FlushReturns(s, s0)
    ensures forall id :: id in s.queues[s.runningIdx] ==> Answered(FlushAccounted(s0, error), id, error)
  {
    hide AllHonest, InPhase, PhaseOf, FlightOf, Fits;
    var s1 := FlushAccounted(s0, error);
    forall id | id in s.queues[s.runningIdx] ensures Answered(s1, id, error) {
      assert OnQueue(s, id) && id in s.rqs && RqOk(s, id);
      var j, l := s.issuedAt, |s.log|;
      assert s1.log[j] == FlushIssued(s.flushes - 1);
      assert s1.log[l] == FlushDone(s.flushes - 1, !error);
    }
  }

  lemma RerunKeeps(s: State)
    requires Inv(s)
    ensures Inv(Log(s, RunQueue))
    ensures forall x :: SameFor(s, Log(s, RunQueue), x)
  {
    var s' := Log(s, RunQueue);
    HonestSnoc(s.log, RunQueue);
    FlightSnoc(s.log, RunQueue);
    forall x ensures SameFor(s, s', x) {
      PhaseSnoc(s.log, RunQueue, x);
    }
    AssembleAll(s, s');
  }

  lemma DelayedKeeps(s: State, delayed: bool)
    requires Inv(s)
    ensures Inv(s.(delayed := delayed))
  {
    AssembleAll(s, s.(delayed := delayed));
  }

  /** flush_end_io after its loop. */
  function LoopDone(s: State, queued: bool): State {
    (if queued || s.delayed then Log(s, RunQueue) else s).(delayed := false)
  }

  lemma FlushEndIoForm(s: State, error: bool, now: int)
    requires forall id :: id in s.queues[s.runningIdx] ==> id in s.rqs
    ensures
      var (s1, queued) := PushAll(FlushAccounted(s, error), s.runningIdx, error, now);
      FlushEndIo(s, error, now) == LoopDone(s1, queued)
  {
  }

  lemma LoopDoneKeeps(s: State, queued: bool)
    requires Inv(s)
    ensures Inv(LoopDone(s, queued))
    ensures forall x :: SameFor(s, LoopDone(s, queued), x)
    ensures s.log <= LoopDone(s, queued).log
  {
    if queued || s.delayed {
      RerunKeeps(s);
      DelayedKeeps(Log(s, RunQueue), false);
      forall x ensures SameFor(s, LoopDone(s, queued), x) {
        assert SameFor(s, Log(s, RunQueue), x);
      }
    } else {
      DelayedKeeps(s, false);
    }
  }

  lemma FlushEndIoKeeps(s: State, s0: State, error: bool, now: int)
    requires FlushReturns(s, s0)
    requires forall id :: id in s0.queues[s0.runningIdx] ==> id in s0.rqs
    ensures Inv(FlushEndIo(s0, error, now))
    ensures forall x :: x !in s.queues[s.runningIdx] ==> SameFor(s, FlushEndIo(s0, error, now), x)
    ensures s.log <= FlushEndIo(s0, error, now).log
  {
    var walk := s.queues[s.runningIdx];
    var s1 := FlushAccounted(s0, error);
    assert NoDup(walk);
    FlushAccountedKeeps(s, s0, error);
    WaitersAnswered(s, s0, error);
    PushAllKeeps(s1, s.runningIdx, error, now);
    var (s2, queued) := PushAll(s1, s.runningIdx, error, now);
    LoopDoneKeeps(s2, queued);
    var s3 := LoopDone(s2, queued);
    FlushEndIoForm(s0, error, now);
    assert SameFor(s, s1, 0);
    forall x | x !in walk ensures SameFor(s, s3, x) {
      SameForChain(s, s1, s2, x);
      SameForChain(s, s2, s3, x);
    }
  }

  // ------------------------------------------------------------------
  // Completions by the driver

  /** What the driver hands back for a request: the data is done, the request is in no queue. */
  function DataReturned(s: State, id: RqId, error: bool): State
    requires id in s.rqs
  {
    var r := s.rqs[id];
    var r' := if !r.sequenced || !r.bio then r else r.(bio := false, size := 0, uptodate := r.uptodate && !error);
    Log(s.(driver := s.driver - {Req(id)}, rqs := s.rqs[id := r']), DataDone(id, !error))
  }

  lemma DataReturnedLog(s: State, id: RqId, error: bool, x: RqId)
    requires id in s.rqs && AllHonest(s.log) && Preflushed(s.log, id)
    ensures AllHonest(DataReturned(s, id, error).log)
    ensures FlightOf(DataReturned(s, id, error).log) == FlightOf(s.log)
    ensures PhaseOf(DataReturned(s, id, error).log, x)
         == if x == id then NextPhase(PhaseOf(s.log, id), DataDone(id, !error)) else PhaseOf(s.log, x)
    ensures s.log <= DataReturned(s, id, error).log
  {
    var e := DataDone(id, !error);
    assert (s.log + [e])[..|s.log|] == s.log;
    HonestSnoc(s.log, e);
    FlightSnoc(s.log, e);
    PhaseSnoc(s.log, e, x);
  }

  /** What the driver holds has had its preflush. */
  lemma HeldPreflushed(s: State, id: RqId)
    requires id in s.rqs && RqOk(s, id) && Req(id) in s.driver
    ensures Preflushed(s.log, id)
  {
    InsertedOnce(s.log, id, s.born[id]);
  }

  lemma DataReturnedSame(s: State, id: RqId, error: bool, x: RqId)
    requires AllHonest(s.log) && id in s.rqs && Preflushed(s.log, id) && x != id
    ensures SameFor(s, DataReturned(s, id, error), x)
  {
    hide PhaseOf, Honest;
    DataReturnedLog(s, id, error, x);
  }

  lemma DataReturnedBut(s: State, id: RqId, error: bool)
    requires Inv(s) && id in s.rqs && Req(id) in s.driver
    ensures InvBut(DataReturned(s, id, error), id)
    ensures forall x :: x != id ==> SameFor(s, DataReturned(s, id, error), x)
  {
    hide PhaseOf, FlightOf, Honest, RqOk;
    var s' := DataReturned(s, id, error);
    assert RqOk(s, id);
    HeldPreflushed(s, id);
    DataReturnedLog(s, id, error, id);
    forall x | x != id ensures SameFor(s, s', x) {
      DataReturnedSame(s, id, error, x);
    }
    assert ListsOk(s') by {
      forall x | x !in s'.rqs ensures PhaseOf(s'.log, x) == Unborn {
        assert SameFor(s, s', x);
      }
    }
    forall x | x in s'.rqs && x != id ensures RqOk(s', x) {
      assert SameFor(s, s', x);
      RqFrame(s, s', x);
    }
  }

  lemma DataReturnedInHand(s: State, id: RqId, error: bool)
    requires id in s.rqs && RqOk(s, id) && Req(id) in s.driver && s.rqs[id].sequenced
    ensures
      var s' := DataReturned(s, id, error);
      var r := s.rqs[id];
      && InHand(s', id) && InHand(Recorded(s', id, Mask(Data)), id)
      && Fits(r) && CurSeq(r.fseq) == Data && r.bio == r.biotail
      && PhaseOf(s'.log, id) == After(Kind(r.policy, r.biotail, r.uptodate && !error), !error, false)
      && s'.log[|s'.log| - 1] == DataDone(id, !error)
      && (FlushFirst(r.policy) ==> FlushedSince(s'.log, s'.born[id]))
  {
    hide FlushedSince, PhaseOf;
    var s' := DataReturned(s, id, error);
    PhaseSnoc(s.log, DataDone(id, !error), id);
    assert s'.log[s.born[id]] == s.log[s.born[id]];
    if FlushFirst(s.rqs[id].policy) {
      FlushedSinceGrows(s.log, s'.log, s.born[id]);
    }
  }

  /** A sequenced request whose data is done is ready for the next step. */
  lemma DataReturnedReady(s: State, id: RqId, error: bool)
    requires id in s.rqs && RqOk(s, id) && Req(id) in s.driver && s.rqs[id].sequenced
    ensures Ready(DataReturned(s, id, error), id, Mask(Data), error)
  {
    hide RqOk, FlushedSince, Postflushed, PhaseOf;
    DataReturnedInHand(s, id, error);
  }

  /** An ordinary request, or one that an abort has made ordinary, may be reported. */
  lemma DataReturnedPlain(s: State, id: RqId, error: bool)
    requires Inv(s) && id in s.rqs && Req(id) in s.driver && !s.rqs[id].sequenced
    requires !PhaseOf(s.log, id).Dropped?
    ensures MayReport(DataReturned(s, id, error), id, error)
  {
    assert RqOk(s, id);
    var s' := DataReturned(s, id, error);
    HeldPreflushed(s, id);
    DataReturnedLog(s, id, error, id);
    InsertedOnce(s'.log, id, s.born[id]);
    assert s'.log[s.born[id]] == s.log[s.born[id]];
    if FlushFirst(s.rqs[id].policy) {
      FlushedSinceGrows(s.log, s'.log, s.born[id]);
    }
    if Restored(id) in s.log {
      var i :| 0 <= i < |s.log| && s.log[i] == Restored(id);
      assert s'.log[i] == Restored(id);
    }
  }

  lemma EndSequencedForm(s: State, id: RqId, error: bool, now: int)
    requires id in s.rqs && s.rqs[id].sequenced
    ensures
      var (s1, queued) := CompleteSeq(DataReturned(s, id, error), id, Mask(Data), error, now);
      EndRequest(s, id, error, now) == if queued then Log(s1, RunQueue) else s1
  {
  }

  lemma EndSequencedKeeps(s: State, id: RqId, error: bool, now: int)
    requires Inv(s) && id in s.rqs && Req(id) in s.driver && s.rqs[id].sequenced
    ensures Inv(EndRequest(s, id, error, now))
    ensures forall x :: x != id ==> SameFor(s, EndRequest(s, id, error, now), x)
  {
    var d := DataReturned(s, id, error);
    DataReturnedBut(s, id, error);
    assert RqOk(s, id);
    DataReturnedReady(s, id, error);
    CompleteSeqKeeps(d, id, Mask(Data), error, now);
    var (s1, queued) := CompleteSeq(d, id, Mask(Data), error, now);
    RerunKeeps(s1);
    var s' := if queued then Log(s1, RunQueue) else s1;
    EndSequencedForm(s, id, error, now);
    forall x | x != id ensures SameFor(s, s', x) {
      CompleteSeqOthers(d, id, Mask(Data), error, now, x);
      SameForChain(s, d, s1, x);
      assert SameFor(s1, Log(s1, RunQueue), x);
      SameForChain(s, s1, s', x);
    }
  }

  lemma EndOrdinaryForm(s: State, id: RqId, error: bool, now: int)
    requires id in s.rqs && !s.rqs[id].sequenced
    ensures EndRequest(s, id, error, now) == EndPlain(DataReturned(s, id, error), id, error)
  {
    assert DataReturned(s, id, error).rqs == s.rqs;
  }

  lemma EndOrdinaryKeeps(s: State, id: RqId, error: bool, now: int)
    requires Inv(s) && Settled(s) && id in s.rqs && Req(id) in s.driver && !s.rqs[id].sequenced
    ensures Inv(EndRequest(s, id, error, now))
    ensures forall x :: x != id ==> SameFor(s, EndRequest(s, id, error, now), x)
  {
    var s' := EndRequest(s, id, error, now);
    var d := DataReturned(s, id, error);
    DataReturnedBut(s, id, error);
    assert MayReport(d, id, error) by {
      DataReturnedPlain(s, id, error);
    }
    EndPlainKeeps(d, id, error);
    EndOrdinaryForm(s, id, error, now);
    forall x | x != id ensures SameFor(s, s', x) {
      EndPlainOthers(d, id, error, x);
      SameForChain(s, d, s', x);
    }
  }

  lemma EndRequestKeeps(s: State, id: RqId, error: bool, now: int)
    requires Inv(s) && Settled(s) && id in s.rqs && Req(id) in s.driver
    ensures Inv(EndRequest(s, id, error, now))
    ensures forall x :: x != id ==> SameFor(s, EndRequest(s, id, error, now), x)
  {
    if s.rqs[id].sequenced {
      EndSequencedKeeps(s, id, error, now);
    } else {
      EndOrdinaryKeeps(s, id, error, now);
    }
  }

  lemma ProgressSelf(s: State, id: RqId, n: nat, error: bool)
    requires id in s.rqs && n < s.rqs[id].size && RqOk(s, id) && Req(id) in s.driver
    ensures RqOk(Progress(s, id, n, error), id)
    ensures PhaseOf(Progress(s, id, n, error).log, id).Dropped? <==> PhaseOf(s.log, id).Dropped?
  {
    hide PhaseOf, FlushedSince;
    var s' := Progress(s, id, n, error);
    PhaseSnoc(s.log, PartDone(id, !error), id);
    assert s'.log[s.born[id]] == s.log[s.born[id]];
    if FlushedSince(s.log, s.born[id]) {
      FlushedSinceGrows(s.log, s'.log, s.born[id]);
    }
    if Restored(id) in s.log {
      var i :| 0 <= i < |s.log| && s.log[i] == Restored(id);
      assert s'.log[i] == Restored(id);
    }
  }

  lemma ProgressLog(s: State, id: RqId, ok: bool, x: RqId)
    requires AllHonest(s.log) && Preflushed(s.log, id)
    ensures
      var log := s.log + [PartDone(id, ok)];
      && AllHonest(log) && FlightOf(log) == FlightOf(s.log)
      && (x != id ==> PhaseOf(log, x) == PhaseOf(s.log, x))
  {
    var e := PartDone(id, ok);
    assert (s.log + [e])[..|s.log|] == s.log;
    HonestSnoc(s.log, e);
    FlightSnoc(s.log, e);
    PhaseSnoc(s.log, e, x);
  }

  lemma ProgressKeeps(s: State, id: RqId, n: nat, error: bool)
    requires Inv(s) && id in s.rqs && n < s.rqs[id].size && Req(id) in s.driver
    ensures Inv(Progress(s, id, n, error)) && Progress(s, id, n, error).rqs[id].size == s.rqs[id].size - n
    ensures Settled(s) ==> Settled(Progress(s, id, n, error))
  {
    hide PhaseOf, FlightOf, Honest, RqOk;
    var s' := Progress(s, id, n, error);
    assert RqOk(s, id);
    HeldPreflushed(s, id);
    ProgressSelf(s, id, n, error);
    forall x | x != id ensures SameFor(s, s', x) {
      ProgressLog(s, id, !error, x);
    }
    ProgressLog(s, id, !error, id);
    assert ListsOk(s') by {
      forall x | x !in s'.rqs ensures PhaseOf(s'.log, x) == Unborn {
        assert SameFor(s, s', x);
      }
    }
    assert InvBut(s, id);
    Assemble(s, s', id);
    forall x | Settled(s) && x in s'.rqs ensures !PhaseOf(s'.log, x).Dropped? {
      assert x != id ==> SameFor(s, s', x);
    }
  }

  // ------------------------------------------------------------------
  // Insertion

  /** A new request and its Inserted event, before anything is done with it. */
  function Arrived(s: State, id: RqId, r: Rq): State {
    Log(s.(rqs := s.rqs[id := r], born := s.born[id := |s.log|]), Inserted(id, r.policy, r.biotail))
  }

  lemma ArrivedLog(s: State, id: RqId, r: Rq, x: RqId)
    requires Inv(s) && id !in s.rqs
    ensures AllHonest(Arrived(s, id, r).log)
    ensures FlightOf(Arrived(s, id, r).log) == FlightOf(s.log)
    ensures PhaseOf(Arrived(s, id, r).log, x)
         == if x == id then Before(Kind(r.policy, r.biotail, true)) else PhaseOf(s.log, x)
  {
    var e := Inserted(id, r.policy, r.biotail);
    HonestSnoc(s.log, e);
    FlightSnoc(s.log, e);
    PhaseSnoc(s.log, e, x);
  }

  lemma ArrivedSame(s: State, id: RqId, r: Rq, x: RqId)
    requires Inv(s) && id !in s.rqs && x != id
    ensures SameFor(s, Arrived(s, id, r), x)
  {
    hide PhaseOf, Honest, RqOk;
    ArrivedLog(s, id, r, x);
  }

  lemma ArrivedBut(s: State, id: RqId, r: Rq)
    requires Inv(s) && id !in s.rqs
    ensures InvBut(Arrived(s, id, r), id)
    ensures forall x :: x != id ==> SameFor(s, Arrived(s, id, r), x)
    ensures !OnQueue(Arrived(s, id, r), id) && id !in Arrived(s, id, r).data && !Dispatched(Arrived(s, id, r), id)
  {
    hide PhaseOf, FlightOf, Honest, RqOk;
    var s' := Arrived(s, id, r);
    ArrivedLog(s, id, r, id);
    forall x | x != id ensures SameFor(s, s', x) {
      ArrivedSame(s, id, r, x);
    }
    assert ListsOk(s') by {
      forall x | x !in s'.rqs ensures PhaseOf(s'.log, x) == Unborn {
        assert SameFor(s, s', x);
      }
    }
    forall x | x in s'.rqs && x != id ensures RqOk(s', x) {
      assert SameFor(s, s', x);
      RqFrame(s, s', x);
    }
  }

  /** An ordinary request joins the tail of the dispatch queue. */
  lemma EnqueueKeeps(s: State, id: RqId, r: Rq)
    requires Inv(s) && id !in s.rqs
    requires !r.sequenced && !r.ended && r.bio == r.biotail && r.uptodate && IsPlain(r.policy) && r.policy.data
    ensures Inv(Arrived(s, id, r).(head := s.head + [Req(id)]))
    ensures forall x :: x != id ==> SameFor(s, Arrived(s, id, r).(head := s.head + [Req(id)]), x)
  {
    var s1 := Arrived(s, id, r);
    var s' := s1.(head := s.head + [Req(id)]);
    ArrivedBut(s, id, r);
    ArrivedLog(s, id, r, id);
    NoDupAppend(s.head, Req(id));
    forall x | x != id ensures SameFor(s1, s', x) {
    }
    assert RqOk(s', id);
    assert FlushOk(s');
    Assemble(s1, s', id);
    forall x | x != id ensures SameFor(s, s', x) {
      SameForChain(s, s1, s', x);
    }
  }

  lemma ArrivedReady(s: State, id: RqId)
    requires id in s.rqs && !Dispatched(s, id) && id in s.born && s.log != [] && s.born[id] == |s.log| - 1
    requires s.log[s.born[id]] == Inserted(id, s.rqs[id].policy, s.rqs[id].biotail)
    requires PhaseOf(s.log, id) == Before(Kind(s.rqs[id].policy, s.rqs[id].biotail, true)) && s.rqs[id].uptodate
    requires
      var r := s.rqs[id];
      && r.sequenced && !r.ended && r.bio == r.biotail && r.fseq == Steps(false, false, false)
      && !IsPlain(r.policy)
    ensures Ready(s, id, s.rqs[id].policy.Complement(), false)
  {
    hide FlushedSince, PhaseOf, Postflushed;
    var s1 := Recorded(s, id, s.rqs[id].policy.Complement());
    assert InHand(s, id) && InHand(s1, id);
    if s.rqs[id].policy.pre || !s.rqs[id].policy.data {
      assert MustWait(s1, id);
    } else {
      assert MustWrite(s1, id);
    }
  }

  lemma InsertReady(s: State, id: RqId, r: Rq)
    requires Inv(s) && id !in s.rqs
    requires r.sequenced && !r.ended && r.bio == r.biotail && r.fseq == Steps(false, false, false) && r.uptodate
    requires !IsPlain(r.policy)
    ensures Ready(Arrived(s, id, r), id, r.policy.Complement(), false)
  {
    ArrivedBut(s, id, r);
    ArrivedLog(s, id, r, id);
    ArrivedReady(Arrived(s, id, r), id);
  }

  lemma InsertSequencedKeeps(s: State, id: RqId, r: Rq, now: int)
    requires Inv(s) && id !in s.rqs
    requires r.sequenced && !r.ended && r.bio == r.biotail && r.fseq == Steps(false, false, false) && r.uptodate
    requires !IsPlain(r.policy)
    ensures
      var s' := CompleteSeq(Arrived(s, id, r), id, r.policy.Complement(), false, now).0;
      Inv(s') && forall x :: x != id ==> SameFor(s, s', x)
  {
    var s1 := Arrived(s, id, r);
    var s' := CompleteSeq(s1, id, r.policy.Complement(), false, now).0;
    InsertReady(s, id, r);
    ArrivedBut(s, id, r);
    CompleteSeqKeeps(s1, id, r.policy.Complement(), false, now);
    forall x | x != id ensures SameFor(s, s', x) {
      CompleteSeqOthers(s1, id, r.policy.Complement(), false, now, x);
      SameForChain(s, s1, s', x);
    }
  }

  lemma InsertEmptyKeeps(s: State, id: RqId, r: Rq)
    requires Inv(s) && id !in s.rqs
    requires !r.sequenced && !r.ended && r.bio == r.biotail && r.uptodate && r.policy.IsEmpty()
    ensures
      var s' := EndPlain(Arrived(s, id, r), id, false);
      Inv(s') && forall x :: x != id ==> SameFor(s, s', x)
  {
    var s1 := Arrived(s, id, r);
    var s' := EndPlain(s1, id, false);
    ArrivedBut(s, id, r);
    ArrivedLog(s, id, r, id);
    InsertedOnce(s1.log, id, |s.log|);
    NeverRestored(s1.log, id);
    EndPlainKeeps(s1, id, false);
    forall x | x != id ensures SameFor(s, s', x) {
      EndPlainOthers(s1, id, false, x);
      SameForChain(s, s1, s', x);
    }
  }

  lemma InsertFlushForm(s: State, id: RqId, devFlush: bool, devFua: bool, flush: bool, fua: bool,
                        size: nat, bio: bool, now: int)
    ensures
      var policy := Policy(devFlush, devFua, flush, fua, size > 0);
      var r := Rq(policy, Steps(false, false, false), false, fua && devFua, bio, bio, size, true, false);
      var s1 := Arrived(s, id, r);
      InsertFlush(s, id, devFlush, devFua, flush, fua, size, bio, now) ==
        if policy.IsEmpty() then EndPlain(s1, id, false)
        else if policy.data && !policy.pre && !policy.post then s1.(head := s1.head + [Req(id)])
        else CompleteSeq(Arrived(s, id, r.(sequenced := true)), id, policy.Complement(), false, now).0
  {
  }

  /** blk_insert_flush. */
  lemma InsertFlushKeeps(s: State, id: RqId, devFlush: bool, devFua: bool, flush: bool, fua: bool,
                         size: nat, bio: bool, now: int)
    requires Inv(s) && id !in s.rqs
    ensures
      var s' := InsertFlush(s, id, devFlush, devFua, flush, fua, size, bio, now);
      Inv(s') && forall x :: x != id ==> SameFor(s, s', x)
  {
    hide Inv, SameFor, EndPlain, CompleteSeq, InsertFlush;
    var policy := Policy(devFlush, devFua, flush, fua, size > 0);
    var r := Rq(policy, Steps(false, false, false), false, fua && devFua, bio, bio, size, true, false);
    InsertFlushForm(s, id, devFlush, devFua, flush, fua, size, bio, now);
    if policy.IsEmpty() {
      InsertEmptyKeeps(s, id, r);
    } else if policy.data && !policy.pre && !policy.post {
      EnqueueKeeps(s, id, r);
    } else {
      InsertSequencedKeeps(s, id, r.(sequenced := true), now);
    }
  }

  // ------------------------------------------------------------------
  // The dispatch queue

  /** A request moves between the dispatch queue and the driver. */
  lemma MoveKeeps(s: State, s': State)
    requires Inv(s) && Settled(s)
    requires s' == s.(head := s'.head, driver := s'.driver)
    requires NoDup(s'.head)
    requires forall i :: i in s.head || i in s.driver <==> i in s'.head || i in s'.driver
    requires forall i :: !(i in s'.head && i in s'.driver)
    ensures Inv(s') && Settled(s')
  {
    forall x ensures Dispatched(s, x) <==> Dispatched(s', x) {
    }
    forall x | x in s'.rqs ensures RqOk(s', x) {
      assert RqOk(s, x);
    }
  }

  lemma StartKeeps(s: State)
    requires Inv(s) && Settled(s) && s.head != []
    ensures Inv(Start(s)) && Settled(Start(s))
  {
    NoDupTail(s.head);
    FetchMoves(s);
    MoveKeeps(s, Start(s));
  }

  lemma DispatchKeeps(s: State, id: RqId, size: nat, bio: bool)
    requires Inv(s) && Settled(s) && id !in s.rqs
    ensures Inv(Dispatch(s, id, size, bio)) && Settled(Dispatch(s, id, size, bio))
    ensures s.log <= Dispatch(s, id, size, bio).log
  {
    var policy := Steps(false, true, false);
    var r := Rq(policy, Steps(false, false, false), false, false, bio, bio, size, true, false);
    var s1 := Dispatch(s, id, size, bio);
    assert s1 == Arrived(s, id, r).(head := s.head + [Req(id)]);
    EnqueueKeeps(s, id, r);
    ArrivedLog(s, id, r, id);
    forall x | x in s1.rqs && x != id ensures !PhaseOf(s1.log, x).Dropped? {
      assert SameFor(s, s1, x);
    }
  }

  lemma FetchKeeps(s: State, queueable: bool, feed: Feed)
    requires Inv(s) && Settled(s)
    requires feed.Ordinary? ==> feed.id !in s.rqs
    ensures Inv(Fetch(s, queueable, feed)) && Settled(Fetch(s, queueable, feed))
    ensures
      var s' := Fetch(s, queueable, feed);
      s.head != [] ==> s'.head == s.head[1..] && s'.driver == s.driver + {s.head[0]}
  {
    var s' := Fetch(s, queueable, feed);
    if s.head != [] {
      StartKeeps(s);
      assert s' == Start(s);
    } else if InFlight(s) && !queueable {
      DelayedKeeps(s, true);
      assert s' == s.(delayed := true);
    } else if feed.Ordinary? {
      var s1 := Dispatch(s, feed.id, feed.size, feed.bio);
      DispatchKeeps(s, feed.id, feed.size, feed.bio);
      StartKeeps(s1);
      assert s' == Start(s1);
    } else {
      assert s' == s;
    }
  }

  lemma HeadAndDriverApart(s: State, i: Item)
    requires Inv(s)
    ensures !(i in s.head && i in s.driver)
  {
    if i.Req? && Dispatched(s, i.id) {
      assert RqOk(s, i.id);
    }
  }

  lemma FetchMoves(s: State)
    requires Inv(s) && s.head != []
    ensures
      var head', driver' := s.head[1..], s.driver + {s.head[0]};
      && (forall i :: i in s.head || i in s.driver <==> i in head' || i in driver')
      && (forall i :: !(i in head' && i in driver'))
  {
    NoDupTail(s.head);
    forall i ensures !(i in s.head && i in s.driver) {
      HeadAndDriverApart(s, i);
    }
  }

  lemma RequeueKeeps(s: State, item: Item)
    requires Inv(s) && Settled(s) && item in s.driver
    ensures Inv(Requeue(s, item)) && Settled(Requeue(s, item))
    ensures Requeue(s, item).head == [item] + s.head && item !in Requeue(s, item).driver
  {
    forall i ensures !(i in s.head && i in s.driver) {
      HeadAndDriverApart(s, i);
    }
    NoDupAppend(s.head, item);
    MoveKeeps(s, Requeue(s, item));
  }

  // ------------------------------------------------------------------
  // Aborting the queue

  lemma RestoredLog(s: State, s': State, id: RqId, x: RqId)
    requires AllHonest(s.log) && s'.log == s.log + [Restored(id)]
    ensures AllHonest(s'.log)
    ensures FlightOf(s'.log) == FlightOf(s.log)
    ensures PhaseOf(s'.log, x) == if x == id then NextPhase(PhaseOf(s.log, x), Restored(id)) else PhaseOf(s.log, x)
    ensures s.log <= s'.log && Restored(id) in s'.log
  {
    HonestSnoc(s.log, Restored(id));
    FlightSnoc(s.log, Restored(id));
    PhaseSnoc(s.log, Restored(id), x);
    assert s'.log[|s.log|] == Restored(id);
  }

  /** A request leaves its flush list and becomes ordinary; `s'` is what the loop makes of it. */
  lemma RestoreStep(s: State, s': State, id: RqId)
    requires Inv(s) && id in s.rqs
    requires s'.log == s.log + [Restored(id)]
    requires s'.rqs == s.rqs[id := Restore(s.rqs[id])]
    requires ListsOk(s'.(log := s.log)) && FlushOk(s'.(log := s.log))
    requires s'.born == s.born && s'.since == s.since
    requires forall x :: x != id ==> SameFor(s, s'.(log := s.log), x)
    requires RqOk(s', id)
    ensures Inv(s')
  {
    hide PhaseOf, FlightOf, Honest, RqOk;
    RestoredLog(s, s', id, id);
    forall x | x != id ensures SameFor(s, s', x) {
      RestoredLog(s, s', id, x);
      assert SameFor(s, s'.(log := s.log), x);
    }
    assert ListsOk(s') by {
      assert forall x :: OnQueue(s', x) ==> OnQueue(s'.(log := s.log), x);
      assert forall x :: Dispatched(s', x) ==> Dispatched(s'.(log := s.log), x);
      forall x | x !in s'.rqs ensures PhaseOf(s'.log, x) == Unborn {
        assert SameFor(s, s', x);
      }
    }
    assert FlushOk(s');
    Assemble(s, s', id);
  }

  /** One round of the loop over requests in their data phase. */
  function RestoreOne(s: State): State
    requires s.data != [] && s.data[0] in s.rqs
  {
    var id := s.data[0];
    Log(s.(rqs := s.rqs[id := Restore(s.rqs[id])], data := s.data[1..]), Restored(id))
  }

  lemma RestoreOneSelf(s: State)
    requires s.data != [] && s.data[0] in s.rqs && RqOk(s, s.data[0])
    requires AllHonest(s.log) && NoDup(s.data)
    ensures RqOk(RestoreOne(s), s.data[0])
  {
    hide PhaseOf, FlushedSince, Honest;
    var id := s.data[0];
    var s' := RestoreOne(s);
    assert id in s.data;
    NoDupTail(s.data);
    RestoredLog(s, s', id, id);
    if FlushFirst(s.rqs[id].policy) {
      FlushedSinceGrows(s.log, s'.log, s.born[id]);
    }
  }

  lemma RestoreOneLists(s: State)
    requires Inv(s) && s.data != [] && s.data[0] in s.rqs
    ensures ListsOk(RestoreOne(s).(log := s.log)) && FlushOk(RestoreOne(s).(log := s.log))
    ensures forall x :: x != s.data[0] ==> SameFor(s, RestoreOne(s).(log := s.log), x)
  {
    hide RqOk, PhaseOf, FlightOf, AllHonest;
    NoDupTail(s.data);
  }

  lemma RestoreOneKeeps(s: State)
    requires Inv(s) && s.data != [] && s.data[0] in s.rqs
    ensures Inv(RestoreOne(s))
  {
    RestoreOneSelf(s);
    RestoreOneLists(s);
    RestoreStep(s, RestoreOne(s), s.data[0]);
  }

  lemma {:induction false} RestoreAllKeeps(s: State)
    requires Inv(s)
    requires forall id :: id in s.data ==> id in s.rqs
    ensures Inv(RestoreAll(s)) && s.log <= RestoreAll(s).log && RestoreAll(s).born == s.born
    decreases |s.data|
  {
    hide Inv;
    if s.data != [] {
      assert s.data[0] in s.data;
      RestoreOneKeeps(s);
      RestoreAllKeeps(RestoreOne(s));
    }
  }

  /** One round of the loop over a flush list. */
  function GiveOne(s: State, i: Index): State
    requires s.queues[i] != [] && s.queues[i][0] in s.rqs
  {
    var id := s.queues[i][0];
    Log(s.(rqs := s.rqs[id := Restore(s.rqs[id])],
           queues := s.queues[i := s.queues[i][1..]],
           head := s.head + [Req(id)]), Restored(id))
  }

  lemma GiveOneSelf(s: State, i: Index)
    requires Inv(s) && s.queues[i] != [] && s.queues[i][0] in s.rqs
    ensures RqOk(GiveOne(s, i), s.queues[i][0])
  {
    hide PhaseOf, FlushedSince, Honest, FlightOf;
    var id := s.queues[i][0];
    var s' := GiveOne(s, i);
    assert id in s.queues[i] && OnQueue(s, id) && RqOk(s, id);
    NoDupTail(s.queues[i]);
    RestoredLog(s, s', id, id);
  }

  lemma GiveOneLists(s: State, i: Index)
    requires Inv(s) && s.queues[i] != [] && s.queues[i][0] in s.rqs
    ensures ListsOk(GiveOne(s, i).(log := s.log)) && FlushOk(GiveOne(s, i).(log := s.log))
    ensures forall x :: x != s.queues[i][0] ==> SameFor(s, GiveOne(s, i).(log := s.log), x)
  {
    var id := s.queues[i][0];
    assert !Dispatched(s, id) by {
      assert id in s.queues[i] && OnQueue(s, id) && RqOk(s, id);
    }
    GiveOneApart(s, i);
  }

  lemma GiveOneApart(s: State, i: Index)
    requires ListsOk(s) && FlushOk(s) && s.queues[i] != [] && s.queues[i][0] in s.rqs
    requires !Dispatched(s, s.queues[i][0])
    ensures ListsOk(GiveOne(s, i).(log := s.log)) && FlushOk(GiveOne(s, i).(log := s.log))
    ensures forall x :: x != s.queues[i][0] ==> SameFor(s, GiveOne(s, i).(log := s.log), x)
  {
    NoDupTail(s.queues[i]);
    NoDupAppend(s.head, Req(s.queues[i][0]));
  }

  lemma GiveOneKeeps(s: State, i: Index)
    requires Inv(s) && s.queues[i] != [] && s.queues[i][0] in s.rqs
    ensures Inv(GiveOne(s, i))
  {
    GiveOneSelf(s, i);
    GiveOneLists(s, i);
    RestoreStep(s, GiveOne(s, i), s.queues[i][0]);
  }

  lemma {:induction false} GiveAwayKeeps(s: State, i: Index)
    requires Inv(s)
    requires forall id :: id in s.queues[i] ==> id in s.rqs
    ensures Inv(GiveAway(s, i)) && s.log <= GiveAway(s, i).log && GiveAway(s, i).born == s.born
    ensures GiveAway(s, i).data == s.data
    decreases |s.queues[i]|
  {
    hide Inv;
    if s.queues[i] != [] {
      assert s.queues[i][0] in s.queues[i];
      GiveOneKeeps(s, i);
      GiveAwayKeeps(GiveOne(s, i), i);
    }
  }

  /** The requests of a list as entries of the dispatch queue. */
  function Items(ids: seq<RqId>): seq<Item> {
    seq(|ids|, i requires 0 <= i < |ids| => Req(ids[i]))
  }

  /** What an abort makes of the requests on these lists: ordinary ones with their bio back. */
  predicate MadeOrdinary(rqs: map<RqId, Rq>, rqs': map<RqId, Rq>, ids: seq<RqId>) {
    && rqs'.Keys == rqs.Keys
    && (forall id :: id in ids && id in rqs ==> rqs'[id] == rqs[id].(bio := rqs[id].biotail, sequenced := false))
    && (forall id :: id !in ids && id in rqs ==> rqs'[id] == rqs[id])
  }

  lemma OrdinaryThen(a: map<RqId, Rq>, b: map<RqId, Rq>, c: map<RqId, Rq>, ids: seq<RqId>, more: seq<RqId>)
    requires MadeOrdinary(a, b, ids) && MadeOrdinary(b, c, more)
    ensures MadeOrdinary(a, c, ids + more)
  {
  }

  lemma OneOrdinary(rqs: map<RqId, Rq>, id: RqId)
    requires id in rqs
    ensures MadeOrdinary(rqs, rqs[id := Restore(rqs[id])], [id])
  {
  }

  lemma {:induction false} RestoreAllShape(s: State)
    requires forall id :: id in s.data ==> id in s.rqs
    ensures MadeOrdinary(s.rqs, RestoreAll(s).rqs, s.data)
    decreases |s.data|
  {
    hide MadeOrdinary, Restore;
    if s.data == [] {
      NoneOrdinary(s.rqs);
    } else {
      assert s.data[0] in s.data && s.data == [s.data[0]] + s.data[1..];
      RestoreAllShape(RestoreOne(s));
      OneOrdinary(s.rqs, s.data[0]);
      OrdinaryThen(s.rqs, RestoreOne(s).rqs, RestoreAll(s).rqs, [s.data[0]], s.data[1..]);
    }
  }

  lemma NoneOrdinary(rqs: map<RqId, Rq>)
    ensures MadeOrdinary(rqs, rqs, [])
  {
  }

  lemma NoItems()
    ensures Items([]) == []
  {
  }

  lemma ItemsHead(head: seq<Item>, list: seq<RqId>)
    requires list != []
    ensures head + [Req(list[0])] + Items(list[1..]) == head + Items(list)
  {
    assert [Req(list[0])] + Items(list[1..]) == Items(list);
  }

  lemma {:induction false} GiveAwayShape(s: State, i: Index)
    requires forall id :: id in s.queues[i] ==> id in s.rqs
    ensures MadeOrdinary(s.rqs, GiveAway(s, i).rqs, s.queues[i])
    ensures GiveAway(s, i).head == s.head + Items(s.queues[i]) && GiveAway(s, i).data == s.data
    decreases |s.queues[i]|
  {
    hide MadeOrdinary, Restore, Items;
    if s.queues[i] == [] {
      NoneOrdinary(s.rqs);
      NoItems();
    } else {
      var list := s.queues[i];
      assert list[0] in list && list == [list[0]] + list[1..];
      GiveAwayShape(GiveOne(s, i), i);
      OneOrdinary(s.rqs, list[0]);
      OrdinaryThen(s.rqs, GiveOne(s, i).rqs, GiveAway(s, i).rqs, [list[0]], list[1..]);
      ItemsHead(s.head, list);
    }
  }

  /** blk_abort_flushes: every request of the sequence is ordinary again, and those that waited for a
      flush are at the tail of the dispatch queue, in the order they waited in. */
  lemma AbortFlushesGive(s: State)
    requires forall id :: id in s.data || id in s.queues[0] || id in s.queues[1] ==> id in s.rqs
    ensures
      var s' := GiveAway(GiveAway(RestoreAll(s), 0), 1);
      && s'.data == [] && s'.queues == [[], []]
      && s'.head == s.head + Items(s.queues[0]) + Items(s.queues[1])
      && MadeOrdinary(s.rqs, s'.rqs, s.data + s.queues[0] + s.queues[1])
  {
    hide RestoreAll, GiveAway, MadeOrdinary;
    var s1 := RestoreAll(s);
    RestoreAllShape(s);
    GiveAwayShape(s1, 0);
    var s2 := GiveAway(s1, 0);
    GiveAwayShape(s2, 1);
    OrdinaryThen(s.rqs, s1.rqs, s2.rqs, s.data, s.queues[0]);
    OrdinaryThen(s.rqs, s2.rqs, GiveAway(s2, 1).rqs, s.data + s.queues[0], s.queues[1]);
  }

  /** An abort is under way that was called when every request was there already. */
  ghost predicate Aborting(s: State, a: nat) {
    && a < |s.log| && s.log[a] == Aborted
    && forall id :: id in s.rqs ==> id in s.born && s.born[id] < a
  }

  lemma AbortingOn(s: State, s': State, a: nat)
    requires Aborting(s, a) && s.log <= s'.log && s'.rqs.Keys == s.rqs.Keys && s'.born == s.born
    ensures Aborting(s', a)
  {
  }

  lemma AbortHits(s: State, a: nat, id: RqId)
    requires Aborting(s, a) && id in s.rqs && s.log[s.born[id]].Inserted? && s.log[s.born[id]].id == id
    ensures AbortedSince(s.log, id)
  {
  }

  /** Popping an ordinary request off the dispatch queue leaves it ready to fail. */
  lemma PopReady(s: State, a: nat, id: RqId)
    requires Inv(s) && Aborting(s, a) && s.head != [] && s.head[0] == Req(id)
    requires s.data == [] && s.queues == [[], []]
    ensures InvBut(s.(head := s.head[1..]), id) && MayReport(s.(head := s.head[1..]), id, true)
  {
    hide PhaseOf, FlightOf, FlushedSince, AllHonest;
    NoDupTail(s.head);
    assert Dispatched(s, id) && RqOk(s, id);
    AbortHits(s, a, id);
    PopOthers(s, id);
  }

  lemma PopOthers(s: State, id: RqId)
    requires Inv(s) && s.head != [] && s.head[0] == Req(id) && NoDup(s.head[1..]) && Req(id) !in s.head[1..]
    ensures InvBut(s.(head := s.head[1..]), id)
  {
    hide PhaseOf, FlightOf, FlushedSince, AllHonest, RqOk, NoDup;
    var s1 := s.(head := s.head[1..]);
    PopSame(s);
    assert forall x :: Dispatched(s1, x) ==> Dispatched(s, x);
    forall x | x in s1.rqs && x != id ensures RqOk(s1, x) {
      assert SameFor(s, s1, x);
      RqFrame(s, s1, x);
    }
  }

  lemma PopSame(s: State)
    requires s.head != []
    ensures forall x :: x in s.head <==> x == s.head[0] || x in s.head[1..]
    ensures forall x :: Req(x) != s.head[0] ==> SameFor(s, s.(head := s.head[1..]), x)
  {
    hide PhaseOf;
    assert s.head == [s.head[0]] + s.head[1..];
  }

  lemma {:induction false} FailAllKeeps(s: State, a: nat, now: int)
    requires Inv(s) && Aborting(s, a)
    requires forall id :: Req(id) in s.head ==> id in s.rqs
    requires s.data == [] && s.queues == [[], []]
    ensures Inv(FailAll(s, now)) && FailAll(s, now).head == []
    decreases |s.head|
  {
    hide Inv, InvBut, MayReport, EndPlain, FlushEndIo, FlushReturns, Aborting;
    if s.head != [] {
      var s1 := s.(head := s.head[1..]);
      match s.head[0] {
        case Req(id) =>
          PopReady(s, a, id);
          PopPlain(s1, id);
          EndPlainKeeps(s1, id, true);
          AbortingOn(s, EndPlain(s1, id, true), a);
          FailAllKeeps(EndPlain(s1, id, true), a, now);
        case FlushRq =>
          PopFlush(s);
          FlushEndIoKeeps(s, s1, true, now);
          PopEmpty(s1, now);
          AbortingOn(s, FlushEndIo(s1, true, now), a);
          FailAllKeeps(FlushEndIo(s1, true, now), a, now);
      }
    }
  }

  lemma PopPlain(s: State, id: RqId)
    requires id in s.rqs
    ensures
      var s' := EndPlain(s, id, true);
      && s'.head == s.head && s'.data == s.data && s'.queues == s.queues && s'.rqs.Keys == s.rqs.Keys
      && s.log <= s'.log && s'.born == s.born
  {
  }

  lemma PopEmpty(s: State, now: int)
    requires s.queues == [[], []]
    ensures
      var s' := FlushEndIo(s, true, now);
      && s'.head == s.head && s'.data == s.data && s'.queues == s.queues && s'.rqs == s.rqs
      && s.log <= s'.log && s'.born == s.born
  {
  }

  lemma PopFlush(s: State)
    requires Inv(s) && s.head != [] && s.head[0] == FlushRq
    ensures FlushReturns(s, s.(head := s.head[1..]))
  {
    hide RqOk, AllHonest, PhaseOf;
    NoDupTail(s.head);
    HeadAndDriverApart(s, FlushRq);
  }

  lemma AbortedKeeps(s: State)
    requires Inv(s)
    ensures Inv(Log(s, Aborted)) && Aborting(Log(s, Aborted), |s.log|)
  {
    var s' := Log(s, Aborted);
    HonestSnoc(s.log, Aborted);
    FlightSnoc(s.log, Aborted);
    forall x ensures SameFor(s, s', x) {
      PhaseSnoc(s.log, Aborted, x);
    }
    AssembleAll(s, s');
    assert forall id :: id in s.rqs ==> RqOk(s, id);
  }

  /** What elv_abort_queue may assume of the lists. */
  lemma AbortReady(s: State)
    requires Inv(s)
    ensures forall id :: id in s.data || id in s.queues[0] || id in s.queues[1] ==> id in s.rqs
    ensures forall id :: Req(id) in s.head ==> id in s.rqs
  {
    forall id | id in s.queues[0] || id in s.queues[1] ensures id in s.rqs {
      assert OnQueue(s, id);
    }
    forall id | Req(id) in s.head ensures id in s.rqs {
      assert Dispatched(s, id);
    }
  }

  lemma EmptyHeadSettles(s: State)
    requires Inv(s) && s.head == []
    ensures Settled(s)
  {
    forall id | id in s.rqs ensures !PhaseOf(s.log, id).Dropped? {
      assert RqOk(s, id);
    }
  }

  lemma AbortFlushesKeep(s: State)
    requires Inv(s)
    requires forall id :: id in s.data || id in s.queues[0] || id in s.queues[1] ==> id in s.rqs
    ensures
      var s3 := GiveAway(GiveAway(RestoreAll(s), 0), 1);
      && Inv(s3) && s3.data == [] && s3.queues == [[], []]
      && s.log <= s3.log && s3.born == s.born && s3.rqs.Keys == s.rqs.Keys
  {
    hide Inv, RestoreAll, GiveAway;
    RestoreAllKeeps(s);
    var s1 := RestoreAll(s);
    GiveAwayKeeps(s1, 0);
    GiveAwayKeeps(GiveAway(s1, 0), 1);
  }

  lemma AbortKeeps(s: State, now: int)
    requires Inv(s)
    requires forall id :: id in s.data || id in s.queues[0] || id in s.queues[1] ==> id in s.rqs
    requires forall id :: Req(id) in s.head ==> id in s.rqs
    ensures Inv(Abort(s, now)) && Settled(Abort(s, now))
  {
    AbortedKeeps(s);
    AbortFlushesKeep(Log(s, Aborted));
    var s3 := GiveAway(GiveAway(RestoreAll(Log(s, Aborted)), 0), 1);
    AbortingOn(Log(s, Aborted), s3, |s.log|);
    FailAllKeeps(s3, |s.log|, now);
    assert Abort(s, now) == FailAll(s3, now);
    EmptyHeadSettles(Abort(s, now));
  }
}

/** Safety and progress of the flush sequencer over whole runs. */
module FlushRuns {
  import opened Lists
  import opened FlushProtocol
  import opened FlushInvariant
  import opened FlushSteps

  /** What submitters, the driver and the administrator may do to a queue. */
  datatype Op =
    | Insert(id: RqId, devFlush: bool, devFua: bool, flush: bool, fua: bool, size: nat, bio: bool, now: int)
    | FetchNext(queueable: bool, feed: Feed)
    | PutBack(item: Item)
    | Partial(id: RqId, n: nat, error: bool)
    | EndData(id: RqId, error: bool, now: int)
    | EndFlush(error: bool, now: int)
    | AbortQueue(now: int)

  /** Callers insert a request once; drivers complete what they hold. */
  predicate Enabled(s: State, op: Op) {
    match op
    case Insert(id, _, _, _, _, _, _, _) => id !in s.rqs
    case FetchNext(_, feed) => feed.Ordinary? ==> feed.id !in s.rqs
    case PutBack(item) => item in s.driver
    case Partial(id, n, _) => id in s.rqs && Req(id) in s.driver && n < s.rqs[id].size
    case EndData(id, _, _) => id in s.rqs && Req(id) in s.driver
    case EndFlush(_, _) => FlushRq in s.driver
    case AbortQueue(_) => true
  }

  /** The flush has left the driver and is about to be completed. */
  function FlushBack(s: State): State {
    s.(driver := s.driver - {FlushRq})
  }

  lemma FlushBackReturns(s: State)
    requires Inv(s) && FlushRq in s.driver
    ensures FlushReturns(s, FlushBack(s))
    ensures forall id :: id in s.queues[s.runningIdx] ==> id in s.rqs
  {
    WaitersKnown(s, s.runningIdx);
  }

  ghost function Apply(s: State, op: Op): State
    requires Inv(s) && Enabled(s, op)
  {
    match op
    case Insert(id, devFlush, devFua, flush, fua, size, bio, now) =>
      InsertFlush(s, id, devFlush, devFua, flush, fua, size, bio, now)
    case FetchNext(queueable, feed) => Fetch(s, queueable, feed)
    case PutBack(item) => Requeue(s, item)
    case Partial(id, n, error) => Progress(s, id, n, error)
    case EndData(id, error, now) => EndRequest(s, id, error, now)
    case EndFlush(error, now) =>
      FlushBackReturns(s);
      FlushEndIo(FlushBack(s), error, now)
    case AbortQueue(now) =>
      AbortReady(s);
      Abort(s, now)
  }

  // ------------------------------------------------------------------
  // Every step keeps the invariant

  /** A step that changes at most one request, and leaves that one sequenced, new or ended. */
  lemma SettledFrame(s: State, s': State, id: RqId)
    requires Settled(s) && Inv(s')
    requires forall x :: x != id ==> SameFor(s, s', x)
    requires id in s'.rqs ==> s'.rqs[id].sequenced || s'.rqs[id].ended || PhaseOf(s'.log, id).Before?
    ensures Settled(s')
  {
    forall x | x in s'.rqs ensures !PhaseOf(s'.log, x).Dropped? {
      if x == id {
        assert RqOk(s', id);
      } else {
        assert SameFor(s, s', x);
      }
    }
  }

  lemma AdvanceShape(s: State, id: RqId, steps: Steps, error: bool, now: int)
    requires id in s.rqs && s.rqs[id].sequenced
    ensures
      var s' := Advance(s, id, steps, error, now);
      s'.rqs[id].sequenced || s'.rqs[id].ended
  {
    match (if error then Done else CurSeq(s.rqs[id].fseq.Union(steps)))
    case Data =>
    case Done =>
    case _ =>
  }

  lemma CompleteSeqShape(s: State, id: RqId, steps: Steps, error: bool, now: int)
    requires id in s.rqs && s.rqs[id].sequenced
    ensures
      var s' := CompleteSeq(s, id, steps, error, now).0;
      s'.rqs[id].sequenced || s'.rqs[id].ended
  {
    AdvanceShape(s, id, steps, error, now);
    assert KickFlush(Advance(s, id, steps, error, now), now).0.rqs == Advance(s, id, steps, error, now).rqs;
  }

  lemma InsertSettles(s: State, id: RqId, devFlush: bool, devFua: bool, flush: bool, fua: bool,
                      size: nat, bio: bool, now: int)
    requires Inv(s) && Settled(s) && id !in s.rqs
    ensures Settled(InsertFlush(s, id, devFlush, devFua, flush, fua, size, bio, now))
  {
    var s' := InsertFlush(s, id, devFlush, devFua, flush, fua, size, bio, now);
    InsertFlushKeeps(s, id, devFlush, devFua, flush, fua, size, bio, now);
    var policy := Policy(devFlush, devFua, flush, fua, size > 0);
    var r := Rq(policy, Steps(false, false, false), false, fua && devFua, bio, bio, size, true, false);
    if policy.IsEmpty() {
    } else if policy.data && !policy.pre && !policy.post {
      ArrivedLog(s, id, r, id);
    } else {
      CompleteSeqShape(Arrived(s, id, r.(sequenced := true)), id, policy.Complement(), false, now);
    }
    SettledFrame(s, s', id);
  }

  lemma EndRequestShape(s: State, id: RqId, error: bool, now: int)
    requires id in s.rqs
    ensures
      var s' := EndRequest(s, id, error, now);
      s'.rqs[id].sequenced || s'.rqs[id].ended
  {
    if s.rqs[id].sequenced {
      CompleteSeqShape(DataReturned(s, id, error), id, Mask(Data), error, now);
    } else {
      EndOrdinaryForm(s, id, error, now);
    }
  }

  lemma EndRequestSettles(s: State, id: RqId, error: bool, now: int)
    requires Inv(s) && Settled(s) && id in s.rqs && Req(id) in s.driver
    ensures Settled(EndRequest(s, id, error, now))
  {
    EndRequestKeeps(s, id, error, now);
    EndRequestShape(s, id, error, now);
    SettledFrame(s, EndRequest(s, id, error, now), id);
  }

  lemma {:induction false} PushAllSettles(s: State, w: Index, error: bool, now: int)
    requires Walking(s, w, error) && Settled(s)
    ensures Settled(PushAll(s, w, error, now).0)
    decreases Work(s.rqs, s.queues[w])
  {
    hide Settled, RqOk, Answered, SameFor, PushNext, Work;
    if s.queues[w] != [] {
      var id := s.queues[w][0];
      WalkOn(s, w, error, now);
      assert OnQueue(s, id);
      var s1 := PushNext(s, id, error, now).0;
      PushNextShape(s, id, error, now);
      SettledFrame(s, s1, id);
      PushShrinks(s, w, error, now);
      if |s.queues[w]| > 1 {
        PushAllSettles(s1, w, error, now);
      }
    }
  }

  lemma PushNextShape(s: State, id: RqId, error: bool, now: int)
    requires id in s.rqs && RqOk(s, id) && OnQueue(s, id)
    ensures
      var s' := PushNext(s, id, error, now).0;
      s'.rqs[id].sequenced || s'.rqs[id].ended
  {
    var cur := CurSeq(s.rqs[id].fseq);
    CompleteSeqShape(s.(bug := s.bug || (cur != Preflush && cur != Postflush)), id, Mask(cur), error, now);
  }

  lemma SettledSame(s: State, s': State)
    requires Settled(s) && forall x :: SameFor(s, s', x)
    ensures Settled(s')
  {
    forall x | x in s'.rqs ensures !PhaseOf(s'.log, x).Dropped? {
      assert SameFor(s, s', x);
    }
  }

  lemma FlushEndIoSettles(s: State, s0: State, error: bool, now: int)
    requires FlushReturns(s, s0) && Settled(s)
    requires forall id :: id in s0.queues[s0.runningIdx] ==> id in s0.rqs
    ensures Settled(FlushEndIo(s0, error, now))
  {
    var s1 := FlushAccounted(s0, error);
    FlushAccountedKeeps(s, s0, error);
    WaitersAnswered(s, s0, error);
    SettledSame(s, s1);
    PushAllSettles(s1, s.runningIdx, error, now);
    PushAllKeeps(s1, s.runningIdx, error, now);
    var (s2, queued) := PushAll(s1, s.runningIdx, error, now);
    LoopDoneKeeps(s2, queued);
    SettledSame(s2, LoopDone(s2, queued));
    FlushEndIoForm(s0, error, now);
  }

  lemma EndFlushKeeps(s: State, error: bool, now: int)
    requires Inv(s) && Settled(s) && FlushRq in s.driver
    requires forall id :: id in s.queues[s.runningIdx] ==> id in s.rqs
    ensures Inv(FlushEndIo(FlushBack(s), error, now)) && Settled(FlushEndIo(FlushBack(s), error, now))
    ensures s.log <= FlushEndIo(FlushBack(s), error, now).log
  {
    FlushBackReturns(s);
    FlushEndIoKeeps(s, FlushBack(s), error, now);
    FlushEndIoSettles(s, FlushBack(s), error, now);
  }

  lemma ApplyKeeps(s: State, op: Op)
    requires Inv(s) && Settled(s) && Enabled(s, op)
    ensures Inv(Apply(s, op)) && Settled(Apply(s, op))
  {
    hide Inv, Settled, InsertFlush, Fetch, Requeue, EndRequest, FlushEndIo, Abort;
    match op
    case Insert(id, devFlush, devFua, flush, fua, size, bio, now) =>
      InsertFlushKeeps(s, id, devFlush, devFua, flush, fua, size, bio, now);
      InsertSettles(s, id, devFlush, devFua, flush, fua, size, bio, now);
    case FetchNext(queueable, feed) =>
      FetchKeeps(s, queueable, feed);
    case PutBack(item) =>
      RequeueKeeps(s, item);
    case Partial(id, n, error) =>
      ProgressKeeps(s, id, n, error);
    case EndData(id, error, now) =>
      EndRequestKeeps(s, id, error, now);
      EndRequestSettles(s, id, error, now);
    case EndFlush(error, now) =>
      FlushBackReturns(s);
      EndFlushKeeps(s, error, now);
    case AbortQueue(now) =>
      AbortReady(s);
      AbortKeeps(s, now);
  }

  // ------------------------------------------------------------------
  // Runs

  /** A run: every operation is one its caller may make in the state it meets. */
  ghost predicate Valid(ops: seq<Op>)
    decreases |ops|, 0
  {
    ops == [] || (Valid(ops[..|ops| - 1]) && Enabled(Exec(ops[..|ops| - 1]), ops[|ops| - 1]))
  }

  /** The state a run leads to. Every reachable state satisfies the invariant. */
  ghost function Exec(ops: seq<Op>): (s: State)
    requires Valid(ops)
    ensures Inv(s) && Settled(s)
    decreases |ops|, 1
  {
    if ops == [] then INIT
    else
      var s := Exec(ops[..|ops| - 1]);
      ApplyKeeps(s, ops[|ops| - 1]);
      Apply(s, ops[|ops| - 1])
  }
}

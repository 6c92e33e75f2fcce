/** How long a request can be kept waiting for a flush to be issued, and when the queue is run. */
module FlushPrompt {
  import opened Lists
  import opened FlushProtocol
  import opened FlushInvariant
  import opened FlushSteps
  import opened FlushRuns
  import opened FlushProgress
  import opened FlushFlags

  // ------------------------------------------------------------------
  // flush_pending_since

  /** No request on the pending list was put there before flush_pending_since, or after t. */
  predicate Timely(s: State, t: int) {
    forall id :: id in Pending(s) ==> id in s.queuedAt && s.pendingSince <= s.queuedAt[id] <= t
  }

  lemma TimelyFrame(s: State, s': State, t: int)
    requires Timely(s, t) && s'.queues == s.queues && s'.pendingIdx == s.pendingIdx
    requires s'.pendingSince == s.pendingSince && s'.queuedAt == s.queuedAt
    ensures Timely(s', t)
  {
  }

  lemma EndPlainTimes(s: State, id: RqId, error: bool)
    requires id in s.rqs
    ensures
      var s' := EndPlain(s, id, error);
      && s'.queues == s.queues && s'.pendingIdx == s.pendingIdx && s'.runningIdx == s.runningIdx
      && s'.pendingSince == s.pendingSince && s'.queuedAt == s.queuedAt
  {
  }

  /** What the next step of a request does to the waiting ones. */
  lemma AdvanceTimes(s: State, id: RqId, steps: Steps, error: bool, now: int)
    requires id in s.rqs
    ensures
      var s', u := Advance(s, id, steps, error, now), Unlink(s, id).queues;
      && s'.pendingIdx == s.pendingIdx && s'.runningIdx == s.runningIdx
      && (|| (&& s'.queues == u[s.pendingIdx := u[s.pendingIdx] + [id]]
              && s'.queuedAt == s.queuedAt[id := now]
              && s'.pendingSince == (if Pending(s) == [] then now else s.pendingSince))
          || (s'.queues == u && s'.queuedAt == s.queuedAt && s'.pendingSince == s.pendingSince))
  {
    hide EndPlain, Unlink;
    var rq := s.rqs[id];
    var s1 := s.(rqs := s.rqs[id := rq.(fseq := rq.fseq.Union(steps))], bug := s.bug || rq.fseq.Overlaps(steps));
    UnlinkTimes(s, s1, id);
    match (if error then Done else CurSeq(rq.fseq.Union(steps))) {
      case Data =>
      case Done =>
        EndPlainTimes(Unlink(s1, id).(rqs := s1.rqs[id := Restore(s1.rqs[id])], bug := s1.bug || Req(id) in s1.head),
                      id, error);
      case _ =>
    }
  }

  lemma UnlinkTimes(s: State, s1: State, id: RqId)
    requires s1.queues == s.queues
    ensures
      var u := Unlink(s1, id);
      && u.queues == Unlink(s, id).queues && u.queuedAt == s1.queuedAt && u.pendingSince == s1.pendingSince
      && u.pendingIdx == s1.pendingIdx && u.runningIdx == s1.runningIdx
  {
  }

  /** A request that is on no list joins the pending one, or none. */
  lemma AdvanceTimely(s: State, id: RqId, steps: Steps, error: bool, now: int)
    requires id in s.rqs && Timely(s, now) && id !in Pending(s)
    ensures Timely(Advance(s, id, steps, error, now), now)
  {
    hide Advance;
    AdvanceTimes(s, id, steps, error, now);
    UnlinkAbsent(s, id, s.pendingIdx);
    if Pending(s) != [] {
      assert Pending(s)[0] in Pending(s);
    }
  }

  lemma KickTimely(s: State, now: int)
    requires Timely(s, now) && Aside(s)
    ensures Timely(KickFlush(s, now).0, now)
  {
  }

  lemma CompleteTimely(s: State, id: RqId, steps: Steps, error: bool, now: int)
    requires id in s.rqs && Timely(s, now) && !OnQueue(s, id) && Aside(s)
    ensures Timely(CompleteSeq(s, id, steps, error, now).0, now)
  {
    hide Advance, KickFlush, Timely;
    AdvanceTimely(s, id, steps, error, now);
    AdvanceIndices(s, id, steps, error, now);
    AdvanceJoins(s, id, steps, error, now);
    KickTimely(Advance(s, id, steps, error, now), now);
  }

  // ------------------------------------------------------------------
  // The loop of flush_end_io

  /** Within the loop over list w: the pending list is the other one and in good time, or the loop has
      made w the pending list, whose first waiters are yet to be pushed on. */
  predicate InTime(s: State, w: Index, now: int) {
    w == Flip(s.runningIdx) && if s.pendingIdx == w then s.pendingSince <= now else Timely(s, now)
  }

  lemma KickInTime(s: State, w: Index, now: int)
    requires InTime(s, w, now)
    ensures InTime(KickFlush(s, now).0, w, now)
  {
    if Pending(s) != [] {
      assert Pending(s)[0] in Pending(s);
    }
  }

  lemma PushNextInTime(s: State, w: Index, error: bool, now: int)
    requires InTime(s, w, now) && s.queues[w] != [] && s.queues[w][0] in s.rqs
    requires s.queues[w][0] !in s.queues[Flip(w)]
    ensures
      var id := s.queues[w][0];
      var s' := PushNext(s, id, error, now).0;
      InTime(s', w, now) && (s'.queues[w] == [id] && |s.queues[w]| == 1 ==> id in s'.queuedAt && s'.queuedAt[id] == now)
  {
    hide Advance, KickFlush, Unlink;
    var id := s.queues[w][0];
    var cur := CurSeq(s.rqs[id].fseq);
    var s0 := s.(bug := s.bug || (cur != Preflush && cur != Postflush));
    var a := Advance(s0, id, Mask(cur), error, now);
    AdvanceTimes(s0, id, Mask(cur), error, now);
    UnlinkFirst(s0, w);
    if s.pendingIdx != w {
      AdvanceTimely(s0, id, Mask(cur), error, now);
    }
    KickInTime(a, w, now);
    KickTimes(a, now);
  }

  lemma KickTimes(s: State, now: int)
    ensures
      var s' := KickFlush(s, now).0;
      s'.queues == s.queues && s'.queuedAt == s.queuedAt && s'.pendingSince == s.pendingSince
  {
  }

  lemma {:induction false} PushAllTimely(s: State, w: Index, error: bool, now: int)
    requires Walking(s, w, error) && InTime(s, w, now)
    ensures Timely(PushAll(s, w, error, now).0, now)
    decreases Work(s.rqs, s.queues[w])
  {
    hide Inv, RqOk, Answered, SameFor, PushNext, Work, Timely, InTime;
    if s.queues[w] == [] {
      NobodyLeft(s, w, now);
    } else {
      var s1 := PushNext(s, s.queues[w][0], error, now).0;
      WalkOn(s, w, error, now);
      OneList(s, w);
      PushNextInTime(s, w, error, now);
      PushedOn(s, w, error, now);
      PushShrinks(s, w, error, now);
      if |s.queues[w]| > 1 {
        PushAllTimely(s1, w, error, now);
        assert PushAll(s, w, error, now).0 == PushAll(s1, w, error, now).0;
      } else {
        assert s.queues[w][1..] == [] && [] + [s.queues[w][0]] == [s.queues[w][0]];
        if s1.queues[w] == [] {
          NobodyLeft(s1, w, now);
        } else {
          OneLeft(s1, w, s.queues[w][0], now);
        }
      }
    }
  }

  lemma NobodyLeft(s: State, w: Index, now: int)
    requires InTime(s, w, now) && s.queues[w] == []
    ensures Timely(s, now)
  {
  }

  lemma OneLeft(s: State, w: Index, id: RqId, now: int)
    requires InTime(s, w, now) && s.queues[w] == [id] && id in s.queuedAt && s.queuedAt[id] == now
    ensures Timely(s, now)
  {
  }

  lemma EndFlushTimely(s: State, error: bool, now: int)
    requires Inv(s) && FlushRq in s.driver && Timely(s, now)
    requires forall id :: id in s.queues[s.runningIdx] ==> id in s.rqs
    ensures Timely(FlushEndIo(FlushBack(s), error, now), now)
  {
    hide Inv, Walking, FlushEndIo, PushAll;
    var w := s.runningIdx;
    var s1 := FlushAccounted(FlushBack(s), error);
    WalkStarts(s, error);
    Known(s1, w, error);
    PushAllTimely(s1, w, error, now);
    FlushEndIoForm(FlushBack(s), error, now);
  }

  // ------------------------------------------------------------------
  // Every step, and every run

  /** The operations that read the clock. */
  predicate Timed(op: Op) {
    op.Insert? || op.EndData? || op.EndFlush? || op.AbortQueue?
  }

  lemma ArrivedTimes(s: State, id: RqId, r: Rq)
    ensures
      var s' := Arrived(s, id, r);
      && id in s'.rqs && s'.queues == s.queues && s'.pendingIdx == s.pendingIdx && s'.runningIdx == s.runningIdx
      && s'.pendingSince == s.pendingSince && s'.queuedAt == s.queuedAt
  {
  }

  lemma InsertTimely(s: State, op: Op)
    requires op.Insert? && Timely(s, op.now) && !OnQueue(s, op.id) && Aside(s)
    ensures Timely(InsertFlush(s, op.id, op.devFlush, op.devFua, op.flush, op.fua, op.size, op.bio, op.now), op.now)
  {
    hide InsertFlush, CompleteSeq, EndPlain, Timely, Policy, Arrived;
    InsertFlushForm(s, op.id, op.devFlush, op.devFua, op.flush, op.fua, op.size, op.bio, op.now);
    var policy := Policy(op.devFlush, op.devFua, op.flush, op.fua, op.size > 0);
    var r := Rq(policy, Steps(false, false, false), false, op.fua && op.devFua, op.bio, op.bio, op.size, true, false);
    var s1, s2 := Arrived(s, op.id, r), Arrived(s, op.id, r.(sequenced := true));
    ArrivedTimes(s, op.id, r);
    ArrivedTimes(s, op.id, r.(sequenced := true));
    if policy.IsEmpty() {
      EndPlainTimes(s1, op.id, false);
      TimelyFrame(s, EndPlain(s1, op.id, false), op.now);
    } else if policy.data && !policy.pre && !policy.post {
      TimelyFrame(s, s1.(head := s1.head + [Req(op.id)]), op.now);
    } else {
      TimelyFrame(s, s2, op.now);
      CompleteTimely(s2, op.id, policy.Complement(), false, op.now);
    }
  }

  lemma EndDataTimely(s: State, id: RqId, error: bool, now: int)
    requires id in s.rqs && !OnQueue(s, id) && Timely(s, now) && Aside(s)
    ensures Timely(EndRequest(s, id, error, now), now)
  {
    hide CompleteSeq, EndPlain, EndRequest, Timely;
    var d := DataReturned(s, id, error);
    TimelyFrame(s, d, now);
    if s.rqs[id].sequenced {
      EndSequencedForm(s, id, error, now);
      var (s1, queued) := CompleteSeq(d, id, Mask(Data), error, now);
      CompleteTimely(d, id, Mask(Data), error, now);
      TimelyFrame(s1, EndRequest(s, id, error, now), now);
    } else {
      EndOrdinaryForm(s, id, error, now);
      EndPlainTimes(d, id, error);
      TimelyFrame(d, EndPlain(d, id, error), now);
    }
  }

  lemma StepTimely(s: State, op: Op, t: int)
    requires Inv(s) && Settled(s) && Enabled(s, op) && Orderly(s) && Timely(s, t) && (Timed(op) ==> op.now == t)
    ensures Timely(Apply(s, op), t)
  {
    hide Inv, Settled, InsertFlush, EndRequest, FlushEndIo, Abort, Timely;
    match op
    case Insert(id, _, _, _, _, _, _, now) =>
      NotKnown(s, id);
      InsertTimely(s, op);
    case FetchNext(queueable, feed) =>
      FetchFrame(s, queueable, feed);
      TimelyFrame(s, Fetch(s, queueable, feed), t);
    case PutBack(item) =>
      TimelyFrame(s, Requeue(s, item), t);
    case Partial(id, n, error) =>
      TimelyFrame(s, Progress(s, id, n, error), t);
    case EndData(id, error, now) =>
      NotQueued(s, id);
      EndDataTimely(s, id, error, now);
    case EndFlush(error, now) =>
      FlushBackReturns(s);
      EndFlushTimely(s, error, now);
    case AbortQueue(now) =>
      AbortReady(s);
      AbortTurns(s, now);
      NobodyWaits(Apply(s, op), t);
  }

  lemma NobodyWaits(s: State, t: int)
    requires s.queues == [[], []]
    ensures Timely(s, t)
  {
  }

  /** The clock does not go back, and has not passed t. */
  predicate Ticking(ops: seq<Op>, t: int) {
    && (forall i :: 0 <= i < |ops| && Timed(ops[i]) ==> ops[i].now <= t)
    && (forall i, j :: 0 <= i < j < |ops| && Timed(ops[i]) && Timed(ops[j]) ==> ops[i].now <= ops[j].now)
  }

  lemma TimelyLater(s: State, t: int, t': int)
    requires Timely(s, t) && t <= t'
    ensures Timely(s, t')
  {
  }

  lemma {:induction false} RunsTimely(ops: seq<Op>, t: int)
    requires Valid(ops) && Ticking(ops, t)
    ensures Timely(Exec(ops), t)
    decreases |ops|
  {
    hide Apply, Enabled, Inv, Settled, Orderly, Timely;
    if ops == [] {
      NobodyWaits(INIT, t);
    } else {
      var n := |ops| - 1;
      var t' := if Timed(ops[n]) then ops[n].now else t;
      RunsTimely(ops[..n], t');
      RunsOrderly(ops[..n]);
      StepTimely(Exec(ops[..n]), ops[n], t');
      TimelyLater(Exec(ops), t', t);
    }
  }

  // ------------------------------------------------------------------
  // The wait for a flush

  /** Whoever waits for a flush to be issued waits for one in flight, or for data under way and not for
      longer than the timeout. */
  predicate Prompt(s: State, now: int) {
    forall id :: id in Pending(s) ==>
      InFlight(s) || (s.data != [] && id in s.queuedAt && now < s.queuedAt[id] + FLUSH_PENDING_TIMEOUT)
  }

  /** What blk_kick_flush leaves behind. */
  predicate Kicked(s: State, now: int) {
    Pending(s) == [] || InFlight(s) || (s.data != [] && now < s.pendingSince + FLUSH_PENDING_TIMEOUT)
  }

  lemma KickedPrompt(s: State, now: int)
    requires Kicked(s, now) && Timely(s, now)
    ensures Prompt(s, now)
  {
  }

  lemma CompleteKicks(s: State, id: RqId, steps: Steps, error: bool, now: int)
    requires id in s.rqs
    ensures Kicked(CompleteSeq(s, id, steps, error, now).0, now)
  {
    hide Advance;
  }

  lemma {:induction false} PushAllKicks(s: State, w: Index, error: bool, now: int)
    requires s.queues[w] != [] && forall id :: id in s.queues[w] ==> id in s.rqs
    ensures Kicked(PushAll(s, w, error, now).0, now)
    decreases Work(s.rqs, s.queues[w])
  {
    hide CompleteSeq, Work, Kicked;
    var id := s.queues[w][0];
    var cur := CurSeq(s.rqs[id].fseq);
    CompleteKicks(s.(bug := s.bug || (cur != Preflush && cur != Postflush)), id, Mask(cur), error, now);
    var s1 := PushNext(s, id, error, now).0;
    hide PushNext;
    PushedOn(s, w, error, now);
    PushShrinks(s, w, error, now);
    if |s.queues[w]| > 1 {
      PushAllKicks(s1, w, error, now);
      assert PushAll(s, w, error, now).0 == PushAll(s1, w, error, now).0;
    }
  }

  /** The operations that move a request of the flush sequence on. */
  predicate Moves(s: State, op: Op) {
    || (op.Insert? && (WantsFirst(op) || WantsAfter(op)))
    || (op.EndData? && op.id in s.rqs && s.rqs[op.id].sequenced)
    || (op.EndFlush? && !Hollow(s))
  }

  lemma MoveKicks(s: State, op: Op)
    requires Inv(s) && Enabled(s, op) && Moves(s, op)
    ensures Kicked(Apply(s, op), op.now)
  {
    hide Inv, InsertFlush, EndRequest, FlushEndIo, CompleteSeq, PushAll, Kicked;
    match op {
      case Insert(id, devFlush, devFua, flush, fua, size, bio, now) =>
        InsertFlushForm(s, id, devFlush, devFua, flush, fua, size, bio, now);
        var policy := Policy(devFlush, devFua, flush, fua, size > 0);
        var r := Rq(policy, Steps(false, false, false), true, fua && devFua, bio, bio, size, true, false);
        CompleteKicks(Arrived(s, id, r), id, policy.Complement(), false, now);
      case EndData(id, error, now) =>
        EndSequencedForm(s, id, error, now);
        CompleteKicks(DataReturned(s, id, error), id, Mask(Data), error, now);
        RunKicked(CompleteSeq(DataReturned(s, id, error), id, Mask(Data), error, now).0, now);
      case EndFlush(error, now) =>
        FlushBackReturns(s);
        EndFlushKicks(s, error, now);
    }
  }

  lemma RunKicked(s: State, now: int)
    requires Kicked(s, now)
    ensures Kicked(Log(s, RunQueue), now) && forall queued :: Kicked(LoopDone(s, queued), now)
  {
  }

  lemma EndFlushKicks(s: State, error: bool, now: int)
    requires Inv(s) && FlushRq in s.driver && !Hollow(s)
    requires forall id :: id in s.queues[s.runningIdx] ==> id in s.rqs
    ensures Kicked(FlushEndIo(FlushBack(s), error, now), now)
  {
    hide FlushEndIo, PushAll, RqOk, ListsOk, AllHonest, Kicked;
    var s1 := FlushAccounted(FlushBack(s), error);
    PushAllKicks(s1, s.runningIdx, error, now);
    FlushEndIoForm(FlushBack(s), error, now);
    RunKicked(PushAll(s1, s.runningIdx, error, now).0, now);
  }

  /** Conditions C1 to C3, over every run in which the clock does not go back: whenever a request of the
      flush sequence is moved on, everybody who still waits for a flush to be issued either waits for the
      one in flight, or has waited for less than the timeout while data is under way. */
  lemma WaitsNoLonger(ops: seq<Op>, op: Op)
    requires Valid(ops) && Enabled(Exec(ops), op) && Moves(Exec(ops), op) && Ticking(ops, op.now)
    ensures Prompt(Apply(Exec(ops), op), op.now)
  {
    hide Apply, Enabled, Inv, Settled, Orderly, Timely, Kicked, Moves, Prompt;
    MoveIsTimed(Exec(ops), op);
    RunsTimely(ops, op.now);
    RunsOrderly(ops);
    StepTimely(Exec(ops), op, op.now);
    MoveKicks(Exec(ops), op);
    KickedPrompt(Apply(Exec(ops), op), op.now);
  }

  lemma MoveIsTimed(s: State, op: Op)
    requires Moves(s, op)
    ensures Timed(op)
  {
  }

  // ------------------------------------------------------------------
  // Running the queue

  /** Something has been put on the dispatch queue. */
  predicate Feeds(e: Event) {
    e.DataQueued? || e.FlushIssued?
  }

  predicate Fed(log: seq<Event>, from: nat) {
    exists i :: from <= i < |log| && Feeds(log[i])
  }

  predicate Unrun(log: seq<Event>, from: nat) {
    forall i :: from <= i < |log| ==> log[i] != RunQueue
  }

  /** The log has grown without a run of the queue, and shows whether the dispatch queue was fed. */
  predicate Grown(log: seq<Event>, log': seq<Event>, fed: bool) {
    log <= log' && Unrun(log', |log|) && (fed <==> Fed(log', |log|))
  }

  lemma GrownThen(a: seq<Event>, b: seq<Event>, c: seq<Event>, f: bool, g: bool)
    requires Grown(a, b, f) && Grown(b, c, g)
    ensures Grown(a, c, f || g)
  {
    if f {
      var i :| |a| <= i < |b| && Feeds(b[i]);
      assert c[i] == b[i];
    }
    forall i | |a| <= i < |c| ensures c[i] != RunQueue && (Feeds(c[i]) ==> f || g) {
      if i < |b| {
        assert c[i] == b[i];
      }
    }
  }

  lemma EndPlainGrows(s: State, id: RqId, error: bool)
    requires id in s.rqs
    ensures Grown(s.log, EndPlain(s, id, error).log, false)
  {
  }

  lemma QueueDataGrows(s: State, id: RqId)
    ensures Grown(s.log, QueueData(s, id).log, true)
  {
    assert QueueData(s, id).log[|s.log|] == DataQueued(id);
  }

  lemma QueueForFlushGrows(s: State, id: RqId, now: int)
    ensures Grown(s.log, QueueForFlush(s, id, now).log, false)
  {
    assert QueueForFlush(s, id, now).log == s.log;
  }

  lemma EndSequenceGrows(s: State, id: RqId, error: bool)
    requires id in s.rqs
    ensures Grown(s.log, EndSequence(s, id, error).log, false)
  {
    hide EndPlain, Grown;
    EndPlainGrows(Unlink(s, id).(rqs := s.rqs[id := Restore(s.rqs[id])], bug := s.bug || Req(id) in s.head), id, error);
  }

  lemma AdvanceGrows(s: State, id: RqId, steps: Steps, error: bool, now: int)
    requires id in s.rqs
    ensures Grown(s.log, Advance(s, id, steps, error, now).log, !error && CurSeq(s.rqs[id].fseq.Union(steps)) == Data)
  {
    hide QueueData, QueueForFlush, EndSequence, Grown;
    var rq := s.rqs[id];
    var s1 := s.(rqs := s.rqs[id := rq.(fseq := rq.fseq.Union(steps))], bug := s.bug || rq.fseq.Overlaps(steps));
    match (if error then Done else CurSeq(rq.fseq.Union(steps))) {
      case Data => QueueDataGrows(s1, id);
      case Done => EndSequenceGrows(s1, id, error);
      case _ => QueueForFlushGrows(s1, id, now);
    }
  }

  lemma KickGrows(s: State, now: int)
    ensures Grown(s.log, KickFlush(s, now).0.log, KickFlush(s, now).1)
  {
    var (s', kicked) := KickFlush(s, now);
    if kicked {
      assert s'.log[|s.log|] == FlushIssued(s.flushes);
    }
  }

  lemma CompleteGrows(s: State, id: RqId, steps: Steps, error: bool, now: int)
    requires id in s.rqs
    ensures
      var (s', queued) := CompleteSeq(s, id, steps, error, now);
      Grown(s.log, s'.log, queued)
  {
    hide Advance, KickFlush, Grown;
    var a := Advance(s, id, steps, error, now);
    var data := !error && CurSeq(s.rqs[id].fseq.Union(steps)) == Data;
    AdvanceGrows(s, id, steps, error, now);
    KickGrows(a, now);
    GrownThen(s.log, a.log, KickFlush(a, now).0.log, data, KickFlush(a, now).1);
  }

  lemma PushNextGrows(s: State, id: RqId, error: bool, now: int)
    requires id in s.rqs
    ensures
      var (s', queued) := PushNext(s, id, error, now);
      Grown(s.log, s'.log, queued)
  {
    hide CompleteSeq, Grown;
    var cur := CurSeq(s.rqs[id].fseq);
    CompleteGrows(s.(bug := s.bug || (cur != Preflush && cur != Postflush)), id, Mask(cur), error, now);
  }

  lemma {:induction false} PushAllGrows(s: State, w: Index, error: bool, now: int)
    requires forall id :: id in s.queues[w] ==> id in s.rqs
    ensures
      var (s', queued) := PushAll(s, w, error, now);
      Grown(s.log, s'.log, queued)
    decreases Work(s.rqs, s.queues[w])
  {
    hide PushNext, Work;
    if s.queues[w] != [] {
      var (s1, q1) := PushNext(s, s.queues[w][0], error, now);
      PushNextGrows(s, s.queues[w][0], error, now);
      PushShrinks(s, w, error, now);
      if |s.queues[w]| > 1 {
        PushAllGrows(s1, w, error, now);
        var (s2, q2) := PushAll(s1, w, error, now);
        assert PushAll(s, w, error, now) == (s2, q1 || q2);
        GrownThen(s.log, s1.log, s2.log, q1, q2);
      }
    }
  }

  /** The log from `from` on: a run of the queue comes last if it is called for, and nowhere else. */
  predicate RunLast(log: seq<Event>, from: nat, run: bool) {
    && (run ==> from < |log| && log[|log| - 1] == RunQueue && Unrun(log[..|log| - 1], from))
    && (!run ==> Unrun(log, from))
  }

  lemma EndFlushRuns(s: State, error: bool, now: int)
    requires forall id :: id in s.queues[s.runningIdx] ==> id in s.rqs
    ensures
      var s' := FlushEndIo(s, error, now);
      RunLast(s'.log, |s.log|, Fed(s'.log, |s.log|) || s.delayed)
  {
    hide PushAll, FlushEndIo;
    var s1 := FlushAccounted(s, error);
    var (s2, queued) := PushAll(s1, s.runningIdx, error, now);
    PushAllGrows(s1, s.runningIdx, error, now);
    PushAllDelayed(s1, s.runningIdx, error, now);
    AccountGrows(s, error);
    GrownThen(s.log, s1.log, s2.log, false, queued);
    FlushEndIoForm(s, error, now);
    RunAppended(s.log, s2.log, queued, queued || s.delayed);
  }

  lemma AccountGrows(s: State, error: bool)
    ensures Grown(s.log, FlushAccounted(s, error).log, false)
  {
  }

  lemma RunAppended(log: seq<Event>, log': seq<Event>, fed: bool, run: bool)
    requires Grown(log, log', fed)
    ensures
      var after := if run then log' + [RunQueue] else log';
      RunLast(after, |log|, run) && (Fed(after, |log|) <==> fed)
  {
    var after := log' + [RunQueue];
    assert after[..|log'|] == log';
    if fed {
      var i :| |log| <= i < |log'| && Feeds(log'[i]);
      assert after[i] == log'[i];
    }
  }

  lemma EndDataRuns(s: State, id: RqId, error: bool, now: int)
    requires id in s.rqs
    ensures
      var s' := EndRequest(s, id, error, now);
      RunLast(s'.log, |s.log|, Fed(s'.log, |s.log|))
  {
    hide CompleteSeq, EndPlain, EndRequest;
    var d := DataReturned(s, id, error);
    assert Grown(s.log, d.log, false);
    if s.rqs[id].sequenced {
      EndSequencedForm(s, id, error, now);
      var (s1, queued) := CompleteSeq(d, id, Mask(Data), error, now);
      CompleteGrows(d, id, Mask(Data), error, now);
      GrownThen(s.log, d.log, s1.log, false, queued);
      RunAppended(s.log, s1.log, queued, queued);
    } else {
      EndOrdinaryForm(s, id, error, now);
      EndPlainGrows(d, id, error);
      GrownThen(s.log, d.log, EndPlain(d, id, error).log, false, false);
    }
  }

  /** A completion that puts data or a flush on the dispatch queue runs the queue when it is done, and
      so does the completion of a flush that the queue was held for; no other completion does. */
  lemma QueueRunsWhenFed(s: State, op: Op)
    requires Inv(s) && Enabled(s, op) && (op.EndData? || op.EndFlush?)
    ensures
      var s' := Apply(s, op);
      RunLast(s'.log, |s.log|, Fed(s'.log, |s.log|) || (op.EndFlush? && s.delayed))
  {
    hide EndRequest, FlushEndIo, RunLast, Fed, Inv;
    if op.EndData? {
      EndDataRuns(s, op.id, op.error, op.now);
    } else {
      FlushBackReturns(s);
      EndFlushRuns(FlushBack(s), op.error, op.now);
    }
  }
}

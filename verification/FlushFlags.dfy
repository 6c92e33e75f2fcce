/** The promises of the flush sequencer in terms of what a request asked for and what the drive can
    do, as they were when the request was inserted. */
module FlushFlags {
  import opened Lists
  import opened FlushProtocol
  import opened FlushInvariant
  import opened FlushSteps
  import opened FlushRuns
  import opened FlushTheorems

  // ------------------------------------------------------------------
  // What a later state remembers of an earlier one

  /** The log has only grown, and no request has been forgotten or had its REQ_FUA bit changed. */
  ghost predicate Follows(s: State, s': State) {
    s.log <= s'.log && forall id :: id in s.rqs ==> id in s'.rqs && s'.rqs[id].fua == s.rqs[id].fua
  }

  lemma FollowsThen(a: State, b: State, c: State)
    requires Follows(a, b) && Follows(b, c)
    ensures Follows(a, c)
  {
  }

  lemma EndPlainFollows(s: State, id: RqId, error: bool)
    requires id in s.rqs
    ensures Follows(s, EndPlain(s, id, error))
  {
  }

  lemma QueueDataFollows(s: State, id: RqId)
    ensures Follows(s, QueueData(s, id))
  {
  }

  lemma QueueForFlushFollows(s: State, id: RqId, now: int)
    ensures Follows(s, QueueForFlush(s, id, now))
  {
  }

  lemma EndSequenceFollows(s: State, id: RqId, error: bool)
    requires id in s.rqs
    ensures Follows(s, EndSequence(s, id, error))
  {
    hide EndPlain;
    var s1 := Unlink(s, id).(rqs := s.rqs[id := Restore(s.rqs[id])], bug := s.bug || Req(id) in s.head);
    EndPlainFollows(s1, id, error);
  }

  lemma AdvanceFollows(s: State, id: RqId, steps: Steps, error: bool, now: int)
    requires id in s.rqs
    ensures Follows(s, Advance(s, id, steps, error, now))
  {
    hide QueueData, QueueForFlush, EndSequence;
    var rq := s.rqs[id];
    var s1 := s.(rqs := s.rqs[id := rq.(fseq := rq.fseq.Union(steps))], bug := s.bug || rq.fseq.Overlaps(steps));
    match (if error then Done else CurSeq(rq.fseq.Union(steps))) {
      case Data => QueueDataFollows(s1, id);
      case Done => EndSequenceFollows(s1, id, error);
      case _ => QueueForFlushFollows(s1, id, now);
    }
  }

  lemma CompleteFollows(s: State, id: RqId, steps: Steps, error: bool, now: int)
    requires id in s.rqs
    ensures Follows(s, CompleteSeq(s, id, steps, error, now).0)
  {
    hide Advance;
    AdvanceFollows(s, id, steps, error, now);
  }

  lemma PushNextFollows(s: State, id: RqId, error: bool, now: int)
    requires id in s.rqs
    ensures Follows(s, PushNext(s, id, error, now).0)
  {
    hide CompleteSeq;
    var cur := CurSeq(s.rqs[id].fseq);
    CompleteFollows(s.(bug := s.bug || (cur != Preflush && cur != Postflush)), id, Mask(cur), error, now);
  }

  lemma {:induction false} PushAllFollows(s: State, w: Index, error: bool, now: int)
    requires forall id :: id in s.queues[w] ==> id in s.rqs
    ensures Follows(s, PushAll(s, w, error, now).0)
    decreases Work(s.rqs, s.queues[w])
  {
    hide PushNext, Work, Follows;
    FollowsSelf(s);
    if s.queues[w] != [] {
      var s1 := PushNext(s, s.queues[w][0], error, now).0;
      PushNextFollows(s, s.queues[w][0], error, now);
      PushShrinks(s, w, error, now);
      if |s.queues[w]| > 1 {
        PushAllFollows(s1, w, error, now);
        assert PushAll(s, w, error, now).0 == PushAll(s1, w, error, now).0;
        FollowsThen(s, s1, PushAll(s1, w, error, now).0);
      }
    }
  }

  lemma FollowsSelf(s: State)
    ensures Follows(s, s)
  {
  }

  lemma FlushEndIoFollows(s: State, error: bool, now: int)
    requires forall id :: id in s.queues[s.runningIdx] ==> id in s.rqs
    ensures Follows(s, FlushEndIo(s, error, now))
  {
    hide PushAll;
    PushAllFollows(FlushAccounted(s, error), s.runningIdx, error, now);
    FlushEndIoForm(s, error, now);
  }

  lemma EndRequestFollows(s: State, id: RqId, error: bool, now: int)
    requires id in s.rqs
    ensures Follows(s, EndRequest(s, id, error, now))
  {
    hide EndPlain, CompleteSeq, EndRequest;
    var d := DataReturned(s, id, error);
    if s.rqs[id].sequenced {
      EndSequencedForm(s, id, error, now);
      CompleteFollows(d, id, Mask(Data), error, now);
    } else {
      EndOrdinaryForm(s, id, error, now);
      EndPlainFollows(d, id, error);
    }
  }

  lemma ArrivedFollows(s: State, id: RqId, r: Rq, s': State)
    requires id !in s.rqs && Follows(Arrived(s, id, r), s')
    ensures Follows(s, s') && id in s'.rqs && s'.rqs[id].fua == r.fua
    ensures |s.log| < |s'.log| && s'.log[|s.log|] == Inserted(id, r.policy, r.biotail)
  {
    assert Arrived(s, id, r).log[|s.log|] == Inserted(id, r.policy, r.biotail);
  }

  lemma InsertFollows(s: State, op: Op)
    requires op.Insert? && op.id !in s.rqs
    ensures
      var s' := InsertFlush(s, op.id, op.devFlush, op.devFua, op.flush, op.fua, op.size, op.bio, op.now);
      && Follows(s, s') && op.id in s'.rqs && s'.rqs[op.id].fua == (op.fua && op.devFua)
      && |s.log| < |s'.log|
      && s'.log[|s.log|] == Inserted(op.id, Policy(op.devFlush, op.devFua, op.flush, op.fua, op.size > 0), op.bio)
  {
    hide EndPlain, CompleteSeq, InsertFlush, Policy, Follows, Arrived;
    InsertFlushForm(s, op.id, op.devFlush, op.devFua, op.flush, op.fua, op.size, op.bio, op.now);
    var s' := InsertFlush(s, op.id, op.devFlush, op.devFua, op.flush, op.fua, op.size, op.bio, op.now);
    var policy := Policy(op.devFlush, op.devFua, op.flush, op.fua, op.size > 0);
    var r := Rq(policy, Steps(false, false, false), false, op.fua && op.devFua, op.bio, op.bio, op.size, true, false);
    var s1, s2 := Arrived(s, op.id, r), Arrived(s, op.id, r.(sequenced := true));
    ArrivedKnown(s, op.id, r);
    ArrivedKnown(s, op.id, r.(sequenced := true));
    if policy.IsEmpty() {
      EndPlainFollows(s1, op.id, false);
      ArrivedFollows(s, op.id, r, s');
    } else if policy.data && !policy.pre && !policy.post {
      FollowsHead(s1, s');
      ArrivedFollows(s, op.id, r, s');
    } else {
      CompleteFollows(s2, op.id, policy.Complement(), false, op.now);
      ArrivedFollows(s, op.id, r.(sequenced := true), s');
    }
  }

  lemma ArrivedKnown(s: State, id: RqId, r: Rq)
    ensures id in Arrived(s, id, r).rqs
  {
  }

  lemma {:induction false} RestoreAllFollows(s: State)
    requires forall id :: id in s.data ==> id in s.rqs
    ensures Follows(s, RestoreAll(s))
    decreases |s.data|
  {
    if s.data != [] {
      assert s.data[0] in s.data;
      RestoreAllFollows(RestoreOne(s));
    }
  }

  lemma {:induction false} GiveAwayFollows(s: State, i: Index)
    requires forall id :: id in s.queues[i] ==> id in s.rqs
    ensures Follows(s, GiveAway(s, i))
    decreases |s.queues[i]|
  {
    if s.queues[i] != [] {
      assert s.queues[i][0] in s.queues[i];
      GiveAwayFollows(GiveOne(s, i), i);
    }
  }

  lemma {:induction false} FailAllFollows(s: State, now: int)
    requires forall id :: Req(id) in s.head ==> id in s.rqs
    requires s.queues == [[], []]
    ensures Follows(s, FailAll(s, now))
    decreases |s.head|
  {
    hide EndPlain, FlushEndIo, Follows;
    FollowsSelf(s);
    if s.head != [] {
      var s1 := s.(head := s.head[1..]);
      FollowsHead(s, s1);
      match s.head[0] {
        case Req(id) =>
          assert Req(id) in s.head;
          PopPlain(s1, id);
          EndPlainFollows(s1, id, true);
          FailAllFollows(EndPlain(s1, id, true), now);
          FollowsThen(s, s1, EndPlain(s1, id, true));
          FollowsThen(s, EndPlain(s1, id, true), FailAll(s, now));
        case FlushRq =>
          PopEmpty(s1, now);
          FlushEndIoFollows(s1, true, now);
          FailAllFollows(FlushEndIo(s1, true, now), now);
          FollowsThen(s, s1, FlushEndIo(s1, true, now));
          FollowsThen(s, FlushEndIo(s1, true, now), FailAll(s, now));
      }
    }
  }

  lemma FollowsHead(s: State, s': State)
    requires s'.log == s.log && s'.rqs == s.rqs
    ensures Follows(s, s')
  {
  }

  lemma AbortFollows(s: State, now: int)
    requires forall id :: id in s.data || id in s.queues[0] || id in s.queues[1] ==> id in s.rqs
    requires forall id :: Req(id) in s.head ==> id in s.rqs
    ensures Follows(s, Abort(s, now))
  {
    hide RestoreAll, GiveAway, FailAll, Follows;
    var s0 := Log(s, Aborted);
    LogFollows(s, Aborted);
    RestoreAllFollows(s0);
    var s1 := RestoreAll(s0);
    FollowsThen(s, s0, s1);
    GiveAwayFollows(s1, 0);
    var s2 := GiveAway(s1, 0);
    FollowsThen(s, s1, s2);
    GiveAwayFollows(s2, 1);
    var s3 := GiveAway(s2, 1);
    FollowsThen(s, s2, s3);
    FailAllFollows(s3, now);
    FollowsThen(s, s3, FailAll(s3, now));
  }

  lemma LogFollows(s: State, e: Event)
    ensures Follows(s, Log(s, e))
  {
  }

  lemma FetchFollows(s: State, queueable: bool, feed: Feed)
    requires feed.Ordinary? ==> feed.id !in s.rqs
    ensures Follows(s, Fetch(s, queueable, feed))
  {
  }

  lemma ProgressFollows(s: State, id: RqId, n: nat, error: bool)
    requires id in s.rqs && n < s.rqs[id].size
    ensures Follows(s, Progress(s, id, n, error))
  {
  }

  lemma ApplyFollows(s: State, op: Op)
    requires Inv(s) && Enabled(s, op)
    ensures Follows(s, Apply(s, op))
  {
    hide Inv, Follows, InsertFlush, Fetch, Progress, EndRequest, FlushEndIo, Abort;
    match op
    case Insert(_, _, _, _, _, _, _, _) => InsertFollows(s, op);
    case FetchNext(queueable, feed) => FetchFollows(s, queueable, feed);
    case PutBack(item) => FollowsHead(s, Requeue(s, item));
    case Partial(id, n, error) => ProgressFollows(s, id, n, error);
    case EndData(id, error, now) => EndRequestFollows(s, id, error, now);
    case EndFlush(error, now) =>
      FlushBackReturns(s);
      FlushEndIoFollows(FlushBack(s), error, now);
      FollowsHead(s, FlushBack(s));
      FollowsThen(s, FlushBack(s), Apply(s, op));
    case AbortQueue(now) =>
      AbortReady(s);
      AbortFollows(s, now);
  }

  lemma {:induction false} RunFollows(ops: seq<Op>, i: nat)
    requires Valid(ops) && i <= |ops|
    ensures Valid(ops[..i]) && Follows(Exec(ops[..i]), Exec(ops))
    decreases |ops|
  {
    hide Apply, Enabled, Inv, Follows;
    if i == |ops| {
      assert ops[..i] == ops;
      FollowsSelf(Exec(ops));
    } else {
      var n := |ops| - 1;
      RunFollows(ops[..n], i);
      assert ops[..n][..i] == ops[..i];
      ApplyFollows(Exec(ops[..n]), ops[n]);
      FollowsThen(Exec(ops[..i]), Exec(ops[..n]), Exec(ops));
    }
  }

  // ------------------------------------------------------------------
  // What was asked for

  /** Operation i of a run inserts a request. */
  ghost predicate Inserts(ops: seq<Op>, i: nat) {
    Valid(ops) && i < |ops| && ops[i].Insert?
  }

  /** Where the log of the run has the insertion. */
  ghost function Birth(ops: seq<Op>, i: nat): nat
    requires Inserts(ops, i)
  {
    RunFollows(ops, i);
    |Exec(ops[..i]).log|
  }

  /** The drive has a cache to flush and the request asks to have it flushed before its data. */
  predicate WantsFirst(op: Op)
    requires op.Insert?
  {
    op.devFlush && op.flush
  }

  /** The request asks to be on the medium when it is done, and only a flush can see to that. */
  predicate WantsAfter(op: Op)
    requires op.Insert?
  {
    op.devFlush && op.fua && !op.devFua
  }

  /** The log records what was asked for, and the request keeps its REQ_FUA bit exactly if the drive
      knows what to do with it. */
  lemma AskedFor(ops: seq<Op>, i: nat)
    requires Inserts(ops, i)
    ensures
      var op, a, s := ops[i], Birth(ops, i), Exec(ops);
      && a < |s.log|
      && s.log[a] == Inserted(op.id, Steps(WantsFirst(op), op.size > 0, WantsAfter(op)), op.bio)
      && op.id in s.rqs
      && (s.rqs[op.id].fua <==> op.fua && op.devFua)
  {
    hide Inv, InsertFlush;
    var op := ops[i];
    RunFollows(ops, i);
    RunFollows(ops, i + 1);
    assert ops[..i + 1][..i] == ops[..i] && ops[..i + 1][i] == op;
    InsertFollows(Exec(ops[..i]), op);
  }

  // ------------------------------------------------------------------
  // Theorems

  /** A request that asks for a flush first, or has no data and asks to be on the medium, on a drive
      that needs flushes for that: before any of its data is handed to the driver or moves, and before
      success is reported, a flush issued after its insertion has completed without error. */
  lemma FlushGoesFirst(ops: seq<Op>, i: nat)
    requires Inserts(ops, i) && (WantsFirst(ops[i]) || (WantsAfter(ops[i]) && ops[i].size == 0))
    ensures
      var id, s, a := ops[i].id, Exec(ops), Birth(ops, i);
      && (Dispatched(s, id) ==> FlushedSince(s.log, a))
      && forall k :: 0 <= k < |s.log|
           && (s.log[k] == DataQueued(id) || (s.log[k].PartDone? && s.log[k].id == id)
               || (s.log[k].DataDone? && s.log[k].id == id) || s.log[k] == Notified(id, true))
           ==> FlushedSince(s.log[..k], a)
  {
    hide Exec, FlushedSince, PhaseOf;
    AskedFor(ops, i);
    var id, s, a := ops[i].id, Exec(ops), Birth(ops, i);
    LawfulLives(ops, id);
    DispatchedFlushed(s, id, a);
    forall k | 0 <= k < |s.log|
      && (s.log[k] == DataQueued(id) || (s.log[k].PartDone? && s.log[k].id == id)
          || (s.log[k].DataDone? && s.log[k].id == id) || s.log[k] == Notified(id, true))
      ensures FlushedSince(s.log[..k], a)
    {
      InsertionFirst(s.log, id, a, k);
      assert Honest(s.log, k) && s.log[..k][a] == s.log[a];
    }
  }

  lemma DispatchedFlushed(s: State, id: RqId, a: nat)
    requires Inv(s) && Settled(s) && a < |s.log| && s.log[a].Inserted? && s.log[a].id == id
    requires FlushFirst(s.log[a].policy) && PhaseOf(s.log, id) != Wrong
    ensures Dispatched(s, id) ==> FlushedSince(s.log, a)
  {
    if Dispatched(s, id) {
      assert RqOk(s, id);
      InsertedOnce(s.log, id, a);
    }
  }

  /** A request with data that asks to be on the medium, on a drive that needs a flush for that, is
      reported successful only after a flush issued after its data was done, unless an abort took it
      out of the sequence. */
  lemma FlushFollows(ops: seq<Op>, i: nat, k: nat)
    requires Inserts(ops, i) && WantsAfter(ops[i]) && ops[i].size > 0
    requires k < |Exec(ops).log| && Exec(ops).log[k] == Notified(ops[i].id, true)
    ensures
      var log, id := Exec(ops).log, ops[i].id;
      FlushAfterData(log, id, k) <==> Restored(id) !in log[..k]
  {
    hide Exec, FlushAfterData;
    AskedFor(ops, i);
    PostflushBeforeSuccess(ops, Birth(ops, i), k);
  }

  /** The driver sees REQ_FUA exactly if the request asked for it and the drive has it. */
  lemma FuaReachesDriver(ops: seq<Op>, i: nat)
    requires Inserts(ops, i) && Req(ops[i].id) in Exec(ops).driver
    ensures ops[i].id in Exec(ops).rqs && (Exec(ops).rqs[ops[i].id].fua <==> ops[i].fua && ops[i].devFua)
  {
    hide Exec;
    AskedFor(ops, i);
  }

  /** Success means that the data was written, if there is any; and without data nothing of a request
      ever reaches the dispatch queue. */
  lemma DataGoesOut(ops: seq<Op>, i: nat)
    requires Inserts(ops, i)
    ensures
      var op, s, a := ops[i], Exec(ops), Birth(ops, i);
      && (op.size == 0 ==> !Dispatched(s, op.id))
      && forall k :: 0 <= k < |s.log| && s.log[k] == Notified(op.id, true) && op.size > 0 ==>
           exists d :: a < d < k && s.log[d] == DataDone(op.id, true)
  {
    hide Exec, PhaseOf;
    AskedFor(ops, i);
    var id, s, a := ops[i].id, Exec(ops), Birth(ops, i);
    LawfulLives(ops, id);
    DispatchedWrites(s, id, a);
    forall k | 0 <= k < |s.log| && s.log[k] == Notified(id, true) && ops[i].size > 0
      ensures exists d :: a < d < k && s.log[d] == DataDone(id, true)
    {
      WrittenBefore(s.log, id, a, k);
    }
  }

  lemma DispatchedWrites(s: State, id: RqId, a: nat)
    requires Inv(s) && Settled(s) && a < |s.log| && s.log[a].Inserted? && s.log[a].id == id
    requires PhaseOf(s.log, id) != Wrong
    ensures Dispatched(s, id) ==> s.log[a].policy.data
  {
    if Dispatched(s, id) {
      assert RqOk(s, id);
      InsertedOnce(s.log, id, a);
      LooseWrites(s.log, id);
    }
  }

  lemma {:induction false} LooseWrites(log: seq<Event>, id: RqId)
    ensures PhaseOf(log, id).Writing? || PhaseOf(log, id).Loose? ==> PhaseOf(log, id).k.policy.data
  {
    if log != [] {
      LooseWrites(log[..|log| - 1], id);
    }
  }

  lemma WrittenBefore(log: seq<Event>, id: RqId, a: nat, k: nat)
    requires AllHonest(log) && PhaseOf(log, id) != Wrong
    requires a < |log| && log[a].Inserted? && log[a].id == id && log[a].policy.data
    requires k < |log| && log[k] == Notified(id, true)
    ensures exists d :: a < d < k && log[d] == DataDone(id, true)
  {
    InsertionFirst(log, id, a, k);
    var h := log[..k];
    assert Honest(log, k) && Deserved(h, id);
    PhaseForward(log, id, k);
    assert h[a] == log[a];
    PolicyOf(h, id, a);
    var d := GoodWrite(h, id);
    assert log[d] == h[d] == DataDone(id, true);
    InsertionFirst(log, id, a, d);
  }

  lemma {:induction false} GoodWrite(log: seq<Event>, id: RqId) returns (d: nat)
    requires PhaseOf(log, id).After? && PhaseOf(log, id).ok
    ensures d < |log| && log[d] == DataDone(id, true)
    decreases |log|
  {
    var n := |log| - 1;
    assert log == log[..n] + [log[n]];
    if About(log[n], id) {
      d := n;
    } else {
      d := GoodWrite(log[..n], id);
    }
  }

  // ------------------------------------------------------------------
  // Requests that need no flush

  /** Nobody in this run asks for a flush that the drive needs. */
  predicate NoneWanted(ops: seq<Op>) {
    forall i :: 0 <= i < |ops| && ops[i].Insert? ==> !WantsFirst(ops[i]) && !WantsAfter(ops[i])
  }

  function PlainRq(op: Op): Rq
    requires op.Insert?
  {
    Rq(Steps(false, op.size > 0, false), Steps(false, false, false), false, op.fua && op.devFua, op.bio, op.bio,
       op.size, true, false)
  }

  lemma PlainForm(s: State, op: Op)
    requires Inv(s) && Enabled(s, op) && op.Insert? && !WantsFirst(op) && !WantsAfter(op)
    ensures
      var s1 := Arrived(s, op.id, PlainRq(op));
      Apply(s, op) == if op.size == 0 then EndPlain(s1, op.id, false) else s1.(head := s1.head + [Req(op.id)])
  {
    hide Inv, CompleteSeq, EndPlain, InsertFlush, Arrived;
    InsertFlushForm(s, op.id, op.devFlush, op.devFua, op.flush, op.fua, op.size, op.bio, op.now);
  }

  /** A request that needs no flush is never sequenced. With data it goes to the tail of the dispatch
      queue at once; without, it has succeeded at once. */
  lemma StraightThrough(s: State, op: Op)
    requires Inv(s) && Enabled(s, op) && op.Insert? && !WantsFirst(op) && !WantsAfter(op)
    ensures
      var s' := Apply(s, op);
      && op.id in s'.rqs && !s'.rqs[op.id].sequenced && s'.queues == s.queues && s'.data == s.data
      && s'.pendingIdx == s.pendingIdx && s'.runningIdx == s.runningIdx && s'.rqs == s.rqs[op.id := s'.rqs[op.id]]
      && (op.size > 0 ==> s'.head == s.head + [Req(op.id)])
      && (op.size == 0 ==> s'.head == s.head && s'.rqs[op.id].ended)
      && (op.size == 0 && op.bio ==> Notified(op.id, true) in s'.log)
      && (forall e :: e in s'.log ==> e in s.log || !e.FlushIssued?)
  {
    hide Inv, EndPlain, Apply, Enabled;
    PlainForm(s, op);
    var s1 := Arrived(s, op.id, PlainRq(op));
    assert s1.rqs == s.rqs[op.id := PlainRq(op)] && s1.queues == s.queues && s1.data == s.data && s1.head == s.head;
    assert s1.pendingIdx == s.pendingIdx && s1.runningIdx == s.runningIdx;
    assert s1.log == s.log + [Inserted(op.id, PlainRq(op).policy, op.bio)];
    EndsWell(s1, op.id);
  }

  lemma EndsWell(s: State, id: RqId)
    requires id in s.rqs && s.rqs[id].uptodate
    ensures
      var s' := EndPlain(s, id, false);
      && s' == s.(rqs := s.rqs[id := s'.rqs[id]], log := s'.log, bug := s'.bug)
      && s'.rqs[id].ended && s'.rqs[id].sequenced == s.rqs[id].sequenced
      && (s.rqs[id].bio ==> Notified(id, true) in s'.log)
      && (forall e :: e in s'.log ==> e in s.log || !e.FlushIssued?)
  {
    if s.rqs[id].bio {
      assert EndPlain(s, id, false).log[|s.log|] == Notified(id, true);
    }
  }

  /** The sequencer is at rest: no request is on its lists, and no flush was ever issued. */
  predicate AtRest(s: State) {
    && s.queues == [[], []] && s.data == [] && !InFlight(s)
    && (forall id :: id in s.rqs ==> !s.rqs[id].sequenced)
    && forall e :: e in s.log ==> !e.FlushIssued?
  }

  lemma {:induction false} FailAllRests(s: State, now: int)
    requires forall id :: Req(id) in s.head ==> id in s.rqs
    requires AtRest(s) && FlushRq !in s.head
    ensures AtRest(FailAll(s, now))
    decreases |s.head|
  {
    if s.head != [] {
      assert s.head[0] in s.head;
      FailAllRests(EndPlain(s.(head := s.head[1..]), s.head[0].id, true), now);
    }
  }

  lemma EndDataRests(s: State, id: RqId, error: bool, now: int)
    requires AtRest(s) && id in s.rqs
    ensures AtRest(EndRequest(s, id, error, now))
  {
    EndOrdinaryForm(s, id, error, now);
  }

  lemma AbortRests(s: State, now: int)
    requires Inv(s) && AtRest(s) && Enabled(s, AbortQueue(now))
    ensures AtRest(Apply(s, AbortQueue(now)))
  {
    AbortReady(s);
    FailAllRests(Log(s, Aborted), now);
  }

  lemma RestStep(s: State, op: Op)
    requires Inv(s) && AtRest(s) && Enabled(s, op)
    requires op.Insert? ==> !WantsFirst(op) && !WantsAfter(op)
    ensures AtRest(Apply(s, op))
  {
    hide Inv, AtRest, InsertFlush, Fetch, Progress, EndRequest, Abort, FlushEndIo;
    match op
    case Insert(_, _, _, _, _, _, _, _) => InsertRests(s, op);
    case FetchNext(queueable, feed) => FetchRests(s, queueable, feed);
    case PutBack(item) => RestFrame(s, Requeue(s, item));
    case Partial(id, n, error) => ProgressRests(s, id, n, error);
    case EndData(id, error, now) => EndDataRests(s, id, error, now);
    case EndFlush(_, _) => NoFlushHeld(s);
    case AbortQueue(now) => AbortRests(s, now);
  }

  lemma InsertRests(s: State, op: Op)
    requires Inv(s) && AtRest(s) && Enabled(s, op) && op.Insert? && !WantsFirst(op) && !WantsAfter(op)
    ensures AtRest(Apply(s, op))
  {
    hide Inv, Apply, Enabled;
    StraightThrough(s, op);
  }

  lemma FetchRests(s: State, queueable: bool, feed: Feed)
    requires AtRest(s)
    ensures AtRest(Fetch(s, queueable, feed))
  {
  }

  lemma RestFrame(s: State, s': State)
    requires AtRest(s) && s' == s.(head := s'.head, driver := s'.driver)
    ensures AtRest(s')
  {
  }

  lemma ProgressRests(s: State, id: RqId, n: nat, error: bool)
    requires AtRest(s) && id in s.rqs && n < s.rqs[id].size
    ensures AtRest(Progress(s, id, n, error))
  {
  }

  lemma NoFlushHeld(s: State)
    requires Inv(s) && AtRest(s)
    ensures FlushRq !in s.driver
  {
  }

  /** If nobody asks for a flush that the drive needs, none is ever issued. */
  lemma {:induction false} NoFlushUnasked(ops: seq<Op>)
    requires Valid(ops) && NoneWanted(ops)
    ensures AtRest(Exec(ops))
    decreases |ops|
  {
    hide Apply, Enabled, Inv;
    if ops != [] {
      var n := |ops| - 1;
      NoFlushUnasked(ops[..n]);
      RestStep(Exec(ops[..n]), ops[n]);
    }
  }
}

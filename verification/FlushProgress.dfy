/** No stall: exactly when a request can come to wait for a flush with nothing under way that would
    lead to one, and why a held queue is run again. */
module FlushProgress {
  import opened Lists
  import opened FlushProtocol
  import opened FlushInvariant
  import opened FlushSteps
  import opened FlushRuns

  /** With no flush outstanding, only the pending list is in use. */
  predicate Aside(s: State) {
    !InFlight(s) ==> s.queues[Flip(s.runningIdx)] == []
  }

  /** The outstanding flush has nobody to serve. */
  predicate Hollow(s: State) {
    InFlight(s) && s.queues[s.runningIdx] == []
  }

  /** Someone waits for a flush, and nothing is under way that would lead to one. */
  predicate Stalled(s: State) {
    Pending(s) != [] && !InFlight(s) && s.data == []
  }

  /** The queue is only ever held for the sake of an outstanding flush. */
  predicate HeldForFlush(s: State) {
    s.delayed ==> InFlight(s)
  }

  ghost predicate Orderly(s: State) {
    HeldForFlush(s) && Aside(s)
  }

  /** A step that makes no flush hollow and strands nobody. */
  ghost predicate Smooth(s: State, s': State) {
    Orderly(s') && (Hollow(s') ==> Hollow(s)) && (Stalled(s') ==> Stalled(s))
  }

  lemma KickServes(s: State, now: int)
    requires Aside(s)
    ensures
      var s' := KickFlush(s, now).0;
      && Aside(s') && (Hollow(s') <==> Hollow(s)) && !Stalled(s')
      && s'.delayed == s.delayed && (InFlight(s) ==> InFlight(s'))
  {
  }

  lemma RemoveOther(s: State, id: RqId)
    requires !OnQueue(s, id)
    ensures Unlink(s, id).queues == s.queues
  {
  }

  lemma AdvanceIndices(s: State, id: RqId, steps: Steps, error: bool, now: int)
    requires id in s.rqs
    ensures
      var s' := Advance(s, id, steps, error, now);
      && s'.delayed == s.delayed && s'.pendingIdx == s.pendingIdx && s'.runningIdx == s.runningIdx
      && |s'.log| >= |s.log|
  {
    match (if error then Done else CurSeq(s.rqs[id].fseq.Union(steps)))
    case Data =>
    case Done =>
    case _ =>
  }

  /** A request that is on no flush list joins the pending one, or none. */
  lemma AdvanceJoins(s: State, id: RqId, steps: Steps, error: bool, now: int)
    requires id in s.rqs && !OnQueue(s, id)
    ensures Advance(s, id, steps, error, now).queues[Flip(s.pendingIdx)] == s.queues[Flip(s.pendingIdx)]
  {
    RemoveOther(s, id);
    match (if error then Done else CurSeq(s.rqs[id].fseq.Union(steps)))
    case Data =>
    case Done =>
    case _ =>
  }

  lemma CompleteSmooth(s: State, id: RqId, steps: Steps, error: bool, now: int)
    requires Orderly(s) && id in s.rqs && !OnQueue(s, id)
    ensures Smooth(s, CompleteSeq(s, id, steps, error, now).0)
  {
    hide Advance, KickFlush;
    var a := Advance(s, id, steps, error, now);
    AdvanceIndices(s, id, steps, error, now);
    AdvanceJoins(s, id, steps, error, now);
    KickServes(a, now);
  }

  // ------------------------------------------------------------------
  // The loop of flush_end_io

  /** Within the loop over list w: the other list is the pending one until the loop itself issues a
      flush, which then has someone to serve. */
  predicate Looping(s: State, w: Index) {
    w == Flip(s.runningIdx) && !Hollow(s)
  }

  lemma PushNextLoops(s: State, w: Index, error: bool, now: int)
    requires Looping(s, w) && s.queues[w] != [] && s.queues[w][0] in s.rqs
    requires s.queues[w][0] !in s.queues[Flip(w)]
    ensures
      var s' := PushNext(s, s.queues[w][0], error, now).0;
      && Looping(s', w) && !Stalled(s') && (InFlight(s) ==> InFlight(s'))
      && (!InFlight(s') ==> s'.queues[w] == s.queues[w][1..])
  {
    hide Advance, KickFlush;
    var id := s.queues[w][0];
    var cur := CurSeq(s.rqs[id].fseq);
    var s0 := s.(bug := s.bug || (cur != Preflush && cur != Postflush));
    var a := Advance(s0, id, Mask(cur), error, now);
    AdvanceIndices(s0, id, Mask(cur), error, now);
    AdvanceFrom(s0, w, Mask(cur), error, now);
    KickLoops(a, w, now);
    KickLeaves(a, now);
  }

  /** The first request of list w joins the pending list, or none. */
  lemma AdvanceFrom(s: State, w: Index, steps: Steps, error: bool, now: int)
    requires s.queues[w] != [] && s.queues[w][0] in s.rqs && s.queues[w][0] !in s.queues[Flip(w)]
    ensures
      var s' := Advance(s, s.queues[w][0], steps, error, now);
      && (s.pendingIdx != w ==> s'.queues[w] == s.queues[w][1..])
      && (s.pendingIdx == w ==> s'.queues[Flip(w)] == s.queues[Flip(w)])
      && (s.queues[Flip(w)] != [] ==> s'.queues[Flip(w)] != [])
  {
    hide EndSequence, Unlink;
    var list, id := s.queues[w], s.queues[w][0];
    var rq := s.rqs[id];
    var s1 := s.(rqs := s.rqs[id := rq.(fseq := rq.fseq.Union(steps))], bug := s.bug || rq.fseq.Overlaps(steps));
    UnlinkFirst(s1, w);
    UnlinkAbsent(s1, id, Flip(w));
    var s' := Advance(s, id, steps, error, now);
    match (if error then Done else CurSeq(rq.fseq.Union(steps))) {
      case Data =>
        assert s' == QueueData(s1, id);
      case Done =>
        EndSequenceFrame(s1, id, error);
        assert s' == EndSequence(s1, id, error);
      case _ =>
        assert s' == QueueForFlush(s1, id, now);
    }
  }

  lemma UnlinkAbsent(s: State, id: RqId, w: Index)
    requires id !in s.queues[w]
    ensures Unlink(s, id).queues[w] == s.queues[w]
  {
  }

  lemma KickLoops(s: State, w: Index, now: int)
    requires w == Flip(s.runningIdx) && (InFlight(s) ==> s.queues[s.runningIdx] != [])
    ensures
      var s' := KickFlush(s, now).0;
      Looping(s', w) && !Stalled(s') && (InFlight(s) ==> InFlight(s'))
  {
  }

  /** If the loop issues a flush, that flush has someone to serve; if not, the walked list empties.
      In either case nobody is stranded. */
  lemma {:induction false} PushAllLoops(s: State, w: Index, error: bool, now: int)
    requires Walking(s, w, error) && Looping(s, w)
    ensures
      var s' := PushAll(s, w, error, now).0;
      && Looping(s', w) && (!InFlight(s') ==> s'.queues[w] == [])
      && (s.queues[w] != [] ==> !Stalled(s'))
    decreases Work(s.rqs, s.queues[w])
  {
    hide Inv, RqOk, Answered, SameFor, PushNext, Work, Looping, Stalled;
    if s.queues[w] != [] {
      var s1 := PushNext(s, s.queues[w][0], error, now).0;
      WalkOn(s, w, error, now);
      OneList(s, w);
      PushNextLoops(s, w, error, now);
      PushedOn(s, w, error, now);
      PushShrinks(s, w, error, now);
      if |s.queues[w]| > 1 {
        PushAllLoops(s1, w, error, now);
        assert PushAll(s, w, error, now).0 == PushAll(s1, w, error, now).0;
      }
    }
  }

  lemma OneList(s: State, w: Index)
    requires Inv(s) && s.queues[w] != []
    ensures s.queues[w][0] !in s.queues[Flip(w)]
  {
    var id := s.queues[w][0];
    assert OnQueue(s, id) && RqOk(s, id);
  }

  lemma WalkStarts(s: State, error: bool)
    requires Inv(s) && FlushRq in s.driver
    ensures
      var s1 := FlushAccounted(FlushBack(s), error);
      && Walking(s1, s.runningIdx, error) && s1.data == s.data
      && s1.queues == s.queues && s1.runningIdx == Flip(s.runningIdx) && s1.pendingIdx == s.pendingIdx
      && !InFlight(s1)
  {
    FlushBackReturns(s);
    FlushAccountedKeeps(s, FlushBack(s), error);
    WaitersAnswered(s, FlushBack(s), error);
  }

  /** The completion of a flush would find nobody to push on, while others wait for the next one. */
  predicate Strands(s: State) {
    Hollow(s) && Pending(s) != [] && s.data == []
  }

  /** A flush completion strands somebody if and only if nobody was waiting for this flush, somebody
      is waiting for the next one, and no data is under way. */
  lemma EndFlushTurns(s: State, error: bool, now: int)
    requires Inv(s) && FlushRq in s.driver
    requires forall id :: id in s.queues[s.runningIdx] ==> id in s.rqs
    ensures
      var s' := FlushEndIo(FlushBack(s), error, now);
      Orderly(s') && !Hollow(s') && (Stalled(s') <==> Strands(s))
  {
    hide Inv, Walking, FlushAccounted, FlushEndIo, PushAll;
    var w := s.runningIdx;
    var s1 := FlushAccounted(FlushBack(s), error);
    WalkStarts(s, error);
    Known(s1, w, error);
    PushAllLoops(s1, w, error, now);
    PushAllNone(s1, w, error, now);
    FlushEndIoForm(FlushBack(s), error, now);
  }

  lemma PushAllNone(s: State, w: Index, error: bool, now: int)
    requires forall id :: id in s.queues[w] ==> id in s.rqs
    ensures s.queues[w] == [] ==> PushAll(s, w, error, now) == (s, false)
  {
  }

  lemma Known(s: State, w: Index, error: bool)
    requires Walking(s, w, error)
    ensures forall id :: id in s.queues[w] ==> id in s.rqs
  {
  }

  // ------------------------------------------------------------------
  // Other steps

  lemma InsertSmooth(s: State, id: RqId, devFlush: bool, devFua: bool, flush: bool, fua: bool,
                     size: nat, bio: bool, now: int)
    requires Orderly(s) && !OnQueue(s, id)
    ensures Smooth(s, InsertFlush(s, id, devFlush, devFua, flush, fua, size, bio, now))
  {
    hide InsertFlush, CompleteSeq;
    var policy := Policy(devFlush, devFua, flush, fua, size > 0);
    var r := Rq(policy, Steps(false, false, false), false, fua && devFua, bio, bio, size, true, false);
    InsertFlushForm(s, id, devFlush, devFua, flush, fua, size, bio, now);
    if !policy.IsEmpty() && !(policy.data && !policy.pre && !policy.post) {
      CompleteSmooth(Arrived(s, id, r.(sequenced := true)), id, policy.Complement(), false, now);
    }
  }

  lemma ReturnedFrame(s: State, id: RqId, error: bool)
    requires id in s.rqs
    ensures
      var d := DataReturned(s, id, error);
      && id in d.rqs && d.queues == s.queues && d.data == s.data && d.delayed == s.delayed
      && d.pendingIdx == s.pendingIdx && d.runningIdx == s.runningIdx
  {
  }

  lemma EndRequestSmooth(s: State, id: RqId, error: bool, now: int)
    requires id in s.rqs && !OnQueue(s, id) && Orderly(s)
    ensures Smooth(s, EndRequest(s, id, error, now))
  {
    hide CompleteSeq, EndRequest, EndPlain, DataReturned;
    var d := DataReturned(s, id, error);
    ReturnedFrame(s, id, error);
    if s.rqs[id].sequenced {
      EndSequencedForm(s, id, error, now);
      CompleteSmooth(d, id, Mask(Data), error, now);
    } else {
      EndOrdinaryForm(s, id, error, now);
      EndPlainHolds(d, id, error);
    }
  }

  lemma {:induction false} RestoreAllHolds(s: State)
    requires forall id :: id in s.data ==> id in s.rqs
    requires HeldForFlush(s)
    ensures HeldForFlush(RestoreAll(s)) && RestoreAll(s).driver == s.driver
    decreases |s.data|
  {
    if s.data != [] {
      assert s.data[0] in s.data;
      RestoreAllHolds(RestoreOne(s));
    }
  }

  lemma {:induction false} GiveAwayHolds(s: State, i: Index)
    requires forall id :: id in s.queues[i] ==> id in s.rqs
    requires HeldForFlush(s)
    ensures HeldForFlush(GiveAway(s, i)) && GiveAway(s, i).data == s.data && GiveAway(s, i).driver == s.driver
    decreases |s.queues[i]|
  {
    if s.queues[i] != [] {
      assert s.queues[i][0] in s.queues[i];
      GiveAwayHolds(GiveOne(s, i), i);
    }
  }

  lemma EndPlainHolds(s: State, id: RqId, error: bool)
    requires id in s.rqs
    ensures
      var s' := EndPlain(s, id, error);
      && s'.head == s.head && s'.queues == s.queues && s'.delayed == s.delayed
      && s'.data == s.data && s'.driver == s.driver
      && s'.pendingIdx == s.pendingIdx && s'.runningIdx == s.runningIdx
  {
  }

  lemma FlushEndIoHolds(s: State, error: bool, now: int)
    requires s.queues == [[], []]
    ensures
      var s' := FlushEndIo(s, error, now);
      && s'.head == s.head && s'.queues == s.queues && s'.rqs == s.rqs && !s'.delayed
      && s'.data == s.data && s'.driver == s.driver
  {
  }

  lemma {:induction false} FailAllHolds(s: State, now: int)
    requires forall id :: Req(id) in s.head ==> id in s.rqs
    requires s.queues == [[], []]
    requires HeldForFlush(s)
    ensures
      var s' := FailAll(s, now);
      && HeldForFlush(s') && s'.queues == [[], []] && s'.head == []
      && s'.data == s.data && s'.driver == s.driver
    decreases |s.head|
  {
    hide EndPlain, FlushEndIo;
    if s.head != [] {
      var s1 := s.(head := s.head[1..]);
      match s.head[0] {
        case Req(id) =>
          assert Req(id) in s.head;
          EndPlainHolds(s1, id, true);
          FailAllHolds(EndPlain(s1, id, true), now);
        case FlushRq =>
          FlushEndIoHolds(s1, true, now);
          FailAllHolds(FlushEndIo(s1, true, now), now);
      }
    }
  }

  lemma AbortEmpties(s: State, now: int)
    requires forall id :: id in s.data || id in s.queues[0] || id in s.queues[1] ==> id in s.rqs
    requires forall id :: Req(id) in s.head ==> id in s.rqs
    requires HeldForFlush(s)
    ensures
      var s' := Abort(s, now);
      && HeldForFlush(s') && s'.queues == [[], []] && s'.head == [] && s'.data == [] && s'.driver == s.driver
  {
    hide FailAll;
    var s0 := Log(s, Aborted);
    RestoreAllHolds(s0);
    var s1 := RestoreAll(s0);
    GiveAwayHolds(s1, 0);
    var s2 := GiveAway(s1, 0);
    GiveAwayHolds(s2, 1);
    FailAllHolds(GiveAway(s2, 1), now);
  }

  /** An abort leaves a flush without anybody to serve if and only if the driver has the flush. */
  lemma AbortTurns(s: State, now: int)
    requires Inv(s) && Settled(s) && HeldForFlush(s)
    requires forall id :: id in s.data || id in s.queues[0] || id in s.queues[1] ==> id in s.rqs
    requires forall id :: Req(id) in s.head ==> id in s.rqs
    ensures
      var s' := Abort(s, now);
      && Inv(s') && Orderly(s') && !Stalled(s') && (Hollow(s') <==> FlushRq in s.driver)
      && s'.queues == [[], []] && s'.data == [] && s'.driver == s.driver
  {
    hide Abort, Settled, RqOk, ListsOk, AllHonest;
    AbortKeeps(s, now);
    AbortEmpties(s, now);
  }

  lemma NotQueued(s: State, id: RqId)
    requires Inv(s) && id in s.rqs && Req(id) in s.driver
    ensures !OnQueue(s, id)
  {
    assert RqOk(s, id);
  }

  lemma NotKnown(s: State, id: RqId)
    requires Inv(s) && id !in s.rqs
    ensures !OnQueue(s, id)
  {
  }

  lemma MovesSmoothly(s: State, s': State)
    requires Orderly(s) && HeldForFlush(s')
    requires s'.queues == s.queues && s'.data == s.data
    requires s'.pendingIdx == s.pendingIdx && s'.runningIdx == s.runningIdx
    ensures Smooth(s, s')
  {
  }

  /** What every event does to the flow of requests. */
  lemma ApplyTurns(s: State, op: Op)
    requires Inv(s) && Settled(s) && Enabled(s, op) && Orderly(s)
    ensures
      var s' := Apply(s, op);
      && Orderly(s')
      && (op.EndFlush? ==> !Hollow(s') && (Stalled(s') <==> Strands(s)))
      && (op.AbortQueue? ==> !Stalled(s') && (Hollow(s') <==> FlushRq in s.driver))
      && (!op.EndFlush? && !op.AbortQueue? ==> Smooth(s, s'))
  {
    hide Inv, Settled, InsertFlush, EndRequest, FlushEndIo, Abort, Smooth, Orderly, Stalled, Hollow, Strands;
    match op
    case Insert(id, devFlush, devFua, flush, fua, size, bio, now) =>
      NotKnown(s, id);
      InsertSmooth(s, id, devFlush, devFua, flush, fua, size, bio, now);
      SmoothIsOrderly(s, Apply(s, op));
    case FetchNext(queueable, feed) =>
      FetchSmooth(s, queueable, feed);
      SmoothIsOrderly(s, Apply(s, op));
    case PutBack(item) =>
      OrderlyHolds(s);
      MovesSmoothly(s, Requeue(s, item));
      SmoothIsOrderly(s, Apply(s, op));
    case Partial(id, n, error) =>
      OrderlyHolds(s);
      MovesSmoothly(s, Progress(s, id, n, error));
      SmoothIsOrderly(s, Apply(s, op));
    case EndData(id, error, now) =>
      NotQueued(s, id);
      EndRequestSmooth(s, id, error, now);
      SmoothIsOrderly(s, Apply(s, op));
    case EndFlush(error, now) =>
      FlushBackReturns(s);
      EndFlushTurns(s, error, now);
    case AbortQueue(now) =>
      AbortReady(s);
      OrderlyHolds(s);
      AbortTurns(s, now);
  }

  lemma SmoothIsOrderly(s: State, s': State)
    requires Smooth(s, s')
    ensures Orderly(s')
  {
  }

  lemma OrderlyHolds(s: State)
    requires Orderly(s)
    ensures HeldForFlush(s)
  {
  }

  lemma FetchSmooth(s: State, queueable: bool, feed: Feed)
    requires Orderly(s)
    ensures Smooth(s, Fetch(s, queueable, feed))
  {
    hide Fetch, Smooth;
    FetchFrame(s, queueable, feed);
    MovesSmoothly(s, Fetch(s, queueable, feed));
  }

  lemma NextFrame(s: State, queueable: bool, feed: Feed)
    ensures
      var s' := NextRequest(s, queueable, feed).0;
      && s'.queues == s.queues && s'.data == s.data
      && s'.pendingIdx == s.pendingIdx && s'.runningIdx == s.runningIdx
      && s'.pendingSince == s.pendingSince && s'.queuedAt == s.queuedAt
      && (s'.delayed ==> s.delayed || InFlight(s))
  {
  }

  /** Fetching a request leaves the flush lists alone. */
  lemma FetchFrame(s: State, queueable: bool, feed: Feed)
    ensures
      var s' := Fetch(s, queueable, feed);
      && s'.queues == s.queues && s'.data == s.data
      && s'.pendingIdx == s.pendingIdx && s'.runningIdx == s.runningIdx
      && s'.pendingSince == s.pendingSince && s'.queuedAt == s.queuedAt
      && (s'.delayed ==> s.delayed || InFlight(s))
  {
    hide NextRequest;
    NextFrame(s, queueable, feed);
  }

  lemma {:induction false} RunsOrderly(ops: seq<Op>)
    requires Valid(ops)
    ensures Orderly(Exec(ops))
    decreases |ops|
  {
    hide Orderly, Apply;
    if ops == [] {
      InitOrderly();
    } else {
      var n := |ops| - 1;
      RunsOrderly(ops[..n]);
      ApplyTurns(Exec(ops[..n]), ops[n]);
    }
  }

  lemma InitOrderly()
    ensures Orderly(INIT) && !Hollow(INIT) && !Stalled(INIT)
  {
  }

  // ------------------------------------------------------------------
  // Theorems

  /** In every run, a request comes to wait with nothing under way exactly when a flush completes
      that had nobody to serve, others wait for the next one, and no data is under way. */
  lemma StallsExactlyWhen(ops: seq<Op>, op: Op)
    requires Valid(ops) && Enabled(Exec(ops), op) && !Stalled(Exec(ops))
    ensures Stalled(Apply(Exec(ops), op)) <==> op.EndFlush? && Strands(Exec(ops))
  {
    hide Orderly, Apply, Strands, Stalled, Hollow;
    RunsOrderly(ops);
    ApplyTurns(Exec(ops), op);
    SmoothSteps(Exec(ops), op);
  }

  lemma SmoothSteps(s: State, op: Op)
    requires Inv(s) && Enabled(s, op)
    ensures Smooth(s, Apply(s, op)) ==> (Hollow(Apply(s, op)) ==> Hollow(s)) && (Stalled(Apply(s, op)) ==> Stalled(s))
  {
    hide Apply;
  }

  /** And a flush comes to have nobody to serve exactly when an abort finds it with the driver. */
  lemma HollowExactlyWhen(ops: seq<Op>, op: Op)
    requires Valid(ops) && Enabled(Exec(ops), op) && !Hollow(Exec(ops))
    ensures Hollow(Apply(Exec(ops), op)) <==> op.AbortQueue? && FlushRq in Exec(ops).driver
  {
    hide Orderly, Apply, Strands, Stalled, Hollow;
    RunsOrderly(ops);
    ApplyTurns(Exec(ops), op);
    SmoothSteps(Exec(ops), op);
  }

  /** Whoever aborts the queue does not do so while the driver has the flush. */
  ghost predicate KindAborts(ops: seq<Op>)
    requires Valid(ops)
    decreases |ops|
  {
    ops != [] ==>
      var n := |ops| - 1;
      (ops[n].AbortQueue? ==> FlushRq !in Exec(ops[..n]).driver) && KindAborts(ops[..n])
  }

  /** In runs of kind aborts, whenever the lock is free, someone waiting on the pending list means a
      flush in flight or a request in its data phase, and a flush in flight has requests to serve. */
  lemma {:induction false} NoStall(ops: seq<Op>)
    requires Valid(ops) && KindAborts(ops)
    ensures !Stalled(Exec(ops)) && !Hollow(Exec(ops))
    decreases |ops|
  {
    hide Orderly, Apply, Stalled, Hollow;
    if ops == [] {
      InitOrderly();
    } else {
      var n := |ops| - 1;
      NoStall(ops[..n]);
      StallsExactlyWhen(ops[..n], ops[n]);
      HollowExactlyWhen(ops[..n], ops[n]);
      NotStrands(Exec(ops[..n]));
    }
  }

  lemma NotStrands(s: State)
    requires !Hollow(s)
    ensures !Strands(s)
  {
  }

  /** A queue is only held for a flush in flight. */
  lemma HeldOnlyForFlush(ops: seq<Op>)
    requires Valid(ops) && Exec(ops).delayed
    ensures InFlight(Exec(ops))
  {
    RunsOrderly(ops);
  }

  /** The completion of that flush runs the held queue again. */
  lemma HeldQueueIsRun(s: State, error: bool, now: int)
    requires s.delayed
    requires forall id :: id in s.queues[s.runningIdx] ==> id in s.rqs
    ensures
      var s' := FlushEndIo(s, error, now);
      |s.log| < |s'.log| && s'.log[|s'.log| - 1] == RunQueue && !s'.delayed
  {
    var s1 := FlushAccounted(s, error);
    FlushEndIoForm(s, error, now);
    PushAllDelayed(s1, s.runningIdx, error, now);
  }

  lemma KickDelayed(s: State, now: int)
    ensures KickFlush(s, now).0.delayed == s.delayed && |KickFlush(s, now).0.log| >= |s.log|
  {
  }

  lemma PushNextDelayed(s: State, id: RqId, error: bool, now: int)
    requires id in s.rqs
    ensures PushNext(s, id, error, now).0.delayed == s.delayed
    ensures |PushNext(s, id, error, now).0.log| >= |s.log|
  {
    var cur := CurSeq(s.rqs[id].fseq);
    var s1 := s.(bug := s.bug || (cur != Preflush && cur != Postflush));
    AdvanceIndices(s1, id, Mask(cur), error, now);
    KickDelayed(Advance(s1, id, Mask(cur), error, now), now);
  }

  lemma {:induction false} PushAllDelayed(s: State, w: Index, error: bool, now: int)
    requires forall id :: id in s.queues[w] ==> id in s.rqs
    ensures PushAll(s, w, error, now).0.delayed == s.delayed
    ensures |PushAll(s, w, error, now).0.log| >= |s.log|
    decreases Work(s.rqs, s.queues[w])
  {
    hide PushNext, Work;
    if s.queues[w] != [] {
      var s1 := PushNext(s, s.queues[w][0], error, now).0;
      PushNextDelayed(s, s.queues[w][0], error, now);
      PushShrinks(s, w, error, now);
      if |s.queues[w]| > 1 {
        PushAllDelayed(s1, w, error, now);
        assert PushAll(s, w, error, now).0 == PushAll(s1, w, error, now).0;
      }
    }
  }
}

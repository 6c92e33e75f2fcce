/** What an abort costs: when it lets a write succeed without its flush, and when it strands a
    request. */
module FlushAborts {
  import opened FlushProtocol
  import opened FlushInvariant
  import opened FlushRuns
  import opened FlushProgress
  import opened FlushSteps
  import opened FlushTheorems

  lemma ExecSnoc(ops: seq<Op>, op: Op, s: State, s': State)
    requires Valid(ops) && Exec(ops) == s && Enabled(s, op) && Apply(s, op) == s'
    ensures Valid(ops + [op]) && Exec(ops + [op]) == s'
  {
    assert (ops + [op])[..|ops|] == ops;
  }

  lemma ExecAbort(ops: seq<Op>, now: int, s: State, s': State)
    requires Valid(ops) && Exec(ops) == s
    requires forall id :: id in s.data || id in s.queues[0] || id in s.queues[1] ==> id in s.rqs
    requires forall id :: Req(id) in s.head ==> id in s.rqs
    requires Abort(s, now) == s'
    ensures Valid(ops + [AbortQueue(now)]) && Exec(ops + [AbortQueue(now)]) == s'
  {
    ExecSnoc(ops, AbortQueue(now), s, s');
  }

  // ------------------------------------------------------------------
  // A FUA write is in the driver when the queue is aborted

  const FUA_WRITE: Op := Insert(0, true, false, false, true, 8, true, 0)

  const FUA_RQ: Rq := Rq(Steps(false, true, true), Steps(true, false, false), true, false, true, true, 8, true, false)

  const WRITTEN: State :=
    INIT.(rqs := map[0 := FUA_RQ], data := [0], head := [Req(0)], born := map[0 := 0],
          log := [Inserted(0, Steps(false, true, true), true), DataQueued(0)])

  const TAKEN: State := WRITTEN.(head := [], driver := {Req(0)})

  const TORN: State :=
    TAKEN.(rqs := map[0 := FUA_RQ.(sequenced := false)], data := [], log := TAKEN.log + [Aborted, Restored(0)])

  lemma WriteStep()
    ensures InsertFlush(INIT, 0, true, false, false, true, 8, true, 0) == WRITTEN
  {
    var r := FUA_RQ.(fseq := Steps(false, false, false));
    var s1 := INIT.(rqs := map[0 := r], born := map[0 := 0], log := [Inserted(0, Steps(false, true, true), true)]);
    assert Advance(s1, 0, Steps(true, false, false), false, 0) == WRITTEN by {
      assert s1.rqs[0 := FUA_RQ] == map[0 := FUA_RQ];
      assert Unlink(s1, 0).queues == [[], []];
    }
    assert KickFlush(WRITTEN, 0) == (WRITTEN, false);
  }

  lemma TearStep()
    ensures Abort(TAKEN, 0) == TORN
  {
    var s1 := Log(TAKEN, Aborted);
    assert s1.data[1..] == [];
    assert s1.rqs[0 := FUA_RQ.(sequenced := false)] == map[0 := FUA_RQ.(sequenced := false)];
    assert RestoreAll(s1) == TORN;
  }

  const REPORT: seq<Event> := TORN.log + [DataDone(0, true), Notified(0, true), Ended(0, true)]

  lemma FinishStep()
    ensures EndRequest(TORN, 0, false, 0).log == REPORT
  {
  }

  lemma ReportIsBare()
    ensures |REPORT| == 7 && REPORT[0] == Inserted(0, Steps(false, true, true), true)
    ensures REPORT[5] == Notified(0, true) && !FlushAfterData(REPORT, 0, 5)
  {
  }

  lemma ReachWritten() returns (ops: seq<Op>)
    ensures Valid(ops) && Exec(ops) == WRITTEN
  {
    WriteStep();
    ExecSnoc([], FUA_WRITE, INIT, WRITTEN);
    ops := [] + [FUA_WRITE];
  }

  lemma ReachTaken() returns (ops: seq<Op>)
    ensures Valid(ops) && Exec(ops) == TAKEN
  {
    hide Exec, Inv;
    ops := ReachWritten();
    ExecSnoc(ops, FetchNext(true, Nothing), WRITTEN, TAKEN);
    ops := ops + [FetchNext(true, Nothing)];
  }

  lemma ReachTorn() returns (ops: seq<Op>)
    ensures Valid(ops) && Exec(ops) == TORN
  {
    ops := ReachTaken();
    TearStep();
    ExecAbort(ops, 0, TAKEN, TORN);
    ops := ops + [AbortQueue(0)];
  }

  /** The driver then finishes the write, and its submitter is told of success although no
      flush followed the data. */
  lemma AbortLosesPostflush() returns (ops: seq<Op>)
    ensures Valid(ops)
    ensures
      var log := Exec(ops).log;
      && |log| == 7
      && log[0].Inserted? && log[0].policy.data && log[0].policy.post
      && log[5] == Notified(0, true)
      && !FlushAfterData(log, 0, 5)
  {
    ops := ReachTorn();
    FinishStep();
    ReportIsBare();
    ExecSnoc(ops, EndData(0, false, 0), TORN, EndRequest(TORN, 0, false, 0));
    ops := ops + [EndData(0, false, 0)];
  }

  // ------------------------------------------------------------------
  // A flush is in the driver when the queue is aborted

  const PURE_FLUSH: Rq :=
    Rq(Steps(true, false, false), Steps(false, true, true), true, false, true, true, 0, true, false)

  const ISSUED: State :=
    INIT.(rqs := map[0 := PURE_FLUSH], queues := [[0], []], pendingIdx := 1, head := [FlushRq],
          born := map[0 := 0], since := map[0 := 0], queuedAt := map[0 := 0], issuedAt := 1, flushes := 1,
          log := [Inserted(0, Steps(true, false, false), true), FlushIssued(0)])

  const FLUSHING: State := ISSUED.(head := [], driver := {FlushRq})

  lemma IssueStep()
    ensures InsertFlush(INIT, 0, true, true, true, false, 0, true, 0) == ISSUED
  {
    var r := PURE_FLUSH.(fseq := Steps(false, false, false));
    var s1 := INIT.(rqs := map[0 := r], born := map[0 := 0], log := [Inserted(0, Steps(true, false, false), true)]);
    var s2 := s1.(rqs := map[0 := PURE_FLUSH], queues := [[0], []], since := map[0 := 0], queuedAt := map[0 := 0]);
    assert Advance(s1, 0, Steps(false, true, true), false, 0) == s2 by {
      assert s1.rqs[0 := PURE_FLUSH] == map[0 := PURE_FLUSH];
      assert s1.since[0 := 0] == map[0 := 0] && s1.queuedAt[0 := 0] == map[0 := 0];
      var q := Unlink(s1, 0).queues;
      assert q == [[], []];
      assert q[0] + [0] == [0] && q[0 := [0]] == [[0], []];
    }
    assert KickFlush(s2, 0).0 == ISSUED;
  }

  const FLUSH_OF_0: Op := Insert(0, true, true, true, false, 0, true, 0)

  lemma ReachIssued() returns (ops: seq<Op>)
    ensures Valid(ops) && Exec(ops) == ISSUED
  {
    IssueStep();
    ExecSnoc([], FLUSH_OF_0, INIT, ISSUED);
    ops := [] + [FLUSH_OF_0];
  }

  lemma ReachFlushing() returns (ops: seq<Op>)
    ensures Valid(ops) && Exec(ops) == FLUSHING
  {
    hide Exec, Inv;
    ops := ReachIssued();
    ExecSnoc(ops, FetchNext(true, Nothing), ISSUED, FLUSHING);
    ops := ops + [FetchNext(true, Nothing)];
  }

  /** An empty flush of a request that does not exist yet. */
  function EmptyFlush(id: RqId, now: int): Op {
    Insert(id, true, true, true, false, 0, true, now)
  }

  ghost function Fresh(ids: set<RqId>): (n: RqId)
    ensures forall id :: id in ids ==> id < n
  {
    if ids == {} then 0
    else
      var x :| x in ids;
      assert forall id :: id in ids ==> id == x || id in ids - {x};
      var n := Fresh(ids - {x});
      if x < n then n else x + 1
  }

  /** While a flush is outstanding, an empty flush just waits for the next one. */
  lemma FlushWaits(s: State, id: RqId, now: int)
    requires InFlight(s) && s.queues == [[], []] && s.data == [] && id !in s.rqs
    ensures
      var s' := InsertFlush(s, id, true, true, true, false, 0, true, now);
      Strands(s') && s'.driver == s.driver
  {
    var policy := Steps(true, false, false);
    var r := Rq(policy, Steps(false, false, false), false, false, true, true, 0, true, false);
    InsertFlushForm(s, id, true, true, true, false, 0, true, now);
    var s1 := Arrived(s, id, r.(sequenced := true));
    var a := Advance(s1, id, policy.Complement(), false, now);
    assert Unlink(s1, id).queues == [[], []];
    assert a.queues[s.pendingIdx] == [id] && a.queues[s.runningIdx] == [] && a.data == [];
    assert KickFlush(a, now).0 == a;
  }

  lemma ExecThree(ops: seq<Op>, a: Op, b: Op, c: Op)
    requires Valid(ops) && Enabled(Exec(ops), a)
    requires Inv(Apply(Exec(ops), a)) && Enabled(Apply(Exec(ops), a), b)
    requires Inv(Apply(Apply(Exec(ops), a), b)) && Enabled(Apply(Apply(Exec(ops), a), b), c)
    ensures Valid(ops + [a] + [b, c]) && Exec(ops + [a] + [b, c]) == Apply(Apply(Apply(Exec(ops), a), b), c)
  {
    hide Apply, Enabled, Inv;
    var s := Exec(ops);
    ExecSnoc(ops, a, s, Apply(s, a));
    ExecSnoc(ops + [a], b, Apply(s, a), Apply(Apply(s, a), b));
    ExecSnoc(ops + [a] + [b], c, Apply(Apply(s, a), b), Apply(Apply(Apply(s, a), b), c));
    assert ops + [a] + [b, c] == ops + [a] + [b] + [c];
  }

  /** After an abort that finds the flush with the driver, the next empty flush is stranded as soon as
      the driver completes: it waits, no flush is in flight and no data is under way. */
  lemma AbortStrands(ops: seq<Op>, now: int)
    requires Valid(ops) && FlushRq in Exec(ops).driver
    ensures
      var more := [EmptyFlush(Fresh(AfterAbort(ops, now).rqs.Keys), now), EndFlush(false, now)];
      Valid(ops + [AbortQueue(now)] + more) && Stalled(Exec(ops + [AbortQueue(now)] + more))
  {
    hide Inv, Settled, InsertFlush, FlushEndIo, Stalled, Strands;
    var s := Exec(ops);
    RunsOrderly(ops);
    AbortReady(s);
    AbortTurns(s, now);
    ApplyKeeps(s, AbortQueue(now));
    var s1 := AfterAbort(ops, now);
    var id := Fresh(s1.rqs.Keys);
    assert id !in s1.rqs;
    FlyingAfter(s1);
    FlushWaits(s1, id, now);
    ApplyKeeps(s1, EmptyFlush(id, now));
    var s2 := InsertFlush(s1, id, true, true, true, false, 0, true, now);
    FlushBackReturns(s2);
    EndFlushTurns(s2, false, now);
    ExecThree(ops, AbortQueue(now), EmptyFlush(id, now), EndFlush(false, now));
  }

  lemma FlyingAfter(s: State)
    requires Inv(s) && FlushRq in s.driver
    ensures InFlight(s)
  {
  }

  ghost function AfterAbort(ops: seq<Op>, now: int): State
    requires Valid(ops)
  {
    Apply(Exec(ops), AbortQueue(now))
  }

  /** Some way to go on from here, without another abort, strands a request. */
  ghost predicate CanStall(ops: seq<Op>) {
    exists more: seq<Op> ::
      (forall op :: op in more ==> !op.AbortQueue?) && Valid(ops + more) && Stalled(Exec(ops + more))
  }

  lemma {:induction false} KindStays(ops: seq<Op>, more: seq<Op>)
    requires Valid(ops) && KindAborts(ops) && Valid(ops + more) && forall op :: op in more ==> !op.AbortQueue?
    ensures KindAborts(ops + more)
    decreases |more|
  {
    if more == [] {
      assert ops + more == ops;
    } else {
      var n := |more| - 1;
      assert (ops + more)[..|ops + more| - 1] == ops + more[..n];
      KindStays(ops, more[..n]);
      assert more[n] in more;
    }
  }

  lemma KindSnoc(ops: seq<Op>, op: Op)
    requires Valid(ops) && KindAborts(ops) && Valid(ops + [op])
    requires op.AbortQueue? ==> FlushRq !in Exec(ops).driver
    ensures KindAborts(ops + [op])
  {
    hide Exec, Enabled;
    assert (ops + [op])[..|ops|] == ops;
  }

  lemma HarmlessAbort(ops: seq<Op>, now: int, more: seq<Op>)
    requires Valid(ops) && KindAborts(ops) && FlushRq !in Exec(ops).driver
    requires (forall op :: op in more ==> !op.AbortQueue?)
    requires Valid(ops + [AbortQueue(now)]) && Valid(ops + [AbortQueue(now)] + more)
    ensures !Stalled(Exec(ops + [AbortQueue(now)] + more))
  {
    hide Stalled, Exec, Valid, KindAborts;
    KindSnoc(ops, AbortQueue(now));
    KindStays(ops + [AbortQueue(now)], more);
    NoStall(ops + [AbortQueue(now)] + more);
  }

  /** Which aborts are harmless: after a run of kind aborts, one more abort can lead to a stall if and
      only if it finds the flush with the driver. */
  lemma HarmfulAborts(ops: seq<Op>, now: int)
    requires Valid(ops) && KindAborts(ops)
    ensures Valid(ops + [AbortQueue(now)])
    ensures CanStall(ops + [AbortQueue(now)]) <==> FlushRq in Exec(ops).driver
  {
    hide Stalled, Exec, Valid, KindAborts, Enabled;
    ExecSnocAbort(ops, now);
    if FlushRq in Exec(ops).driver {
      AbortStrands(ops, now);
    } else if CanStall(ops + [AbortQueue(now)]) {
      var more: seq<Op> :|
        && (forall op :: op in more ==> !op.AbortQueue?) && Valid(ops + [AbortQueue(now)] + more)
        && Stalled(Exec(ops + [AbortQueue(now)] + more));
      HarmlessAbort(ops, now, more);
    }
  }

  lemma ExecSnocAbort(ops: seq<Op>, now: int)
    requires Valid(ops)
    ensures Valid(ops + [AbortQueue(now)])
  {
    ExecSnoc(ops, AbortQueue(now), Exec(ops), AfterAbort(ops, now));
  }

  /** Such an abort can be met: here is a run that ends in a stall. */
  lemma AbortMayStall() returns (ops: seq<Op>)
    ensures Valid(ops) && Stalled(Exec(ops))
  {
    hide Stalled;
    ops := ReachFlushing();
    AbortStrands(ops, 0);
    ops := ops + [AbortQueue(0)] + [EmptyFlush(Fresh(AfterAbort(ops, 0).rqs.Keys), 0), EndFlush(false, 0)];
  }
}

/**
 What every lock-held section of the sequencer keeps: the life of each request follows one
 automaton, each request is on the list its current step demands, and the log remembers
 which flush answered which wait.
 */
module FlushInvariant {
  import opened Lists
  import opened FlushProtocol

  // ------------------------------------------------------------------
  // Reference definitions, on the log alone

  /** What a request is, as its submitter sees it, and whether all its data has come through so far. */
  datatype Kind = Kind(policy: Steps, bio: bool, clean: bool)

  /** The life of one request. A sequenced request goes Before, Writing, After and is told
      once; `Loose` and `Dropped` are requests an abort has made ordinary. */
  datatype Phase =
    | Unborn
    | Before(k: Kind)
    | Writing(k: Kind)
    | After(k: Kind, ok: bool, loose: bool)
    | Loose(k: Kind)
    | Dropped(k: Kind)
    | Told(k: Kind, ok: bool)
    | Over(k: Kind)
    | Wrong

  predicate About(e: Event, id: RqId) {
    match e
    case FlushIssued(_) => false
    case FlushDone(_, _) => false
    case RunQueue => false
    case Aborted => false
    case _ => e.id == id
  }

  /** May a request in this phase be reported with this outcome? */
  predicate MayEnd(ph: Phase, ok: bool) {
    match ph
    case Before(k) => ok ==> !k.policy.data
    case After(k, good, _) => ok ==> good
    case Loose(k) => !ok
    case Dropped(k) => !ok
    case _ => false
  }

  predicate IsPlain(p: Steps) {
    !p.pre && !p.post
  }

  /** Must a flush be over before the data goes out or, without data, before success? */
  predicate FlushFirst(p: Steps) {
    p.pre || (p.post && !p.data)
  }

  /** In this step no data has been sent, nor is any under way. */
  predicate Early(p: Steps, step: Step) {
    step == Preflush || (step == Postflush && !p.data)
  }

  /** The data of a request is on its way. */
  predicate Moving(ph: Phase) {
    (ph.Before? && IsPlain(ph.k.policy)) || ph.Writing? || ph.Loose?
  }

  function Marked(ph: Phase, ok: bool): (r: Phase)
    requires Moving(ph)
    ensures Moving(r)
  {
    var k := ph.k.(clean := ph.k.clean && ok);
    if ph.Before? then Before(k) else if ph.Writing? then Writing(k) else Loose(k)
  }

  function NextPhase(ph: Phase, e: Event): Phase {
    match e
    case Inserted(_, p, bio) => if ph == Unborn then Before(Kind(p, bio, true)) else Wrong
    case DataQueued(_) =>
      if ph.Before? && ph.k.policy.data && !IsPlain(ph.k.policy) then Writing(ph.k) else Wrong
    case PartDone(_, ok) => if Moving(ph) then Marked(ph, ok) else Wrong
    case DataDone(_, ok) => if Moving(ph) then After(Marked(ph, ok).k, ok, ph.Loose?) else Wrong
    case Restored(_) =>
      if ph.Writing? then Loose(ph.k) else if ph.Before? || ph.After? then Dropped(ph.k) else Wrong
    case Notified(_, ok) =>
      if MayEnd(ph, ok) && ph.k.bio then Told(ph.k, ok) else Wrong
    case Ended(_, ok) =>
      if ph.Told? && (ph.ok ==> ok) then Over(ph.k)
      else if MayEnd(ph, ok) && !ph.k.bio then Over(ph.k)
      else Wrong
    case _ => ph
  }

  function PhaseOf(log: seq<Event>, id: RqId): Phase {
    if log == [] then Unborn
    else
      var ph := PhaseOf(log[..|log| - 1], id);
      var e := log[|log| - 1];
      if About(e, id) then NextPhase(ph, e) else ph
  }

  /** The flushes the drive has seen: issued one at a time, each completed before the next. */
  datatype Flight = Idle(next: nat) | Busy(flush: nat) | Broken

  function FlightOf(log: seq<Event>): Flight {
    if log == [] then Idle(0)
    else
      var f := FlightOf(log[..|log| - 1]);
      match log[|log| - 1]
      case FlushIssued(n) => if f == Idle(n) then Busy(n) else Broken
      case FlushDone(n, _) => if f == Busy(n) then Idle(n + 1) else Broken
      case _ => f
  }

  /** Did the flush that completed last do so without error? */
  predicate LastFlushOk(h: seq<Event>) {
    h != [] &&
    var n := |h| - 1;
    if h[n].FlushDone? then h[n].ok else LastFlushOk(h[..n])
  }

  /** The last step that a request had to take was a success: its data, or the flush it waited for.
      A request that an abort found outside the driver has failed. */
  predicate Earned(h: seq<Event>, id: RqId) {
    match PhaseOf(h, id)
    case Before(k) => !k.policy.data && (FlushFirst(k.policy) ==> LastFlushOk(h))
    case After(k, ok, loose) => ok && (k.policy.post && !loose ==> LastFlushOk(h))
    case _ => false
  }

  /** The queue has been aborted since this request was inserted. */
  predicate AbortedSince(h: seq<Event>, id: RqId) {
    exists b, a :: 0 <= b < a < |h| && h[b].Inserted? && h[b].id == id && h[a] == Aborted
  }

  /** Within h, a flush issued after index a has failed. */
  ghost predicate FailedFlush(h: seq<Event>, a: int) {
    exists j, l :: 0 <= j < l < |h| && a < j && h[j].FlushIssued? && h[l] == FlushDone(h[j].flush, false)
  }

  ghost predicate PreflushFailed(h: seq<Event>, id: RqId) {
    exists b :: 0 <= b < |h| && h[b].Inserted? && h[b].id == id && FailedFlush(h, b)
  }

  ghost predicate PostflushFailed(h: seq<Event>, id: RqId) {
    exists d :: 0 <= d < |h| && h[d] == DataDone(id, true) && FailedFlush(h, d)
  }

  /** Something went wrong for a request: a part of its data, all of it, a flush it waited for, or it
      was aborted. */
  ghost predicate Failed(h: seq<Event>, id: RqId) {
    match PhaseOf(h, id)
    case Before(k) =>
      || !k.clean || (FlushFirst(k.policy) && PreflushFailed(h, id)) || (IsPlain(k.policy) && AbortedSince(h, id))
    case After(k, ok, loose) => !k.clean || !ok || (k.policy.post && !loose && PostflushFailed(h, id))
    case Loose(_) => true
    case Dropped(_) => true
    case _ => false
  }

  /** What the submitter is to be told. */
  predicate Deserved(h: seq<Event>, id: RqId) {
    Earned(h, id) && PhaseOf(h, id).k.clean
  }

  /** Within h, a flush issued after index a has completed without error. */
  ghost predicate FlushedSince(h: seq<Event>, a: int) {
    exists j, l :: 0 <= j < l < |h| && a < j && h[j].FlushIssued? && h[l] == FlushDone(h[j].flush, true)
  }

  /** The data of this request finished without error in h and was flushed afterwards. */
  ghost predicate Postflushed(h: seq<Event>, id: RqId) {
    exists d :: 0 <= d < |h| && h[d] == DataDone(id, true) && FlushedSince(h, d)
  }

  /** A flush issued after the insertion at index a answered a request for a preflush. */
  ghost predicate Preflushed(h: seq<Event>, id: RqId) {
    forall a :: 0 <= a < |h| && h[a].Inserted? && h[a].id == id && FlushFirst(h[a].policy) ==> FlushedSince(h, a)
  }

  predicate WantsPostflush(h: seq<Event>, id: RqId) {
    exists a :: 0 <= a < |h| && h[a].Inserted? && h[a].id == id && h[a].policy.data && h[a].policy.post
  }

  /** The last thing that happened is that the data of this request finished. */
  predicate JustWritten(h: seq<Event>, id: RqId) {
    h != [] && h[|h| - 1] == DataDone(id, true)
  }

  /** The durability contract at log entry k: data moves only after the preflush, success is reported
      only after the preflush and after the postflush, and exactly if nothing failed. A request that
      an abort took out of the sequence is instead reported as soon as its data is done. */
  ghost predicate Honest(log: seq<Event>, k: nat)
    requires k < |log|
  {
    var h := log[..k];
    match log[k]
    case DataQueued(id) => Preflushed(h, id)
    case PartDone(id, _) => Preflushed(h, id)
    case DataDone(id, _) => Preflushed(h, id)
    case Notified(id, ok) =>
      && (ok <==> Deserved(h, id))
      && (!ok ==> Failed(h, id))
      && (ok ==>
            && Preflushed(h, id)
            && (WantsPostflush(h, id) && Restored(id) !in h ==> Postflushed(h, id))
            && (Restored(id) in h ==> JustWritten(h, id)))
    case _ => true
  }

  ghost predicate AllHonest(log: seq<Event>) {
    forall k :: 0 <= k < |log| ==> Honest(log, k)
  }

  // ------------------------------------------------------------------
  // The invariant

  /** The mask of a request in the sequence: steps outside its policy count as done, the others
      are done in order. */
  predicate Fits(r: Rq) {
    && (!r.policy.pre ==> r.fseq.pre)
    && (!r.policy.data ==> r.fseq.data)
    && (!r.policy.post ==> r.fseq.post)
    && (r.policy.data && r.fseq.data ==> r.fseq.pre)
    && (r.policy.post && r.fseq.post ==> r.fseq.pre && r.fseq.data)
    && !IsPlain(r.policy)
    && CurSeq(r.fseq) != Done
  }

  predicate OnQueue(s: State, id: RqId) {
    id in s.queues[0] || id in s.queues[1]
  }

  predicate Dispatched(s: State, id: RqId) {
    Req(id) in s.head || Req(id) in s.driver
  }

  /** A request is on exactly the list its step demands. */
  predicate Located(s: State, id: RqId)
    requires id in s.rqs
  {
    var r := s.rqs[id];
    var step := CurSeq(r.fseq);
    && !(id in s.queues[0] && id in s.queues[1])
    && !(Req(id) in s.head && Req(id) in s.driver)
    && (r.sequenced ==> !r.ended && Fits(r))
    && (OnQueue(s, id) <==> r.sequenced && (step == Preflush || step == Postflush))
    && (id in s.data <==> r.sequenced && step == Data)
    && (Dispatched(s, id) <==> !r.ended && (r.sequenced ==> step == Data))
    && (Dispatched(s, id) || (r.sequenced && Early(r.policy, step)) ==> r.bio == r.biotail)
  }

  predicate InPhase(r: Rq, ph: Phase) {
    var k := Kind(r.policy, r.biotail, r.uptodate);
    if r.ended then ph.Over? && ph.k.policy == r.policy && ph.k.bio == r.biotail
    else if r.sequenced then
      if Early(r.policy, CurSeq(r.fseq)) then ph == Before(k)
      else if CurSeq(r.fseq) == Data then ph == Writing(k)
      else ph == After(k, true, false)
    else (ph == Before(k) && IsPlain(r.policy) && r.policy.data) || ph == Loose(k) || ph == Dropped(k)
  }

  /** What the log remembers of a live request. */
  ghost predicate Remembered(s: State, id: RqId)
    requires id in s.rqs
  {
    var r := s.rqs[id];
    var step := CurSeq(r.fseq);
    && id in s.born && s.born[id] < |s.log|
    && s.log[s.born[id]] == Inserted(id, r.policy, r.biotail)
    && (!r.ended && !(r.sequenced && Early(r.policy, step)) && FlushFirst(r.policy) && !PhaseOf(s.log, id).Dropped? ==>
          FlushedSince(s.log, s.born[id]))
    && (OnQueue(s, id) ==>
          && id in s.since && 0 <= s.since[id] < |s.log|
          && (if Early(r.policy, step) then s.born[id] <= s.since[id]
              else s.log[s.since[id]] == DataDone(id, true)))
    && (!r.ended && !r.sequenced && (r.policy.pre || r.policy.post) ==> Restored(id) in s.log)
  }

  ghost predicate RqOk(s: State, id: RqId)
    requires id in s.rqs
  {
    && Located(s, id) && InPhase(s.rqs[id], PhaseOf(s.log, id)) && Remembered(s, id)
    && (PhaseOf(s.log, id).Dropped? ==> Req(id) in s.head)
  }

  /** Lists hold known requests without repetition, and no BUG_ON has fired. */
  ghost predicate ListsOk(s: State) {
    && !s.bug
    && NoDup(s.queues[0]) && NoDup(s.queues[1]) && NoDup(s.data) && NoDup(s.head)
    && (forall id :: OnQueue(s, id) ==> id in s.rqs)
    && (forall id :: id in s.data ==> id in s.rqs)
    && (forall id :: Dispatched(s, id) ==> id in s.rqs)
    && (forall id :: id !in s.rqs ==> PhaseOf(s.log, id) == Unborn)
  }

  /** At most one flush is outstanding, exactly when the indices differ, and the requests it
      serves were all waiting before it was issued. */
  ghost predicate FlushOk(s: State) {
    && (InFlight(s) <==> FlushRq in s.head || FlushRq in s.driver)
    && !(FlushRq in s.head && FlushRq in s.driver)
    && (InFlight(s) ==> s.flushes > 0)
    && FlightOf(s.log) == (if InFlight(s) then Busy(s.flushes - 1) else Idle(s.flushes))
    && (InFlight(s) ==>
          && s.issuedAt < |s.log|
          && s.log[s.issuedAt] == FlushIssued(s.flushes - 1)
          && forall id :: id in s.queues[s.runningIdx] ==> id in s.since && s.since[id] < s.issuedAt)
  }

  /** No request is half aborted: true whenever the queue lock is free. */
  ghost predicate Settled(s: State) {
    forall id :: id in s.rqs ==> !PhaseOf(s.log, id).Dropped?
  }

  ghost predicate Inv(s: State) {
    && ListsOk(s)
    && FlushOk(s)
    && AllHonest(s.log)
    && forall id :: id in s.rqs ==> RqOk(s, id)
  }

  // ------------------------------------------------------------------
  // One more event

  lemma PhaseSnoc(log: seq<Event>, e: Event, id: RqId)
    ensures PhaseOf(log + [e], id) == if About(e, id) then NextPhase(PhaseOf(log, id), e) else PhaseOf(log, id)
  {
    assert (log + [e])[..|log|] == log;
  }

  lemma FlightSnoc(log: seq<Event>, e: Event)
    requires !e.FlushIssued? && !e.FlushDone?
    ensures FlightOf(log + [e]) == FlightOf(log)
  {
    assert (log + [e])[..|log|] == log;
  }

  lemma HonestSnoc(log: seq<Event>, e: Event)
    requires AllHonest(log)
    requires Honest(log + [e], |log|)
    ensures AllHonest(log + [e])
  {
    var log' := log + [e];
    forall k | 0 <= k < |log'| ensures Honest(log', k) {
      if k < |log| {
        assert log'[..k] == log[..k] && log'[k] == log[k];
        assert Honest(log, k);
      }
    }
  }

  lemma FlushedSinceGrows(h: seq<Event>, h': seq<Event>, a: int)
    requires h <= h' && FlushedSince(h, a)
    ensures FlushedSince(h', a)
  {
    var j, l :| 0 <= j < l < |h| && a < j && h[j].FlushIssued? && h[l] == FlushDone(h[j].flush, true);
    assert h'[j] == h[j] && h'[l] == h[l];
  }

  lemma FlushedSinceEarlier(h: seq<Event>, a: int, b: int)
    requires a <= b && FlushedSince(h, b)
    ensures FlushedSince(h, a)
  {
    var j, l :| 0 <= j < l < |h| && b < j && h[j].FlushIssued? && h[l] == FlushDone(h[j].flush, true);
    assert a < j;
  }

  /** Wrong is absorbing, and no event leads back to Unborn. */
  lemma {:induction false} PhaseForward(log: seq<Event>, id: RqId, n: nat)
    requires n <= |log|
    ensures PhaseOf(log[..n], id) == Wrong ==> PhaseOf(log, id) == Wrong
    ensures PhaseOf(log[..n], id) != Unborn ==> PhaseOf(log, id) != Unborn
    decreases |log| - n
  {
    if n == |log| {
      assert log[..n] == log;
    } else {
      assert log[..n + 1] == log[..n] + [log[n]];
      PhaseSnoc(log[..n], log[n], id);
      PhaseForward(log, id, n + 1);
    }
  }

  lemma InsertedTwice(log: seq<Event>, id: RqId, a: nat, b: nat)
    requires a < b < |log| && log[a].Inserted? && log[b].Inserted?
    requires log[a].id == id && log[b].id == id
    ensures PhaseOf(log, id) == Wrong
  {
    assert log[..a + 1] == log[..a] + [log[a]];
    PhaseSnoc(log[..a], log[a], id);
    assert log[..b][..a + 1] == log[..a + 1];
    PhaseForward(log[..b], id, a + 1);
    assert log[..b + 1] == log[..b] + [log[b]];
    PhaseSnoc(log[..b], log[b], id);
    PhaseForward(log, id, b + 1);
  }

  /** A request is inserted once. */
  lemma InsertedOnce(log: seq<Event>, id: RqId, a: nat)
    requires PhaseOf(log, id) != Wrong
    requires a < |log| && log[a].Inserted? && log[a].id == id
    ensures forall b :: 0 <= b < |log| && log[b].Inserted? && log[b].id == id ==> b == a
  {
    forall b | 0 <= b < |log| && log[b].Inserted? && log[b].id == id
      ensures b == a
    {
      if a < b {
        InsertedTwice(log, id, a, b);
      } else if b < a {
        InsertedTwice(log, id, b, a);
      }
    }
  }

  /** In these phases no abort has touched the request. */
  predicate Untouched(ph: Phase) {
    ph.Unborn? || ph.Before? || ph.Writing? || (ph.After? && !ph.loose)
  }

  lemma {:induction false} NeverRestored(log: seq<Event>, id: RqId)
    requires Untouched(PhaseOf(log, id))
    ensures Restored(id) !in log
  {
    if log != [] {
      var n := |log| - 1;
      NeverRestored(log[..n], id);
      assert log == log[..n] + [log[n]];
    }
  }

  // ------------------------------------------------------------------
  // Frames: what a step does to the other requests

  ghost predicate SameFor(s: State, s': State, id: RqId) {
    && (id in s.rqs <==> id in s'.rqs)
    && (id in s.rqs ==> s'.rqs[id] == s.rqs[id])
    && (id in s.queues[0] <==> id in s'.queues[0])
    && (id in s.queues[1] <==> id in s'.queues[1])
    && (id in s.data <==> id in s'.data)
    && (Req(id) in s.head <==> Req(id) in s'.head)
    && (Req(id) in s.driver <==> Req(id) in s'.driver)
    && (id in s.born <==> id in s'.born)
    && (id in s.born ==> s'.born[id] == s.born[id])
    && (id in s.since <==> id in s'.since)
    && (id in s.since ==> s'.since[id] == s.since[id])
    && PhaseOf(s'.log, id) == PhaseOf(s.log, id)
    && s.log <= s'.log
  }

  lemma RqFrame(s: State, s': State, id: RqId)
    requires id in s.rqs && RqOk(s, id) && SameFor(s, s', id)
    ensures RqOk(s', id)
  {
    if FlushedSince(s.log, s.born[id]) {
      FlushedSinceGrows(s.log, s'.log, s.born[id]);
    }
    if Restored(id) in s.log {
      var i :| 0 <= i < |s.log| && s.log[i] == Restored(id);
      assert s'.log[i] == Restored(id);
    }
  }

  /** The invariant with one request left out. */
  ghost predicate InvBut(s: State, x: RqId) {
    && ListsOk(s)
    && FlushOk(s)
    && AllHonest(s.log)
    && forall id :: id in s.rqs && id != x ==> RqOk(s, id)
  }

  // ------------------------------------------------------------------
  // The three ways blk_flush_complete_seq sends a request on

  /** The request left out of the invariant: sequenced, in no dispatch queue, remembered. */
  ghost predicate InHand(s: State, id: RqId) {
    && id in s.rqs
    && var r := s.rqs[id];
    && r.sequenced && !r.ended
    && !Dispatched(s, id)
    && PhaseOf(s.log, id) != Wrong
    && id in s.born && s.born[id] < |s.log|
    && s.log[s.born[id]] == Inserted(id, r.policy, r.biotail)
  }

  lemma Assemble(s: State, s': State, id: RqId)
    requires InvBut(s, id)
    requires ListsOk(s') && FlushOk(s') && AllHonest(s'.log)
    requires forall x :: x != id ==> SameFor(s, s', x)
    requires id in s'.rqs ==> RqOk(s', id)
    ensures Inv(s')
  {
    forall x | x in s'.rqs && x != id ensures RqOk(s', x) {
      assert SameFor(s, s', x);
      RqFrame(s, s', x);
    }
  }

  /** A step that touches no request. */
  lemma AssembleAll(s: State, s': State)
    requires Inv(s) && FlushOk(s') && AllHonest(s'.log) && !s'.bug
    requires NoDup(s'.queues[0]) && NoDup(s'.queues[1]) && NoDup(s'.data) && NoDup(s'.head)
    requires forall x :: SameFor(s, s', x)
    ensures Inv(s')
  {
    assert ListsOk(s') by {
      forall x ensures (OnQueue(s', x) || x in s'.data || Dispatched(s', x) ==> x in s'.rqs)
                       && (x !in s'.rqs ==> PhaseOf(s'.log, x) == Unborn)
      {
        assert SameFor(s, s', x);
        assert OnQueue(s', x) == OnQueue(s, x) && Dispatched(s', x) == Dispatched(s, x);
      }
    }
    forall x | x in s'.rqs ensures RqOk(s', x) {
      assert SameFor(s, s', x);
      RqFrame(s, s', x);
    }
  }

  lemma UnlinkLists(s: State, id: RqId)
    requires ListsOk(s)
    ensures ListsOk(Unlink(s, id))
    ensures !OnQueue(Unlink(s, id), id) && id !in Unlink(s, id).data
  {
    RemoveNoDup(s.queues[0], id);
    RemoveNoDup(s.queues[1], id);
    RemoveNoDup(s.data, id);
  }

  lemma UnlinkFlight(s: State, id: RqId)
    requires FlushOk(s)
    ensures FlushOk(Unlink(s, id))
  {
  }

  // Waiting for a flush

  lemma QueueForFlushLists(s: State, id: RqId, now: int)
    requires ListsOk(s) && id in s.rqs
    ensures ListsOk(QueueForFlush(s, id, now))
  {
    UnlinkLists(s, id);
    NoDupAppend(Unlink(s, id).queues[s.pendingIdx], id);
  }

  lemma QueueForFlushFlight(s: State, id: RqId, now: int)
    requires ListsOk(s) && FlushOk(s)
    ensures FlushOk(QueueForFlush(s, id, now))
  {
    UnlinkLists(s, id);
    UnlinkFlight(s, id);
  }

  lemma QueueForFlushOthers(s: State, id: RqId, now: int, x: RqId)
    requires x != id
    ensures SameFor(s, QueueForFlush(s, id, now), x)
  {
  }

  /** The request waits, and what it waits for is the last thing that happened. */
  ghost predicate MustWait(s: State, id: RqId)
    requires InHand(s, id)
  {
    var r := s.rqs[id];
    var k := Kind(r.policy, r.biotail, r.uptodate);
    && Fits(r)
    && s.log != []
    && (CurSeq(r.fseq) == Preflush || CurSeq(r.fseq) == Postflush)
    && (if Early(r.policy, CurSeq(r.fseq)) then PhaseOf(s.log, id) == Before(k) && r.bio == r.biotail
        else
          && PhaseOf(s.log, id) == After(k, true, false)
          && s.log[|s.log| - 1] == DataDone(id, true)
          && (FlushFirst(r.policy) ==> FlushedSince(s.log, s.born[id])))
  }

  lemma QueueForFlushSelf(s: State, id: RqId, now: int)
    requires ListsOk(s) && InHand(s, id) && MustWait(s, id)
    ensures RqOk(QueueForFlush(s, id, now), id)
  {
    UnlinkLists(s, id);
  }

  lemma QueueForFlushKeeps(s: State, id: RqId, now: int)
    requires InvBut(s, id) && InHand(s, id) && MustWait(s, id)
    ensures Inv(QueueForFlush(s, id, now))
  {
    QueueForFlushLists(s, id, now);
    QueueForFlushFlight(s, id, now);
    QueueForFlushSelf(s, id, now);
    forall x | x != id ensures SameFor(s, QueueForFlush(s, id, now), x) {
      QueueForFlushOthers(s, id, now, x);
    }
    Assemble(s, QueueForFlush(s, id, now), id);
  }

  // Sending the data

  /** Every wish of the request for a preflush has been met. */
  lemma PreflushedNow(s: State, id: RqId)
    requires InHand(s, id)
    requires FlushFirst(s.rqs[id].policy) ==> FlushedSince(s.log, s.born[id])
    ensures Preflushed(s.log, id)
  {
    InsertedOnce(s.log, id, s.born[id]);
  }

  ghost predicate MustWrite(s: State, id: RqId)
    requires InHand(s, id)
  {
    var r := s.rqs[id];
    && Fits(r) && CurSeq(r.fseq) == Data
    && PhaseOf(s.log, id) == Before(Kind(r.policy, r.biotail, r.uptodate))
    && r.bio == r.biotail
    && (FlushFirst(r.policy) ==> FlushedSince(s.log, s.born[id]))
  }

  lemma QueueDataLog(s: State, id: RqId, x: RqId)
    requires InHand(s, id) && MustWrite(s, id) && AllHonest(s.log)
    ensures AllHonest(QueueData(s, id).log)
    ensures FlightOf(QueueData(s, id).log) == FlightOf(s.log)
    ensures PhaseOf(QueueData(s, id).log, x) == if x == id then Writing(PhaseOf(s.log, id).k) else PhaseOf(s.log, x)
  {
    var e := DataQueued(id);
    PreflushedNow(s, id);
    assert (s.log + [e])[..|s.log|] == s.log;
    HonestSnoc(s.log, e);
    FlightSnoc(s.log, e);
    PhaseSnoc(s.log, e, x);
  }

  lemma QueueDataLists(s: State, id: RqId)
    requires ListsOk(s) && InHand(s, id) && MustWrite(s, id) && AllHonest(s.log)
    ensures ListsOk(QueueData(s, id))
  {
    UnlinkLists(s, id);
    NoDupAppend(Unlink(s, id).data, id);
    NoDupAppend(s.head, Req(id));
    forall x ensures x !in s.rqs ==> PhaseOf(QueueData(s, id).log, x) == Unborn {
      QueueDataLog(s, id, x);
    }
  }

  lemma QueueDataFlight(s: State, id: RqId)
    requires FlushOk(s) && InHand(s, id) && MustWrite(s, id) && AllHonest(s.log)
    ensures FlushOk(QueueData(s, id))
  {
    UnlinkFlight(s, id);
    QueueDataLog(s, id, id);
  }

  lemma QueueDataSelf(s: State, id: RqId)
    requires ListsOk(s) && InHand(s, id) && MustWrite(s, id) && AllHonest(s.log)
    ensures RqOk(QueueData(s, id), id)
  {
    UnlinkLists(s, id);
    QueueDataLog(s, id, id);
    if FlushFirst(s.rqs[id].policy) {
      FlushedSinceGrows(s.log, QueueData(s, id).log, s.born[id]);
    }
  }

  lemma QueueDataOthers(s: State, id: RqId, x: RqId)
    requires InHand(s, id) && MustWrite(s, id) && AllHonest(s.log) && x != id
    ensures SameFor(s, QueueData(s, id), x)
  {
    QueueDataLog(s, id, x);
  }

  lemma QueueDataKeeps(s: State, id: RqId)
    requires InvBut(s, id) && InHand(s, id) && MustWrite(s, id)
    ensures Inv(QueueData(s, id))
  {
    QueueDataLists(s, id);
    QueueDataFlight(s, id);
    QueueDataSelf(s, id);
    forall x | x != id ensures SameFor(s, QueueData(s, id), x) {
      QueueDataOthers(s, id, x);
    }
    QueueDataLog(s, id, id);
    Assemble(s, QueueData(s, id), id);
  }

  // Reporting to the submitter

  /** The request is on no list and may be reported with this outcome. */
  ghost predicate MayReport(s: State, id: RqId, error: bool) {
    && id in s.rqs
    && !OnQueue(s, id) && id !in s.data && !Dispatched(s, id)
    && !s.rqs[id].sequenced
    && s.rqs[id].bio == s.rqs[id].biotail
    && MayEnd(PhaseOf(s.log, id), !error)
    && PhaseOf(s.log, id).k.policy == s.rqs[id].policy && PhaseOf(s.log, id).k.bio == s.rqs[id].biotail
    && (!error && s.rqs[id].uptodate <==> Deserved(s.log, id))
    && (error || !s.rqs[id].uptodate ==> Failed(s.log, id))
    && id in s.born && s.born[id] < |s.log|
    && s.log[s.born[id]] == Inserted(id, s.rqs[id].policy, s.rqs[id].biotail)
    && (!error ==>
          && Preflushed(s.log, id)
          && (WantsPostflush(s.log, id) && Restored(id) !in s.log ==> Postflushed(s.log, id))
          && (Restored(id) in s.log ==> JustWritten(s.log, id)))
  }

  lemma NotifyLog(log: seq<Event>, id: RqId, ok: bool)
    requires AllHonest(log)
    requires (ok <==> Deserved(log, id)) && (!ok ==> Failed(log, id))
    requires ok ==> Preflushed(log, id)
    requires ok && WantsPostflush(log, id) && Restored(id) !in log ==> Postflushed(log, id)
    requires ok && Restored(id) in log ==> JustWritten(log, id)
    ensures AllHonest(log + [Notified(id, ok)])
  {
    var e := Notified(id, ok);
    assert (log + [e])[..|log|] == log;
    HonestSnoc(log, e);
  }

  lemma EndLog(log: seq<Event>, id: RqId, ok: bool)
    requires AllHonest(log)
    ensures AllHonest(log + [Ended(id, ok)])
  {
    HonestSnoc(log, Ended(id, ok));
  }

  function ReportLog(log: seq<Event>, id: RqId, bio: bool, told: bool, ok: bool): seq<Event> {
    (if bio then log + [Notified(id, told)] else log) + [Ended(id, ok)]
  }

  lemma ReportLogPhase(log: seq<Event>, id: RqId, bio: bool, told: bool, ok: bool, x: RqId)
    requires MayEnd(PhaseOf(log, id), ok) && (told ==> ok)
    requires PhaseOf(log, id).k.bio == bio
    ensures
      var log' := ReportLog(log, id, bio, told, ok);
      && PhaseOf(log', x) == (if x == id then Over(PhaseOf(log, id).k) else PhaseOf(log, x))
      && FlightOf(log') == FlightOf(log)
      && log <= log'
  {
    var n := Notified(id, told);
    var mid := if bio then log + [n] else log;
    FlightSnoc(log, n);
    PhaseSnoc(log, n, x);
    var e := Ended(id, ok);
    FlightSnoc(mid, e);
    PhaseSnoc(mid, e, x);
  }

  lemma EndPlainLog(s: State, id: RqId, error: bool, x: RqId)
    requires MayReport(s, id, error) && AllHonest(s.log)
    ensures AllHonest(EndPlain(s, id, error).log)
    ensures FlightOf(EndPlain(s, id, error).log) == FlightOf(s.log)
    ensures PhaseOf(EndPlain(s, id, error).log, x) 
         == if x == id then Over(PhaseOf(s.log, id).k) else PhaseOf(s.log, x)
    ensures s.log <= EndPlain(s, id, error).log
  {
    var r := s.rqs[id];
    var told := !error && r.uptodate;
    assert EndPlain(s, id, error).log == ReportLog(s.log, id, r.bio, told, !error);
    ReportLogPhase(s.log, id, r.bio, told, !error, x);
    if r.bio {
      NotifyLog(s.log, id, told);
      EndLog(s.log + [Notified(id, told)], id, !error);
    } else {
      EndLog(s.log, id, !error);
    }
  }

  lemma EndPlainLists(s: State, id: RqId, error: bool)
    requires MayReport(s, id, error) && AllHonest(s.log) && ListsOk(s)
    ensures ListsOk(EndPlain(s, id, error)) && RqOk(EndPlain(s, id, error), id)
  {
    EndPlainLog(s, id, error, id);
    forall x | x !in s.rqs ensures PhaseOf(EndPlain(s, id, error).log, x) == Unborn {
      EndPlainLog(s, id, error, x);
    }
  }

  lemma EndPlainFlight(s: State, id: RqId, error: bool)
    requires MayReport(s, id, error) && AllHonest(s.log) && FlushOk(s)
    ensures FlushOk(EndPlain(s, id, error)) && AllHonest(EndPlain(s, id, error).log)
  {
    hide PhaseOf, FlightOf, AllHonest;
    EndPlainLog(s, id, error, id);
  }

  lemma EndPlainOthers(s: State, id: RqId, error: bool, x: RqId)
    requires id in s.rqs && x != id
    ensures SameFor(s, EndPlain(s, id, error), x)
  {
    hide PhaseOf, NextPhase, EndPlain;
    var r := s.rqs[id];
    EndPlainFrame(s, id, error);
    ReportLogOthers(s.log, id, r.bio, !error && r.uptodate, !error, x);
  }

  lemma EndPlainFrame(s: State, id: RqId, error: bool)
    requires id in s.rqs
    ensures
      var s', r := EndPlain(s, id, error), s.rqs[id];
      && s' == s.(rqs := s.rqs[id := s'.rqs[id]], log := s'.log, bug := s'.bug)
      && s'.log == ReportLog(s.log, id, r.bio, !error && r.uptodate, !error)
  {
  }

  lemma ReportLogOthers(log: seq<Event>, id: RqId, bio: bool, told: bool, ok: bool, x: RqId)
    requires x != id
    ensures
      var log' := ReportLog(log, id, bio, told, ok);
      log <= log' && PhaseOf(log', x) == PhaseOf(log, x)
  {
    hide PhaseOf, NextPhase;
    var n := Notified(id, told);
    PhaseSnoc(log, n, x);
    PhaseSnoc(if bio then log + [n] else log, Ended(id, ok), x);
  }

  lemma EndPlainKeeps(s: State, id: RqId, error: bool)
    requires InvBut(s, id) && MayReport(s, id, error)
    ensures Inv(EndPlain(s, id, error))
  {
    var s' := EndPlain(s, id, error);
    EndPlainLists(s, id, error);
    EndPlainFlight(s, id, error);
    forall x | x != id ensures SameFor(s, s', x) {
      EndPlainOthers(s, id, error, x);
    }
    Assemble(s, s', id);
  }

  /** The request leaves the sequence, with every flush it asked for behind it unless it fails. */
  ghost predicate MustEnd(s: State, id: RqId, error: bool)
    requires InHand(s, id)
  {
    var r := s.rqs[id];
    var ph := PhaseOf(s.log, id);
    && (ph.Before? || (ph.After? && !ph.loose)) && ph.k.policy == r.policy && ph.k.bio == r.biotail
    && (!error <==> Earned(s.log, id)) && (error ==> Failed(s.log, id))
    && (!error ==>
          && ph.k.clean == r.uptodate
          && MayEnd(ph, true)
          && (FlushFirst(r.policy) ==> FlushedSince(s.log, s.born[id]))
          && (r.policy.data && r.policy.post ==> Postflushed(s.log, id)))
  }

  lemma EndSequenceKeeps(s: State, id: RqId, error: bool)
    requires InvBut(s, id) && InHand(s, id) && MustEnd(s, id, error)
    ensures Inv(EndSequence(s, id, error))
  {
    var u := Unlink(s, id);
    var s1 := u.(rqs := s.rqs[id := Restore(s.rqs[id])], bug := s.bug || Req(id) in s.head);
    UnlinkLists(s, id);
    UnlinkFlight(s, id);
    assert InvBut(s1, id) by {
      forall x | x in s1.rqs && x != id ensures RqOk(s1, x) {
        assert SameFor(s, s1, x);
        RqFrame(s, s1, x);
      }
    }
    if !error {
      PreflushedNow(s, id);
      InsertedOnce(s.log, id, s.born[id]);
      NeverRestored(s.log, id);
    }
    EndPlainKeeps(s1, id, error);
  }

  // Issuing a flush

  lemma KickFlushLog(s: State, now: int, x: RqId)
    requires AllHonest(s.log) && FlushOk(s)
    ensures AllHonest(KickFlush(s, now).0.log)
    ensures PhaseOf(KickFlush(s, now).0.log, x) == PhaseOf(s.log, x)
    ensures s.log <= KickFlush(s, now).0.log
  {
    var e := FlushIssued(s.flushes);
    HonestSnoc(s.log, e);
    PhaseSnoc(s.log, e, x);
  }

  lemma KickFlushOthers(s: State, now: int, x: RqId)
    requires AllHonest(s.log) && FlushOk(s)
    ensures SameFor(s, KickFlush(s, now).0, x)
  {
    KickFlushLog(s, now, x);
  }

  lemma KickFlushFlight(s: State, now: int)
    requires FlushOk(s)
    requires forall id :: id in Pending(s) ==> id in s.since && s.since[id] < |s.log|
    ensures FlushOk(KickFlush(s, now).0)
  {
    var e := FlushIssued(s.flushes);
    assert (s.log + [e])[..|s.log|] == s.log;
  }

  lemma WaitersKnown(s: State, i: Index)
    requires Inv(s)
    ensures forall id :: id in s.queues[i] ==> id in s.rqs && id in s.since && s.since[id] < |s.log|
  {
    forall id | id in s.queues[i] ensures id in s.rqs && id in s.since && s.since[id] < |s.log| {
      assert OnQueue(s, id) && RqOk(s, id);
    }
  }

  lemma KickFlushKeeps(s: State, now: int)
    requires Inv(s)
    ensures Inv(KickFlush(s, now).0)
  {
    var (s', kicked) := KickFlush(s, now);
    if kicked {
      WaitersKnown(s, s.pendingIdx);
      KickFlushFlight(s, now);
      NoDupAppend(s.head, FlushRq);
      KickFlushLog(s, now, 0);
      forall x ensures SameFor(s, s', x) {
        KickFlushOthers(s, now, x);
      }
      AssembleAll(s, s');
    }
  }
}

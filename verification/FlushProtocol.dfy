/**
 The FLUSH/FUA sequencer of block/blk-flush.c as a transition system.

 Every function below is one lock-held section. `State` holds the fields the C code
 changes (the double-buffered flush lists, their two indices, the data list, the dispatch
 queue, the requests) and a `log` of what an observer outside the block layer can see.
 */
module FlushProtocol {
  import opened Lists

  type RqId = nat

  /** Ticks per second, a build option of the kernel. */
  const HZ: nat
  const FLUSH_PENDING_TIMEOUT: nat := 5 * HZ

  datatype Step = Preflush | Data | Postflush | Done

  /** A mask of REQ_FSEQ_ACTIONS. */
  datatype Steps = Steps(pre: bool, data: bool, post: bool) {
    function Union(o: Steps): Steps {
      Steps(pre || o.pre, data || o.data, post || o.post)
    }

    function Complement(): Steps {
      Steps(!pre, !data, !post)
    }

    predicate Overlaps(o: Steps) {
      (pre && o.pre) || (data && o.data) || (post && o.post)
    }

    predicate IsEmpty() {
      !pre && !data && !post
    }

    /** How many steps are missing. */
    function Left(): nat {
      (if pre then 0 else 1) + (if data then 0 else 1) + (if post then 0 else 1)
    }
  }

  /** blk_flush_cur_seq: the lowest clear bit of flush.seq. */
  function CurSeq(m: Steps): Step {
    if !m.pre then Preflush else if !m.data then Data else if !m.post then Postflush else Done
  }

  function Mask(step: Step): Steps {
    Steps(step == Preflush, step == Data, step == Postflush)
  }

  /** blk_flush_policy, from the queue's flush_flags and the request's own flags. */
  function Policy(devFlush: bool, devFua: bool, flush: bool, fua: bool, hasData: bool): Steps {
    Steps(devFlush && flush, hasData, devFlush && !devFua && fua)
  }

  /** struct request, for the single-bio requests the sequencer accepts. `policy` is what
      blk_flush_policy decided at insertion; `fua` is the REQ_FUA bit the driver will see. */
  datatype Rq = Rq(policy: Steps, fseq: Steps, sequenced: bool, fua: bool,
                   bio: bool, biotail: bool, size: nat, uptodate: bool, ended: bool)

  datatype Item = FlushRq | Req(id: RqId)

  datatype Event =
    | Inserted(id: RqId, policy: Steps, bio: bool)
    | DataQueued(id: RqId)
    | PartDone(id: RqId, ok: bool)
    | DataDone(id: RqId, ok: bool)
    | Restored(id: RqId)
    | Notified(id: RqId, ok: bool)
    | Ended(id: RqId, ok: bool)
    | FlushIssued(flush: nat)
    | FlushDone(flush: nat, ok: bool)
    | RunQueue
    | Aborted

  type Index = i: nat | i < 2
  type Queues = q: seq<seq<RqId>> | |q| == 2 witness [[], []]

  function Flip(i: Index): Index {
    1 - i
  }

  /** `bug` records that a BUG_ON has fired. `log`, `born`, `since`, `queuedAt`, `issuedAt` and
      `flushes` are history: no other field is ever computed from them. */
  datatype State = State(
    rqs: map<RqId, Rq>,
    queues: Queues,
    pendingIdx: Index,
    runningIdx: Index,
    data: seq<RqId>,
    head: seq<Item>,
    driver: set<Item>,
    pendingSince: int,
    delayed: bool,
    bug: bool,
    log: seq<Event>,
    born: map<RqId, nat>,
    since: map<RqId, int>,
    queuedAt: map<RqId, int>,
    issuedAt: nat,
    flushes: nat
  )

  const INIT: State :=
    State(map[], [[], []], 0, 0, [], [], {}, 0, false, false, [], map[], map[], map[], 0, 0)

  predicate InFlight(s: State) {
    s.pendingIdx != s.runningIdx
  }

  function Pending(s: State): seq<RqId> {
    s.queues[s.pendingIdx]
  }

  function Log(s: State, e: Event): State {
    s.(log := s.log + [e])
  }

  /** blk_flush_restore_request. */
  function Restore(r: Rq): Rq {
    r.(bio := r.biotail, sequenced := false)
  }

  /** __blk_end_request_all on a request outside the flush sequence: blk_update_request ends
      the bio (req_bio_endio reports an error if any part of it failed), blk_finish_request
      ends the request. */
  function EndPlain(s: State, id: RqId, error: bool): (r: State)
    requires id in s.rqs
    ensures r.rqs.Keys == s.rqs.Keys
  {
    var rq := s.rqs[id];
    var ok := !error && rq.uptodate;
    var r' := rq.(bio := false, size := 0, uptodate := if rq.bio then ok else rq.uptodate, ended := true);
    var s1 := if rq.bio then Log(s, Notified(id, ok)) else s;
    Log(s1.(rqs := s.rqs[id := r'], bug := s.bug || Req(id) in s.head), Ended(id, !error))
  }

  /** Takes a request off whichever flush list it is on (list_del_init of flush.list). */
  function Unlink(s: State, id: RqId): State {
    s.(queues := [Remove(s.queues[0], id), Remove(s.queues[1], id)], data := Remove(s.data, id))
  }

  /** blk_kick_flush: conditions C1, C2 and C3, then issue and toggle the pending index. */
  function KickFlush(s: State, now: int): (State, bool) {
    if InFlight(s) || Pending(s) == [] then (s, false)
    else if s.data != [] && now < s.pendingSince + FLUSH_PENDING_TIMEOUT then (s, false)
    else
      (s.(pendingIdx := Flip(s.pendingIdx),
          head := s.head + [FlushRq],
          issuedAt := |s.log|,
          flushes := s.flushes + 1,
          log := s.log + [FlushIssued(s.flushes)]), true)
  }

  function QueueForFlush(s: State, id: RqId, now: int): State {
    var since := if Pending(s) == [] then now else s.pendingSince;
    var u := Unlink(s, id);
    u.(queues := u.queues[s.pendingIdx := u.queues[s.pendingIdx] + [id]],
       pendingSince := since,
       since := s.since[id := |s.log| - 1],
       queuedAt := s.queuedAt[id := now])
  }

  function QueueData(s: State, id: RqId): State {
    var u := Unlink(s, id);
    Log(u.(data := u.data + [id], head := [Req(id)] + s.head), DataQueued(id))
  }

  function EndSequence(s: State, id: RqId, error: bool): (r: State)
    requires id in s.rqs
    ensures r.rqs.Keys == s.rqs.Keys
  {
    var u := Unlink(s, id);
    EndPlain(u.(rqs := s.rqs[id := Restore(s.rqs[id])], bug := s.bug || Req(id) in s.head), id, error)
  }

  /** blk_flush_complete_seq up to its final blk_kick_flush. */
  function Advance(s: State, id: RqId, steps: Steps, error: bool, now: int): (r: State)
    requires id in s.rqs
    ensures r.rqs.Keys == s.rqs.Keys
  {
    var rq := s.rqs[id];
    var fseq' := rq.fseq.Union(steps);
    var s1 := s.(rqs := s.rqs[id := rq.(fseq := fseq')], bug := s.bug || rq.fseq.Overlaps(steps));
    var next := if error then Done else CurSeq(fseq');
    match next
    case Data => QueueData(s1, id)
    case Done => EndSequence(s1, id, error)
    case _ => QueueForFlush(s1, id, now)
  }

  /** blk_flush_complete_seq: the new state, and whether the dispatch queue grew. */
  function CompleteSeq(s: State, id: RqId, steps: Steps, error: bool, now: int): (r: (State, bool))
    requires id in s.rqs
    ensures r.0.rqs.Keys == s.rqs.Keys
  {
    var queued := !error && CurSeq(s.rqs[id].fseq.Union(steps)) == Data;
    var (k, kicked) := KickFlush(Advance(s, id, steps, error, now), now);
    (k, kicked || queued)
  }

  /** The body of the flush_end_io loop. */
  function PushNext(s: State, id: RqId, error: bool, now: int): (r: (State, bool))
    requires id in s.rqs
    ensures r.0.rqs.Keys == s.rqs.Keys
  {
    var cur := CurSeq(s.rqs[id].fseq);
    var s1 := s.(bug := s.bug || (cur != Preflush && cur != Postflush));
    CompleteSeq(s1, id, Mask(cur), error, now)
  }

  /** How many steps the requests of a list have before them, counting the end of each as one. */
  function Work(rqs: map<RqId, Rq>, ids: seq<RqId>): nat
    requires forall id :: id in ids ==> id in rqs
  {
    if ids == [] then 0 else 1 + rqs[ids[0]].fseq.Left() + Work(rqs, ids[1..])
  }

  lemma {:induction false} WorkSnoc(rqs: map<RqId, Rq>, ids: seq<RqId>, id: RqId)
    requires id in rqs && forall x :: x in ids ==> x in rqs
    ensures Work(rqs, ids + [id]) == Work(rqs, ids) + 1 + rqs[id].fseq.Left()
    decreases |ids|
  {
    if ids == [] {
      assert [id][1..] == [];
    } else {
      assert (ids + [id])[1..] == ids[1..] + [id];
      WorkSnoc(rqs, ids[1..], id);
    }
  }

  lemma {:induction false} WorkFalls(rqs: map<RqId, Rq>, rqs': map<RqId, Rq>, ids: seq<RqId>)
    requires forall x :: x in ids ==> x in rqs && x in rqs' && rqs'[x].fseq.Left() <= rqs[x].fseq.Left()
    ensures Work(rqs', ids) <= Work(rqs, ids)
    decreases |ids|
  {
    if ids != [] {
      WorkFalls(rqs, rqs', ids[1..]);
    }
  }

  lemma EndSequenceFrame(s: State, id: RqId, error: bool)
    requires id in s.rqs
    ensures
      var s' := EndSequence(s, id, error);
      && s'.queues == Unlink(s, id).queues && s'.pendingIdx == s.pendingIdx && s'.runningIdx == s.runningIdx
      && (forall x :: x in s.rqs ==> x in s'.rqs && s'.rqs[x].fseq == s.rqs[x].fseq)
  {
  }

  lemma AdvancedOn(s: State, w: Index, steps: Steps, error: bool, now: int)
    requires s.queues[w] != [] && s.queues[w][0] in s.rqs
    ensures
      var list, id := s.queues[w], s.queues[w][0];
      var s', fseq' := Advance(s, id, steps, error, now), s.rqs[id].fseq.Union(steps);
      && s'.rqs[id].fseq == fseq' && (forall x :: x in s.rqs && x != id ==> s'.rqs[x].fseq == s.rqs[x].fseq)
      && (s'.queues[w] == list[1..]
          || (s'.queues[w] == list[1..] + [id] && (CurSeq(fseq') == Preflush || CurSeq(fseq') == Postflush)))
  {
    hide EndSequence, Unlink;
    var list, id := s.queues[w], s.queues[w][0];
    var rq := s.rqs[id];
    var fseq' := rq.fseq.Union(steps);
    var s1 := s.(rqs := s.rqs[id := rq.(fseq := fseq')], bug := s.bug || rq.fseq.Overlaps(steps));
    UnlinkFirst(s1, w);
    match (if error then Done else CurSeq(fseq')) {
      case Data =>
        assert Advance(s, id, steps, error, now) == QueueData(s1, id);
      case Done =>
        EndSequenceFrame(s1, id, error);
        assert Advance(s, id, steps, error, now) == EndSequence(s1, id, error);
      case _ =>
        assert Advance(s, id, steps, error, now) == QueueForFlush(s1, id, now);
    }
  }

  lemma UnlinkFirst(s: State, w: Index)
    requires s.queues[w] != []
    ensures
      var u := Unlink(s, s.queues[w][0]);
      u.queues[w] == s.queues[w][1..] && u == s.(queues := u.queues, data := u.data)
  {
    var list := s.queues[w];
    assert list == [list[0]] + list[1..];
    RemoveHead(list[0], list[1..]);
  }

  /** The first request of a list, pushed on, leaves the list or goes to its end one step further. */
  lemma PushedOn(s: State, w: Index, error: bool, now: int)
    requires s.queues[w] != [] && s.queues[w][0] in s.rqs
    ensures
      var list, id := s.queues[w], s.queues[w][0];
      var s' := PushNext(s, id, error, now).0;
      && (forall x :: x in s.rqs ==> s'.rqs[x].fseq.Left() <= s.rqs[x].fseq.Left())
      && (s'.queues[w] == list[1..]
          || (s'.queues[w] == list[1..] + [id] && s'.rqs[id].fseq.Left() < s.rqs[id].fseq.Left()))
  {
    hide Advance, KickFlush, PushNext, Mask;
    var id := s.queues[w][0];
    var m := s.rqs[id].fseq;
    var cur := CurSeq(m);
    var s0 := s.(bug := s.bug || (cur != Preflush && cur != Postflush));
    PushNextForm(s, id, error, now);
    AdvancedOn(s0, w, Mask(cur), error, now);
    KickLeaves(Advance(s0, id, Mask(cur), error, now), now);
    StepTaken(m);
  }

  lemma PushNextForm(s: State, id: RqId, error: bool, now: int)
    requires id in s.rqs
    ensures
      var cur := CurSeq(s.rqs[id].fseq);
      var s0 := s.(bug := s.bug || (cur != Preflush && cur != Postflush));
      PushNext(s, id, error, now).0 == KickFlush(Advance(s0, id, Mask(cur), error, now), now).0
  {
    hide Advance, KickFlush;
  }

  lemma StepTaken(m: Steps)
    ensures
      var m' := m.Union(Mask(CurSeq(m)));
      m'.Left() <= m.Left() && (CurSeq(m') == Preflush || CurSeq(m') == Postflush ==> m'.Left() < m.Left())
  {
  }

  lemma KickLeaves(s: State, now: int)
    ensures
      var s' := KickFlush(s, now).0;
      s'.queues == s.queues && s'.rqs == s.rqs && s'.runningIdx == s.runningIdx && s'.data == s.data
  {
  }

  lemma PushShrinks(s: State, w: Index, error: bool, now: int)
    requires s.queues[w] != [] && forall id :: id in s.queues[w] ==> id in s.rqs
    ensures
      var s' := PushNext(s, s.queues[w][0], error, now).0;
      && (forall id :: id in s'.queues[w] ==> id in s.queues[w])
      && (forall id :: id in s'.queues[w] ==> id in s'.rqs)
      && Work(s'.rqs, s'.queues[w]) < Work(s.rqs, s.queues[w])
  {
    hide PushNext;
    var list, id := s.queues[w], s.queues[w][0];
    var s' := PushNext(s, id, error, now).0;
    PushedOn(s, w, error, now);
    WorkFalls(s.rqs, s'.rqs, list[1..]);
    if s'.queues[w] != list[1..] {
      WorkSnoc(s'.rqs, list[1..], id);
    }
  }

  /** The flush_end_io loop over list w, which its body changes. Every request leaves the place of
      the cursor, so the saved successor is always the new head, and there is none exactly if the
      request was alone. */
  function PushAll(s: State, w: Index, error: bool, now: int): (State, bool)
    requires forall id :: id in s.queues[w] ==> id in s.rqs
    decreases Work(s.rqs, s.queues[w])
  {
    if s.queues[w] == [] then (s, false)
    else
      var (s1, q1) := PushNext(s, s.queues[w][0], error, now);
      PushShrinks(s, w, error, now);
      if |s.queues[w]| == 1 then (s1, q1)
      else
        var (s2, q2) := PushAll(s1, w, error, now);
        (s2, q1 || q2)
  }

  /** flush_end_io. */
  function FlushEndIo(s: State, error: bool, now: int): State
    requires forall id :: id in s.queues[s.runningIdx] ==> id in s.rqs
  {
    var s0 := Log(s.(runningIdx := Flip(s.runningIdx), bug := s.bug || !InFlight(s)),
                  FlushDone(if s.flushes == 0 then 0 else s.flushes - 1, !error));
    var (s1, queued) := PushAll(s0, s.runningIdx, error, now);
    var s2 := if queued || s1.delayed then Log(s1, RunQueue) else s1;
    s2.(delayed := false)
  }

  /** The driver completes a request it holds: req_bio_endio keeps the bio of a sequenced
      request, and flush_data_end_io moves the sequence on. */
  function EndRequest(s: State, id: RqId, error: bool, now: int): State
    requires id in s.rqs
  {
    var d := Log(s.(driver := s.driver - {Req(id)}), DataDone(id, !error));
    var r := s.rqs[id];
    if !r.sequenced then EndPlain(d, id, error)
    else
      var r' := if r.bio then r.(bio := false, size := 0, uptodate := r.uptodate && !error) else r;
      var (s1, queued) := CompleteSeq(d.(rqs := s.rqs[id := r']), id, Mask(Data), error, now);
      if queued then Log(s1, RunQueue) else s1
  }

  /** A partial completion by blk_update_request: the request stays with the driver. */
  function Progress(s: State, id: RqId, n: nat, error: bool): State
    requires id in s.rqs && n < s.rqs[id].size
  {
    var r := s.rqs[id];
    Log(s.(rqs := s.rqs[id := r.(size := r.size - n, uptodate := r.uptodate && !error)]), PartDone(id, !error))
  }

  /** blk_insert_flush. */
  function InsertFlush(s: State, id: RqId, devFlush: bool, devFua: bool, flush: bool, fua: bool,
                       size: nat, bio: bool, now: int): State
  {
    var policy := Policy(devFlush, devFua, flush, fua, size > 0);
    var r := Rq(policy, Steps(false, false, false), false, fua && devFua, bio, bio, size, true, false);
    var s1 := Log(s.(rqs := s.rqs[id := r], born := s.born[id := |s.log|]), Inserted(id, policy, bio));
    if policy.IsEmpty() then EndPlain(s1, id, false)
    else if policy.data && !policy.pre && !policy.post then s1.(head := s.head + [Req(id)])
    else CompleteSeq(s1.(rqs := s.rqs[id := r.(sequenced := true)]), id, policy.Complement(), false, now).0
  }

  /** The elevator moves an ordinary request to the tail of the dispatch queue. */
  function Dispatch(s: State, id: RqId, size: nat, bio: bool): State {
    var policy := Steps(false, true, false);
    var r := Rq(policy, Steps(false, false, false), false, false, bio, bio, size, true, false);
    Log(s.(rqs := s.rqs[id := r], born := s.born[id := |s.log|], head := s.head + [Req(id)]),
        Inserted(id, policy, bio))
  }

  datatype Feed = Nothing | Ordinary(id: RqId, size: nat, bio: bool)

  /** __elv_next_request: `feed` is what the elevator would dispatch if it were asked. The
      queue is held while a flush runs that the drive cannot queue. */
  function NextRequest(s: State, queueable: bool, feed: Feed): (State, Option<Item>) {
    if s.head != [] then (s, Some(s.head[0]))
    else if InFlight(s) && !queueable then (s.(delayed := true), None)
    else match feed
      case Nothing => (s, None)
      case Ordinary(id, size, bio) => (Dispatch(s, id, size, bio), Some(Req(id)))
  }

  /** blk_start_request on the head of the dispatch queue: the driver takes it. */
  function Start(s: State): State
    requires s.head != []
  {
    s.(head := s.head[1..], driver := s.driver + {s.head[0]})
  }

  /** blk_fetch_request: __elv_next_request, then the driver dequeues what it returned. */
  function Fetch(s: State, queueable: bool, feed: Feed): State {
    var s1 := NextRequest(s, queueable, feed).0;
    if s1.head == [] then s1 else Start(s1)
  }

  /** blk_requeue_request: the driver puts a request back at the front. */
  function Requeue(s: State, item: Item): State {
    s.(head := [item] + s.head, driver := s.driver - {item})
  }

  /** blk_abort_flushes, first loop: requests in their data phase become ordinary. */
  function RestoreAll(s: State): (r: State)
    requires forall id :: id in s.data ==> id in s.rqs
    ensures r.rqs.Keys == s.rqs.Keys && r.queues == s.queues && r.head == s.head && r.data == []
    decreases |s.data|
  {
    if s.data == [] then s
    else
      var id := s.data[0];
      RestoreAll(Log(s.(rqs := s.rqs[id := Restore(s.rqs[id])], data := s.data[1..]), Restored(id)))
  }

  /** blk_abort_flushes, second loop: waiting requests become ordinary and are given away. */
  function GiveAway(s: State, i: Index): (r: State)
    requires forall id :: id in s.queues[i] ==> id in s.rqs
    ensures r.rqs.Keys == s.rqs.Keys && r.queues == s.queues[i := []]
    ensures forall x :: Req(x) in r.head ==> Req(x) in s.head || x in s.queues[i]
    decreases |s.queues[i]|
  {
    if s.queues[i] == [] then s
    else
      var id := s.queues[i][0];
      GiveAway(Log(s.(rqs := s.rqs[id := Restore(s.rqs[id])],
                      queues := s.queues[i := s.queues[i][1..]],
                      head := s.head + [Req(id)]), Restored(id)), i)
  }

  /** The completion of a flush that nobody waits for. */
  lemma EndsAlone(s: State, now: int)
    requires s.queues == [[], []]
    ensures
      var s' := FlushEndIo(s, true, now);
      s'.head == s.head && s'.queues == s.queues && s'.rqs == s.rqs
  {
  }

  /** The elv_abort_queue loop: everything on the dispatch queue fails. */
  function FailAll(s: State, now: int): State
    requires forall id :: Req(id) in s.head ==> id in s.rqs
    requires s.queues == [[], []]
    decreases |s.head|
  {
    if s.head == [] then s
    else
      var s1 := s.(head := s.head[1..]);
      match s.head[0]
      case Req(id) =>
        assert Req(id) in s.head;
        FailAll(EndPlain(s1, id, true), now)
      case FlushRq =>
        EndsAlone(s1, now);
        FailAll(FlushEndIo(s1, true, now), now)
  }

  /** elv_abort_queue. */
  function Abort(s: State, now: int): State
    requires forall id :: id in s.data || id in s.queues[0] || id in s.queues[1] ==> id in s.rqs
    requires forall id :: Req(id) in s.head ==> id in s.rqs
  {
    FailAll(GiveAway(GiveAway(RestoreAll(Log(s, Aborted)), 0), 1), now)
  }
}

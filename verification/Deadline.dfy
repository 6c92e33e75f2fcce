/**
 The deadline scheduler (block/deadline-iosched.c) as a state machine. Every queued request of a
 direction is on two indexes: one sorted by sector, one in order of expiry.
 */
module Deadline {
  import opened Lists

  datatype Dir = Read | Write

  datatype Rq = Rq(dir: Dir, pos: nat, expires: int)

  type Int32 = x: int | -0x8000_0000 <= x < 0x8000_0000

  /** The tunables. sysfs clamps fifo_batch and the expiries to be non-negative, but admits any int
      for writes_starved. */
  datatype Config = Config(fifoBatch: nat, writesStarved: Int32, readExpire: nat, writeExpire: nat)

  /** What the unsigned counter is compared with: writes_starved as an unsigned int. */
  function Threshold(c: Config): nat {
    if c.writesStarved < 0 then c.writesStarved + 0x1_0000_0000 else c.writesStarved
  }

  /** sort_list, fifo_list and next_rq of one direction. */
  datatype Lane = Lane(sort: seq<nat>, fifo: seq<nat>, next: Option<nat>)

  /** `rqs` holds the fields of every request ever added, `out` is what was moved to the dispatch
      queue. */
  datatype State = State(now: int, rqs: map<nat, Rq>, read: Lane, write: Lane, batching: nat, starved: nat,
                         out: seq<nat>)

  const START := State(0, map[], Lane([], [], None), Lane([], [], None), 0, 0, [])

  function Expire(c: Config, d: Dir): int {
    if d == Read then c.readExpire else c.writeExpire
  }

  function Other(d: Dir): Dir {
    if d == Read then Write else Read
  }

  function LaneOf(s: State, d: Dir): Lane {
    if d == Read then s.read else s.write
  }

  function WithLane(s: State, d: Dir, l: Lane): State {
    if d == Read then s.(read := l) else s.(write := l)
  }

  predicate Waits(s: State, d: Dir) {
    LaneOf(s, d).fifo != []
  }

  // ------------------------------------------------------------------
  // The sorted index

  predicate Known(rqs: map<nat, Rq>, ids: seq<nat>) {
    forall id :: id in ids ==> id in rqs
  }

  /** elv_rb_add: behind every request that starts no later. */
  function Insert(rqs: map<nat, Rq>, sort: seq<nat>, id: nat): seq<nat>
    requires Known(rqs, sort) && id in rqs
  {
    if sort == [] then [id]
    else if rqs[id].pos < rqs[sort[0]].pos then [id] + sort
    else [sort[0]] + Insert(rqs, sort[1..], id)
  }

  /** rb_next. */
  function Latter(sort: seq<nat>, id: nat): Option<nat> {
    if |sort| < 2 then None
    else if sort[0] == id then Some(sort[1])
    else Latter(sort[1..], id)
  }

  // ------------------------------------------------------------------
  // Requests coming in

  function AddRequest(c: Config, s: State, id: nat, d: Dir, pos: nat): State
    requires Known(s.rqs, LaneOf(s, d).sort)
  {
    var rqs := s.rqs[id := Rq(d, pos, s.now + Expire(c, d))];
    var l := LaneOf(s, d);
    WithLane(s.(rqs := rqs), d, l.(sort := Insert(rqs, l.sort, id), fifo := l.fifo + [id]))
  }

  /** deadline_merged_request after a front merge has moved the start of a request. */
  function FrontMerged(s: State, id: nat, pos: nat): State
    requires id in s.rqs && Known(s.rqs, LaneOf(s, s.rqs[id].dir).sort)
  {
    var d := s.rqs[id].dir;
    var l := LaneOf(s, d);
    var rqs := s.rqs[id := s.rqs[id].(pos := pos)];
    WithLane(s.(rqs := rqs), d, l.(sort := Insert(rqs, Remove(l.sort, id), id)))
  }

  function Subst(ids: seq<nat>, x: nat, y: nat): seq<nat> {
    seq(|ids|, i requires 0 <= i < |ids| => if ids[i] == x then y else ids[i])
  }

  /** deadline_del_rq_rb. */
  function DelRqRb(l: Lane, id: nat): Lane {
    l.(next := if l.next == Some(id) then Latter(l.sort, id) else l.next, sort := Remove(l.sort, id))
  }

  /** deadline_remove_request. */
  function RemoveRequest(l: Lane, id: nat): Lane {
    DelRqRb(l.(fifo := Remove(l.fifo, id)), id)
  }

  /** deadline_merged_requests: next was appended to req. */
  function MergedRequests(s: State, req: nat, next: nat): State
    requires req in s.rqs && next in s.rqs
  {
    var d := s.rqs[req].dir;
    var l := LaneOf(s, d);
    if s.rqs[next].expires < s.rqs[req].expires then
      var rqs := s.rqs[req := s.rqs[req].(expires := s.rqs[next].expires)];
      WithLane(s.(rqs := rqs), d, DelRqRb(l.(fifo := Subst(Remove(l.fifo, req), next, req)), next))
    else
      WithLane(s, d, RemoveRequest(l, next))
  }

  // ------------------------------------------------------------------
  // Dispatching

  /** deadline_move_request. */
  function MoveRequest(s: State, d: Dir, id: nat): State {
    var l := LaneOf(s, d);
    var after := RemoveRequest(l.(next := Latter(l.sort, id)), id);
    var s1 := WithLane(s, Other(d), LaneOf(s, Other(d)).(next := None));
    WithLane(s1, d, after).(out := s.out + [id])
  }

  /** The direction of the batch that is entitled to go on, if there is one. */
  function InBatch(c: Config, s: State): Option<Dir> {
    if s.batching >= c.fifoBatch then None
    else if s.write.next.Some? then Some(Write)
    else if s.read.next.Some? then Some(Read)
    else None
  }

  /** Which direction gets a new batch. */
  function Chosen(c: Config, s: State): Dir {
    if Waits(s, Read) && !(Waits(s, Write) && s.starved >= Threshold(c)) then Read else Write
  }

  /** deadline_check_fifo. */
  predicate HeadExpired(s: State, d: Dir)
    requires Waits(s, d) && Known(s.rqs, LaneOf(s, d).fifo)
  {
    s.now > s.rqs[LaneOf(s, d).fifo[0]].expires
  }

  predicate Idle(s: State) {
    !Waits(s, Read) && !Waits(s, Write)
  }

  predicate AllKnown(s: State) {
    && Known(s.rqs, s.read.fifo) && Known(s.rqs, s.write.fifo)
    && Known(s.rqs, s.read.sort) && Known(s.rqs, s.write.sort)
  }

  /** The direction the next dispatch serves. */
  function Served(c: Config, s: State): Dir {
    if InBatch(c, s).Some? then InBatch(c, s).value else Chosen(c, s)
  }

  /** A batch goes on with next_rq. A new one starts from the oldest request if that has expired or
      there is no next_rq. */
  function Picked(c: Config, s: State): nat
    requires AllKnown(s) && !Idle(s)
  {
    var l := LaneOf(s, Served(c, s));
    if InBatch(c, s).Some? || (l.next.Some? && !HeadExpired(s, Served(c, s))) then l.next.value else l.fifo[0]
  }

  function Starved(c: Config, s: State): nat {
    if InBatch(c, s).Some? then s.starved
    else if Chosen(c, s) == Write then 0
    else if Waits(s, Write) then s.starved + 1
    else s.starved
  }

  /** deadline_dispatch_requests. */
  function Dispatch(c: Config, s: State): State
    requires AllKnown(s)
  {
    if Idle(s) then s
    else
      MoveRequest(s.(starved := Starved(c, s), batching := if InBatch(c, s).Some? then s.batching + 1 else 1),
                  Served(c, s), Picked(c, s))
  }

  // ------------------------------------------------------------------
  // Runs

  datatype Event =
    | Ticked(jiffies: nat)
    | Added(id: nat, dir: Dir, pos: nat)
    | Front(id: nat, pos: nat)
    | Merged(req: nat, next: nat)
    | Dispatched

  predicate Queued(s: State, id: nat) {
    id in s.rqs && id in LaneOf(s, s.rqs[id].dir).fifo
  }

  predicate Enabled(s: State, e: Event) {
    match e
    case Ticked(_) => true
    case Added(id, _, _) => id !in s.rqs
    case Front(id, _) => Queued(s, id)
    case Merged(req, next) => Queued(s, req) && Queued(s, next) && req != next && s.rqs[req].dir == s.rqs[next].dir
    case Dispatched => true
  }

  function Apply(c: Config, s: State, e: Event): State
    requires AllKnown(s) && Enabled(s, e)
  {
    match e
    case Ticked(jiffies) => s.(now := s.now + jiffies)
    case Added(id, d, pos) => AddRequest(c, s, id, d, pos)
    case Front(id, pos) => FrontMerged(s, id, pos)
    case Merged(req, next) => MergedRequests(s, req, next)
    case Dispatched => Dispatch(c, s)
  }

  // ------------------------------------------------------------------
  // What every event keeps

  datatype Key = Sector | Expiry

  function Rank(r: Rq, k: Key): int {
    if k == Sector then r.pos else r.expires
  }

  predicate Ordered(rqs: map<nat, Rq>, ids: seq<nat>, k: Key)
    requires Known(rqs, ids)
  {
    forall i, j :: 0 <= i < j < |ids| ==> Rank(rqs[ids[i]], k) <= Rank(rqs[ids[j]], k)
  }

  /** The two indexes of a direction hold the same requests, each once and each in its order, and
      next_rq is one of them. */
  ghost predicate LaneOk(rqs: map<nat, Rq>, d: Dir, l: Lane, latest: int) {
    && NoDup(l.sort) && NoDup(l.fifo)
    && (forall id :: id in l.sort <==> id in l.fifo)
    && Known(rqs, l.sort) && Known(rqs, l.fifo)
    && (forall id :: id in l.fifo ==> rqs[id].dir == d && rqs[id].expires <= latest)
    && Ordered(rqs, l.sort, Sector) && Ordered(rqs, l.fifo, Expiry)
    && (l.next.Some? ==> l.next.value in l.sort)
  }

  ghost predicate Inv(c: Config, s: State) {
    && LaneOk(s.rqs, Read, s.read, s.now + c.readExpire)
    && LaneOk(s.rqs, Write, s.write, s.now + c.writeExpire)
    && (s.read.next.None? || s.write.next.None?)
    && (s.read.next.Some? || s.write.next.Some? ==> s.batching > 0)
    && NoDup(s.out)
    && (forall id :: id in s.out ==> id in s.rqs && id !in s.read.fifo && id !in s.write.fifo)
  }
}

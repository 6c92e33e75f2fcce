/** Bounded service in the deadline scheduler, over every run. */
module DeadlineService {
  import opened Lists
  import opened Deadline
  import opened DeadlineKeeps

  function Max(a: int, b: int): int {
    if a > b then a else b
  }

  /** The length of a full batch: a new batch dispatches a request even if fifo_batch is not positive. */
  function BatchSize(c: Config): (b: int)
    ensures b >= 1 && b >= c.fifoBatch
  {
    Max(1, c.fifoBatch)
  }

  function Dispatches(es: seq<Event>): nat {
    if es == [] then 0 else (if es[0].Dispatched? then 1 else 0) + Dispatches(es[1..])
  }

  /** At every dispatch of the run direction d has a request waiting, and the other one is served. */
  ghost predicate PassedOver(c: Config, s: State, es: seq<Event>, d: Dir)
    requires Inv(c, s) && Run(c, s, es)
    decreases |es|
  {
    es != [] ==>
      && (es[0].Dispatched? ==> Waits(s, d) && Served(c, s) != d)
      && (EventKeeps(c, s, es[0]); PassedOver(c, Apply(c, s, es[0]), es[1..], d))
  }

  /** What is left of the running batch in direction d. */
  function Left(c: Config, s: State, d: Dir): nat {
    if InBatch(c, s) == Some(d) then c.fifoBatch - s.batching else 0
  }

  /** How many dispatches can pass over waiting writes. */
  function ReadsAhead(c: Config, s: State): nat {
    MulNat(Max(0, Threshold(c) - s.starved), BatchSize(c));
    Left(c, s, Read) + Max(0, Threshold(c) - s.starved) * BatchSize(c)
  }

  /** How many dispatches can pass over waiting reads. */
  function WritesAhead(c: Config, s: State): nat {
    Left(c, s, Write) + if s.starved >= Threshold(c) then BatchSize(c) else 0
  }

  lemma MulNat(a: int, b: int)
    requires a >= 0 && b >= 0
    ensures a * b >= 0
  {
  }

  lemma MulStep(a: int, b: int)
    requires a >= 1
    ensures (a - 1) * b == a * b - b
  {
  }

  lemma MulMono(a: int, b: int, k: int)
    requires a <= b && k >= 0
    ensures a * k <= b * k
  {
  }

  // ------------------------------------------------------------------
  // One event

  /** What events other than a dispatch do to the batching state. */
  lemma Between(c: Config, s: State, e: Event)
    requires Inv(c, s) && Enabled(s, e) && !e.Dispatched? && AllKnown(s)
    ensures
      var s' := Apply(c, s, e);
      && s'.starved == s.starved && s'.batching == s.batching
      && (s.read.next.None? ==> s'.read.next.None?) && (s.write.next.None? ==> s'.write.next.None?)
  {
    hide Inv, Insert, Subst, AllKnown, Latter;
  }

  lemma LeftShrinks(c: Config, s: State, e: Event, d: Dir)
    requires Inv(c, s) && Enabled(s, e) && !e.Dispatched? && AllKnown(s)
    ensures Left(c, Apply(c, s, e), d) <= Left(c, s, d)
  {
    hide Apply, Enabled;
    Between(c, s, e);
  }

  /** A dispatch that goes on with a batch, and one that starts one. */
  lemma LeftAfter(c: Config, s: State)
    requires Inv(c, s) && AllKnown(s) && !Idle(s)
    ensures
      var s' := Dispatch(c, s);
      if InBatch(c, s).Some?
      then Left(c, s', Served(c, s)) < Left(c, s, Served(c, s)) && s'.starved == s.starved
      else Left(c, s', Served(c, s)) < BatchSize(c) && s'.starved == Starved(c, s)
  {
    hide Picked, RemoveRequest, Latter, LaneOk;
  }

  lemma WritesStep(c: Config, s: State, e: Event)
    requires Inv(c, s) && Enabled(s, e) && AllKnown(s)
    requires e.Dispatched? ==> Waits(s, Write) && Served(c, s) != Write
    ensures ReadsAhead(c, Apply(c, s, e)) + (if e.Dispatched? then 1 else 0) <= ReadsAhead(c, s)
  {
    hide Inv, Left, Enabled, AllKnown, Dispatch, AddRequest, FrontMerged, MergedRequests;
    if e.Dispatched? {
      LeftAfter(c, s);
      if InBatch(c, s).None? {
        MulStep(Max(0, Threshold(c) - s.starved), BatchSize(c));
      }
    } else {
      Between(c, s, e);
      LeftShrinks(c, s, e, Read);
    }
  }

  lemma ReadsStep(c: Config, s: State, e: Event)
    requires Inv(c, s) && Enabled(s, e) && AllKnown(s) && c.writesStarved != 0
    requires e.Dispatched? ==> Waits(s, Read) && Served(c, s) != Read
    ensures WritesAhead(c, Apply(c, s, e)) + (if e.Dispatched? then 1 else 0) <= WritesAhead(c, s)
  {
    hide Inv, Left, Enabled, AllKnown, Dispatch, AddRequest, FrontMerged, MergedRequests;
    if e.Dispatched? {
      LeftAfter(c, s);
    } else {
      Between(c, s, e);
      LeftShrinks(c, s, e, Write);
    }
  }

  // ------------------------------------------------------------------
  // Runs

  lemma {:induction false} WritesCounted(c: Config, s: State, es: seq<Event>)
    requires Inv(c, s) && Run(c, s, es) && PassedOver(c, s, es, Write)
    ensures Dispatches(es) <= ReadsAhead(c, s)
    decreases |es|
  {
    hide Inv, Apply, Enabled, AllKnown, ReadsAhead, Served;
    if es != [] {
      EventKeeps(c, s, es[0]);
      WritesStep(c, s, es[0]);
      WritesCounted(c, Apply(c, s, es[0]), es[1..]);
    }
  }

  lemma {:induction false} ReadsCounted(c: Config, s: State, es: seq<Event>)
    requires Inv(c, s) && Run(c, s, es) && PassedOver(c, s, es, Read) && c.writesStarved != 0
    ensures Dispatches(es) <= WritesAhead(c, s)
    decreases |es|
  {
    hide Inv, Apply, Enabled, AllKnown, WritesAhead, Served;
    if es != [] {
      EventKeeps(c, s, es[0]);
      ReadsStep(c, s, es[0]);
      ReadsCounted(c, Apply(c, s, es[0]), es[1..]);
    }
  }

  lemma LeftBound(c: Config, s: State, d: Dir)
    requires Inv(c, s)
    ensures Left(c, s, d) < BatchSize(c)
  {
  }

  /** Waiting writes are served within (writes_starved + 1) batches' worth of dispatches, with
      writes_starved read as an unsigned number. */
  lemma WritesServed(c: Config, s: State, es: seq<Event>)
    requires Inv(c, s) && Run(c, s, es) && PassedOver(c, s, es, Write)
    ensures Dispatches(es) < (Threshold(c) + 1) * BatchSize(c)
  {
    hide Inv, Run, PassedOver, Left;
    WritesCounted(c, s, es);
    LeftBound(c, s, Read);
    var w := Threshold(c);
    MulMono(Max(0, Threshold(c) - s.starved), w, BatchSize(c));
    assert (w + 1) * BatchSize(c) == w * BatchSize(c) + BatchSize(c);
  }

  /** Waiting reads are served within two batches' worth, if writes_starved is not zero. */
  lemma ReadsServed(c: Config, s: State, es: seq<Event>)
    requires Inv(c, s) && Run(c, s, es) && PassedOver(c, s, es, Read) && c.writesStarved != 0
    ensures Dispatches(es) < 2 * BatchSize(c)
  {
    hide Inv, Run, PassedOver, Left;
    ReadsCounted(c, s, es);
    LeftBound(c, s, Write);
  }

  /** The counter never passes the threshold, so it does not wrap. */
  lemma {:induction false} StarvedBounded(c: Config, s: State, es: seq<Event>)
    requires Inv(c, s) && Run(c, s, es) && s.starved <= Threshold(c)
    ensures Exec(c, s, es).starved <= Threshold(c) < 0x1_0000_0000
    decreases |es|
  {
    hide Inv, Apply, Enabled, AllKnown;
    if es != [] {
      EventKeeps(c, s, es[0]);
      StarvedStep(c, s, es[0]);
      StarvedBounded(c, Apply(c, s, es[0]), es[1..]);
    }
  }

  lemma StarvedStep(c: Config, s: State, e: Event)
    requires Inv(c, s) && AllKnown(s) && Enabled(s, e) && s.starved <= Threshold(c)
    ensures Apply(c, s, e).starved <= Threshold(c)
  {
    hide Inv, AllKnown, Dispatch, AddRequest, FrontMerged, MergedRequests;
    if e.Dispatched? {
      if Idle(s) {
        IdleStays(c, s);
      } else {
        LeftAfter(c, s);
      }
    } else {
      Between(c, s, e);
    }
  }

  // ------------------------------------------------------------------
  // writes_starved zero

  /** n writes, one at a time, each dispatched at once. */
  function Flood(id: nat, n: nat): seq<Event>
    decreases n
  {
    if n == 0 then [] else [Added(id, Write, 0), Dispatched] + Flood(id + 1, n - 1)
  }

  predicate Stuck(s: State) {
    s.write == Lane([], [], None) && s.read.next == None && Waits(s, Read)
  }

  lemma FloodStep(c: Config, s: State, id: nat)
    requires Inv(c, s) && Stuck(s) && c.writesStarved == 0 && id !in s.rqs
    ensures
      AllKnown(s) &&
      var s1 := AddRequest(c, s, id, Write, 0);
      && AllKnown(s1) && Waits(s1, Read) && Served(c, s1) == Write
      && Stuck(Dispatch(c, s1)) && Dispatch(c, s1).rqs.Keys == s.rqs.Keys + {id}
  {
    hide Inv, Picked, RemoveRequest, AllKnown;
    AddKeeps(c, s, id, Write, 0);
    var s1 := AddRequest(c, s, id, Write, 0);
    InvKnows(c, s1);
    assert s1.write.fifo == [id];
    OneLeaves(c, s1, id);
  }

  lemma OneLeaves(c: Config, s: State, id: nat)
    requires AllKnown(s) && s.write == Lane([id], [id], None) && Served(c, s) == Write
    ensures !Idle(s) && Picked(c, s) == id
    ensures RemoveRequest(s.write.(next := Latter(s.write.sort, id)), id) == Lane([], [], None)
  {
    assert [id][1..] == [];
  }

  /** With writes_starved zero, reads can be passed over any number of times. */
  lemma {:induction false} ReadsStarve(c: Config, s: State, id: nat, n: nat)
    requires Inv(c, s) && Stuck(s) && c.writesStarved == 0 && forall x :: x in s.rqs ==> x < id
    ensures Run(c, s, Flood(id, n)) && PassedOver(c, s, Flood(id, n), Read) && Dispatches(Flood(id, n)) == n
    decreases n
  {
    hide Inv, Stuck, AddRequest, Dispatch, Served;
    if n == 0 {
      InvKnows(c, s);
    } else {
      FloodStep(c, s, id);
      var s1 := AddRequest(c, s, id, Write, 0);
      var s2 := Dispatch(c, s1);
      EventKeeps(c, s, Added(id, Write, 0));
      EventKeeps(c, s1, Dispatched);
      ReadsStarve(c, s2, id + 1, n - 1);
      RunTwo(c, s, Added(id, Write, 0), Dispatched, Flood(id + 1, n - 1));
    }
  }

  /** So from the start: one read waits while n writes go by. */
  lemma ReadsStarveFromStart(c: Config, n: nat)
    requires c.writesStarved == 0
    ensures
      var es := [Added(0, Read, 0)] + Flood(1, n);
      Inv(c, START) && Run(c, START, es) && PassedOver(c, START, es, Read) && Dispatches(es) == n
  {
    hide PassedOver, Dispatches, Run, Inv, AddRequest;
    OneRead(c);
    var s := AddRequest(c, START, 0, Read, 0);
    EventKeeps(c, START, Added(0, Read, 0));
    ReadsStarve(c, s, 1, n);
    RunOne(c, START, Added(0, Read, 0), Flood(1, n));
  }

  lemma OneRead(c: Config)
    ensures Inv(c, START) && AllKnown(START)
    ensures Stuck(AddRequest(c, START, 0, Read, 0)) && AddRequest(c, START, 0, Read, 0).rqs.Keys == {0}
  {
  }

  /** From the start, no run passes over waiting reads n times. */
  ghost predicate ReadsWithin(c: Config, n: nat) {
    Inv(c, START)
    && forall es: seq<Event> :: Run(c, START, es) && PassedOver(c, START, es, Read) ==> Dispatches(es) < n
  }

  /** How long reads can be made to wait is bounded if and only if writes_starved is not zero. */
  lemma ReadsBoundedIff(c: Config)
    ensures (exists n: nat :: ReadsWithin(c, n)) <==> c.writesStarved != 0
  {
    assert Inv(c, START);
    if c.writesStarved != 0 {
      forall es: seq<Event> | Run(c, START, es) && PassedOver(c, START, es, Read)
        ensures Dispatches(es) < 2 * BatchSize(c)
      {
        ReadsServed(c, START, es);
      }
      assert ReadsWithin(c, 2 * BatchSize(c));
    } else {
      forall n: nat ensures !ReadsWithin(c, n) {
        ReadsStarveFromStart(c, n);
      }
    }
  }

  lemma RunOne(c: Config, s: State, a: Event, es: seq<Event>)
    requires Inv(c, s) && AllKnown(s) && Enabled(s, a) && Inv(c, Apply(c, s, a)) && Run(c, Apply(c, s, a), es)
    ensures Run(c, s, [a] + es) && Dispatches([a] + es) == (if a.Dispatched? then 1 else 0) + Dispatches(es)
    ensures
      forall d :: PassedOver(c, s, [a] + es, d) <==>
        && (a.Dispatched? ==> Waits(s, d) && Served(c, s) != d)
        && PassedOver(c, Apply(c, s, a), es, d)
  {
    hide Inv, Apply, Enabled, AllKnown, Served;
    assert ([a] + es)[1..] == es;
  }

  lemma RunTwo(c: Config, s: State, a: Event, b: Event, es: seq<Event>)
    requires Inv(c, s) && AllKnown(s) && Enabled(s, a)
    requires Inv(c, Apply(c, s, a)) && AllKnown(Apply(c, s, a)) && Enabled(Apply(c, s, a), b)
    requires Inv(c, Apply(c, Apply(c, s, a), b)) && Run(c, Apply(c, Apply(c, s, a), b), es)
    ensures Run(c, s, [a, b] + es)
    ensures Dispatches([a, b] + es)
         == (if a.Dispatched? then 1 else 0) + (if b.Dispatched? then 1 else 0) + Dispatches(es)
    ensures
      forall d :: PassedOver(c, s, [a, b] + es, d) <==>
        && (a.Dispatched? ==> Waits(s, d) && Served(c, s) != d)
        && (b.Dispatched? ==> Waits(Apply(c, s, a), d) && Served(c, Apply(c, s, a)) != d)
        && PassedOver(c, Apply(c, Apply(c, s, a), b), es, d)
  {
    hide Inv, Apply, Enabled, AllKnown, Served, Run, PassedOver, Dispatches;
    RunOne(c, Apply(c, s, a), b, es);
    RunOne(c, s, a, [b] + es);
    assert [a, b] + es == [a] + ([b] + es);
  }
}

/** How long a batch of the deadline scheduler is, and when it is the turn of the writes. */
module DeadlineBatches {
  import opened Lists
  import opened Deadline
  import opened DeadlineKeeps
  import opened DeadlineService
  import opened DeadlineExpiry

  // ------------------------------------------------------------------
  // The length of a batch

  /** At every dispatch of the run direction d has a next_rq to go on with. */
  ghost predicate GoesOn(c: Config, s: State, es: seq<Event>, d: Dir)
    requires Inv(c, s) && Run(c, s, es)
    decreases |es|
  {
    es != [] ==>
      && (es[0].Dispatched? ==> LaneOf(s, d).next.Some?)
      && (EventKeeps(c, s, es[0]); GoesOn(c, Apply(c, s, es[0]), es[1..], d))
  }

  /** Every dispatch of the run serves direction d and takes its next_rq. */
  ghost predicate Follows(c: Config, s: State, es: seq<Event>, d: Dir)
    requires Inv(c, s) && Run(c, s, es)
    decreases |es|
  {
    EventsKnown(c, s);
    es != [] ==>
      && (es[0].Dispatched? ==> !Idle(s) && Served(c, s) == d && LaneOf(s, d).next == Some(Picked(c, s)))
      && (EventKeeps(c, s, es[0]); Follows(c, Apply(c, s, es[0]), es[1..], d))
  }

  lemma EventsKnown(c: Config, s: State)
    requires Inv(c, s)
    ensures AllKnown(s)
  {
    InvKnows(c, s);
  }

  lemma GoesOnStep(c: Config, s: State, d: Dir)
    requires Inv(c, s) && AllKnown(s) && LaneOf(s, d).next.Some? && s.batching < c.fifoBatch
    ensures !Idle(s) && Served(c, s) == d && LaneOf(s, d).next == Some(Picked(c, s))
    ensures Dispatch(c, s).batching == s.batching + 1
  {
    hide MoveRequest;
    MoveBatching(s.(starved := Starved(c, s), batching := s.batching + 1), Served(c, s), Picked(c, s));
  }

  lemma MoveBatching(s: State, d: Dir, id: nat)
    ensures MoveRequest(s, d, id).batching == s.batching && MoveRequest(s, d, id).starved == s.starved
  {
  }

  /** A batch goes on in its direction, request after request, for as long as it has dispatched fewer than
      fifo_batch requests and there is one further on: nothing that expires meanwhile, and nothing that
      waits in the other direction, breaks it off. */
  lemma {:induction false} BatchLasts(c: Config, s: State, es: seq<Event>, d: Dir)
    requires Inv(c, s) && Run(c, s, es) && GoesOn(c, s, es, d) && s.batching + Dispatches(es) <= c.fifoBatch
    ensures Follows(c, s, es, d) && Exec(c, s, es).batching == s.batching + Dispatches(es)
    decreases |es|
  {
    hide Inv, Apply, Enabled, AllKnown, Served, Picked;
    EventsKnown(c, s);
    if es != [] {
      EventKeeps(c, s, es[0]);
      BatchStep(c, s, es[0], d);
      BatchLasts(c, Apply(c, s, es[0]), es[1..], d);
    }
  }

  lemma BatchStep(c: Config, s: State, e: Event, d: Dir)
    requires Inv(c, s) && AllKnown(s) && Enabled(s, e)
    requires e.Dispatched? ==> LaneOf(s, d).next.Some? && s.batching < c.fifoBatch
    ensures Apply(c, s, e).batching == s.batching + if e.Dispatched? then 1 else 0
    ensures e.Dispatched? ==> !Idle(s) && Served(c, s) == d && LaneOf(s, d).next == Some(Picked(c, s))
  {
    hide Inv, Dispatch, AddRequest, FrontMerged, MergedRequests, Served, Picked;
    if e.Dispatched? {
      GoesOnStep(c, s, d);
    } else {
      Between(c, s, e);
    }
  }

  /** A batch has exactly fifo_batch requests if there is always one further on: after a dispatch that
      starts it, fifo_batch - 1 more go on with it, and the next one after those starts a new batch. */
  lemma FullBatch(c: Config, s: State, es: seq<Event>, d: Dir)
    requires Inv(c, s) && AllKnown(s) && StartsBatch(c, s, d)
    requires Inv(c, Dispatch(c, s)) && Run(c, Dispatch(c, s), es) && GoesOn(c, Dispatch(c, s), es, d)
    requires 1 + Dispatches(es) == c.fifoBatch
    ensures Follows(c, Dispatch(c, s), es, d) && InBatch(c, Exec(c, Dispatch(c, s), es)).None?
  {
    hide Inv, Run, GoesOn, Follows, Exec, MoveRequest;
    MoveBatching(s.(starved := Starved(c, s), batching := 1), Served(c, s), Picked(c, s));
    BatchLasts(c, Dispatch(c, s), es, d);
  }

  // ------------------------------------------------------------------
  // The turn of the writes

  /** How many batches of reads the run starts while writes wait. */
  ghost function Passed(c: Config, s: State, es: seq<Event>): nat
    requires Inv(c, s) && Run(c, s, es)
    decreases |es|
  {
    if es == [] then 0
    else
      EventKeeps(c, s, es[0]);
      (if es[0].Dispatched? && StartsBatch(c, s, Read) && Waits(s, Write) then 1 else 0)
        + Passed(c, Apply(c, s, es[0]), es[1..])
  }

  lemma StarvedCounts(c: Config, s: State, e: Event)
    requires Inv(c, s) && AllKnown(s) && Enabled(s, e) && !(e.Dispatched? && StartsBatch(c, s, Write))
    ensures Apply(c, s, e).starved
         == s.starved + if e.Dispatched? && StartsBatch(c, s, Read) && Waits(s, Write) then 1 else 0
  {
    hide Inv, AddRequest, FrontMerged, MergedRequests, MoveRequest, Picked;
    if e.Dispatched? {
      if !Idle(s) {
        var batching := if InBatch(c, s).Some? then s.batching + 1 else 1;
        MoveBatching(s.(starved := Starved(c, s), batching := batching), Served(c, s), Picked(c, s));
      }
    } else {
      Between(c, s, e);
    }
  }

  lemma {:induction false} PassedCounts(c: Config, s: State, es: seq<Event>)
    requires Inv(c, s) && Run(c, s, es) && NewBatches(c, s, es, Write) == 0
    ensures Exec(c, s, es).starved == s.starved + Passed(c, s, es)
    decreases |es|
  {
    hide Inv, Apply, Enabled, AllKnown, StartsBatch, Waits;
    if es != [] {
      EventKeeps(c, s, es[0]);
      StarvedCounts(c, s, es[0]);
      PassedCounts(c, Apply(c, s, es[0]), es[1..]);
    }
  }

  /** Since the last batch of writes at most writes_starved batches of reads have gone ahead of waiting
      writes; and when a new batch is due with both waiting, it is the turn of the writes if and only if it
      has been exactly so many. writes_starved is read as an unsigned number. */
  lemma WritesTurn(c: Config, s: State, es: seq<Event>)
    requires Inv(c, s) && Run(c, s, es) && s.starved == 0 && NewBatches(c, s, es, Write) == 0
    ensures
      var s' := Exec(c, s, es);
      var w := if c.writesStarved < 0 then c.writesStarved + 0x1_0000_0000 else c.writesStarved;
      && Passed(c, s, es) <= w
      && (InBatch(c, s').None? && Waits(s', Read) && Waits(s', Write) ==>
            (Served(c, s') == Write <==> Passed(c, s, es) == w))
  {
    hide Inv, Run, Exec, NewBatches, Passed;
    PassedCounts(c, s, es);
    StarvedBounded(c, s, es);
  }

  /** A batch of writes starts the count anew. */
  lemma WritesReset(c: Config, s: State)
    requires Inv(c, s) && AllKnown(s) && StartsBatch(c, s, Write)
    ensures Dispatch(c, s).starved == 0
  {
    hide MoveRequest, Inv;
    MoveBatching(s.(starved := Starved(c, s), batching := 1), Served(c, s), Picked(c, s));
  }
}

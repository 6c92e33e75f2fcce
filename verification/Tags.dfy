/**
 Tagged queueing (block/blk-tag.c): a map of tags, possibly shared by several queues, in which a
 set bit, an index entry and the tag of a request go together.
 */
module Tags {
  import opened Lists

  /** A request and the queue it belongs to. */
  datatype Rq = Rq(queue: nat, id: nat)

  function Reversed<T>(s: seq<T>): seq<T> {
    seq(|s|, i requires 0 <= i < |s| => s[|s| - 1 - i])
  }

  datatype Outcome = Done | InUse

  /** struct blk_queue_tag with, per queue, its tag_busy_list and the head of its dispatch queue.
      `tagOf` holds rq->tag of every request flagged REQ_QUEUED. */
  datatype State = State(bits: seq<bool>, index: seq<Option<Rq>>, maxDepth: nat, tagOf: map<Rq, nat>,
                         busy: map<nat, seq<Rq>>, heads: map<nat, seq<Rq>>)

  function BusyList(s: State, q: nat): seq<Rq> {
    if q in s.busy then s.busy[q] else []
  }

  function Head(s: State, q: nat): seq<Rq> {
    if q in s.heads then s.heads[q] else []
  }

  /** A bit is set exactly if its entry holds a request, and that is the one request with this tag. */
  ghost predicate TagsOk(s: State) {
    && |s.bits| == |s.index| && s.maxDepth <= |s.bits|
    && (forall t :: 0 <= t < |s.bits| ==> (s.bits[t] <==> s.index[t].Some?))
    && (forall t :: 0 <= t < |s.index| && s.index[t].Some? ==>
          s.index[t].value in s.tagOf && s.tagOf[s.index[t].value] == t)
    && (forall r :: r in s.tagOf ==> s.tagOf[r] < |s.index| && s.index[s.tagOf[r]] == Some(r))
  }

  /** The busy list of a queue holds its tagged requests, each once. */
  ghost predicate BusyOk(s: State) {
    && (forall q :: q in s.busy ==> NoDup(s.busy[q]))
    && (forall q, r :: q in s.busy && r in s.busy[q] ==> r.queue == q && r in s.tagOf)
    && (forall r :: r in s.tagOf ==> r.queue in s.busy && r in s.busy[r.queue])
  }

  ghost predicate Inv(s: State) {
    TagsOk(s) && BusyOk(s)
  }

  /** No two requests ever have the same tag. */
  lemma Injective(s: State, a: Rq, b: Rq)
    requires Inv(s) && a in s.tagOf && b in s.tagOf && s.tagOf[a] == s.tagOf[b]
    ensures a == b
  {
    assert s.index[s.tagOf[a]] == Some(a);
  }

  // ------------------------------------------------------------------
  // Taking and giving back a tag

  function Started(s: State, rq: Rq, t: nat): State
    requires t < |s.bits| && t < |s.index|
  {
    s.(bits := s.bits[t := true], index := s.index[t := Some(rq)], tagOf := s.tagOf[rq := t],
       busy := s.busy[rq.queue := [rq] + BusyList(s, rq.queue)])
  }

  function Ended(s: State, rq: Rq): State
    requires rq in s.tagOf && s.tagOf[rq] < |s.bits| && s.tagOf[rq] < |s.index|
  {
    var t := s.tagOf[rq];
    s.(bits := s.bits[t := false], index := s.index[t := None], tagOf := s.tagOf - {rq},
       busy := s.busy[rq.queue := Remove(BusyList(s, rq.queue), rq)])
  }

  /** blk_requeue_request of a tagged request. */
  function Requeued(s: State, rq: Rq): State
    requires rq in s.tagOf && s.tagOf[rq] < |s.bits| && s.tagOf[rq] < |s.index|
  {
    Ended(s, rq).(heads := s.heads[rq.queue := [rq] + Head(s, rq.queue)])
  }

  lemma StartKeeps(s: State, rq: Rq, t: nat)
    requires Inv(s) && rq !in s.tagOf && t < |s.bits| && !s.bits[t]
    ensures Inv(Started(s, rq, t))
  {
    if rq.queue in s.busy {
      NoDupAppend(s.busy[rq.queue], rq);
    }
  }

  lemma EndTags(s: State, rq: Rq)
    requires TagsOk(s) && rq in s.tagOf
    ensures TagsOk(Ended(s, rq))
  {
    hide Remove;
  }

  lemma EndBusy(s: State, rq: Rq)
    requires Inv(s) && rq in s.tagOf
    ensures BusyOk(Ended(s, rq)) && rq !in BusyList(Ended(s, rq), rq.queue)
  {
    hide NoDup;
    RemoveNoDup(s.busy[rq.queue], rq);
  }

  lemma EndKeeps(s: State, rq: Rq)
    requires Inv(s) && rq in s.tagOf
    ensures s.tagOf[rq] < |s.bits| == |s.index|
    ensures Inv(Ended(s, rq)) && Inv(Requeued(s, rq))
  {
    EndTags(s, rq);
    EndBusy(s, rq);
  }

  /** Giving a tag back undoes taking it. */
  lemma TagRoundTrip(s: State, rq: Rq, t: nat)
    requires Inv(s) && rq !in s.tagOf && t < |s.bits| && !s.bits[t]
    ensures Inv(Started(s, rq, t))
    ensures Ended(Started(s, rq, t), rq) == s.(busy := s.busy[rq.queue := BusyList(s, rq.queue)])
  {
    hide NoDup, BusyOk;
    StartKeeps(s, rq, t);
    RemoveHead(rq, BusyList(s, rq.queue));
    assert s.tagOf[rq := t] - {rq} == s.tagOf;
  }

  lemma BusyMembers(s: State, q: nat)
    requires Inv(s)
    ensures forall rq :: rq in BusyList(s, q) <==> rq in s.tagOf && rq.queue == q
    ensures NoDup(BusyList(s, q))
  {
  }

  /** Requeueing the first request of a busy list. */
  lemma RequeueFirst(s: State, rq: Rq, rest: seq<Rq>)
    requires Inv(s) && BusyList(s, rq.queue) == [rq] + rest && rq in s.tagOf
    ensures
      var s' := Requeued(s, rq);
      && Inv(s') && BusyList(s', rq.queue) == rest && Head(s', rq.queue) == [rq] + Head(s, rq.queue)
      && s'.tagOf == s.tagOf - {rq}
  {
    EndKeeps(s, rq);
    RemoveHead(rq, rest);
  }

  /** Growing adds free tags; any depth within the map may be set. */
  lemma ResizeKeeps(s: State, s': State)
    requires Inv(s) && s.bits <= s'.bits && s.index <= s'.index && |s'.bits| == |s'.index| && s'.maxDepth <= |s'.bits|
    requires forall t :: |s.bits| <= t < |s'.bits| ==> !s'.bits[t] && s'.index[t] == None
    requires s'.tagOf == s.tagOf && s'.busy == s.busy
    ensures Inv(s')
  {
    hide NoDup;
  }

  /** The first i requests of a queue's busy list are requeued. */
  ghost predicate Requeuing(s0: State, s: State, q: nat, i: nat) {
    var list := BusyList(s0, q);
    && Inv(s) && i <= |list| && BusyList(s, q) == list[i..]
    && (forall rq :: rq in s.tagOf <==> rq in s0.tagOf && rq !in list[..i])
    && (forall rq :: rq in s.tagOf ==> s.tagOf[rq] == s0.tagOf[rq])
    && Head(s, q) == Reversed(list[..i]) + Head(s0, q)
  }

  lemma RequeuingStep(s0: State, s: State, q: nat, i: nat)
    requires Inv(s0) && Requeuing(s0, s, q, i) && i < |BusyList(s0, q)|
    ensures BusyList(s0, q)[i] in s.tagOf && Inv(s)
    ensures Requeuing(s0, Requeued(s, BusyList(s0, q)[i]), q, i + 1)
  {
    hide Inv, Requeued, Reversed, NoDup;
    var list := BusyList(s0, q);
    var rq := list[i];
    assert list[i..] == [rq] + list[i + 1..] && list[..i + 1] == list[..i] + [rq];
    BusyMembers(s, q);
    RequeueFirst(s, rq, list[i + 1..]);
    ReversedSnoc(list[..i], rq);
  }

  lemma RequeuingStart(s: State, q: nat)
    requires Inv(s)
    ensures Requeuing(s, s, q, 0)
  {
    hide Inv;
    assert BusyList(s, q)[..0] == [];
  }

  lemma RequeuingEnd(s0: State, s: State, q: nat)
    requires Inv(s0) && Requeuing(s0, s, q, |BusyList(s0, q)|)
    ensures BusyList(s, q) == [] && Head(s, q) == Reversed(BusyList(s0, q)) + Head(s0, q)
    ensures forall rq :: rq in s.tagOf <==> rq in s0.tagOf && rq.queue != q
    ensures forall rq :: rq in s.tagOf ==> s.tagOf[rq] == s0.tagOf[rq]
  {
    hide Inv, Reversed, NoDup;
    BusyMembers(s0, q);
    assert BusyList(s0, q)[..|BusyList(s0, q)|] == BusyList(s0, q);
  }

  lemma ReversedSnoc<T>(s: seq<T>, x: T)
    ensures Reversed(s + [x]) == [x] + Reversed(s)
  {
  }

  lemma InvSizes(s: State)
    requires Inv(s)
    ensures |s.bits| == |s.index| && s.maxDepth <= |s.bits|
  {
  }

  // ------------------------------------------------------------------
  // Runs

  datatype Op = Take(rq: Rq, tag: nat) | Give(rq: Rq, requeue: bool)

  predicate Enabled(s: State, op: Op) {
    match op
    case Take(rq, tag) => rq !in s.tagOf && tag < |s.bits| && !s.bits[tag]
    case Give(rq, _) => rq in s.tagOf
  }

  ghost function Apply(s: State, op: Op): State
    requires Inv(s) && Enabled(s, op)
  {
    match op
    case Take(rq, tag) => Started(s, rq, tag)
    case Give(rq, requeue) =>
      EndKeeps(s, rq);
      if requeue then Requeued(s, rq) else Ended(s, rq)
  }

  lemma OpKeeps(s: State, op: Op)
    requires Inv(s) && Enabled(s, op)
    ensures Inv(Apply(s, op))
  {
    hide Inv;
    match op
    case Take(rq, tag) => StartKeeps(s, rq, tag);
    case Give(rq, _) => EndKeeps(s, rq);
  }

  /** Any sequence of tags taken and given back. */
  ghost predicate Run(s: State, ops: seq<Op>)
    requires Inv(s)
    decreases |ops|
  {
    ops != [] ==> Enabled(s, ops[0]) && (OpKeeps(s, ops[0]); Run(Apply(s, ops[0]), ops[1..]))
  }

  ghost function Exec(s: State, ops: seq<Op>): State
    requires Inv(s) && Run(s, ops)
    decreases |ops|
  {
    if ops == [] then s else
    OpKeeps(s, ops[0]);
    Exec(Apply(s, ops[0]), ops[1..])
  }

  /** The requests of a queue that have been started and not ended, in the order they were started. */
  function Live(order: seq<Rq>, ops: seq<Op>, q: nat): seq<Rq>
    decreases |ops|
  {
    if ops == [] then order
    else
      var order' := match ops[0]
                    case Take(rq, _) => if rq.queue == q then order + [rq] else order
                    case Give(rq, _) => Remove(order, rq);
      Live(order', ops[1..], q)
  }

  lemma ReversedCons(x: Rq, rest: seq<Rq>)
    ensures Reversed([x] + rest) == Reversed(rest) + [x]
  {
  }

  lemma RemoveCons(x: Rq, rest: seq<Rq>, rq: Rq)
    ensures Remove([x] + rest, rq) == if x == rq then rest else [x] + Remove(rest, rq)
    ensures Remove([rq], rq) == []
  {
    assert ([x] + rest)[1..] == rest && [rq][1..] == [];
  }

  lemma {:induction false} ReversedRemove(order: seq<Rq>, rq: Rq)
    requires NoDup(order)
    ensures Remove(Reversed(order), rq) == Reversed(Remove(order, rq))
    decreases |order|
  {
    hide Reversed, NoDup, Remove;
    if order == [] {
      ReversedMembers(order, rq);
    } else {
      var first, rest := order[0], order[1..];
      assert order == [first] + rest;
      NoDupTail(order);
      ReversedCons(first, rest);
      RemoveCons(first, rest, rq);
      ReversedMembers(rest, rq);
      if first == rq {
        RemoveBehind(Reversed(rest), [first], rq);
      } else {
        ReversedRemove(rest, rq);
        ReversedCons(first, Remove(rest, rq));
        if rq in rest {
          RemoveAhead(Reversed(rest), [first], rq);
        } else {
          ReversedMembers(order, rq);
        }
      }
    }
  }

  lemma ReversedMembers(order: seq<Rq>, rq: Rq)
    ensures rq in Reversed(order) <==> rq in order
  {
    if rq in order {
      var i :| 0 <= i < |order| && order[i] == rq;
      assert Reversed(order)[|order| - 1 - i] == rq;
    }
  }

  lemma {:induction false} RemoveBehind(a: seq<Rq>, b: seq<Rq>, rq: Rq)
    requires rq !in a
    ensures Remove(a + b, rq) == a + Remove(b, rq)
    decreases |a|
  {
    if a == [] {
      assert a + b == b;
    } else {
      assert (a + b)[1..] == a[1..] + b;
      RemoveBehind(a[1..], b, rq);
    }
  }

  lemma {:induction false} RemoveAhead(a: seq<Rq>, b: seq<Rq>, rq: Rq)
    requires rq in a
    ensures Remove(a + b, rq) == Remove(a, rq) + b
    decreases |a|
  {
    assert (a + b)[1..] == a[1..] + b;
    if a[0] != rq {
      RemoveAhead(a[1..], b, rq);
    }
  }

  lemma StartOrderStep(s: State, op: Op, q: nat, order: seq<Rq>)
    requires Inv(s) && Enabled(s, op) && BusyList(s, q) == Reversed(order)
    ensures
      var order' := match op
                    case Take(rq, _) => if rq.queue == q then order + [rq] else order
                    case Give(rq, _) => Remove(order, rq);
      BusyList(Apply(s, op), q) == Reversed(order')
  {
    hide Remove, Reversed, NoDup;
    BusyMembers(s, q);
    ReversedNoDup(order);
    match op
    case Take(rq, _) =>
      ReversedSnoc(order, rq);
    case Give(rq, _) =>
      ReversedRemove(order, rq);
      ReversedMembers(order, rq);
  }

  lemma ReversedNoDup(order: seq<Rq>)
    requires NoDup(Reversed(order))
    ensures NoDup(order)
  {
    var r, n := Reversed(order), |order|;
    assert forall i :: 0 <= i < n ==> order[i] == r[n - 1 - i];
  }

  /** Over every run no two requests have the same tag, and the busy list of a queue is the reverse of the
      order in which its requests were started. */
  lemma {:induction false} StartOrder(s: State, ops: seq<Op>, q: nat, order: seq<Rq>)
    requires Inv(s) && Run(s, ops) && BusyList(s, q) == Reversed(order)
    ensures Inv(Exec(s, ops)) && BusyList(Exec(s, ops), q) == Reversed(Live(order, ops, q))
    decreases |ops|
  {
    hide Inv, Apply, Enabled, BusyList, Reversed;
    if ops != [] {
      OpKeeps(s, ops[0]);
      StartOrderStep(s, ops[0], q, order);
      var order' := match ops[0]
                    case Take(rq, _) => if rq.queue == q then order + [rq] else order
                    case Give(rq, _) => Remove(order, rq);
      StartOrder(Apply(s, ops[0]), ops[1..], q, order');
    }
  }

  class TagMap {
    var tagMap: array<bool>
    var tagIndex: array<Option<Rq>>
    var maxDepth: nat
    var tagOf: map<Rq, nat>
    var busy: map<nat, seq<Rq>>
    var heads: map<nat, seq<Rq>>

    ghost function View(): State
      reads this, tagMap, tagIndex
    {
      State(tagMap[..], tagIndex[..], maxDepth, tagOf, busy, heads)
    }

    ghost predicate Valid()
      reads this, tagMap, tagIndex
    {
      Inv(View())
    }

    constructor (depth: nat)
      ensures Valid() && fresh(tagMap) && fresh(tagIndex) && tagMap.Length == depth == maxDepth && tagOf == map[]
    {
      tagMap := new bool[depth](_ => false);
      tagIndex := new Option<Rq>[depth](_ => None);
      maxDepth, tagOf, busy, heads := depth, map[], map[], map[];
    }

    /** find_first_zero_bit. */
    method FirstZero(limit: nat) returns (t: nat)
      requires limit <= tagMap.Length
      ensures t <= limit && (t < limit ==> !tagMap[t]) && forall i :: 0 <= i < t ==> tagMap[i]
    {
      t := 0;
      while t < limit && tagMap[t]
        invariant t <= limit && forall i :: 0 <= i < t ==> tagMap[i]
      {
        t := t + 1;
      }
    }

    /** blk_queue_start_tag gives the lowest free tag, and fails only if there is none within the
        limit or too many async requests are in flight. */
    method StartTag(rq: Rq, sync: bool, asyncInFlight: nat) returns (ok: bool)
      requires Valid() && rq !in tagOf
      modifies this, tagMap, tagIndex
      ensures Valid() && tagMap == old(tagMap) && tagIndex == old(tagIndex)
      ensures
        var depth := if sync || old(maxDepth) <= 1 then old(maxDepth) else if old(maxDepth) == 2 then 1
                     else old(maxDepth) - 2;
        var held := !sync && old(maxDepth) > 1 && asyncInFlight > depth;
        ok <==> !held && exists t :: 0 <= t < depth && !old(tagMap[..])[t]
      ensures ok ==> rq in tagOf && tagOf[rq] < |old(tagMap[..])| && !old(tagMap[..])[tagOf[rq]]
      ensures ok && !sync && old(maxDepth) > 2 ==> tagOf[rq] + 2 < old(maxDepth)
      ensures ok ==> View() == Started(old(View()), rq, tagOf[rq])
      ensures ok ==> forall t :: 0 <= t < tagOf[rq] ==> old(tagMap[..])[t]
      ensures !ok ==> View() == old(View())
    {
      hide Inv, Started;
      InvSizes(View());
      var depth := maxDepth;
      if !sync && depth > 1 {
        depth := depth - 2;
        if depth == 0 {
          depth := 1;
        }
        if asyncInFlight > depth {
          return false;
        }
      }
      var tag := FirstZero(depth);
      if tag >= depth {
        return false;
      }
      StartKeeps(View(), rq, tag);
      Take(rq, tag);
      return true;
    }

    /** A request takes a tag: bit, index entry, tag and busy list. */
    method Take(rq: Rq, tag: nat)
      requires tag < tagMap.Length && tag < tagIndex.Length
      modifies this`tagOf, this`busy, tagMap, tagIndex
      ensures View() == Started(old(View()), rq, tag) && tagOf == old(tagOf)[rq := tag]
    {
      tagMap[tag] := true;
      tagOf := tagOf[rq := tag];
      tagIndex[tag] := Some(rq);
      busy := busy[rq.queue := [rq] + if rq.queue in busy then busy[rq.queue] else []];
      assert View() == Started(old(View()), rq, tag);
    }

    /** blk_queue_end_tag. */
    method EndTag(rq: Rq)
      requires Valid() && rq in tagOf
      modifies this, tagMap, tagIndex
      ensures Valid() && tagMap == old(tagMap) && tagIndex == old(tagIndex) && View() == Ended(old(View()), rq)
    {
      ghost var s := View();
      EndKeeps(s, rq);
      var tag := tagOf[rq];
      busy := busy[rq.queue := Remove(if rq.queue in busy then busy[rq.queue] else [], rq)];
      tagOf := tagOf - {rq};
      tagIndex[tag] := None;
      tagMap[tag] := false;
      assert View() == Ended(s, rq);
    }

    /** blk_requeue_request. */
    method Requeue(rq: Rq)
      requires Valid() && rq in tagOf
      modifies this, tagMap, tagIndex
      ensures Valid() && tagMap == old(tagMap) && tagIndex == old(tagIndex) && View() == Requeued(old(View()), rq)
    {
      hide Inv;
      ghost var s := View();
      EndKeeps(s, rq);
      EndTag(rq);
      heads := heads[rq.queue := [rq] + if rq.queue in heads then heads[rq.queue] else []];
      assert View() == Requeued(s, rq);
    }

    /** blk_queue_resize_tags, when growing is not cut short by the queue's request limit. */
    method Resize(newDepth: nat, shared: bool) returns (r: Outcome)
      requires Valid()
      modifies this`tagMap, this`tagIndex, this`maxDepth
      ensures Valid() && (r == InUse <==> newDepth > |old(tagMap[..])| && shared)
      ensures r == InUse ==> View() == old(View())
      ensures r != InUse ==> r == Done && maxDepth == newDepth
      ensures tagOf == old(tagOf) && busy == old(busy) && heads == old(heads)
      ensures old(tagMap[..]) <= tagMap[..] && old(tagIndex[..]) <= tagIndex[..]
      ensures tagMap == old(tagMap) || (fresh(tagMap) && fresh(tagIndex))
    {
      hide Inv;
      ghost var s := View();
      InvSizes(s);
      var depth := tagMap.Length;
      if newDepth <= depth {
        maxDepth := newDepth;
        ResizeKeeps(s, View());
        return Done;
      }
      if shared {
        return InUse;
      }
      var oldMap, oldIndex := tagMap[..], tagIndex[..];
      tagMap := new bool[newDepth](i requires 0 <= i => if i < |oldMap| then oldMap[i] else false);
      tagIndex := new Option<Rq>[newDepth](i requires 0 <= i => if i < |oldIndex| then oldIndex[i] else None);
      maxDepth := newDepth;
      assert oldMap <= tagMap[..] && oldIndex <= tagIndex[..];
      ResizeKeeps(s, View());
      return Done;
    }

    /** blk_queue_invalidate_tags: every tag of the queue is free again, no other tag is touched, and
        the requests are back at the head of the dispatch queue in the order they were started. */
    method Invalidate(q: nat)
      requires Valid()
      modifies this, tagMap, tagIndex
      ensures Valid() && BusyList(View(), q) == []
      ensures forall rq :: rq in tagOf <==> rq in old(tagOf) && rq.queue != q
      ensures forall rq :: rq in tagOf ==> tagOf[rq] == old(tagOf)[rq]
      ensures Head(View(), q) == Reversed(old(BusyList(View(), q))) + old(Head(View(), q))
    {
      hide Inv, Requeued, Reversed, NoDup, Requeuing;
      ghost var s := View();
      var list := if q in busy then busy[q] else [];
      RequeuingStart(s, q);
      var i := 0;
      while i < |list|
        invariant 0 <= i <= |list| && Valid() && tagMap == old(tagMap) && tagIndex == old(tagIndex)
        invariant Requeuing(s, View(), q, i)
      {
        RequeuingStep(s, View(), q, i);
        Requeue(list[i]);
        i := i + 1;
      }
      RequeuingEnd(s, View(), q);
    }
  }
}

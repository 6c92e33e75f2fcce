/**
 The back-merge hash of block/elevator.c. Requests sit in the bucket of the sector behind their
 last one, and requests that have become unmergeable are dropped when a search meets them.
 */
module MergeHash {
  import opened Lists

  const BUCKETS: nat := 64

  datatype Rq = Rq(pos: nat, sectors: nat, mergeable: bool)

  /** rq_hash_key. */
  function Key(r: Rq): nat {
    r.pos + r.sectors
  }

  type Buckets = b: seq<seq<nat>> | |b| == BUCKETS witness seq(BUCKETS, _ => [])

  /** Is the request on the hash at all? */
  ghost predicate On(buckets: Buckets, id: nat) {
    exists b :: 0 <= b < BUCKETS && id in buckets[b]
  }

  /** hlist_del_init: off whatever bucket it is in. */
  function Without(buckets: Buckets, id: nat): Buckets {
    seq(BUCKETS, b requires 0 <= b < BUCKETS => Remove(buckets[b], id))
  }

  /** Every hashed request is in the bucket of its key, once, and in no other. */
  ghost predicate Placed(fn: nat -> nat, rqs: map<nat, Rq>, buckets: Buckets) {
    && (forall k :: fn(k) < BUCKETS)
    && (forall b :: 0 <= b < BUCKETS ==> NoDup(buckets[b]))
    && (forall b, id :: 0 <= b < BUCKETS && id in buckets[b] ==> id in rqs && fn(Key(rqs[id])) == b)
  }

  /** Without a request, the others stay where they are, whatever its record becomes. */
  lemma WithoutPlaced(fn: nat -> nat, rqs: map<nat, Rq>, buckets: Buckets, id: nat, r: Rq)
    requires Placed(fn, rqs, buckets)
    ensures Placed(fn, rqs, Without(buckets, id)) && Placed(fn, rqs[id := r], Without(buckets, id))
    ensures forall x :: On(Without(buckets, id), x) <==> x != id && On(buckets, x)
  {
    var w := Without(buckets, id);
    forall b | 0 <= b < BUCKETS ensures NoDup(w[b]) && id !in w[b] {
      RemoveNoDup(buckets[b], id);
    }
    forall x | x != id && On(buckets, x) ensures On(w, x) {
      var b :| 0 <= b < BUCKETS && x in buckets[b];
      assert x in w[b];
    }
  }

  lemma AddPlaced(fn: nat -> nat, rqs: map<nat, Rq>, buckets: Buckets, id: nat)
    requires Placed(fn, rqs, buckets) && id in rqs && !On(buckets, id)
    ensures
      var b := fn(Key(rqs[id]));
      var buckets' := buckets[b := [id] + buckets[b]];
      Placed(fn, rqs, buckets') && forall x :: On(buckets', x) <==> x == id || On(buckets, x)
  {
    var b := fn(Key(rqs[id]));
    var buckets' := buckets[b := [id] + buckets[b]];
    NoDupAppend(buckets[b], id);
    assert id in buckets'[b];
    forall x | On(buckets, x) ensures On(buckets', x) {
      var k :| 0 <= k < BUCKETS && x in buckets[k];
      assert x in buckets'[k];
    }
  }

  class Hash {
    /** ELV_HASH_FN. */
    const fn: nat -> nat
    var rqs: map<nat, Rq>
    var buckets: Buckets

    ghost predicate Valid()
      reads this
    {
      Placed(fn, rqs, buckets)
    }

    ghost predicate Hashed(id: nat)
      reads this
    {
      On(buckets, id)
    }

    /** What a scan over all hashed requests would accept. */
    ghost predicate EndsAt(id: nat, offset: nat)
      reads this
    {
      Hashed(id) && id in rqs && rqs[id].mergeable && rqs[id].pos + rqs[id].sectors == offset
    }

    constructor (fn: nat -> nat)
      requires forall k :: fn(k) < BUCKETS
      ensures Valid() && rqs == map[] && forall id :: !Hashed(id)
    {
      this.fn, rqs := fn, map[];
      buckets := seq(BUCKETS, _ => []);
    }

    /** elv_rqhash_add. */
    method Add(id: nat)
      requires Valid() && id in rqs && !Hashed(id)
      modifies this`buckets
      ensures Valid() && forall x :: Hashed(x) <==> x == id || old(Hashed(x))
    {
      AddPlaced(fn, rqs, buckets, id);
      var b := fn(Key(rqs[id]));
      buckets := buckets[b := [id] + buckets[b]];
    }

    /** A request enters the elevator. */
    method NewRequest(id: nat, r: Rq)
      requires Valid() && id !in rqs
      modifies this
      ensures Valid() && rqs == old(rqs)[id := r]
      ensures forall x :: Hashed(x) <==> (x == id && r.mergeable) || old(Hashed(x))
    {
      hide NoDup;
      rqs := rqs[id := r];
      if r.mergeable {
        Add(id);
      }
    }

    /** elv_rqhash_del. */
    method Del(id: nat)
      requires Valid()
      modifies this`buckets
      ensures Valid() && forall x :: Hashed(x) <==> x != id && old(Hashed(x))
    {
      WithoutPlaced(fn, rqs, buckets, id, Rq(0, 0, false));
      buckets := Without(buckets, id);
    }

    /** A back merge has made the request longer: elv_merged_request repositions it. */
    method BackMerged(id: nat, sectors: nat)
      requires Valid() && id in rqs
      modifies this
      ensures Valid() && rqs == old(rqs)[id := old(rqs)[id].(sectors := old(rqs)[id].sectors + sectors)]
      ensures forall x :: Hashed(x) <==> x == id || old(Hashed(x))
    {
      hide Placed, On;
      WithoutPlaced(fn, rqs, buckets, id, rqs[id].(sectors := rqs[id].sectors + sectors));
      rqs := rqs[id := rqs[id].(sectors := rqs[id].sectors + sectors)];
      buckets := Without(buckets, id);
      Add(id);
    }

    /** A front merge moves the start back by what it adds, so the end stays and nothing is done. */
    method FrontMerged(id: nat, sectors: nat)
      requires Valid() && id in rqs && sectors <= rqs[id].pos
      modifies this`rqs
      ensures Valid()
      ensures
        var r := old(rqs)[id];
        rqs == old(rqs)[id := Rq(r.pos - sectors, r.sectors + sectors, r.mergeable)]
      ensures Key(rqs[id]) == Key(old(rqs)[id])
    {
      rqs := rqs[id := rqs[id].(pos := rqs[id].pos - sectors, sectors := rqs[id].sectors + sectors)];
    }

    /** elv_merge_requests. */
    method MergeRequests(id: nat, next: nat)
      requires Valid() && id in rqs && next in rqs && id != next
      modifies this
      ensures Valid() && rqs == old(rqs)[id := old(rqs)[id].(sectors := old(rqs)[id].sectors + old(rqs)[next].sectors)]
      ensures forall x :: Hashed(x) <==> x != next && (x == id || old(Hashed(x)))
    {
      hide Placed, On;
      BackMerged(id, rqs[next].sectors);
      Del(next);
    }

    /** REQ_NOMERGE is set; the request stays on the hash for now. */
    method SetNoMerge(id: nat)
      requires Valid() && id in rqs
      modifies this`rqs
      ensures Valid() && rqs == old(rqs)[id := old(rqs)[id].(mergeable := false)]
    {
      rqs := rqs[id := rqs[id].(mergeable := false)];
    }

    /** elv_rqhash_find agrees with a scan over all hashed requests; it only ever drops
        unmergeable ones. */
    method Find(offset: nat) returns (found: Option<nat>)
      requires Valid()
      modifies this`buckets
      ensures Valid()
      ensures found.Some? ==> EndsAt(found.value, offset)
      ensures found.None? ==> forall id :: !EndsAt(id, offset)
      ensures forall id, k :: EndsAt(id, k) <==> old(EndsAt(id, k))
      ensures forall id :: Hashed(id) ==> old(Hashed(id))
    {
      var h := fn(offset);
      var list := buckets[h];
      var i := 0;
      while i < |list|
        invariant 0 <= i <= |list| && Valid()
        invariant forall b :: 0 <= b < BUCKETS && b != h ==> buckets[b] == old(buckets)[b]
        invariant forall x :: x in buckets[h] ==> x in list
        invariant forall x :: x in list && rqs[x].mergeable ==> x in buckets[h]
        invariant forall j :: 0 <= j < i ==> !rqs[list[j]].mergeable || Key(rqs[list[j]]) != offset
      {
        var id := list[i];
        if !rqs[id].mergeable {
          RemoveNoDup(buckets[h], id);
          buckets := buckets[h := Remove(buckets[h], id)];
        } else if Key(rqs[id]) == offset {
          SameEnds(fn, rqs, old(buckets), buckets, h);
          assert id in buckets[h];
          return Some(id);
        }
        i := i + 1;
      }
      SameEnds(fn, rqs, old(buckets), buckets, h);
      found := None;
    }
  }

  /** Dropping unmergeable requests from one bucket changes nothing for a scan. */
  lemma SameEnds(fn: nat -> nat, rqs: map<nat, Rq>, was: Buckets, now: Buckets, h: nat)
    requires h < BUCKETS && Placed(fn, rqs, was)
    requires forall b :: 0 <= b < BUCKETS && b != h ==> now[b] == was[b]
    requires forall x :: x in now[h] ==> x in was[h]
    requires forall x :: x in was[h] && rqs[x].mergeable ==> x in now[h]
    ensures forall x :: On(now, x) ==> On(was, x)
    ensures forall x :: x in rqs && rqs[x].mergeable ==> (On(now, x) <==> On(was, x))
  {
    forall x | On(now, x) ensures On(was, x) {
      var b :| 0 <= b < BUCKETS && x in now[b];
      assert x in was[b];
    }
    forall x | x in rqs && rqs[x].mergeable && On(was, x) ensures On(now, x) {
      var b :| 0 <= b < BUCKETS && x in was[b];
      assert x in now[b];
    }
  }
}

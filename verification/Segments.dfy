/**
 Physical segments of block/blk-merge.c: what the counter __blk_recalc_rq_segments and the
 mapper blk_rq_map_sg make of a list of bio vectors.
 */
module Segments {

  /** struct bio_vec: a stretch of one page. */
  datatype Vec = Vec(page: nat, offset: nat, len: nat)

  /** The queue limits that govern segments. `joins` stands for BIOVEC_PHYS_MERGEABLE and
      BIOVEC_SEG_BOUNDARY, which depend on the machine. */
  datatype Queue = Queue(cluster: bool, maxSegSize: nat, maxSegments: nat, maxSectors: nat, maxHwSectors: nat,
                         bouncePfn: nat, joins: (Vec, Vec) -> bool)

  function Size(vecs: seq<Vec>): nat {
    if vecs == [] then 0 else Size(vecs[..|vecs| - 1]) + vecs[|vecs| - 1].len
  }

  predicate Joined(q: Queue, vecs: seq<Vec>) {
    forall i :: 0 < i < |vecs| ==> q.joins(vecs[i - 1], vecs[i])
  }

  /** A stretch of vectors the hardware may take as one segment. */
  predicate Legal(q: Queue, seg: seq<Vec>) {
    seg != [] && (|seg| > 1 ==> q.cluster && Joined(q, seg) && Size(seg) <= q.maxSegSize)
  }

  function Flatten(segs: seq<seq<Vec>>): seq<Vec> {
    if segs == [] then [] else Flatten(segs[..|segs| - 1]) + segs[|segs| - 1]
  }

  /** segs cuts vecs into legal segments. */
  predicate Cuts(q: Queue, segs: seq<seq<Vec>>, vecs: seq<Vec>) {
    Flatten(segs) == vecs && forall i :: 0 <= i < |segs| ==> Legal(q, segs[i])
  }

  // ------------------------------------------------------------------
  // The counter

  predicate IsHigh(q: Queue, v: Vec) {
    v.page > q.bouncePfn
  }

  /** Does the counter let v continue the segment? A page above the bounce limit never does. */
  predicate CounterJoins(q: Queue, seg: seq<Vec>, v: Vec)
    requires seg != []
  {
    && !IsHigh(q, v) && !IsHigh(q, seg[0])
    && q.cluster
    && Size(seg) + v.len <= q.maxSegSize
    && q.joins(seg[|seg| - 1], v)
  }

  /** One vector more in __blk_recalc_rq_segments. */
  function Counted(q: Queue, segs: seq<seq<Vec>>, v: Vec): seq<seq<Vec>> {
    var n := |segs| - 1;
    if segs != [] && segs[n] != [] && CounterJoins(q, segs[n], v) then segs[n := segs[n] + [v]]
    else segs + [[v]]
  }

  /** The segments that __blk_recalc_rq_segments counts. */
  function Recount(q: Queue, vecs: seq<Vec>): seq<seq<Vec>> {
    if vecs == [] then [] else Counted(q, Recount(q, vecs[..|vecs| - 1]), vecs[|vecs| - 1])
  }

  lemma SizeSnoc(vecs: seq<Vec>, v: Vec)
    ensures Size(vecs + [v]) == Size(vecs) + v.len
  {
    assert (vecs + [v])[..|vecs|] == vecs;
  }

  lemma {:induction false} SizeConcat(a: seq<Vec>, b: seq<Vec>)
    ensures Size(a + b) == Size(a) + Size(b)
    decreases |b|
  {
    if b == [] {
      assert a + b == a;
    } else {
      var n := |b| - 1;
      assert a + b == (a + b[..n]) + [b[n]] && b == b[..n] + [b[n]];
      SizeSnoc(a + b[..n], b[n]);
      SizeConcat(a, b[..n]);
    }
  }

  lemma FlattenSnoc(segs: seq<seq<Vec>>, seg: seq<Vec>)
    ensures Flatten(segs + [seg]) == Flatten(segs) + seg
  {
    assert (segs + [seg])[..|segs|] == segs;
  }

  lemma {:induction false} FlattenConcat(a: seq<seq<Vec>>, b: seq<seq<Vec>>)
    ensures Flatten(a + b) == Flatten(a) + Flatten(b)
    decreases |b|
  {
    if b == [] {
      assert a + b == a;
    } else {
      var n := |b| - 1;
      assert a + b == (a + b[..n]) + [b[n]] && b == b[..n] + [b[n]];
      FlattenSnoc(a + b[..n], b[n]);
      FlattenConcat(a, b[..n]);
    }
  }

  lemma CountedCuts(q: Queue, segs: seq<seq<Vec>>, vecs: seq<Vec>, v: Vec)
    requires Cuts(q, segs, vecs)
    ensures Cuts(q, Counted(q, segs, v), vecs + [v])
    ensures Counted(q, segs, v) != []
  {
    var n := |segs| - 1;
    if segs != [] && segs[n] != [] && CounterJoins(q, segs[n], v) {
      var segs' := segs[n := segs[n] + [v]];
      assert segs' == segs[..n] + [segs[n] + [v]] && segs == segs[..n] + [segs[n]];
      FlattenSnoc(segs[..n], segs[n]);
      FlattenSnoc(segs[..n], segs[n] + [v]);
      SizeSnoc(segs[n], v);
      assert Legal(q, segs[n]);
      assert Joined(q, segs[n] + [v]);
    } else {
      FlattenSnoc(segs, [v]);
    }
  }

  /** What the counter counts is a legal way to cut the vectors. */
  lemma {:induction false} RecountCuts(q: Queue, vecs: seq<Vec>)
    ensures Cuts(q, Recount(q, vecs), vecs)
    ensures vecs != [] ==> Recount(q, vecs) != []
    decreases |vecs|
  {
    if vecs != [] {
      var n := |vecs| - 1;
      RecountCuts(q, vecs[..n]);
      assert vecs == vecs[..n] + [vecs[n]];
      CountedCuts(q, Recount(q, vecs[..n]), vecs[..n], vecs[n]);
    }
  }

  /** A page above the bounce limit is counted as a segment of its own. */
  lemma {:induction false} HighAlone(q: Queue, vecs: seq<Vec>, i: nat, j: nat)
    requires i < |Recount(q, vecs)| && j < |Recount(q, vecs)[i]| && Recount(q, vecs)[i][j].page > q.bouncePfn
    ensures |Recount(q, vecs)[i]| == 1
    decreases |vecs|
  {
    var n := |vecs| - 1;
    var segs := Recount(q, vecs[..n]);
    if i < |segs| && Recount(q, vecs)[i] == segs[i] {
      HighAlone(q, vecs[..n], i, j);
    } else if i < |segs| {
      assert Recount(q, vecs)[i] == segs[i] + [vecs[n]];
      RecountCuts(q, vecs[..n]);
      assert segs[i] != [];
      if j < |segs[i]| {
        HighAlone(q, vecs[..n], i, j);
      }
    }
  }

  // ------------------------------------------------------------------
  // The mapper

  /** An entry of the scatterlist: where it starts and how long it is. */
  datatype Entry = Entry(page: nat, offset: nat, length: nat)

  /** The scatterlist so far and the vector before. */
  datatype Mapping = Mapping(sg: seq<Entry>, prev: seq<Vec>)

  /** May the mapper extend its last entry by v? */
  predicate MapperJoins(q: Queue, m: Mapping, v: Vec) {
    && m.sg != [] && m.prev != []
    && q.cluster
    && m.sg[|m.sg| - 1].length + v.len <= q.maxSegSize
    && q.joins(m.prev[|m.prev| - 1], v)
  }

  /** One vector more in blk_rq_map_sg. */
  function Mapped(q: Queue, m: Mapping, v: Vec): Mapping {
    var n := |m.sg| - 1;
    if MapperJoins(q, m, v) then
      Mapping(m.sg[n := m.sg[n].(length := m.sg[n].length + v.len)], m.prev + [v])
    else Mapping(m.sg + [Entry(v.page, v.offset, v.len)], m.prev + [v])
  }

  /** blk_rq_map_sg over the vectors of a request. */
  function MapSg(q: Queue, vecs: seq<Vec>): Mapping {
    if vecs == [] then Mapping([], []) else Mapped(q, MapSg(q, vecs[..|vecs| - 1]), vecs[|vecs| - 1])
  }

  lemma MapSnoc(q: Queue, vecs: seq<Vec>, v: Vec)
    ensures MapSg(q, vecs + [v]) == Mapped(q, MapSg(q, vecs), v)
  {
    assert (vecs + [v])[..|vecs|] == vecs;
  }

  lemma {:induction false} MapKnowsVecs(q: Queue, vecs: seq<Vec>)
    ensures MapSg(q, vecs).prev == vecs
    ensures vecs != [] ==> MapSg(q, vecs).sg != []
    decreases |vecs|
  {
    hide MapSg;
    if vecs == [] {
      MapNil(q);
    } else {
      var n := |vecs| - 1;
      MapKnowsVecs(q, vecs[..n]);
      assert vecs == vecs[..n] + [vecs[n]];
      MapSnoc(q, vecs[..n], vecs[n]);
    }
  }

  lemma MapNil(q: Queue)
    ensures MapSg(q, []) == Mapping([], [])
  {
  }

  function LastLength(m: Mapping): nat {
    if m.sg == [] then 0 else m.sg[|m.sg| - 1].length
  }

  /** The mapper is ahead of a cut into `count` segments the last of which has `size` bytes. */
  predicate Ahead(m: Mapping, count: nat, size: nat) {
    |m.sg| < count || (|m.sg| == count && LastLength(m) <= size)
  }

  lemma StartsSegment(q: Queue, m: Mapping, v: Vec, count: nat, size: nat)
    requires Ahead(m, count, size)
    ensures Ahead(Mapped(q, m, v), count + 1, v.len)
  {
  }

  lemma ContinuesSegment(q: Queue, m: Mapping, v: Vec, count: nat, size: nat)
    requires Ahead(m, count, size) && count > 0 && m.prev != [] && m.sg != []
    requires q.cluster && q.joins(m.prev[|m.prev| - 1], v) && size + v.len <= q.maxSegSize
    ensures Ahead(Mapped(q, m, v), count, size + v.len)
  {
  }

  /** The mapper stays ahead through one legal segment. */
  lemma {:induction false} ThroughSegment(q: Queue, vecs: seq<Vec>, count: nat, size: nat, seg: seq<Vec>)
    requires Ahead(MapSg(q, vecs), count, size) && Legal(q, seg)
    ensures Ahead(MapSg(q, vecs + seg), count + 1, Size(seg))
    decreases |seg|
  {
    hide MapSg, Mapped, Ahead;
    var n := |seg| - 1;
    var v := seg[n];
    assert seg == seg[..n] + [v];
    assert vecs + seg == (vecs + seg[..n]) + [v];
    MapSnoc(q, vecs + seg[..n], v);
    SizeSnoc(seg[..n], v);
    if n == 0 {
      assert vecs + seg[..n] == vecs;
      StartsSegment(q, MapSg(q, vecs), v, count, size);
    } else {
      assert Joined(q, seg[..n]) && q.joins(seg[n - 1], v);
      ThroughSegment(q, vecs, count, size, seg[..n]);
      MapKnowsVecs(q, vecs + seg[..n]);
      ContinuesSegment(q, MapSg(q, vecs + seg[..n]), v, count + 1, Size(seg[..n]));
    }
  }

  /** Greedy minimality: no legal cut of the vectors has fewer segments than the scatterlist. */
  lemma {:induction false} MapperIsMinimal(q: Queue, segs: seq<seq<Vec>>, vecs: seq<Vec>)
    requires Cuts(q, segs, vecs)
    ensures |MapSg(q, vecs).sg| <= |segs|
    ensures Ahead(MapSg(q, vecs), |segs|, if segs == [] then 0 else Size(segs[|segs| - 1]))
    decreases |segs|
  {
    if segs != [] {
      var n := |segs| - 1;
      var before := Flatten(segs[..n]);
      MapperIsMinimal(q, segs[..n], before);
      ThroughSegment(q, before, n, if n == 0 then 0 else Size(segs[n - 1]), segs[n]);
    }
  }

  // ------------------------------------------------------------------
  // Joining two cuts

  lemma CutsConcat(q: Queue, a: seq<seq<Vec>>, va: seq<Vec>, b: seq<seq<Vec>>, vb: seq<Vec>)
    requires Cuts(q, a, va) && Cuts(q, b, vb)
    ensures Cuts(q, a + b, va + vb)
  {
    FlattenConcat(a, b);
  }

  /** The last segment of one cut and the first of another, made one. */
  function Fused(a: seq<seq<Vec>>, b: seq<seq<Vec>>): seq<seq<Vec>>
    requires a != [] && b != []
  {
    a[..|a| - 1] + [a[|a| - 1] + b[0]] + b[1..]
  }

  lemma FusedFlattens(a: seq<seq<Vec>>, b: seq<seq<Vec>>)
    requires a != [] && b != []
    ensures Flatten(Fused(a, b)) == Flatten(a) + Flatten(b)
  {
    hide Flatten;
    var n := |a| - 1;
    var last, first := a[n], b[0];
    FlattenHead(b);
    FlattenLast(a);
    FlattenSnoc(a[..n], last + first);
    FlattenConcat(a[..n] + [last + first], b[1..]);
    Regroup(Flatten(a[..n]), last, first, Flatten(b[1..]));
  }

  lemma FlattenHead(b: seq<seq<Vec>>)
    requires b != []
    ensures Flatten(b) == b[0] + Flatten(b[1..])
  {
    hide Flatten;
    assert b == [b[0]] + b[1..];
    FlattenConcat([b[0]], b[1..]);
    FlattenOne(b[0]);
  }

  lemma FlattenLast(a: seq<seq<Vec>>)
    requires a != []
    ensures Flatten(a) == Flatten(a[..|a| - 1]) + a[|a| - 1]
  {
  }

  lemma Regroup(w: seq<Vec>, x: seq<Vec>, y: seq<Vec>, z: seq<Vec>)
    ensures w + (x + y) + z == (w + x) + (y + z)
  {
  }

  lemma LegalFused(q: Queue, last: seq<Vec>, first: seq<Vec>)
    requires Legal(q, last) && Legal(q, first) && q.cluster && q.joins(last[|last| - 1], first[0])
    requires Size(last) + Size(first) <= q.maxSegSize
    ensures Legal(q, last + first)
  {
    SizeConcat(last, first);
    assert Joined(q, last) && Joined(q, first);
    forall i | 0 < i < |last + first| ensures q.joins((last + first)[i - 1], (last + first)[i]) {
      if i > |last| {
        assert q.joins(first[i - |last| - 1], first[i - |last|]);
      }
    }
  }

  lemma EndsOfCut(q: Queue, segs: seq<seq<Vec>>, vecs: seq<Vec>)
    requires Cuts(q, segs, vecs) && segs != []
    ensures vecs != [] && segs[0] != [] && segs[|segs| - 1] != []
    ensures segs[0][0] == vecs[0]
    ensures segs[|segs| - 1][|segs[|segs| - 1]| - 1] == vecs[|vecs| - 1]
  {
    assert Legal(q, segs[0]) && Legal(q, segs[|segs| - 1]);
    assert segs == [segs[0]] + segs[1..];
    FlattenConcat([segs[0]], segs[1..]);
    FlattenOne(segs[0]);
  }

  lemma CutsFused(q: Queue, a: seq<seq<Vec>>, va: seq<Vec>, b: seq<seq<Vec>>, vb: seq<Vec>)
    requires Cuts(q, a, va) && Cuts(q, b, vb) && a != [] && b != [] && va != [] && vb != []
    requires q.cluster && q.joins(va[|va| - 1], vb[0])
    requires Size(a[|a| - 1]) + Size(b[0]) <= q.maxSegSize
    ensures Cuts(q, Fused(a, b), va + vb) && |Fused(a, b)| == |a| + |b| - 1
  {
    hide Flatten, Legal;
    EndsOfCut(q, a, va);
    EndsOfCut(q, b, vb);
    FusedFlattens(a, b);
    LegalFused(q, a[|a| - 1], b[0]);
  }

  lemma FlattenOne(seg: seq<Vec>)
    ensures Flatten([seg]) == seg
  {
    assert [seg][..0] == [];
  }

  // ------------------------------------------------------------------
  // The mapper's entries are segments

  /** The entries describe these segments: start and length. */
  predicate Shows(sg: seq<Entry>, segs: seq<seq<Vec>>) {
    && |sg| == |segs|
    && forall i :: 0 <= i < |segs| ==>
         segs[i] != [] && sg[i] == Entry(segs[i][0].page, segs[i][0].offset, Size(segs[i]))
  }

  predicate NoneHigh(q: Queue, vecs: seq<Vec>) {
    forall i :: 0 <= i < |vecs| ==> !IsHigh(q, vecs[i])
  }

  lemma ShowsOne(q: Queue, m: Mapping, segs: seq<seq<Vec>>, vecs: seq<Vec>, v: Vec)
    requires Shows(m.sg, segs) && m.prev == vecs && Cuts(q, segs, vecs) && NoneHigh(q, vecs) && !IsHigh(q, v)
    ensures Shows(Mapped(q, m, v).sg, Counted(q, segs, v))
  {
    hide Flatten, Size, Cuts;
    SizeOne(v);
    if segs != [] {
      EndsOfCut(q, segs, vecs);
      var seg := segs[|segs| - 1];
      SizeSnoc(seg, v);
      NotHigh(q, segs, vecs);
    } else {
      EmptyCut(q, vecs);
    }
  }

  lemma SizeOne(v: Vec)
    ensures Size([v]) == v.len
  {
    assert [v][..0] == [];
  }

  lemma EmptyCut(q: Queue, vecs: seq<Vec>)
    requires Cuts(q, [], vecs)
    ensures vecs == []
  {
  }

  /** The last segment of a cut starts at one of the vectors. */
  lemma NotHigh(q: Queue, segs: seq<seq<Vec>>, vecs: seq<Vec>)
    requires Cuts(q, segs, vecs) && segs != [] && segs[|segs| - 1] != [] && NoneHigh(q, vecs)
    ensures !IsHigh(q, segs[|segs| - 1][0])
  {
    var seg := segs[|segs| - 1];
    assert vecs[|vecs| - |seg|] == seg[0];
  }

  /** Without pages above the bounce limit the counter counts exactly the entries the mapper emits. */
  lemma {:induction false} MapperIsCounter(q: Queue, vecs: seq<Vec>)
    requires NoneHigh(q, vecs)
    ensures Shows(MapSg(q, vecs).sg, Recount(q, vecs))
    decreases |vecs|
  {
    if vecs != [] {
      var n := |vecs| - 1;
      MapperIsCounter(q, vecs[..n]);
      MapKnowsVecs(q, vecs[..n]);
      RecountCuts(q, vecs[..n]);
      ShowsOne(q, MapSg(q, vecs[..n]), Recount(q, vecs[..n]), vecs[..n], vecs[n]);
    }
  }

  lemma {:induction false} MapIgnoresBounce(q: Queue, vecs: seq<Vec>, top: nat)
    ensures MapSg(q.(bouncePfn := top), vecs) == MapSg(q, vecs)
    decreases |vecs|
  {
    if vecs != [] {
      MapIgnoresBounce(q, vecs[..|vecs| - 1], top);
    }
  }

  /** So whatever the bounce limit is, the entries are those of a legal cut of the vectors. */
  lemma MapperIsLegal(q: Queue, vecs: seq<Vec>, top: nat)
    requires forall i :: 0 <= i < |vecs| ==> vecs[i].page <= top
    ensures
      var segs := Recount(q.(bouncePfn := top), vecs);
      Shows(MapSg(q, vecs).sg, segs) && Cuts(q, segs, vecs)
  {
    hide Recount, MapSg, Flatten;
    var q' := q.(bouncePfn := top);
    MapIgnoresBounce(q, vecs, top);
    MapperIsCounter(q', vecs);
    RecountCuts(q', vecs);
    var segs := Recount(q', vecs);
    forall i | 0 <= i < |segs| ensures Legal(q, segs[i]) {
      assert Legal(q', segs[i]);
      assert Joined(q', segs[i]) == Joined(q, segs[i]);
    }
  }
}

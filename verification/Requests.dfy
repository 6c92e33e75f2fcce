/** struct request: bios and other requests are merged into it, the driver maps it and completes
    it piece by piece. */
module Requests {
  import opened Segments
  import opened Chains
  import opened Completion

  // ------------------------------------------------------------------
  // __blk_recalc_rq_segments

  /** The cached sizes at the two ends of a chain, raised to those of its end segments. */
  function WithEnds(bios: seq<Bio>, front: nat, back: nat): seq<Bio> {
    if bios == [] then []
    else
      var b1 := bios[0 := bios[0].(front := Max(bios[0].front, front))];
      var n := |b1| - 1;
      b1[n := b1[n].(back := Max(b1[n].back, back))]
  }

  /** The nested loops over bios and their vectors, with running counters. */
  method RecalcSegments(q: Queue, bios: seq<Bio>) returns (nr: nat, bios': seq<Bio>)
    ensures nr == |Recount(q, Vecs(bios))|
    ensures bios' == WithEnds(bios, FirstSize(Recount(q, Vecs(bios))), LastSize(Recount(q, Vecs(bios))))
    ensures
      var segs := Recount(q, Vecs(bios));
      bios != [] ==>
        && |bios'| == |bios| && bios'[0].front == Max(bios[0].front, FirstSize(segs))
        && bios'[|bios| - 1].back == Max(bios[|bios| - 1].back, LastSize(segs))
  {
    hide Recount, Vecs, Size;
    nr := 0;
    var segSize: nat, front: nat, highPrev := 0, 0, true;
    var prev := Vec(0, 0, 0);
    ghost var done: seq<Vec> := [];
    RecountNil(q);
    var i := 0;
    while i < |bios|
      invariant 0 <= i <= |bios|
      invariant done == Vecs(bios[..i])
      invariant Running(q, done, nr, segSize, highPrev, prev, front)
    {
      var j := 0;
      ghost var before := done;
      while j < |bios[i].vecs|
        invariant 0 <= j <= |bios[i].vecs|
        invariant done == before + bios[i].vecs[..j]
        invariant Running(q, done, nr, segSize, highPrev, prev, front)
      {
        var v := bios[i].vecs[j];
        CountOne(q, done, v);
        var high := IsHigh(q, v);
        if !high && !highPrev && q.cluster && segSize + v.len <= q.maxSegSize && q.joins(prev, v) {
          segSize, prev := segSize + v.len, v;
        } else {
          if nr == 1 && segSize > front {
            front := segSize;
          }
          nr, prev, segSize, highPrev := nr + 1, v, v.len, high;
        }
        done := done + [v];
        assert bios[i].vecs[..j + 1] == bios[i].vecs[..j] + [v];
        j := j + 1;
      }
      assert bios[i].vecs[..j] == bios[i].vecs;
      assert bios[..i + 1] == bios[..i] + [bios[i]];
      VecsSnoc(bios[..i], bios[i]);
      i := i + 1;
    }
    assert bios[..i] == bios;
    if nr == 1 && segSize > front {
      front := segSize;
    }
    bios' := WithEnds(bios, front, segSize);
  }

  /** What the running counters mean after the vectors in `done`. */
  predicate Running(q: Queue, done: seq<Vec>, nr: nat, segSize: nat, highPrev: bool, prev: Vec, front: nat) {
    var segs := Recount(q, done);
    && nr == |segs| && segSize == LastSize(segs)
    && (segs == [] ==> highPrev)
    && (segs != [] ==>
          && segs[nr - 1] != []
          && highPrev == IsHigh(q, segs[nr - 1][0])
          && prev == segs[nr - 1][|segs[nr - 1]| - 1])
    && front == (if nr <= 1 then 0 else FirstSize(segs))
  }

  lemma RecountNil(q: Queue)
    ensures Recount(q, []) == [] && Vecs([]) == []
  {
  }

  lemma CountOne(q: Queue, done: seq<Vec>, v: Vec)
    ensures Recount(q, done + [v]) == Counted(q, Recount(q, done), v)
    ensures Recount(q, done) != [] ==> Recount(q, done)[|Recount(q, done)| - 1] != []
    ensures Size([v]) == v.len
    ensures forall seg: seq<Vec> :: Size(seg + [v]) == Size(seg) + v.len
  {
    assert (done + [v])[..|done|] == done;
    RecountCuts(q, done);
    assert [v][..0] == [];
    forall seg: seq<Vec> ensures Size(seg + [v]) == Size(seg) + v.len {
      SizeSnoc(seg, v);
    }
  }

  // ------------------------------------------------------------------
  // blk_rq_map_sg

  method MapRequest(q: Queue, bios: seq<Bio>) returns (sg: seq<Entry>)
    ensures sg == MapSg(q, Vecs(bios)).sg
  {
    hide MapSg, Vecs;
    sg := [];
    var prev := Vec(0, 0, 0);
    ghost var done: seq<Vec> := [];
    MapNil(q);
    RecountNil(q);
    var i := 0;
    while i < |bios|
      invariant 0 <= i <= |bios|
      invariant done == Vecs(bios[..i])
      invariant MapSg(q, done) == Mapping(sg, done)
      invariant done != [] ==> sg != [] && prev == done[|done| - 1]
      invariant done == [] ==> sg == []
    {
      var j := 0;
      ghost var before := done;
      while j < |bios[i].vecs|
        invariant 0 <= j <= |bios[i].vecs|
        invariant done == before + bios[i].vecs[..j]
        invariant MapSg(q, done) == Mapping(sg, done)
        invariant done != [] ==> sg != [] && prev == done[|done| - 1]
        invariant done == [] ==> sg == []
      {
        var v := bios[i].vecs[j];
        MapSnoc(q, done, v);
        var n := |sg| - 1;
        if sg != [] && q.cluster && sg[n].length + v.len <= q.maxSegSize && q.joins(prev, v) {
          sg := sg[n := sg[n].(length := sg[n].length + v.len)];
        } else {
          sg := sg + [Entry(v.page, v.offset, v.len)];
        }
        prev, done := v, done + [v];
        assert bios[i].vecs[..j + 1] == bios[i].vecs[..j] + [v];
        j := j + 1;
      }
      assert bios[i].vecs[..j] == bios[i].vecs;
      assert bios[..i + 1] == bios[..i] + [bios[i]];
      VecsSnoc(bios[..i], bios[i]);
      i := i + 1;
    }
    assert bios[..i] == bios;
  }

  // ------------------------------------------------------------------
  // The loop of blk_update_request

  /** A bio whose size is that of its vectors, possibly none. */
  predicate Sized(b: Bio) {
    b.size == Size(b.vecs) && Positive(b.vecs)
  }

  lemma WalkWhole(bios: seq<Bio>, n: nat, error: bool)
    requires bios != [] && n >= bios[0].size
    ensures
      if bios[1..] != [] && n == bios[0].size
      then Walk(bios, n, error) == bios[1..] && EndedCount(bios, n) == 1
      else && Walk(bios, n, error) == Walk(bios[1..], n - bios[0].size, error)
           && EndedCount(bios, n) == 1 + EndedCount(bios[1..], n - bios[0].size)
  {
  }

  lemma WalkPart(bios: seq<Bio>, n: nat, error: bool)
    requires bios != [] && n < bios[0].size
    ensures Walk(bios, n, error) == if n == 0 || bios[0].vecs == [] then bios else bios[0 := DropBio(bios[0], n, error)]
    ensures EndedCount(bios, n) == 0
  {
  }

  lemma WalkNone(n: nat, error: bool)
    ensures Walk([], n, error) == [] && EndedCount([], n) == 0
  {
  }

  lemma SizeTake(vecs: seq<Vec>, k: nat)
    requires k < |vecs|
    ensures Size(vecs[..k + 1]) == Size(vecs[..k]) + vecs[k].len
    ensures Size(vecs) == Size(vecs[..k + 1]) + Size(vecs[k + 1..])
  {
    assert vecs[..k + 1] == vecs[..k] + [vecs[k]];
    SizeSnoc(vecs[..k], vecs[k]);
    assert vecs == vecs[..k + 1] + vecs[k + 1..];
    SizeConcat(vecs[..k + 1], vecs[k + 1..]);
  }

  lemma {:induction false} DropVecsAt(vecs: seq<Vec>, k: nat, n: nat)
    requires k < |vecs| && n < vecs[k].len
    ensures DropVecs(vecs, Size(vecs[..k]) + n)
         == [Vec(vecs[k].page, vecs[k].offset + n, vecs[k].len - n)] + vecs[k + 1..]
    decreases k
  {
    hide Size;
    if k == 0 {
      assert vecs[..0] == [];
      SizeNil();
    } else {
      var tail := vecs[1..];
      DropVecsAt(tail, k - 1, n);
      SizeHead(vecs[..k]);
      assert vecs[..k][1..] == tail[..k - 1];
      assert tail[k..] == vecs[k + 1..];
    }
  }

  /** Bios as blk_update_request meets them: with the size of their vectors, or without any vectors
      (an empty flush, a discard). */
  predicate AllWalkable(bios: seq<Bio>) {
    forall i :: 0 <= i < |bios| ==> Sized(bios[i]) || bios[i].vecs == []
  }

  lemma WalkBare(bios: seq<Bio>, n: nat, error: bool)
    requires bios != [] && n < bios[0].size && bios[0].vecs == []
    ensures Walk(bios, n, error) == bios && EndedCount(bios, n) == 0
  {
  }

  lemma TotalChanged(bios: seq<Bio>, b: Bio)
    requires bios != []
    ensures Total(bios[0 := b]) == Total(bios) - bios[0].size + b.size
  {
    var bios' := bios[0 := b];
    TotalHead(bios);
    TotalHead(bios');
    assert bios'[1..] == bios[1..];
  }

  /** Ends bios off the front of the chain while their bytes are covered, then steps over whole
      vectors of the next one and cuts into the one after. A bio without vectors that is not covered
      stops it. */
  method WalkChain(chain: seq<Bio>, nrBytes: nat, error: bool) returns (bios: seq<Bio>, total: nat, ended: nat)
    requires chain != [] && AllWalkable(chain)
    ensures bios == Walk(chain, nrBytes, error) && ended == EndedCount(chain, nrBytes)
    ensures bios != [] ==> total + Total(bios) == Total(chain)
  {
    hide Size, DropVecs, Walk, EndedCount, Total;
    bios, total, ended := chain, 0, 0;
    var left: nat, bioBytes: nat, next: nat := nrBytes, 0, 0;
    SizeNil();
    assert chain[0].vecs[..0] == [];
    ghost var stopped := false;
    while bios != []
      invariant AllWalkable(bios) && left + total == nrBytes && !stopped
      invariant total + Total(bios) == Total(chain) + bioBytes
      invariant bios != [] ==>
                  && next <= |bios[0].vecs| && bioBytes == Size(bios[0].vecs[..next])
                  && (next > 0 ==> bioBytes + left < bios[0].size)
      invariant bios == [] ==> bioBytes == 0
      invariant Walk(chain, nrBytes, error) == Walk(bios, bioBytes + left, error)
      invariant EndedCount(chain, nrBytes) == ended + EndedCount(bios, bioBytes + left)
      decreases |bios|, if bios == [] then 0 else |bios[0].vecs| - next
    {
      var bio := bios[0];
      var n: nat;
      if left >= bio.size {
        WalkWhole(bios, left, error);
        TotalHead(bios);
        bios, n, ended := bios[1..], bio.size, ended + 1;
        next, bioBytes := 0, 0;
        if bios != [] {
          assert bios[0].vecs[..0] == [];
        }
        stopped := bios != [] && left == n;
      } else {
        assert bio.vecs[..|bio.vecs|] == bio.vecs;
        if next == |bio.vecs| {
          WalkBare(bios, left, error);
          stopped := true;
          break;
        }
        SizeTake(bio.vecs, next);
        n := bio.vecs[next].len;
        if n > left {
          total := total + left;
          bioBytes := bioBytes + left;
          break;
        }
        next, bioBytes := next + 1, bioBytes + n;
      }
      total, left := total + n, left - n;
      if bios != [] && left == 0 {
        break;
      }
    }
    if bios == [] {
      WalkNone(bioBytes + left, error);
    } else if bioBytes > 0 {
      var bio := bios[0];
      WalkPart(bios, bioBytes, error);
      var v := bio.vecs[next];
      DropVecsAt(bio.vecs, next, left);
      var cut := bio.(size := bio.size - bioBytes, sector := bio.sector + bioBytes / SECTOR,
                      vecs := [Vec(v.page, v.offset + left, v.len - left)] + bio.vecs[next + 1..],
                      uptodate := bio.uptodate && !error);
      TotalChanged(bios, cut);
      bios := bios[0 := cut];
    } else if !stopped {
      WalkPart(bios, 0, error);
    }
  }

  // ------------------------------------------------------------------
  // Merging a bio

  /** What two partners of a merge have to agree in. */
  datatype Kind = Kind(write: bool, discard: bool, secure: bool, disk: nat)

  datatype MergeKind = NoMerge | BackMerge | FrontMerge

  lemma WithEndsStrips(bios: seq<Bio>, front: nat, back: nat)
    ensures StripAll(WithEnds(bios, front, back)) == StripAll(bios)
  {
  }

  /** A chain counted afresh is cut by its recount. */
  lemma RecalcOk(q: Queue, bios: seq<Bio>)
    requires bios != [] && AllCarry(bios)
    ensures
      var segs := Recount(q, Vecs(bios));
      var bios' := WithEnds(bios, FirstSize(segs), LastSize(segs));
      SegOk(q, segs, bios', |segs|) && Vecs(bios') == Vecs(bios) && Total(bios') == Total(bios)
  {
    var segs := Recount(q, Vecs(bios));
    RecountCuts(q, Vecs(bios));
    WithEndsStrips(bios, FirstSize(segs), LastSize(segs));
    StripVecs(bios, WithEnds(bios, FirstSize(segs), LastSize(segs)));
    assert Carries(bios[|bios| - 1]);
  }

  /** The last bio of a chain recounted if its caches are not valid. */
  function TailCounted(q: Queue, bios: seq<Bio>): seq<Bio>
    requires bios != []
  {
    var n := |bios| - 1;
    if bios[n].segValid then bios else bios[n := RecountBio(q, bios[n])]
  }

  lemma RecountTail(q: Queue, segs: seq<seq<Vec>>, bios: seq<Bio>, n: nat)
    requires SegOk(q, segs, bios, n) && AllCarry(bios)
    ensures
      var bios' := TailCounted(q, bios);
      && StripAll(bios') == StripAll(bios) && bios' != []
      && SegOk(q, segs, bios', n) && AllCarry(bios') && Total(bios') == Total(bios) && Vecs(bios') == Vecs(bios)
  {
    hide Recount, Cuts;
    var bios' := TailCounted(q, bios);
    assert StripAll(bios') == StripAll(bios);
    StripVecs(bios, bios');
    StripFrame(0, bios, bios');
  }

  lemma BackKeeps(q: Queue, segs: seq<seq<Vec>>, bios: seq<Bio>, n: nat, bio: Bio, b: Bio)
    requires SegOk(q, segs, bios, n) && AllCarry(bios) && Carries(bio) && IsCounted(q, bio)
    requires b == if bio.segValid then bio else RecountBio(q, bio)
    ensures SegOk(q, segs + Recount(q, b.vecs), bios + [b], n + b.segs)
    ensures AllCarry(bios + [b]) && Total(bios + [b]) == Total(bios) + bio.size
    ensures StripAll(bios + [b]) == StripAll(bios) + StripAll([bio])
    ensures b.size == bio.size
  {
    hide Recount, SegOk;
    RecountCounts(q, bio);
    assert Carries(b);
    SegOne(q, b);
    SegAppend(q, segs, bios, n, Recount(q, b.vecs), [b], b.segs);
    VecsSnoc(bios, b);
  }

  lemma FreshChain(q: Queue, bio: Bio)
    requires Carries(bio) && IsCounted(q, bio) && bio.size % SECTOR == 0
    ensures
      var b := if bio.segValid then bio else RecountBio(q, bio);
      && AllCarry([b]) && Total([b]) == bio.size && SegOk(q, Recount(q, b.vecs), [b], b.segs)
      && StripAll([b]) == StripAll([bio]) && Contiguous(bio.sector, [b])
  {
    hide Recount, SegOk;
    var b := if bio.segValid then bio else RecountBio(q, bio);
    RecountCounts(q, bio);
    assert Carries(b);
    SegOne(q, b);
    VecsOne(b);
    assert StripAll([b]) == [Strip(b)] && StripAll([bio]) == [Strip(bio)];
  }

  lemma RecountCounts(q: Queue, b: Bio)
    requires IsCounted(q, b)
    ensures
      var b' := if b.segValid then b else RecountBio(q, b);
      b'.segValid && IsCounted(q, b') && Strip(b') == Strip(b) && b'.vecs == b.vecs
      && b'.front >= b.front && b'.back >= b.back
  {
  }

  /** The first bio of a chain recounted if its caches are not valid. */
  function HeadCounted(q: Queue, bios: seq<Bio>): seq<Bio>
    requires bios != []
  {
    if bios[0].segValid then bios else bios[0 := RecountBio(q, bios[0])]
  }

  lemma RecountHead(q: Queue, segs: seq<seq<Vec>>, bios: seq<Bio>, n: nat)
    requires SegOk(q, segs, bios, n) && AllCarry(bios)
    ensures
      var bios' := HeadCounted(q, bios);
      && StripAll(bios') == StripAll(bios) && bios' != []
      && SegOk(q, segs, bios', n) && AllCarry(bios') && Total(bios') == Total(bios) && Vecs(bios') == Vecs(bios)
  {
    hide Recount, Cuts;
    var bios' := HeadCounted(q, bios);
    assert StripAll(bios') == StripAll(bios);
    StripVecs(bios, bios');
    StripFrame(0, bios, bios');
  }

  lemma FrontKeeps(q: Queue, segs: seq<seq<Vec>>, bios: seq<Bio>, n: nat, bio: Bio, b: Bio)
    requires SegOk(q, segs, bios, n) && AllCarry(bios) && Carries(bio) && IsCounted(q, bio)
    requires b == if bio.segValid then bio else RecountBio(q, bio)
    ensures SegOk(q, Recount(q, b.vecs) + segs, [b] + bios, n + b.segs)
    ensures AllCarry([b] + bios) && Total([b] + bios) == Total(bios) + bio.size
    ensures StripAll([b] + bios) == StripAll([bio]) + StripAll(bios)
    ensures b.size == bio.size
  {
    hide Recount, SegOk;
    RecountCounts(q, bio);
    assert Carries(b);
    SegOne(q, b);
    SegAppend(q, Recount(q, b.vecs), [b], b.segs, segs, bios, n);
    VecsConcat([b], bios);
    VecsOne(b);
  }

  /** A bio that elv_try_merge puts at the end continues the chain. */
  lemma BackContiguous(pos: nat, bios: seq<Bio>, bio: Bio, bios': seq<Bio>)
    ensures Contiguous(pos, bios) && StripAll(bios') == StripAll(bios) ==> Contiguous(pos, bios')
    ensures Contiguous(pos, bios) && bios != [] && bio.size % SECTOR == 0
            && pos + Total(bios) / SECTOR == bio.sector && StripAll(bios') == StripAll(bios) + StripAll([bio])
            ==> Contiguous(pos, bios')
  {
    if StripAll(bios') == StripAll(bios) {
      StripFrame(pos, bios, bios');
    }
    if && Contiguous(pos, bios) && bios != [] && bio.size % SECTOR == 0
       && pos + Total(bios) / SECTOR == bio.sector && StripAll(bios') == StripAll(bios) + StripAll([bio]) {
      assert StripAll(bios + [bio]) == StripAll(bios) + StripAll([bio]);
      StripFrame(pos, bios + [bio], bios');
      ContiguousAppend(pos, bios, bio.sector, [bio]);
    }
  }

  lemma FrontContiguous(pos: nat, bios: seq<Bio>, bio: Bio, bios': seq<Bio>)
    ensures Contiguous(pos, bios) && StripAll(bios') == StripAll(bios) ==> Contiguous(pos, bios')
    ensures Contiguous(pos, bios) && bio.size % SECTOR == 0
            && pos - bio.size / SECTOR == bio.sector && StripAll(bios') == StripAll([bio]) + StripAll(bios)
            ==> Contiguous(bio.sector, bios')
  {
    if StripAll(bios') == StripAll(bios) {
      StripFrame(pos, bios, bios');
    }
    if && Contiguous(pos, bios) && bio.size % SECTOR == 0
       && pos - bio.size / SECTOR == bio.sector && StripAll(bios') == StripAll([bio]) + StripAll(bios) {
      assert StripAll([bio] + bios) == StripAll([bio]) + StripAll(bios);
      StripFrame(bio.sector, [bio] + bios, bios');
      VecsOne(bio);
      ContiguousAppend(bio.sector, [bio], pos, bios);
    }
  }

  // ------------------------------------------------------------------
  // Merging two requests

  /** blk_phys_contig_segment. */
  predicate Touches(q: Queue, a: seq<Bio>, b: seq<Bio>)
    requires a != [] && b != []
  {
    var last, first := a[|a| - 1], b[0];
    && q.cluster && last.back + first.front <= q.maxSegSize
    && (last.vecs != [] && first.vecs != [] ==> q.joins(last.vecs[|last.vecs| - 1], first.vecs[0]))
  }

  /** The last vector of one chain and the first of another may share a segment: the hardware joins
      them, and what is cached of the segments they are in fits into one. */
  predicate Shared(q: Queue, a: seq<Bio>, b: seq<Bio>) {
    && a != [] && b != [] && a[|a| - 1].vecs != [] && b[0].vecs != []
    && var last, first := a[|a| - 1], b[0];
    && q.cluster && q.joins(last.vecs[|last.vecs| - 1], first.vecs[0])
    && last.back + first.front <= q.maxSegSize
  }

  lemma TouchIsShared(q: Queue, a: seq<Bio>, b: seq<Bio>)
    requires AllCarry(a) && AllCarry(b) && a != [] && b != []
    ensures Touches(q, a, b) <==> Shared(q, a, b)
  {
    assert Carries(a[|a| - 1]) && Carries(b[0]);
  }

  function FrontSet(bios: seq<Bio>, n: nat, size: nat): seq<Bio>
    requires bios != []
  {
    if n == 1 then bios[0 := bios[0].(front := size)] else bios
  }

  function BackSet(bios: seq<Bio>, n: nat, size: nat): seq<Bio>
    requires bios != []
  {
    if n == 1 then bios[|bios| - 1 := bios[|bios| - 1].(back := size)] else bios
  }

  /** The sizes set at a joint stay sound for either chain by itself. */
  lemma SetKeeps(q: Queue, segs: seq<seq<Vec>>, bios: seq<Bio>, n: nat, before: nat, after: nat)
    requires SegOk(q, segs, bios, n) && AllCarry(bios)
    ensures
      var a, b := FrontSet(bios, n, bios[|bios| - 1].back + after), BackSet(bios, n, before + bios[0].front);
      && a != [] && b != []
      && SegOk(q, segs, a, n) && StripAll(a) == StripAll(bios) && Vecs(a) == Vecs(bios) && Total(a) == Total(bios)
      && SegOk(q, segs, b, n) && StripAll(b) == StripAll(bios) && Vecs(b) == Vecs(bios) && Total(b) == Total(bios)
      && AllCarry(a) && AllCarry(b)
  {
    hide Cuts, Size;
    var a, b := FrontSet(bios, n, bios[|bios| - 1].back + after), BackSet(bios, n, before + bios[0].front);
    assert StripAll(a) == StripAll(bios) && StripAll(b) == StripAll(bios);
    StripVecs(a, bios);
    StripVecs(b, bios);
    StripFrame(0, a, bios);
    StripFrame(0, b, bios);
  }

  lemma SegSome(q: Queue, segs: seq<seq<Vec>>, bios: seq<Bio>, n: nat)
    requires SegOk(q, segs, bios, n)
    ensures bios != [] && segs != [] && n > 0
  {
  }

  lemma StripConcat(a: seq<Bio>, b: seq<Bio>)
    ensures StripAll(a + b) == StripAll(a) + StripAll(b)
    ensures AllCarry(a) && AllCarry(b) ==> AllCarry(a + b)
  {
  }

  function JoinedBios(q: Queue, a: seq<Bio>, n: nat, b: seq<Bio>, n': nat): (seq<Bio>, seq<Bio>)
    requires a != [] && b != []
  {
    var size := a[|a| - 1].back + b[0].front;
    if Touches(q, a, b) then (FrontSet(a, n, size), BackSet(b, n', size)) else (a, b)
  }

  /** Appending a request, with the two segments at the joint made one if they touch. */
  lemma JoinKeeps(q: Queue, segs: seq<seq<Vec>>, a: seq<Bio>, n: nat, segs': seq<seq<Vec>>, b: seq<Bio>, n': nat)
    requires SegOk(q, segs, a, n) && AllCarry(a) && SegOk(q, segs', b, n') && AllCarry(b)
    ensures
      var (a', b') := JoinedBios(q, a, n, b, n');
      && a' != [] && b' != [] && segs != [] && segs' != [] && n > 0 && n' > 0
      && SegOk(q, segs, a', n) && StripAll(a') == StripAll(a) && Total(a') == Total(a) && AllCarry(a')
      && SegOk(q, segs', b', n') && StripAll(b') == StripAll(b) && Total(b') == Total(b) && AllCarry(b')
      && (Touches(q, a, b) ==> SegOk(q, Fused(segs, segs'), a' + b', n + n' - 1))
      && (!Touches(q, a, b) ==> SegOk(q, segs + segs', a' + b', n + n'))
      && AllCarry(a' + b') && Total(a' + b') == Total(a) + Total(b)
      && StripAll(a' + b') == StripAll(a) + StripAll(b)
  {
    hide SegOk, AllCarry, Vecs, Total, StripAll, Fused, FrontSet, BackSet, Touches;
    SegSome(q, segs, a, n);
    SegSome(q, segs', b, n');
    SetKeeps(q, segs, a, n, 0, b[0].front);
    SetKeeps(q, segs', b, n', a[|a| - 1].back, 0);
    var (a', b') := JoinedBios(q, a, n, b, n');
    VecsConcat(a', b');
    StripConcat(a', b');
    if Touches(q, a, b) {
      FuseKeeps(q, segs, a, n, segs', b, n');
    } else {
      SegAppend(q, segs, a, n, segs', b, n');
    }
  }

  lemma FuseKeeps(q: Queue, segs: seq<seq<Vec>>, a: seq<Bio>, n: nat, segs': seq<seq<Vec>>, b: seq<Bio>, n': nat)
    requires SegOk(q, segs, a, n) && AllCarry(a) && SegOk(q, segs', b, n') && AllCarry(b) && Touches(q, a, b)
    ensures
      var size := a[|a| - 1].back + b[0].front;
      SegOk(q, Fused(segs, segs'), FrontSet(a, n, size) + BackSet(b, n', size), n + n' - 1)
  {
    hide SegOk, AllCarry, Vecs, Total, StripAll, Fused;
    SegSome(q, segs, a, n);
    SegSome(q, segs', b, n');
    var size := a[|a| - 1].back + b[0].front;
    SetKeeps(q, segs, a, n, 0, b[0].front);
    SetKeeps(q, segs', b, n', a[|a| - 1].back, 0);
    var a', b' := FrontSet(a, n, size), BackSet(b, n', size);
    VecsConcat(a', b');
    VecsEnds(a);
    VecsEnds(b);
    SegFuse(q, segs, a, n, segs', b, n', size, a' + b');
  }

  lemma VecsEnds(bios: seq<Bio>)
    requires AllCarry(bios) && bios != []
    ensures
      var v := Vecs(bios);
      var last := bios[|bios| - 1].vecs;
      && bios[0].vecs != [] && last != [] && v != [] && v[0] == bios[0].vecs[0] && v[|v| - 1] == last[|last| - 1]
  {
    hide Size;
    assert bios == [bios[0]] + bios[1..];
    assert Carries(bios[0]) && Carries(bios[|bios| - 1]);
    VecsConcat([bios[0]], bios[1..]);
    VecsOne(bios[0]);
  }

  lemma MergedContiguous(pos: nat, a: seq<Bio>, pos': nat, b: seq<Bio>, all: seq<Bio>)
    requires a != [] && StripAll(all) == StripAll(a) + StripAll(b) && pos + Total(a) / SECTOR == pos'
    ensures Contiguous(pos, a) && Contiguous(pos', b) ==> Contiguous(pos, all)
  {
    assert StripAll(a + b) == StripAll(a) + StripAll(b);
    StripFrame(pos, a + b, all);
    if Contiguous(pos, a) && Contiguous(pos', b) {
      ContiguousAppend(pos, a, pos', b);
    }
  }

  // ------------------------------------------------------------------
  // Completing part of a request

  /** Bios without vectors, as empty flushes and discards are. */
  predicate AllBare(bios: seq<Bio>) {
    forall i :: 0 <= i < |bios| ==> bios[i].vecs == []
  }

  /** bio_cur_bytes. */
  function CurBytes(b: Bio): nat {
    if b.vecs == [] then b.size else b.vecs[0].len
  }

  /** The chain after blk_recalc_rq_segments. */
  function Recalced(q: Queue, bios: seq<Bio>): seq<Bio> {
    var segs := Recount(q, Vecs(bios));
    WithEnds(bios, FirstSize(segs), LastSize(segs))
  }

  lemma RecalcedIs(q: Queue, bios: seq<Bio>)
    ensures Recalced(q, bios) == WithEnds(bios, FirstSize(Recount(q, Vecs(bios))), LastSize(Recount(q, Vecs(bios))))
  {
  }

  lemma NothingLeft(pos: nat)
    ensures AllCarry([]) && AllBare([]) && Total([]) == 0 && Contiguous(pos, [])
  {
  }

  /** Recounting a chain changes caches only. */
  lemma RecalcStrips(q: Queue, pos: nat, rest: seq<Bio>)
    requires rest != []
    ensures
      var after := Recalced(q, rest);
      && |after| == |rest| && StripAll(after) == StripAll(rest)
      && Vecs(after) == Vecs(rest) && Total(after) == Total(rest)
      && Contiguous(pos, after) == Contiguous(pos, rest) && AllCarry(after) == AllCarry(rest)
      && AllBare(after) == AllBare(rest)
  {
    hide Size, Vecs, Total, Recount, Contiguous, Carries;
    var segs := Recount(q, Vecs(rest));
    WithEndsStrips(rest, FirstSize(segs), LastSize(segs));
    StripVecs(rest, Recalced(q, rest));
    StripFrame(pos, rest, Recalced(q, rest));
    StripBare(rest, Recalced(q, rest));
  }

  lemma StripBare(a: seq<Bio>, b: seq<Bio>)
    requires StripAll(a) == StripAll(b)
    ensures AllBare(a) == AllBare(b)
  {
    assert |StripAll(a)| == |a| && |StripAll(b)| == |b|;
    forall i | 0 <= i < |a| ensures a[i].vecs == b[i].vecs {
      assert StripAll(a)[i] == Strip(a[i]) && StripAll(b)[i] == Strip(b[i]);
    }
  }

  lemma WalkKeeps(q: Queue, pos: nat, bios: seq<Bio>, n: nat, error: bool)
    requires AllCarry(bios)
    ensures
      var rest := Walk(bios, n, error);
      && AllWalkable(bios)
      && (rest != [] ==>
            && SegOk(q, Recount(q, Vecs(rest)), Recalced(q, rest), |Recount(q, Vecs(rest))|) && AllCarry(rest)
            && Total(rest) == Total(bios) - n && CurBytes(rest[0]) <= Total(rest)
            && (Contiguous(pos, bios) && n % SECTOR == 0 ==> Contiguous(pos + n / SECTOR, rest)))
  {
    hide Size, Vecs, Total, Walk, SegOk, Recount, Contiguous;
    var rest := Walk(bios, n, error);
    assert forall i :: 0 <= i < |bios| ==> Carries(bios[i]);
    if Contiguous(pos, bios) && n % SECTOR == 0 {
      WalkContiguous(pos, bios, n, error);
    }
    WalkDrops(bios, n, error);
    if rest != [] {
      RecalcOk(q, rest);
      assert Carries(rest[0]);
      TotalHead(rest);
      SizeHead(rest[0].vecs);
    }
  }

  /** Without vectors, what is left is the bios after the covered ones. */
  lemma {:induction false} WalkKeepsBare(pos: nat, bios: seq<Bio>, n: nat, error: bool)
    requires AllBare(bios)
    ensures
      var rest := Walk(bios, n, error);
      && AllWalkable(bios) && AllBare(rest)
      && (rest != [] ==>
            && Total(rest) <= Total(bios) && CurBytes(rest[0]) <= Total(rest)
            && (Contiguous(pos, bios) ==> Contiguous(pos + (Total(bios) - Total(rest)) / SECTOR, rest)))
    decreases |bios|
  {
    hide Total, Walk, Contiguous;
    if bios == [] {
      WalkNone(n, error);
    } else {
      TotalHead(bios);
      var tail := bios[1..];
      if n < bios[0].size {
        WalkBare(bios, n, error);
      } else {
        WalkWhole(bios, n, error);
        var rest := Walk(bios, n, error);
        WalkKeepsBare(pos + bios[0].size / SECTOR, tail, n - bios[0].size, error);
        if tail != [] {
          TotalHead(tail);
        } else {
          WalkNone(n - bios[0].size, error);
        }
        if Contiguous(pos, bios) && rest != [] {
          TailContiguous(pos, bios);
          SectorSum(bios[0].size, Total(tail) - Total(rest));
        }
      }
    }
  }

  // ------------------------------------------------------------------
  // The request

  class Request {
    const q: Queue
    var bios: seq<Bio>
    var nrSegs: nat
    var pos: nat
    var dataLen: nat
    var mergeable: bool
    var special: bool
    var passThrough: bool
    var flushSeq: bool
    var kind: Kind
    ghost var segs: seq<seq<Vec>>
    ghost var told: seq<Told>

    /** The books of a request: its length, and a legal cut behind its segment count. */
    ghost predicate Valid()
      reads this
    {
      && AllCarry(bios)
      && dataLen == Total(bios)
      && (bios != [] ==> SegOk(q, segs, bios, nrSegs))
    }

    function Sectors(): nat
      reads this
    {
      dataLen / SECTOR
    }

    function Limit(): nat
      reads this
    {
      if passThrough then q.maxHwSectors else q.maxSectors
    }

    /** blk_rq_bio_prep on a fresh request. */
    constructor (q: Queue, bio: Bio, kind: Kind)
      requires Carries(bio) && IsCounted(q, bio) && bio.size % SECTOR == 0
      ensures Valid() && this.q == q && StripAll(bios) == StripAll([bio]) && Contiguous(pos, bios)
      ensures told == [] && this.kind == kind && mergeable
    {
      var b := if bio.segValid then bio else RecountBio(q, bio);
      this.q, bios, nrSegs, pos, dataLen := q, [b], b.segs, bio.sector, bio.size;
      mergeable, special, passThrough, flushSeq, this.kind := true, false, false, false, kind;
      segs, told := Recount(q, b.vecs), [];
      FreshChain(q, bio);
      new;
      hide SegOk, AllCarry, Contiguous, StripAll, Total, Recount;
    }

    /** elv_rq_merge_ok: the same direction, disk, discard and secure flags (`bioKind`), and neither the
        scheduler nor integrity metadata is in the way (`allowed`). */
    predicate MergeOk(bioKind: Kind, allowed: bool)
      reads this
    {
      mergeable && !special && kind == bioKind && allowed
    }

    /** elv_try_merge. */
    function TryMerge(bio: Bio, bioKind: Kind, allowed: bool): MergeKind
      reads this
    {
      if !MergeOk(bioKind, allowed) then NoMerge
      else if pos + Sectors() == bio.sector then BackMerge
      else if pos - bio.size / SECTOR == bio.sector then FrontMerge
      else NoMerge
    }

    /** What a refused bio merge leaves: nothing changed but the caches, and no merge will be tried
        again. */
    twostate predicate Refused()
      reads this
    {
      Valid() && !mergeable && StripAll(bios) == StripAll(old(bios)) && pos == old(pos)
      && dataLen == old(dataLen) && nrSegs == old(nrSegs) && told == old(told)
    }

    /** Does the request take this bio? ll_new_hw_segment counts the bio's segments as new ones. */
    predicate Room(bio: Bio)
      reads this
    {
      && Sectors() + bio.size / SECTOR <= Limit()
      && nrSegs + |Recount(q, bio.vecs)| <= q.maxSegments
    }

    /** bio_attempt_back_merge with ll_back_merge_fn and ll_new_hw_segment. */
    method BackMergeBio(bio: Bio) returns (ok: bool)
      requires Valid() && bios != [] && Carries(bio) && IsCounted(q, bio)
      modifies this
      ensures Valid() && ok == old(Room(bio)) && told == old(told)
      ensures ok ==> StripAll(bios) == StripAll(old(bios)) + StripAll([bio])
      ensures ok ==> pos == old(pos) && mergeable == old(mergeable)
      ensures ok ==> nrSegs == old(nrSegs) + |Recount(q, bio.vecs)| <= q.maxSegments
      ensures ok ==> |bios| == |old(bios)| + 1 && bios[|bios| - 2].segValid && bios[|bios| - 1].segValid
      ensures ok ==> dataLen == old(dataLen) + bio.size && passThrough == old(passThrough)
      ensures !ok ==> Refused()
    {
      hide SegOk, AllCarry, Recount, Vecs, Total, StripAll;
      if Sectors() + bio.size / SECTOR > Limit() {
        mergeable := false;
        return false;
      }
      RecountTail(q, segs, bios, nrSegs);
      bios := TailCounted(q, bios);
      var b := if bio.segValid then bio else RecountBio(q, bio);
      RecountCounts(q, bio);
      if nrSegs + b.segs > q.maxSegments {
        mergeable := false;
        return false;
      }
      BackKeeps(q, segs, bios, nrSegs, bio, b);
      segs, nrSegs := segs + Recount(q, b.vecs), nrSegs + b.segs;
      bios := bios + [b];
      dataLen := dataLen + b.size;
      return true;
    }

    /** bio_attempt_front_merge with ll_front_merge_fn. */
    method FrontMergeBio(bio: Bio) returns (ok: bool)
      requires Valid() && bios != [] && Carries(bio) && IsCounted(q, bio)
      modifies this
      ensures Valid() && ok == old(Room(bio)) && told == old(told)
      ensures ok ==> StripAll(bios) == StripAll([bio]) + StripAll(old(bios))
      ensures ok ==> pos == bio.sector && mergeable == old(mergeable)
      ensures ok ==> nrSegs == old(nrSegs) + |Recount(q, bio.vecs)| <= q.maxSegments
      ensures ok ==> |bios| == |old(bios)| + 1 && bios[0].segValid && bios[1].segValid
      ensures ok ==> dataLen == old(dataLen) + bio.size && passThrough == old(passThrough)
      ensures !ok ==> Refused()
    {
      hide SegOk, AllCarry, Recount, Vecs, Total, StripAll;
      if Sectors() + bio.size / SECTOR > Limit() {
        mergeable := false;
        return false;
      }
      var b := if bio.segValid then bio else RecountBio(q, bio);
      RecountCounts(q, bio);
      RecountHead(q, segs, bios, nrSegs);
      bios := HeadCounted(q, bios);
      if nrSegs + b.segs > q.maxSegments {
        mergeable := false;
        return false;
      }
      FrontKeeps(q, segs, bios, nrSegs, bio, b);
      segs, nrSegs := Recount(q, b.vecs) + segs, nrSegs + b.segs;
      bios := [b] + bios;
      pos := bio.sector;
      dataLen := dataLen + b.size;
      return true;
    }

    /** A bio merged where elv_try_merge finds a place for it: exactly if the two agree, touch, and stay
        within the limits together. */
    method AttemptBioMerge(bio: Bio, bioKind: Kind, allowed: bool) returns (ok: bool)
      requires Valid() && bios != [] && Carries(bio) && IsCounted(q, bio)
      modifies this
      ensures Valid() && told == old(told)
      ensures ok <==>
                && old(mergeable) && !old(special) && old(kind) == bioKind && allowed
                && (bio.sector == old(pos) + old(dataLen) / SECTOR || bio.sector + bio.size / SECTOR == old(pos))
                && old(dataLen) / SECTOR + bio.size / SECTOR
                   <= (if old(passThrough) then q.maxHwSectors else q.maxSectors)
                && old(nrSegs) + |Recount(q, bio.vecs)| <= q.maxSegments
      ensures ok && bio.sector == old(pos) + old(dataLen) / SECTOR ==>
                StripAll(bios) == StripAll(old(bios)) + StripAll([bio]) && pos == old(pos)
      ensures ok && bio.sector != old(pos) + old(dataLen) / SECTOR ==>
                StripAll(bios) == StripAll([bio]) + StripAll(old(bios)) && pos == bio.sector
      ensures ok ==> dataLen == old(dataLen) + bio.size && nrSegs == old(nrSegs) + |Recount(q, bio.vecs)|
      ensures !ok ==> StripAll(bios) == StripAll(old(bios)) && pos == old(pos)
      ensures !ok ==> dataLen == old(dataLen) && nrSegs == old(nrSegs)
      ensures old(Contiguous(pos, bios)) && bio.size % SECTOR == 0 ==> Contiguous(pos, bios)
      ensures ok && old(dataLen) % SECTOR == 0 && bio.size % SECTOR == 0 ==> Sectors() <= Limit()
    {
      hide SegOk, AllCarry, Recount, Vecs, Total, StripAll, Contiguous;
      match TryMerge(bio, bioKind, allowed) {
        case NoMerge =>
          ok := false;
        case BackMerge =>
          ok := BackMergeBio(bio);
          BackContiguous(old(pos), old(bios), bio, bios);
        case FrontMerge =>
          ok := FrontMergeBio(bio);
          FrontContiguous(old(pos), old(bios), bio, bios);
      }
    }

    /** ll_merge_requests_fn: would the two be within the limits together? If so, the segment count is that
        of the joined chain. Where the end vectors may share a segment, one segment is saved. */
    method MergeRequestsFn(next: Request) returns (ok: bool)
      requires Valid() && next.Valid() && bios != [] && next.bios != [] && this != next && q == next.q
      modifies this`bios, this`nrSegs, this`segs, next`bios
      ensures
        var total := old(nrSegs) + old(next.nrSegs) - (if Shared(q, old(bios), old(next.bios)) then 1 else 0);
        && (ok <==>
              && !special && !next.special
              && dataLen / SECTOR + next.dataLen / SECTOR <= q.maxSectors && total <= q.maxSegments)
        && (ok ==> nrSegs == total)
      ensures ok ==> SegOk(q, segs, bios + next.bios, nrSegs) && AllCarry(bios + next.bios)
      ensures ok ==> Total(bios + next.bios) == dataLen + next.dataLen
      ensures ok ==> StripAll(bios + next.bios) == StripAll(old(bios)) + StripAll(old(next.bios))
      ensures !ok ==> Valid() && next.Valid() && nrSegs == old(nrSegs)
      ensures !ok ==> StripAll(bios) == StripAll(old(bios)) && StripAll(next.bios) == StripAll(old(next.bios))
    {
      hide SegOk, AllCarry, Recount, Vecs, Total, StripAll, Contiguous, Touches, Fused, FrontSet, BackSet;
      if special || next.special || Sectors() + next.Sectors() > q.maxSectors {
        return false;
      }
      var total: nat := nrSegs + next.nrSegs;
      var touch := Touches(q, bios, next.bios);
      TouchIsShared(q, bios, next.bios);
      JoinKeeps(q, segs, bios, nrSegs, next.segs, next.bios, next.nrSegs);
      if touch {
        var segSize := bios[|bios| - 1].back + next.bios[0].front;
        bios, next.bios := FrontSet(bios, nrSegs, segSize), BackSet(next.bios, next.nrSegs, segSize);
        total := total - 1;
      }
      if total > q.maxSegments {
        return false;
      }
      segs := if touch then Fused(segs, next.segs) else segs + next.segs;
      nrSegs := total;
      return true;
    }

    /** attempt_merge: next's bios pass to this request, exactly if the two agree, touch, and stay within
        the limits together. */
    method AttemptMerge(next: Request) returns (ok: bool)
      requires Valid() && next.Valid() && bios != [] && next.bios != [] && this != next && q == next.q
      modifies this, next
      ensures Valid() && told == old(told) && next.told == old(next.told)
      ensures
        var total := old(nrSegs) + old(next.nrSegs) - (if Shared(q, old(bios), old(next.bios)) then 1 else 0);
        && (ok <==>
              && old(mergeable) && old(next.mergeable) && old(kind) == old(next.kind)
              && !old(special) && !old(next.special)
              && old(pos) + old(dataLen) / SECTOR == old(next.pos)
              && old(dataLen) / SECTOR + old(next.dataLen) / SECTOR <= q.maxSectors
              && total <= q.maxSegments)
        && (ok ==> nrSegs == total)
      ensures ok ==> StripAll(bios) == StripAll(old(bios)) + StripAll(old(next.bios)) && next.bios == []
      ensures ok ==> pos == old(pos) && dataLen == old(dataLen + next.dataLen)
      ensures !ok ==> next.Valid() && pos == old(pos) && next.pos == old(next.pos)
      ensures !ok ==> StripAll(bios) == StripAll(old(bios)) && StripAll(next.bios) == StripAll(old(next.bios))
      ensures !ok ==> nrSegs == old(nrSegs) && next.nrSegs == old(next.nrSegs)
      ensures ok && old(dataLen) % SECTOR == 0 && old(next.dataLen) % SECTOR == 0 ==> Sectors() <= q.maxSectors
      ensures ok && old(Contiguous(pos, bios) && Contiguous(next.pos, next.bios)) ==> Contiguous(pos, bios)
    {
      hide SegOk, AllCarry, Recount, Vecs, Total, StripAll, Contiguous, Shared;
      if !mergeable || !next.mergeable || kind != next.kind || pos + Sectors() != next.pos || next.special {
        return false;
      }
      ok := MergeRequestsFn(next);
      if ok {
        bios := bios + next.bios;
        dataLen := dataLen + next.dataLen;
        next.bios := [];
        MergedContiguous(old(pos), old(bios), old(next.pos), old(next.bios), bios);
      }
    }

    /** blk_rq_map_sg on this request. */
    method Map() returns (sg: seq<Entry>)
      requires Valid() && bios != []
      ensures sg == MapSg(q, Vecs(bios)).sg && |sg| <= nrSegs
    {
      CountBoundsMapper(q, segs, bios, nrSegs);
      sg := MapRequest(q, bios);
    }

    /** What holds of every request a driver completes: Valid, or bios without vectors. */
    ghost predicate Books()
      reads this
    {
      Valid() || (AllBare(bios) && dataLen == Total(bios))
    }

    /** blk_update_request. */
    method UpdateRequest(error: bool, nrBytes: nat) returns (more: bool)
      requires Books()
      modifies this
      ensures Books() && (old(Valid()) ==> Valid()) && more == (bios != []) && mergeable == old(mergeable)
      ensures StripAll(bios) == StripAll(Walk(old(bios), nrBytes, error))
      ensures told == old(told) + if flushSeq then [] else Reports(old(bios)[..EndedCount(old(bios), nrBytes)], error)
      ensures |told| == |old(told)| + (if flushSeq then 0 else |old(bios)| - |bios|)
      ensures forall i :: |old(told)| <= i < |told| ==>
                var b := old(bios)[i - |old(told)|]; told[i] == Told(b.id, b.uptodate && !error)
      ensures more ==> dataLen <= old(dataLen) && (old(Valid()) ==> dataLen + nrBytes == old(dataLen))
      ensures more ==> pos == old(pos) + (if passThrough then 0 else (old(dataLen) - dataLen) / SECTOR)
      ensures more ==> nrSegs == |Recount(q, Vecs(bios))|
      ensures old(Contiguous(pos, bios)) && nrBytes % SECTOR == 0 && !passThrough ==> Contiguous(pos, bios)
      ensures flushSeq == old(flushSeq) && passThrough == old(passThrough)
    {
      hide SegOk, AllCarry, AllBare, AllWalkable, Recount, Recalced, Vecs, Total, StripAll, Contiguous;
      hide Walk, EndedCount, CurBytes, Reports;
      if bios == [] {
        WalkNone(nrBytes, error);
        ReportsLength([], error);
        return false;
      }
      if Valid() {
        WalkKeeps(q, pos, bios, nrBytes, error);
      } else {
        WalkKeepsBare(pos, bios, nrBytes, error);
      }
      var rest, total, ended := WalkChain(bios, nrBytes, error);
      WalkEnds(bios, nrBytes, error);
      Tell(ended, error);
      if rest == [] {
        NothingLeft(pos);
        bios, dataLen := [], 0;
        return false;
      }
      RecalcStrips(q, pos + total / SECTOR, rest);
      Shrink(rest, total);
      return true;
    }

    /** bio_endio for the bios that have ended: each submitter is told, in chain order, unless the request
        is in a flush sequence. */
    ghost method Tell(ended: nat, error: bool)
      requires ended <= |bios|
      modifies this`told
      ensures told == old(told) + if flushSeq then [] else Reports(bios[..ended], error)
      ensures |told| == |old(told)| + (if flushSeq then 0 else ended)
      ensures forall i :: |old(told)| <= i < |told| ==>
                var b := bios[i - |old(told)|]; told[i] == Told(b.id, b.uptodate && !error)
    {
      told := told + if flushSeq then [] else Reports(bios[..ended], error);
    }

    /** The end of blk_update_request: what is left of the request. Its length is never below that of
        its first vector. */
    method Shrink(rest: seq<Bio>, total: nat)
      requires rest != [] && total + Total(rest) == dataLen && CurBytes(rest[0]) <= Total(rest)
      modifies this`bios, this`dataLen, this`pos, this`nrSegs, this`segs
      ensures bios == Recalced(q, rest) && segs == Recount(q, Vecs(rest)) && nrSegs == |segs|
      ensures dataLen == Total(rest) && pos == old(pos) + (if passThrough then 0 else total / SECTOR)
    {
      hide Recount, Recalced, Vecs, Total, CurBytes;
      dataLen := Max(dataLen - total, CurBytes(rest[0]));
      if !passThrough {
        pos := pos + total / SECTOR;
      }
      segs := Recount(q, Vecs(rest));
      nrSegs, bios := RecalcSegments(q, rest);
      RecalcedIs(q, rest);
    }
  }
}

/** Chains of bios: what a request carries, and the invariants that merging keeps. */
module Chains {
  import opened Segments

  const SECTOR: nat := 512

  /** struct bio with the vectors still to be transferred (from bi_idx on). `front`, `back` and
      `segs` are the cached bi_seg_front_size, bi_seg_back_size and bi_phys_segments. */
  datatype Bio = Bio(id: nat, sector: nat, size: nat, vecs: seq<Vec>, front: nat, back: nat, segs: nat,
                     segValid: bool, uptodate: bool)

  function Vecs(bios: seq<Bio>): seq<Vec> {
    if bios == [] then [] else Vecs(bios[..|bios| - 1]) + bios[|bios| - 1].vecs
  }

  function Total(bios: seq<Bio>): nat {
    if bios == [] then 0 else Total(bios[..|bios| - 1]) + bios[|bios| - 1].size
  }

  /** A bio that carries data: no empty vector, and bi_size is the sum of what is left. */
  predicate Carries(b: Bio) {
    b.vecs != [] && b.size == Size(b.vecs) && forall i :: 0 <= i < |b.vecs| ==> b.vecs[i].len > 0
  }

  predicate AllCarry(bios: seq<Bio>) {
    forall i :: 0 <= i < |bios| ==> Carries(bios[i])
  }

  /** The bios, in chain order, cover the sectors from pos on without gap or overlap. */
  predicate Contiguous(pos: nat, bios: seq<Bio>) {
    && (forall i :: 0 <= i < |bios| ==> bios[i].size % SECTOR == 0)
    && (bios != [] ==> bios[0].sector == pos)
    && forall i :: 0 < i < |bios| ==> bios[i].sector == bios[i - 1].sector + bios[i - 1].size / SECTOR
  }

  lemma VecsSnoc(bios: seq<Bio>, b: Bio)
    ensures Vecs(bios + [b]) == Vecs(bios) + b.vecs && Total(bios + [b]) == Total(bios) + b.size
  {
    assert (bios + [b])[..|bios|] == bios;
  }

  lemma {:induction false} VecsConcat(a: seq<Bio>, b: seq<Bio>)
    ensures Vecs(a + b) == Vecs(a) + Vecs(b) && Total(a + b) == Total(a) + Total(b)
    decreases |b|
  {
    if b == [] {
      assert a + b == a;
    } else {
      var n := |b| - 1;
      assert a + b == (a + b[..n]) + [b[n]] && b == b[..n] + [b[n]];
      VecsSnoc(a + b[..n], b[n]);
      VecsSnoc(b[..n], b[n]);
      VecsConcat(a, b[..n]);
    }
  }

  lemma VecsOne(b: Bio)
    ensures Vecs([b]) == b.vecs && Total([b]) == b.size
  {
    assert [b][..0] == [];
  }

  /** The end of a contiguous chain. */
  lemma {:induction false} ContiguousEnd(pos: nat, bios: seq<Bio>)
    requires Contiguous(pos, bios) && bios != []
    ensures Total(bios) % SECTOR == 0
    ensures bios[|bios| - 1].sector + bios[|bios| - 1].size / SECTOR == pos + Total(bios) / SECTOR
    decreases |bios|
  {
    var n := |bios| - 1;
    if n == 0 {
      VecsOne(bios[0]);
    } else {
      ContiguousEnd(pos, bios[..n]);
    }
  }

  // ------------------------------------------------------------------
  // Segment counts

  function Max(a: nat, b: nat): nat {
    if a > b then a else b
  }

  function FirstSize(segs: seq<seq<Vec>>): nat {
    if segs == [] then 0 else Size(segs[0])
  }

  function LastSize(segs: seq<seq<Vec>>): nat {
    if segs == [] then 0 else Size(segs[|segs| - 1])
  }

  /** blk_recount_segments. */
  function RecountBio(q: Queue, b: Bio): Bio {
    var r := Recount(q, b.vecs);
    b.(segs := |r|, front := Max(b.front, FirstSize(r)), back := Max(b.back, LastSize(r)), segValid := true)
  }

  /** BIO_SEG_VALID means what it says: the cached count and sizes are those of a recount. */
  predicate IsCounted(q: Queue, b: Bio) {
    var r := Recount(q, b.vecs);
    b.segValid ==> b.segs == |r| && FirstSize(r) <= b.front && LastSize(r) <= b.back
  }

  /** `segs` is a legal cut of the chain into n segments, and the cached sizes at the two ends of
      the chain are not below the sizes of its end segments. */
  predicate SegOk(q: Queue, segs: seq<seq<Vec>>, bios: seq<Bio>, n: nat) {
    && bios != [] && segs != [] && |segs| == n
    && Cuts(q, segs, Vecs(bios))
    && FirstSize(segs) <= bios[0].front
    && LastSize(segs) <= bios[|bios| - 1].back
  }

  /** A bio without its caches. */
  function Strip(b: Bio): Bio {
    b.(front := 0, back := 0, segs := 0, segValid := false)
  }

  function StripAll(bios: seq<Bio>): seq<Bio> {
    seq(|bios|, i requires 0 <= i < |bios| => Strip(bios[i]))
  }

  lemma {:induction false} StripVecs(a: seq<Bio>, b: seq<Bio>)
    requires StripAll(a) == StripAll(b)
    ensures |a| == |b| && Vecs(a) == Vecs(b) && Total(a) == Total(b)
    decreases |a|
  {
    assert |StripAll(a)| == |a| && |StripAll(b)| == |b|;
    if a != [] {
      var n := |a| - 1;
      assert StripAll(a)[n] == Strip(a[n]) && StripAll(b)[n] == Strip(b[n]);
      assert StripAll(a[..n]) == StripAll(a)[..n] && StripAll(b[..n]) == StripAll(b)[..n];
      StripVecs(a[..n], b[..n]);
    }
  }

  /** Caches do not matter to what a chain carries and where it lies. */
  lemma StripFrame(pos: nat, a: seq<Bio>, b: seq<Bio>)
    requires StripAll(a) == StripAll(b)
    ensures AllCarry(a) == AllCarry(b) && Contiguous(pos, a) == Contiguous(pos, b)
  {
    assert |StripAll(a)| == |a| && |StripAll(b)| == |b|;
    forall i | 0 <= i < |a| ensures Strip(a[i]) == Strip(b[i]) {
      assert StripAll(a)[i] == Strip(a[i]) && StripAll(b)[i] == Strip(b[i]);
    }
    assert forall i :: 0 <= i < |a| ==> Carries(Strip(a[i])) == Carries(a[i]) && Carries(Strip(b[i])) == Carries(b[i]);
    assert forall i :: 0 <= i < |a| ==> a[i].sector == b[i].sector && a[i].size == b[i].size;
  }

  lemma ContiguousAppend(pos: nat, a: seq<Bio>, pos': nat, b: seq<Bio>)
    requires Contiguous(pos, a) && Contiguous(pos', b) && a != []
    requires b != [] ==> pos' == pos + Total(a) / SECTOR
    ensures Contiguous(pos, a + b)
  {
    ContiguousEnd(pos, a);
  }

  lemma SegOne(q: Queue, b: Bio)
    requires Carries(b) && b.segValid && IsCounted(q, b)
    ensures SegOk(q, Recount(q, b.vecs), [b], b.segs)
  {
    RecountCuts(q, b.vecs);
    VecsOne(b);
  }

  lemma SegAppend(q: Queue, segs: seq<seq<Vec>>, bios: seq<Bio>, n: nat, segs': seq<seq<Vec>>, bios': seq<Bio>, n': nat)
    requires SegOk(q, segs, bios, n) && SegOk(q, segs', bios', n')
    ensures SegOk(q, segs + segs', bios + bios', n + n')
  {
    VecsConcat(bios, bios');
    CutsConcat(q, segs, Vecs(bios), segs', Vecs(bios'));
  }

  lemma FusedEnds(q: Queue, a: seq<seq<Vec>>, b: seq<seq<Vec>>)
    requires a != [] && b != []
    ensures FirstSize(Fused(a, b)) == if |a| == 1 then LastSize(a) + FirstSize(b) else FirstSize(a)
    ensures LastSize(Fused(a, b)) == if |b| == 1 then LastSize(a) + FirstSize(b) else LastSize(b)
  {
    SizeConcat(a[|a| - 1], b[0]);
  }

  /** Two chains whose end segments are made one: the cached sizes at the joint bound the size of
      the joint, and take its place where a chain is a single segment. */
  lemma SegFuse(q: Queue, segs: seq<seq<Vec>>, bios: seq<Bio>, n: nat, segs': seq<seq<Vec>>, bios': seq<Bio>, n': nat,
                joint: nat, all: seq<Bio>)
    requires SegOk(q, segs, bios, n) && SegOk(q, segs', bios', n')
    requires q.cluster && joint == bios[|bios| - 1].back + bios'[0].front <= q.maxSegSize
    requires Vecs(bios) != [] && Vecs(bios') != []
    requires q.joins(Vecs(bios)[|Vecs(bios)| - 1], Vecs(bios')[0])
    requires all != [] && Vecs(all) == Vecs(bios) + Vecs(bios')
    requires all[0].front >= if n == 1 then joint else bios[0].front
    requires all[|all| - 1].back >= if n' == 1 then joint else bios'[|bios'| - 1].back
    ensures SegOk(q, Fused(segs, segs'), all, n + n' - 1)
  {
    hide Cuts, Vecs, Size, Fused;
    CutsFused(q, segs, Vecs(bios), segs', Vecs(bios'));
    FusedEnds(q, segs, segs');
  }

  /** The mapper emits no more entries than the count says. */
  lemma CountBoundsMapper(q: Queue, segs: seq<seq<Vec>>, bios: seq<Bio>, n: nat)
    requires SegOk(q, segs, bios, n)
    ensures |MapSg(q, Vecs(bios)).sg| <= n
  {
    MapperIsMinimal(q, segs, Vecs(bios));
  }
}

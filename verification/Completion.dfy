/** Partial completion (block/blk-core.c, blk_update_request) as dropping bytes off a chain. */
module Completion {
  import opened Segments
  import opened Chains

  /** bio_endio as the submitter sees it. */
  datatype Told = Told(id: nat, ok: bool)

  /** The vectors after the first n bytes. */
  function DropVecs(vecs: seq<Vec>, n: nat): seq<Vec> {
    if vecs == [] then []
    else if vecs[0].len <= n then DropVecs(vecs[1..], n - vecs[0].len)
    else [Vec(vecs[0].page, vecs[0].offset + n, vecs[0].len - n)] + vecs[1..]
  }

  /** req_bio_endio: a bio after n of its bytes are done. */
  function DropBio(b: Bio, n: nat, error: bool): Bio
    requires n <= b.size
  {
    b.(size := b.size - n, sector := b.sector + n / SECTOR, vecs := DropVecs(b.vecs, n),
       uptodate := b.uptodate && !error)
  }

  /** The chain after blk_update_request has completed n bytes. It stops as soon as no bytes are
      left to account for, unless that was the last bio, and at a bio that is not covered and has no
      vectors to take bytes from. */
  function Walk(bios: seq<Bio>, n: nat, error: bool): seq<Bio> {
    if bios == [] then []
    else if n >= bios[0].size then
      var rest := bios[1..];
      if rest != [] && n == bios[0].size then rest else Walk(rest, n - bios[0].size, error)
    else if n == 0 || bios[0].vecs == [] then bios
    else [DropBio(bios[0], n, error)] + bios[1..]
  }

  /** How many bios that ends. */
  function EndedCount(bios: seq<Bio>, n: nat): (k: nat)
    ensures k <= |bios|
  {
    if bios == [] || n < bios[0].size then 0
    else if bios[1..] != [] && n == bios[0].size then 1
    else 1 + EndedCount(bios[1..], n - bios[0].size)
  }

  /** What the submitters of ended bios are told. */
  function Reports(bios: seq<Bio>, error: bool): seq<Told> {
    seq(|bios|, i requires 0 <= i < |bios| => Told(bios[i].id, bios[i].uptodate && !error))
  }

  // ------------------------------------------------------------------
  // Dropping bytes

  lemma SizeCons(v: Vec, vecs: seq<Vec>)
    ensures Size([v] + vecs) == v.len + Size(vecs)
  {
    SizeConcat([v], vecs);
    assert [v][..0] == [];
  }

  lemma SizeHead(vecs: seq<Vec>)
    requires vecs != []
    ensures Size(vecs) == vecs[0].len + Size(vecs[1..])
  {
    assert vecs == [vecs[0]] + vecs[1..];
    SizeCons(vecs[0], vecs[1..]);
  }

  predicate Positive(vecs: seq<Vec>) {
    forall i :: 0 <= i < |vecs| ==> vecs[i].len > 0
  }

  lemma {:induction false} DropVecsSize(vecs: seq<Vec>, n: nat)
    requires n <= Size(vecs) && Positive(vecs)
    ensures Size(DropVecs(vecs, n)) == Size(vecs) - n && Positive(DropVecs(vecs, n))
    ensures n < Size(vecs) ==> DropVecs(vecs, n) != []
    decreases |vecs|
  {
    hide Size;
    if vecs == [] {
      SizeNil();
    } else {
      SizeHead(vecs);
      if vecs[0].len <= n {
        DropVecsSize(vecs[1..], n - vecs[0].len);
      } else {
        SizeCons(Vec(vecs[0].page, vecs[0].offset + n, vecs[0].len - n), vecs[1..]);
      }
    }
  }

  lemma SizeNil()
    ensures Size([]) == 0
  {
  }

  lemma {:induction false} DropVecsTwice(vecs: seq<Vec>, a: nat, b: nat)
    requires Positive(vecs)
    ensures DropVecs(DropVecs(vecs, a), b) == DropVecs(vecs, a + b)
    decreases |vecs|
  {
    hide DropVecs;
    if vecs == [] {
      DropVecsNil(a);
      DropVecsNil(b);
      DropVecsNil(a + b);
    } else {
      DropVecsHead(vecs, a);
      DropVecsHead(vecs, a + b);
      if vecs[0].len <= a {
        DropVecsTwice(vecs[1..], a - vecs[0].len, b);
      } else {
        var v := Vec(vecs[0].page, vecs[0].offset + a, vecs[0].len - a);
        assert ([v] + vecs[1..])[1..] == vecs[1..];
        DropVecsHead([v] + vecs[1..], b);
      }
    }
  }

  lemma DropVecsNil(n: nat)
    ensures DropVecs([], n) == []
  {
  }

  lemma DropVecsHead(vecs: seq<Vec>, n: nat)
    requires vecs != []
    ensures
      var v := vecs[0];
      DropVecs(vecs, n)
      == if v.len <= n then DropVecs(vecs[1..], n - v.len)
         else [Vec(v.page, v.offset + n, v.len - n)] + vecs[1..]
  {
  }

  lemma DropBioCarries(b: Bio, n: nat, error: bool)
    requires Carries(b) && n < b.size
    ensures Carries(DropBio(b, n, error))
  {
    DropVecsSize(b.vecs, n);
  }

  lemma DropBioTwice(b: Bio, a: nat, c: nat, error: bool)
    requires Carries(b) && a + c <= b.size && a % SECTOR == 0
    ensures DropBio(DropBio(b, a, error), c, error) == DropBio(b, a + c, error)
  {
    DropVecsTwice(b.vecs, a, c);
  }

  lemma TotalHead(bios: seq<Bio>)
    requires bios != []
    ensures Total(bios) == bios[0].size + Total(bios[1..])
  {
    assert bios == [bios[0]] + bios[1..];
    VecsConcat([bios[0]], bios[1..]);
    VecsOne(bios[0]);
  }

  lemma CarryTail(bios: seq<Bio>)
    requires bios != [] && AllCarry(bios)
    ensures AllCarry(bios[1..]) && Carries(bios[0]) && bios[0].size > 0
  {
    SizeHead(bios[0].vecs);
  }

  /** Completing n bytes takes exactly n bytes off the chain (all of it, if there are fewer), and
      what is left still carries data. */
  lemma {:induction false} WalkDrops(bios: seq<Bio>, n: nat, error: bool)
    requires AllCarry(bios)
    ensures
      var rest := Walk(bios, n, error);
      && AllCarry(rest)
      && Total(rest) == (if n <= Total(bios) then Total(bios) - n else 0)
      && (rest == [] <==> n >= Total(bios))
    decreases |bios|
  {
    hide Total, Carries;
    if bios == [] {
      TotalNil();
    } else {
      TotalHead(bios);
      CarryTail(bios);
      if n >= bios[0].size {
        WalkDrops(bios[1..], n - bios[0].size, error);
        if bios[1..] != [] {
          TotalHead(bios[1..]);
          CarryTail(bios[1..]);
        }
      } else if n > 0 {
        var b := DropBio(bios[0], n, error);
        DropBioCarries(bios[0], n, error);
        assert ([b] + bios[1..])[1..] == bios[1..];
        TotalHead([b] + bios[1..]);
      }
    }
  }

  lemma TotalNil()
    ensures Total([]) == 0
  {
  }

  /** The ended bios are the first ones of the chain, in order and each once; the rest of the chain
      is untouched except for its first bio. */
  lemma {:induction false} WalkEnds(bios: seq<Bio>, n: nat, error: bool)
    ensures
      var k := EndedCount(bios, n);
      var rest := Walk(bios, n, error);
      && |rest| == |bios| - k
      && (rest != [] ==>
            && rest[0].id == bios[k].id && rest[1..] == bios[k + 1..]
            && (rest[0].uptodate && !error <==> bios[k].uptodate && !error))
    decreases |bios|
  {
    if bios != [] && n >= bios[0].size {
      var rest := bios[1..];
      if rest != [] && n == bios[0].size {
        assert rest[1..] == bios[2..];
      } else {
        WalkEnds(rest, n - bios[0].size, error);
        var k := EndedCount(rest, n - bios[0].size);
        if k < |rest| {
          assert rest[k] == bios[k + 1] && rest[k + 1..] == bios[k + 2..];
        }
      }
    }
  }

  /** A bio ends exactly when all its bytes are covered. */
  lemma {:induction false} EndedWhenCovered(bios: seq<Bio>, n: nat, i: nat)
    requires AllCarry(bios) && i < |bios|
    ensures i < EndedCount(bios, n) <==> n >= Total(bios[..i + 1])
    decreases |bios|
  {
    hide Total, Carries;
    var upTo := bios[..i + 1];
    TotalHead(upTo);
    CarryTail(bios);
    assert upTo[1..] == bios[1..][..i];
    if i == 0 {
      assert upTo[1..] == [];
      TotalNil();
    } else if n >= bios[0].size {
      EndedWhenCovered(bios[1..], n - bios[0].size, i - 1);
      if n == bios[0].size {
        CarryTail(bios[1..]);
        TotalHead(upTo[1..]);
      }
    }
  }

  /** Completing a, then b bytes is completing a + b bytes, if a is a whole number of sectors. */
  lemma {:induction false} WalkTwice(bios: seq<Bio>, a: nat, b: nat, error: bool)
    requires AllCarry(bios) && a % SECTOR == 0
    requires forall i :: 0 <= i < |bios| ==> bios[i].size % SECTOR == 0
    ensures Walk(Walk(bios, a, error), b, error) == Walk(bios, a + b, error)
    ensures EndedCount(bios, a + b) == EndedCount(bios, a) + EndedCount(Walk(bios, a, error), b)
    decreases |bios|
  {
    hide Carries, DropBio;
    if bios != [] {
      CarryTail(bios);
      var rest := bios[1..];
      if a > bios[0].size || (a == bios[0].size && rest == []) {
        WholeSectors(a, bios[0].size);
        WalkTwice(rest, a - bios[0].size, b, error);
      } else if a == bios[0].size {
        if b == 0 {
          CarryTail(rest);
        }
      } else if a > 0 {
        WalkTwiceInside(bios, a, b, error);
      }
    }
  }

  lemma WholeSectors(a: nat, b: nat)
    requires a % SECTOR == 0 && b % SECTOR == 0 && a >= b
    ensures (a - b) % SECTOR == 0
  {
  }

  /** And the submitters are told the same, in the same order. */
  lemma ReportsTwice(bios: seq<Bio>, a: nat, b: nat, error: bool)
    requires AllCarry(bios) && a % SECTOR == 0
    requires forall i :: 0 <= i < |bios| ==> bios[i].size % SECTOR == 0
    ensures
      var rest := Walk(bios, a, error);
      Reports(bios[..EndedCount(bios, a + b)], error)
        == Reports(bios[..EndedCount(bios, a)], error) + Reports(rest[..EndedCount(rest, b)], error)
  {
    hide Walk, EndedCount, AllCarry, Reports;
    WalkTwice(bios, a, b, error);
    WalkEnds(bios, a, error);
    ReportsSplit(bios, EndedCount(bios, a), Walk(bios, a, error), EndedCount(Walk(bios, a, error), b), error);
  }

  /** Reports of a chain, in two parts the second of which starts with a changed bio. */
  lemma ReportsSplit(bios: seq<Bio>, k: nat, rest: seq<Bio>, j: nat, error: bool)
    requires k <= |bios| && |rest| == |bios| - k && j <= |rest|
    requires rest != [] ==> rest[0].id == bios[k].id && rest[1..] == bios[k + 1..]
    requires rest != [] ==> (rest[0].uptodate && !error <==> bios[k].uptodate && !error)
    ensures Reports(bios[..k + j], error) == Reports(bios[..k], error) + Reports(rest[..j], error)
  {
    forall i | 0 <= i < j ensures Reports(rest[..j], error)[i] == Reports(bios[..k + j], error)[k + i] {
      if i > 0 {
        assert rest[i] == rest[1..][i - 1] == bios[k + 1..][i - 1] == bios[k + i];
      }
    }
  }

  // ------------------------------------------------------------------
  // What the submitters are told by any sequence of completions

  /** One call of blk_update_request. */
  datatype Part = Part(n: nat, error: bool)

  function Sum(parts: seq<Part>): nat {
    if parts == [] then 0 else parts[0].n + Sum(parts[1..])
  }

  /** Everything that some completions tell. */
  function Tellings(bios: seq<Bio>, parts: seq<Part>): seq<Told>
    decreases |parts|
  {
    if parts == [] then []
    else
      var n, error := parts[0].n, parts[0].error;
      Reports(bios[..EndedCount(bios, n)], error) + Tellings(Walk(bios, n, error), parts[1..])
  }

  /** Does part j cover a byte of bio i? The bytes of a chain are counted from its start. */
  predicate Covers(bios: seq<Bio>, parts: seq<Part>, i: nat, j: nat)
    requires i < |bios| && j < |parts|
  {
    parts[j].n > 0 && Sum(parts[..j]) < Total(bios[..i + 1]) && Total(bios[..i]) < Sum(parts[..j + 1])
  }

  predicate Unharmed(bios: seq<Bio>, parts: seq<Part>, i: nat)
    requires i < |bios|
  {
    forall j :: 0 <= j < |parts| && Covers(bios, parts, i, j) ==> !parts[j].error
  }

  lemma TotalTake(bios: seq<Bio>, i: nat)
    requires i < |bios|
    ensures Total(bios[..i + 1]) == Total(bios[..i]) + bios[i].size
  {
    assert bios[..i + 1][..i] == bios[..i];
  }

  /** Where the cut of a completion falls, and what it does to the bio it falls into. */
  lemma {:induction false} WalkCuts(bios: seq<Bio>, n: nat, error: bool)
    requires AllCarry(bios)
    ensures
      var k, rest := EndedCount(bios, n), Walk(bios, n, error);
      && |rest| == |bios| - k && Total(bios[..k]) <= n
      && (rest != [] ==>
            && n < Total(bios[..k + 1])
            && rest[0].id == bios[k].id && rest[0].size == Total(bios[..k + 1]) - n && rest[1..] == bios[k + 1..]
            && (rest[0].uptodate <==> bios[k].uptodate && !(error && Total(bios[..k]) < n)))
    decreases |bios|
  {
    hide Total, Carries, DropVecs;
    var k, rest := EndedCount(bios, n), Walk(bios, n, error);
    assert bios[..0] == [];
    TotalNil();
    if bios != [] {
      CarryTail(bios);
      TotalTake(bios, 0);
      if n >= bios[0].size {
        var tail := bios[1..];
        if tail != [] && n == bios[0].size {
          CarryTail(tail);
          TotalTake(bios, 1);
          assert tail[1..] == bios[2..];
        } else {
          WalkCuts(tail, n - bios[0].size, error);
          var m := EndedCount(tail, n - bios[0].size);
          TotalPrepend(bios, m);
          if m < |tail| {
            TotalPrepend(bios, m + 1);
            assert tail[m] == bios[m + 1] && tail[m + 1..] == bios[m + 2..];
          }
        }
      }
    }
  }

  lemma TotalPrepend(bios: seq<Bio>, m: nat)
    requires bios != [] && m <= |bios| - 1
    ensures Total(bios[..m + 1]) == bios[0].size + Total(bios[1..][..m])
  {
    TotalHead(bios[..m + 1]);
    assert bios[..m + 1][1..] == bios[1..][..m];
  }

  /** The bios left after a completion start where they did, less what was completed. */
  lemma {:induction false} WalkShifts(bios: seq<Bio>, n: nat, error: bool, m: nat)
    requires AllCarry(bios) && 0 < m <= |Walk(bios, n, error)|
    ensures
      var k, rest := EndedCount(bios, n), Walk(bios, n, error);
      k + m <= |bios| && Total(rest[..m]) == Total(bios[..k + m]) - n
    decreases m
  {
    hide Total, Carries, Walk, EndedCount;
    var k, rest := EndedCount(bios, n), Walk(bios, n, error);
    WalkCuts(bios, n, error);
    if m == 1 {
      TotalTake(rest, 0);
      assert rest[..0] == [];
      TotalNil();
    } else {
      WalkShifts(bios, n, error, m - 1);
      TotalTake(rest, m - 1);
      TotalTake(bios, k + m - 1);
      assert rest[m - 1] == rest[1..][m - 2] == bios[k + 1..][m - 2] == bios[k + m - 1];
    }
  }

  lemma SumTake(parts: seq<Part>, j: nat)
    requires 0 < j <= |parts|
    ensures Sum(parts[..j]) == parts[0].n + Sum(parts[1..][..j - 1])
  {
    assert parts[..j][1..] == parts[1..][..j - 1];
  }

  /** A later completion covers a remaining bio exactly if it does so in the remaining chain. */
  lemma CoversLater(bios: seq<Bio>, parts: seq<Part>, i: nat, j: nat)
    requires AllCarry(bios) && parts != [] && 0 < j < |parts|
    requires EndedCount(bios, parts[0].n) <= i < |bios|
    ensures
      var n, error := parts[0].n, parts[0].error;
      var k, rest := EndedCount(bios, n), Walk(bios, n, error);
      i - k < |rest| && (Covers(bios, parts, i, j) <==> Covers(rest, parts[1..], i - k, j - 1))
  {
    hide Total, Carries, Walk, EndedCount;
    var n, error := parts[0].n, parts[0].error;
    var k, rest := EndedCount(bios, n), Walk(bios, n, error);
    WalkCuts(bios, n, error);
    WalkShifts(bios, n, error, i - k + 1);
    SumTake(parts, j);
    SumTake(parts, j + 1);
    if i > k {
      WalkShifts(bios, n, error, i - k);
    } else {
      assert rest[..0] == [];
      TotalNil();
      SumGrows(parts[1..], j - 1);
    }
  }

  lemma {:induction false} SumGrows(parts: seq<Part>, j: nat)
    requires j < |parts|
    ensures Sum(parts[..j + 1]) == Sum(parts[..j]) + parts[j].n
  {
    if j == 0 {
      assert parts[..0] == [] && parts[..1] == [parts[0]];
    } else {
      SumGrows(parts[1..], j - 1);
      assert parts[..j + 1][1..] == parts[1..][..j] && parts[..j][1..] == parts[1..][..j - 1];
    }
  }

  lemma CoversNow(bios: seq<Bio>, parts: seq<Part>, i: nat)
    requires parts != [] && i < |bios|
    ensures Covers(bios, parts, i, 0) <==> parts[0].n > 0 && 0 < Total(bios[..i + 1]) && Total(bios[..i]) < parts[0].n
  {
    assert parts[..0] == [] && parts[..1] == [parts[0]] && [parts[0]][1..] == [];
  }

  /** A bio that has ended is covered by no later completion. */
  lemma CoversNoMore(bios: seq<Bio>, parts: seq<Part>, i: nat, j: nat)
    requires AllCarry(bios) && i < |bios| && 0 < j < |parts| && i < EndedCount(bios, parts[0].n)
    ensures !Covers(bios, parts, i, j)
  {
    hide Total, Carries, EndedCount;
    EndedWhenCovered(bios, parts[0].n, i);
    SumTake(parts, j);
  }

  lemma HarmLater(bios: seq<Bio>, parts: seq<Part>, i: nat)
    requires AllCarry(bios) && parts != [] && EndedCount(bios, parts[0].n) <= i < |bios|
    ensures
      var n, error := parts[0].n, parts[0].error;
      var k, rest := EndedCount(bios, n), Walk(bios, n, error);
      && i - k < |rest|
      && (Unharmed(bios, parts, i) <==> !(Covers(bios, parts, i, 0) && error) && Unharmed(rest, parts[1..], i - k))
  {
    hide Carries, Walk, EndedCount, Covers;
    var n, error := parts[0].n, parts[0].error;
    var k, rest := EndedCount(bios, n), Walk(bios, n, error);
    WalkCuts(bios, n, error);
    forall j | 0 < j < |parts| ensures Covers(bios, parts, i, j) <==> Covers(rest, parts[1..], i - k, j - 1) {
      CoversLater(bios, parts, i, j);
    }
    if !Unharmed(bios, parts, i) {
      var j :| 0 <= j < |parts| && Covers(bios, parts, i, j) && parts[j].error;
      if j > 0 {
        assert parts[1..][j - 1] == parts[j];
      }
    }
    if !Unharmed(rest, parts[1..], i - k) {
      var j :| 0 <= j < |parts| - 1 && Covers(rest, parts[1..], i - k, j) && parts[1..][j].error;
      assert parts[j + 1] == parts[1..][j] && Covers(bios, parts, i, j + 1);
    }
  }

  lemma HarmNow(bios: seq<Bio>, parts: seq<Part>, i: nat)
    requires AllCarry(bios) && parts != [] && i < |bios| && i < EndedCount(bios, parts[0].n)
    ensures Unharmed(bios, parts, i) <==> !parts[0].error
  {
    hide Carries, Total, EndedCount, Covers;
    EndedWhenCovered(bios, parts[0].n, i);
    TotalTake(bios, i);
    CarryPositive(bios, i);
    CoversNow(bios, parts, i);
    forall j | 0 < j < |parts| ensures !Covers(bios, parts, i, j) {
      CoversNoMore(bios, parts, i, j);
    }
  }

  lemma CarryPositive(bios: seq<Bio>, i: nat)
    requires AllCarry(bios) && i < |bios|
    ensures bios[i].size > 0
  {
    assert Carries(bios[i]);
    SizeHead(bios[i].vecs);
  }

  lemma ReportsAt(bios: seq<Bio>, k: nat, error: bool, i: nat)
    requires i < k <= |bios|
    ensures |Reports(bios[..k], error)| == k
    ensures Reports(bios[..k], error)[i] == Told(bios[i].id, bios[i].uptodate && !error)
  {
  }

  /** Over any sequence of completions: the submitter of a bio is told once, when all its bytes are
      done, in chain order; and is told of success if and only if the bio was in order before and no
      completion that covered any of its bytes carried an error. */
  lemma {:induction false} ToldIffUnharmed(bios: seq<Bio>, parts: seq<Part>, i: nat)
    requires AllCarry(bios) && i < |bios|
    ensures
      var told := Tellings(bios, parts);
      && (i < |told| <==> Sum(parts) >= Total(bios[..i + 1]))
      && (i < |told| ==> told[i] == Told(bios[i].id, bios[i].uptodate && Unharmed(bios, parts, i)))
    decreases |parts|
  {
    hide Carries, Total, Walk, EndedCount, Unharmed, Reports;
    TotalTake(bios, i);
    CarryPositive(bios, i);
    if parts != [] {
      var n, error := parts[0].n, parts[0].error;
      var k, rest := EndedCount(bios, n), Walk(bios, n, error);
      WalkCuts(bios, n, error);
      WalkDrops(bios, n, error);
      ReportsLength(bios[..k], error);
      EndedWhenCovered(bios, n, i);
      if i < k {
        ReportsAt(bios, k, error, i);
        HarmNow(bios, parts, i);
      } else {
        ToldIffUnharmed(rest, parts[1..], i - k);
        WalkShifts(bios, n, error, i - k + 1);
        HarmLater(bios, parts, i);
        CoversNow(bios, parts, i);
        LeftAs(bios, n, error, i);
      }
    }
  }

  lemma ReportsLength(bios: seq<Bio>, error: bool)
    ensures |Reports(bios, error)| == |bios|
  {
  }

  /** What a completion leaves of a bio that has not ended. */
  lemma LeftAs(bios: seq<Bio>, n: nat, error: bool, i: nat)
    requires AllCarry(bios) && EndedCount(bios, n) <= i < |bios|
    ensures
      var k, rest := EndedCount(bios, n), Walk(bios, n, error);
      i - k < |rest| &&
      var b := rest[i - k];
      b.id == bios[i].id && (b.uptodate <==> bios[i].uptodate && !(error && n > 0 && Total(bios[..i]) < n))
  {
    hide Carries, Total, Walk, EndedCount;
    var k, rest := EndedCount(bios, n), Walk(bios, n, error);
    WalkCuts(bios, n, error);
    if i > k {
      assert rest[i - k] == rest[1..][i - k - 1] == bios[k + 1..][i - k - 1] == bios[i];
      TotalMono(bios, k + 1, i);
    }
  }

  lemma {:induction false} TotalMono(bios: seq<Bio>, a: nat, b: nat)
    requires a <= b <= |bios|
    ensures Total(bios[..a]) <= Total(bios[..b])
    decreases b - a
  {
    if a < b {
      TotalTake(bios, a);
      TotalMono(bios, a + 1, b);
    }
  }

  lemma WalkTwiceInside(bios: seq<Bio>, a: nat, b: nat, error: bool)
    requires AllCarry(bios) && a % SECTOR == 0 && bios != [] && 0 < a < bios[0].size
    ensures Walk(Walk(bios, a, error), b, error) == Walk(bios, a + b, error)
    ensures EndedCount(bios, a + b) == EndedCount(bios, a) + EndedCount(Walk(bios, a, error), b)
  {
    var d := DropBio(bios[0], a, error);
    DropBioCarries(bios[0], a, error);
    var rest := bios[1..];
    assert ([d] + rest)[1..] == rest && ([d] + rest)[0] == d;
    if b < d.size {
      DropBioTwice(bios[0], a, b, error);
    }
  }

  /** Passing the full size finishes a request exactly if its chain has at most one bio or does
      not end in an empty one. */
  lemma {:induction false} FullSizeFinishes(bios: seq<Bio>, error: bool)
    ensures Walk(bios, Total(bios), error) == [] <==> |bios| <= 1 || bios[|bios| - 1].size > 0
    decreases |bios|
  {
    hide Total;
    if bios != [] {
      TotalHead(bios);
      var rest := bios[1..];
      if rest == [] {
        TotalNil();
      } else {
        TotalLast(rest);
        if Total(rest) > 0 {
          FullSizeFinishes(rest, error);
          if |rest| == 1 {
            TotalHead(rest);
            assert rest[1..] == [];
            TotalNil();
          }
        }
      }
    }
  }

  lemma TotalLast(bios: seq<Bio>)
    requires bios != []
    ensures Total(bios) >= bios[|bios| - 1].size
  {
  }

  lemma TailContiguous(pos: nat, bios: seq<Bio>)
    requires Contiguous(pos, bios) && |bios| > 1
    ensures bios[0].size % SECTOR == 0 && Contiguous(pos + bios[0].size / SECTOR, bios[1..])
  {
    assert forall i :: 0 < i < |bios[1..]| ==> bios[1..][i - 1] == bios[i];
  }

  lemma CutContiguous(pos: nat, bios: seq<Bio>, n: nat, error: bool)
    requires Contiguous(pos, bios) && bios != [] && n < bios[0].size && n % SECTOR == 0
    ensures Contiguous(pos + n / SECTOR, [DropBio(bios[0], n, error)] + bios[1..])
  {
    hide DropVecs;
    WholeSectors(bios[0].size, n);
    var b := DropBio(bios[0], n, error);
    SectorSum(n, bios[0].size - n);
    assert b.sector + b.size / SECTOR == bios[0].sector + bios[0].size / SECTOR;
  }

  lemma SectorSum(a: nat, b: nat)
    requires a % SECTOR == 0
    ensures a / SECTOR + b / SECTOR == (a + b) / SECTOR
  {
  }

  /** Whole sectors off the front leave the rest contiguous, that much further on. */
  lemma {:induction false} WalkContiguous(pos: nat, bios: seq<Bio>, n: nat, error: bool)
    requires AllCarry(bios) && Contiguous(pos, bios) && n % SECTOR == 0
    ensures Walk(bios, n, error) != [] ==> Contiguous(pos + n / SECTOR, Walk(bios, n, error))
    decreases |bios|
  {
    hide Carries, DropBio, Contiguous;
    if bios != [] {
      CarryTail(bios);
      if n >= bios[0].size {
        if bios[1..] != [] {
          TailContiguous(pos, bios);
          WholeSectors(n, bios[0].size);
          SectorSum(bios[0].size, n - bios[0].size);
          WalkContiguous(pos + bios[0].size / SECTOR, bios[1..], n - bios[0].size, error);
        }
      } else if n > 0 {
        CutContiguous(pos, bios, n, error);
      }
    }
  }
}

/** Partial completion down to single bytes of memory: the reference blk_update_request is held
    against. */
module Bytes {
  import opened Segments
  import opened Chains
  import opened Completion

  /** Where a byte lies. */
  datatype Byte = Byte(page: nat, offset: nat)

  function Span(v: Vec): seq<Byte> {
    seq(v.len, i requires 0 <= i => Byte(v.page, v.offset + i))
  }

  /** The bytes of memory that vectors stand for, in transfer order. */
  function BytesOf(vecs: seq<Vec>): seq<Byte> {
    if vecs == [] then [] else Span(vecs[0]) + BytesOf(vecs[1..])
  }

  lemma {:induction false} BytesLength(vecs: seq<Vec>)
    ensures |BytesOf(vecs)| == Size(vecs)
    decreases |vecs|
  {
    hide Size;
    if vecs == [] {
      SizeNil();
    } else {
      SizeHead(vecs);
      BytesLength(vecs[1..]);
    }
  }

  lemma {:induction false} BytesConcat(a: seq<Vec>, b: seq<Vec>)
    ensures BytesOf(a + b) == BytesOf(a) + BytesOf(b)
    decreases |a|
  {
    if a == [] {
      assert a + b == b;
    } else {
      BytesConcat(a[1..], b);
      assert (a + b)[1..] == a[1..] + b;
    }
  }

  /** Dropping vectors is dropping their first bytes. */
  lemma {:induction false} DropVecsDropsBytes(vecs: seq<Vec>, n: nat)
    requires n <= Size(vecs)
    ensures |BytesOf(vecs)| == Size(vecs)
    ensures BytesOf(DropVecs(vecs, n)) == BytesOf(vecs)[n..]
    decreases |vecs|
  {
    hide Size;
    BytesLength(vecs);
    if vecs == [] {
      SizeNil();
    } else {
      SizeHead(vecs);
      var v, rest := vecs[0], vecs[1..];
      if v.len <= n {
        DropVecsDropsBytes(rest, n - v.len);
      } else {
        var v' := Vec(v.page, v.offset + n, v.len - n);
        assert ([v'] + rest)[1..] == rest;
        assert Span(v') == Span(v)[n..];
      }
    }
  }

  lemma ChainBytes(bios: seq<Bio>)
    requires bios != []
    ensures BytesOf(Vecs(bios)) == BytesOf(bios[0].vecs) + BytesOf(Vecs(bios[1..]))
  {
    assert bios == [bios[0]] + bios[1..];
    VecsConcat([bios[0]], bios[1..]);
    VecsOne(bios[0]);
    BytesConcat(bios[0].vecs, Vecs(bios[1..]));
  }

  /** Completing n bytes of a request leaves exactly the bytes after the first n, in order. */
  lemma {:induction false} WalkDropsBytes(bios: seq<Bio>, n: nat, error: bool)
    requires AllCarry(bios) && n <= Total(bios)
    ensures |BytesOf(Vecs(bios))| == Total(bios)
    ensures BytesOf(Vecs(Walk(bios, n, error))) == BytesOf(Vecs(bios))[n..]
    decreases |bios|
  {
    hide Total, Vecs, Size, DropVecs, BytesOf;
    if bios == [] {
      TotalNil();
      NoBytes();
    } else {
      TotalHead(bios);
      CarryTail(bios);
      ChainBytes(bios);
      BytesLength(bios[0].vecs);
      var b, rest := bios[0], bios[1..];
      if n >= b.size {
        WalkDropsBytes(rest, n - b.size, error);
        if rest != [] && n == b.size {
          assert BytesOf(Vecs(bios))[n..] == BytesOf(Vecs(rest));
        }
      } else {
        WalkDropsBytes(rest, 0, error);
        if n > 0 {
          var d := DropBio(b, n, error);
          assert ([d] + rest)[1..] == rest;
          ChainBytes([d] + rest);
          DropVecsDropsBytes(b.vecs, n);
        }
      }
    }
  }

  lemma NoBytes()
    ensures BytesOf(Vecs([])) == []
  {
  }
}

/**
 Discarding a range (block/blk-lib.c, blkdev_issue_discard): the range is cut into bios, and the
 submitter waits for them by a shared counter that its own reference keeps above zero.
 */
module Discard {

  datatype Piece = Piece(start: nat, sectors: nat)

  /** The pieces follow each other from `from` to `to`, none empty and none above the limit. */
  predicate Tiles(pieces: seq<Piece>, from: nat, to: nat, limit: nat) {
    if pieces == [] then from == to
    else
      var last := pieces[|pieces| - 1];
      && 0 < last.sectors <= limit && last.start + last.sectors == to
      && Tiles(pieces[..|pieces| - 1], from, last.start, limit)
  }

  lemma TilesSnoc(pieces: seq<Piece>, from: nat, to: nat, limit: nat, sectors: nat)
    requires Tiles(pieces, from, to, limit) && 0 < sectors <= limit
    ensures Tiles(pieces + [Piece(to, sectors)], from, to + sectors, limit)
  {
    assert (pieces + [Piece(to, sectors)])[..|pieces|] == pieces;
  }

  /** Every sector of the range is in exactly one piece, and no other sector is in any. */
  lemma {:induction false} TilesCover(pieces: seq<Piece>, from: nat, to: nat, limit: nat, x: nat)
    requires Tiles(pieces, from, to, limit)
    ensures from <= to
    ensures
      from <= x < to <==>
        exists i :: 0 <= i < |pieces| && pieces[i].start <= x < pieces[i].start + pieces[i].sectors
    ensures forall i, j :: 0 <= i < j < |pieces| ==> pieces[i].start + pieces[i].sectors <= pieces[j].start
    ensures forall i :: 0 <= i < |pieces| ==> from <= pieces[i].start && pieces[i].start + pieces[i].sectors <= to
    decreases |pieces|
  {
    if pieces != [] {
      var n := |pieces| - 1;
      TilesCover(pieces[..n], from, pieces[n].start, limit, x);
      assert forall i :: 0 <= i < n ==> pieces[..n][i] == pieces[i];
    }
  }

  // ------------------------------------------------------------------
  // The limit

  /** max_discard_sectors, capped so that the byte count of a bio fits 32 bits. */
  function Capped(maxDiscard: bv32): bv32 {
    if maxDiscard < 0x7fffff then maxDiscard else 0x7fffff
  }

  /** A granularity in sectors. */
  function Sectors(granularity: bv32): bv32 {
    granularity >> 9
  }

  /** The bits of a limit that are not below the granularity. */
  function Masked(m: bv32, disc: bv32): bv32 {
    m & !(disc - 1)
  }

  predicate IsPower(disc: bv32) {
    disc & (disc - 1) == 0
  }

  /** The capped limit with the bits below the granularity masked off, in 32-bit arithmetic. */
  function RoundedLimit(maxDiscard: bv32, granularity: bv32): bv32 {
    if granularity == 0 then Capped(maxDiscard) else Masked(Capped(maxDiscard), Sectors(granularity))
  }

  /** The byte count of a capped limit fits 32 bits, and no larger limit up to max_discard_sectors does. */
  lemma CappedFits(maxDiscard: bv32, larger: bv32)
    ensures (Capped(maxDiscard) << 9) >> 9 == Capped(maxDiscard) && Capped(maxDiscard) <= maxDiscard
    ensures Capped(maxDiscard) < larger <= maxDiscard ==> (larger << 9) >> 9 != larger
  {
  }

  /** For a granularity of a power of two sectors, rounding takes off less than one granularity and leaves
      a multiple of it, which has no bit below it. */
  lemma RoundsDown(m: bv32, disc: bv32)
    requires disc != 0 && IsPower(disc)
    ensures RoundedTo(m, disc, Masked(m, disc))
  {
  }

  /** So the limit in force is the capped one, or that rounded down to a multiple of the granularity. */
  lemma LimitRoundsDown(maxDiscard: bv32, granularity: bv32, disc: bv32)
    requires disc == granularity >> 9 && (granularity != 0 ==> disc != 0 && IsPower(disc))
    ensures
      var r, m := RoundedLimit(maxDiscard, granularity), Capped(maxDiscard);
      if granularity == 0 then r == m else RoundedTo(m, disc, r)
  {
    hide Capped, Masked, IsPower, RoundedTo;
    if granularity != 0 {
      RoundsDown(Capped(maxDiscard), disc);
    }
  }

  /** r is m without what it has beyond a multiple of disc. */
  predicate RoundedTo(m: bv32, disc: bv32, r: bv32) {
    r <= m && m - r < disc && r & (disc - 1) == 0
  }

  lemma MaskedAway(m: bv32, disc: bv32)
    requires disc != 0 && Masked(m, disc) == 0
    ensures m < disc
  {
    Within(m, disc - 1);
    OneBelow(disc);
  }

  lemma Within(m: bv32, x: bv32)
    requires m & !x == 0
    ensures m <= x
  {
    assert m == m & x;
  }

  lemma OneBelow(disc: bv32)
    requires disc != 0
    ensures disc - 1 < disc
  {
  }

  lemma PowerMasks(m: bv32, disc: bv32)
    requires disc != 0 && IsPower(disc) && m < disc
    ensures Masked(m, disc) == 0
  {
  }

  lemma ZeroMasks(m: bv32)
    ensures Masked(m, 0) == 0
  {
  }

  /** Whatever the granularity, a limit that rounds to zero is below it, or the granularity is below
      one sector. */
  lemma RoundsToZero(maxDiscard: bv32, granularity: bv32)
    requires RoundedLimit(maxDiscard, granularity) == 0
    ensures
      var disc, m := Sectors(granularity), Capped(maxDiscard);
      m == 0 || (granularity != 0 && (disc == 0 || m < disc))
  {
    hide Capped, Sectors, Masked;
    if granularity != 0 && Sectors(granularity) != 0 {
      MaskedAway(Capped(maxDiscard), Sectors(granularity));
    }
  }

  /** For a granularity of a power of two sectors, or below one sector, that is all there is to it. */
  lemma RoundsToZeroIff(maxDiscard: bv32, granularity: bv32)
    requires IsPower(Sectors(granularity))
    ensures
      var disc, m := Sectors(granularity), Capped(maxDiscard);
      RoundedLimit(maxDiscard, granularity) == 0 <==> m == 0 || (granularity != 0 && (disc == 0 || m < disc))
  {
    hide Capped, Sectors, Masked, IsPower;
    var disc, m := Sectors(granularity), Capped(maxDiscard);
    if RoundedLimit(maxDiscard, granularity) == 0 {
      RoundsToZero(maxDiscard, granularity);
    } else if granularity != 0 {
      NothingMasked(disc);
      if disc == 0 {
        ZeroMasks(m);
      } else if m < disc {
        PowerMasks(m, disc);
      }
    }
  }

  lemma NothingMasked(disc: bv32)
    ensures Masked(0, disc) == 0
  {
  }

  /** For another one it is not: one sector, at a granularity of three, stays one sector. */
  lemma OddGranularity()
    ensures RoundedLimit(1, 3 << 9) == 1
  {
  }

  // ------------------------------------------------------------------
  // The submitter and the completions

  datatype Pc = Submitting | Waiting | Returned

  /** bb.done, bb.flags and the completion, beside the submitter's own variables. `open` holds the
      bios whose end_io has not been called. */
  datatype State = State(pc: Pc, sector: nat, nrSects: nat, bios: seq<Piece>, open: set<nat>, done: int,
                         completed: nat, uptodate: bool, noMemory: bool)

  datatype Event =
    | Submit
    | Stop(noMemory: bool)
    | EndIo(bio: nat, failed: bool)
    | Wake

  function Start(sector: nat, nrSects: nat): State {
    State(Submitting, sector, nrSects, [], {}, 1, 0, true, false)
  }

  predicate Enabled(s: State, e: Event) {
    match e
    case Submit => s.pc == Submitting && s.nrSects > 0
    case Stop(noMemory) => s.pc == Submitting && (noMemory <==> s.nrSects > 0)
    case EndIo(bio, _) => bio in s.open
    case Wake => s.pc == Waiting && s.completed > 0
  }

  function Apply(limit: nat, s: State, e: Event): State
    requires Enabled(s, e)
  {
    match e
    case Submit =>
      var n := if s.nrSects > limit then limit else s.nrSects;
      s.(bios := s.bios + [Piece(s.sector, n)], open := s.open + {|s.bios|}, done := s.done + 1,
         nrSects := s.nrSects - n, sector := if s.nrSects > limit then s.sector + limit else s.sector)
    case Stop(noMemory) =>
      s.(noMemory := noMemory, done := s.done - 1, pc := if s.done == 1 then Returned else Waiting)
    case EndIo(bio, failed) =>
      s.(open := s.open - {bio}, uptodate := s.uptodate && !failed, done := s.done - 1,
         completed := if s.done == 1 then s.completed + 1 else s.completed)
    case Wake => s.(pc := Returned)
  }

  predicate Run(limit: nat, s: State, es: seq<Event>)
    decreases |es|
  {
    es != [] ==> Enabled(s, es[0]) && Run(limit, Apply(limit, s, es[0]), es[1..])
  }

  function Exec(limit: nat, s: State, es: seq<Event>): State
    requires Run(limit, s, es)
    decreases |es|
  {
    if es == [] then s else Exec(limit, Apply(limit, s, es[0]), es[1..])
  }

  /** The counter is the number of open bios, plus one while the submitter still submits; the
      completion is signalled once at most, and only by the last bio after the submitter has let go. */
  ghost predicate Inv(limit: nat, from: nat, to: nat, s: State) {
    && s.nrSects <= to - from && (s.pc == Submitting && s.nrSects > 0 ==> s.sector == to - s.nrSects)
    && Tiles(s.bios, from, to - s.nrSects, limit)
    && (forall i :: i in s.open ==> i < |s.bios|)
    && s.done == |s.open| + (if s.pc == Submitting then 1 else 0)
    && (s.pc == Submitting ==> s.completed == 0)
    && (s.pc == Waiting ==> s.completed == if s.open == {} then 1 else 0)
    && s.completed <= 1
    && (s.pc == Returned ==> s.open == {})
    && (s.pc != Submitting ==> (s.noMemory <==> s.nrSects > 0))
  }

  lemma SubmitStep(limit: nat, from: nat, to: nat, s: State)
    requires limit > 0 && from <= to && Inv(limit, from, to, s) && Enabled(s, Submit)
    ensures Inv(limit, from, to, Apply(limit, s, Submit))
  {
    hide Tiles;
    var n := if s.nrSects > limit then limit else s.nrSects;
    TilesSnoc(s.bios, from, to - s.nrSects, limit, n);
    OneMore(s.open, |s.bios|);
  }

  lemma OneMore(open: set<nat>, n: nat)
    requires forall i :: i in open ==> i < n
    ensures |open + {n}| == |open| + 1
  {
    assert n !in open;
  }

  lemma OneFewer(open: set<nat>, n: nat)
    requires n in open
    ensures |open - {n}| == |open| - 1
  {
  }

  lemma Step(limit: nat, from: nat, to: nat, s: State, e: Event)
    requires limit > 0 && from <= to && Inv(limit, from, to, s) && Enabled(s, e)
    ensures Inv(limit, from, to, Apply(limit, s, e))
  {
    hide Tiles;
    if e.Submit? {
      SubmitStep(limit, from, to, s);
    } else if e.EndIo? {
      OneFewer(s.open, e.bio);
    }
  }

  lemma {:induction false} Keeps(limit: nat, from: nat, to: nat, s: State, es: seq<Event>)
    requires limit > 0 && from <= to && Inv(limit, from, to, s) && Run(limit, s, es)
    ensures Inv(limit, from, to, Exec(limit, s, es))
    decreases |es|
  {
    hide Inv, Apply, Enabled;
    if es != [] {
      Step(limit, from, to, s, es[0]);
      Keeps(limit, from, to, Apply(limit, s, es[0]), es[1..]);
    }
  }

  /** However submissions and completions interleave, the call returns only when every bio has ended,
      its completion is signalled at most once, and unless memory ran out the bios tile exactly the
      range asked for. */
  lemma ReturnsWhenDone(limit: nat, sector: nat, nrSects: nat, es: seq<Event>)
    requires limit > 0 && Run(limit, Start(sector, nrSects), es)
    ensures
      var s := Exec(limit, Start(sector, nrSects), es);
      && s.completed <= 1
      && (s.pc == Returned ==>
            && s.open == {}
            && (!s.noMemory ==> Tiles(s.bios, sector, sector + nrSects, limit))
            && (s.noMemory ==> s.nrSects <= nrSects && Tiles(s.bios, sector, sector + nrSects - s.nrSects, limit)))
  {
    Keeps(limit, sector, sector + nrSects, Start(sector, nrSects), es);
  }

  /** A waiting submitter is never forgotten: either a bio is open or it has been woken. */
  lemma NeverStuck(limit: nat, sector: nat, nrSects: nat, es: seq<Event>)
    requires limit > 0 && Run(limit, Start(sector, nrSects), es)
    ensures
      var s := Exec(limit, Start(sector, nrSects), es);
      s.pc == Waiting ==> s.open != {} || Enabled(s, Wake)
  {
    Keeps(limit, sector, sector + nrSects, Start(sector, nrSects), es);
  }

  /** What the call returns. An unsupported discard does not count as a failed bio. */
  datatype Code = Ok | EIo | ENoMem

  function Result(s: State): Code {
    if !s.uptodate then EIo else if s.noMemory then ENoMem else Ok
  }

  /** It returns -EIO exactly if some bio of it failed, whichever and whenever that was. */
  lemma {:induction false} FailureReported(limit: nat, s: State, es: seq<Event>)
    requires Run(limit, s, es)
    ensures
      Result(Exec(limit, s, es)) == EIo <==>
        !s.uptodate || exists i :: 0 <= i < |es| && es[i].EndIo? && es[i].failed
    decreases |es|
  {
    if es != [] {
      var s' := Apply(limit, s, es[0]);
      var rest := es[1..];
      FailureReported(limit, s', rest);
      assert forall i :: 0 <= i < |rest| ==> rest[i] == es[i + 1];
      if exists i :: 0 <= i < |es| && es[i].EndIo? && es[i].failed {
        var i :| 0 <= i < |es| && es[i].EndIo? && es[i].failed;
        if i > 0 {
          assert rest[i - 1].EndIo? && rest[i - 1].failed;
        }
      }
    }
  }

  lemma {:induction false} MemoryReported(limit: nat, s: State, es: seq<Event>)
    requires Run(limit, s, es) && (s.pc == Submitting ==> !s.noMemory)
    ensures Exec(limit, s, es).noMemory <==> s.noMemory || Stop(true) in es
    decreases |es|
  {
    if es != [] {
      assert es == [es[0]] + es[1..];
      MemoryReported(limit, Apply(limit, s, es[0]), es[1..]);
      if s.pc != Submitting {
        NoSecondStop(limit, s, es);
      } else if es[0].Stop? {
        NoSecondStop(limit, Apply(limit, s, es[0]), es[1..]);
      }
    }
  }

  lemma {:induction false} NoSecondStop(limit: nat, s: State, es: seq<Event>)
    requires Run(limit, s, es) && s.pc != Submitting
    ensures Stop(true) !in es
    decreases |es|
  {
    if es != [] {
      assert es == [es[0]] + es[1..];
      NoSecondStop(limit, Apply(limit, s, es[0]), es[1..]);
    }
  }

  predicate SomeFailed(es: seq<Event>) {
    exists i :: 0 <= i < |es| && es[i].EndIo? && es[i].failed
  }

  /** What a call returns is told by what happened to it: an I/O error if some bio failed, else an
      allocation failure if it had to stop for lack of memory, else success. */
  lemma ResultIs(limit: nat, sector: nat, nrSects: nat, es: seq<Event>)
    requires Run(limit, Start(sector, nrSects), es)
    ensures
      Result(Exec(limit, Start(sector, nrSects), es))
      == if SomeFailed(es) then EIo else if Stop(true) in es then ENoMem else Ok
  {
    hide Run, Exec;
    FailureReported(limit, Start(sector, nrSects), es);
    MemoryReported(limit, Start(sector, nrSects), es);
  }

  // ------------------------------------------------------------------
  // Termination

  function Submits(es: seq<Event>): nat {
    if es == [] then 0 else (if es[0].Submit? then 1 else 0) + Submits(es[1..])
  }

  /** With a positive limit no run submits more bios than there are sectors. */
  lemma {:induction false} SubmitsBounded(limit: nat, s: State, es: seq<Event>)
    requires limit > 0 && Run(limit, s, es)
    ensures Submits(es) + Exec(limit, s, es).nrSects <= s.nrSects
    decreases |es|
  {
    if es != [] {
      SubmitsBounded(limit, Apply(limit, s, es[0]), es[1..]);
    }
  }

  function Repeated(n: nat): seq<Event> {
    seq(n, _ => Submit)
  }

  /** With a limit of zero the loop never gets anywhere. */
  lemma {:induction false} ZeroLimitLoops(s: State, n: nat)
    requires s.pc == Submitting && s.nrSects > 0
    ensures Run(0, s, Repeated(n)) && Submits(Repeated(n)) == n && Exec(0, s, Repeated(n)).nrSects == s.nrSects
    decreases n
  {
    if n > 0 {
      assert Repeated(n)[1..] == Repeated(n - 1);
      ZeroLimitLoops(Apply(0, s, Submit), n - 1);
    }
  }

  /** What becomes of a call: refused if the limit is zero before it is rounded, else the loop. */
  datatype Issue = Unsupported | Issued(limit: nat, s: State)

  function IssueDiscard(maxDiscard: bv32, granularity: bv32, sector: nat, nrSects: nat): Issue {
    if Capped(maxDiscard) == 0 then Unsupported
    else Issued(RoundedLimit(maxDiscard, granularity) as nat, Start(sector, nrSects))
  }

  /** No run submits more bios than this. */
  ghost predicate SubmitsWithin(limit: nat, s: State, bound: nat) {
    forall es: seq<Event> :: Run(limit, s, es) ==> Submits(es) <= bound
  }

  /** An accepted call for some sectors comes to an end if and only if its limit does not round to
      zero. */
  lemma EndsIff(maxDiscard: bv32, granularity: bv32, sector: nat, nrSects: nat)
    requires nrSects > 0 && IssueDiscard(maxDiscard, granularity, sector, nrSects).Issued?
    ensures
      var i := IssueDiscard(maxDiscard, granularity, sector, nrSects);
      (exists bound: nat :: SubmitsWithin(i.limit, i.s, bound)) <==> RoundedLimit(maxDiscard, granularity) != 0
  {
    hide Capped, RoundedLimit;
    var i := IssueDiscard(maxDiscard, granularity, sector, nrSects);
    AsNat(RoundedLimit(maxDiscard, granularity));
    LoopEndsIff(i.limit, i.s);
  }

  lemma AsNat(x: bv32)
    ensures x as nat == 0 <==> x == 0
  {
  }

  lemma LoopEndsIff(limit: nat, s: State)
    requires s.pc == Submitting && s.nrSects > 0
    ensures (exists bound: nat :: SubmitsWithin(limit, s, bound)) <==> limit != 0
  {
    if limit != 0 {
      forall es: seq<Event> | Run(limit, s, es) ensures Submits(es) <= s.nrSects {
        SubmitsBounded(limit, s, es);
      }
      assert SubmitsWithin(limit, s, s.nrSects);
    } else {
      forall bound: nat ensures !SubmitsWithin(limit, s, bound) {
        ZeroLimitLoops(s, bound + 1);
      }
    }
  }

  // ------------------------------------------------------------------
  // The submitting loop

  /** The bios it submits, when none fails to be allocated. */
  method SplitRange(start: nat, count: nat, limit: nat) returns (bios: seq<Piece>)
    requires limit > 0
    ensures Tiles(bios, start, start + count, limit)
    ensures |bios| == (count + limit - 1) / limit
  {
    hide Tiles;
    var sector, nrSects: nat := start, count;
    bios := [];
    TilesNil(start, limit);
    Quotient(limit - 1, limit, 0, limit - 1);
    while nrSects > 0
      invariant nrSects <= count
      invariant nrSects > 0 ==> sector == start + count - nrSects && |bios| * limit == count - nrSects
      invariant Tiles(bios, start, start + count - nrSects, limit)
      invariant nrSects == 0 ==> |bios| == (count + limit - 1) / limit
    {
      if nrSects > limit {
        TilesSnoc(bios, start, sector, limit, limit);
        bios := bios + [Piece(sector, limit)];
        nrSects, sector := nrSects - limit, sector + limit;
      } else {
        TilesSnoc(bios, start, sector, limit, nrSects);
        Rounding(count, limit, |bios|, nrSects);
        bios := bios + [Piece(sector, nrSects)];
        nrSects := 0;
      }
    }
  }

  lemma TilesNil(from: nat, limit: nat)
    ensures Tiles([], from, from, limit)
  {
  }

  lemma Rounding(count: nat, limit: nat, n: nat, rest: nat)
    requires limit > 0 && n * limit == count - rest && 0 < rest <= limit
    ensures (count + limit - 1) / limit == n + 1
  {
    Quotient(count + limit - 1, limit, n + 1, rest - 1);
  }

  lemma Quotient(a: nat, b: nat, q: nat, r: nat)
    requires b > 0 && a == q * b + r && r < b
    ensures a / b == q
  {
    var d := a / b - q;
    assert a == b * (a / b) + a % b;
    assert b * d == b * (a / b) - q * b;
    if d >= 1 {
      Multiple(b, d, 1);
    } else if d <= -1 {
      Multiple(b, -1, d);
    }
  }

  lemma Multiple(b: nat, x: int, y: int)
    requires x >= y
    ensures b * x >= b * y
  {
  }
}

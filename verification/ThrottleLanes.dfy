/** Dispatching from one group: block/blk-throttle.c, throtl_dispatch_tg and tg_update_disptime. */
module ThrottleLanes {
  import opened Lists
  import opened ThrottleSlice
  import opened ThrottleRate

  const READS_PER_ROUND: nat := 6    // throtl_grp_quantum * 3 / 4
  const WRITES_PER_ROUND: nat := 2   // throtl_grp_quantum minus the reads
  const QUANTUM: nat := 32           // throtl_quantum

  datatype Bio = Bio(id: nat, size: nat)

  /** One direction of a group: its meter and the bios waiting in it. */
  datatype Lane = Lane(m: Meter, bios: seq<Bio>)

  /** The loop over one direction in throtl_dispatch_tg: the lane left behind, the bios sent. */
  function Drain(c: Clock, l: Lane, quota: nat, now: nat): (r: (Lane, seq<Bio>))
    requires c.Runs() && l.m.Limited()
    ensures r.0.m.Limited()
    ensures r.1 + r.0.bios == l.bios && |r.1| <= quota
    decreases quota
  {
    if quota == 0 || l.bios == [] then (l, [])
    else
      var v := MayDispatch(c, l.m, l.bios[0].size, now);
      if !v.ok then (l.(m := v.m), [])
      else
        var m' := TrimSlice(c, Charge(v.m, l.bios[0].size), now);
        var (l', sent) := Drain(c, Lane(m', l.bios[1..]), quota - 1, now);
        (l', [l.bios[0]] + sent)
  }

  /** tg_update_disptime looks at the first bio of a lane: how long it has to wait. */
  function Recheck(c: Clock, l: Lane, now: nat): (r: (Lane, Option<nat>))
    requires c.Runs() && l.m.Limited()
    ensures r.0.m.Limited() && r.0.bios == l.bios
    ensures r.1.None? <==> l.bios == []
  {
    if l.bios == [] then (l, None)
    else
      var v := MayDispatch(c, l.m, l.bios[0].size, now);
      (l.(m := v.m), Some(v.wait))
  }

  function MinWait(a: Option<nat>, b: Option<nat>): Option<nat> {
    if a.None? then b else if b.None? then a else if a.value < b.value then a else b
  }

  function Bytes(bios: seq<Bio>): nat {
    if bios == [] then 0 else bios[0].size + Bytes(bios[1..])
  }

  // ------------------------------------------------------------------
  // Properties

  /** When a bio may go: if there is no rule; else if, in the running slice or in a fresh one where that
      has run out, it fits what both limits allow for the elapsed time, rounded up to whole slices and at
      least one. */
  lemma AllowedExactly(c: Clock, m: Meter, size: nat, now: nat)
    requires c.Runs() && m.Limited()
    ensures
      var over := now < m.start || m.end < now;
      var elapsed, bytes, ios := if over then 0 else now - m.start, if over then 0 else m.bytesDisp,
                                 if over then 0 else m.ioDisp;
      var rnd := RoundUp(if elapsed == 0 then c.slice else elapsed, c.slice);
      MayDispatch(c, m, size, now).ok <==>
        || (m.bps == UNLIMITED_BPS && m.iops == UNLIMITED_IOPS)
        || (&& bytes + size <= m.bps * rnd / c.hz
            && ios + 1 <= m.iops * rnd / c.hz && ios + 1 <= UINT_MAX)
  {
    hide RoundUp;
  }

  /** The loop over a direction stops only when it has sent its share, when nothing is left, or when the
      limits refuse the next bio. */
  lemma {:induction false} DrainsFully(c: Clock, l: Lane, quota: nat, now: nat)
    requires c.Runs() && l.m.Limited()
    ensures
      var (l', sent) := Drain(c, l, quota, now);
      |sent| == quota || l'.bios == [] || !MayDispatch(c, l'.m, l'.bios[0].size, now).ok
    decreases quota
  {
    hide MayDispatch, TrimSlice;
    if quota > 0 && l.bios != [] {
      var v := MayDispatch(c, l.m, l.bios[0].size, now);
      LimitsAfter(c, l.m, l.bios[0].size, now);
      if v.ok {
        DrainsFully(c, Lane(TrimSlice(c, Charge(v.m, l.bios[0].size), now), l.bios[1..]), quota - 1, now);
      } else {
        RefusalStands(c, l.m, l.bios[0].size, now);
      }
    }
  }

  lemma LimitsAfter(c: Clock, m: Meter, size: nat, now: nat)
    requires c.Runs() && m.Limited()
    ensures
      var v := MayDispatch(c, m, size, now);
      v.m.Limited() && TrimSlice(c, Charge(v.m, size), now).Limited()
  {
    hide BpsWait, IopsWait;
  }

  /** A second look at the same time finds the same wait. */
  lemma SecondLook(c: Clock, m: Meter, size: nat, now: nat)
    requires c.Runs() && m.Limited()
    ensures
      var v := MayDispatch(c, m, size, now);
      v.m.Limited() && MayDispatch(c, v.m, size, now).wait == v.wait
  {
    hide BpsWait, IopsWait, RoundedElapsed;
    if !m.NoRule() {
      SameWaits(c, Renew(c, m, now), Renew(c, MayDispatch(c, m, size, now).m, now), size, now);
    }
  }

  /** How long the first bio of a lane has to wait. */
  function FirstWait(c: Clock, l: Lane, now: nat): nat
    requires c.Runs() && l.m.Limited() && l.bios != []
  {
    MayDispatch(c, l.m, l.bios[0].size, now).wait
  }

  /** The time is the earliest at which the first bio of one of two lanes can go: no later than either, and
      that of one of them. */
  predicate Soonest(c: Clock, a: Lane, b: Lane, now: nat, time: nat)
    requires c.Runs() && a.m.Limited() && b.m.Limited()
  {
    && (a.bios != [] ==> time <= now + FirstWait(c, a, now))
    && (b.bios != [] ==> time <= now + FirstWait(c, b, now))
    && ((a.bios != [] && time == now + FirstWait(c, a, now)) || (b.bios != [] && time == now + FirstWait(c, b, now)))
  }

  lemma MinWaitSoonest(c: Clock, a: Lane, b: Lane, now: nat)
    requires c.Runs() && a.m.Limited() && b.m.Limited() && (a.bios != [] || b.bios != [])
    ensures
      var wait := MinWait(Recheck(c, a, now).1, Recheck(c, b, now).1);
      wait.Some? && Soonest(c, a, b, now, now + wait.value)
      && Soonest(c, Recheck(c, a, now).0, Recheck(c, b, now).0, now, now + wait.value)
  {
    hide MayDispatch;
    if a.bios != [] {
      SecondLook(c, a.m, a.bios[0].size, now);
    }
    if b.bios != [] {
      SecondLook(c, b.m, b.bios[0].size, now);
    }
  }

  /** A refusal does not change on a second look at the same time. */
  lemma RefusalStands(c: Clock, m: Meter, size: nat, now: nat)
    requires c.Runs() && m.Limited() && !MayDispatch(c, m, size, now).ok
    ensures
      var m1 := MayDispatch(c, m, size, now).m;
      var again := MayDispatch(c, m1, size, now);
      !again.ok && again.wait >= 1
  {
    hide BpsWait, IopsWait, RoundedElapsed;
    var m0 := Renew(c, m, now);
    var m1 := MayDispatch(c, m, size, now).m;
    var m2 := Renew(c, m1, now);
    SameWaits(c, m0, m2, size, now);
  }

  /** The waits do not depend on where the slice ends. */
  lemma SameWaits(c: Clock, m: Meter, m': Meter, size: nat, now: nat)
    requires c.Runs() && m.Limited() && m.start <= now && m' == m.(end := m'.end)
    ensures BpsWait(c, m', size, now) == BpsWait(c, m, size, now)
    ensures IopsWait(c, m', now) == IopsWait(c, m, now)
  {
    assert RoundedElapsed(c, m', now) == RoundedElapsed(c, m, now);
  }

  /** A lane that sent nothing although it could has to wait. */
  lemma EmptyHandedWaits(c: Clock, l: Lane, quota: nat, now: nat)
    requires c.Runs() && l.m.Limited() && quota > 0 && l.bios != []
    requires Drain(c, l, quota, now).1 == []
    ensures
      var (_, wait) := Recheck(c, Drain(c, l, quota, now).0, now);
      wait.Some? && wait.value >= 1
  {
    hide MayDispatch;
    var v := MayDispatch(c, l.m, l.bios[0].size, now);
    if !v.ok {
      RefusalStands(c, l.m, l.bios[0].size, now);
    }
  }

  /** What a lane sends is metered: the account of the lane stays sound, so the rate bound holds
      of everything it ever sends. */
  lemma {:induction false} DrainMetered(c: Clock, a: Account, l: Lane, quota: nat, now: nat) returns (a': Account)
    requires c.Runs() && l.m.Limited() && !l.m.NoRule() && a.m == l.m && Sound(c, a) && a.last <= now
    ensures
      var (l', sent) := Drain(c, l, quota, now);
      && Sound(c, a') && a'.m == l'.m
      && a'.bytes == a.bytes + Bytes(sent) && a'.ios == a.ios + |sent|
      && a'.first == a.first && a'.rewrites == a.rewrites && a'.last <= now
      && a'.m.bps == a.m.bps && a'.m.iops == a.m.iops
    decreases quota
  {
    hide MayDispatch, TrimSlice, Sound;
    if quota == 0 || l.bios == [] {
      a' := a;
    } else {
      var size := l.bios[0].size;
      var v := MayDispatch(c, l.m, size, now);
      var op := Attempt(size, now, now);
      var a1 := Step(c, a, op);
      StepSound(c, a, op);
      LimitsStay(c, a, op);
      if v.ok {
        var m' := TrimSlice(c, Charge(v.m, size), now);
        var sent := Drain(c, Lane(m', l.bios[1..]), quota - 1, now).1;
        assert ([l.bios[0]] + sent)[1..] == sent;
        a' := DrainMetered(c, a1, Lane(m', l.bios[1..]), quota - 1, now);
      } else {
        a' := a1;
      }
    }
  }

  // ------------------------------------------------------------------
  // Sending under the meter

  /** `sent` went out while the meter moved from m to m': whatever the sound history of m, the
      meter m' has a sound history with exactly these bios added. */
  ghost predicate Metered(c: Clock, m: Meter, m': Meter, sent: seq<Bio>, now: nat) {
    forall a: Account :: a.m == m && !m.NoRule() && Sound(c, a) && a.last <= now ==> Continues(c, a, m', sent, now)
  }

  ghost predicate Continues(c: Clock, a: Account, m': Meter, sent: seq<Bio>, now: nat) {
    exists a': Account :: Sound(c, a') && a'.m == m' && Extends(a, a', sent, now)
  }

  predicate Extends(a: Account, a': Account, sent: seq<Bio>, now: nat) {
    && a'.bytes == a.bytes + Bytes(sent) && a'.ios == a.ios + |sent|
    && a'.first == a.first && a'.rewrites == a.rewrites && a'.last <= now
    && a'.m.bps == a.m.bps && a'.m.iops == a.m.iops
  }

  lemma {:induction false} BytesConcat(a: seq<Bio>, b: seq<Bio>)
    ensures Bytes(a + b) == Bytes(a) + Bytes(b)
  {
    if a == [] {
      assert a + b == b;
    } else {
      assert (a + b)[1..] == a[1..] + b;
      BytesConcat(a[1..], b);
    }
  }

  lemma MeteredNothing(c: Clock, m: Meter, now: nat)
    ensures Metered(c, m, m, [], now)
  {
    forall a: Account | a.m == m && !m.NoRule() && Sound(c, a) && a.last <= now ensures Continues(c, a, m, [], now) {
      assert Extends(a, a, [], now);
    }
  }

  lemma MeteredThen(c: Clock, m: Meter, s: seq<Bio>, m1: Meter, s': seq<Bio>, m2: Meter, now: nat)
    requires Metered(c, m, m1, s, now) && Metered(c, m1, m2, s', now)
    ensures Metered(c, m, m2, s + s', now)
  {
    hide Sound;
    BytesConcat(s, s');
    forall a: Account | a.m == m && !m.NoRule() && Sound(c, a) && a.last <= now
      ensures Continues(c, a, m2, s + s', now)
    {
      var a1: Account :| Sound(c, a1) && a1.m == m1 && Extends(a, a1, s, now);
      assert Continues(c, a1, m2, s', now);
      var a2: Account :| Sound(c, a2) && a2.m == m2 && Extends(a1, a2, s', now);
      assert Extends(a, a2, s + s', now);
    }
  }

  lemma DrainIsMetered(c: Clock, l: Lane, quota: nat, now: nat)
    requires c.Runs() && l.m.Limited()
    ensures
      var (l', sent) := Drain(c, l, quota, now);
      Metered(c, l.m, l'.m, sent, now)
  {
    hide Drain, Sound;
    var (l', sent) := Drain(c, l, quota, now);
    forall a: Account | a.m == l.m && !l.m.NoRule() && Sound(c, a) && a.last <= now
      ensures Continues(c, a, l'.m, sent, now)
    {
      var a' := DrainMetered(c, a, l, quota, now);
      assert Extends(a, a', sent, now);
    }
  }

  lemma RecheckIsMetered(c: Clock, l: Lane, now: nat)
    requires c.Runs() && l.m.Limited()
    ensures Metered(c, l.m, Recheck(c, l, now).0.m, [], now)
  {
    hide MayDispatch, Sound;
    var m' := Recheck(c, l, now).0.m;
    forall a: Account | a.m == l.m && !l.m.NoRule() && Sound(c, a) && a.last <= now
      ensures Continues(c, a, m', [], now)
    {
      if l.bios == [] {
        assert Extends(a, a, [], now);
      } else {
        var op := Check(l.bios[0].size, now);
        StepSound(c, a, op);
        LimitsStay(c, a, op);
        assert Extends(a, Step(c, a, op), [], now);
      }
    }
  }
}

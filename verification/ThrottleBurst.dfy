/** What a direction can send in any stretch of time, whatever went before. */
module ThrottleBurst {
  import opened ThrottleSlice
  import opened ThrottleRate

  /** The account of a direction from some time on. */
  function From(m: Meter, from: nat): Account {
    Account(m, 0, 0, m.start, from, 0)
  }

  /** Whatever a direction has been charged and allowed before: from any time on, it lets through no more
      than its limits allow for the time since its slice started, and one slice. */
  lemma WindowBound(c: Clock, m: Meter, from: nat, ops: seq<Op>)
    requires c.Runs() && m.Limited() && !m.NoRule() && m.start <= from && m.start <= m.end
    requires Runnable(c, From(m, from), ops)
    ensures
      var a := Run(c, From(m, from), ops);
      && a.last >= m.start
      && a.bytes * c.hz <= m.bps * (a.last - m.start + c.slice * (1 + a.rewrites))
      && a.ios * c.hz <= m.iops * (a.last - m.start + c.slice * (1 + a.rewrites))
  {
    hide Sound, Run, Runnable;
    FromSound(c, m, from);
    RunSound(c, From(m, from), ops);
    SoundBound(c, Run(c, From(m, from), ops));
  }

  lemma FromSound(c: Clock, m: Meter, from: nat)
    requires m.start <= from && m.start <= m.end
    ensures Sound(c, From(m, from))
  {
    NoDebt(m.bytesDisp, c.hz);
    NoDebt(m.ioDisp, c.hz);
    NonNegative(m.bps, m.end - m.start);
    NonNegative(m.iops, m.end - m.start);
    NonNegative(m.bps, from + c.slice - m.start);
    NonNegative(m.iops, from + c.slice - m.start);
  }

  lemma NoDebt(disp: nat, hz: nat)
    ensures (0 - disp) * hz <= 0
  {
  }

  lemma NonNegative(rate: nat, t: nat)
    ensures rate * t >= 0
  {
  }

  /** Two accounts of the same meter at the same time see the same things happen. */
  predicate Alike(a: Account, b: Account, a': Account, b': Account) {
    && a'.m == b'.m && a'.last == b'.last
    && a'.bytes - a.bytes == b'.bytes - b.bytes && a'.ios - a.ios == b'.ios - b.ios
    && a'.rewrites - a.rewrites == b'.rewrites - b.rewrites
  }

  lemma {:induction false} RunsAlike(c: Clock, a: Account, b: Account, ops: seq<Op>)
    requires c.Runs() && a.m.Limited() && a.m == b.m && a.last == b.last && Runnable(c, a, ops)
    ensures Runnable(c, b, ops) && Alike(a, b, Run(c, a, ops), Run(c, b, ops))
    decreases |ops|
  {
    hide MayDispatch, TrimSlice;
    if ops != [] {
      LimitsStay(c, a, ops[0]);
      RunsAlike(c, Step(c, a, ops[0]), Step(c, b, ops[0]), ops[1..]);
    }
  }

  /** A trim leaves less than a slice behind it, unless neither limit is worth a unit in a slice. */
  lemma TrimCatchesUp(c: Clock, m: Meter, now: nat)
    requires c.Runs() && !SliceUsed(m, now) && (m.bps * c.slice >= c.hz || m.iops * c.slice >= c.hz)
    ensures
      var t := TrimSlice(c, m, now);
      t.start <= now < t.start + c.slice && now <= t.end && t.bps == m.bps && t.iops == m.iops
  {
    var n := (now - m.start) / c.slice;
    var rest := (now - m.start) % c.slice;
    assert now - m.start == c.slice * n + rest && 0 <= rest < c.slice;
    if n > 0 {
      assert n * c.slice == c.slice * n;
      Worth(c, m.bps, n);
      Worth(c, m.iops, n);
    }
  }

  lemma Worth(c: Clock, rate: nat, n: nat)
    requires c.Runs() && n > 0
    ensures rate * c.slice >= c.hz ==> rate * (c.slice * n) / c.hz >= 1
  {
    if rate * c.slice >= c.hz {
      MulMono(rate, c.slice, c.slice * n);
      var x := rate * (c.slice * n);
      assert x >= c.hz;
      assert x == c.hz * (x / c.hz) + x % c.hz;
    }
  }

  /** After a dispatch a direction has no credit but that of the running slice: from then on, over every
      run, it sends no more than its limits allow for the time elapsed and two slices. What it left
      unused before does not add up. */
  lemma BurstBound(c: Clock, a: Account, size: nat, now: nat, later: nat, ops: seq<Op>)
    requires c.Runs() && a.m.Limited() && !a.m.NoRule() && (a.m.bps * c.slice >= c.hz || a.m.iops * c.slice >= c.hz)
    requires now <= later <= now + c.slice && MayDispatch(c, a.m, size, now).ok
    requires Runnable(c, Step(c, a, Attempt(size, now, later)), ops)
    ensures
      var a1 := Step(c, a, Attempt(size, now, later));
      var a2 := Run(c, a1, ops);
      var more := a2.rewrites - a1.rewrites;
      && a2.last >= later
      && (a2.bytes - a1.bytes) * c.hz <= a.m.bps * (a2.last - later + c.slice * (2 + more))
      && (a2.ios - a1.ios) * c.hz <= a.m.iops * (a2.last - later + c.slice * (2 + more))
  {
    hide Run, Runnable, MayDispatch, TrimSlice;
    var a1 := Step(c, a, Attempt(size, now, later));
    Charged(c, a.m, size, now, later);
    var m := a1.m;
    RunsAlike(c, a1, From(m, later), ops);
    WindowBound(c, m, later, ops);
    var a2 := Run(c, a1, ops);
    var more := a2.rewrites - a1.rewrites;
    LastGrows(c, From(m, later), ops);
    OneMoreSlice(c.slice, 1 + more);
    MulMono(m.bps, a2.last - m.start + c.slice * (1 + more), a2.last - later + c.slice * (2 + more));
    MulMono(m.iops, a2.last - m.start + c.slice * (1 + more), a2.last - later + c.slice * (2 + more));
  }

  lemma Charged(c: Clock, m: Meter, size: nat, now: nat, later: nat)
    requires c.Runs() && m.Limited() && !m.NoRule() && (m.bps * c.slice >= c.hz || m.iops * c.slice >= c.hz)
    requires now <= later <= now + c.slice && MayDispatch(c, m, size, now).ok
    ensures
      var t := TrimSlice(c, Charge(MayDispatch(c, m, size, now).m, size), later);
      && t.start <= later < t.start + c.slice && later <= t.end
      && t.bps == m.bps && t.iops == m.iops
  {
    hide BpsWait, IopsWait, TrimSlice;
    var m1 := Charge(MayDispatch(c, m, size, now).m, size);
    TrimCatchesUp(c, m1, later);
  }

  lemma {:induction false} LastGrows(c: Clock, a: Account, ops: seq<Op>)
    requires c.Runs() && a.m.Limited() && Runnable(c, a, ops)
    ensures Run(c, a, ops).last >= a.last && Run(c, a, ops).rewrites >= a.rewrites
    decreases |ops|
  {
    hide MayDispatch, TrimSlice;
    if ops != [] {
      LimitsStay(c, a, ops[0]);
      LastGrows(c, Step(c, a, ops[0]), ops[1..]);
    }
  }
}

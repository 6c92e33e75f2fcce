/** The rate bound of the throttler: over every run, what was let through fits the limit. */
module ThrottleRate {
  import opened ThrottleSlice

  // ------------------------------------------------------------------
  // One metered quantity (bytes against bps, or requests against iops)

  /** `total` was let through since time `first`, and `disp` is charged to the current slice. The slack
      is one slice for every rewrite of the limits. */
  predicate Covered(c: Clock, rate: nat, total: nat, disp: nat, start: nat, end: nat,
                    first: nat, last: nat, slack: nat)
  {
    && first <= start <= last && start <= end
    && (total - disp) * c.hz <= rate * (start - first + slack)
    && total * c.hz <= rate * (end - first + slack)
    && total * c.hz <= rate * (last + c.slice - first + slack)
  }

  lemma MulMono(rate: nat, a: nat, b: nat)
    requires a <= b
    ensures rate * a <= rate * b
  {
  }

  lemma MulMonoInt(k: nat, a: int, b: int)
    requires a <= b
    ensures k * a <= k * b
  {
  }

  lemma Floor(n: nat, hz: nat)
    requires hz > 0
    ensures n / hz * hz <= n
  {
    assert n == hz * (n / hz) + n % hz;
  }

  /** Time passes, the slice end moves out. */
  lemma Waits(c: Clock, rate: nat, total: nat, disp: nat, start: nat, end: nat, end': nat,
              first: nat, last: nat, last': nat, slack: nat)
    requires Covered(c, rate, total, disp, start, end, first, last, slack)
    requires last <= last' && end <= end'
    ensures Covered(c, rate, total, disp, start, end', first, last', slack)
  {
    MulMono(rate, end - first + slack, end' - first + slack);
    MulMono(rate, last + c.slice - first + slack, last' + c.slice - first + slack);
  }

  /** A slice that ran out is replaced by a fresh one. */
  lemma Renews(c: Clock, rate: nat, total: nat, disp: nat, start: nat, end: nat,
               first: nat, last: nat, now: nat, slack: nat)
    requires Covered(c, rate, total, disp, start, end, first, last, slack)
    requires last <= now && end < now
    ensures Covered(c, rate, total, 0, now, now + c.slice, first, now, slack)
  {
    MulMono(rate, end - first + slack, now - first + slack);
    MulMono(rate, now - first + slack, now + c.slice - first + slack);
  }

  /** A slice cut short by a rewrite of the limits costs one more slice of slack. */
  lemma Rewrites(c: Clock, rate: nat, total: nat, disp: nat, start: nat, end: nat,
                 first: nat, last: nat, now: nat, slack: nat)
    requires Covered(c, rate, total, disp, start, end, first, last, slack)
    requires last <= now
    ensures Covered(c, rate, total, 0, now, now + c.slice, first, now, slack + c.slice)
  {
    MulMono(rate, last + c.slice - first + slack, now - first + (slack + c.slice));
    MulMono(rate, now - first + (slack + c.slice), now + c.slice - first + (slack + c.slice));
  }

  /** An amount within the limit is let through. */
  lemma Charges(c: Clock, rate: nat, total: nat, disp: nat, n: nat, start: nat, end: nat,
                first: nat, now: nat, rnd: nat, slack: nat)
    requires c.Runs()
    requires Covered(c, rate, total, disp, start, end, first, now, slack)
    requires now + c.slice <= end && rnd <= now - start + c.slice
    requires disp + n <= rate * rnd / c.hz
    ensures Covered(c, rate, total + n, disp + n, start, end, first, now, slack)
  {
    Within(disp + n, rate * rnd, c.hz);
    ChargeArith(c.hz, rate, total, disp, n, start - first + slack, rnd, now + c.slice - first + slack);
    MulMono(rate, now + c.slice - first + slack, end - first + slack);
    assert (total + n) - (disp + n) == total - disp;
  }

  lemma Within(x: nat, y: nat, hz: nat)
    requires hz > 0 && x <= y / hz
    ensures x * hz <= y
  {
    Floor(y, hz);
    MulMono(hz, x, y / hz);
  }

  lemma ChargeArith(hz: nat, rate: nat, total: nat, disp: nat, n: nat, t: nat, rnd: nat, t': nat)
    requires (total - disp) * hz <= rate * t && (disp + n) * hz <= rate * rnd && t + rnd <= t'
    ensures (total + n) * hz <= rate * t'
  {
    assert (total + n) * hz == (total - disp) * hz + (disp + n) * hz;
    assert rate * (t + rnd) == rate * t + rate * rnd;
    MulMono(rate, t + rnd, t');
  }

  /** Whole slices are trimmed off the front. */
  lemma Trims(c: Clock, rate: nat, total: nat, disp: nat, start: nat, end: nat, end': nat, k: nat,
              first: nat, last: nat, now: nat, slack: nat)
    requires c.Runs()
    requires Covered(c, rate, total, disp, start, end, first, last, slack)
    requires last <= now && start + k <= now && now + c.slice <= end'
    ensures
      var trim := rate * k / c.hz;
      var disp' := if disp >= trim then disp - trim else 0;
      Covered(c, rate, total, disp', start + k, end', first, now, slack)
  {
    hide Covered;
    Floor(rate * k, c.hz);
    TrimsBy(c, rate, total, disp, start, end, end', k, rate * k / c.hz, first, last, now, slack);
  }

  lemma TrimsBy(c: Clock, rate: nat, total: nat, disp: nat, start: nat, end: nat, end': nat, k: nat, trim: nat,
                first: nat, last: nat, now: nat, slack: nat)
    requires Covered(c, rate, total, disp, start, end, first, last, slack)
    requires last <= now && start + k <= now && now + c.slice <= end' && trim * c.hz <= rate * k
    ensures
      var disp' := if disp >= trim then disp - trim else 0;
      Covered(c, rate, total, disp', start + k, end', first, now, slack)
  {
    TrimArith(c.hz, rate, total, disp, trim, k, start - first + slack);
    MulMono(rate, last + c.slice - first + slack, now + c.slice - first + slack);
    MulMono(rate, now + c.slice - first + slack, end' - first + slack);
  }

  lemma TrimArith(hz: nat, rate: nat, total: nat, disp: nat, trim: nat, k: nat, t: int)
    requires (total - disp) * hz <= rate * t && trim * hz <= rate * k
    ensures
      var disp' := if disp >= trim then disp - trim else 0;
      (total - disp') * hz <= rate * (t + k)
  {
    var disp' := if disp >= trim then disp - trim else 0;
    MulMonoInt(hz, total - disp', total - disp + trim);
    assert (total - disp + trim) * hz == (total - disp) * hz + trim * hz;
    assert rate * t + rate * k == rate * (t + k);
  }

  // ------------------------------------------------------------------
  // Both limits together

  /** The invariant of an account: both quantities are covered. */
  predicate Sound(c: Clock, a: Account) {
    var slack := c.slice * a.rewrites;
    && Covered(c, a.m.bps, a.bytes, a.m.bytesDisp, a.m.start, a.m.end, a.first, a.last, slack)
    && Covered(c, a.m.iops, a.ios, a.m.ioDisp, a.m.start, a.m.end, a.first, a.last, slack)
  }

  lemma RenewSound(c: Clock, a: Account, now: nat)
    requires c.Runs() && a.m.Limited() && Sound(c, a) && a.last <= now
    ensures
      var m := Renew(c, a.m, now);
      Sound(c, a.(m := m, last := now)) && m.end >= now + c.slice && m.start <= now
  {
    hide Covered;
    var slack := c.slice * a.rewrites;
    assert a.m.start <= a.last by { CoveredTimes(c, a); }
    if SliceUsed(a.m, now) {
      Renews(c, a.m.bps, a.bytes, a.m.bytesDisp, a.m.start, a.m.end, a.first, a.last, now, slack);
      Renews(c, a.m.iops, a.ios, a.m.ioDisp, a.m.start, a.m.end, a.first, a.last, now, slack);
    } else {
      EndMoves(c, a, Renew(c, a.m, now).end, now);
    }
  }

  lemma CoveredTimes(c: Clock, a: Account)
    requires Sound(c, a)
    ensures a.first <= a.m.start <= a.last && a.m.start <= a.m.end
  {
  }

  lemma EndMoves(c: Clock, a: Account, end: nat, now: nat)
    requires Sound(c, a) && a.m.end <= end && a.last <= now
    ensures Sound(c, a.(m := a.m.(end := end), last := now))
  {
    hide Covered;
    var slack := c.slice * a.rewrites;
    Waits(c, a.m.bps, a.bytes, a.m.bytesDisp, a.m.start, a.m.end, end, a.first, a.last, now, slack);
    Waits(c, a.m.iops, a.ios, a.m.ioDisp, a.m.start, a.m.end, end, a.first, a.last, now, slack);
  }

  lemma CheckSound(c: Clock, a: Account, size: nat, now: nat)
    requires c.Runs() && a.m.Limited() && !a.m.NoRule() && Sound(c, a) && a.last <= now
    ensures Sound(c, a.(m := MayDispatch(c, a.m, size, now).m, last := now))
  {
    hide Sound;
    RenewSound(c, a, now);
    var v := MayDispatch(c, a.m, size, now);
    var a1 := a.(m := Renew(c, a.m, now), last := now);
    if !v.ok && a1.m.end < now + v.wait {
      EndMoves(c, a1, v.m.end, now);
    }
  }

  /** A meter the check has passed: what is charged fits both limits. */
  lemma AllowedAmounts(c: Clock, m: Meter, size: nat, now: nat)
    requires c.Runs() && m.Limited() && !m.NoRule()
    requires MayDispatch(c, m, size, now).ok
    ensures
      var m1 := Renew(c, m, now);
      && MayDispatch(c, m, size, now).m == m1
      && m1.start <= now
      && m1.bytesDisp + size <= m1.bps * RoundedElapsed(c, m1, now) / c.hz
      && m1.ioDisp + 1 <= m1.iops * RoundedElapsed(c, m1, now) / c.hz
  {
    hide BpsWait, IopsWait, RoundedElapsed;
  }

  lemma ChargeSound(c: Clock, a: Account, size: nat)
    requires c.Runs() && a.m.Limited() && Sound(c, a) && a.m.start <= a.last && a.last + c.slice <= a.m.end
    requires a.m.bytesDisp + size <= a.m.bps * RoundedElapsed(c, a.m, a.last) / c.hz
    requires a.m.ioDisp + 1 <= a.m.iops * RoundedElapsed(c, a.m, a.last) / c.hz
    ensures Sound(c, a.(m := Charge(a.m, size), bytes := a.bytes + size, ios := a.ios + 1))
  {
    hide Covered;
    var slack := c.slice * a.rewrites;
    var rnd := RoundedElapsed(c, a.m, a.last);
    Charges(c, a.m.bps, a.bytes, a.m.bytesDisp, size, a.m.start, a.m.end, a.first, a.last, rnd, slack);
    Charges(c, a.m.iops, a.ios, a.m.ioDisp, 1, a.m.start, a.m.end, a.first, a.last, rnd, slack);
  }

  /** What a trim does, in terms of the time k it takes off the front of the slice. */
  lemma TrimForm(c: Clock, m: Meter, now: nat) returns (k: nat)
    requires c.Runs() && !SliceUsed(m, now)
    ensures m.start + k <= now
    ensures
      var m' := TrimSlice(c, m, now);
      var bytesTrim, ioTrim := m.bps * k / c.hz, m.iops * k / c.hz;
      && now + c.slice <= m'.end
      && m' == m.(bytesDisp := if m.bytesDisp >= bytesTrim then m.bytesDisp - bytesTrim else 0,
                  ioDisp := if m.ioDisp >= ioTrim then m.ioDisp - ioTrim else 0,
                  start := m.start + k, end := m'.end)
  {
    hide RoundUp;
    var n := (now - m.start) / c.slice;
    Floor(now - m.start, c.slice);
    var whole := c.slice * n;
    assert n * c.slice == whole;
    var bytesTrim, ioTrim := m.bps * whole / c.hz, m.iops * whole / c.hz;
    if n == 0 || (bytesTrim == 0 && ioTrim == 0) {
      k := 0;
      NothingTrimmed(m.bps, c.hz);
      NothingTrimmed(m.iops, c.hz);
    } else {
      k := whole;
    }
  }

  lemma NothingTrimmed(rate: nat, hz: nat)
    requires hz > 0
    ensures rate * 0 / hz == 0
  {
  }

  lemma TrimSound(c: Clock, a: Account, now: nat)
    requires c.Runs() && Sound(c, a) && a.last <= now
    ensures Sound(c, a.(m := TrimSlice(c, a.m, now), last := now))
  {
    hide Covered;
    var slack := c.slice * a.rewrites;
    if SliceUsed(a.m, now) {
      EndMoves(c, a, a.m.end, now);
    } else {
      var k := TrimForm(c, a.m, now);
      hide TrimSlice;
      var end' := TrimSlice(c, a.m, now).end;
      Trims(c, a.m.bps, a.bytes, a.m.bytesDisp, a.m.start, a.m.end, end', k, a.first, a.last, now, slack);
      Trims(c, a.m.iops, a.ios, a.m.ioDisp, a.m.start, a.m.end, end', k, a.first, a.last, now, slack);
    }
  }

  lemma RewriteSound(c: Clock, a: Account, now: nat)
    requires Sound(c, a) && a.last <= now
    ensures Sound(c, a.(m := StartSlice(c, a.m, now), last := now, rewrites := a.rewrites + 1))
  {
    hide Covered;
    var slack := c.slice * a.rewrites;
    assert c.slice * (a.rewrites + 1) == slack + c.slice;
    Rewrites(c, a.m.bps, a.bytes, a.m.bytesDisp, a.m.start, a.m.end, a.first, a.last, now, slack);
    Rewrites(c, a.m.iops, a.ios, a.m.ioDisp, a.m.start, a.m.end, a.first, a.last, now, slack);
  }

  lemma StepSound(c: Clock, a: Account, op: Op)
    requires c.Runs() && a.m.Limited() && !a.m.NoRule() && Sound(c, a) && InOrder(a, op)
    ensures Sound(c, Step(c, a, op))
  {
    hide Sound;
    match op
    case Check(size, now) =>
      CheckSound(c, a, size, now);
    case Attempt(size, now, later) =>
      var v := MayDispatch(c, a.m, size, now);
      CheckSound(c, a, size, now);
      var a1 := a.(m := v.m, last := now);
      if v.ok {
        RenewSound(c, a, now);
        AllowedAmounts(c, a.m, size, now);
        ChargeSound(c, a1, size);
        TrimSound(c, a1.(m := Charge(a1.m, size), bytes := a.bytes + size, ios := a.ios + 1), later);
      } else {
        EndMoves(c, a1, a1.m.end, later);
      }
    case Rewrite(now) =>
      RewriteSound(c, a, now);
  }

  lemma LimitsStay(c: Clock, a: Account, op: Op)
    requires c.Runs() && a.m.Limited()
    ensures Step(c, a, op).m.bps == a.m.bps && Step(c, a, op).m.iops == a.m.iops
    ensures Step(c, a, op).first == a.first
  {
  }

  lemma {:induction false} RunSound(c: Clock, a: Account, ops: seq<Op>)
    requires c.Runs() && a.m.Limited() && !a.m.NoRule() && Sound(c, a) && Runnable(c, a, ops)
    ensures
      var a' := Run(c, a, ops);
      Sound(c, a') && a'.m.bps == a.m.bps && a'.m.iops == a.m.iops && a'.first == a.first
    decreases ops
  {
    hide Sound, Step, InOrder;
    if ops != [] {
      StepSound(c, a, ops[0]);
      LimitsStay(c, a, ops[0]);
      RunSound(c, Step(c, a, ops[0]), ops[1..]);
    }
  }

  lemma OpenedSound(c: Clock, m: Meter, first: nat)
    ensures Sound(c, Opened(c, m, first))
  {
  }

  lemma SoundBound(c: Clock, a: Account)
    requires Sound(c, a)
    ensures
      && a.last >= a.first
      && a.bytes * c.hz <= a.m.bps * (a.last - a.first + c.slice * (1 + a.rewrites))
      && a.ios * c.hz <= a.m.iops * (a.last - a.first + c.slice * (1 + a.rewrites))
  {
    OneMoreSlice(c.slice, a.rewrites);
    var t := a.last - a.first + c.slice * (1 + a.rewrites);
    assert t == a.last + c.slice - a.first + c.slice * a.rewrites;
  }

  lemma OneMoreSlice(slice: nat, n: nat)
    ensures slice * (1 + n) == slice + slice * n
  {
  }

  /** The rate bound. From its first slice on, through every run of checks, dispatches, trims,
      extensions and renewals, a direction lets through no more than its limits allow for the
      time elapsed plus one slice, and one slice more for every rewrite of the limits. */
  lemma RateBound(c: Clock, m: Meter, first: nat, ops: seq<Op>)
    requires c.Runs() && m.Limited() && !m.NoRule()
    requires Runnable(c, Opened(c, m, first), ops)
    ensures
      var a := Run(c, Opened(c, m, first), ops);
      && a.last >= first
      && a.bytes * c.hz <= m.bps * (a.last - first + c.slice * (1 + a.rewrites))
      && a.ios * c.hz <= m.iops * (a.last - first + c.slice * (1 + a.rewrites))
  {
    hide Sound, Run, Runnable;
    OpenedSound(c, m, first);
    RunSound(c, Opened(c, m, first), ops);
    SoundBound(c, Run(c, Opened(c, m, first), ops));
  }

  /** The slack is real: rewriting the limits, even to the same values, lets a direction send two
      slices' worth of data without any time passing. */
  lemma RewriteCostsASlice(c: Clock) returns (m: Meter, ops: seq<Op>)
    requires c.Runs()
    ensures m.Limited() && !m.NoRule() && Runnable(c, Opened(c, m, 0), ops)
    ensures
      var a := Run(c, Opened(c, m, 0), ops);
      a.rewrites == 1 && a.bytes * c.hz > m.bps * (a.last - a.first + c.slice)
  {
    m := Meter(c.hz, c.hz, 0, 0, 0, 0);
    var go := Attempt(c.slice, 0, 0);
    ops := [go, Rewrite(0), go];
    var a0 := Opened(c, m, 0);
    OneSliceFits(c, a0);
    var a1 := Step(c, a0, go);
    var a2 := a1.(m := StartSlice(c, a1.m, 0), last := 0, rewrites := 1);
    OneSliceFits(c, a2);
    ThreeSteps(c, a0, go, Rewrite(0), go, a1, a2, Step(c, a2, go));
    TwiceIsMore(c);
  }

  lemma TwiceIsMore(c: Clock)
    requires c.Runs()
    ensures (c.slice + c.slice) * c.hz > c.hz * (0 + c.slice)
  {
    assert (c.slice + c.slice) * c.hz == c.slice * c.hz + c.slice * c.hz;
    MulMono(c.hz, 1, c.slice);
  }

  lemma ThreeSteps(c: Clock, a0: Account, op1: Op, op2: Op, op3: Op, a1: Account, a2: Account, a3: Account)
    requires c.Runs() && a0.m.Limited() && a1.m.Limited() && a2.m.Limited() && a3.m.Limited()
    requires a1 == Step(c, a0, op1) && a2 == Step(c, a1, op2) && a3 == Step(c, a2, op3)
    requires InOrder(a0, op1) && InOrder(a1, op2) && InOrder(a2, op3)
    ensures Runnable(c, a0, [op1, op2, op3]) && Run(c, a0, [op1, op2, op3]) == a3
  {
    hide Step, InOrder, Run, Runnable;
    RunNil(c, a3);
    assert [op3] + [] == [op3] && [op2] + [op3] == [op2, op3] && [op1] + [op2, op3] == [op1, op2, op3];
    RunCons(c, a2, op3, []);
    RunCons(c, a1, op2, [op3]);
    RunCons(c, a0, op1, [op2, op3]);
  }

  lemma RunNil(c: Clock, a: Account)
    requires c.Runs() && a.m.Limited()
    ensures Runnable(c, a, []) && Run(c, a, []) == a
  {
  }

  lemma RunCons(c: Clock, a: Account, op: Op, ops: seq<Op>)
    requires c.Runs() && a.m.Limited() && InOrder(a, op) && Step(c, a, op).m.Limited()
    requires Runnable(c, Step(c, a, op), ops)
    ensures Runnable(c, a, [op] + ops) && Run(c, a, [op] + ops) == Run(c, Step(c, a, op), ops)
  {
    hide Step, InOrder;
    assert ([op] + ops)[1..] == ops;
  }

  lemma OneSliceFits(c: Clock, a: Account)
    requires c.Runs() && a.m == Meter(c.hz, c.hz, 0, 0, 0, c.slice)
    ensures
      var a' := Step(c, a, Attempt(c.slice, 0, 0));
      && a'.bytes == a.bytes + c.slice && a'.last == 0
      && a'.first == a.first && a'.rewrites == a.rewrites
      && a'.m.bps == c.hz && a'.m.iops == c.hz
  {
    hide BpsWait, IopsWait, TrimSlice;
    var m1 := Renew(c, a.m, 0);
    assert m1 == a.m;
    var rnd := RoundedElapsed(c, m1, 0);
    assert c.slice <= rnd by { RoundedIsPositive(c, m1); }
    MulMono(c.hz, c.slice, rnd);
    Quotient(c.hz * rnd, c.hz, c.slice);
    assert BpsWait(c, m1, c.slice, 0) == 0;
    assert IopsWait(c, m1, 0) == 0;
    TrimKeepsLimits(c, Charge(m1, c.slice), 0);
  }

  lemma RoundedIsPositive(c: Clock, m: Meter)
    requires c.Runs() && m.start == 0
    ensures c.slice <= RoundedElapsed(c, m, 0)
  {
  }

  lemma TrimKeepsLimits(c: Clock, m: Meter, now: nat)
    requires c.Runs()
    ensures TrimSlice(c, m, now).bps == m.bps && TrimSlice(c, m, now).iops == m.iops
  {
  }

  // ------------------------------------------------------------------
  // The computed waits are long enough

  lemma BpsWaitLength(c: Clock, m: Meter, size: nat, now: nat)
    requires c.Runs() && m.Limited() && m.start <= now && BpsWait(c, m, size, now) > 0
    ensures
      var rnd := RoundedElapsed(c, m, now);
      var extra := m.bytesDisp + size - m.bps * rnd / c.hz;
      extra > 0 && now + BpsWait(c, m, size, now) - m.start >= rnd + extra * c.hz / m.bps
  {
    hide RoundedElapsed;
  }

  /** A bio refused for its size is within the bps limit one jiffy after the computed wait, as
      long as the slice runs on and nothing else is charged to it. */
  lemma BpsWaitSuffices(c: Clock, m: Meter, size: nat, now: nat, later: nat)
    requires c.Runs() && m.Limited() && m.start <= now
    requires BpsWait(c, m, size, now) > 0 && later > now + BpsWait(c, m, size, now)
    ensures BpsWait(c, m, size, later) == 0
  {
    var rnd := RoundedElapsed(c, m, now);
    var rnd' := RoundedElapsed(c, m, later);
    var extra := m.bytesDisp + size - m.bps * rnd / c.hz;
    hide RoundedElapsed, BpsWait;
    BpsWaitLength(c, m, size, now);
    Reaches(m.bps, c.hz, rnd, rnd', extra);
  }

  /** Enough time for the part that was allowed and for the extra. */
  lemma Reaches(rate: nat, hz: nat, rnd: nat, rnd': nat, extra: nat)
    requires rate > 0 && hz > 0 && rnd' >= rnd + (extra * hz / rate + 1)
    ensures rate * rnd / hz + extra <= rate * rnd' / hz
  {
    var allowed, k := rate * rnd / hz, extra * hz / rate;
    Floor(rate * rnd, hz);
    Ceiling(extra * hz, rate);
    MulMono(rate, rnd + (k + 1), rnd');
    assert rate * (rnd + (k + 1)) == rate * rnd + rate * (k + 1);
    assert (allowed + extra) * hz == allowed * hz + extra * hz;
    Quotient(rate * rnd', hz, allowed + extra);
  }

  lemma Ceiling(n: nat, d: nat)
    requires d > 0
    ensures n < d * (n / d + 1)
  {
    assert n == d * (n / d) + n % d;
  }

  lemma Quotient(n: nat, hz: nat, q: nat)
    requires hz > 0 && q * hz <= n
    ensures q <= n / hz
  {
    Ceiling(n, hz);
    if n / hz + 1 <= q {
      MulMono(hz, n / hz + 1, q);
    }
  }

  lemma IopsWaitLength(c: Clock, m: Meter, now: nat)
    requires c.Runs() && m.Limited() && m.start <= now && IopsWait(c, m, now) > 0
    ensures now + IopsWait(c, m, now) - m.start >= (m.ioDisp + 1) * c.hz / m.iops + 1
  {
    hide RoundedElapsed;
  }

  /** A bio refused for the number of requests is within the iops limit after the computed wait. */
  lemma IopsWaitSuffices(c: Clock, m: Meter, now: nat, later: nat)
    requires c.Runs() && m.Limited() && m.start <= now && m.ioDisp + 1 <= UINT_MAX
    requires IopsWait(c, m, now) > 0 && later >= now + IopsWait(c, m, now)
    ensures IopsWait(c, m, later) == 0
  {
    var n := m.ioDisp + 1;
    var rnd' := RoundedElapsed(c, m, later);
    var k := n * c.hz / m.iops;
    hide RoundedElapsed, IopsWait;
    IopsWaitLength(c, m, now);
    Ceiling(n * c.hz, m.iops);
    MulMono(m.iops, k + 1, rnd');
    Quotient(m.iops * rnd', c.hz, n);
  }
}

/** What trimming a slice costs the direction, which is next to nothing, and how long a refusal
    stands. */
module ThrottleTrim {
  import opened ThrottleSlice
  import Rate = ThrottleRate

  /** What a rate per second allows in a time. */
  function Share(rate: nat, time: nat, hz: nat): nat
    requires hz > 0
  {
    rate * time / hz
  }

  /** What the elapsed time, as the checks round it, allows. */
  function Allowed(c: Clock, m: Meter, rate: nat, at: nat): nat
    requires c.Runs() && m.start <= at
  {
    Share(rate, RoundedElapsed(c, m, at), c.hz)
  }

  /** What whole elapsed slices allowed. */
  function Elapsed(c: Clock, m: Meter, now: nat): nat
    requires c.Runs() && m.start <= now
  {
    c.slice * ((now - m.start) / c.slice)
  }

  lemma DivShift(a: nat, n: nat, s: nat)
    requires s > 0 && a >= n * s
    ensures (a - n * s) / s == a / s - n
  {
    var b := a - n * s;
    var q, r := b / s, b % s;
    assert b == s * q + r;
    Distribute(s, q, n);
    Unique(a, s, q + n, r);
  }

  lemma Distribute(s: nat, q: nat, n: nat)
    ensures s * (q + n) == s * q + n * s
  {
  }

  lemma Unique(a: nat, s: nat, q: nat, r: nat)
    requires s > 0 && a == s * q + r && r < s
    ensures a / s == q
  {
    assert a == s * (a / s) + a % s;
    var d := a / s - q;
    assert s * d == r - a % s;
    if d >= 1 {
      Times(s, 1, d);
    } else if d <= -1 {
      Times(s, d, -1);
    }
  }

  lemma Times(s: nat, x: int, y: int)
    requires x <= y
    ensures s * x <= s * y
  {
  }

  /** Rounding up commutes with taking whole slices off. */
  lemma RoundUpShift(x: nat, n: nat, s: nat)
    requires s > 0 && x >= n * s
    ensures RoundUp(x - n * s, s) == RoundUp(x, s) - n * s
  {
    var a := x + s - 1;
    DivShift(a, n, s);
    assert a - n * s == x - n * s + s - 1;
    assert (a / s - n) * s == a / s * s - n * s;
  }

  /** A later start, by whole slices, takes no more than these off the rounded time. */
  lemma RoundedShift(c: Clock, m: Meter, m': Meter, n: nat, at: nat)
    requires c.Runs() && m'.start == m.start + n * c.slice <= at
    ensures RoundedElapsed(c, m', at) >= RoundedElapsed(c, m, at) - n * c.slice
  {
    hide RoundUp;
    var x := at - m.start;
    RoundUpShift(x, n, c.slice);
    if x == n * c.slice && n > 0 {
      NonNegative(n, c.slice);
      assert RoundedElapsed(c, m, at) == RoundUp(x, c.slice);
      RoundUpZero(c.slice);
    }
  }

  lemma RoundUpZero(s: nat)
    requires s > 0
    ensures RoundUp(0, s) == 0
  {
    Unique(s - 1, s, 0, s - 1);
  }

  lemma NonNegative(n: nat, s: nat)
    requires n > 0 && s > 0
    ensures n * s > 0
  {
  }

  /** Splitting a time into two costs at most one unit by rounding down twice. */
  lemma FloorSplit(rate: nat, t: nat, r: nat, r': nat, hz: nat)
    requires hz > 0 && r <= t + r'
    ensures Share(rate, r, hz) <= Share(rate, t, hz) + Share(rate, r', hz) + 1
  {
    var x, y, z := rate * r, rate * t, rate * r';
    Times(rate, r, t + r');
    assert rate * (t + r') == y + z;
    assert y == hz * (y / hz) + y % hz && z == hz * (z / hz) + z % hz && x == hz * (x / hz) + x % hz;
    var d := x / hz - (y / hz + z / hz + 1);
    assert hz * d == hz * (x / hz) - hz * (y / hz) - hz * (z / hz) - hz;
    if d >= 1 {
      Times(hz, 1, d);
    }
  }

  /** What a trim does to the meter: nothing, or it starts later by the whole slices elapsed. */
  lemma TrimShape(c: Clock, m: Meter, now: nat)
    requires c.Runs() && !SliceUsed(m, now)
    ensures
      var t, n, whole := TrimSlice(c, m, now), (now - m.start) / c.slice, Elapsed(c, m, now);
      || (t.start == m.start && t.bytesDisp == m.bytesDisp && t.ioDisp == m.ioDisp)
      || (&& t.start == m.start + n * c.slice <= now && whole == n * c.slice
          && t.bytesDisp == Less(m.bytesDisp, Share(m.bps, whole, c.hz))
          && t.ioDisp == Less(m.ioDisp, Share(m.iops, whole, c.hz)))
  {
    hide RoundUp;
    var n := (now - m.start) / c.slice;
    WholeSlices(now - m.start, c.slice);
    var whole := c.slice * n;
    var bytesTrim, ioTrim := m.bps * whole / c.hz, m.iops * whole / c.hz;
    if n == 0 || (bytesTrim == 0 && ioTrim == 0) {
      assert TrimSlice(c, m, now).start == m.start;
    } else {
      assert TrimSlice(c, m, now).start == m.start + n * c.slice;
    }
  }

  lemma WholeSlices(x: nat, s: nat)
    requires s > 0
    ensures s * (x / s) == x / s * s <= x
  {
    assert x == s * (x / s) + x % s;
  }

  function Less(a: nat, b: nat): nat {
    if a >= b then a - b else 0
  }

  /** A direction that has used what the trimmed slices allowed may send, at any later time of the
      slice, at most one byte and one request less than without the trim. What it has not used of
      them is gone. */
  lemma TrimCostsOne(c: Clock, m: Meter, now: nat, at: nat)
    requires c.Runs() && !SliceUsed(m, now) && now <= at
    ensures
      var t := TrimSlice(c, m, now);
      && m.start <= t.start <= now
      && (m.bytesDisp >= Share(m.bps, Elapsed(c, m, now), c.hz) ==>
            Allowed(c, t, m.bps, at) + m.bytesDisp + 1 >= Allowed(c, m, m.bps, at) + t.bytesDisp)
      && (m.ioDisp >= Share(m.iops, Elapsed(c, m, now), c.hz) ==>
            Allowed(c, t, m.iops, at) + m.ioDisp + 1 >= Allowed(c, m, m.iops, at) + t.ioDisp)
      && t.bytesDisp <= m.bytesDisp && t.ioDisp <= m.ioDisp
  {
    hide RoundedElapsed, TrimSlice, Elapsed, Share;
    var t := TrimSlice(c, m, now);
    var n := (now - m.start) / c.slice;
    TrimShape(c, m, now);
    if t.start == m.start {
      SameRounded(c, m, t, at);
    } else {
      RoundedShift(c, m, t, n, at);
      var r, r' := RoundedElapsed(c, m, at), RoundedElapsed(c, t, at);
      FloorSplit(m.bps, Elapsed(c, m, now), r, r', c.hz);
      FloorSplit(m.iops, Elapsed(c, m, now), r, r', c.hz);
    }
  }

  lemma SameRounded(c: Clock, m: Meter, m': Meter, at: nat)
    requires c.Runs() && m'.start == m.start <= at
    ensures RoundedElapsed(c, m', at) == RoundedElapsed(c, m, at)
  {
  }

  // ------------------------------------------------------------------
  // Refusals

  lemma OneMultiple(s: nat, a: nat, b: nat, x: nat)
    requires s > 0 && x <= a * s < x + s && x <= b * s < x + s
    ensures a == b
  {
    var d := a - b;
    assert s * d == a * s - b * s;
    if d >= 1 {
      Times(s, 1, d);
    } else if d <= -1 {
      Times(s, d, -1);
    }
  }

  /** The checks round the elapsed time up to the same slice until it is over. */
  lemma SameSlice(c: Clock, m: Meter, now: nat, at: nat)
    requires c.Runs() && m.start <= now <= at <= m.start + RoundedElapsed(c, m, now)
    ensures RoundedElapsed(c, m, at) == RoundedElapsed(c, m, now)
  {
    var x, y := now - m.start, at - m.start;
    var r, r' := if x == 0 then c.slice else x, if y == 0 then c.slice else y;
    OneMultiple(c.slice, (r + c.slice - 1) / c.slice, (r' + c.slice - 1) / c.slice, r');
  }

  /** A bio refused for its bytes stays refused until the slice in which it was is over, so the wait
      reaches at least that far; BpsWaitSuffices bounds it from the other side. */
  lemma BpsRefusedMeanwhile(c: Clock, m: Meter, size: nat, now: nat, at: nat)
    requires c.Runs() && m.Limited() && m.start <= now <= at <= m.start + RoundedElapsed(c, m, now)
    requires BpsWait(c, m, size, now) > 0
    ensures BpsWait(c, m, size, at) > 0
    ensures now + BpsWait(c, m, size, now) >= m.start + RoundedElapsed(c, m, now)
  {
    hide RoundedElapsed, BpsWait;
    SameSlice(c, m, now, at);
    Rate.BpsWaitLength(c, m, size, now);
    NonNegativeShare(m.bytesDisp + size - m.bps * RoundedElapsed(c, m, now) / c.hz, c.hz, m.bps);
  }

  lemma NonNegativeShare(extra: nat, hz: nat, rate: nat)
    requires rate > 0
    ensures extra * hz / rate >= 0
  {
  }

  /** The same for one refused for the number of requests, which then waits at least one jiffy. */
  lemma IopsRefusedMeanwhile(c: Clock, m: Meter, now: nat, at: nat)
    requires c.Runs() && m.Limited() && m.start <= now <= at <= m.start + RoundedElapsed(c, m, now)
    requires IopsWait(c, m, now) > 0
    ensures IopsWait(c, m, at) > 0
  {
    hide RoundedElapsed, IopsWait;
    SameSlice(c, m, now, at);
  }

  /** The wait for bytes is at most one slice, and the time of one byte, longer than it has to be: before
      that the bio is refused, if nothing else happens. */
  lemma BpsWaitTight(c: Clock, m: Meter, size: nat, now: nat, at: nat, byte: nat)
    requires c.Runs() && m.Limited() && m.start <= now <= at && BpsWait(c, m, size, now) > 0
    requires m.bps * byte >= c.hz && at + c.slice + byte <= now + BpsWait(c, m, size, now)
    ensures BpsWait(c, m, size, at) > 0
  {
    var rnd, rnd' := RoundedElapsed(c, m, now), RoundedElapsed(c, m, at);
    var allowed := m.bps * rnd / c.hz;
    var extra := m.bytesDisp + size - allowed;
    var w := extra * c.hz / m.bps;
    hide RoundedElapsed;
    if w == 0 {
      AtLeastOne(m.bps, byte);
      BpsRefusedMeanwhile(c, m, size, now, at);
    } else {
      TooSoon(m.bps, c.hz, rnd, rnd', extra, w, byte);
    }
  }

  lemma AtLeastOne(rate: nat, unit: nat)
    requires rate * unit > 0
    ensures unit >= 1
  {
    assert unit == 0 ==> rate * unit == 0;
  }

  /** Not enough time for the part that was allowed and for the extra. */
  lemma TooSoon(rate: nat, hz: nat, rnd: nat, rnd': nat, extra: nat, w: nat, unit: nat)
    requires rate > 0 && hz > 0 && w == extra * hz / rate && rnd' + unit <= rnd + w && rate * unit >= hz
    ensures rate * rnd' / hz < rate * rnd / hz + extra
  {
    var allowed := rate * rnd / hz;
    Times(rate, rnd' + unit, rnd + w);
    Spread(rate, rnd', unit);
    Spread(rate, rnd, w);
    Divided(rate * rnd, hz, allowed);
    Divided(extra * hz, rate, w);
    Spread(hz, allowed, extra);
    Below(rate * rnd', hz, allowed + extra);
  }

  lemma Spread(k: nat, a: nat, b: nat)
    ensures k * (a + b) == k * a + k * b && k * b == b * k
  {
  }

  lemma Divided(x: nat, d: nat, q: nat)
    requires d > 0 && q == x / d
    ensures d * q <= x < d * q + d
  {
  }

  lemma Below(x: nat, hz: nat, q: nat)
    requires hz > 0 && x < hz * q
    ensures x / hz < q
  {
    assert x == hz * (x / hz) + x % hz;
    if x / hz >= q {
      Times(hz, q, x / hz);
    }
  }

  /** And the wait for the number of requests is at most one slice longer than it has to be. */
  lemma IopsWaitTight(c: Clock, m: Meter, now: nat, at: nat)
    requires c.Runs() && m.Limited() && m.start <= now <= at && IopsWait(c, m, now) > 0
    requires at + c.slice < now + IopsWait(c, m, now)
    ensures IopsWait(c, m, at) > 0
  {
    hide RoundUp;
    if at > now {
      var rnd := RoundedElapsed(c, m, at);
      var k := (m.ioDisp + 1) * c.hz / m.iops;
      assert rnd < k;
      TooFew(m.iops, c.hz, rnd, m.ioDisp + 1, k);
    }
  }

  lemma TooFew(rate: nat, hz: nat, rnd: nat, n: nat, k: nat)
    requires rate > 0 && hz > 0 && k == n * hz / rate && rnd < k
    ensures rate * rnd / hz < n
  {
    Divided(n * hz, rate, k);
    Times(rate, rnd + 1, k);
    Spread(rate, rnd, 1);
    Spread(hz, 0, n);
    Below(rate * rnd, hz, n);
  }

  // ------------------------------------------------------------------
  // What a check and a dispatch leave

  /** The slice a check leaves has started and lasts for a slice from now, and for the wait, if there is one;
      it is extended by no more than that and what rounding up to whole slices adds. */
  lemma SliceReaches(c: Clock, m: Meter, size: nat, now: nat)
    requires c.Runs() && m.Limited() && !m.NoRule()
    ensures
      var v := MayDispatch(c, m, size, now);
      && v.m.start <= now && now + c.slice <= v.m.end && now + v.wait <= v.m.end
      && (|| v.m.end == m.end || v.m.end < now + 2 * c.slice
          || (v.wait > c.slice && v.m.end < now + v.wait + c.slice))
      && (v.m.end == m.end || v.m.end == now + c.slice || exists k: nat :: v.m.end == k * c.slice)
  {
    hide BpsWait, IopsWait, RoundUp;
    var v := MayDispatch(c, m, size, now);
    var j := RoundUpMultiple(now + c.slice, c.slice);
    var k := RoundUpMultiple(now + v.wait, c.slice);
  }

  lemma TrimEnd(c: Clock, m: Meter, now: nat)
    requires c.Runs() && !SliceUsed(m, now)
    ensures TrimSlice(c, m, now).end == RoundUp(now + c.slice, c.slice)
  {
    hide RoundUp;
  }

  /** What a dispatched bio leaves in the books: its bytes and one request on top of what the slice had,
      nothing for a fresh one, less what was allowed for the whole slices that the trim gave back. */
  lemma DispatchLedger(c: Clock, m: Meter, size: nat, now: nat)
    requires c.Runs() && m.Limited() && !m.NoRule() && MayDispatch(c, m, size, now).ok
    ensures
      var over := now < m.start || m.end < now;
      var start, bytes, ios := if over then now else m.start, if over then 0 else m.bytesDisp,
                               if over then 0 else m.ioDisp;
      var t := TrimSlice(c, Charge(MayDispatch(c, m, size, now).m, size), now);
      && start <= t.start <= now && t.end == RoundUp(now + c.slice, c.slice)
      && t.bytesDisp == Less(bytes + size, Share(m.bps, t.start - start, c.hz))
      && t.ioDisp == Less(ios + 1, Share(m.iops, t.start - start, c.hz))
  {
    hide BpsWait, IopsWait, TrimSlice, RoundUp;
    var m1 := Charge(MayDispatch(c, m, size, now).m, size);
    var k := Rate.TrimForm(c, m1, now);
    TrimEnd(c, m1, now);
  }
}

/**
 The token bucket of block/blk-throttle.c for one direction of one group: slices that are
 started, extended, trimmed and renewed, and the two limits they meter.

 Jiffies and byte counts are unbounded; the 64-bit products of the C code are assumed not to
 wrap.
 */
module ThrottleSlice {

  const UINT_MAX: nat := 0xFFFF_FFFF
  const UNLIMITED_IOPS: nat := 0xFFFF_FFFF
  const UNLIMITED_BPS: nat := 0xFFFF_FFFF_FFFF_FFFF

  /** HZ and throtl_slice. */
  datatype Clock = Clock(hz: nat, slice: nat) {
    predicate Runs() {
      hz > 0 && slice > 0
    }
  }

  /** The fields of struct throtl_grp that belong to one direction. */
  datatype Meter = Meter(bps: nat, iops: nat, bytesDisp: nat, ioDisp: nat, start: nat, end: nat) {
    /** The cgroup code never stores a zero limit. */
    predicate Limited() {
      bps > 0 && iops > 0
    }

    predicate NoRule() {
      bps == UNLIMITED_BPS && iops == UNLIMITED_IOPS
    }
  }

  /** roundup(): the least multiple of y that is not below x. */
  function RoundUp(x: nat, y: nat): (r: nat)
    requires y > 0
    ensures x <= r < x + y
  {
    assert x + y - 1 == y * ((x + y - 1) / y) + (x + y - 1) % y;
    ((x + y - 1) / y) * y
  }

  lemma RoundUpMultiple(x: nat, y: nat) returns (k: nat)
    requires y > 0
    ensures RoundUp(x, y) == k * y
  {
    k := (x + y - 1) / y;
  }

  /** throtl_slice_used. */
  predicate SliceUsed(m: Meter, now: nat) {
    !(m.start <= now <= m.end)
  }

  /** throtl_start_new_slice. */
  function StartSlice(c: Clock, m: Meter, now: nat): Meter {
    m.(bytesDisp := 0, ioDisp := 0, start := now, end := now + c.slice)
  }

  /** throtl_extend_slice and throtl_set_slice_end. */
  function SetSliceEnd(c: Clock, m: Meter, end: nat): Meter
    requires c.Runs()
  {
    m.(end := RoundUp(end, c.slice))
  }

  /** throtl_trim_slice: give back what whole elapsed slices allowed. */
  function TrimSlice(c: Clock, m: Meter, now: nat): Meter
    requires c.Runs()
  {
    if SliceUsed(m, now) then m
    else
      var m1 := SetSliceEnd(c, m, now + c.slice);
      var n := (now - m.start) / c.slice;
      var bytesTrim := m.bps * (c.slice * n) / c.hz;
      var ioTrim := m.iops * (c.slice * n) / c.hz;
      if n == 0 || (bytesTrim == 0 && ioTrim == 0) then m1
      else
        m1.(bytesDisp := if m.bytesDisp >= bytesTrim then m.bytesDisp - bytesTrim else 0,
            ioDisp := if m.ioDisp >= ioTrim then m.ioDisp - ioTrim else 0,
            start := m.start + n * c.slice)
  }

  /** Elapsed time as the limit checks round it: whole slices, and at least one. */
  function RoundedElapsed(c: Clock, m: Meter, now: nat): (r: nat)
    requires c.Runs() && m.start <= now
    ensures now - m.start <= r <= now - m.start + c.slice
  {
    var elapsed := now - m.start;
    RoundUp(if elapsed == 0 then c.slice else elapsed, c.slice)
  }

  /** tg_with_in_bps_limit: zero, or how long to wait. */
  function BpsWait(c: Clock, m: Meter, size: nat, now: nat): (wait: nat)
    requires c.Runs() && m.Limited() && m.start <= now
    ensures wait == 0 <==> m.bytesDisp + size <= m.bps * RoundedElapsed(c, m, now) / c.hz
  {
    var rnd := RoundedElapsed(c, m, now);
    var allowed := m.bps * rnd / c.hz;
    if m.bytesDisp + size <= allowed then 0
    else
      var extra := m.bytesDisp + size - allowed;
      var wait := extra * c.hz / m.bps;
      (if wait == 0 then 1 else wait) + (rnd - (now - m.start))
  }

  /** tg_with_in_iops_limit: zero, or how long to wait. */
  function IopsWait(c: Clock, m: Meter, now: nat): (wait: nat)
    requires c.Runs() && m.Limited() && m.start <= now
    ensures wait == 0 <==> m.ioDisp + 1 <= UINT_MAX && m.ioDisp + 1 <= m.iops * RoundedElapsed(c, m, now) / c.hz
  {
    var elapsed := now - m.start;
    var rnd := RoundedElapsed(c, m, now);
    var tmp := m.iops * rnd / c.hz;
    var allowed := if tmp > UINT_MAX then UINT_MAX else tmp;
    if m.ioDisp + 1 <= allowed then 0
    else
      var wait := (m.ioDisp + 1) * c.hz / m.iops + 1;
      if wait > elapsed then wait - elapsed else 1
  }

  datatype Verdict = Verdict(ok: bool, wait: nat, m: Meter)

  /** The slice a check works in: a fresh one if the last has run out, else the current one,
      made to reach at least one slice beyond now. */
  function Renew(c: Clock, m: Meter, now: nat): (r: Meter)
    requires c.Runs()
  {
    if SliceUsed(m, now) then StartSlice(c, m, now)
    else if m.end < now + c.slice then SetSliceEnd(c, m, now + c.slice)
    else m
  }

  /** tg_may_dispatch. The iops limit is only looked at when the bps limit is met. */
  function MayDispatch(c: Clock, m: Meter, size: nat, now: nat): Verdict
    requires c.Runs() && m.Limited()
  {
    if m.NoRule() then Verdict(true, 0, m)
    else
      var m1 := Renew(c, m, now);
      var bpsWait := BpsWait(c, m1, size, now);
      var iopsWait := if bpsWait == 0 then IopsWait(c, m1, now) else 0;
      var wait := if bpsWait > iopsWait then bpsWait else iopsWait;
      if wait == 0 then Verdict(true, 0, m1)
      else Verdict(false, wait, if m1.end < now + wait then SetSliceEnd(c, m1, now + wait) else m1)
  }

  /** throtl_charge_bio. */
  function Charge(m: Meter, size: nat): Meter {
    m.(bytesDisp := m.bytesDisp + size, ioDisp := m.ioDisp + 1)
  }

  // ------------------------------------------------------------------
  // Runs of one direction

  /** What happens to a meter: a check alone (tg_update_disptime), an attempt to dispatch, which
      charges and trims if the check allows it, or a restart after the limits were rewritten. */
  datatype Op =
    | Check(size: nat, now: nat)
    | Attempt(size: nat, now: nat, later: nat)
    | Rewrite(now: nat)

  /** A meter with its history: totals, time of the first slice, time of the last operation, and
      how often the limits were rewritten. */
  datatype Account = Account(m: Meter, bytes: nat, ios: nat, first: nat, last: nat, rewrites: nat)

  predicate InOrder(a: Account, op: Op) {
    match op
    case Check(_, now) => a.last <= now
    case Attempt(_, now, later) => a.last <= now <= later
    case Rewrite(now) => a.last <= now
  }

  function Step(c: Clock, a: Account, op: Op): Account
    requires c.Runs() && a.m.Limited()
  {
    match op
    case Check(size, now) => a.(m := MayDispatch(c, a.m, size, now).m, last := now)
    case Attempt(size, now, later) =>
      var v := MayDispatch(c, a.m, size, now);
      if v.ok then
        a.(m := TrimSlice(c, Charge(v.m, size), later), bytes := a.bytes + size, ios := a.ios + 1, last := later)
      else a.(m := v.m, last := later)
    case Rewrite(now) => a.(m := StartSlice(c, a.m, now), last := now, rewrites := a.rewrites + 1)
  }

  /** A run in time order. */
  predicate Runnable(c: Clock, a: Account, ops: seq<Op>)
    requires c.Runs() && a.m.Limited()
    decreases ops
  {
    ops == [] || (InOrder(a, ops[0]) && Runnable(c, Step(c, a, ops[0]), ops[1..]))
  }

  function Run(c: Clock, a: Account, ops: seq<Op>): Account
    requires c.Runs() && a.m.Limited()
    decreases ops
  {
    if ops == [] then a else Run(c, Step(c, a, ops[0]), ops[1..])
  }

  /** A direction whose first slice starts now. */
  function Opened(c: Clock, m: Meter, now: nat): Account {
    Account(StartSlice(c, m, now), 0, 0, now, now, 0)
  }
}

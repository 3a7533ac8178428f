// internal/metrics: CPU percentages from the difference of two samples, with
// percentages as exact reals.

module Metrics {
  import opened Common

  const TICKS_PER_SECOND: real := 100.0
  const NANOS_PER_SECOND: real := 1_000_000_000.0

  /** One successful Sample's raw counters; `at` in nanoseconds. */
  datatype RawSample = RawSample(at: int, hostIdle: nat, hostTotal: nat, pidTicks: map<MachineId, nat>)

  datatype MachinePid = MachinePid(id: MachineId, pid: Pid)

  /** What reading one process comes to: an error, gone, or its ticks. */
  datatype PidRead = PidError | Gone | Ticks(ticks: nat)

  /** What the readers return during one Sample; `othersOk`: memory, disk, load
      and uptime could be read. */
  datatype Reading = Reading(at: int, host: Option<(nat, nat)>, othersOk: bool, pids: map<Pid, PidRead>)

  datatype Snapshot = Snapshot(hostPct: real, cpuPct: map<MachineId, real>)

  // ----- the arithmetic --------------------------------------------------------------------

  function HostPercent(prevIdle: nat, prevTotal: nat, idle: nat, total: nat): real {
    if total <= prevTotal || idle < prevIdle then 0.0
    else if idle - prevIdle > total - prevTotal then 0.0
    else (1.0 - (idle - prevIdle) as real / (total - prevTotal) as real) * 100.0
  }

  /** Whatever the counters did, rolled over or not, the figure is a percentage. */
  lemma HostPercentIsAPercentage(prevIdle: nat, prevTotal: nat, idle: nat, total: nat)
    ensures 0.0 <= HostPercent(prevIdle, prevTotal, idle, total) <= 100.0
    ensures prevIdle <= idle && idle - prevIdle <= total - prevTotal && prevTotal < total ==>
              HostPercent(prevIdle, prevTotal, idle, total) * (total - prevTotal) as real
              == 100.0 * ((total - prevTotal) - (idle - prevIdle)) as real
  {
    if prevIdle <= idle && idle - prevIdle <= total - prevTotal && prevTotal < total {
      var i, t := (idle - prevIdle) as real, (total - prevTotal) as real;
      Share(i, t);
    }
  }

  lemma Share(i: real, t: real)
    requires 0.0 <= i <= t && 0.0 < t
    ensures 0.0 <= i / t <= 1.0 && (i / t) * t == i
  {
  }

  function Seconds(nanos: int): real {
    nanos as real / NANOS_PER_SECOND
  }

  function PidPercent(prevTicks: nat, ticks: nat, elapsed: int): real {
    if elapsed <= 0 || ticks < prevTicks then 0.0
    else (ticks - prevTicks) as real / TICKS_PER_SECOND / Seconds(elapsed) * 100.0
  }

  lemma PidPercentIsARate(prevTicks: nat, ticks: nat, elapsed: int)
    requires elapsed > 0 && prevTicks <= ticks
    ensures PidPercent(prevTicks, ticks, elapsed) * Seconds(elapsed) == (ticks - prevTicks) as real
  {
    var d, s := (ticks - prevTicks) as real, Seconds(elapsed);
    assert s > 0.0;
    Undo(d / TICKS_PER_SECOND, s);
  }

  lemma Undo(x: real, s: real)
    requires s > 0.0
    ensures (x / s * 100.0) * s == x * 100.0
  {
    assert x / s * s == x;
  }

  // ----- Sample ------------------------------------------------------------------------------

  /** pidCPU of every listed machine; None as soon as one read fails. */
  function TicksNow(machines: seq<MachinePid>, pids: map<Pid, PidRead>): Option<map<MachineId, nat>> {
    if machines == [] then Some(map[])
    else
      match TicksNow(machines[..|machines| - 1], pids)
      case None => None
      case Some(m) =>
        var last := machines[|machines| - 1];
        match ReadPid(pids, last.pid)
        case PidError => None
        case Gone => Some(m)
        case Ticks(t) => Some(m[last.id := t])
  }

  /** `ticks` are what some listed machine's read gave, for each that gave any. */
  ghost predicate AsRead(ticks: map<MachineId, nat>, machines: seq<MachinePid>, pids: map<Pid, PidRead>) {
    && (forall id | id in ticks :: exists m :: m in machines && m.id == id && ReadPid(pids, m.pid) == Ticks(ticks[id]))
    && (forall m | m in machines && ReadPid(pids, m.pid).Ticks? :: m.id in ticks)
  }

  lemma {:induction false} TicksAreRead(machines: seq<MachinePid>, pids: map<Pid, PidRead>)
    ensures match TicksNow(machines, pids)
            case None => exists m :: m in machines && ReadPid(pids, m.pid).PidError?
            case Some(ticks) => AsRead(ticks, machines, pids) && forall m | m in machines :: !ReadPid(pids, m.pid).PidError?
  {
    if machines != [] {
      var n := |machines| - 1;
      var front, last := machines[..n], machines[n];
      TicksAreRead(front, pids);
      assert machines == front + [last];
      if TicksNow(front, pids).None? {
        var m :| m in front && ReadPid(pids, m.pid).PidError?;
        assert m in machines;
      } else if TicksNow(machines, pids).Some? {
        var before, ticks := TicksNow(front, pids).value, TicksNow(machines, pids).value;
        forall id | id in ticks ensures exists m :: m in machines && m.id == id && ReadPid(pids, m.pid) == Ticks(ticks[id]) {
          if ReadPid(pids, last.pid).Ticks? && id == last.id {
            assert last in machines;
          } else {
            var m :| m in front && m.id == id && ReadPid(pids, m.pid) == Ticks(before[id]);
            assert m in machines;
          }
        }
      } else {
        assert last in machines;
      }
    }
  }

  function ReadPid(pids: map<Pid, PidRead>, pid: Pid): PidRead {
    if pid in pids then pids[pid] else Gone
  }

  function Listed(machines: seq<MachinePid>): set<MachineId> {
    set i | 0 <= i < |machines| :: machines[i].id
  }

  /** The raw sample a call records; None if any reader fails. */
  function Raw(machines: seq<MachinePid>, r: Reading): Option<RawSample> {
    if r.host.None? || !r.othersOk then None
    else
      match TicksNow(machines, r.pids)
      case None => None
      case Some(ticks) => Some(RawSample(r.at, r.host.value.0, r.host.value.1, ticks))
  }

  function CpuOf(prev: Option<RawSample>, now: RawSample, id: MachineId): real {
    if prev.Some? && id in prev.value.pidTicks && id in now.pidTicks
    then PidPercent(prev.value.pidTicks[id], now.pidTicks[id], now.at - prev.value.at)
    else 0.0
  }

  function HostOf(prev: Option<RawSample>, now: RawSample): real {
    if prev.Some? then HostPercent(prev.value.hostIdle, prev.value.hostTotal, now.hostIdle, now.hostTotal) else 0.0
  }

  /** Of the ticks between two samples, the busy share in percent; 0 if a counter fell. */
  predicate HostShare(was: RawSample, now: RawSample, pct: real) {
    if was.hostTotal < now.hostTotal && 0 <= now.hostIdle - was.hostIdle <= now.hostTotal - was.hostTotal
    then pct * (now.hostTotal - was.hostTotal) as real == 100.0 * (now.hostTotal - was.hostTotal - (now.hostIdle - was.hostIdle)) as real
    else pct == 0.0
  }

  /** A hundred ticks a second are 100 %; 0 unless both samples have the machine
      and neither its ticks nor the clock went back. */
  predicate CpuShare(was: RawSample, now: RawSample, id: MachineId, pct: real) {
    if was.at < now.at && id in was.pidTicks && id in now.pidTicks && was.pidTicks[id] <= now.pidTicks[id]
    then pct * (now.at - was.at) as real == (now.pidTicks[id] - was.pidTicks[id]) as real * 1_000_000_000.0
    else pct == 0.0
  }

  lemma HostOfIsTheShare(was: RawSample, now: RawSample)
    ensures HostShare(was, now, HostOf(Some(was), now))
  {
    HostPercentIsAPercentage(was.hostIdle, was.hostTotal, now.hostIdle, now.hostTotal);
  }

  lemma CpuOfIsTheShare(was: RawSample, now: RawSample, id: MachineId)
    ensures CpuShare(was, now, id, CpuOf(Some(was), now, id))
  {
    if was.at < now.at && id in was.pidTicks && id in now.pidTicks && was.pidTicks[id] <= now.pidTicks[id] {
      PidPercentIsARate(was.pidTicks[id], now.pidTicks[id], now.at - was.at);
      Rescale(CpuOf(Some(was), now, id), (now.at - was.at) as real);
    }
  }

  lemma Rescale(pct: real, nanos: real)
    ensures pct * (nanos / 1_000_000_000.0) * 1_000_000_000.0 == pct * nanos
  {
  }

  class Sampler {
    var prev: Option<RawSample>

    constructor ()
      ensures prev == None
    {
      prev := None;
    }

    /** A failed call keeps the previous sample; a successful one reports every
        listed machine and becomes the next call's reference. */
    method Sample(machines: seq<MachinePid>, r: Reading) returns (s: Option<Snapshot>)
      modifies this
      ensures s.None? <==> r.host.None? || !r.othersOk || exists m :: m in machines && ReadPid(r.pids, m.pid).PidError?
      ensures s.None? ==> prev == old(prev)
      ensures s.Some? ==>
                && prev.Some? && prev.value.at == r.at && (prev.value.hostIdle, prev.value.hostTotal) == r.host.value
                && AsRead(prev.value.pidTicks, machines, r.pids)
                && forall id :: id in s.value.cpuPct <==> exists m :: m in machines && m.id == id
      ensures s.Some? ==>
                && prev == Raw(machines, r)
                && s == Some(Snapshot(HostOf(old(prev), prev.value), map id | id in Listed(machines) :: CpuOf(old(prev), prev.value, id)))
      ensures s.Some? && old(prev).None? ==>
                s.value.hostPct == 0.0 && forall id | id in s.value.cpuPct :: s.value.cpuPct[id] == 0.0
      ensures s.Some? && old(prev).Some? ==>
                && HostShare(old(prev).value, prev.value, s.value.hostPct)
                && forall id | id in s.value.cpuPct :: CpuShare(old(prev).value, prev.value, id, s.value.cpuPct[id])
    {
      TicksAreRead(machines, r.pids);
      if r.host.None? || !r.othersOk {
        return None;
      }
      var read, metrics := ReadAll(machines, r.pids);
      if read.None? {
        return None;
      }
      var ticks := read.value;
      var now := RawSample(r.at, r.host.value.0, r.host.value.1, ticks);
      var host := 0.0;
      if prev.Some? {
        host := HostPercent(prev.value.hostIdle, prev.value.hostTotal, r.host.value.0, r.host.value.1);
        metrics := Diff(prev.value, now, metrics);
      }
      s := Some(Snapshot(host, metrics));
      if prev.Some? {
        HostOfIsTheShare(prev.value, now);
        forall id { CpuOfIsTheShare(prev.value, now, id); }
      }
      hide TicksNow, AsRead, HostShare, CpuShare;
      forall id ensures id in Listed(machines) <==> exists m :: m in machines && m.id == id { InListed(machines, id); }
      assert metrics == map id | id in Listed(machines) :: CpuOf(prev, now, id);
      prev := Some(now);
    }

    /** The loop over the machines: ticks, and a zeroed entry for each. */
    method ReadAll(machines: seq<MachinePid>, pids: map<Pid, PidRead>)
      returns (ticks: Option<map<MachineId, nat>>, metrics: map<MachineId, real>)
      ensures ticks == TicksNow(machines, pids)
      ensures ticks.Some? ==> metrics.Keys == Listed(machines) && ticks.value.Keys <= metrics.Keys && forall id | id in metrics :: metrics[id] == 0.0
    {
      var now: map<MachineId, nat> := map[];
      metrics := map[];
      for i := 0 to |machines|
        invariant TicksNow(machines[..i], pids) == Some(now)
        invariant metrics.Keys == Listed(machines[..i]) && now.Keys <= metrics.Keys
        invariant forall id | id in metrics :: metrics[id] == 0.0
      {
        assert machines[..i + 1][..i] == machines[..i] && machines[..i + 1][i] == machines[i];
        ListedGrows(machines, i);
        hide Listed;
        match ReadPid(pids, machines[i].pid) {
          case PidError =>
            ReadStops(machines, pids, i + 1);
            return None, metrics;
          case Gone =>
          case Ticks(t) => now := now[machines[i].id := t];
        }
        metrics := metrics[machines[i].id := 0.0];
      }
      assert machines[..|machines|] == machines;
      ticks := Some(now);
    }

    /** The loop over the ticks read now. */
    method Diff(was: RawSample, now: RawSample, zero: map<MachineId, real>) returns (metrics: map<MachineId, real>)
      requires now.pidTicks.Keys <= zero.Keys && forall id | id in zero :: zero[id] == 0.0
      ensures metrics.Keys == zero.Keys && forall id | id in metrics :: metrics[id] == CpuOf(Some(was), now, id)
    {
      metrics := zero;
      var rest := now.pidTicks.Keys;
      while rest != {}
        invariant rest <= now.pidTicks.Keys && metrics.Keys == zero.Keys
        invariant forall id | id in metrics :: metrics[id] == if id in rest then 0.0 else CpuOf(Some(was), now, id)
        decreases |rest|
      {
        var id :| id in rest;
        rest := rest - {id};
        if id in was.pidTicks {
          metrics := metrics[id := PidPercent(was.pidTicks[id], now.pidTicks[id], now.at - was.at)];
        }
      }
    }
  }

  lemma InListed(machines: seq<MachinePid>, id: MachineId)
    ensures id in Listed(machines) <==> exists m :: m in machines && m.id == id
  {
    if m :| m in machines && m.id == id {
      var i :| 0 <= i < |machines| && machines[i] == m;
    }
    if i :| 0 <= i < |machines| && machines[i].id == id { assert machines[i] in machines; }
  }

  lemma ListedGrows(machines: seq<MachinePid>, i: nat)
    requires i < |machines|
    ensures Listed(machines[..i + 1]) == Listed(machines[..i]) + {machines[i].id}
  {
    var a, b := machines[..i + 1], machines[..i];
    forall id | id in Listed(a) ensures id in Listed(b) + {machines[i].id} {
      var k :| 0 <= k < |a| && a[k].id == id;
      if k < i { assert b[k].id == id; }
    }
    forall id | id in Listed(b) ensures id in Listed(a) {
      var k :| 0 <= k < |b| && b[k].id == id;
      assert a[k].id == id;
    }
    assert a[i].id in Listed(a);
  }

  lemma {:induction false} ReadStops(machines: seq<MachinePid>, pids: map<Pid, PidRead>, k: nat)
    requires k <= |machines| && TicksNow(machines[..k], pids).None?
    ensures TicksNow(machines, pids).None?
    decreases |machines|
  {
    if k < |machines| {
      assert machines[..|machines| - 1][..k] == machines[..k];
      ReadStops(machines[..|machines| - 1], pids, k);
    } else {
      assert machines[..k] == machines;
    }
  }

  // ----- conservation ---------------------------------------------------------------------------

  datatype Call = Call(machines: seq<MachinePid>, reading: Reading)

  /** The sample kept after a run of calls, failed ones included. */
  function Kept(prev: Option<RawSample>, calls: seq<Call>): Option<RawSample>
    decreases calls
  {
    if calls == [] then prev
    else
      var r := Raw(calls[0].machines, calls[0].reading);
      Kept(if r.Some? then r else prev, calls[1..])
  }

  /** CPU% times elapsed seconds, summed over the run: the ticks accounted for. */
  function Charged(prev: Option<RawSample>, calls: seq<Call>, id: MachineId): real
    decreases calls
  {
    if calls == [] then 0.0
    else
      var r := Raw(calls[0].machines, calls[0].reading);
      if r.None? then Charged(prev, calls[1..], id)
      else
        (if prev.Some? then CpuOf(prev, r.value, id) * Seconds(r.value.at - prev.value.at) else 0.0)
        + Charged(r, calls[1..], id)
  }

  /** The machine is in every successful sample, its ticks never fall, time advances. */
  predicate Steady(prev: Option<RawSample>, calls: seq<Call>, id: MachineId)
    decreases calls
  {
    calls == [] ||
    var r := Raw(calls[0].machines, calls[0].reading);
    if r.None? then Steady(prev, calls[1..], id)
    else
      && id in r.value.pidTicks
      && (prev.Some? ==> id in prev.value.pidTicks && prev.value.at < r.value.at && prev.value.pidTicks[id] <= r.value.pidTicks[id])
      && Steady(r, calls[1..], id)
  }

  /** Nothing is lost or counted twice: over any run of calls, however many fail
      in between, the percentages account for exactly the ticks from the first
      successful sample to the last. */
  lemma {:induction false} ChargesTelescope(prev: RawSample, calls: seq<Call>, id: MachineId)
    requires id in prev.pidTicks && Steady(Some(prev), calls, id)
    ensures Kept(Some(prev), calls).Some? && id in Kept(Some(prev), calls).value.pidTicks
    ensures prev.pidTicks[id] <= Kept(Some(prev), calls).value.pidTicks[id]
    ensures Charged(Some(prev), calls, id) == (Kept(Some(prev), calls).value.pidTicks[id] - prev.pidTicks[id]) as real
    decreases calls
  {
    if calls == [] {
    } else {
      var r := Raw(calls[0].machines, calls[0].reading);
      if r.None? {
        ChargesTelescope(prev, calls[1..], id);
      } else {
        ChargesTelescope(r.value, calls[1..], id);
        PidPercentIsARate(prev.pidTicks[id], r.value.pidTicks[id], r.value.at - prev.at);
      }
    }
  }

  // ----- /proc/stat --------------------------------------------------------------------------------

  const WRAP: nat := 0x1_0000_0000_0000_0000

  /** The counters of the aggregate "cpu" line as ParseUint gave them. */
  function SumExcept(vals: seq<nat>, n: nat): nat
    requires n <= |vals|
  {
    if n == 0 then 0 else SumExcept(vals, n - 1) + (if n - 1 == 8 || n - 1 == 9 then 0 else vals[n - 1])
  }

  /** The sum is 0 for zeros, and grows with each field by as much, but for guest and guest_nice. */
  lemma {:induction false} EveryFieldCounts(vals: seq<nat>, n: nat, k: nat, more: nat)
    requires k < n <= |vals|
    ensures (forall i | 0 <= i < n :: vals[i] == 0) ==> SumExcept(vals, n) == 0
    ensures SumExcept(vals[k := vals[k] + more], n) == SumExcept(vals, n) + if k == 8 || k == 9 then 0 else more
  {
    if n - 1 > k {
      EveryFieldCounts(vals, n - 1, k, more);
    } else {
      SameSum(vals, vals[k := vals[k] + more], k);
      ZeroSum(vals, k);
    }
  }

  lemma {:induction false} SameSum(vals: seq<nat>, vals': seq<nat>, n: nat)
    requires n <= |vals| == |vals'| && forall i | 0 <= i < n :: vals[i] == vals'[i]
    ensures SumExcept(vals, n) == SumExcept(vals', n)
  {
    if n > 0 { SameSum(vals, vals', n - 1); }
  }

  lemma {:induction false} ZeroSum(vals: seq<nat>, n: nat)
    requires n <= |vals|
    ensures (forall i | 0 <= i < n :: vals[i] == 0) ==> SumExcept(vals, n) == 0
  {
    if n > 0 { ZeroSum(vals, n - 1); }
  }

  /** parseProcStat on the line's fields, in uint64 arithmetic. */
  method ParseProcStat(vals: seq<nat>) returns (idle: nat, total: nat)
    requires |vals| >= 7
    ensures idle == (vals[3] + vals[4]) % WRAP && total == SumExcept(vals, |vals|) % WRAP
  {
    idle := (vals[3] + vals[4]) % WRAP;
    total := 0;
    for i := 0 to |vals|
      invariant total == SumExcept(vals, i) % WRAP
    {
      if i == 8 || i == 9 {
        continue;
      }
      total := (total + vals[i]) % WRAP;
      ModAdd(SumExcept(vals, i), vals[i]);
    }
  }

  lemma ModAdd(a: nat, b: nat)
    ensures (a % WRAP + b) % WRAP == (a + b) % WRAP
  {
    var q := a / WRAP;
    assert a == q * WRAP + a % WRAP;
    ModShift(a % WRAP + b, q);
  }

  lemma {:induction false} ModShift(x: nat, q: nat)
    ensures (x + q * WRAP) % WRAP == x % WRAP
  {
    if q > 0 {
      ModShift(x, q - 1);
      assert x + q * WRAP == (x + (q - 1) * WRAP) + WRAP;
    }
  }

  /** The counted fields other than idle and iowait. */
  function Busy(vals: seq<nat>, n: nat): nat
    requires n <= |vals|
  {
    if n == 0 then 0
    else Busy(vals, n - 1) + (if n - 1 == 3 || n - 1 == 4 || n - 1 == 8 || n - 1 == 9 then 0 else vals[n - 1])
  }

  lemma {:induction false} BusyAndIdle(vals: seq<nat>, n: nat)
    requires 5 <= n <= |vals|
    ensures SumExcept(vals, n) == vals[3] + vals[4] + Busy(vals, n)
  {
    if n > 5 {
      BusyAndIdle(vals, n - 1);
    } else {
      FirstFive(vals);
    }
  }

  lemma FirstFive(vals: seq<nat>)
    requires |vals| >= 5
    ensures SumExcept(vals, 5) == vals[3] + vals[4] + Busy(vals, 5)
  {
    assert SumExcept(vals, 3) == vals[0] + vals[1] + vals[2] == Busy(vals, 3) by {
      assert SumExcept(vals, 1) == vals[0] == Busy(vals, 1);
    }
    assert Busy(vals, 5) == Busy(vals, 4) == Busy(vals, 3);
  }

  /** A sum of two remainders falls below the first exactly if it carries. */
  lemma Carry(a: nat, b: nat)
    ensures a % WRAP <= (a + b) % WRAP <==> a % WRAP + b % WRAP < WRAP
  {
    ModAdd(a, b);
    ModAdd(b, a % WRAP);
    var x, y := a % WRAP, b % WRAP;
    assert (a + b) % WRAP == (x + y) % WRAP;
    if x + y >= WRAP { ModShift(x + y - WRAP, 1); }
  }

  /** In 64-bit arithmetic idle exceeds the total exactly when adding the other
      counters to it carries over. */
  lemma OverflowHidesTheTotal(vals: seq<nat>)
    requires |vals| >= 7
    ensures (vals[3] + vals[4]) % WRAP <= SumExcept(vals, |vals|) % WRAP
            <==> (vals[3] + vals[4]) % WRAP + Busy(vals, |vals|) % WRAP < WRAP
  {
    BusyAndIdle(vals, |vals|);
    Carry(vals[3] + vals[4], Busy(vals, |vals|));
  }

  /** So never while the jiffies fit in 64 bits. */
  lemma IdleWithinTotal(vals: seq<nat>)
    requires |vals| >= 7 && SumExcept(vals, |vals|) < WRAP
    ensures (vals[3] + vals[4]) % WRAP <= SumExcept(vals, |vals|) % WRAP
  {
    BusyAndIdle(vals, |vals|);
    OverflowHidesTheTotal(vals);
  }

  /** But then it can: here the total wraps to 0. */
  lemma TotalWrapsToZero()
    ensures var vals := [WRAP - 1, 0, 0, 1, 0, 0, 0];
            (vals[3] + vals[4]) % WRAP > SumExcept(vals, |vals|) % WRAP
  {
    var vals := [WRAP - 1, 0, 0, 1, 0, 0, 0];
    assert SumExcept(vals, 1) == WRAP - 1 && SumExcept(vals, 2) == WRAP - 1 && SumExcept(vals, 3) == WRAP - 1;
    assert SumExcept(vals, 4) == WRAP && SumExcept(vals, 5) == WRAP && SumExcept(vals, 6) == WRAP;
    assert SumExcept(vals, 7) == WRAP;
  }
}

/** The cluster monitor: the filter that turns a controller pinglist into probe targets, the round-robin scheduler
    and the guards in front of each probe. */
module Scheduler {
  import opened Collections

  datatype Rnic = Rnic(gid: string, qpn: nat, ip: string, host: string, tor: string, device: string)

  /** A controller row; either RNIC may be missing. */
  datatype Row = Row(target: Option<Rnic>, source: Option<Rnic>, port: nat, flowLabel: nat, priority: nat)

  datatype Target = Target(dst: Rnic, src: Rnic, port: nat, flowLabel: nat, priority: nat)

  /** A Go expression that may panic. */
  datatype Outcome<T> = Value(value: T) | Panic

  /** isLinkLocalGID: shorter than four bytes is not link-local; otherwise five bytes are compared, which
      panics when there are only four. */
  function IsLinkLocal(gid: string): Outcome<bool>
  {
    if |gid| < 4 then Value(false)
    else if |gid| < 5 then Panic
    else Value(gid[..5] == "fe80:" || gid[..5] == "FE80:")
  }

  /** shouldSkipLinkLocalTarget: two link-local GIDs on different devices. */
  function ShouldSkipLinkLocal(src: string, dst: string, srcDevice: string, dstDevice: string): Outcome<bool>
  {
    var a, b := IsLinkLocal(src), IsLinkLocal(dst);
    if a.Panic? || b.Panic? then Panic
    else Value(a.value && b.value && srcDevice != dstDevice)
  }

  predicate LinkLocalText(gid: string)
  {
    "fe80:" <= gid || "FE80:" <= gid
  }

  /** The skip rule in terms of prefixes; it panics exactly on GIDs of four bytes. */
  lemma SkipRule(src: string, dst: string, srcDevice: string, dstDevice: string)
    ensures var r := ShouldSkipLinkLocal(src, dst, srcDevice, dstDevice);
      && (r.Panic? <==> |src| == 4 || |dst| == 4)
      && (r.Value? ==> (r.value <==> LinkLocalText(src) && LinkLocalText(dst) && srcDevice != dstDevice))
  {
    PrefixText(src);
    PrefixText(dst);
  }

  lemma PrefixText(gid: string)
    ensures IsLinkLocal(gid).Value? ==> (IsLinkLocal(gid).value <==> LinkLocalText(gid))
  {
    if |gid| >= 5 {
      assert gid[..5] == "fe80:" <==> "fe80:" <= gid;
      assert gid[..5] == "FE80:" <==> "FE80:" <= gid;
    }
  }

  /** The source device a row is judged by: its own, or the one known locally for that GID. */
  function SourceDevice(src: Rnic, devices: map<string, string>): string
  {
    if src.device == "" && src.gid in devices then devices[src.gid] else src.device
  }

  /** Whether a row is kept, skipped, or makes the update panic. */
  function Keeps(row: Row, host: string, devices: map<string, string>): Outcome<bool>
  {
    if row.target.None? || row.source.None? then Value(false)
    else if row.target.value.host == host then Value(false)
    else
      var src, dst := row.source.value, row.target.value;
      var skip := ShouldSkipLinkLocal(src.gid, dst.gid, SourceDevice(src, devices), dst.device);
      if skip.Panic? then Panic else Value(!skip.value)
  }

  /** The rule the filter applies, on the row's own fields: both RNICs are there, the target is on another host, and the
      two are not link-local GIDs on different devices. */
  ghost predicate Schedulable(row: Row, host: string, devices: map<string, string>)
  {
    && row.target.Some? && row.source.Some? && row.target.value.host != host
    && var src, dst := row.source.value, row.target.value;
       var srcDevice := if src.device == "" && src.gid in devices then devices[src.gid] else src.device;
       !(LinkLocalText(src.gid) && LinkLocalText(dst.gid) && srcDevice != dst.device)
  }

  /** The row makes the update panic: it reaches the link-local test with a GID of four bytes. */
  ghost predicate Breaks(row: Row, host: string)
  {
    && row.target.Some? && row.source.Some? && row.target.value.host != host
    && (|row.source.value.gid| == 4 || |row.target.value.gid| == 4)
  }

  lemma KeepsRule(row: Row, host: string, devices: map<string, string>)
    ensures Keeps(row, host, devices).Panic? <==> Breaks(row, host)
    ensures Keeps(row, host, devices).Value? ==> (Keeps(row, host, devices).value <==> Schedulable(row, host, devices))
  {
    if row.target.Some? && row.source.Some? {
      var src, dst := row.source.value, row.target.value;
      SkipRule(src.gid, dst.gid, SourceDevice(src, devices), dst.device);
    }
  }

  /** A target with the fields of its row. */
  ghost predicate Shows(t: Target, row: Row)
  {
    && row.target == Some(t.dst) && row.source == Some(t.src)
    && t.port == row.port && t.flowLabel == row.flowLabel && t.priority == row.priority
  }

  function TargetOf(row: Row): Target
    requires row.target.Some? && row.source.Some?
  {
    Target(row.target.value, row.source.value, row.port, row.flowLabel, row.priority)
  }

  /** Which rows are kept, in order. */
  ghost predicate KeptRows(rows: seq<Row>, host: string, devices: map<string, string>, kept: seq<nat>)
  {
    && (forall k, l :: 0 <= k < l < |kept| ==> kept[k] < kept[l])
    && (forall k :: 0 <= k < |kept| ==> kept[k] < |rows|)
    && (forall i :: 0 <= i < |rows| ==> (i in kept <==> Schedulable(rows[i], host, devices)))
  }

  /** What the agent knows of itself: host and ToR names, GIDs of its RNICs, GIDs that have a sender queue. */
  datatype Local = Local(host: string, tor: string, rnics: set<string>, queues: set<string>)

  datatype Probe = Probe(target: Target, torMesh: bool)

  /** What a scheduled target leads to: a probe exactly if it is not on the local host, not its own source, and its
      source is an RNIC of this agent that has a queue; typed by whether the target is in the local ToR. */
  ghost predicate Issues(probe: Option<Probe>, t: Target, local: Local)
  {
    && (probe.Some? <==>
          && t.dst.host != local.host && t.dst.gid != t.src.gid
          && t.src.gid in local.rnics && t.src.gid in local.queues)
    && (probe.Some? ==> probe.value.target == t && (probe.value.torMesh <==> t.dst.tor == local.tor))
  }

  /** The targets are those of the kept rows, in order. */
  ghost predicate IsImage(rows: seq<Row>, kept: seq<nat>, ts: seq<Target>)
  {
    && |ts| == |kept|
    && forall k :: 0 <= k < |kept| ==> kept[k] < |rows| && Shows(ts[k], rows[kept[k]])
  }

  /** Row i joins the kept ones. */
  lemma KeepOneMore(rows: seq<Row>, i: nat, host: string, devices: map<string, string>, kept: seq<nat>)
    requires i < |rows| && KeptRows(rows[..i], host, devices, kept)
    ensures Schedulable(rows[i], host, devices) ==> KeptRows(rows[..i + 1], host, devices, kept + [i])
    ensures !Schedulable(rows[i], host, devices) ==> KeptRows(rows[..i + 1], host, devices, kept)
  {
    var upTo, kept' := rows[..i + 1], kept + [i];
    assert kept'[|kept|] == i;
    forall n | 0 <= n < |upTo|
      ensures n < i ==> (n in kept <==> Schedulable(upTo[n], host, devices)) && (n in kept' <==> n in kept)
      ensures n == i ==> n !in kept && n in kept' && upTo[n] == rows[i]
    {
      if n < i {
        assert upTo[n] == rows[..i][n];
      }
    }
  }

  lemma ImageOneMore(rows: seq<Row>, i: nat, kept: seq<nat>, ts: seq<Target>)
    requires i < |rows| && rows[i].target.Some? && rows[i].source.Some? && IsImage(rows, kept, ts)
    ensures IsImage(rows, kept + [i], ts + [TargetOf(rows[i])])
  {
  }

  /** The filtering loop of UpdatePinglist. */
  method FilterRows(rows: seq<Row>, host: string, devices: map<string, string>)
    returns (ts: seq<Target>, skipped: nat, panicked: bool, ghost kept: seq<nat>)
    ensures panicked <==> exists i :: 0 <= i < |rows| && Breaks(rows[i], host)
    ensures !panicked ==> KeptRows(rows, host, devices, kept) && IsImage(rows, kept, ts) && |ts| + skipped == |rows|
  {
    ts, skipped, panicked, kept := [], 0, false, [];
    for i := 0 to |rows|
      invariant !panicked && forall n :: 0 <= n < i ==> !Breaks(rows[n], host)
      invariant KeptRows(rows[..i], host, devices, kept) && IsImage(rows, kept, ts) && |ts| + skipped == i
    {
      var keep := Keeps(rows[i], host, devices);
      KeepsRule(rows[i], host, devices);
      if keep.Panic? {
        panicked := true;
        return;
      }
      KeepOneMore(rows, i, host, devices, kept);
      if keep.value {
        ImageOneMore(rows, i, kept, ts);
        ts, kept := ts + [TargetOf(rows[i])], kept + [i];
      } else {
        skipped := skipped + 1;
      }
    }
    assert rows[..|rows|] == rows;
  }

  /** A scheduled list holds no target on the filtering host. */
  lemma NoneOnHost(rows: seq<Row>, host: string, devices: map<string, string>, kept: seq<nat>, ts: seq<Target>)
    requires KeptRows(rows, host, devices, kept) && IsImage(rows, kept, ts)
    ensures forall k :: 0 <= k < |ts| ==> ts[k].dst.host != host
  {
    forall k | 0 <= k < |ts|
      ensures ts[k].dst.host != host
    {
      assert kept[k] in kept && Schedulable(rows[kept[k]], host, devices);
    }
  }

  class ProbeScheduler {
    var targets: seq<Target>
    /** GIDs that have a rate limiter. */
    var limited: set<string>
    var currentIndex: nat

    ghost predicate Valid()
      reads this
    {
      && (targets == [] ==> currentIndex == 0) && (targets != [] ==> currentIndex < |targets|)
      && forall i :: 0 <= i < |targets| ==> targets[i].dst.gid in limited
    }

    constructor ()
      ensures Valid() && targets == []
    {
      targets, limited, currentIndex := [], {}, 0;
    }

    /** UpdateTargets: new list, start over, one limiter per distinct GID. */
    method UpdateTargets(ts: seq<Target>)
      modifies this
      ensures Valid() && targets == ts && currentIndex == 0
      ensures limited == set i | 0 <= i < |ts| :: ts[i].dst.gid
    {
      targets, currentIndex, limited := ts, 0, {};
      for i := 0 to |ts|
        invariant targets == ts && currentIndex == 0
        invariant limited == set j | 0 <= j < i :: ts[j].dst.gid
      {
        if ts[i].dst.gid !in limited {
          limited := limited + {ts[i].dst.gid};
        }
      }
    }

    /** GetNextTarget: round robin; `hasLimiter` is false only in the branch that should not happen. */
    method GetNextTarget() returns (t: Option<Target>, hasLimiter: bool)
      requires Valid()
      modifies `currentIndex
      ensures Valid()
      ensures t.None? <==> targets == []
      ensures t.Some? ==> t.value == targets[old(currentIndex)] && hasLimiter
      ensures currentIndex == if targets == [] then old(currentIndex) else Next(old(currentIndex), |targets|)
    {
      if targets == [] {
        return None, false;
      }
      var target := targets[currentIndex];
      NextIsModulo(currentIndex, |targets|);
      currentIndex := (currentIndex + 1) % |targets|;
      hasLimiter := target.dst.gid in limited;
      t := Some(target);
    }

    /** UpdatePinglist: the scheduled list is the order-preserving filter of the rows; what is not kept is
        counted as skipped. A panic leaves the old list in place. */
    method UpdatePinglist(rows: seq<Row>, host: string, devices: map<string, string>)
      returns (skipped: nat, panicked: bool, ghost kept: seq<nat>)
      requires Valid()
      modifies this
      ensures Valid()
      ensures panicked <==> exists i :: 0 <= i < |rows| && Breaks(rows[i], host)
      ensures panicked ==> targets == old(targets) && currentIndex == old(currentIndex)
      ensures !panicked ==> KeptRows(rows, host, devices, kept) && IsImage(rows, kept, targets)
      ensures !panicked ==> |targets| + skipped == |rows| && currentIndex == 0
      ensures !panicked ==> forall k :: 0 <= k < |targets| ==> targets[k].dst.host != host
    {
      var ts;
      ts, skipped, panicked, kept := FilterRows(rows, host, devices);
      if !panicked {
        NoneOnHost(rows, host, devices, kept, ts);
        UpdateTargets(ts);
      }
    }

    /** processNextProbe up to the call of ProbeTarget: the probe it issues, if any. */
    method NextProbe(local: Local) returns (probe: Option<Probe>)
      requires Valid()
      modifies `currentIndex
      ensures Valid()
      ensures if targets == [] then probe.None? else Issues(probe, targets[old(currentIndex)], local)
      ensures currentIndex == if targets == [] then old(currentIndex) else Next(old(currentIndex), |targets|)
    {
      probe := None;
      var t, _ := GetNextTarget();
      if t.None? || t.value.src.gid !in local.rnics {
        return;
      }
      if t.value.dst.gid == t.value.src.gid || t.value.dst.host == local.host {
        return;
      }
      var torMesh := t.value.dst.tor == local.tor;
      if t.value.src.gid !in local.queues {
        return;
      }
      probe := Some(Probe(t.value, torMesh));
    }

    /** runSequentialProbeWorker until it sees the stop signal, after k iterations: they serve the next k positions
        of the round, so each position has its fair share of them. */
    method Work(k: nat, local: Local) returns (probes: seq<Option<Probe>>)
      requires Valid()
      modifies `currentIndex
      ensures Valid() && |probes| == k && Rounds(probes, targets, old(currentIndex), local)
      ensures targets != [] ==> EachFair(old(currentIndex), |targets|, k)
    {
      probes := [];
      for i := 0 to k
        invariant Valid() && |probes| == i && Rounds(probes, targets, old(currentIndex), local)
        invariant targets != [] ==> currentIndex == Position(old(currentIndex), |targets|, i)
      {
        var probe := NextProbe(local);
        probes := probes + [probe];
      }
      if targets != [] {
        RoundRobinIsFair(old(currentIndex), |targets|, k);
      }
    }
  }

  /** The i-th probe is the one position c + i of the round leads to; so none goes to the local host or to its own
      source GID. */
  ghost predicate Rounds(probes: seq<Option<Probe>>, ts: seq<Target>, c: nat, local: Local)
    requires ts != [] ==> c < |ts|
  {
    forall i :: 0 <= i < |probes| ==>
      if ts == [] then probes[i].None? else Issues(probes[i], ts[Position(c, |ts|, i)], local)
  }

  // ---------- fairness ----------

  /** The position the i-th further call serves when the next one serves c. */
  function Position(c: nat, n: nat, i: nat): (r: nat)
    requires c < n
    ensures r < n
    decreases i
  {
    if i == 0 then c else Next(Position(c, n, i - 1), n)
  }

  /** The positions served by k calls. */
  function Served(c: nat, n: nat, k: nat): (r: seq<nat>)
    requires c < n
    ensures |r| == k && forall i :: 0 <= i < k ==> r[i] < n
    decreases k
  {
    if k == 0 then [] else [c] + Served(Next(c, n), n, k - 1)
  }

  function Next(c: nat, n: nat): (r: nat)
    requires c < n
    ensures r < n
  {
    if c + 1 == n then 0 else c + 1
  }

  /** The advance with `%` goes to the next position or wraps to the first. */
  lemma NextIsModulo(c: nat, n: nat)
    requires c < n
    ensures (c + 1) % n == Next(c, n)
  {
    if c + 1 == n {
      assert n % n == 0;
    }
  }

  lemma {:induction false} ShiftPosition(c: nat, n: nat, i: nat)
    requires c < n
    ensures Position(c, n, i + 1) == Position(Next(c, n), n, i)
  {
    if i == 0 {
      assert Position(c, n, 0) == c;
    } else {
      ShiftPosition(c, n, i - 1);
    }
  }

  lemma {:induction false} ServedAt(c: nat, n: nat, k: nat, i: nat)
    requires c < n && i < k
    ensures Served(c, n, k)[i] == Position(c, n, i)
    decreases k
  {
    if i > 0 {
      ServedAt(Next(c, n), n, k - 1, i - 1);
      ShiftPosition(c, n, i - 1);
    }
  }

  ghost function Turns(c: nat, n: nat, k: nat, p: nat): nat
    requires c < n
  {
    Count(Served(c, n, k), q => q == p)
  }

  /** How far position p is ahead of position c in the round. */
  function Distance(c: nat, p: nat, n: nat): nat
    requires c < n && p < n
  {
    if p >= c then p - c else p - c + n
  }

  /** Position p is served for the t-th time by call (t-1)n + d + 1. */
  lemma {:induction false} TurnsExact(c: nat, n: nat, k: nat, p: nat)
    requires c < n && p < n
    ensures var t, d := Turns(c, n, k, p), Distance(c, p, n);
      k <= t * n + d && (t > 0 ==> (t - 1) * n + d < k)
    decreases k
  {
    if k > 0 {
      var c' := Next(c, n);
      TurnsExact(c', n, k - 1, p);
      assert Served(c, n, k)[1..] == Served(c', n, k - 1);
      var t: int := Turns(c', n, k - 1, p);
      if p == c {
        assert Distance(c', p, n) == n - 1 && Turns(c, n, k, p) == t + 1;
        OneTurn(t, n);
        OneTurn(t - 1, n);
      } else {
        assert Distance(c', p, n) == Distance(c, p, n) - 1 && Turns(c, n, k, p) == t;
      }
    }
  }

  /** t is floor(k/n) or ceil(k/n). */
  ghost predicate FairShare(t: nat, k: nat, n: nat)
    requires n > 0
  {
    k / n <= t <= k / n + (if k % n == 0 then 0 else 1)
  }

  /** Every position has its fair share of the next k calls. */
  ghost predicate EachFair(c: nat, n: nat, k: nat)
    requires c < n
  {
    forall p :: 0 <= p < n ==> FairShare(Turns(c, n, k, p), k, n)
  }

  /** Fairness: k calls serve each of the n positions floor(k/n) or ceil(k/n) times. */
  lemma RoundRobinIsFair(c: nat, n: nat, k: nat)
    requires c < n
    ensures EachFair(c, n, k)
  {
    var q, r := k / n, k % n;
    QuotientSign(k, n);
    forall p | 0 <= p < n
      ensures FairShare(Turns(c, n, k, p), k, n)
    {
      TurnsExact(c, n, k, p);
      Share(Turns(c, n, k, p), k, n, Distance(c, p, n), q, r);
    }
  }

  lemma QuotientSign(k: nat, n: nat)
    requires n > 0
    ensures k / n >= 0 && 0 <= k % n < n && k == k / n * n + k % n
  {
  }

  lemma Share(t: nat, k: nat, n: nat, d: nat, q: nat, r: nat)
    requires d < n && r < n && k == q * n + r
    requires k <= t * n + d && (t > 0 ==> (t - 1) * n + d < k)
    ensures q <= t <= q + (if r == 0 then 0 else 1)
  {
    OneTurn(t, n);
    OneTurn(q, n);
    if t < q {
      Times(t + 1, q, n);
    } else if t > q + 1 {
      Times(q + 1, t - 1, n);
    }
  }

  lemma OneTurn(t: int, n: nat)
    ensures (t + 1) * n == t * n + n
  {
  }

  lemma Times(a: nat, b: nat, n: nat)
    requires a <= b
    ensures a * n <= b * n
  {
  }
}

/** What packets, responder records and results carry in every run: provenance and causal order. */
module WireRuns {
  import opened Collections
  import opened Sessions
  import opened Waiting
  import opened Protocol

  // ---------- packets on the wire and the responders' work ----------

  /** Times of a probe that left the prober. */
  ghost predicate Departed(nets: seq<Net>, n: nat, now: int)
  {
    && 1 <= n <= |nets| && nets[n - 1].sentAt.Some? && nets[n - 1].departed.Some?
    && nets[n - 1].departed.value <= now
  }

  ghost predicate GoodJob(nets: seq<Net>, n: nat, j: Job, now: int)
  {
    && Departed(nets, n, j.t3)
    && j.pkt == PacketOf(nets[n - 1], n - 1)
    && j.t3 <= now
    && (j.t4.Some? ==> j.t3 <= j.t4.value <= now)
    && (j.second.Some? ==> j.t4.Some? && j.t4.value <= j.second.value <= now)
  }

  /** When the ACK of this type left the responder. */
  function Left(j: Job, ty: nat): Option<int>
  {
    if ty == 1 then j.t4 else j.second
  }

  /** The ACK was made by the responder for the probe it names, and was sent. */
  ghost predicate GoodAck(c: Config, jobs: map<nat, Job>, pkt: Ack)
  {
    && pkt.num in jobs && jobs[pkt.num].t4.Some? && Left(jobs[pkt.num], pkt.ackType).Some?
    && var j := jobs[pkt.num];
       && pkt.t3 == j.t3 + c.clock(j.pkt.dst)
       && (pkt.ackType == 2 ==> pkt.t4 == j.t4.value + c.clock(j.pkt.dst))
  }

  /** An ACK on its way back to the RNIC that sent the probe. */
  ghost predicate GoodFrame(c: Config, jobs: map<nat, Job>, f: Frame)
  {
    && GoodAck(c, jobs, f.pkt)
    && f.to == jobs[f.pkt.num].pkt.src && f.flow == jobs[f.pkt.num].pkt.flow && f.sgid == jobs[f.pkt.num].pkt.dst
    && Left(jobs[f.pkt.num], f.pkt.ackType) == Some(f.left)
  }

  ghost predicate WireInv(c: Config, nets: seq<Net>, w: Wire, now: int)
  {
    && (forall p :: p in w.air ==>
          Departed(nets, p.num, now) && p == PacketOf(nets[p.num - 1], p.num - 1) && p.num !in w.jobs)
    && (forall n :: n in w.jobs ==> GoodJob(nets, n, w.jobs[n], now))
    && (forall f :: f in w.acks ==> GoodFrame(c, w.jobs, f))
    && (forall i :: 0 <= i < |nets| && nets[i].departed.None? ==> i + 1 !in w.jobs)
  }

  /** A probe still on the wire has not been taken by a responder. */
  ghost predicate AirIsNew(w: Wire)
  {
    forall p :: p in w.air ==> p.num !in w.jobs
  }

  lemma AirNotTaken(c: Config, nets: seq<Net>, w: Wire, now: int)
    requires WireInv(c, nets, w, now)
    ensures AirIsNew(w)
  {
  }

  lemma WireTime(c: Config, nets: seq<Net>, w: Wire, now: int, now': int)
    requires WireInv(c, nets, w, now) && now <= now'
    ensures WireInv(c, nets, w, now')
  {
  }

  lemma WireStart(c: Config, nets: seq<Net>, w: Wire, now: int, net: Net)
    requires WireInv(c, nets, w, now) && net.departed.None?
    ensures WireInv(c, nets + [net], w, now)
  {
    var nets' := nets + [net];
    assert forall i :: 0 <= i < |nets| ==> nets'[i] == nets[i];
    assert |nets| + 1 !in w.jobs;
  }

  /** Posting sets T1 of a probe that has not left yet. */
  lemma WirePost(c: Config, nets: seq<Net>, w: Wire, now: int, i: nat, t1: int)
    requires WireInv(c, nets, w, now) && i < |nets| && nets[i].departed.None?
    ensures WireInv(c, nets[i := nets[i].(sentAt := Some(t1))], w, now)
  {
  }

  lemma WireBreak(c: Config, nets: seq<Net>, w: Wire, now: int, i: nat)
    requires WireInv(c, nets, w, now) && i < |nets|
    ensures WireInv(c, nets[i := nets[i].(broken := true)], w, now)
  {
  }

  lemma WireTransmit(c: Config, nets: seq<Net>, w: Wire, now: int, i: nat)
    requires WireInv(c, nets, w, now) && i < |nets| && nets[i].sentAt.Some? && nets[i].departed.None?
    ensures WireInv(c, nets[i := nets[i].(departed := Some(now))], w.(air := w.air + {PacketOf(nets[i], i)}), now)
  {
    var nets' := nets[i := nets[i].(departed := Some(now))];
    assert forall k :: 0 <= k < |nets| && k != i ==> nets'[k] == nets[k];
    assert PacketOf(nets'[i], i) == PacketOf(nets[i], i);
  }

  lemma WireRecv(c: Config, nets: seq<Net>, w: Wire, now: int, p: Probe, valid: bool)
    requires WireInv(c, nets, w, now) && p in w.air
    ensures WireInv(c, nets,
                    w.(air := w.air - {p},
                       jobs := if valid then w.jobs[p.num := Job(p, now, None, None)] else w.jobs), now)
  {
    assert forall q :: q in w.air && q.num == p.num ==> q == p;
  }

  lemma WireAck1(c: Config, nets: seq<Net>, w: Wire, now: int, n: nat, f: Frame)
    requires WireInv(c, nets, w, now) && n in w.jobs && w.jobs[n].t4.None?
    requires f.pkt == FirstAck(c, w.jobs[n]) && f.to == w.jobs[n].pkt.src && f.left == now
    requires f.flow == w.jobs[n].pkt.flow && f.sgid == w.jobs[n].pkt.dst
    ensures WireInv(c, nets, w.(jobs := w.jobs[n := w.jobs[n].(t4 := Some(now))], acks := w.acks + {f}), now)
  {
    assert GoodJob(nets, n, w.jobs[n], now);
  }

  lemma WireAck2(c: Config, nets: seq<Net>, w: Wire, now: int, n: nat, f: Frame)
    requires WireInv(c, nets, w, now) && n in w.jobs && w.jobs[n].t4.Some? && w.jobs[n].second.None?
    requires f.pkt == SecondAck(c, w.jobs[n]) && f.to == w.jobs[n].pkt.src && f.left == now
    requires f.flow == w.jobs[n].pkt.flow && f.sgid == w.jobs[n].pkt.dst
    ensures WireInv(c, nets, w.(jobs := w.jobs[n := w.jobs[n].(second := Some(now))], acks := w.acks + {f}), now)
  {
    assert GoodJob(nets, n, w.jobs[n], now);
  }

  /** A call's phase agrees with what its packet did. */
  ghost predicate PhaseNet(c: Config, ph: Phase, net: Net)
  {
    match ph
    case Allocated => net.sentAt.None? && net.departed.None?
    case Stored => net.sentAt.None? && net.departed.None?
    case Registered => net.sentAt.None? && net.departed.None?
    case Sending(t1) => net.sentAt == Some(t1)
    case Awaiting(t1, t2, _) =>
      net.sentAt == Some(t1) && net.departed.Some? && t2 == net.departed.value + c.clock(net.route.src)
    case Concluded(r, w) => ResultFrom(c, net, r, w)
    case Published(r, w) => ResultFrom(c, net, r, w)
  }

  /** A result is never UNKNOWN. An OK result is computed from this probe's T1 and T2 and both ACKs; a timed-out one has
      this probe's T1 and T2 and T5 if an ACK was taken; a failed one has the same or no timestamps. */
  ghost predicate ResultFrom(c: Config, net: Net, r: Result, w: Wait)
  {
    && r.status != UNKNOWN
    && (r.status == OK ==>
          && net.sentAt.Some? && net.departed.Some? && BothReceived(w) && r.t6.Some?
          && r == Conclude(net.sentAt.value, net.departed.value + c.clock(net.route.src), w, r.t6.value))
    && (r.status == TIMEOUT ==> GaveUp(c, net, r, w))
    && (r.status == ERROR ==> GaveUp(c, net, r, w) || Unfinished(r, ERROR, None, None, None))
  }

  ghost predicate GaveUp(c: Config, net: Net, r: Result, w: Wait)
  {
    && net.sentAt.Some? && net.departed.Some? && !BothReceived(w)
    && Unfinished(r, r.status, net.sentAt, Some(net.departed.value + c.clock(net.route.src)), w.t5)
  }

  ghost predicate PhaseInv(c: Config, phases: seq<Phase>, nets: seq<Net>)
  {
    |phases| == |nets| && forall i :: 0 <= i < |phases| ==> PhaseNet(c, phases[i], nets[i])
  }

  ghost predicate NetInv(c: Config, s: State)
  {
    WireInv(c, s.nets, s.wire, s.now) && PhaseInv(c, s.phases, s.nets)
  }

  lemma PhaseCall(c: Config, now: int, ph: Phase, net: Net, o: Session, a: Action)
    requires PhaseNet(c, ph, net) && InPlace(ph, net, o, a)
    ensures var net' := if a.Post? then net.(sentAt := Some(now + c.app)) else net;
      PhaseNet(c, NextPhase(c, now, ph, net, o, a), net')
    ensures a.Post? ==> net.departed.None?
  {
  }

  lemma NetCall(c: Config, s: State, i: nat, a: Action)
    requires NetInv(c, s) && Enabled(s, Call(i, a))
    ensures NetInv(c, AfterCall(c, s, i, a))
  {
    PhaseCall(c, s.now, s.phases[i], s.nets[i], s.table.objs[i], a);
    if a.Post? {
      WirePost(c, s.nets, s.wire, s.now, i, s.now + c.app);
    }
  }

  lemma NetStart(c: Config, s: State, st: Step)
    requires NetInv(c, s) && st.Start?
    ensures NetInv(c, Apply(c, s, st))
  {
    WireStart(c, s.nets, s.wire, s.now, Net(st.route, false, None, None));
  }

  /** A packet leaves, or its send meets an error. */
  lemma NetSend(c: Config, s: State, st: Step)
    requires NetInv(c, s) && Enabled(s, st) && (st.Transmit? || st.Break?)
    ensures NetInv(c, Apply(c, s, st))
  {
    assert PhaseNet(c, s.phases[st.i], s.nets[st.i]);
    if st.Transmit? {
      WireTransmit(c, s.nets, s.wire, s.now, st.i);
    } else {
      WireBreak(c, s.nets, s.wire, s.now, st.i);
    }
  }

  /** A step of a responder, or time passing. */
  lemma NetAnswer(c: Config, s: State, st: Step)
    requires NetInv(c, s) && Enabled(s, st) && (st.RecvProbe? || st.SendAck1? || st.SendAck2? || st.Tick?)
    ensures NetInv(c, Apply(c, s, st))
  {
    match st {
      case RecvProbe(p, valid) => WireRecv(c, s.nets, s.wire, s.now, p, valid);
      case SendAck1(n) =>
        var j := s.wire.jobs[n];
        WireAck1(c, s.nets, s.wire, s.now, n, Frame(FirstAck(c, j), j.pkt.flow, j.pkt.dst, j.pkt.src, s.now));
      case SendAck2(n) =>
        var j := s.wire.jobs[n];
        WireAck2(c, s.nets, s.wire, s.now, n, Frame(SecondAck(c, j), j.pkt.flow, j.pkt.dst, j.pkt.src, s.now));
      case Tick(d) => WireTime(c, s.nets, s.wire, s.now, s.now + d);
    }
  }

  predicate OffWire(st: Step)
  {
    !(st.Start? || st.Call? || st.Transmit? || st.Break? || st.RecvProbe? || st.SendAck1? || st.SendAck2? || st.Tick?)
  }

  /** The other steps leave packets and calls alone. */
  lemma NetFrame(c: Config, s: State, st: Step)
    requires Enabled(s, st) && OffWire(st)
    ensures var s' := Apply(c, s, st);
      s'.nets == s.nets && s'.wire == s.wire && s'.phases == s.phases && s'.now == s.now
  {
  }

  /** Only a responder's steps change its records and the counters of probes received and ACKs sent. */
  lemma JobsFrame(c: Config, s: State, st: Step)
    requires Enabled(s, st) && !st.RecvProbe? && !st.SendAck1? && !st.SendAck2?
    ensures var s' := Apply(c, s, st);
      && s'.wire.jobs == s.wire.jobs && s.now <= s'.now
      && s'.stats.acksSent == s.stats.acksSent && s'.stats.probesReceived == s.stats.probesReceived
  {
  }

  /** Every step keeps packets and phases consistent. */
  lemma NetStep(c: Config, s: State, st: Step)
    requires NetInv(c, s) && Enabled(s, st)
    ensures NetInv(c, Apply(c, s, st))
  {
    if st.Start? {
      NetStart(c, s, st);
    } else if st.Call? {
      NetCall(c, s, st.i, st.a);
    } else if st.Transmit? || st.Break? {
      NetSend(c, s, st);
    } else if OffWire(st) {
      NetFrame(c, s, st);
    } else {
      NetAnswer(c, s, st);
    }
  }
}

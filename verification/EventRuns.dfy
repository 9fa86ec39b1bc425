/** What the sessions' channels and the wait loops hold in every run. */
module EventRuns {
  import opened Collections
  import opened Sessions
  import opened Waiting
  import opened Protocol
  import opened TableRuns
  import opened WireRuns

  /** Responders never change what they recorded. */
  ghost predicate JobsGrow(jobs: map<nat, Job>, jobs': map<nat, Job>)
  {
    forall n :: n in jobs ==>
      && n in jobs' && jobs'[n].pkt == jobs[n].pkt && jobs'[n].t3 == jobs[n].t3
      && (jobs[n].t4.Some? ==> jobs'[n].t4 == jobs[n].t4)
      && (jobs[n].second.Some? ==> jobs'[n].second == jobs[n].second)
  }

  lemma JobsStep(c: Config, s: State, st: Step)
    requires AirIsNew(s.wire) && Enabled(s, st)
    ensures JobsGrow(s.wire.jobs, Apply(c, s, st).wire.jobs)
    ensures s.now <= Apply(c, s, st).now
  {
    if !st.RecvProbe? && !st.SendAck1? && !st.SendAck2? {
      JobsFrame(c, s, st);
    }
  }

  /** An event of the right type, made from a responder's record and received after that ACK was sent. */
  ghost predicate GoodEvent(c: Config, jobs: map<nat, Job>, now: int, ev: Event, ty: nat)
  {
    && GoodAck(c, jobs, ev.pkt) && ev.pkt.ackType == ty
    && var j := jobs[ev.pkt.num];
       Left(j, ty).value + c.clock(j.pkt.src) <= ev.receivedAt <= now + c.clock(j.pkt.src)
  }

  ghost predicate GoodSlot(c: Config, jobs: map<nat, Job>, now: int, o: Option<Event>, ty: nat)
  {
    o.Some? ==> GoodEvent(c, jobs, now, o.value, ty)
  }

  ghost predicate GoodSession(c: Config, jobs: map<nat, Job>, now: int, o: Session)
  {
    GoodSlot(c, jobs, now, o.ack1, 1) && GoodSlot(c, jobs, now, o.ack2, 2)
  }

  ghost predicate GoodWait(c: Config, jobs: map<nat, Job>, now: int, w: Wait)
  {
    GoodSlot(c, jobs, now, w.ack1, 1) && GoodSlot(c, jobs, now, w.ack2, 2) && WaitTyped(w)
  }

  function WaitOf(ph: Phase): Wait
  {
    match ph
    case Awaiting(_, _, w) => w
    case Concluded(_, w) => w
    case Published(_, w) => w
    case _ => NO_ACKS
  }

  ghost predicate ChanInv(c: Config, s: State)
  {
    && (forall i :: 0 <= i < |s.table.objs| ==> GoodSession(c, s.wire.jobs, s.now, s.table.objs[i]))
    && (forall i :: 0 <= i < |s.phases| ==> GoodWait(c, s.wire.jobs, s.now, WaitOf(s.phases[i])))
  }

  lemma SlotGrows(c: Config, jobs: map<nat, Job>, jobs': map<nat, Job>, now: int, now': int, o: Option<Event>, ty: nat)
    requires JobsGrow(jobs, jobs') && now <= now' && GoodSlot(c, jobs, now, o, ty)
    ensures GoodSlot(c, jobs', now', o, ty)
  {
  }

  /** Channels and waits that did not change stay good as time and the responders' records grow. */
  lemma ChanGrows(c: Config, s: State, s': State)
    requires ChanInv(c, s) && s'.table.objs == s.table.objs && s'.phases == s.phases
    requires JobsGrow(s.wire.jobs, s'.wire.jobs) && s.now <= s'.now
    ensures ChanInv(c, s')
  {
    var j, j' := s.wire.jobs, s'.wire.jobs;
    forall i | 0 <= i < |s.table.objs| ensures GoodSession(c, j', s'.now, s.table.objs[i]) {
      var o := s.table.objs[i];
      assert GoodSession(c, j, s.now, o);
      SlotGrows(c, j, j', s.now, s'.now, o.ack1, 1);
      SlotGrows(c, j, j', s.now, s'.now, o.ack2, 2);
    }
    forall i | 0 <= i < |s.phases| ensures GoodWait(c, j', s'.now, WaitOf(s.phases[i])) {
      var w := WaitOf(s.phases[i]);
      assert GoodWait(c, j, s.now, w);
      SlotGrows(c, j, j', s.now, s'.now, w.ack1, 1);
      SlotGrows(c, j, j', s.now, s'.now, w.ack2, 2);
    }
  }

  lemma ChanStart(c: Config, s: State, st: Step)
    requires ChanInv(c, s) && st.Start?
    ensures ChanInv(c, Apply(c, s, st))
  {
  }

  lemma ChanCall(c: Config, s: State, i: nat, a: Action)
    requires ChanInv(c, s) && Enabled(s, Call(i, a))
    ensures ChanInv(c, AfterCall(c, s, i, a))
  {
    var s' := AfterCall(c, s, i, a);
    assert GoodSession(c, s.wire.jobs, s.now, s.table.objs[i]);
    assert GoodWait(c, s.wire.jobs, s.now, WaitOf(s.phases[i]));
    assert GoodSession(c, s.wire.jobs, s.now, s'.table.objs[i]);
    assert GoodWait(c, s.wire.jobs, s.now, WaitOf(s'.phases[i]));
  }

  lemma ChanHandle(c: Config, s: State, st: Step)
    requires NetInv(c, s) && ChanInv(c, s) && st.HandleAck? && Enabled(s, st)
    ensures ChanInv(c, Apply(c, s, st))
  {
    var r := st.found;
    if r.Some? {
      var ev := Event(st.frame.pkt, st.arrived + c.clock(st.frame.to));
      assert GoodFrame(c, s.wire.jobs, st.frame);
      assert GoodJob(s.nets, ev.pkt.num, s.wire.jobs[ev.pkt.num], s.now);
      assert GoodEvent(c, s.wire.jobs, s.now, ev, ev.pkt.ackType);
      assert GoodSession(c, s.wire.jobs, s.now, s.table.objs[r.value]);
      assert GoodSession(c, s.wire.jobs, s.now, Delivered(s.table.objs[r.value], ev, st.statusOk));
    }
  }

  lemma ChanClose(c: Config, s: State, st: Step)
    requires ChanInv(c, s) && Enabled(s, st) && (st.CloseOne? || st.ShutClose?)
    ensures ChanInv(c, Apply(c, s, st))
  {
    assert GoodSession(c, s.wire.jobs, s.now, s.table.objs[st.i]);
    assert GoodSession(c, s.wire.jobs, s.now, Closed(s.table.objs[st.i]));
  }

  /** Every step keeps the channels and wait loops good. */
  lemma ChanStep(c: Config, s: State, st: Step)
    requires NetInv(c, s) && ChanInv(c, s) && Enabled(s, st)
    ensures ChanInv(c, Apply(c, s, st))
  {
    if st.Start? {
      ChanStart(c, s, st);
    } else if st.Call? {
      ChanCall(c, s, st.i, st.a);
    } else if st.HandleAck? {
      ChanHandle(c, s, st);
    } else if st.CloseOne? || st.ShutClose? {
      ChanClose(c, s, st);
    } else {
      QuietFrame(c, s, st);
      AirNotTaken(c, s.nets, s.wire, s.now);
      JobsStep(c, s, st);
      ChanGrows(c, s, Apply(c, s, st));
    }
  }

  // ---------- routing ----------

  ghost predicate OwnSlot(o: Option<Event>, n: nat)
  {
    o.Some? ==> o.value.pkt.num == n
  }

  /** Every event in a session's channels, and every event its call has taken, carries that session's
      own sequence number. */
  ghost predicate Routed(s: State)
  {
    && (forall i :: 0 <= i < |s.table.objs| ==>
          OwnSlot(s.table.objs[i].ack1, i + 1) && OwnSlot(s.table.objs[i].ack2, i + 1))
    && (forall i :: 0 <= i < |s.phases| ==>
          OwnSlot(WaitOf(s.phases[i]).ack1, i + 1) && OwnSlot(WaitOf(s.phases[i]).ack2, i + 1))
  }

  lemma RoutedHandle(c: Config, s: State, st: Step)
    requires TabInv(s) && Routed(s) && st.HandleAck? && Enabled(s, st) && StepOwnsLabel(s, st)
    ensures Routed(Apply(c, s, st))
  {
    var r := st.found;
    LookupRefinesScan(s.table, st.frame.pkt.num, st.seenGid, r);
    assert r.Some? ==> s.table.objs[r.value].id.num == st.frame.pkt.num == r.value + 1;
  }

  lemma RoutedCall(c: Config, s: State, i: nat, a: Action)
    requires Routed(s) && Enabled(s, Call(i, a))
    ensures Routed(AfterCall(c, s, i, a))
  {
    assert OwnSlot(WaitOf(s.phases[i]).ack1, i + 1) && OwnSlot(s.table.objs[i].ack1, i + 1);
  }

  lemma RoutedSame(s: State, s': State)
    requires Routed(s) && s'.phases == s.phases && |s'.table.objs| == |s.table.objs|
    requires forall i :: 0 <= i < |s.table.objs| ==>
               s'.table.objs[i].ack1 == s.table.objs[i].ack1 && s'.table.objs[i].ack2 == s.table.objs[i].ack2
    ensures Routed(s')
  {
  }

  lemma RoutedStart(c: Config, s: State, st: Step)
    requires Routed(s) && st.Start?
    ensures Routed(Apply(c, s, st))
  {
  }

  /** A step that keeps labels unambiguous keeps routing right. */
  lemma RoutedStep(c: Config, s: State, st: Step)
    requires TabInv(s) && Routed(s) && Enabled(s, st) && StepOwnsLabel(s, st)
    ensures Routed(Apply(c, s, st))
  {
    if st.Start? {
      RoutedStart(c, s, st);
    } else if st.HandleAck? {
      RoutedHandle(c, s, st);
    } else if st.Call? {
      RoutedCall(c, s, st.i, st.a);
    } else {
      if st.CloseOne? || st.ShutClose? {
        ClosingFrame(c, s, st);
      } else {
        QuietFrame(c, s, st);
      }
      RoutedSame(s, Apply(c, s, st));
    }
  }
}

/** Where the six timestamps of an OK result come from: the steps of the run at which its probe was posted, sent,
    received and answered, at which the ACK that set T5 arrived, and at which the call finished. */
module Provenance {
  import opened Collections
  import opened Sessions
  import opened Waiting
  import opened Protocol
  import opened TableRuns
  import opened WireRuns
  import opened EventRuns
  import opened CountRuns
  import opened ProtocolTheorems

  // ---------- time and routes ----------

  lemma NowStep(c: Config, s: State, st: Step)
    requires Enabled(s, st)
    ensures s.now <= Apply(c, s, st).now
  {
  }

  /** Time never runs backwards along a run. */
  lemma {:induction false} NowGrows(c: Config, states: seq<State>, steps: seq<Step>, j: nat, k: nat)
    requires IsRun(c, states, steps) && j <= k < |states|
    ensures states[j].now <= states[k].now
    decreases k
  {
    if j < k {
      NowGrows(c, states, steps, j, k - 1);
      var s, st := RunStep(c, states, steps, k - 1);
      NowStep(c, s, st);
    }
  }

  /** Routes never change, nor does T1 once posted. */
  ghost predicate Kept(nets: seq<Net>, nets': seq<Net>)
  {
    && |nets| <= |nets'|
    && forall i :: 0 <= i < |nets| ==>
         nets'[i].route == nets[i].route && (nets[i].sentAt.Some? ==> nets'[i].sentAt == nets[i].sentAt)
  }

  lemma NetsKept(c: Config, s: State, st: Step)
    requires NetInv(c, s) && Enabled(s, st)
    ensures Kept(s.nets, Apply(c, s, st).nets)
  {
    if st.Call? {
      assert PhaseNet(c, s.phases[st.i], s.nets[st.i]);
    }
  }

  ghost function NetsOf(states: seq<State>): seq<seq<Net>>
  {
    seq(|states|, k requires 0 <= k < |states| => states[k].nets)
  }

  ghost predicate AllNetsKept(nets: seq<seq<Net>>)
  {
    forall n :: 0 < n < |nets| ==> Kept(nets[n - 1], nets[n])
  }

  lemma {:induction false} KeptOn(nets: seq<seq<Net>>, j: nat, k: nat)
    requires j <= k < |nets| && AllNetsKept(nets)
    ensures Kept(nets[j], nets[k])
    decreases k
  {
    if j < k {
      KeptOn(nets, j, k - 1);
    }
  }

  lemma RunNets(c: Config, states: seq<State>, steps: seq<Step>)
    requires IsRun(c, states, steps)
    ensures AllNetsKept(NetsOf(states))
  {
    var nets := NetsOf(states);
    forall n | 0 < n < |nets|
      ensures Kept(nets[n - 1], nets[n])
    {
      InvRun(c, states, steps, n - 1);
      var s, st := RunStep(c, states, steps, n - 1);
      NetsKept(c, s, st);
    }
  }

  /** A probe's route never changes along a run, nor does its T1 once posted. */
  lemma NetStays(c: Config, states: seq<State>, steps: seq<Step>, j: nat, k: nat, i: nat)
    requires IsRun(c, states, steps) && j <= k < |states| && i < |states[j].nets|
    ensures i < |states[k].nets| && states[k].nets[i].route == states[j].nets[i].route
    ensures states[j].nets[i].sentAt.Some? ==> states[k].nets[i].sentAt == states[j].nets[i].sentAt
  {
    RunNets(c, states, steps);
    KeptOn(NetsOf(states), j, k);
  }

  // ---------- where each recorded time comes from ----------

  lemma PostStep(c: Config, s: State, st: Step, i: nat)
    requires Enabled(s, st) && i < |Apply(c, s, st).nets| && Apply(c, s, st).nets[i].sentAt.Some?
    ensures (i < |s.nets| && s.nets[i].sentAt == Apply(c, s, st).nets[i].sentAt)
            || (st == Call(i, Post) && Apply(c, s, st).nets[i].sentAt == Some(s.now + c.app))
  {
  }

  lemma PostBack(c: Config, states: seq<State>, steps: seq<Step>, n: nat, i: nat, t1: Option<int>)
    requires IsRun(c, states, steps) && 0 < n < |states| && t1.Some?
    requires i < |states[n].nets| && states[n].nets[i].sentAt == t1
    ensures (i < |states[n - 1].nets| && states[n - 1].nets[i].sentAt == t1)
            || (steps[n - 1] == Call(i, Post) && t1 == Some(states[n - 1].now + c.app))
  {
    var s, st := RunStep(c, states, steps, n - 1);
    PostStep(c, s, st, i);
  }

  /** T1 is the application time of the probe's Post step. */
  lemma {:induction false} PostOf(c: Config, states: seq<State>, steps: seq<Step>, n: nat, i: nat) returns (k: nat)
    requires IsRun(c, states, steps) && n < |states| && i < |states[n].nets| && states[n].nets[i].sentAt.Some?
    ensures k < n && steps[k] == Call(i, Post) && states[n].nets[i].sentAt == Some(states[k].now + c.app)
  {
    assert n > 0 by {
      assert INITIAL.nets == [];
    }
    PostBack(c, states, steps, n, i, states[n].nets[i].sentAt);
    if i < |states[n - 1].nets| && states[n - 1].nets[i].sentAt == states[n].nets[i].sentAt {
      k := PostOf(c, states, steps, n - 1, i);
    } else {
      k := n - 1;
    }
  }

  lemma TransmitStep(c: Config, s: State, st: Step, i: nat)
    requires Enabled(s, st) && i < |Apply(c, s, st).nets| && Apply(c, s, st).nets[i].departed.Some?
    ensures (i < |s.nets| && s.nets[i].departed == Apply(c, s, st).nets[i].departed)
            || (st == Transmit(i) && InRange(s, i) && s.nets[i].sentAt.Some?
                && Apply(c, s, st).nets[i].departed == Some(s.now))
  {
  }

  lemma TransmitBack(c: Config, states: seq<State>, steps: seq<Step>, n: nat, i: nat, t: Option<int>)
    requires IsRun(c, states, steps) && 0 < n < |states| && t.Some?
    requires i < |states[n].nets| && states[n].nets[i].departed == t
    ensures (i < |states[n - 1].nets| && states[n - 1].nets[i].departed == t)
            || (steps[n - 1] == Transmit(i) && t == Some(states[n - 1].now)
                && i < |states[n - 1].nets| && states[n - 1].nets[i].sentAt.Some?)
  {
    var s, st := RunStep(c, states, steps, n - 1);
    TransmitStep(c, s, st, i);
  }

  /** The departure of a probe is the time of its Transmit step, which follows its Post step. */
  lemma {:induction false} TransmitOf(c: Config, states: seq<State>, steps: seq<Step>, n: nat, i: nat) returns (k: nat)
    requires IsRun(c, states, steps) && n < |states| && i < |states[n].nets| && states[n].nets[i].departed.Some?
    ensures k < n && steps[k] == Transmit(i) && states[n].nets[i].departed == Some(states[k].now)
    ensures i < |states[k].nets| && states[k].nets[i].sentAt.Some?
  {
    assert n > 0 by {
      assert INITIAL.nets == [];
    }
    TransmitBack(c, states, steps, n, i, states[n].nets[i].departed);
    if i < |states[n - 1].nets| && states[n - 1].nets[i].departed == states[n].nets[i].departed {
      k := TransmitOf(c, states, steps, n - 1, i);
    } else {
      k := n - 1;
    }
  }

  lemma JobStep(c: Config, s: State, st: Step, num: nat)
    requires Enabled(s, st) && num in Apply(c, s, st).wire.jobs
    ensures var jobs, j' := s.wire.jobs, Apply(c, s, st).wire.jobs[num];
      && (|| (num in jobs && jobs[num].t3 == j'.t3)
          || (st.RecvProbe? && st.pkt.num == num && j'.t3 == s.now && j'.t4.None?))
      && (j'.t4.Some? ==>
            || (num in jobs && jobs[num].t4 == j'.t4)
            || (st == SendAck1(num) && j'.t4 == Some(s.now)))
      && (j'.second.Some? ==>
            || (num in jobs && jobs[num].second == j'.second)
            || (st == SendAck2(num) && j'.second == Some(s.now)))
  {
  }

  /** T3 is the time of the step in which a responder took the probe. */
  lemma {:induction false} RecvOf(c: Config, states: seq<State>, steps: seq<Step>, n: nat, num: nat) returns (k: nat)
    requires IsRun(c, states, steps) && n < |states| && num in states[n].wire.jobs
    ensures k < n && steps[k].RecvProbe? && steps[k].pkt.num == num && states[n].wire.jobs[num].t3 == states[k].now
  {
    var s, st := RunStep(c, states, steps, n - 1);
    JobStep(c, s, st, num);
    if num in s.wire.jobs && s.wire.jobs[num].t3 == states[n].wire.jobs[num].t3 {
      k := RecvOf(c, states, steps, n - 1, num);
    } else {
      k := n - 1;
    }
  }

  /** T4 is the time of the step that sent the first ACK, and the second ACK has its own. */
  lemma {:induction false} AckOf(c: Config, states: seq<State>, steps: seq<Step>, n: nat, num: nat, ty: nat)
    returns (k: nat)
    requires IsRun(c, states, steps) && n < |states| && num in states[n].wire.jobs && (ty == 1 || ty == 2)
    requires Left(states[n].wire.jobs[num], ty).Some?
    ensures k < n && steps[k] == (if ty == 1 then SendAck1(num) else SendAck2(num))
    ensures Left(states[n].wire.jobs[num], ty) == Some(states[k].now)
  {
    var s, st := RunStep(c, states, steps, n - 1);
    JobStep(c, s, st, num);
    if num in s.wire.jobs && Left(s.wire.jobs[num], ty) == Left(states[n].wire.jobs[num], ty) {
      k := AckOf(c, states, steps, n - 1, num, ty);
    } else {
      k := n - 1;
    }
  }

  /** Session i or its call holds this event. */
  ghost predicate Holds(s: State, i: nat, ev: Event)
  {
    || (i < |s.table.objs| && (s.table.objs[i].ack1 == Some(ev) || s.table.objs[i].ack2 == Some(ev)))
    || (i < |s.phases| && (WaitOf(s.phases[i]).ack1 == Some(ev) || WaitOf(s.phases[i]).ack2 == Some(ev)))
  }

  /** Steps other than of this call and of the ACK handler bring no event. */
  lemma HoldOther(c: Config, s: State, st: Step, i: nat, ev: Event)
    requires Enabled(s, st) && !st.Call? && !st.HandleAck? && Holds(Apply(c, s, st), i, ev)
    ensures Holds(s, i, ev)
  {
    if st.CloseOne? || st.ShutClose? {
      ClosingFrame(c, s, st);
    } else if !st.Start? {
      QuietFrame(c, s, st);
    }
  }

  lemma HoldHandle(c: Config, s: State, st: Step, i: nat, ev: Event)
    requires Enabled(s, st) && st.HandleAck? && Holds(Apply(c, s, st), i, ev)
    ensures Holds(s, i, ev)
            || (st.found == Some(i) && ev == Event(st.frame.pkt, st.arrived + c.clock(st.frame.to)))
  {
    if st.found.Some? {
      var got := Event(st.frame.pkt, st.arrived + c.clock(st.frame.to));
      DeliveredIsHanded(s.table.objs[st.found.value], got, st.statusOk);
    }
  }

  lemma HoldCall(c: Config, s: State, j: nat, a: Action, i: nat, ev: Event)
    requires Ready(s, j, a) && Holds(AfterCall(c, s, j, a), i, ev)
    ensures Holds(s, i, ev)
  {
  }

  /** The step handled this very event's ACK for session i. */
  ghost predicate Brings(c: Config, st: Step, i: nat, ev: Event)
  {
    st.HandleAck? && st.found == Some(i) && ev == Event(st.frame.pkt, st.arrived + c.clock(st.frame.to))
  }

  lemma HoldStep(c: Config, s: State, st: Step, s': State, i: nat, ev: Event)
    requires Enabled(s, st) && s' == Apply(c, s, st) && !Holds(s, i, ev) && !Brings(c, st, i, ev)
    ensures !Holds(s', i, ev)
  {
    if Holds(s', i, ev) {
      if st.Call? {
        HoldCall(c, s, st.i, st.a, i, ev);
      } else if st.HandleAck? {
        HoldHandle(c, s, st, i, ev);
      } else {
        HoldOther(c, s, st, i, ev);
      }
    }
  }

  lemma HoldBack(c: Config, states: seq<State>, steps: seq<Step>, n: nat, i: nat, ev: Event)
    requires IsRun(c, states, steps) && 0 < n < |states| && Holds(states[n], i, ev)
    ensures Holds(states[n - 1], i, ev) || Brings(c, steps[n - 1], i, ev)
  {
    if !Holds(states[n - 1], i, ev) && !Brings(c, steps[n - 1], i, ev) {
      HoldStep(c, states[n - 1], steps[n - 1], states[n], i, ev);
    }
  }

  lemma NothingHeld(i: nat, ev: Event)
    ensures !Holds(INITIAL, i, ev)
  {
  }

  /** Every event comes from the step that handled its ACK, and is stamped with the time the ACK arrived. */
  lemma {:induction false} HandleOf(c: Config, states: seq<State>, steps: seq<Step>, n: nat, i: nat, ev: Event)
    returns (k: nat)
    requires IsRun(c, states, steps) && n < |states| && Holds(states[n], i, ev)
    ensures k < n && Brings(c, steps[k], i, ev)
  {
    NothingHeld(i, ev);
    HoldBack(c, states, steps, n, i, ev);
    if Holds(states[n - 1], i, ev) {
      k := HandleOf(c, states, steps, n - 1, i, ev);
    } else {
      k := n - 1;
    }
  }

  predicate FinishedOk(ph: Phase)
  {
    (ph.Concluded? || ph.Published?) && ph.r.status == OK
  }

  lemma FinishStep(c: Config, s: State, st: Step, i: nat)
    requires Enabled(s, st) && i < |Apply(c, s, st).phases| && FinishedOk(Apply(c, s, st).phases[i])
    ensures var ph' := Apply(c, s, st).phases[i];
      || (i < |s.phases| && FinishedOk(s.phases[i]) && s.phases[i].r == ph'.r && s.phases[i].w == ph'.w)
      || (st == Call(i, Finish) && i < |s.phases| && s.phases[i].Awaiting? && s.phases[i].w == ph'.w
          && ph'.r.t6 == Some(s.now + c.app))
  {
    if !st.Start? && !st.Call? {
      CountFrame(c, s, st);
    }
  }

  /** The call ended OK with this result and these ACKs. */
  ghost predicate EndedWith(s: State, i: nat, r: Result, w: Wait)
  {
    i < |s.phases| && FinishedOk(s.phases[i]) && s.phases[i].r == r && s.phases[i].w == w
  }

  /** The call holds both ACKs and is about to finish. */
  ghost predicate AboutToFinish(s: State, i: nat, w: Wait)
  {
    i < |s.phases| && s.phases[i].Awaiting? && s.phases[i].w == w && BothReceived(w)
  }

  lemma FinishBack(c: Config, states: seq<State>, steps: seq<Step>, n: nat, i: nat, r: Result, w: Wait)
    requires IsRun(c, states, steps) && 0 < n < |states| && EndedWith(states[n], i, r, w)
    ensures EndedWith(states[n - 1], i, r, w)
            || (steps[n - 1] == Call(i, Finish) && AboutToFinish(states[n - 1], i, w)
                && r.t6 == Some(states[n - 1].now + c.app))
  {
    var s, st := RunStep(c, states, steps, n - 1);
    FinishStep(c, s, st, i);
  }

  /** T6 is the application time of the call's Finish step, taken with both ACKs in hand. */
  lemma {:induction false} FinishOf(c: Config, states: seq<State>, steps: seq<Step>, n: nat, i: nat, r: Result, w: Wait)
    returns (k: nat)
    requires IsRun(c, states, steps) && n < |states| && EndedWith(states[n], i, r, w)
    ensures k < n && steps[k] == Call(i, Finish) && r.t6 == Some(states[k].now + c.app)
    ensures AboutToFinish(states[k], i, w)
  {
    assert n > 0 by {
      assert INITIAL.phases == [];
    }
    FinishBack(c, states, steps, n, i, r, w);
    if EndedWith(states[n - 1], i, r, w) {
      k := FinishOf(c, states, steps, n - 1, i, r, w);
    } else {
      k := n - 1;
    }
  }

  // ---------- the whole result ----------

  /** The steps behind a result. */
  datatype Moments = Moments(post: nat, transmit: nat, recv: nat, ack: nat, handle: nat, finish: nat)

  /** These are steps of the run and belong to probe i. */
  ghost predicate StepsOf(steps: seq<Step>, i: nat, m: Moments)
  {
    && m.post < |steps| && steps[m.post] == Call(i, Post)
    && m.transmit < |steps| && steps[m.transmit] == Transmit(i)
    && m.recv < |steps| && steps[m.recv].RecvProbe? && steps[m.recv].pkt.num == i + 1
    && m.ack < |steps| && steps[m.ack] == SendAck1(i + 1)
    && m.handle < |steps| && steps[m.handle].HandleAck? && steps[m.handle].found == Some(i)
    && steps[m.handle].frame.pkt.num == i + 1
    && m.finish < |steps| && steps[m.finish] == Call(i, Finish)
  }

  /** The six timestamps are the clock readings at these steps, on the probe's own route. */
  ghost predicate StampedAt(c: Config, states: seq<State>, steps: seq<Step>, route: Route, i: nat, r: Result,
                            m: Moments)
    requires |states| == |steps| + 1 && StepsOf(steps, i, m)
  {
    && r.t1 == Some(states[m.post].now + c.app)
    && r.t2 == Some(states[m.transmit].now + c.clock(route.src))
    && r.t3 == Some(states[m.recv].now + c.clock(route.dst))
    && r.t4 == Some(states[m.ack].now + c.clock(route.dst))
    && r.t5 == Some(steps[m.handle].arrived + c.clock(route.src))
    && r.t6 == Some(states[m.finish].now + c.app)
  }

  /** They happened in this order, in true time. */
  ghost predicate InOrder(states: seq<State>, steps: seq<Step>, i: nat, m: Moments)
    requires |states| == |steps| + 1 && StepsOf(steps, i, m)
  {
    && states[m.post].now <= states[m.transmit].now <= states[m.recv].now <= states[m.ack].now
    && states[m.ack].now <= steps[m.handle].arrived <= states[m.handle].now <= states[m.finish].now
    && states[m.finish].now <= states[|steps|].now
  }

  /** The figures are true elapsed times, and none is negative. */
  ghost predicate TrueFigures(states: seq<State>, steps: seq<Step>, i: nat, r: Result, m: Moments)
    requires |states| == |steps| + 1 && StepsOf(steps, i, m)
  {
    var arrived := steps[m.handle].arrived;
    && r.metrics.Some?
    && r.metrics.value.responderDelay == states[m.ack].now - states[m.recv].now >= 0
    && r.metrics.value.networkRtt
       == (states[m.recv].now - states[m.transmit].now) + (arrived - states[m.ack].now) >= 0
    && r.metrics.value.proberDelay
       == (states[m.transmit].now - states[m.post].now) + (states[m.finish].now - arrived) >= 0
  }

  lemma SentMoments(c: Config, states: seq<State>, steps: seq<Step>, i: nat) returns (post: nat, transmit: nat)
    requires IsRun(c, states, steps) && i < |states[|steps|].nets|
    requires states[|steps|].nets[i].sentAt.Some? && states[|steps|].nets[i].departed.Some?
    ensures transmit < |steps| && steps[transmit] == Transmit(i) && post < transmit && steps[post] == Call(i, Post)
    ensures states[|steps|].nets[i].departed == Some(states[transmit].now)
    ensures states[|steps|].nets[i].sentAt == Some(states[post].now + c.app)
    ensures states[post].now <= states[transmit].now
  {
    transmit := TransmitOf(c, states, steps, |steps|, i);
    post := PostOf(c, states, steps, transmit, i);
    NetStays(c, states, steps, transmit, |steps|, i);
    NowGrows(c, states, steps, post, transmit);
  }

  /** The event that set T5, in the call's hands when it finished. */
  lemma T5Event(c: Config, s: State, i: nat) returns (ev: Event)
    requires NetInv(c, s) && ChanInv(c, s) && Routed(s) && |s.table.objs| == |s.phases|
    requires i < |s.phases| && s.phases[i].Awaiting? && BothReceived(s.phases[i].w)
    ensures Holds(s, i, ev) && s.phases[i].w.t5 == Some(ev.receivedAt) && ev.pkt.num == i + 1
  {
    assert GoodWait(c, s.wire.jobs, s.now, WaitOf(s.phases[i]));
    var w := s.phases[i].w;
    assert OwnSlot(WaitOf(s.phases[i]).ack1, i + 1) && OwnSlot(WaitOf(s.phases[i]).ack2, i + 1);
    ev := if w.t5 == Some(w.ack1.value.receivedAt) then w.ack1.value else w.ack2.value;
  }

  /** An ACK that is handled goes back to the RNIC its probe was sent from. */
  lemma BackToSource(c: Config, s: State, f: Frame, i: nat)
    requires NetInv(c, s) && f in s.wire.acks && f.pkt.num == i + 1
    ensures i < |s.nets| && f.to == s.nets[i].route.src
  {
    assert GoodFrame(c, s.wire.jobs, f);
    assert GoodJob(s.nets, i + 1, s.wire.jobs[i + 1], s.now);
  }

  /** The event that set T5 was in the call's hands when it finished, and is its own. */
  lemma HeldAtFinish(c: Config, states: seq<State>, steps: seq<Step>, k: nat, i: nat, w: Wait) returns (ev: Event)
    requires OwnedRun(c, states, steps) && k < |states| && AboutToFinish(states[k], i, w)
    ensures Holds(states[k], i, ev) && w.t5 == Some(ev.receivedAt) && ev.pkt.num == i + 1
  {
    InvRun(c, states, steps, k);
    RoutingOverRuns(c, states, steps, k);
    ev := T5Event(c, states[k], i);
  }

  /** Its ACK came back to the RNIC the probe was sent from. */
  lemma Arrival(c: Config, states: seq<State>, steps: seq<Step>, k: nat, i: nat)
    requires IsRun(c, states, steps) && k < |steps| && steps[k].HandleAck? && steps[k].frame.pkt.num == i + 1
    ensures i < |states[|steps|].nets| && steps[k].frame.to == states[|steps|].nets[i].route.src
    ensures steps[k].arrived <= states[k].now
  {
    InvRun(c, states, steps, k);
    var s, st := RunStep(c, states, steps, k);
    BackToSource(c, s, st.frame, i);
    NetStays(c, states, steps, k, |steps|, i);
  }

  lemma FinishMoments(c: Config, states: seq<State>, steps: seq<Step>, i: nat, r: Result, w: Wait)
    returns (handle: nat, finish: nat)
    requires OwnedRun(c, states, steps) && EndedWith(states[|steps|], i, r, w) && i < |states[|steps|].nets|
    ensures finish < |steps| && steps[finish] == Call(i, Finish) && handle < finish
    ensures r.t6 == Some(states[finish].now + c.app)
    ensures steps[handle].HandleAck? && steps[handle].found == Some(i) && steps[handle].frame.pkt.num == i + 1
    ensures w.t5 == Some(steps[handle].arrived + c.clock(states[|steps|].nets[i].route.src))
    ensures steps[handle].arrived <= states[handle].now <= states[finish].now <= states[|steps|].now
  {
    finish := FinishOf(c, states, steps, |steps|, i, r, w);
    var ev := HeldAtFinish(c, states, steps, finish, i, w);
    handle := HandleOf(c, states, steps, finish, i, ev);
    Arrival(c, states, steps, handle, i);
    NowGrows(c, states, steps, handle, finish);
    NowGrows(c, states, steps, finish, |steps|);
  }

  lemma AnswerMoments(c: Config, states: seq<State>, steps: seq<Step>, i: nat) returns (recv: nat, ack: nat)
    requires IsRun(c, states, steps) && i + 1 in states[|steps|].wire.jobs
    requires states[|steps|].wire.jobs[i + 1].t4.Some?
    ensures recv < |steps| && steps[recv].RecvProbe? && steps[recv].pkt.num == i + 1
    ensures ack < |steps| && steps[ack] == SendAck1(i + 1)
    ensures states[|steps|].wire.jobs[i + 1].t3 == states[recv].now
    ensures states[|steps|].wire.jobs[i + 1].t4 == Some(states[ack].now)
  {
    recv := RecvOf(c, states, steps, |steps|, i + 1);
    ack := AckOf(c, states, steps, |steps|, i + 1, 1);
  }

  lemma FiguresFromStamps(c: Config, states: seq<State>, steps: seq<Step>, route: Route, i: nat, r: Result, m: Moments)
    requires |states| == |steps| + 1 && StepsOf(steps, i, m) && StampedAt(c, states, steps, route, i, r, m)
    requires InOrder(states, steps, i, m) && Complete(r)
    ensures TrueFigures(states, steps, i, r, m)
  {
  }

  /** The result is what these steps make it. */
  ghost predicate Explains(c: Config, states: seq<State>, steps: seq<Step>, i: nat, r: Result, m: Moments)
    requires |states| == |steps| + 1 && i < |states[|steps|].nets|
  {
    && StepsOf(steps, i, m) && StampedAt(c, states, steps, states[|steps|].nets[i].route, i, r, m)
    && InOrder(states, steps, i, m) && TrueFigures(states, steps, i, r, m)
  }

  /** In every run with unambiguous labels, each timestamp of an OK result is the clock reading at the step of this very
      probe that it stands for, the steps are in causal order, and all three figures are true elapsed times. */
  lemma TimestampsAreSteps(c: Config, states: seq<State>, steps: seq<Step>, j: nat) returns (m: Moments)
    requires OwnedRun(c, states, steps) && j < |states[|steps|].results|
    requires states[|steps|].results[j].1.status == OK
    ensures states[|steps|].results[j].0 < |states[|steps|].nets|
    ensures Explains(c, states, steps, states[|steps|].results[j].0, states[|steps|].results[j].1, m)
  {
    OkResultsAreOwn(c, states, steps, |steps|, j);
    var w := OkShapeOfRun(c, states, steps, j);
    m := MomentsOf(c, states, steps, states[|steps|].results[j].0, states[|steps|].results[j].1, w);
  }

  lemma MomentsOf(c: Config, states: seq<State>, steps: seq<Step>, i: nat, r: Result, w: Wait) returns (m: Moments)
    requires OwnedRun(c, states, steps) && MeasuredFrom(c, states[|steps|], i, r)
    requires EndedWith(states[|steps|], i, r, w) && w.t5 == r.t5
    ensures Explains(c, states, steps, i, r, m)
  {
    var post, transmit := SentMoments(c, states, steps, i);
    var recv, ack := AnswerMoments(c, states, steps, i);
    var handle, finish := FinishMoments(c, states, steps, i, r, w);
    m := Moments(post, transmit, recv, ack, handle, finish);
    Assemble(c, states, steps, i, r, m);
  }

  lemma Assemble(c: Config, states: seq<State>, steps: seq<Step>, i: nat, r: Result, m: Moments)
    requires |states| == |steps| + 1 && StepsOf(steps, i, m) && MeasuredFrom(c, states[|steps|], i, r)
    requires var net, job := states[|steps|].nets[i], states[|steps|].wire.jobs[i + 1];
      && net.sentAt == Some(states[m.post].now + c.app) && net.departed == Some(states[m.transmit].now)
      && job.t3 == states[m.recv].now && job.t4 == Some(states[m.ack].now)
      && r.t5 == Some(steps[m.handle].arrived + c.clock(net.route.src)) && r.t6 == Some(states[m.finish].now + c.app)
    requires states[m.post].now <= states[m.transmit].now
    requires steps[m.handle].arrived <= states[m.handle].now <= states[m.finish].now <= states[|steps|].now
    ensures Explains(c, states, steps, i, r, m)
  {
    FiguresFromStamps(c, states, steps, states[|steps|].nets[i].route, i, r, m);
  }

  lemma OkShapeOfRun(c: Config, states: seq<State>, steps: seq<Step>, j: nat) returns (w: Wait)
    requires IsRun(c, states, steps) && j < |states[|steps|].results|
    requires states[|steps|].results[j].1.status == OK
    ensures EndedWith(states[|steps|], states[|steps|].results[j].0, states[|steps|].results[j].1, w)
    ensures w.t5 == states[|steps|].results[j].1.t5
  {
    InvRun(c, states, steps, |steps|);
    OkShape(c, states[|steps|], j);
    w := states[|steps|].phases[states[|steps|].results[j].0].w;
  }

  lemma OkShape(c: Config, s: State, j: nat)
    requires NetInv(c, s) && ChanInv(c, s) && PubInv(s.phases, s.results)
    requires j < |s.results| && s.results[j].1.status == OK
    ensures var (i, r) := s.results[j];
      && i < |s.phases| && i < |s.nets| && FinishedOk(s.phases[i]) && s.phases[i].r == r && BothReceived(s.phases[i].w)
      && s.nets[i].sentAt.Some? && s.nets[i].departed.Some? && s.phases[i].w.t5 == r.t5
  {
    var i := s.results[j].0;
    assert PhaseNet(c, s.phases[i], s.nets[i]);
    assert GoodWait(c, s.wire.jobs, s.now, WaitOf(s.phases[i]));
    var r, w, net := s.phases[i].r, s.phases[i].w, s.nets[i];
    ConcludeIsComplete(net.sentAt.value, net.departed.value + c.clock(net.route.src), w, r.t6.value);
  }
}

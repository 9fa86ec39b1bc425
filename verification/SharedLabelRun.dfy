/** A whole run in which two probes share a flow label and the first publishes an OK result although no responder
    ever received it. */
module SharedLabelRun {
  import opened Collections
  import opened Sessions
  import opened Waiting
  import opened Protocol
  import opened WireRuns
  import opened ProtocolTheorems
  import opened Misrouting

  /** How long a service probe's context lasts: 500 milliseconds. */
  const CONTEXT: int := 500_000_000

  predicate Aligned(s: State)
  {
    |s.phases| == |s.nets| == |s.table.objs|
  }

  /** One more session, added and waiting to be probed. */
  ghost function WithSession(s: State, src: string, dst: string, flow: nat, queue: bool): State
  {
    var route := Route(src, dst, flow, queue, s.now + CONTEXT);
    var n := |s.table.objs|;
    var objs := s.table.objs + [NewSession(n + 1, src, dst, flow, s.now)];
    s.(table := Table(s.table.sessions[objs[n].id.key := n], s.table.index[n + 1 := objs[n].id.key], objs),
       phases := s.phases + [Registered],
       nets := s.nets + [Net(route, false, None, None)],
       stats := s.stats.(created := s.stats.created + 1))
  }

  lemma AddOne(c: Config, s: State, src: string, dst: string, flow: nat, queue: bool) returns (steps: seq<Step>)
    requires Aligned(s)
    ensures Leads(c, s, steps, WithSession(s, src, dst, flow, queue))
  {
    var n := |s.table.objs|;
    var st := Start(src, dst, flow, Route(src, dst, flow, queue, s.now + CONTEXT));
    var s1 := Apply(c, s, st);
    var s2 := AfterCall(c, s1, n, Store);
    var s3 := AfterCall(c, s2, n, Index);
    assert s3.phases == s.phases + [Registered];
    assert s3 == WithSession(s, src, dst, flow, queue);
    CallFirst(c, s2, n, Index, [], s3);
    CallFirst(c, s1, n, Store, [Call(n, Index)] + [], s3);
    steps := [Call(n, Store)] + ([Call(n, Index)] + []);
    LeadsFirst(c, s, st, steps, s3);
    steps := [st] + steps;
  }

  /** The state once probe i was sent and its call waits for the ACKs. */
  ghost function Sent(c: Config, s: State, i: nat): State
    requires InRange(s, i)
  {
    var net := Net(s.nets[i].route, s.nets[i].broken, Some(s.now + c.app), Some(s.now));
    s.(phases := s.phases[i := Awaiting(s.now + c.app, s.now + c.clock(net.route.src), NO_ACKS)],
       nets := s.nets[i := net],
       wire := s.wire.(air := s.wire.air + {PacketOf(net, i)}))
  }

  lemma SendOne(c: Config, s: State, i: nat) returns (steps: seq<Step>)
    requires InRange(s, i) && s.phases[i].Registered? && s.nets[i].departed.None? && s.nets[i].route.queue
    ensures Leads(c, s, steps, Sent(c, s, i))
  {
    var s1 := AfterCall(c, s, i, Post);
    var s2 := Apply(c, s1, Transmit(i));
    var s3 := AfterCall(c, s2, i, SendReturns);
    assert s3.nets == Sent(c, s, i).nets && s3.phases == Sent(c, s, i).phases;
    assert s3 == Sent(c, s, i);
    CallFirst(c, s2, i, SendReturns, [], s3);
    LeadsFirst(c, s1, Transmit(i), [Call(i, SendReturns)] + [], s3);
    steps := [Transmit(i)] + ([Call(i, SendReturns)] + []);
    CallFirst(c, s, i, Post, steps, s3);
    steps := [Call(i, Post)] + steps;
  }

  function AckFrame(c: Config, j: Job, now: int, ty: nat): Frame
    requires j.t4.Some?
  {
    Frame(if ty == 1 then FirstAck(c, j) else SecondAck(c, j), j.pkt.flow, j.pkt.dst, j.pkt.src, now)
  }

  /** The state once the responder has answered packet p twice. */
  ghost function Answered(c: Config, s: State, p: Probe): State
  {
    var job := Job(p, s.now, Some(s.now), Some(s.now));
    s.(wire := s.wire.(air := s.wire.air - {p}, jobs := s.wire.jobs[p.num := job],
                       acks := s.wire.acks + {AckFrame(c, job, s.now, 1)} + {AckFrame(c, job, s.now, 2)}),
       stats := s.stats.(probesReceived := s.stats.probesReceived + 1, acksSent := s.stats.acksSent + 2))
  }

  lemma AnswerOne(c: Config, s: State, p: Probe) returns (steps: seq<Step>)
    requires p in s.wire.air
    ensures Leads(c, s, steps, Answered(c, s, p))
  {
    var s1 := AfterRecv(s, p, true);
    var s2 := AfterAck1(c, s1, p.num);
    var s3 := AfterAck2(c, s2, p.num);
    assert s3.wire.jobs == Answered(c, s, p).wire.jobs;
    assert s3 == Answered(c, s, p);
    LeadsFirst(c, s2, SendAck2(p.num), [], s3);
    LeadsFirst(c, s1, SendAck1(p.num), [SendAck2(p.num)] + [], s3);
    steps := [SendAck1(p.num)] + ([SendAck2(p.num)] + []);
    LeadsFirst(c, s, RecvProbe(p, true), steps, s3);
    steps := [RecvProbe(p, true)] + steps;
  }

  /** Two probes with label 0 are waiting; only the second was answered. */
  ghost predicate SecondAnswered(c: Config, s: State, f1: Frame, f2: Frame)
  {
    && Idle(s, 0) && s.table.objs[0].id.flow == 0 && s.results == []
    && f1 in s.wire.acks && f1.flow == 0 && f1.pkt.num == 2 && f1.pkt.ackType == 1
    && f2 in s.wire.acks && f2.flow == 0 && f2.pkt.num == 2 && f2.pkt.ackType == 2
    && 1 !in s.wire.jobs && HasRoom(s.outbox)
  }

  lemma TwoAdded(c: Config) returns (steps: seq<Step>, s: State)
    ensures Leads(c, INITIAL, steps, s) && |s.phases| == |s.nets| == |s.table.objs| == 2
    ensures s.now == 0 && s.phases == [Registered, Registered]
    ensures s.nets == [Net(Route("src", "dst1", 0, true, CONTEXT), false, None, None),
                       Net(Route("src", "dst2", 0, true, CONTEXT), false, None, None)]
    ensures HasRoom(s.outbox)
    ensures Live(s.table, 0) && s.table.objs[0] == NewSession(1, "src", "dst1", 0, 0)
    ensures s.results == [] && s.wire == INITIAL.wire
  {
    var s1 := WithSession(INITIAL, "src", "dst1", 0, true);
    s := WithSession(s1, "src", "dst2", 0, true);
    steps := AddOne(c, INITIAL, "src", "dst1", 0, true);
    var more := AddOne(c, s1, "src", "dst2", 0, true);
    LeadsOn(c, INITIAL, steps, s1, more, s);
    steps := steps + more;
  }

  /** What sending both probes leaves. */
  lemma SentBoth(c: Config, s: State)
    requires |s.phases| == |s.nets| == |s.table.objs| == 2 && s.now == 0
    requires s.nets[1] == Net(Route("src", "dst2", 0, true, CONTEXT), false, None, None)
    requires Live(s.table, 0) && s.table.objs[0] == NewSession(1, "src", "dst1", 0, 0)
    ensures var s' := Sent(c, Sent(c, s, 0), 1);
      && Idle(s', 0) && s'.table == s.table && s'.results == s.results && s'.wire.jobs == s.wire.jobs
      && Probe(2, c.app, 0, "src", "dst2") in s'.wire.air && s'.outbox == s.outbox
  {
  }

  lemma TwoSent(c: Config) returns (steps: seq<Step>, s: State)
    ensures Leads(c, INITIAL, steps, s)
    ensures Idle(s, 0) && s.table.objs[0].id.flow == 0 && s.results == [] && s.wire.jobs == map[]
    ensures Probe(2, c.app, 0, "src", "dst2") in s.wire.air && HasRoom(s.outbox)
  {
    var s1;
    steps, s1 := TwoAdded(c);
    SentBoth(c, s1);
    var s2 := Sent(c, s1, 0);
    s := Sent(c, s2, 1);
    var more := SendOne(c, s1, 0);
    LeadsOn(c, INITIAL, steps, s1, more, s2);
    steps := steps + more;
    more := SendOne(c, s2, 1);
    LeadsOn(c, INITIAL, steps, s2, more, s);
    steps := steps + more;
  }

  lemma Setup(c: Config) returns (steps: seq<Step>, s: State, f1: Frame, f2: Frame)
    ensures Leads(c, INITIAL, steps, s) && SecondAnswered(c, s, f1, f2)
  {
    var s1;
    steps, s1 := TwoSent(c);
    var p := Probe(2, c.app, 0, "src", "dst2");
    s := Answered(c, s1, p);
    var more := AnswerOne(c, s1, p);
    LeadsOn(c, INITIAL, steps, s1, more, s);
    steps := steps + more;
    var job := Job(p, s1.now, Some(s1.now), Some(s1.now));
    f1, f2 := AckFrame(c, job, s1.now, 1), AckFrame(c, job, s1.now, 2);
  }

  /** Without the label hypothesis routing fails in a run from the initial state, whatever the clocks: probe 1
      ends OK and complete, with the responder times of probe 2, though no responder ever received probe 1. */
  lemma LabelsMustDiffer(c: Config) returns (states: seq<State>, steps: seq<Step>, r: Result)
    ensures IsRun(c, states, steps) && !OwnedRun(c, states, steps)
    ensures var s := states[|steps|];
      && s.results == [(0, r)] && r.status == OK && Complete(r) && !MeasuredFrom(c, s, 0, r)
      && 1 !in s.wire.jobs && 2 in s.wire.jobs
      && r.t3.value == s.wire.jobs[2].t3 + c.clock(s.wire.jobs[2].pkt.dst)
  {
    var s, f1, f2, more, s';
    steps, s, f1, f2 := Setup(c);
    SetupInv(c, steps, s);
    more, s', r := SharedLabelMisattributes(c, s, 0, f1, f2, 2);
    LeadsOn(c, INITIAL, steps, s, more, s');
    steps := steps + more;
    states := LeadsPath(c, INITIAL, steps, s');
    NotOwned(c, states, steps, r);
  }

  lemma SetupInv(c: Config, steps: seq<Step>, s: State)
    requires Leads(c, INITIAL, steps, s)
    ensures TableInv(s.table) && WireInv(c, s.nets, s.wire, s.now)
  {
    var states := LeadsPath(c, INITIAL, steps, s);
    InvRun(c, states, steps, |steps|);
  }

  lemma NotOwned(c: Config, states: seq<State>, steps: seq<Step>, r: Result)
    requires IsRun(c, states, steps) && states[|steps|].results == [(0, r)] && r.status == OK
    requires 1 !in states[|steps|].wire.jobs
    ensures !OwnedRun(c, states, steps) && !MeasuredFrom(c, states[|steps|], 0, r)
  {
    if OwnedRun(c, states, steps) {
      OkResultsAreOwn(c, states, steps, |steps|, 0);
    }
  }
}
